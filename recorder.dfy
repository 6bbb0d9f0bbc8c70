/** The recording pass of `main`: one optional outside-temperature
    observation, then one tagged observation per device, in device order,
    aborting at the first recording failure. Recording into the metrics
    library is modelled as appending an `Observation` to a sequence; whether
    a recording call fails is a property of that library, so it is an input
    (`firstFailure`, the index of the first device whose recording fails). */
module Recorder {
  import opened Wrappers
  import opened Sanitizer
  import opened Sources

  /** One submission to the metrics library. A per-room observation carries
      its label and both of its values together, as one tagged call does. */
  datatype Observation =
    | OutsideTemp(value: Celsius)                               // outside_temp, no labels
    | RoomReading(room: string, temperature: Celsius, acState: int)  // room_temp and ac_state, tagged room=<room>

  /** Why the run terminated early. */
  datatype FatalError =
    | MissingApiKey                   // the API key is empty
    | DeviceFetchFailed(cause: FetchError)
    | RecordFailed(deviceId: string)  // the tagged recording for this device failed

  /** How the run ended. A completed run remembers the weather reader's error,
      which is logged as a warning and does not stop the run. */
  datatype RunOutcome =
    | Completed(weatherWarning: Option<FetchError>)
    | Fatal(error: FatalError)

  /** boolToInt: the AC state as an int64 gauge value. */
  function BoolToInt(b: bool): (r: int)
    ensures r == 0 || r == 1
    ensures r == 1 <==> b
  {
    if b then 1 else 0
  }

  /** The observation the source records for one device. */
  function DeviceObservation(d: DeviceInfo): (o: Observation)
    ensures o.RoomReading? && IsLabel(o.room)
    ensures o.acState == 0 || o.acState == 1
  {
    RoomReading(Sanitized(d.roomName), d.temperature, BoolToInt(d.acOn))
  }

  /** The observations for a list of devices, built as the loop builds
      them: those of all devices but the last, then the last one's. */
  function DeviceObservations(devices: seq<DeviceInfo>): (r: seq<Observation>)
    ensures |r| == |devices|
  {
    if devices == [] then []
    else DeviceObservations(devices[..|devices| - 1]) + [DeviceObservation(devices[|devices| - 1])]
  }

  /** The outside-temperature observation, present only when the weather
      reader succeeded. */
  function OutsideObservation(weather: Result<Celsius, FetchError>): (r: seq<Observation>)
    ensures |r| <= 1
    ensures |r| == 1 <==> weather.Success?
    ensures weather.Success? ==> r == [OutsideTemp(weather.value)]
  {
    if weather.Success? then [OutsideTemp(weather.value)] else []
  }

  /** Whether the recording call for one of `n` devices fails, and which. */
  predicate FailsWithin(firstFailure: Option<nat>, n: nat) {
    firstFailure.Some? && firstFailure.value < n
  }

  /** The per-device loop of `main`: each device's room name is sanitized and
      one tagged observation is recorded; the first failing recording stops
      the loop, and only the devices before it have been recorded. */
  method RecordDevices(devices: seq<DeviceInfo>, firstFailure: Option<nat>)
    returns (recorded: seq<Observation>, failed: Option<string>)
    ensures failed.Some? <==> FailsWithin(firstFailure, |devices|)
    ensures failed.None? ==> recorded == DeviceObservations(devices)
    ensures failed.Some? ==>
      var k := firstFailure.value;
      failed.value == devices[k].id && recorded == DeviceObservations(devices[..k])
  {
    recorded, failed := [], None;
    var i := 0;
    while i < |devices|
      invariant 0 <= i <= |devices|
      invariant recorded == DeviceObservations(devices[..i])
      invariant firstFailure.Some? ==> firstFailure.value >= i
    {
      var d := devices[i];
      assert devices[..i + 1][..i] == devices[..i];
      var roomName := SanitizeString(d.roomName);
      if firstFailure == Some(i) {
        failed := Some(d.id);
        return;
      }
      recorded := recorded + [RoomReading(roomName, d.temperature, BoolToInt(d.acOn))];
      i := i + 1;
    }
    assert devices[..|devices|] == devices;
  }

  /** The data path of one run of `main`: an empty API key is fatal; a failed
      device listing is fatal before anything is recorded; a failed weather
      lookup only omits the outside temperature; then every device is
      recorded until the first recording failure. */
  method Run(apiKey: string, devicesReply: HttpReply<seq<DeviceInfo>>,
             weatherReply: HttpReply<seq<Celsius>>, firstFailure: Option<nat>)
    returns (recorded: seq<Observation>, outcome: RunOutcome)
    ensures apiKey == "" ==> outcome == Fatal(MissingApiKey) && recorded == []
    ensures apiKey != "" && GetDevices(devicesReply).Failure? ==>
      outcome == Fatal(DeviceFetchFailed(GetDevices(devicesReply).error)) && recorded == []
    ensures apiKey != "" && GetDevices(devicesReply).Success? ==>
      var devices := GetDevices(devicesReply).value;
      var weather := GetTemperature(weatherReply);
      if FailsWithin(firstFailure, |devices|) then
        var k := firstFailure.value;
        outcome == Fatal(RecordFailed(devices[k].id)) &&
        recorded == OutsideObservation(weather) + DeviceObservations(devices[..k])
      else
        outcome == Completed(if weather.Failure? then Some(weather.error) else None) &&
        recorded == OutsideObservation(weather) + DeviceObservations(devices)
    ensures apiKey != "" && GetDevices(devicesReply).Success? ==>
      ((|recorded| > 0 && recorded[0].OutsideTemp?) <==> GetTemperature(weatherReply).Success?)
  {
    if apiKey == "" {
      return [], Fatal(MissingApiKey);
    }
    var devices := GetDevices(devicesReply);
    if devices.Failure? {
      return [], Fatal(DeviceFetchFailed(devices.error));
    }
    var outsideTemp := GetTemperature(weatherReply);
    var warning: Option<FetchError> := None;
    recorded := [];
    if outsideTemp.Failure? {
      warning := Some(outsideTemp.error);
    } else {
      recorded := recorded + [OutsideTemp(outsideTemp.value)];
    }
    var roomReadings, failed := RecordDevices(devices.value, firstFailure);
    if |roomReadings| > 0 {
      var attempted := if failed.Some? then devices.value[..firstFailure.value] else devices.value;
      DeviceObservationAt(attempted, 0);
    }
    recorded := recorded + roomReadings;
    if failed.Some? {
      return recorded, Fatal(RecordFailed(failed.value));
    }
    outcome := Completed(warning);
  }

  /** The i-th device observation is labelled with the i-th device's
      sanitized room name and carries that device's readings. */
  lemma {:induction false} DeviceObservationAt(devices: seq<DeviceInfo>, i: nat)
    requires i < |devices|
    ensures DeviceObservations(devices)[i] ==
      RoomReading(Sanitized(devices[i].roomName), devices[i].temperature, BoolToInt(devices[i].acOn))
  {
    if i < |devices| - 1 {
      DeviceObservationAt(devices[..|devices| - 1], i);
    }
  }

  /** Recording two lists of devices one after the other records the
      concatenation of their observations. */
  lemma {:induction false} DeviceObservationsAppend(a: seq<DeviceInfo>, b: seq<DeviceInfo>)
    ensures DeviceObservations(a + b) == DeviceObservations(a) + DeviceObservations(b)
  {
    if b == [] {
      assert a + b == a;
    } else {
      var b' := b[..|b| - 1];
      assert (a + b)[..|a + b| - 1] == a + b';
      DeviceObservationsAppend(a, b');
    }
  }

  /** A pass aborted at device k has recorded exactly the first k
      observations of a pass that does not fail. */
  lemma {:induction false} AbortedPassIsPrefix(devices: seq<DeviceInfo>, k: nat)
    requires k <= |devices|
    ensures DeviceObservations(devices[..k]) == DeviceObservations(devices)[..k]
  {
    var done, rest := devices[..k], devices[k..];
    assert done + rest == devices;
    DeviceObservationsAppend(done, rest);
    var prefix := DeviceObservations(done);
    assert |prefix| == k;
    assert (prefix + DeviceObservations(rest))[..k] == prefix;
  }
}
