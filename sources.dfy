/** The two readers, `GetDevices` (the climate-control device listing) and
    `getTemperature` (the hourly weather forecast). The HTTP request and the
    JSON decoding are not modelled: each reader receives what its single GET
    produced as an `HttpReply`, and the model states what the reader makes
    of it. */
module Sources {
  import opened Wrappers

  /** A float64 temperature in degrees Celsius. The program only passes
      temperatures through, so the model keeps them opaque. */
  type Celsius

  /** One device of the listing (the fields of `DeviceInfo` the run reads). */
  datatype DeviceInfo = DeviceInfo(id: string, acOn: bool, roomName: string, temperature: Celsius)

  /** The outcome of one HTTP GET: either the transport failed, or a response
      arrived with a status code, a body, and the outcome of decoding that
      body as JSON (`None` when decoding fails). */
  datatype HttpReply<T> =
    | TransportFailure
    | Reply(status: int, body: string, payload: Option<T>)

  /** Why a reader failed. */
  datatype FetchError =
    | RequestError                              // the GET itself failed
    | ResponseError(status: int, body: string)  // a status other than 200, with the body verbatim
    | DecodeError                               // the body is not the expected JSON
    | NoDataError                               // the hourly temperature series is empty

  const StatusOK := 200

  /** GetDevices: a transport failure, a status other than 200 and a
      malformed body are each an error; otherwise the decoded device list. */
  function GetDevices(reply: HttpReply<seq<DeviceInfo>>): (r: Result<seq<DeviceInfo>, FetchError>)
    ensures r.Success? <==> reply.Reply? && reply.status == StatusOK && reply.payload.Some?
    ensures r.Success? ==> r.value == reply.payload.value
    ensures reply.TransportFailure? ==> r == Failure(RequestError)
    ensures reply.Reply? && reply.status != StatusOK ==> r == Failure(ResponseError(reply.status, reply.body))
    ensures reply.Reply? && reply.status == StatusOK && reply.payload.None? ==> r == Failure(DecodeError)
  {
    match reply
    case TransportFailure => Failure(RequestError)
    case Reply(status, body, payload) =>
      if status != StatusOK then Failure(ResponseError(status, body))
      else if payload.None? then Failure(DecodeError)
      else Success(payload.value)
  }

  /** The empty check and first-element selection of `getTemperature`: an
      empty hourly series is an error, otherwise its first entry is taken
      as the current temperature. */
  function FirstHourly(series: seq<Celsius>): (r: Result<Celsius, FetchError>)
    ensures r.Failure? <==> |series| == 0
    ensures r.Failure? ==> r.error == NoDataError
    ensures r.Success? ==> r.value == series[0]
  {
    if |series| == 0 then Failure(NoDataError) else Success(series[0])
  }

  /** getTemperature: a transport failure or a malformed body is an error,
      otherwise the first hourly value. The status code is never looked at. */
  function GetTemperature(reply: HttpReply<seq<Celsius>>): (r: Result<Celsius, FetchError>)
    ensures r.Success? <==> reply.Reply? && reply.payload.Some? && |reply.payload.value| > 0
    ensures r.Success? ==> r.value == reply.payload.value[0]
    ensures reply.TransportFailure? ==> r == Failure(RequestError)
    ensures reply.Reply? && reply.payload.None? ==> r == Failure(DecodeError)
    ensures reply.Reply? && reply.payload == Some([]) ==> r == Failure(NoDataError)
  {
    match reply
    case TransportFailure => Failure(RequestError)
    case Reply(_, _, payload) =>
      if payload.None? then Failure(DecodeError) else FirstHourly(payload.value)
  }

  /** Unlike the device listing, the weather reader's outcome does not depend
      on the status code or body at all, only on the decoded payload. */
  lemma WeatherIgnoresStatus(s1: int, b1: string, s2: int, b2: string, payload: Option<seq<Celsius>>)
    ensures GetTemperature(Reply(s1, b1, payload)) == GetTemperature(Reply(s2, b2, payload))
  {
  }
}
