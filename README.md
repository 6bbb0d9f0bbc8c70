# home-ac-stats, modelled in Dafny

home-ac-stats is a single-run job. It reads the climate-control devices of a
Sensibo account and the current outside temperature from the Open-Meteo
forecast API. When the weather lookup succeeds it records one outside-temperature gauge,
and for each device it records
one observation tagged `room=<sanitized room name>` carrying the
room temperature and the AC state (0 or 1). The metrics backend then exports
them.

This project models the data path of that run, everything in `main.go` that
is not network, JSON or metrics-library plumbing:

- `Sanitizer` (`sanitizer.dfy`): `sanitizeString`, the allow-list filter that
  turns a room name into a label. It is an imperative method with a loop,
  proved equal to the recursive function `Sanitized`, with lemmas about that
  function: the output alphabet, exact per-rune accounting, distribution over
  concatenation, when the output equals the input, and exactly when
  sanitizing twice equals sanitizing once.
- `Sources` (`sources.dfy`): what `GetDevices` and `getTemperature` do with
  the reply to their single GET, including the status check of the device
  listing and the empty-series check and first-element selection of the
  weather reader. The reply itself, with its status, body and decoded
  payload, is an input.
- `Recorder` (`recorder.dfy`): `boolToInt`, the per-device recording loop of
  `main` with its abort at the first failing recording, and the whole run.
  The run covers the API-key check, the fatal device fetch, the non-fatal
  weather lookup and its optional outside-temperature observation. Recording
  is modelled as appending an `Observation` to a sequence.
- `Wrappers` (`wrappers.dfy`): `Option` and `Result`, which stand for Go's
  `(value, error)` returns.

A Go string ranged over with `for … range` yields runes. It is modelled as a
`seq<char>`, one element per rune. A temperature (`float64`) is only ever
passed through, so it is the opaque type `Sources.Celsius`. A fatal
`log.Fatal` path is a `Fatal` outcome, not a process exit.

The sanitizer is not idempotent, and the model follows the code.
`"Living Room"` becomes `"Living_Room"`, and sanitizing that again gives
`"LivingRoom"`, because `_` is not on the allow-list (main.go:156-160).
`Sanitizer.SanitizedIdempotent` proves that sanitizing twice equals sanitizing
once exactly when the input has no space. `Sanitizer.SingleSpaceExample`
gives the smallest counterexample: `" "` becomes `"_"`, which becomes `""`.
`Sanitizer.NotIdempotentExample` gives one with letters around the space. Likewise, only the space character becomes
an underscore. A tab or any other whitespace is dropped, so a "run of
whitespace" maps to underscores only when it is made of spaces.

## Model

| member | source | states |
|---|---|---|
| `Sanitizer.SanitizeString` | main.go:153-163 | the left-to-right append loop returns exactly `Sanitized(str)` |
| `Sanitizer.Contribution` | main.go:156-160 | one rune contributes at most one label rune: itself exactly when it is an ASCII letter or digit, `_` when it is a space, and nothing for every other rune (including `_`) |
| `Sanitizer.Sanitized` | main.go:153-163 | every rune of the result is an ASCII letter, an ASCII digit or `_`, and the result is no longer than the input |
| `Sanitizer.SanitizedAppend` | main.go:154-162 | sanitizing `a + b` equals sanitizing `a` followed by sanitizing `b` |
| `Sanitizer.SanitizedCons` | main.go:154-162 | the first rune's contribution (itself, `_`, or nothing) comes first, followed by the sanitized rest |
| `Sanitizer.SanitizedCount` | main.go:155-161 | each ASCII letter or digit occurs in the result as often as in the input; `_` occurs once per input space; no other rune occurs |
| `Sanitizer.SanitizedLengthExact` | main.go:155-161 | the length is preserved if and only if every input rune is an ASCII letter, a digit or a space |
| `Sanitizer.SanitizedIdentity` | main.go:156-160 | the result equals the input if and only if the input holds only ASCII letters and digits |
| `Sanitizer.SanitizedIdempotent` | main.go:156-160 | sanitizing twice equals sanitizing once if and only if the input holds no space |
| `Sanitizer.SingleSpaceExample` | main.go:156-160 | `" "` sanitizes to `"_"`, which sanitizes to `""` |
| `Sanitizer.NotIdempotentExample` | main.go:156-160 | `"a b"` sanitizes to `"a_b"`, which sanitizes to `"ab"` |
| `Sanitizer.SanitizedSpaces` | main.go:158-159 | a run of n spaces anywhere in the input becomes a run of n underscores at the same place in the output |
| `Sanitizer.LivingRoomExamples` | main.go:156-160 | `"Living Room"` gives `"Living_Room"`; `"Living-Room"` gives `"LivingRoom"` (dropped punctuation merges words) |
| `Sources.GetDevices` | main.go:119-131 | succeeds exactly on a status-200 reply with a decodable body, returning the decoded list; a transport failure is `RequestError`, any other status is `ResponseError` carrying that status and the body verbatim, a bad body is `DecodeError` |
| `Sources.FirstHourly` | main.go:106-109 | fails, with `NoDataError`, exactly when the hourly series is empty; otherwise returns its element 0 |
| `Sources.GetTemperature` | main.go:92-109 | succeeds exactly when a reply arrived whose body decodes to a non-empty series, returning element 0; transport failure, bad body and empty series give `RequestError`, `DecodeError` and `NoDataError` |
| `Sources.WeatherIgnoresStatus` | main.go:92-109 | the weather reader's outcome does not depend on the status code or the body, only on the decoded payload |
| `Recorder.BoolToInt` | main.go:112-117 | the result is 0 or 1, and it is 1 exactly when the argument is true |
| `Recorder.DeviceObservation` | main.go:75-82 | a device's observation is a per-room reading whose label is a valid label and whose AC state is 0 or 1 |
| `Recorder.OutsideObservation` | main.go:66-72 | at most one observation; there is one exactly when the weather lookup succeeded, and it is the outside temperature it returned |
| `Recorder.DeviceObservations` | main.go:74-86 | one observation per device |
| `Recorder.DeviceObservationAt` | main.go:74-82 | the i-th observation carries the i-th device's sanitized room name, its temperature and `BoolToInt` of its AC state |
| `Recorder.DeviceObservationsAppend` | main.go:74-86 | the observations of `a + b` are those of `a` followed by those of `b` (device order is kept) |
| `Recorder.AbortedPassIsPrefix` | main.go:83-84 | the observations recorded before an abort at device k are the first k of an unaborted pass |
| `Recorder.RecordDevices` | main.go:74-86 | fails exactly when a recording within the list fails, naming that device's id; with no failure records one observation per device in order, otherwise exactly those of the devices before the failing one |
| `Recorder.Run` | main.go:20-86 | an empty API key, or a failed device listing, is fatal with nothing recorded; otherwise the outside temperature is recorded first and exactly when the weather lookup succeeded, a weather error is only a warning, and device observations follow up to the first recording failure, which is fatal |

## Left out

- HTTP requests and JSON decoding (main.go:92-105, 120, 129-130): each reader
  receives the reply as a value `HttpReply`. Whether a body decodes, and to
  what, is part of that value.
- Metric and view definitions and their registration (main.go:24-42):
  foreign-library calls. Registration failure, which is fatal in the source,
  is not modelled.
- Tag upsert semantics and the internals of `stats.Record` and
  `stats.RecordWithTags` (main.go:71, 79-83). Recording is appending an
  `Observation`. Whether a tagged recording fails is the input `firstFailure`,
  and a failed recording is taken to record nothing. The outside-temperature
  `stats.Record` returns no error in the source, so it never fails here.
- The Stackdriver exporter: its construction, start, the deferred `Flush` and
  `StopMetricsExporter`, and its background export goroutine (main.go:44-59).
  These are a foreign client and concurrency. Their construction and start
  failures, fatal in the source (main.go:51-53, 56-58), are not modelled:
  `Run` describes a run in which both succeeded. Because the model does not
  exit the process, it also does not capture that `log.Fatal` skips the
  deferred flush.
- Environment reads (main.go:20, 45): the API key is a parameter of `Run`, and
  the project id is not modelled.
- Logging, `fmt` formatting and the deferred "success" message (main.go:19,
  68, 70, 76-78).
- Temperatures are opaque, so nothing numeric is stated about them. The int64
  of `boolToInt` is an unbounded `int`, which is exact because it is only ever
  0 or 1.
- Decoding invalid UTF-8: Go's `range` yields U+FFFD for an invalid byte,
  which the sanitizer drops. The model starts from runes, so it does not model
  bytes.
