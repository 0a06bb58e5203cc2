/**
 * The value held by a JSend response (Response.java): its status and the
 * optional fields that the static factories fill in, together with one
 * function per factory saying which envelope that factory builds.
 *
 * A Java `null` field is `None`. Maps are Dafny values, so the copy that
 * each factory takes of a caller's map cannot alias it.
 */
module Envelopes {
  import opened Wrappers
  import opened Statuses

  /** A Java `Integer`: a signed 32-bit value. */
  newtype Int32 = x: int | -0x8000_0000 <= x < 0x8000_0000

  /** A payload value in `data` (the Java type parameter `T`); how it is encoded as JSON is not modelled. */
  type Payload

  /** A value in `errorData` (a Java `Object`), equally opaque. */
  type JavaObject

  /** The fields of a response. */
  datatype Envelope = Envelope(
    status: Status,
    reasons: Option<map<string, string>>,
    data: Option<map<string, Payload>>,
    message: Option<string>,
    code: Option<Int32>,
    errorData: Option<map<string, JavaObject>>)

  /** The exception `Objects.requireNonNull` throws, with its message. */
  datatype NullArgument = NullArgument(message: string)

  const DataKeyNull := "Data key cannot be null for success response."
  const DataMapNull := "Data map cannot be null for success response."
  const FailMessageNull := "Fail message cannot be null."
  const ReasonsMapNull := "Reasons map cannot be null for fail response."
  const ErrorMessageNull := "Error message cannot be null."

  /**
   * Only the fields that belong to the status are set: `data` for a
   * success; exactly one of `message` and `reasons` for a fail; a
   * `message`, and possibly a `code` and `errorData`, for an error.
   */
  predicate WellFormed(e: Envelope) {
    match e.status
    case Success =>
      e.data.Some? && e.reasons.None? && e.message.None? && e.code.None? && e.errorData.None?
    case Fail =>
      e.data.None? && e.code.None? && e.errorData.None? && (e.message.Some? <==> e.reasons.None?)
    case Error =>
      e.message.Some? && e.data.None? && e.reasons.None?
  }

  /** What the private constructor leaves: the status and every other field null. */
  function Blank(status: Status): (e: Envelope)
    ensures e.status == status
    ensures e.reasons.None? && e.data.None? && e.message.None? && e.code.None? && e.errorData.None?
  {
    Envelope(status, None, None, None, None, None)
  }

  /** `success()`: a success whose data is the empty map. */
  function SuccessEmpty(): (e: Envelope)
    ensures WellFormed(e) && e.status == Success
    ensures e.data == Some(map[])
  {
    Blank(Success).(data := Some(map[]))
  }

  /** `success(key, value)`: a success whose data is the single entry `key: value`. */
  function SuccessEntry(key: Option<string>, value: Payload): (r: Result<Envelope, NullArgument>)
    ensures r.Err? <==> key.None?
    ensures r.Err? ==> r.error == NullArgument(DataKeyNull)
    ensures r.Ok? ==> WellFormed(r.value) && r.value.status == Success
    ensures r.Ok? ==> r.value.data.Some? && r.value.data.value.Keys == {key.value}
    ensures r.Ok? ==> r.value.data.value[key.value] == value
  {
    if key.None? then Err(NullArgument(DataKeyNull))
    else Ok(Blank(Success).(data := Some(map[key.value := value])))
  }

  /** `success(data)`: a success holding a copy of the caller's map. */
  function SuccessMap(data: Option<map<string, Payload>>): (r: Result<Envelope, NullArgument>)
    ensures r.Err? <==> data.None?
    ensures r.Err? ==> r.error == NullArgument(DataMapNull)
    ensures r.Ok? ==> WellFormed(r.value) && r.value.status == Success && r.value.data == data
  {
    if data.None? then Err(NullArgument(DataMapNull))
    else Ok(Blank(Success).(data := Some(data.value)))
  }

  /** `fail(message)`: a fail carrying a general message and no reasons. */
  function FailMessage(message: Option<string>): (r: Result<Envelope, NullArgument>)
    ensures r.Err? <==> message.None?
    ensures r.Err? ==> r.error == NullArgument(FailMessageNull)
    ensures r.Ok? ==> WellFormed(r.value) && r.value.status == Fail
    ensures r.Ok? ==> r.value.message == message && r.value.reasons.None? && r.value.data.None?
  {
    if message.None? then Err(NullArgument(FailMessageNull))
    else Ok(Blank(Fail).(message := Some(message.value)))
  }

  /** `fail(reasons)`: a fail holding a copy of the caller's reasons and no message. */
  function FailReasons(reasons: Option<map<string, string>>): (r: Result<Envelope, NullArgument>)
    ensures r.Err? <==> reasons.None?
    ensures r.Err? ==> r.error == NullArgument(ReasonsMapNull)
    ensures r.Ok? ==> WellFormed(r.value) && r.value.status == Fail
    ensures r.Ok? ==> r.value.reasons == reasons && r.value.message.None? && r.value.data.None?
  {
    if reasons.None? then Err(NullArgument(ReasonsMapNull))
    else Ok(Blank(Fail).(reasons := Some(reasons.value)))
  }

  /**
   * `fail(key, message)`: delegates to `fail(Map.of(key, message))`. `Map.of`
   * itself rejects a null key or message, so both are plain strings here.
   */
  function FailEntry(key: string, message: string): (r: Result<Envelope, NullArgument>)
    ensures r.Ok? && WellFormed(r.value) && r.value.status == Fail
    ensures r.value.reasons == Some(map[key := message]) && r.value.message.None?
  {
    FailReasons(Some(map[key := message]))
  }

  /**
   * `error(message, code, errorData)`: an error with a mandatory message, the
   * given (possibly absent) code, and a copy of `errorData` when it is present.
   */
  function ErrorDetails(message: Option<string>, code: Option<Int32>, errorData: Option<map<string, JavaObject>>): (r: Result<Envelope, NullArgument>)
    ensures r.Err? <==> message.None?
    ensures r.Err? ==> r.error == NullArgument(ErrorMessageNull)
    ensures r.Ok? ==> WellFormed(r.value) && r.value.status == Error
    ensures r.Ok? ==> r.value.message == message && r.value.code == code && r.value.errorData == errorData
  {
    if message.None? then Err(NullArgument(ErrorMessageNull))
    else
      var e := Blank(Error).(message := Some(message.value), code := code);
      Ok(if errorData.Some? then e.(errorData := Some(errorData.value)) else e)
  }

  /** `error(message)`: an error with a mandatory message and nothing else. */
  function ErrorMessage(message: Option<string>): (r: Result<Envelope, NullArgument>)
    ensures r.Err? <==> message.None?
    ensures r.Err? ==> r.error == NullArgument(ErrorMessageNull)
    ensures r.Ok? ==> WellFormed(r.value) && r.value.status == Error
    ensures r.Ok? ==> r.value.message == message && r.value.code.None? && r.value.errorData.None?
  {
    if message.None? then Err(NullArgument(ErrorMessageNull))
    else Ok(Blank(Error).(message := Some(message.value)))
  }

  /** `error(message, code)`: an error with a mandatory message and an optional code. */
  function ErrorCode(message: Option<string>, code: Option<Int32>): (r: Result<Envelope, NullArgument>)
    ensures r.Err? <==> message.None?
    ensures r.Err? ==> r.error == NullArgument(ErrorMessageNull)
    ensures r.Ok? ==> WellFormed(r.value) && r.value.status == Error
    ensures r.Ok? ==> r.value.message == message && r.value.code == code && r.value.errorData.None?
  {
    if message.None? then Err(NullArgument(ErrorMessageNull))
    else Ok(Blank(Error).(message := Some(message.value), code := code))
  }

  /** `fail(key, message)` builds the same envelope as `fail({key: message})`. */
  lemma FailEntryIsFailReasons(key: string, message: string)
    ensures FailEntry(key, message) == FailReasons(Some(map[key := message]))
  {
  }

  /** The shorter `error` factories are the full one with the missing arguments null. */
  lemma ErrorFactoriesAgree(message: Option<string>, code: Option<Int32>)
    ensures ErrorMessage(message) == ErrorDetails(message, None, None)
    ensures ErrorCode(message, code) == ErrorDetails(message, code, None)
  {
  }
}
