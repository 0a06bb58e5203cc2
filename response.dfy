/**
 * The response object (Response.java). Its status is final; every other
 * field starts null in the private constructor and is then assigned by the
 * static factory that allocated it, before the object is handed out.
 */
module Responses {
  import opened Wrappers
  import opened Statuses
  import Envelopes

  class Response {
    const status: Status
    var reasons: Option<map<string, string>>
    var data: Option<map<string, Envelopes.Payload>>
    var message: Option<string>
    var code: Option<Envelopes.Int32>
    var errorData: Option<map<string, Envelopes.JavaObject>>

    /** The fields of this object, as a value. */
    function Value(): Envelopes.Envelope
      reads this
    {
      Envelopes.Envelope(status, reasons, data, message, code, errorData)
    }

    /** Only the fields belonging to the status are set. */
    ghost predicate Valid()
      reads this
    {
      Envelopes.WellFormed(Value())
    }

    /** The private constructor: the status, and every other field null. */
    constructor Init(status: Status)
      ensures Value() == Envelopes.Blank(status)
    {
      this.status := status;
      reasons := None;
      data := None;
      message := None;
      code := None;
      errorData := None;
    }

    static method SuccessEmpty() returns (r: Response)
      ensures fresh(r) && r.Valid()
      ensures r.Value() == Envelopes.SuccessEmpty()
    {
      r := new Response.Init(Success);
      r.data := Some(map[]);
    }

    static method SuccessEntry(key: Option<string>, value: Envelopes.Payload) returns (r: Result<Response, Envelopes.NullArgument>)
      ensures r.Err? ==> Envelopes.SuccessEntry(key, value) == Err(r.error)
      ensures r.Ok? ==> fresh(r.value) && r.value.Valid()
      ensures r.Ok? ==> Envelopes.SuccessEntry(key, value) == Ok(r.value.Value())
    {
      if key.None? {
        return Err(Envelopes.NullArgument(Envelopes.DataKeyNull));
      }
      var response := new Response.Init(Success);
      response.data := Some(map[key.value := value]);
      return Ok(response);
    }

    static method SuccessMap(data: Option<map<string, Envelopes.Payload>>) returns (r: Result<Response, Envelopes.NullArgument>)
      ensures r.Err? ==> Envelopes.SuccessMap(data) == Err(r.error)
      ensures r.Ok? ==> fresh(r.value) && r.value.Valid()
      ensures r.Ok? ==> Envelopes.SuccessMap(data) == Ok(r.value.Value())
    {
      if data.None? {
        return Err(Envelopes.NullArgument(Envelopes.DataMapNull));
      }
      var response := new Response.Init(Success);
      response.data := Some(data.value);
      return Ok(response);
    }

    static method FailMessage(message: Option<string>) returns (r: Result<Response, Envelopes.NullArgument>)
      ensures r.Err? ==> Envelopes.FailMessage(message) == Err(r.error)
      ensures r.Ok? ==> fresh(r.value) && r.value.Valid()
      ensures r.Ok? ==> Envelopes.FailMessage(message) == Ok(r.value.Value())
    {
      if message.None? {
        return Err(Envelopes.NullArgument(Envelopes.FailMessageNull));
      }
      var response := new Response.Init(Fail);
      response.message := Some(message.value);
      return Ok(response);
    }

    static method FailEntry(key: string, message: string) returns (r: Result<Response, Envelopes.NullArgument>)
      ensures r.Ok? && fresh(r.value) && r.value.Valid()
      ensures Envelopes.FailEntry(key, message) == Ok(r.value.Value())
    {
      r := FailReasons(Some(map[key := message]));
    }

    static method FailReasons(reasons: Option<map<string, string>>) returns (r: Result<Response, Envelopes.NullArgument>)
      ensures r.Err? ==> Envelopes.FailReasons(reasons) == Err(r.error)
      ensures r.Ok? ==> fresh(r.value) && r.value.Valid()
      ensures r.Ok? ==> Envelopes.FailReasons(reasons) == Ok(r.value.Value())
    {
      if reasons.None? {
        return Err(Envelopes.NullArgument(Envelopes.ReasonsMapNull));
      }
      var response := new Response.Init(Fail);
      response.reasons := Some(reasons.value);
      return Ok(response);
    }

    static method ErrorMessage(message: Option<string>) returns (r: Result<Response, Envelopes.NullArgument>)
      ensures r.Err? ==> Envelopes.ErrorMessage(message) == Err(r.error)
      ensures r.Ok? ==> fresh(r.value) && r.value.Valid()
      ensures r.Ok? ==> Envelopes.ErrorMessage(message) == Ok(r.value.Value())
    {
      if message.None? {
        return Err(Envelopes.NullArgument(Envelopes.ErrorMessageNull));
      }
      var response := new Response.Init(Error);
      response.message := Some(message.value);
      return Ok(response);
    }

    static method ErrorCode(message: Option<string>, code: Option<Envelopes.Int32>)
      returns (r: Result<Response, Envelopes.NullArgument>)
      ensures r.Err? ==> Envelopes.ErrorCode(message, code) == Err(r.error)
      ensures r.Ok? ==> fresh(r.value) && r.value.Valid()
      ensures r.Ok? ==> Envelopes.ErrorCode(message, code) == Ok(r.value.Value())
    {
      if message.None? {
        return Err(Envelopes.NullArgument(Envelopes.ErrorMessageNull));
      }
      var response := new Response.Init(Error);
      response.message := Some(message.value);
      response.code := code;
      return Ok(response);
    }

    static method ErrorDetails(message: Option<string>, code: Option<Envelopes.Int32>, errorData: Option<map<string, Envelopes.JavaObject>>)
      returns (r: Result<Response, Envelopes.NullArgument>)
      ensures r.Err? ==> Envelopes.ErrorDetails(message, code, errorData) == Err(r.error)
      ensures r.Ok? ==> fresh(r.value) && r.value.Valid()
      ensures r.Ok? ==> Envelopes.ErrorDetails(message, code, errorData) == Ok(r.value.Value())
    {
      if message.None? {
        return Err(Envelopes.NullArgument(Envelopes.ErrorMessageNull));
      }
      var response := new Response.Init(Error);
      response.message := Some(message.value);
      response.code := code;
      if errorData.Some? {
        response.errorData := Some(errorData.value);
      }
      return Ok(response);
    }

    predicate IsSuccess() {
      status == Success
    }

    predicate IsFail() {
      status == Fail
    }

    predicate IsError() {
      status == Error
    }

    function GetStatus(): Status {
      status
    }

    function GetData(): Option<map<string, Envelopes.Payload>>
      reads this
    {
      data
    }

    function GetMessage(): Option<string>
      reads this
    {
      message
    }

    /** The reasons, or the empty map when none were set: never null. */
    function GetReasons(): (m: map<string, string>)
      reads this
      ensures reasons.None? ==> m == map[]
      ensures reasons.Some? ==> m == reasons.value
    {
      if reasons.Some? then reasons.value else map[]
    }

    function GetCode(): Option<Envelopes.Int32>
      reads this
    {
      code
    }

    function GetErrorData(): Option<map<string, Envelopes.JavaObject>>
      reads this
    {
      errorData
    }
  }

  /** Exactly one of the three status queries holds, the one naming `getStatus()`. */
  lemma ExactlyOneStatusQuery(r: Response)
    ensures r.IsSuccess() <==> r.GetStatus() == Success
    ensures r.IsFail() <==> r.GetStatus() == Fail
    ensures r.IsError() <==> r.GetStatus() == Error
    ensures r.IsSuccess() || r.IsFail() || r.IsError()
    ensures !(r.IsSuccess() && r.IsFail()) && !(r.IsSuccess() && r.IsError()) && !(r.IsFail() && r.IsError())
  {
  }

  /** The getters read back the fields the factory set, unchanged. */
  lemma GettersReadFields(r: Response)
    ensures r.GetStatus() == r.Value().status && r.GetData() == r.Value().data
    ensures r.GetMessage() == r.Value().message && r.GetCode() == r.Value().code
    ensures r.GetErrorData() == r.Value().errorData
  {
  }

  /**
   * Only a fail built from a reasons map has reasons: a well-formed success,
   * error, or fail carrying a message reports the empty map.
   */
  lemma GetReasonsEmptyUnlessFailReasons(r: Response)
    requires r.Valid() && !(r.IsFail() && r.GetMessage().None?)
    ensures r.GetReasons() == map[]
  {
  }

  /** A response holding the fields of `fail(reasons)` reports exactly those reasons. */
  lemma GetReasonsOfFailReasons(r: Response, reasons: map<string, string>)
    requires r.Value() == Envelopes.FailReasons(Some(reasons)).value
    ensures r.IsFail() && r.GetReasons() == reasons
  {
  }
}
