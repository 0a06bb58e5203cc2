/**
 * Rendering a response into a JSON object (ResponseSerializer.java). The
 * streaming JSON generator is modelled by the sequence of tokens written to
 * it; `ObjectMembers` reads such a sequence back as one flat JSON object.
 */
module Serializers {
  import opened Wrappers
  import opened Statuses
  import opened Envelopes
  import Responses

  /** A written JSON value: null, a string, or an object of opaque payload values. */
  datatype JsonValue = Null | Text(text: string) | Object(members: map<string, Payload>)

  /** What a generator receives: the start of an object, one named field, the end. */
  datatype Token = StartObject | Field(name: string, value: JsonValue) | EndObject

  /** One member of a rendered object. */
  datatype Member = Member(name: string, value: JsonValue)

  /** How a nullable string is written. */
  function TextOrNull(s: Option<string>): JsonValue {
    if s.Some? then Text(s.value) else Null
  }

  /** How a nullable map is written. */
  function ObjectOrNull(m: Option<map<string, Payload>>): JsonValue {
    if m.Some? then Object(m.value) else Null
  }

  /** A stream of field tokens read as members; `None` if another token is among them. */
  function FieldsOf(ts: seq<Token>): (r: Option<seq<Member>>)
    ensures r.Some? <==> forall i :: 0 <= i < |ts| ==> ts[i].Field?
    ensures r.Some? ==> |r.value| == |ts|
    ensures r.Some? ==> forall i :: 0 <= i < |ts| ==> ts[i] == Field(r.value[i].name, r.value[i].value)
  {
    if ts == [] then Some([])
    else if !ts[0].Field? then None
    else match FieldsOf(ts[1..])
      case None => None
      case Some(rest) => Some([Member(ts[0].name, ts[0].value)] + rest)
  }

  /** The members of a token stream that is exactly one flat object, else `None`. */
  function ObjectMembers(ts: seq<Token>): Option<seq<Member>> {
    if |ts| >= 2 && ts[0].StartObject? && ts[|ts| - 1].EndObject? then FieldsOf(ts[1..|ts| - 1])
    else None
  }

  /** No member before position `i` is called `name`. */
  predicate NoneNamedBefore(ms: seq<Member>, name: string, i: nat)
    requires i <= |ms|
  {
    forall j :: 0 <= j < i ==> ms[j].name != name
  }

  /** The value of the first member called `name`, if any. */
  function Lookup(ms: seq<Member>, name: string): (v: Option<JsonValue>)
    ensures v.None? <==> forall i :: 0 <= i < |ms| ==> ms[i].name != name
    ensures v.Some? ==> exists i :: 0 <= i < |ms| && ms[i].name == name && v.value == ms[i].value && NoneNamedBefore(ms, name, i)
  {
    if ms == [] then None
    else if ms[0].name == name then Some(ms[0].value)
    else Lookup(ms[1..], name)
  }

  /**
   * The tokens `serialize` writes for an envelope: one object whose first
   * field is `status`; a fail or success then gets `data` (the data map, or
   * null), an error gets `error` (its message).
   */
  function Render(e: Envelope): (ts: seq<Token>)
    ensures ObjectMembers(ts).Some? && |ObjectMembers(ts).value| == 2
    ensures ObjectMembers(ts).value[0] == Member("status", Text(ToString(e.status)))
    ensures e.status != Error ==> ObjectMembers(ts).value[1] == Member("data", ObjectOrNull(e.data))
    ensures e.status == Error ==> ObjectMembers(ts).value[1] == Member("error", TextOrNull(e.message))
  {
    var second := if e.status != Error then Field("data", ObjectOrNull(e.data))
                  else Field("error", TextOrNull(e.message));
    var ts := [StartObject, Field("status", Text(ToString(e.status))), second, EndObject];
    assert ts[1..|ts| - 1] == [ts[1], ts[2]];
    ts
  }

  /** The members of the rendered object. */
  function Members(e: Envelope): (ms: seq<Member>)
    ensures |ms| == 2
  {
    ObjectMembers(Render(e)).value
  }

  /**
   * The rendered object has two members with distinct names; `status` holds
   * the lower-case wire string of the status, and `reasons`, `message`, `code`
   * and the error data are never written, whatever the envelope holds.
   */
  lemma RenderedObjectShape(e: Envelope)
    ensures Members(e)[0].name != Members(e)[1].name
    ensures Lookup(Members(e), "status") == Some(Text(ToString(e.status)))
    ensures Lookup(Members(e), "status").value.text == ToLower(ToString(e.status))
    ensures FromWire(Lookup(Members(e), "status").value.text) == Some(e.status)
    ensures forall i :: 0 <= i < 2 ==> Members(e)[i].name in {"status", "data", "error"}
    ensures Lookup(Members(e), "reasons").None? && Lookup(Members(e), "message").None?
    ensures Lookup(Members(e), "code").None?
  {
    var ms := Members(e);
    WireStringIsLowercase(e.status);
    WireStringDeterminesStatus(e.status, e.status);
    assert ms[1..] == [ms[1]];
  }

  /** A success or fail is written as `status` then `data`, the getter's value. */
  lemma RenderNonError(e: Envelope)
    requires e.status != Error
    ensures Members(e) == [Member("status", Text(ToString(e.status))), Member("data", ObjectOrNull(e.data))]
  {
  }

  /** An error is written as `status` then `error`, its message. */
  lemma RenderError(e: Envelope)
    requires e.status == Error
    ensures Members(e) == [Member("status", Text("error")), Member("error", TextOrNull(e.message))]
  {
  }

  /** `success()` writes `data` as the empty object, not as null. */
  lemma RenderSuccessEmpty()
    ensures Members(SuccessEmpty()) == [Member("status", Text("success")), Member("data", Object(map[]))]
  {
    RenderNonError(SuccessEmpty());
  }

  /** `success(key, value)` writes `data` as the object `{key: value}`. */
  lemma RenderSuccessEntry(key: string, value: Payload)
    ensures SuccessEntry(Some(key), value).Ok?
    ensures Members(SuccessEntry(Some(key), value).value)
      == [Member("status", Text("success")), Member("data", Object(map[key := value]))]
  {
    var e := SuccessEntry(Some(key), value).value;
    RenderNonError(e);
    assert e.data.value == map[key := value];
  }

  /** `success(data)` writes `data` as the caller's map. */
  lemma RenderSuccessMap(data: map<string, Payload>)
    ensures SuccessMap(Some(data)).Ok?
    ensures Members(SuccessMap(Some(data)).value)
      == [Member("status", Text("success")), Member("data", Object(data))]
  {
    RenderNonError(SuccessMap(Some(data)).value);
  }

  /**
   * Every fail envelope is written as `status: "fail"` and `data: null`: the
   * serializer reads only the data field, which no fail factory sets, so the
   * message or the reasons never reach the output.
   */
  lemma RenderFail(e: Envelope)
    requires WellFormed(e) && e.status == Fail
    ensures Members(e) == [Member("status", Text("fail")), Member("data", Null)]
  {
    RenderNonError(e);
  }

  /** Two fail responses render alike, whatever message or reasons they carry. */
  lemma FailContentIsNotRendered(message: string, reasons: map<string, string>)
    ensures FailMessage(Some(message)).Ok? && FailReasons(Some(reasons)).Ok?
    ensures Render(FailMessage(Some(message)).value) == Render(FailReasons(Some(reasons)).value)
  {
  }

  /**
   * An error factory's response is written as `status: "error"` and `error`
   * holding the message; the code and the error data do not change the output.
   */
  lemma RenderErrorDetails(message: string, code: Option<Int32>, errorData: Option<map<string, JavaObject>>)
    ensures ErrorDetails(Some(message), code, errorData).Ok?
    ensures Members(ErrorDetails(Some(message), code, errorData).value)
      == [Member("status", Text("error")), Member("error", Text(message))]
    ensures Render(ErrorDetails(Some(message), code, errorData).value)
      == Render(ErrorMessage(Some(message)).value)
  {
    RenderError(ErrorDetails(Some(message), code, errorData).value);
  }

  /** The generator: every write appends its tokens to what was written before. */
  class JsonGenerator {
    var written: seq<Token>

    constructor ()
      ensures written == []
    {
      written := [];
    }

    method WriteStartObject()
      modifies this
      ensures written == old(written) + [StartObject]
    {
      written := written + [StartObject];
    }

    method WriteStringField(name: string, value: Option<string>)
      modifies this
      ensures written == old(written) + [Field(name, TextOrNull(value))]
    {
      written := written + [Field(name, TextOrNull(value))];
    }

    method WriteObjectField(name: string, value: Option<map<string, Payload>>)
      modifies this
      ensures written == old(written) + [Field(name, ObjectOrNull(value))]
    {
      written := written + [Field(name, ObjectOrNull(value))];
    }

    method WriteEndObject()
      modifies this
      ensures written == old(written) + [EndObject]
    {
      written := written + [EndObject];
    }
  }

  /**
   * `serialize`: writes the response's object to the generator and nothing
   * else; the response itself is only read.
   */
  method Serialize(response: Responses.Response, generator: JsonGenerator)
    modifies generator
    ensures generator.written == old(generator.written) + Render(response.Value())
    ensures unchanged(response)
  {
    generator.WriteStartObject();
    generator.WriteStringField("status", Some(ToString(response.GetStatus())));
    if !response.IsError() {
      generator.WriteObjectField("data", response.GetData());
    } else {
      generator.WriteStringField("error", response.GetMessage());
    }
    generator.WriteEndObject();
  }

  /** Serializing the same response twice writes the same tokens both times. */
  method SerializeTwice(response: Responses.Response) returns (first: seq<Token>, second: seq<Token>)
    ensures first == Render(response.Value()) && second == first
  {
    var g1 := new JsonGenerator();
    Serialize(response, g1);
    var g2 := new JsonGenerator();
    Serialize(response, g2);
    first, second := g1.written, g2.written;
  }
}
