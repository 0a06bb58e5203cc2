# JSend response envelope

A model of a small Java library for JSend API responses. A response has one of three
statuses (`success`, `fail`, `error`). It is built only through nine static factories.
Each factory with a required argument checks it with `Objects.requireNonNull`
(`fail(key, message)` relies on `Map.of` instead), and then fills in the fields that
belong to its status. A custom serializer writes a response to a streaming JSON
generator as one JSON object.

The Dafny project has five modules:

- `Wrappers` (`wrappers.dfy`): `Option`, for a Java value that may be null, and `Result`, for a factory that may throw.
- `Statuses` (`status.dfy`): the closed `Status` enum and its wire string. It also models `String.toLowerCase` on ASCII letters.
- `Envelopes` (`envelope.dfy`): the fields of a response as a value, `Envelope`.
  - `WellFormed` is the per-status field rule.
  - There is one function per factory. A null required argument gives `Err(NullArgument(m))`, where `m` is the exact message the source passes to `Objects.requireNonNull`.
- `Responses` (`response.dfy`): the Java object as a class `Response`.
  - The final `status` is a `const`; the other fields are `var`s holding `Option`s.
  - `Init` is the private constructor.
  - The nine static factory methods allocate a response and assign its fields one by one. Each method is proved equal to its `Envelopes` function.
  - The getters are functions that read the object.
- `Serializers` (`serializer.dfy`): the serializer.
  - The Jackson generator is a class whose `written` field is the sequence of tokens it has received.
  - `Serialize` makes the same calls as the source. It is proved to append exactly `Render` of the response.
  - `ObjectMembers` reads a token sequence back as one flat JSON object, so properties of the output are stated on that object's members.

The serializer is modelled as the code is written, which differs from the layout in the
doc comments of `Response.java` (lines 66-67, 77, 104, 115):

- A success or fail response is written as `status` then `data`, where `data` is `getData()`.
- An error response is written as `status` then `error`, where `error` is the message.
- `reasons`, `message` (as a member of its own), `code` and `errorData` are never written.

So every fail response renders `data` as null and loses its message or reasons. The
lemmas `RenderFail`, `FailContentIsNotRendered` and `RenderErrorDetails` state this.
The doc-comment layout is not claimed.

`ResponseSerializer.java:14` calls `toLowerCase()` on a `Status`, but the enum declares
no such method. The model writes `Status.toString()`. `WireStringIsLowercase` proves
that lower-casing that string would give the same result, so both readings produce the
same output.

## Model

| member | source | states |
|---|---|---|
| `Statuses.StatusIsClosed` | src/main/java/io/github/veerakumarak/jsend/Status.java:3-7 | every status is one of `Success`, `Fail`, `Error`, and there are exactly three |
| `Statuses.ToString` | src/main/java/io/github/veerakumarak/jsend/Status.java:3-17 | each constant's wire string (`success`, `fail`, `error`) is non-empty and has no upper-case letter |
| `Statuses.FromWire` | src/main/java/io/github/veerakumarak/jsend/Status.java:4-6 | a string decodes to a status exactly when it is that status's wire string; any other string is the wire string of no status |
| `Statuses.WireStringDeterminesStatus` | src/main/java/io/github/veerakumarak/jsend/Status.java:4-6 | the three wire strings are pairwise distinct, and decoding a status's wire string gives that status back |
| `Statuses.ToLower` | src/main/java/io/github/veerakumarak/jsend/ResponseSerializer.java:14 | lower-casing keeps the length, maps each character through `LowerChar`, and leaves no upper-case letter |
| `Statuses.LowerChar` | src/main/java/io/github/veerakumarak/jsend/ResponseSerializer.java:14 | an upper-case ASCII letter becomes the corresponding lower-case letter, a character that is not upper-case is left as it is, and the result is never upper-case |
| `Statuses.LowercaseIsFixed` | src/main/java/io/github/veerakumarak/jsend/ResponseSerializer.java:14 | lower-casing a string with no upper-case letter is the identity |
| `Statuses.WireStringIsLowercase` | src/main/java/io/github/veerakumarak/jsend/Status.java:14-17 | `toLowerCase()` of a wire string equals `toString()`, for every status |
| `Envelopes.Blank` | src/main/java/io/github/veerakumarak/jsend/Response.java:27-34 | the private constructor sets the status and leaves every other field null |
| `Envelopes.SuccessEmpty` | src/main/java/io/github/veerakumarak/jsend/Response.java:39-43 | `success()` is a well-formed success whose data is the empty map, not null |
| `Envelopes.SuccessEntry` | src/main/java/io/github/veerakumarak/jsend/Response.java:48-53 | `success(key, value)` fails with the "Data key" message exactly when the key is null; otherwise it is a well-formed success whose data has the single key `key`, mapped to `value` |
| `Envelopes.SuccessMap` | src/main/java/io/github/veerakumarak/jsend/Response.java:58-63 | `success(map)` fails with the "Data map" message exactly when the map is null; otherwise it is a well-formed success whose data equals the caller's map |
| `Envelopes.FailMessage` | src/main/java/io/github/veerakumarak/jsend/Response.java:69-74 | `fail(message)` fails exactly on a null message; otherwise it is a well-formed fail holding that message, with no reasons and no data |
| `Envelopes.FailEntry` | src/main/java/io/github/veerakumarak/jsend/Response.java:79-81 | `fail(key, message)` always succeeds, giving a well-formed fail whose reasons are exactly `{key: message}` and which has no message |
| `Envelopes.FailReasons` | src/main/java/io/github/veerakumarak/jsend/Response.java:86-91 | `fail(reasons)` fails exactly on a null map; otherwise it is a well-formed fail whose reasons equal the caller's map, with no message and no data |
| `Envelopes.ErrorMessage` | src/main/java/io/github/veerakumarak/jsend/Response.java:96-101 | `error(message)` fails exactly on a null message; otherwise it is a well-formed error with that message and no code or error data |
| `Envelopes.ErrorCode` | src/main/java/io/github/veerakumarak/jsend/Response.java:106-112 | `error(message, code)` fails exactly on a null message; otherwise it is a well-formed error with that message, the given (possibly null) code and no error data |
| `Envelopes.ErrorDetails` | src/main/java/io/github/veerakumarak/jsend/Response.java:117-126 | `error(message, code, errorData)` fails exactly on a null message; otherwise the error data is absent when its argument is null and a copy of it otherwise |
| `Envelopes.FailEntryIsFailReasons` | src/main/java/io/github/veerakumarak/jsend/Response.java:79-81 | `fail(key, message)` builds the same envelope as `fail({key: message})` |
| `Envelopes.ErrorFactoriesAgree` | src/main/java/io/github/veerakumarak/jsend/Response.java:96-126 | `error(m)` equals `error(m, null, null)` and `error(m, c)` equals `error(m, c, null)`, including on a null message |
| `Responses.Response.Init` | src/main/java/io/github/veerakumarak/jsend/Response.java:27-34 | a new object holds the status with all other fields null |
| `Responses.Response.SuccessEmpty` | src/main/java/io/github/veerakumarak/jsend/Response.java:39-43 | allocates a fresh, well-formed response whose fields are `Envelopes.SuccessEmpty()` |
| `Responses.Response.SuccessEntry` | src/main/java/io/github/veerakumarak/jsend/Response.java:48-53 | throws exactly as `Envelopes.SuccessEntry` does; otherwise gives a fresh, well-formed response with that function's fields |
| `Responses.Response.SuccessMap` | src/main/java/io/github/veerakumarak/jsend/Response.java:58-63 | throws exactly as `Envelopes.SuccessMap` does; otherwise gives a fresh, well-formed response with that function's fields |
| `Responses.Response.FailMessage` | src/main/java/io/github/veerakumarak/jsend/Response.java:69-74 | throws exactly as `Envelopes.FailMessage` does; otherwise gives a fresh, well-formed response with that function's fields |
| `Responses.Response.FailEntry` | src/main/java/io/github/veerakumarak/jsend/Response.java:79-81 | delegates to `FailReasons` and always gives a fresh, well-formed response with the fields of `Envelopes.FailEntry` |
| `Responses.Response.FailReasons` | src/main/java/io/github/veerakumarak/jsend/Response.java:86-91 | throws exactly as `Envelopes.FailReasons` does; otherwise gives a fresh, well-formed response with that function's fields |
| `Responses.Response.ErrorMessage` | src/main/java/io/github/veerakumarak/jsend/Response.java:96-101 | throws exactly as `Envelopes.ErrorMessage` does; otherwise gives a fresh, well-formed response with that function's fields |
| `Responses.Response.ErrorCode` | src/main/java/io/github/veerakumarak/jsend/Response.java:106-112 | throws exactly as `Envelopes.ErrorCode` does; otherwise gives a fresh, well-formed response with that function's fields |
| `Responses.Response.ErrorDetails` | src/main/java/io/github/veerakumarak/jsend/Response.java:117-126 | throws exactly as `Envelopes.ErrorDetails` does; otherwise gives a fresh, well-formed response with that function's fields, the error data assigned only when it is non-null |
| `Responses.Response.GetReasons` | src/main/java/io/github/veerakumarak/jsend/Response.java:152-154 | returns the stored reasons, or the empty map when none were set, never null |
| `Responses.ExactlyOneStatusQuery` | src/main/java/io/github/veerakumarak/jsend/Response.java:128-142 | each of `isSuccess`, `isFail` and `isError` holds exactly when `getStatus()` is that status, and exactly one of them holds |
| `Responses.GettersReadFields` | src/main/java/io/github/veerakumarak/jsend/Response.java:140-162 | `getStatus`, `getData`, `getMessage`, `getCode` and `getErrorData` return the stored fields as they are |
| `Responses.GetReasonsEmptyUnlessFailReasons` | src/main/java/io/github/veerakumarak/jsend/Response.java:152-154 | every well-formed success, every error, and every fail carrying a message report the empty map from `getReasons()` |
| `Responses.GetReasonsOfFailReasons` | src/main/java/io/github/veerakumarak/jsend/Response.java:86-91 | a response with the fields of `fail(R)` is a fail whose `getReasons()` is exactly `R` |
| `Serializers.Render` | src/main/java/io/github/veerakumarak/jsend/ResponseSerializer.java:11-22 | the output reads back as a single object with two members: first `status` with the wire string, then `data` (the data field, or null) for a success or fail, or `error` (the message) for an error |
| `Serializers.RenderedObjectShape` | src/main/java/io/github/veerakumarak/jsend/ResponseSerializer.java:12-21 | the two member names differ and are among `status`, `data` and `error`; `status` holds the lower-case wire string, which decodes back to the status; `reasons`, `message` and `code` never appear |
| `Serializers.RenderNonError` | src/main/java/io/github/veerakumarak/jsend/ResponseSerializer.java:15-16 | a response that is not an error is written as exactly `status`, then `data` equal to `getData()` |
| `Serializers.RenderError` | src/main/java/io/github/veerakumarak/jsend/ResponseSerializer.java:17-19 | an error response is written as exactly `status: "error"`, then `error` equal to `getMessage()` |
| `Serializers.RenderSuccessEmpty` | src/main/java/io/github/veerakumarak/jsend/ResponseSerializer.java:15-16 | `success()` is written with `data` as the empty object, never null |
| `Serializers.RenderSuccessEntry` | src/main/java/io/github/veerakumarak/jsend/ResponseSerializer.java:15-16 | `success(k, v)` is written with `data` as the object `{k: v}` |
| `Serializers.RenderSuccessMap` | src/main/java/io/github/veerakumarak/jsend/ResponseSerializer.java:15-16 | `success(map)` is written with `data` as the caller's map |
| `Serializers.RenderFail` | src/main/java/io/github/veerakumarak/jsend/ResponseSerializer.java:15-16 | every well-formed fail is written as `status: "fail"`, `data: null` |
| `Serializers.FailContentIsNotRendered` | src/main/java/io/github/veerakumarak/jsend/ResponseSerializer.java:15-16 | `fail(message)` and `fail(reasons)` render to identical output, whatever the message and reasons are |
| `Serializers.RenderErrorDetails` | src/main/java/io/github/veerakumarak/jsend/ResponseSerializer.java:17-19 | `error(m, c, d)` is written as `status: "error"`, `error: m`, the same output as `error(m)`, so code and error data are never written |
| `Serializers.Serialize` | src/main/java/io/github/veerakumarak/jsend/ResponseSerializer.java:11-22 | the generator receives exactly `Render` of the response after what it already held; the response is unchanged |
| `Serializers.SerializeTwice` | src/main/java/io/github/veerakumarak/jsend/ResponseSerializer.java:11-22 | serializing the same response twice writes the same token sequence both times |

## Left out

- `@JsonSerialize`: the annotation that names the custom serializer is not modelled; `Serialize` is simply the serializer it names.
- `@JsonInclude(NON_NULL)`: a per-field inclusion rule that the custom serializer never consults. That is why a fail is written with `"data": null`, as `RenderFail` states.
- `JsonGenerator`, `SerializerProvider` and `IOException` are library code. The generator is the `JsonGenerator` class, which only records tokens. A write failure (`IOException`) is not modelled.
- Payload values: how a `data` value (Java type parameter `T`) or an `errorData` value (Java `Object`) becomes JSON text is foreign code. They are the opaque types `Envelopes.Payload` and `Envelopes.JavaObject`.
- JSON text output is not modelled. Output is stated as tokens and their object members, not characters.
- Map iteration order: the iteration order of `Map.copyOf`, `HashMap` and `Map.of` is not modelled. A Dafny `map` has no order.
- Unmodifiable wrappers: the read-only wrappers that protect the stored maps are not modelled. A Dafny `map` is an immutable value.
- Defensive copying is therefore structural: nothing the caller does to its map later can be seen through the response. Mutation of a caller-owned Java map is not modelled.
- `Payload` and `JavaObject` stand for any Java value, null included, so `Envelopes.SuccessEntry` covers `success(k, null)` (`Collections.singletonMap` accepts a null value), and `errorData` may hold null values (`HashMap` accepts them).
- `Envelopes.SuccessMap` and `Responses.Response.SuccessMap`: `Map.copyOf` (Response.java:61) throws `NullPointerException` on a data map holding a null value; the model accepts such a map (a `Payload` may be Java null) and returns `Ok` where Java throws.
- Null rejection by `Map.copyOf` in `fail(reasons)` (Response.java:89): a reasons map with a null key or value throws in Java; the model's reasons are `map<string, string>` and cannot hold a null, so that exception is dropped.
- Null keys: map keys are `string`, so a null key in the `errorData` map (which `HashMap` would accept) cannot be represented.
- `Envelopes.FailEntry` and `Responses.Response.FailEntry`: their key and message are plain strings. This is an extra precondition standing for the rejection of a null by `Map.of`, so the `NullPointerException` that `fail(null, m)` would throw is not modelled.
- `Statuses.ToLower`: lower-cases ASCII letters only. Java's `String.toLowerCase` is locale- and Unicode-aware, and the model is claimed only for the three ASCII wire strings.
- The class fields are public in Dafny, while in Java they can only be set by the factories. So `Valid()` is an invariant that every factory establishes, not one the type enforces.
