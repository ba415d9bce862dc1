# get-local-ipinfo-mcp: the reply classifier and renderer

The server exposes one tool, `get_public_ip_info`. It fetches the caller's
public IP address and location from a geolocation provider and replies with
text. This project models the two pure pieces of logic in `src/index.ts`:

1. **Classifying the provider's reply** (the part of `getIPInfo` after the
   fetch). The input is a decoded JSON value and the HTTP status. The result
   is one of three things:
   - a provider error, when the payload's `error` field is truthy;
   - a validation error, when the payload does not fit the zod schema;
   - the validated `IPInfo` record.

   An exception gives no result. That covers the request, the JSON decoding,
   and reading `data.error` on a `null` payload.
2. **Rendering the reply text** (the body of the tool handler). A failure, or
   no result, gives the sentence `获取公网 IP 信息失败。` followed by optional
   `HTTP状态码`, `原因` and `详情` lines. A record gives eight `Label: value`
   lines joined with newlines, with an absent field shown as `undefined`.

Modules, one per concern:

- `Json` (json.dfy): the decoded JSON value, plus the JavaScript semantics the
  code relies on. This covers property reads, truthiness, `||`, and `String()`
  inside template literals.
- `Text` (text.dfy): `join("\n")` and its inverse, splitting text into lines.
  Also the decimal form of the status code.
- `Schema` (schema.dfy): the `IPInfo` record and the schema. `Validate`
  mirrors `safeParse`. `Fits` states the schema independently, field by field.
  `Encode` maps a record back to its payload.
- `Classifier` (classify.dfy): the outcome datatype and `Classify`.
- `Reply` (reply.dfy): the failure and success texts, `Render`, and the whole
  call `ToolReply = Render ∘ Classify`.

Collaborators the model cannot see are parameters:

- `fmt: real -> string` is the host's number formatting. It is used for
  `latitude`, `longitude`, and numbers inside a provider message or reason.
- `diagnostic` is the validation library's error text. It is a non-empty
  string, because zod's `error.message` is never empty.

Behaviour of the code worth noting:

- The validation-failure message is `IP信息解析失败`.
- An absent optional field is shown as the literal text `undefined`.
- A provider's `message` or `reason` may be any truthy JSON value, not only a
  string. It is shown through JavaScript's string conversion: arrays are
  comma-joined and objects become `[object Object]`.
- A top-level `null` payload gives the bare failure sentence. No status is
  shown, because reading `data.error` throws inside the `try`.

## Model

| member | source | states |
|---|---|---|
| Json.PropLaws | src/index.ts:35-40 | reading a property of a non-null non-object gives undefined; a field written into an object reads back as written, other fields are unaffected, and a removed field reads as undefined |
| Json.TruthyByKind | src/index.ts:35-40 | undefined and `null` are falsy, arrays and objects always truthy, numbers and booleans truthy unless zero or false, and a string truthy exactly when it is non-empty; so the falsy JSON values are exactly `null`, `false`, `0` and the empty string |
| Json.OrLaws | src/index.ts:39-40 | JavaScript's `or` gives one of its operands, is truthy exactly when either operand is, is the left operand whenever that is truthy and the fallback whenever that is falsy, and is unchanged by applying the same fallback again |
| Json.ToText | src/index.ts:99-104 | template-literal conversion shows a string as itself, `null` as "null", an object as "[object Object]" and an empty array as empty text |
| Json.ToTextOfArray | src/index.ts:99-104 | an array shows as the comma-join of its elements' texts, a `null` element giving empty text |
| Schema.RequiredString | src/index.ts:47 | `z.string()` passes exactly when the field is what the schema's required-text kind allows, and yields the field's text |
| Schema.OptionalString | src/index.ts:48-52 | `z.string().optional()` passes exactly when the field is what the optional-text kind allows (absent or a string, never `null`), and yields the field unchanged |
| Schema.OptionalNumber | src/index.ts:53-54 | `z.number().optional()` passes exactly when the field is what the optional-number kind allows (absent or a number, never `null`), and yields the field unchanged |
| Schema.FitsByField | src/index.ts:46-55 | the schema holds exactly when the payload is an object whose eight fields each have their declared kind |
| Schema.Validate | src/index.ts:46-58 | validation succeeds iff the payload fits the schema; an accepted record carries the payload's value for every schema field |
| Schema.FieldOfInjective | src/index.ts:69 | a record is determined by its eight payload fields |
| Schema.ValidateEncode | src/index.ts:46-58 | the payload of any record passes validation and gives that same record back |
| Schema.EncodeValidate | src/index.ts:58-69 | the validated record stands for exactly the payload restricted to the schema's keys; unknown keys are dropped |
| Schema.ExtraFieldsIgnored | src/index.ts:46-58 | adding fields outside the schema changes neither the verdict nor the record |
| Classifier.Classify | src/index.ts:32-77 | no result iff an exception or a `null` payload; a truthy `error` wins and gives the payload's message/reason or their defaults with the status; otherwise success iff the schema fits, else the fixed parse-failure message with the diagnostic and status; a success keeps every schema field |
| Classifier.ProviderErrorIgnoresSchema | src/index.ts:35-43 | a provider error's outcome depends only on `message` and `reason`, never on the schema fields |
| Classifier.FalsyErrorIsIgnored | src/index.ts:35-58 | an `error` field that is `false`, `0`, `""` or `null` classifies exactly like a payload without it |
| Reply.FailureText | src/index.ts:95-104 | every failure text starts with the fixed sentence; with no result the text is that sentence alone |
| Reply.Render | src/index.ts:87-135 | no result renders as the fixed sentence alone; a failure begins with the sentence and its status line |
| Reply.SuccessTextIsJoin | src/index.ts:126-135 | the success text is the newline-join of the eight label/value lines in the fixed order, absent fields shown as `undefined` |
| Reply.SuccessTextLines | src/index.ts:126-135 | when no value spans a line, the success text has exactly eight lines, those lines, and no trailing newline |
| Reply.FailureTextIsJoin | src/index.ts:95-104 | a failure text is the newline-join of the sentence, the status line, the reason line when the message is truthy and the detail line when the reason is truthy, in that order |
| Reply.FailureTextLines | src/index.ts:95-104 | when message and reason are one line each, a failure text splits into exactly those lines; no result is one line |
| Reply.ReplyNoResult | src/index.ts:74-104 | a thrown request or a `null` payload replies with the fixed sentence alone |
| Reply.ReplyValidationError | src/index.ts:59-104 | a non-error payload that fails the schema replies with the sentence, the status, `原因: IP信息解析失败` and `详情: ` followed by the diagnostic |
| Reply.ReplyProviderError | src/index.ts:35-104 | a provider error, whatever its message and reason hold, replies with the newline-join of the sentence, the status line, a reason line (its message or `未知错误`) and, exactly when its reason is truthy, a detail line |
| Reply.ReplyProviderErrorLines | src/index.ts:35-104 | when the message and reason are one line each, that reply splits into exactly those lines |
| Reply.ReplySuccess | src/index.ts:69-135 | the payload of any record replies with that record's eight-line text |
| Reply.ReplyAddressAndCity | src/index.ts:126-135 | `{"ip": "1.2.3.4", "city": "Testville"}` replies with `IP: 1.2.3.4`, `City: Testville` and `undefined` for the six other fields, in order |
| Text.Lines | src/index.ts:135 | splitting on newlines gives one more line than there are newlines, none containing a newline |
| Text.LinesOfJoin | src/index.ts:135 | splitting a newline-join of one-line parts gives the parts back |
| Text.JoinOfLines | src/index.ts:135 | newline-joining the lines of any text gives the text back |
| Text.TrailingNewlineGivesEmptyLine | src/index.ts:135 | a text ending in a newline has an empty last line |
| Text.Dec | src/index.ts:97 | a status is shown as a non-empty run of decimal digits with no leading zero |
| Text.ParseDecOfDec | src/index.ts:97 | reading a shown status back gives the status |

## Left out

- The HTTP GET and its headers (`src/index.ts:25-31`) are network I/O. The
  model takes the status and the decoded body as input.
- `response.json()` decoding is the host's JSON parser. A decode failure is
  the `Thrown` input, the same as a network error.
- The wording of zod's error message is produced by the library. It is the
  `diagnostic` parameter, constrained only to be non-empty.
- JavaScript's number-to-text conversion is the `fmt` parameter. JSON numbers
  are exact reals, so the decoder's rounding, overflow to `Infinity` and
  underflow to `0` are not modelled.
- A payload object with its own `toString` field makes the template literal
  in the handler throw, because that field is not callable and `valueOf`
  then returns the object itself. The model renders every object as
  `[object Object]` instead. An own `valueOf` field alone changes nothing,
  since `toString` is tried first.
- Property reads see only an object's own fields. Inherited properties and
  the `__proto__` key are not modelled, because the code never reads one.
- All `console.error` logging is a side channel with no effect on results.
- The MCP server, tool registration, stdio transport, `main()` and
  `process.exit(1)` (`src/index.ts:6-15, 84, 152-161`) are framework and
  process plumbing.
- Async scheduling carries no logic of its own.
- Reply.SuccessTextLines: the eight-line count is proved only when no shown
  value contains a newline. A string field or a formatted number holding a
  newline adds lines, and `SuccessTextIsJoin` still describes the text.
