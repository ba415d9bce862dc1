/**
 The body of the `get_public_ip_info` tool handler: the text it replies with
 for each outcome of `getIPInfo`. A failure, or no result, gives a fixed
 sentence followed by optional status, reason and detail lines; a validated
 record gives eight `Label: value` lines in a fixed order.
 */
module Reply {
  import opened Wrappers
  import opened Json
  import opened Text
  import opened Schema
  import opened Classifier

  /** The fixed first sentence of every failure reply. */
  const Header: string := "获取公网 IP 信息失败。"
  const StatusLabel: string := "HTTP状态码: "
  const ReasonLabel: string := "原因: "
  const DetailLabel: string := "详情: "

  /** The label, with its ": " separator, a success reply shows a schema
      field under. */
  function Label(k: Key): string
  {
    match k
    case Ip => "IP: "
    case Network => "Network: "
    case Version => "Version: "
    case City => "City: "
    case Region => "Region: "
    case Country => "Country: "
    case Latitude => "Latitude: "
    case Longitude => "Longitude: "
  }

  /** `${v}` for a value that may be `undefined`. */
  function Show(v: Option<Json>, fmt: NumFormat): string
  {
    match v
    case None => "undefined"
    case Some(j) => ToText(j, fmt)
  }

  /** The reply for a failure, or for no result at all (`err` undefined, so
      every `err && …` guard fails). A failure's status is always a number,
      so its status line is always there. */
  function FailureText(o: Outcome, fmt: NumFormat): (text: string)
    requires !o.Success?
    ensures |text| >= |Header| && text[..|Header|] == Header
    ensures o.NoResult? ==> text == Header
  {
    match o
    case NoResult => Header
    case Failure(message, reason, status) =>
      Header
      + [NL] + StatusLabel + Dec(status)
      + (if Truthy(Some(message)) then [NL] + ReasonLabel + ToText(message, fmt) else "")
      + (if Truthy(Some(reason)) then [NL] + DetailLabel + ToText(reason, fmt) else "")
  }

  /** The reply for a validated record. */
  function SuccessText(info: IPInfo, fmt: NumFormat): string
  {
    Join([
      "IP: " + info.ip,
      "Network: " + Show(StrValue(info.network), fmt),
      "Version: " + Show(StrValue(info.version), fmt),
      "City: " + Show(StrValue(info.city), fmt),
      "Region: " + Show(StrValue(info.region), fmt),
      "Country: " + Show(StrValue(info.country), fmt),
      "Latitude: " + Show(NumValue(info.latitude), fmt),
      "Longitude: " + Show(NumValue(info.longitude), fmt)
    ], [NL])
  }

  /** The tool's reply text for an outcome. */
  function Render(o: Outcome, fmt: NumFormat): (text: string)
    ensures o.NoResult? ==> text == Header
    ensures o.Failure? ==>
      var head := Header + [NL] + StatusLabel + Dec(o.status);
      |text| >= |head| && text[..|head|] == head
  {
    match o
    case Success(info) => SuccessText(info, fmt)
    case _ => FailureText(o, fmt)
  }

  /** The whole tool call: classify the provider's reply, then render it. */
  function ToolReply(fetched: Fetch, diagnostic: Diagnostic, fmt: NumFormat): string
  {
    Render(Classify(fetched, diagnostic), fmt)
  }

  /** The success reply's line for field `k`: its label and the field's
      payload value, `undefined` when absent. */
  function SuccessLine(info: IPInfo, k: Key, fmt: NumFormat): string
  {
    Label(k) + Show(FieldOf(info, k), fmt)
  }

  /** None of the record's shown values spans a line. */
  predicate OneLineValues(info: IPInfo, fmt: NumFormat)
  {
    forall k: Key :: NL !in Show(FieldOf(info, k), fmt)
  }

  /** The eight success lines, in reply order. */
  function SuccessLines(info: IPInfo, fmt: NumFormat): seq<string>
  {
    seq(8, i requires 0 <= i < 8 => SuccessLine(info, Order[i], fmt))
  }

  /** A success reply is the newline-join of exactly eight `Label: value`
      lines, one per schema field in the fixed order, an absent field shown
      as `undefined`. */
  lemma SuccessTextIsJoin(info: IPInfo, fmt: NumFormat)
    ensures SuccessText(info, fmt) == Join(SuccessLines(info, fmt), [NL])
  {
    var lines := SuccessLines(info, fmt);
    assert lines[0] == "IP: " + info.ip;
    assert lines[1] == "Network: " + Show(StrValue(info.network), fmt);
    assert lines[2] == "Version: " + Show(StrValue(info.version), fmt);
    assert lines[3] == "City: " + Show(StrValue(info.city), fmt);
    assert lines[4] == "Region: " + Show(StrValue(info.region), fmt);
    assert lines[5] == "Country: " + Show(StrValue(info.country), fmt);
    assert lines[6] == "Latitude: " + Show(NumValue(info.latitude), fmt);
    assert lines[7] == "Longitude: " + Show(NumValue(info.longitude), fmt);
    assert lines == [lines[0], lines[1], lines[2], lines[3], lines[4], lines[5], lines[6], lines[7]];
  }

  /** Every label is non-empty and one line. */
  lemma LabelOneLine(k: Key)
    ensures |Label(k)| > 0 && NL !in Label(k)
  {
  }

  /** When no shown value spans a line, no success line does. */
  lemma SuccessLinesOneLine(info: IPInfo, fmt: NumFormat)
    requires OneLineValues(info, fmt)
    ensures OneLineEach(SuccessLines(info, fmt))
  {
    var lines := SuccessLines(info, fmt);
    forall i | 0 <= i < 8 ensures NL !in lines[i] {
      LabelOneLine(Order[i]);
      assert NL !in Show(FieldOf(info, Order[i]), fmt);
    }
  }

  /** When no value spans a line, a success reply splits into exactly its
      eight lines and has no trailing newline. */
  lemma SuccessTextLines(info: IPInfo, fmt: NumFormat)
    requires OneLineValues(info, fmt)
    ensures Lines(SuccessText(info, fmt)) == SuccessLines(info, fmt)
    ensures |Lines(SuccessText(info, fmt))| == 8
    ensures SuccessText(info, fmt)[|SuccessText(info, fmt)| - 1] != NL
  {
    var text := SuccessText(info, fmt);
    var lines := SuccessLines(info, fmt);
    SuccessTextIsJoin(info, fmt);
    SuccessLinesOneLine(info, fmt);
    LinesOfJoin(lines);
    assert lines[7] != "";
    if |text| > 0 && text[|text| - 1] == NL {
      TrailingNewlineGivesEmptyLine(text);
      assert false;
    }
  }

  /** The lines of a failure reply: the fixed sentence, the status line, then
      the reason line exactly when the message is truthy and the detail line
      exactly when the reason is truthy, in that order. */
  function FailureLines(o: Outcome, fmt: NumFormat): seq<string>
    requires o.Failure?
  {
    [Header, StatusLabel + Dec(o.status)]
    + OptLine(Truthy(Some(o.message)), ReasonLabel, ToText(o.message, fmt))
    + OptLine(Truthy(Some(o.reason)), DetailLabel, ToText(o.reason, fmt))
  }

  /** The line `tag + text` when `present`, and no line otherwise. */
  function OptLine(present: bool, tag: string, text: string): seq<string>
  {
    if present then [tag + text] else []
  }

  /** Joining an optional line onto joined text adds a newline and the line
      exactly when it is there. */
  lemma JoinOptLine(parts: seq<string>, present: bool, tag: string, text: string)
    requires |parts| >= 1
    ensures Join(parts + OptLine(present, tag, text), [NL])
         == Join(parts, [NL]) + (if present then [NL] + tag + text else "")
  {
    if present {
      JoinSnoc(parts, tag + text);
    } else {
      assert parts + [] == parts;
    }
  }

  /** Two joined lines are the first, a newline, and the second. */
  lemma JoinPair(a: string, b: string)
    ensures Join([a, b], [NL]) == a + [NL] + b
  {
  }

  /** A failure reply is the newline-join of its lines. */
  lemma FailureTextIsJoin(o: Outcome, fmt: NumFormat)
    requires o.Failure?
    ensures FailureText(o, fmt) == Join(FailureLines(o, fmt), [NL])
  {
    var status := StatusLabel + Dec(o.status);
    var head := [Header, status];
    JoinPair(Header, status);
    var reason := OptLine(Truthy(Some(o.message)), ReasonLabel, ToText(o.message, fmt));
    JoinOptLine(head, Truthy(Some(o.message)), ReasonLabel, ToText(o.message, fmt));
    JoinOptLine(head + reason, Truthy(Some(o.reason)), DetailLabel, ToText(o.reason, fmt));
  }

  /** When neither the message nor the reason spans a line, a failure reply
      splits into exactly its lines; no result at all is the fixed sentence
      alone, one line. */
  lemma FailureTextLines(o: Outcome, fmt: NumFormat)
    requires !o.Success?
    requires o.Failure? ==> NL !in ToText(o.message, fmt) && NL !in ToText(o.reason, fmt)
    ensures o.NoResult? ==> Lines(FailureText(o, fmt)) == [Header]
    ensures o.Failure? ==> Lines(FailureText(o, fmt)) == FailureLines(o, fmt)
  {
    if o.NoResult? {
      LinesOfOneLine(Header);
    } else {
      FailureTextIsJoin(o, fmt);
      DecIsOneLine(o.status);
      var lines := FailureLines(o, fmt);
      forall i | 0 <= i < |lines| ensures NL !in lines[i] {
      }
      LinesOfJoin(lines);
    }
  }

  /** A request that throws, or a `null` payload, gives the fixed sentence
      alone. */
  lemma ReplyNoResult(fetched: Fetch, diagnostic: Diagnostic, fmt: NumFormat)
    requires fetched.Thrown? || fetched.body.JNull?
    ensures ToolReply(fetched, diagnostic, fmt) == Header
  {
  }

  /** A payload that is no provider error and does not fit the schema gives
      the status, the fixed parse-failure reason and the diagnostic. */
  lemma ReplyValidationError(status: nat, body: Json, diagnostic: Diagnostic, fmt: NumFormat)
    requires !body.JNull? && !ProviderError(body) && !Fits(body)
    ensures ToolReply(Response(status, body), diagnostic, fmt)
         == Header + [NL] + StatusLabel + Dec(status)
            + [NL] + ReasonLabel + ParseFailed
            + [NL] + DetailLabel + diagnostic
  {
  }

  /** A provider error always replies with the fixed sentence, the status
      line and a reason line (the provider's message, or the unknown-error
      text), followed by a detail line exactly when the provider gave a
      truthy reason; whatever text the message and reason hold. */
  lemma ReplyProviderError(status: nat, body: Json, diagnostic: Diagnostic, fmt: NumFormat)
    requires ProviderError(body)
    ensures ToolReply(Response(status, body), diagnostic, fmt)
         == Join([Header, StatusLabel + Dec(status),
                  ReasonLabel + ToText(Or(Prop(body, "message"), JStr(UnknownError)), fmt)]
                 + OptLine(Truthy(Prop(body, "reason")), DetailLabel,
                           ToText(Or(Prop(body, "reason"), JStr("")), fmt)), [NL])
  {
    var o := Classify(Response(status, body), diagnostic);
    FailureTextIsJoin(o, fmt);
    OrLaws(Prop(body, "message"), JStr(UnknownError));
    OrLaws(Prop(body, "reason"), JStr(""));
    var head := [Header, StatusLabel + Dec(status)];
    var reason := ReasonLabel + ToText(o.message, fmt);
    assert head + [reason] == [Header, StatusLabel + Dec(status), reason];
  }

  /** When the message and the reason are one line each, a provider error's
      reply splits into exactly those lines. */
  lemma ReplyProviderErrorLines(status: nat, body: Json, diagnostic: Diagnostic, fmt: NumFormat)
    requires ProviderError(body)
    requires NL !in ToText(Or(Prop(body, "message"), JStr(UnknownError)), fmt)
    requires NL !in ToText(Or(Prop(body, "reason"), JStr("")), fmt)
    ensures Lines(ToolReply(Response(status, body), diagnostic, fmt))
         == [Header, StatusLabel + Dec(status),
             ReasonLabel + ToText(Or(Prop(body, "message"), JStr(UnknownError)), fmt)]
            + OptLine(Truthy(Prop(body, "reason")), DetailLabel,
                      ToText(Or(Prop(body, "reason"), JStr("")), fmt))
  {
    var o := Classify(Response(status, body), diagnostic);
    FailureTextLines(o, fmt);
    ReplyProviderError(status, body, diagnostic, fmt);
  }

  /** The payload of any record is rendered as that record's eight lines. */
  lemma ReplySuccess(status: nat, info: IPInfo, diagnostic: Diagnostic, fmt: NumFormat)
    ensures ToolReply(Response(status, Encode(info)), diagnostic, fmt) == SuccessText(info, fmt)
  {
    ValidateEncode(info);
  }

  /** A payload with an address and a city only: every other field shows as
      `undefined`, in the fixed order, one line each. */
  lemma ReplyAddressAndCity(status: nat, diagnostic: Diagnostic, fmt: NumFormat)
    ensures Lines(ToolReply(Response(status, JObj(map["ip" := JStr("1.2.3.4"), "city" := JStr("Testville")])), diagnostic, fmt))
         == ["IP: 1.2.3.4", "Network: undefined", "Version: undefined", "City: Testville",
             "Region: undefined", "Country: undefined", "Latitude: undefined", "Longitude: undefined"]
  {
    var info := AddressAndCity();
    AddressAndCityPayload();
    AddressAndCityLines(fmt);
    SuccessTextLines(info, fmt);
  }

  /** The record with an address and a city only. */
  function AddressAndCity(): IPInfo
  {
    IPInfo("1.2.3.4", None, None, Some("Testville"), None, None, None, None)
  }

  /** The address-and-city payload validates to that record. */
  lemma AddressAndCityPayload()
    ensures Validate(JObj(map["ip" := JStr("1.2.3.4"), "city" := JStr("Testville")])) == Some(AddressAndCity())
  {
  }

  /** The lines of the address-and-city record. */
  lemma AddressAndCityLines(fmt: NumFormat)
    ensures OneLineValues(AddressAndCity(), fmt)
    ensures SuccessLines(AddressAndCity(), fmt)
         == ["IP: 1.2.3.4", "Network: undefined", "Version: undefined", "City: Testville",
             "Region: undefined", "Country: undefined", "Latitude: undefined", "Longitude: undefined"]
  {
    var info := AddressAndCity();
    assert forall k: Key :: k != Ip && k != City ==> Show(FieldOf(info, k), fmt) == "undefined";
    AddressAndCityFirstLines(fmt);
    AddressAndCityLastLines(fmt);
  }

  lemma AddressAndCityFirstLines(fmt: NumFormat)
    ensures SuccessLines(AddressAndCity(), fmt)[..4]
         == ["IP: 1.2.3.4", "Network: undefined", "Version: undefined", "City: Testville"]
  {
    var lines := SuccessLines(AddressAndCity(), fmt);
    assert lines[0] == "IP: 1.2.3.4";
    assert lines[1] == "Network: undefined";
    assert lines[2] == "Version: undefined";
    assert lines[3] == "City: Testville";
  }

  lemma AddressAndCityLastLines(fmt: NumFormat)
    ensures SuccessLines(AddressAndCity(), fmt)[4..]
         == ["Region: undefined", "Country: undefined", "Latitude: undefined", "Longitude: undefined"]
  {
    var lines := SuccessLines(AddressAndCity(), fmt);
    assert lines[4] == "Region: undefined";
    assert lines[5] == "Country: undefined";
    assert lines[6] == "Latitude: undefined";
    assert lines[7] == "Longitude: undefined";
  }
}
