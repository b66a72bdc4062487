/**
 Validation of a Kafka record against the shared contract, and the messages the generator makes.
 JSON, UTF-8 and the text forms of identifiers are a codec of which only the round-trip laws
 are used.
 */
module Validation {
  import opened Prelude

  type Bytes = seq<nat>
  type Header = (string, Option<Bytes>)

  datatype Envelope = Envelope(id: nat, eventType: string, version: int, correlation: nat, source: string,
                               customer: Option<nat>, rest: nat)

  datatype Message = Message(key: Option<Bytes>, value: Option<Bytes>, headers: seq<Header>)

  /** What a look at the decoded body shows before the contract is applied. */
  datatype Peek = NotJson | NotAnObject | Object(eventType: Option<string>, version: Option<int>)

  datatype Codec = Codec(
    encode: string -> Bytes, decode: Bytes -> Option<string>,
    uuid: nat -> string, number: int -> string,
    serialize: Envelope -> Bytes, peek: Bytes -> Peek, parse: Bytes -> Option<Envelope>)

  const VERSION := 1

  const REQUIRED: seq<string> := ["content_type", "correlation_id", "event_id", "event_type", "event_version", "source"]

  const EVENT_TYPES: set<string> := {
    "user_registered", "session_started", "product_viewed", "added_to_cart", "checkout_started",
    "order_created", "payment_completed", "payment_failed", "refund_requested", "fraud_alert_created"}

  const TAG := "synthetic_anomaly"

  ghost predicate CodecOk(c: Codec) {
    && (forall s :: c.decode(c.encode(s)) == Some(s))
    && (forall e: Envelope :: e.eventType in EVENT_TYPES ==> c.peek(c.serialize(e)) == Object(Some(e.eventType), Some(e.version)))
    && (forall e: Envelope :: e.eventType in EVENT_TYPES ==>
          if e.version == VERSION then c.parse(c.serialize(e)) == Some(e)
          else c.parse(c.serialize(e)) == Some(e) || c.parse(c.serialize(e)) == None)
  }

  datatype Category =
    | MissingValue | MissingKey | MissingHeader | DuplicateHeader | InvalidHeaderEncoding | InvalidContentType
    | MalformedJson | UnknownEventType | UnsupportedVersion | ContractFailed | HeaderBodyMismatch | KeyBodyMismatch

  datatype Verdict = Valid(event: Envelope) | Invalid(category: Category)

  datatype Result = Result(verdict: Verdict, anomaly: Option<string>)

  // ----- producing -----

  function MessageKey(c: Codec, e: Envelope): Bytes {
    c.encode(c.uuid(if e.customer.Some? then e.customer.value else e.correlation))
  }

  /** The text each required header must carry. */
  function HeaderText(c: Codec, e: Envelope, name: string): string {
    if name == "event_id" then c.uuid(e.id)
    else if name == "event_type" then e.eventType
    else if name == "event_version" then c.number(e.version)
    else if name == "correlation_id" then c.uuid(e.correlation)
    else if name == "source" then e.source
    else "application/json"
  }

  function HeaderOf(c: Codec, e: Envelope, name: string): Header {
    (name, Some(c.encode(HeaderText(c, e, name))))
  }

  function MessageHeaders(c: Codec, e: Envelope): seq<Header> {
    [HeaderOf(c, e, "event_id"), HeaderOf(c, e, "event_type"), HeaderOf(c, e, "event_version"),
     HeaderOf(c, e, "correlation_id"), HeaderOf(c, e, "source"), HeaderOf(c, e, "content_type")]
  }

  function ValidMessage(c: Codec, e: Envelope): Message {
    Message(Some(MessageKey(c, e)), Some(c.serialize(e)), MessageHeaders(c, e))
  }

  /** `_tag` */
  function Tagged(c: Codec, m: Message, kind: string): Message {
    m.(headers := m.headers + [(TAG, Some(c.encode(kind)))])
  }

  // ----- validating -----

  function Values(headers: seq<Header>, name: string): seq<Option<Bytes>> {
    if headers == [] then []
    else
      var n := |headers| - 1;
      Values(headers[..n], name) + if headers[n].0 == name then [headers[n].1] else []
  }

  function Anomaly(c: Codec, headers: seq<Header>): Option<string> {
    var tags: seq<Option<Bytes>> := Values(headers, TAG);
    if tags == [] || tags[0] == None then None else c.decode(tags[0].value)
  }

  /** The text of a required header that occurs exactly once. */
  function Text(c: Codec, headers: seq<Header>, name: string): Option<string> {
    var values := Values(headers, name);
    if values == [] || values[0] == None then None else c.decode(values[0].value)
  }

  predicate Matches(c: Codec, headers: seq<Header>, e: Envelope, name: string) {
    name == "content_type" || Text(c, headers, name) == Some(HeaderText(c, e, name))
  }

  predicate LacksHeader(headers: seq<Header>) {
    exists i :: 0 <= i < |REQUIRED| && Values(headers, REQUIRED[i]) == []
  }

  predicate RepeatsHeader(headers: seq<Header>) {
    exists i :: 0 <= i < |REQUIRED| && |Values(headers, REQUIRED[i])| != 1
  }

  predicate HasUnreadable(c: Codec, headers: seq<Header>) {
    exists i :: 0 <= i < |REQUIRED| && Text(c, headers, REQUIRED[i]) == None
  }

  predicate Contradicts(c: Codec, headers: seq<Header>, e: Envelope) {
    exists i :: 0 <= i < |REQUIRED| && !Matches(c, headers, e, REQUIRED[i])
  }

  function BodyVerdict(c: Codec, m: Message, value: Bytes): Verdict {
    match c.peek(value)
    case NotJson => Invalid(MalformedJson)
    case NotAnObject => EventVerdict(c, m, value)
    case Object(eventType, version) =>
      if eventType == None || eventType.value !in EVENT_TYPES then Invalid(UnknownEventType)
      else if version.Some? && version.value > VERSION then Invalid(UnsupportedVersion)
      else EventVerdict(c, m, value)
  }

  function EventVerdict(c: Codec, m: Message, value: Bytes): Verdict {
    match c.parse(value)
    case None => Invalid(ContractFailed)
    case Some(e) =>
      if e.version != VERSION then Invalid(UnsupportedVersion)
      else if Contradicts(c, m.headers, e) then Invalid(HeaderBodyMismatch)
      else if m.key != Some(MessageKey(c, e)) then Invalid(KeyBodyMismatch)
      else Valid(e)
  }

  function VerdictOf(c: Codec, m: Message): Verdict {
    if m.value == None then Invalid(MissingValue)
    else if m.key == None then Invalid(MissingKey)
    else if LacksHeader(m.headers) then Invalid(MissingHeader)
    else if RepeatsHeader(m.headers) then Invalid(DuplicateHeader)
    else if HasUnreadable(c, m.headers) then Invalid(InvalidHeaderEncoding)
    else if Text(c, m.headers, "content_type") != Some("application/json") then Invalid(InvalidContentType)
    else BodyVerdict(c, m, m.value.value)
  }

  function Validate(c: Codec, m: Message): Result {
    var verdict := VerdictOf(c, m);
    var early := verdict == Invalid(MissingValue) || verdict == Invalid(MissingKey) || verdict.Valid?;
    Result(verdict, if early then None else Anomaly(c, m.headers))
  }

  // ----- the loops -----

  method GroupHeaders(headers: seq<Header>) returns (grouped: map<string, seq<Option<Bytes>>>)
    ensures Groups(headers, grouped)
  {
    grouped := map[];
    for i := 0 to |headers|
      invariant forall name :: name in grouped <==> Values(headers[..i], name) != []
      invariant forall name :: name in grouped ==> grouped[name] == Values(headers[..i], name)
    {
      assert headers[..i + 1][..i] == headers[..i];
      var (name, value) := headers[i];
      grouped := grouped[name := (if name in grouped then grouped[name] else []) + [value]];
    }
    assert headers[..|headers|] == headers;
  }

  /** `validate_message` */
  method ValidateMessage(c: Codec, m: Message) returns (r: Result)
    ensures r == Validate(c, m)
  {
    hide Values, BodyVerdict, LacksHeader, RepeatsHeader, HasUnreadable;
    if m.value == None {
      return Result(Invalid(MissingValue), None);
    }
    if m.key == None {
      return Result(Invalid(MissingKey), None);
    }
    var grouped := GroupHeaders(m.headers);
    var anomaly: Option<string> := None;
    if TAG in grouped && grouped[TAG][0] != None {
      anomaly := c.decode(grouped[TAG][0].value);
    }
    var lacking := SomeLacking(m.headers, grouped);
    if lacking {
      return Result(Invalid(MissingHeader), anomaly);
    }
    var repeated := SomeRepeated(m.headers, grouped);
    if repeated {
      return Result(Invalid(DuplicateHeader), anomaly);
    }
    var decoded := DecodeRequired(c, m.headers, grouped);
    if decoded == None {
      return Result(Invalid(InvalidHeaderEncoding), anomaly);
    }
    assert REQUIRED[0] == "content_type";
    if decoded.value["content_type"] != "application/json" {
      return Result(Invalid(InvalidContentType), anomaly);
    }
    var verdict := BodyVerdict(c, m, m.value.value);
    BodyIsLater(c, m, m.value.value);
    r := Result(verdict, if verdict.Valid? then None else anomaly);
  }

  lemma BodyIsLater(c: Codec, m: Message, value: Bytes)
    ensures BodyVerdict(c, m, value) != Invalid(MissingValue) && BodyVerdict(c, m, value) != Invalid(MissingKey)
  {
  }

  ghost predicate Groups(headers: seq<Header>, grouped: map<string, seq<Option<Bytes>>>) {
    && (forall name :: name in grouped <==> Values(headers, name) != [])
    && (forall name :: name in grouped ==> grouped[name] == Values(headers, name))
  }

  method SomeLacking(headers: seq<Header>, grouped: map<string, seq<Option<Bytes>>>) returns (lacking: bool)
    requires Groups(headers, grouped)
    ensures lacking == LacksHeader(headers)
  {
    for i := 0 to |REQUIRED|
      invariant forall j :: 0 <= j < i ==> Values(headers, REQUIRED[j]) != []
    {
      if REQUIRED[i] !in grouped {
        return true;
      }
    }
    lacking := false;
  }

  method SomeRepeated(headers: seq<Header>, grouped: map<string, seq<Option<Bytes>>>) returns (repeated: bool)
    requires Groups(headers, grouped) && !LacksHeader(headers)
    ensures repeated == RepeatsHeader(headers)
  {
    for i := 0 to |REQUIRED|
      invariant forall j :: 0 <= j < i ==> |Values(headers, REQUIRED[j])| == 1
    {
      assert Values(headers, REQUIRED[i]) != [];
      if |grouped[REQUIRED[i]]| != 1 {
        return true;
      }
    }
    repeated := false;
  }

  /** The readable text of every required header, or none. */
  method DecodeRequired(c: Codec, headers: seq<Header>, grouped: map<string, seq<Option<Bytes>>>)
    returns (decoded: Option<map<string, string>>)
    requires Groups(headers, grouped) && !LacksHeader(headers)
    ensures decoded.None? <==> HasUnreadable(c, headers)
    ensures decoded.Some? ==> forall j :: 0 <= j < |REQUIRED| ==>
              REQUIRED[j] in decoded.value && Text(c, headers, REQUIRED[j]) == Some(decoded.value[REQUIRED[j]])
  {
    var texts: map<string, string> := map[];
    for i := 0 to |REQUIRED|
      invariant forall j :: 0 <= j < i ==>
        REQUIRED[j] in texts && Text(c, headers, REQUIRED[j]) == Some(texts[REQUIRED[j]])
    {
      assert Values(headers, REQUIRED[i]) != [];
      var raw := grouped[REQUIRED[i]][0];
      if raw == None {
        assert Text(c, headers, REQUIRED[i]) == None;
        return None;
      }
      var text := c.decode(raw.value);
      assert Text(c, headers, REQUIRED[i]) == text;
      if text == None {
        return None;
      }
      texts := texts[REQUIRED[i] := text.value];
    }
    decoded := Some(texts);
  }

  // ----- round trip -----

  lemma HeadersOfValidMessage(c: Codec, e: Envelope, name: string)
    requires name in REQUIRED
    ensures Values(MessageHeaders(c, e), name) == [HeaderOf(c, e, name).1]
  {
    var hs := MessageHeaders(c, e);
    var none: seq<Header> := [];
    assert hs == none + [hs[0]] + [hs[1]] + [hs[2]] + [hs[3]] + [hs[4]] + [hs[5]];
    ValuesSnoc(none, hs[0], name);
    ValuesSnoc(none + [hs[0]], hs[1], name);
    ValuesSnoc(none + [hs[0]] + [hs[1]], hs[2], name);
    ValuesSnoc(none + [hs[0]] + [hs[1]] + [hs[2]], hs[3], name);
    ValuesSnoc(none + [hs[0]] + [hs[1]] + [hs[2]] + [hs[3]], hs[4], name);
    ValuesSnoc(none + [hs[0]] + [hs[1]] + [hs[2]] + [hs[3]] + [hs[4]], hs[5], name);
  }

  lemma ValuesSnoc(headers: seq<Header>, h: Header, name: string)
    ensures Values(headers + [h], name) == Values(headers, name) + if h.0 == name then [h.1] else []
  {
    assert (headers + [h])[..|headers|] == headers;
  }

  /** A message built from an event is valid, and validates to that event, exactly for version 1. */
  lemma RoundTrip(c: Codec, e: Envelope)
    requires CodecOk(c) && e.eventType in EVENT_TYPES
    ensures VerdictOf(c, ValidMessage(c, e)) == Valid(e) <==> e.version == VERSION
  {
    var m := ValidMessage(c, e);
    forall name | name in REQUIRED
      ensures Values(m.headers, name) == [HeaderOf(c, e, name).1] && Text(c, m.headers, name) == Some(HeaderText(c, e, name))
    {
      HeadersOfValidMessage(c, e, name);
    }
    assert REQUIRED[0] == "content_type";
  }

  // ----- extra headers -----

  predicate SameRequired(a: seq<Header>, b: seq<Header>) {
    forall name :: name in REQUIRED ==> Values(a, name) == Values(b, name)
  }

  lemma SameTexts(c: Codec, a: seq<Header>, b: seq<Header>)
    requires SameRequired(a, b)
    ensures forall i :: 0 <= i < |REQUIRED| ==> Values(a, REQUIRED[i]) == Values(b, REQUIRED[i])
    ensures forall i :: 0 <= i < |REQUIRED| ==> Text(c, a, REQUIRED[i]) == Text(c, b, REQUIRED[i])
  {
  }

  lemma SameChecks(c: Codec, a: seq<Header>, b: seq<Header>)
    requires SameRequired(a, b)
    ensures LacksHeader(a) == LacksHeader(b) && RepeatsHeader(a) == RepeatsHeader(b)
    ensures HasUnreadable(c, a) == HasUnreadable(c, b)
    ensures Text(c, a, "content_type") == Text(c, b, "content_type")
  {
    hide Values, Text, SameRequired;
    SameTexts(c, a, b);
    assert REQUIRED[0] == "content_type";
  }

  lemma SameContradictions(c: Codec, a: seq<Header>, b: seq<Header>, e: Envelope)
    requires SameRequired(a, b)
    ensures Contradicts(c, a, e) == Contradicts(c, b, e)
  {
    hide Values, Text, SameRequired, HeaderText;
    SameTexts(c, a, b);
    assert forall i :: 0 <= i < |REQUIRED| ==> Matches(c, a, e, REQUIRED[i]) == Matches(c, b, e, REQUIRED[i]);
  }

  /** The verdict depends on the headers only through the values of the required ones. */
  lemma OnlyRequiredHeadersMatter(c: Codec, m: Message, headers: seq<Header>)
    requires SameRequired(m.headers, headers)
    ensures VerdictOf(c, m.(headers := headers)) == VerdictOf(c, m)
  {
    hide Values, Text, SameRequired, Contradicts, LacksHeader, RepeatsHeader, HasUnreadable;
    SameChecks(c, m.headers, headers);
    forall e: Envelope ensures Contradicts(c, headers, e) == Contradicts(c, m.headers, e) {
      SameContradictions(c, m.headers, headers, e);
    }
  }

  lemma {:induction false} ValuesConcat(a: seq<Header>, b: seq<Header>, name: string)
    ensures Values(a + b, name) == Values(a, name) + Values(b, name)
  {
    if b == [] {
      assert a + b == a;
    } else {
      var n := |b| - 1;
      ValuesConcat(a, b[..n], name);
      assert (a + b)[..|a + b| - 1] == a + b[..n];
    }
  }

  lemma {:induction false} NoValues(headers: seq<Header>, name: string)
    requires forall i :: 0 <= i < |headers| ==> headers[i].0 != name
    ensures Values(headers, name) == []
  {
    if headers != [] { NoValues(headers[..|headers| - 1], name); }
  }

  /** Appending any number of non-required headers never changes the verdict. */
  lemma ExtraHeadersAreIgnored(c: Codec, m: Message, extra: seq<Header>)
    requires forall i :: 0 <= i < |extra| ==> extra[i].0 !in REQUIRED
    ensures VerdictOf(c, m.(headers := m.headers + extra)) == VerdictOf(c, m)
  {
    forall name | name in REQUIRED ensures Values(m.headers + extra, name) == Values(m.headers, name) {
      ValuesConcat(m.headers, extra, name);
      NoValues(extra, name);
    }
    OnlyRequiredHeadersMatter(c, m, m.headers + extra);
  }

  /**
   The anomaly tag never changes a verdict, and the first tag of a refused message is what its
   error reports.
   */
  lemma TagIsReported(c: Codec, m: Message, kind: string)
    requires CodecOk(c) && Values(m.headers, TAG) == []
    ensures VerdictOf(c, Tagged(c, m, kind)) == VerdictOf(c, m)
    ensures m.key.Some? && m.value.Some? && VerdictOf(c, m).Invalid? ==> Validate(c, Tagged(c, m, kind)).anomaly == Some(kind)
  {
    TagIsNotRequired();
    var extra: seq<Header> := [(TAG, Some(c.encode(kind)))];
    assert extra[0].0 == TAG && Values(extra[..0], TAG) == [];
    ExtraHeadersAreIgnored(c, m, extra);
    ValuesConcat(m.headers, extra, TAG);
    if m.key.Some? && m.value.Some? { BodyIsNeverMissing(c, m); }
  }

  lemma TagIsNotRequired()
    ensures TAG !in REQUIRED
  {
    assert |TAG| == 17;
    assert forall i :: 0 <= i < |REQUIRED| ==> |REQUIRED[i]| <= 14;
  }

  lemma BodyIsNeverMissing(c: Codec, m: Message)
    requires m.key.Some? && m.value.Some?
    ensures VerdictOf(c, m) != Invalid(MissingValue) && VerdictOf(c, m) != Invalid(MissingKey)
  {
  }
}
