/**
 Which record is refused for what: every category is a fault one can see in the record itself, and
 the verdict names the first fault in the order of the checks.
 */
module ValidationFaults {
  import opened Prelude
  import opened Validation

  /** The header occurs at position `i`. */
  predicate Has(headers: seq<Header>, name: string, i: nat) {
    i < |headers| && headers[i].0 == name
  }

  predicate Readable(c: Codec, h: Header) {
    h.1.Some? && c.decode(h.1.value).Some?
  }

  predicate Reads(c: Codec, h: Header, text: string) {
    h.1.Some? && c.decode(h.1.value) == Some(text)
  }

  /** The ordering key of an event: its customer, or its correlation when it has none. */
  predicate KeyFits(c: Codec, key: Option<Bytes>, e: Envelope) {
    key == Some(c.encode(c.uuid(match e.customer case Some(customer) => customer case None => e.correlation)))
  }

  /** What the header must read if the body is `e`. */
  predicate HeaderFits(c: Codec, h: Header, e: Envelope) {
    && (h.0 == "event_id" ==> Reads(c, h, c.uuid(e.id)))
    && (h.0 == "event_type" ==> Reads(c, h, e.eventType))
    && (h.0 == "event_version" ==> Reads(c, h, c.number(e.version)))
    && (h.0 == "correlation_id" ==> Reads(c, h, c.uuid(e.correlation)))
    && (h.0 == "source" ==> Reads(c, h, e.source))
  }

  /** The fault a category stands for. */
  ghost predicate Fault(c: Codec, m: Message, category: Category) {
    match category
    case MissingValue => m.value == None
    case MissingKey => m.key == None
    case MissingHeader => exists name :: name in REQUIRED && forall i: nat :: !Has(m.headers, name, i)
    case DuplicateHeader => exists i: nat, j: nat, name :: i < j && name in REQUIRED && Has(m.headers, name, i) && Has(m.headers, name, j)
    case InvalidHeaderEncoding => exists i: nat :: i < |m.headers| && m.headers[i].0 in REQUIRED && !Readable(c, m.headers[i])
    case InvalidContentType => exists i: nat :: Has(m.headers, "content_type", i) && !Reads(c, m.headers[i], "application/json")
    case MalformedJson => m.value.Some? && c.peek(m.value.value) == NotJson
    case UnknownEventType =>
      m.value.Some? && c.peek(m.value.value).Object? &&
      (c.peek(m.value.value).eventType == None || c.peek(m.value.value).eventType.value !in EVENT_TYPES)
    case UnsupportedVersion =>
      m.value.Some? &&
      (|| (c.peek(m.value.value).Object? && c.peek(m.value.value).version.Some? && c.peek(m.value.value).version.value > VERSION)
       || (c.parse(m.value.value).Some? && c.parse(m.value.value).value.version != VERSION))
    case ContractFailed => m.value.Some? && c.parse(m.value.value) == None
    case HeaderBodyMismatch =>
      m.value.Some? && c.parse(m.value.value).Some? &&
      exists i: nat :: i < |m.headers| && m.headers[i].0 in REQUIRED && !HeaderFits(c, m.headers[i], c.parse(m.value.value).value)
    case KeyBodyMismatch => m.value.Some? && c.parse(m.value.value).Some? && !KeyFits(c, m.key, c.parse(m.value.value).value)
  }

  /** The order of the checks. */
  function Rank(category: Category): nat {
    match category
    case MissingValue => 0
    case MissingKey => 1
    case MissingHeader => 2
    case DuplicateHeader => 3
    case InvalidHeaderEncoding => 4
    case InvalidContentType => 5
    case MalformedJson => 6
    case UnknownEventType => 7
    case UnsupportedVersion => 8
    case ContractFailed => 9
    case HeaderBodyMismatch => 10
    case KeyBodyMismatch => 11
  }

  ghost predicate NoneBefore(c: Codec, m: Message, rank: nat) {
    forall category :: Rank(category) < rank ==> !Fault(c, m, category)
  }

  // ----- the values of one header -----

  lemma {:induction false} ValuesShape(headers: seq<Header>, name: string)
    ensures Values(headers, name) == [] <==> forall i: nat :: !Has(headers, name, i)
    ensures |Values(headers, name)| > 1 <==> exists i: nat, j: nat :: i < j && Has(headers, name, i) && Has(headers, name, j)
    ensures forall i: nat :: |Values(headers, name)| == 1 && Has(headers, name, i) ==> Values(headers, name) == [headers[i].1]
  {
    if headers != [] {
      var n := |headers| - 1;
      var init := headers[..n];
      ValuesShape(init, name);
      assert forall i: nat :: i < n ==> (Has(init, name, i) <==> Has(headers, name, i));
      assert Has(headers, name, n) <==> headers[n].0 == name;
      if exists i: nat, j: nat :: i < j && Has(init, name, i) && Has(init, name, j) {
        var i: nat, j: nat :| i < j && Has(init, name, i) && Has(init, name, j);
        assert Has(headers, name, i) && Has(headers, name, j);
      }
    }
  }

  lemma TwoValues(headers: seq<Header>, name: string, i: nat, j: nat)
    requires i < j && Has(headers, name, i) && Has(headers, name, j)
    ensures |Values(headers, name)| > 1
  {
    ValuesShape(headers, name);
  }

  lemma LackingIsFault(c: Codec, m: Message)
    ensures LacksHeader(m.headers) <==> Fault(c, m, MissingHeader)
  {
    hide Values, Has;
    forall name ensures Values(m.headers, name) == [] <==> forall i: nat :: !Has(m.headers, name, i) {
      ValuesShape(m.headers, name);
    }
    if LacksHeader(m.headers) {
      var k :| 0 <= k < |REQUIRED| && Values(m.headers, REQUIRED[k]) == [];
      assert REQUIRED[k] in REQUIRED;
    }
  }

  lemma RepeatedIsFault(c: Codec, m: Message)
    requires !LacksHeader(m.headers)
    ensures RepeatsHeader(m.headers) <==> Fault(c, m, DuplicateHeader)
  {
    hide Values, Has;
    if RepeatsHeader(m.headers) {
      var k :| 0 <= k < |REQUIRED| && |Values(m.headers, REQUIRED[k])| != 1;
      assert Values(m.headers, REQUIRED[k]) != [];
      ValuesShape(m.headers, REQUIRED[k]);
      assert REQUIRED[k] in REQUIRED;
    }
    if Fault(c, m, DuplicateHeader) {
      var i: nat, j: nat, name :| i < j && name in REQUIRED && Has(m.headers, name, i) && Has(m.headers, name, j);
      TwoValues(m.headers, name, i, j);
      var k :| 0 <= k < |REQUIRED| && REQUIRED[k] == name;
      assert |Values(m.headers, REQUIRED[k])| != 1;
    }
  }

  /** Every required header occurs exactly once. */
  ghost predicate EachOnce(headers: seq<Header>) {
    !LacksHeader(headers) && !RepeatsHeader(headers)
  }

  /** Then its text is what its only occurrence reads. */
  lemma OnlyText(c: Codec, headers: seq<Header>, name: string) returns (i: nat)
    requires EachOnce(headers) && name in REQUIRED
    ensures Has(headers, name, i) && forall j: nat :: Has(headers, name, j) ==> j == i
    ensures Text(c, headers, name) == if headers[i].1.Some? then c.decode(headers[i].1.value) else None
  {
    hide Values, Has;
    var k :| 0 <= k < |REQUIRED| && REQUIRED[k] == name;
    assert Values(headers, REQUIRED[k]) != [] && |Values(headers, REQUIRED[k])| == 1;
    ValuesShape(headers, name);
    i :| Has(headers, name, i);
    forall j: nat | Has(headers, name, j) ensures j == i {
      if j < i { TwoValues(headers, name, j, i); }
      if i < j { TwoValues(headers, name, i, j); }
    }
    IsWithin(headers, name, i);
  }

  lemma IsWithin(headers: seq<Header>, name: string, i: nat)
    requires Has(headers, name, i)
    ensures i < |headers| && headers[i].0 == name
  {
  }

  lemma UnreadableIsFault(c: Codec, m: Message)
    requires EachOnce(m.headers)
    ensures HasUnreadable(c, m.headers) <==> Fault(c, m, InvalidHeaderEncoding)
  {
    hide Values, Text, LacksHeader, RepeatsHeader;
    if HasUnreadable(c, m.headers) {
      var k :| 0 <= k < |REQUIRED| && Text(c, m.headers, REQUIRED[k]) == None;
      var i := OnlyText(c, m.headers, REQUIRED[k]);
      assert m.headers[i].0 in REQUIRED;
    }
    if Fault(c, m, InvalidHeaderEncoding) {
      var i: nat :| i < |m.headers| && m.headers[i].0 in REQUIRED && !Readable(c, m.headers[i]);
      var k :| 0 <= k < |REQUIRED| && REQUIRED[k] == m.headers[i].0;
      var j := OnlyText(c, m.headers, REQUIRED[k]);
      assert Has(m.headers, REQUIRED[k], i);
    }
  }

  lemma ContentTypeIsFault(c: Codec, m: Message)
    requires EachOnce(m.headers)
    ensures Text(c, m.headers, "content_type") != Some("application/json") <==> Fault(c, m, InvalidContentType)
  {
    hide Values, Text, LacksHeader, RepeatsHeader;
    assert REQUIRED[0] == "content_type";
    var i := OnlyText(c, m.headers, "content_type");
  }

  lemma MismatchIsFault(c: Codec, m: Message, e: Envelope)
    requires EachOnce(m.headers) && m.value.Some? && c.parse(m.value.value) == Some(e)
    ensures Contradicts(c, m.headers, e) <==> Fault(c, m, HeaderBodyMismatch)
  {
    hide Values, Text, LacksHeader, RepeatsHeader;
    if Contradicts(c, m.headers, e) {
      var k :| 0 <= k < |REQUIRED| && !Matches(c, m.headers, e, REQUIRED[k]);
      var i := OnlyText(c, m.headers, REQUIRED[k]);
      RequiredNames(k);
      assert m.headers[i].0 in REQUIRED && !HeaderFits(c, m.headers[i], e);
    }
    if Fault(c, m, HeaderBodyMismatch) {
      var i: nat :| i < |m.headers| && m.headers[i].0 in REQUIRED && !HeaderFits(c, m.headers[i], e);
      var k :| 0 <= k < |REQUIRED| && REQUIRED[k] == m.headers[i].0;
      var j := OnlyText(c, m.headers, REQUIRED[k]);
      assert Has(m.headers, REQUIRED[k], i);
      assert !Matches(c, m.headers, e, REQUIRED[k]);
    }
  }

  lemma RequiredNames(k: nat)
    requires k < |REQUIRED|
    ensures var name := REQUIRED[k];
            name == "content_type" || name == "correlation_id" || name == "event_id" || name == "event_type"
            || name == "event_version" || name == "source"
  {
  }

  lemma KeyIsFault(c: Codec, m: Message, e: Envelope)
    requires m.value.Some? && c.parse(m.value.value) == Some(e)
    ensures m.key != Some(MessageKey(c, e)) <==> Fault(c, m, KeyBodyMismatch)
  {
  }

  // ----- the verdict -----

  /** No other category than these. */
  lemma BeforeRank(c: Codec, m: Message, category: Category)
    requires !Fault(c, m, category) && NoneBefore(c, m, Rank(category))
    ensures NoneBefore(c, m, Rank(category) + 1)
  {
    hide Fault;
  }

  /**
   The verdict on every record: it names a category exactly when the record has that fault and none
   that is checked earlier, and it is valid exactly when the record has no fault at all.
   */
  ghost predicate Names(c: Codec, m: Message, verdict: Verdict) {
    match verdict
    case Invalid(category) => Fault(c, m, category) && NoneBefore(c, m, Rank(category))
    case Valid(e) => NoneBefore(c, m, 12) && m.value.Some? && c.parse(m.value.value) == Some(e)
  }

  lemma BodyNames(c: Codec, m: Message)
    requires m.value.Some? && EachOnce(m.headers) && NoneBefore(c, m, Rank(MalformedJson))
    ensures Names(c, m, BodyVerdict(c, m, m.value.value))
  {
    hide Values, Text, LacksHeader, RepeatsHeader, Contradicts, HeaderFits, KeyFits, MessageKey, Has, Readable, Reads;
    var value := m.value.value;
    if c.peek(value) != NotJson {
      BeforeRank(c, m, MalformedJson);
      if !Fault(c, m, UnknownEventType) {
        BeforeRank(c, m, UnknownEventType);
        if !Fault(c, m, UnsupportedVersion) {
          BeforeRank(c, m, UnsupportedVersion);
          if c.parse(value).Some? {
            var e := c.parse(value).value;
            BeforeRank(c, m, ContractFailed);
            MismatchIsFault(c, m, e);
            KeyIsFault(c, m, e);
            if !Fault(c, m, HeaderBodyMismatch) {
              BeforeRank(c, m, HeaderBodyMismatch);
              if !Fault(c, m, KeyBodyMismatch) { BeforeRank(c, m, KeyBodyMismatch); }
            }
          }
        }
      }
    }
  }

  lemma FirstFaultIsNamed(c: Codec, m: Message)
    ensures Names(c, m, VerdictOf(c, m))
  {
    hide Values, Text, LacksHeader, RepeatsHeader, HasUnreadable, BodyVerdict, Has, Readable, Reads;
    if m.value.Some? {
      BeforeRank(c, m, MissingValue);
      if m.key.Some? {
        BeforeRank(c, m, MissingKey);
        LackingIsFault(c, m);
        if !LacksHeader(m.headers) {
          BeforeRank(c, m, MissingHeader);
          RepeatedIsFault(c, m);
          if !RepeatsHeader(m.headers) {
            BeforeRank(c, m, DuplicateHeader);
            UnreadableIsFault(c, m);
            if !HasUnreadable(c, m.headers) {
              BeforeRank(c, m, InvalidHeaderEncoding);
              ContentTypeIsFault(c, m);
              if !Fault(c, m, InvalidContentType) {
                BeforeRank(c, m, InvalidContentType);
                BodyNames(c, m);
              }
            }
          }
        }
      }
    }
  }

  /** Two verdicts that name the first fault are the same. */
  lemma OnlyOneVerdict(c: Codec, m: Message, v: Verdict, v': Verdict)
    requires Names(c, m, v) && Names(c, m, v')
    ensures v == v'
  {
    hide Fault;
    if v.Invalid? && v'.Invalid? {
      assert Rank(v.category) == Rank(v'.category);
      SameRank(v.category, v'.category);
    } else if v.Invalid? {
      AllRanked(v.category);
    } else if v'.Invalid? {
      AllRanked(v'.category);
    }
  }

  lemma SameRank(a: Category, b: Category)
    requires Rank(a) == Rank(b)
    ensures a == b
  {
  }

  lemma AllRanked(a: Category)
    ensures Rank(a) < 12
  {
  }

  /** When each category is reported, and when a record is valid. */
  lemma CategoryReported(c: Codec, m: Message, category: Category, e: Envelope)
    ensures VerdictOf(c, m) == Invalid(category) <==> Fault(c, m, category) && NoneBefore(c, m, Rank(category))
    ensures VerdictOf(c, m) == Valid(e) <==>
            NoneBefore(c, m, 12) && m.value.Some? && c.parse(m.value.value) == Some(e)
  {
    hide Fault, VerdictOf, NoneBefore;
    FirstFaultIsNamed(c, m);
    var v := VerdictOf(c, m);
    if Names(c, m, Invalid(category)) { OnlyOneVerdict(c, m, v, Invalid(category)); }
    if Names(c, m, Valid(e)) { OnlyOneVerdict(c, m, v, Valid(e)); }
  }
}
