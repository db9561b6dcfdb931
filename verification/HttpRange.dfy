/** Range headers as the two download handlers resolve them, against RFC 9110. */
module HttpRange {
  import opened Basics

  // -------------------------------------------------------------------- the pattern

  /** The digits s starts with: what \d* takes. */
  function Digits(s: string): (d: string)
    ensures |d| <= |s| && AllDigits(d)
  {
    if s == "" || !IsDigit(s[0]) then "" else [s[0]] + Digits(s[1..])
  }

  /** An empty capture counts as no number. */
  function Number(digits: string): Option<nat>
    requires AllDigits(digits)
  {
    if digits == "" then None else Some(Value(digits))
  }

  datatype Captures = Captures(first: string, last: string)

  /** bytes=(\d*)-(\d*) matched at the front of s, or with (\d+) for the first group. */
  function CapturesAt(s: string, needFirst: bool): Option<Captures> {
    if |s| < 6 || s[..6] != "bytes=" then None
    else
      var first := Digits(s[6..]);
      var rest := s[6 + |first|..];
      if rest == "" || rest[0] != '-' || (needFirst && first == "") then None
      else Some(Captures(first, Digits(rest[1..])))
  }

  /** The pattern is not anchored: the leftmost match anywhere in the header counts. */
  function Exec(s: string, needFirst: bool): (r: Option<Captures>)
    ensures r.Some? ==> AllDigits(r.value.first) && AllDigits(r.value.last)
  {
    if CapturesAt(s, needFirst).Some? then CapturesAt(s, needFirst)
    else if s == "" then None
    else Exec(s[1..], needFirst)
  }

  /** What a handler knows of the header after its pattern ran; an empty header is no header. */
  function Parsed(header: Option<string>, needFirst: bool): RangeHeader {
    if header.None? || header.value == "" then Absent
    else
      var found := Exec(header.value, needFirst);
      if found.None? then NoMatch else ByteRange(Number(found.value.first), Number(found.value.last))
  }

  /** The captures of bytes=first-last; None is an empty capture, NoMatch an unmatched header. */
  datatype RangeHeader = Absent | NoMatch | ByteRange(first: Option<nat>, last: Option<nat>)

  datatype Resolution =
    | Full
    | Partial(start: nat, end: nat)   // inclusive
    | NotSatisfiable                  // 416

  /** Section 14.1.2 of RFC 9110: int-range or suffix-range; None when the header is no valid byte range. */
  function RfcRange(h: RangeHeader, total: nat): Option<Resolution> {
    match h
    case Absent => Some(Full)
    case NoMatch => None
    case ByteRange(None, None) => None
    case ByteRange(Some(first), last) =>
      if last.Some? && last.value < first then None
      else if first >= total then Some(NotSatisfiable)
      else Some(Partial(first, if last.Some? then Min(last.value, total - 1) else total - 1))
    case ByteRange(None, Some(n)) =>
      if n == 0 then Some(NotSatisfiable)
      else if total == 0 then Some(Full)   // the entire (empty) representation is used
      else Some(Partial(Max(0, total - n), total - 1))
  }

  /** buildShareFileResponse: start and end are reassigned branch by branch. */
  method ResolveShareRange(header: Option<string>, total: nat) returns (r: Resolution)
    ensures r == ShareResolution(Parsed(header, false), total)
    ensures r == Full <==> header.None? || header.value == ""
  {
    var h := Parsed(header, false);
    var start: int := 0;
    var end: int := total - 1;
    if h.Absent? {
      return Full;
    }
    if h.NoMatch? {
      return NotSatisfiable;
    }
    if h.first.Some? {
      start := h.first.value;
      end := if h.last.Some? then Min(h.last.value, total - 1) else total - 1;
    } else if h.last.Some? {
      start := Max(0, total - h.last.value);
    }
    if start >= total || start > end {
      return NotSatisfiable;
    }
    r := Partial(start, end);
  }

  /** handleStreamRequest: the pattern demands a first position. */
  method ResolveStreamRange(header: Option<string>, total: nat) returns (r: Resolution)
    ensures r == StreamResolution(Parsed(header, true), total)
    ensures r == Full <==> header.None? || header.value == ""
  {
    var h := Parsed(header, true);
    if h.Absent? {
      return Full;
    }
    if h.NoMatch? || h.first.None? {
      return NotSatisfiable;
    }
    var start := h.first.value;
    var end: int := if h.last.Some? then h.last.value else total - 1;
    end := Min(end, total - 1);
    if start >= total || start > end {
      return NotSatisfiable;
    }
    r := Partial(start, end);
  }

  function ShareResolution(h: RangeHeader, total: nat): Resolution {
    match h
    case Absent => Full
    case NoMatch => NotSatisfiable
    case ByteRange(Some(first), last) =>
      if first < total && (last.None? || first <= last.value)
      then Partial(first, if last.Some? && last.value < total then last.value else total - 1) else NotSatisfiable
    case ByteRange(None, last) =>
      if total > 0 && (last.None? || last.value > 0)
      then Partial(if last.Some? && last.value < total then total - last.value else 0, total - 1) else NotSatisfiable
  }

  function StreamResolution(h: RangeHeader, total: nat): Resolution {
    if h.ByteRange? && h.first.None? then NotSatisfiable else ShareResolution(h, total)
  }

  /** Every range that is served is a non-empty window of the file. */
  lemma ServedRangesAreWindows(h: RangeHeader, total: nat)
    ensures ShareResolution(h, total).Partial? ==>
      ShareResolution(h, total).start <= ShareResolution(h, total).end < total
    ensures StreamResolution(h, total).Partial? ==>
      StreamResolution(h, total).start <= StreamResolution(h, total).end < total
  {
  }

  // --------------------------------------------------------------- whole headers

  /** One element of a range set: first-last, first- or -last, as written. */
  datatype Spec = Spec(first: string, last: string)
  {
    predicate WellFormed() { AllDigits(first) && AllDigits(last) }

    function Text(): string { first + "-" + last }

    /** What the RFC makes of the element alone. */
    function Rfc(total: nat): Option<Resolution>
      requires WellFormed()
    {
      RfcRange(ByteRange(Number(first), Number(last)), total)
    }
  }

  /** A place in the comma-separated set: a range, or nothing, with optional white space around it. */
  datatype Element = Element(before: string, spec: Option<Spec>, after: string)
  {
    predicate WellFormed() { WhiteSpace(before) && WhiteSpace(after) && (spec.Some? ==> spec.value.WellFormed()) }

    function Text(): string { before + (if spec.Some? then spec.value.Text() else "") + after }
  }

  function SetText(elements: seq<Element>): string
    requires elements != []
  {
    elements[0].Text() + (if |elements| == 1 then "" else "," + SetText(elements[1..]))
  }

  function HeaderText(unit: string, elements: seq<Element>): string
    requires elements != []
  {
    unit + "=" + SetText(elements)
  }

  /** The ranges asked for: empty elements are passed over, section 5.6.1 of RFC 9110. */
  function Specs(elements: seq<Element>): (specs: seq<Spec>)
    requires forall e <- elements :: e.WellFormed()
    ensures forall sp <- specs :: sp.WellFormed()
  {
    if elements == [] then []
    else
      assert elements[0].WellFormed();
      (if elements[0].spec.Some? then [elements[0].spec.value] else []) + Specs(elements[1..])
  }

  predicate EndsInBytes(unit: string) { |unit| >= 5 && unit[|unit| - 5..] == "bytes" }

  function Lower(c: char): char { if 'A' <= c <= 'Z' then (c as int + 32) as char else c }

  /** Range units are compared without regard to case, section 14.1 of RFC 9110. */
  predicate IsBytes(unit: string) { |unit| == 5 && forall i :: 0 <= i < 5 ==> Lower(unit[i]) == "bytes"[i] }

  predicate WhiteSpace(gap: string) { forall c <- gap :: c == ' ' || c == '\t' }

  /** A range set as a recipient must read it: no white space before its first element. */
  predicate ReadableSet(unit: string, elements: seq<Element>) {
    '=' !in unit && elements != [] && elements[0].before == "" && forall e <- elements :: e.WellFormed()
  }

  /** Such a set with at least one range, all of them valid. */
  ghost predicate ValidHeader(unit: string, elements: seq<Element>, total: nat) {
    && ReadableSet(unit, elements) && Specs(elements) != []
    && forall sp <- Specs(elements) :: sp.Rfc(total).Some?
  }

  lemma {:induction false} DigitsOf(d: string, rest: string)
    requires AllDigits(d) && (rest == "" || !IsDigit(rest[0]))
    ensures Digits(d + rest) == d
  {
    if d == "" {
      assert d + rest == rest;
    } else {
      assert (d + rest)[1..] == d[1..] + rest;
      DigitsOf(d[1..], rest);
    }
  }

  lemma {:induction false} NoMatchWithoutB(s: string, needFirst: bool)
    requires 'b' !in s
    ensures Exec(s, needFirst).None?
  {
    if s != "" {
      assert |s| >= 6 ==> s[..6][0] != 'b';
      NoMatchWithoutB(s[1..], needFirst);
    }
  }

  lemma {:induction false} SetHasNoB(elements: seq<Element>)
    requires elements != [] && forall e <- elements :: e.WellFormed()
    ensures 'b' !in SetText(elements)
  {
    assert elements[0].WellFormed();
    if |elements| > 1 {
      SetHasNoB(elements[1..]);
    }
  }

  /** What the pattern captures of the set's first element. */
  function FirstCaptured(elements: seq<Element>, needFirst: bool): Option<Captures>
    requires elements != []
  {
    var spec := elements[0].spec;
    if spec.None? || (needFirst && spec.value.first == "") then None
    else Some(Captures(spec.value.first, spec.value.last))
  }

  lemma RangeCaptured(a: string, b: string, tail: string, needFirst: bool)
    requires AllDigits(a) && AllDigits(b) && (tail == "" || !IsDigit(tail[0]))
    ensures CapturesAt("bytes=" + (a + "-" + b + tail), needFirst)
      == if needFirst && a == "" then None else Some(Captures(a, b))
  {
    var s := "bytes=" + (a + "-" + b + tail);
    hide AllDigits;
    assert s[..6] == "bytes=" && s[6..] == a + ("-" + (b + tail));
    DigitsOf(a, "-" + (b + tail));
    assert s[6 + |a|..] == "-" + (b + tail);
    assert ("-" + (b + tail))[1..] == b + tail;
    DigitsOf(b, tail);
    hide Digits;
  }

  lemma BlankNotCaptured(tail: string, needFirst: bool)
    requires tail == "" || (!IsDigit(tail[0]) && tail[0] != '-')
    ensures CapturesAt("bytes=" + tail, needFirst) == None
  {
    assert ("bytes=" + tail)[6..] == tail;
  }

  /** Right at the unit, the first element is what the pattern captures. */
  lemma FirstSpecCaptured(elements: seq<Element>, needFirst: bool)
    requires elements != [] && elements[0].before == "" && elements[0].WellFormed()
    ensures CapturesAt("bytes=" + SetText(elements), needFirst) == FirstCaptured(elements, needFirst)
  {
    var rest := if |elements| == 1 then "" else "," + SetText(elements[1..]);
    var e := elements[0];
    var tail := e.after + rest;
    assert tail == "" || tail[0] in e.after || tail[0] == ',';
    assert SetText(elements) == e.Text() + rest;
    hide CapturesAt, SetText;
    if e.spec.Some? {
      RangeCaptured(e.spec.value.first, e.spec.value.last, tail, needFirst);
      Regrouped(e.spec.value.Text(), e.after, rest);
    } else {
      BlankNotCaptured(tail, needFirst);
      Regrouped("", e.after, rest);
    }
  }

  lemma Regrouped(a: string, b: string, c: string)
    ensures "" + a + b + c == a + (b + c)
  {
  }

  lemma ExecSkips(s: string, needFirst: bool)
    requires s != "" && (|s| < 6 || s[..6] != "bytes=")
    ensures Exec(s, needFirst) == Exec(s[1..], needFirst)
  {
  }

  lemma ExecHere(s: string, needFirst: bool)
    requires s != ""
    ensures var here := CapturesAt(s, needFirst);
      Exec(s, needFirst) == if here.Some? then here else Exec(s[1..], needFirst)
  {
  }

  /** The pattern finds the first element of the set if the unit ends in "bytes", and nothing otherwise. */
  lemma {:induction false} ExecOnHeader(unit: string, elements: seq<Element>, needFirst: bool)
    requires ReadableSet(unit, elements)
    ensures Exec(HeaderText(unit, elements), needFirst)
      == if EndsInBytes(unit) then FirstCaptured(elements, needFirst) else None
    decreases |unit|
  {
    var s := HeaderText(unit, elements);
    hide CapturesAt, Exec, FirstCaptured;
    if unit == "" {
      SetHasNoB(elements);
      hide SetText;
      assert s[0] == '=' && s[1..] == SetText(elements);
      assert |s| >= 6 ==> s[..6][0] != 'b';
      ExecSkips(s, needFirst);
      NoMatchWithoutB(s[1..], needFirst);
    } else {
      hide SetText;
      assert s[1..] == HeaderText(unit[1..], elements);
      ExecOnHeader(unit[1..], elements, needFirst);
      if unit == "bytes" {
        assert s == "bytes=" + SetText(elements);
        FirstSpecCaptured(elements, needFirst);
        ExecHere(s, needFirst);
      } else {
        ElsewhereNoMatch(unit, SetText(elements));
        ExecSkips(s, needFirst);
      }
    }
  }

  /** The pattern's equals sign is the one behind the unit, so the five letters before it are the unit's last. */
  lemma ElsewhereNoMatch(unit: string, rest: string)
    requires '=' !in unit && unit != "bytes" && unit != ""
    ensures var s := unit + "=" + rest; |s| < 6 || s[..6] != "bytes="
    ensures EndsInBytes(unit) <==> EndsInBytes(unit[1..])
  {
    var s := unit + "=" + rest;
    assert s[|unit|] == '=';
    if |unit| > 5 {
      assert s[5] == unit[5] && unit[5] in unit;
      assert s[..6][5] == unit[5];
    } else if |unit| == 5 {
      assert s[..6][..5] == unit;
    } else {
      assert |s| >= 6 ==> s[..6][|unit|] == '=';
    }
    if |unit| > 5 {
      assert unit[1..][|unit| - 6..] == unit[|unit| - 5..];
    } else if |unit| == 5 {
      assert unit[0..] == unit;
    }
  }

  /**
   Section 14.2 of RFC 9110: an unknown unit is ignored; otherwise any requested range, or the
   whole file, may be sent, and 416 is for sets without a satisfiable range.
   */
  ghost predicate RfcAllows(unit: string, specs: seq<Spec>, total: nat, r: Resolution)
    requires forall sp <- specs :: sp.WellFormed()
  {
    match r
    case Full => true
    case Partial(_, _) => IsBytes(unit) && exists sp <- specs :: sp.Rfc(total) == Some(r)
    case NotSatisfiable => IsBytes(unit) && NoneSatisfiable(specs, total)
  }

  ghost predicate NoneSatisfiable(specs: seq<Spec>, total: nat)
    requires forall sp <- specs :: sp.WellFormed()
  {
    forall sp <- specs :: sp.Rfc(total) == Some(NotSatisfiable)
  }

  /** The two readings of the unit agree on "bytes" alone. */
  lemma UnitIsBytes(unit: string)
    ensures unit == "bytes" <==> IsBytes(unit) && EndsInBytes(unit)
  {
    if |unit| == 5 {
      assert unit[0..] == unit;
      assert unit == "bytes" ==> forall i :: 0 <= i < 5 ==> Lower(unit[i]) == "bytes"[i];
    }
  }

  lemma NoMatchRefused(total: nat)
    ensures ShareResolution(NoMatch, total) == NotSatisfiable
  {
  }

  /** Of one range alone the share handler makes what the RFC does, except of a suffix of an empty file. */
  lemma ShareOnOneRange(h: RangeHeader, total: nat)
    requires h.ByteRange? && RfcRange(h, total).Some?
    ensures var rfc, r := RfcRange(h, total).value, ShareResolution(h, total);
      r == if rfc.Full? then NotSatisfiable else rfc
  {
  }

  /** A range in bytes that is partly or wholly inside the file. */
  predicate Served(spec: Option<Spec>, total: nat) {
    spec.Some? && spec.value.WellFormed() && spec.value.Rfc(total).Some? && spec.value.Rfc(total).value.Partial?
  }

  /**
   The share handler answers a valid header as the RFC allows exactly if the unit is written "bytes"
   and the set's first element is a range satisfied by a part of the file, or no range in bytes is
   satisfiable at all.
   */
  lemma ShareFollowsRfcIff(unit: string, elements: seq<Element>, total: nat)
    requires ValidHeader(unit, elements, total)
    ensures var r := ShareResolution(Parsed(Some(HeaderText(unit, elements)), false), total);
      RfcAllows(unit, Specs(elements), total, r) <==>
        || (unit == "bytes" && Served(elements[0].spec, total))
        || (IsBytes(unit) && NoneSatisfiable(Specs(elements), total))
  {
    ExecOnHeader(unit, elements, false);
    assert elements[0].spec.Some? ==> elements[0].spec.value in Specs(elements);
    assert HeaderText(unit, elements) != "";
    UnitIsBytes(unit);
    NoMatchRefused(total);
    hide Exec, HeaderText, Value, ShareResolution, RfcRange, IsBytes, EndsInBytes, Specs;
    if EndsInBytes(unit) && elements[0].spec.Some? {
      var spec := elements[0].spec.value;
      ShareOnOneRange(ByteRange(Number(spec.first), Number(spec.last)), total);
    }
  }

  /** The stream handler asks in addition that the first range is no suffix range. */
  lemma StreamFollowsRfcIff(unit: string, elements: seq<Element>, total: nat)
    requires ValidHeader(unit, elements, total)
    ensures var r := StreamResolution(Parsed(Some(HeaderText(unit, elements)), true), total);
      RfcAllows(unit, Specs(elements), total, r) <==>
        || (unit == "bytes" && Served(elements[0].spec, total) && elements[0].spec.value.first != "")
        || (IsBytes(unit) && NoneSatisfiable(Specs(elements), total))
  {
    ExecOnHeader(unit, elements, true);
    assert elements[0].spec.Some? ==> elements[0].spec.value in Specs(elements);
    assert HeaderText(unit, elements) != "";
    UnitIsBytes(unit);
    NoMatchRefused(total);
    hide Exec, HeaderText, Value, ShareResolution, RfcRange, IsBytes, EndsInBytes, Specs;
    if EndsInBytes(unit) && elements[0].spec.Some? && elements[0].spec.value.first != "" {
      var spec := elements[0].spec.value;
      ShareOnOneRange(ByteRange(Number(spec.first), Number(spec.last)), total);
    }
  }

  /** No header is ever ignored, so one with another unit, whatever its set, is not answered as it should be. */
  lemma OtherUnitsAreNotIgnored(unit: string, rest: string, total: nat)
    requires !IsBytes(unit)
    ensures !RfcAllows(unit, [], total, ShareResolution(Parsed(Some(unit + "=" + rest), false), total))
    ensures !RfcAllows(unit, [], total, StreamResolution(Parsed(Some(unit + "=" + rest), true), total))
  {
    hide Exec, IsBytes;
  }

  // ------------------------------------------------------------ five real headers

  function One(first: string, last: string): Element { Element("", Some(Spec(first, last)), "") }

  lemma Decimals()
    ensures Value("0") == 0 && Value("4") == 4 && Value("5") == 5 && Value("20") == 20
  {
    assert Value("") == 0;
    assert "0"[..0] == "" && "4"[..0] == "" && "5"[..0] == "" && "2"[..0] == "" && "20"[..1] == "2";
    assert Value("2") == 2;
  }

  /** bytes=20-,0-4 of ten bytes: 416, although the second range is satisfiable. */
  lemma SecondRangeIsMissed()
    ensures ShareResolution(Parsed(Some("bytes=20-,0-4"), false), 10) == NotSatisfiable
    ensures StreamResolution(Parsed(Some("bytes=20-,0-4"), true), 10) == NotSatisfiable
    ensures One("0", "4").spec.value.Rfc(10) == Some(Partial(0, 4))
    ensures !RfcAllows("bytes", Specs([One("20", ""), One("0", "4")]), 10, NotSatisfiable)
  {
    var elements := [One("20", ""), One("0", "4")];
    assert elements[1..] == [One("0", "4")];
    assert HeaderText("bytes", elements) == "bytes=20-,0-4";
    Decimals();
    hide Exec, Value, HeaderText, SetText;
    ExecOnHeader("bytes", elements, false);
    ExecOnHeader("bytes", elements, true);
    UnitIsBytes("bytes");
    hide IsBytes, Digits;
    assert One("0", "4").spec.value in Specs(elements);
  }

  /** Bytes=0-4: 416, although units are compared without regard to case. */
  lemma CapitalUnitIsRefused()
    ensures ShareResolution(Parsed(Some("Bytes=0-4"), false), 10) == NotSatisfiable
    ensures StreamResolution(Parsed(Some("Bytes=0-4"), true), 10) == NotSatisfiable
    ensures !RfcAllows("Bytes", Specs([One("0", "4")]), 10, NotSatisfiable)
  {
    var elements := [One("0", "4")];
    assert HeaderText("Bytes", elements) == "Bytes=0-4";
    Decimals();
    hide Exec, Value, HeaderText, SetText;
    ExecOnHeader("Bytes", elements, false);
    ExecOnHeader("Bytes", elements, true);
    assert "Bytes"[0..] == "Bytes";
    assert One("0", "4").spec.value in Specs(elements);
  }

  /** xbytes=0-4: five bytes are served, although the unit is unknown. */
  lemma UnknownUnitIsServed()
    ensures ShareResolution(Parsed(Some("xbytes=0-4"), false), 10) == Partial(0, 4)
    ensures StreamResolution(Parsed(Some("xbytes=0-4"), true), 10) == Partial(0, 4)
    ensures !RfcAllows("xbytes", Specs([One("0", "4")]), 10, Partial(0, 4))
  {
    var elements := [One("0", "4")];
    assert HeaderText("xbytes", elements) == "xbytes=0-4";
    Decimals();
    hide Exec, Value, HeaderText, SetText;
    ExecOnHeader("xbytes", elements, false);
    ExecOnHeader("xbytes", elements, true);
    assert "xbytes"[1..] == "bytes";
  }

  /** bytes=-5: the stream handler answers 416, the share handler the last five bytes, as the RFC does. */
  lemma SuffixIsRefused()
    ensures StreamResolution(Parsed(Some("bytes=-5"), true), 10) == NotSatisfiable
    ensures ShareResolution(Parsed(Some("bytes=-5"), false), 10) == Partial(5, 9)
    ensures !RfcAllows("bytes", Specs([One("", "5")]), 10, NotSatisfiable)
  {
    var elements := [One("", "5")];
    assert HeaderText("bytes", elements) == "bytes=-5";
    Decimals();
    hide Exec, Value, HeaderText, SetText;
    ExecOnHeader("bytes", elements, false);
    ExecOnHeader("bytes", elements, true);
    UnitIsBytes("bytes");
    assert One("", "5").spec.value in Specs(elements);
  }

  /** bytes=,0-4: an empty element in front hides the range; 416. */
  lemma EmptyElementHidesRange()
    ensures ShareResolution(Parsed(Some("bytes=,0-4"), false), 10) == NotSatisfiable
    ensures StreamResolution(Parsed(Some("bytes=,0-4"), true), 10) == NotSatisfiable
    ensures !RfcAllows("bytes", Specs([Element("", None, ""), One("0", "4")]), 10, NotSatisfiable)
  {
    var elements := [Element("", None, ""), One("0", "4")];
    EmptyElementText();
    Decimals();
    hide Exec, Value, HeaderText, SetText;
    ExecOnHeader("bytes", elements, false);
    ExecOnHeader("bytes", elements, true);
    hide Digits;
    assert One("0", "4").spec.value in Specs(elements);
  }

  lemma EmptyElementText()
    ensures var elements := [Element("", None, ""), One("0", "4")];
      HeaderText("bytes", elements) == "bytes=,0-4" && Specs(elements) == [Spec("0", "4")]
  {
    var elements := [Element("", None, ""), One("0", "4")];
    assert elements[1..] == [One("0", "4")];
    assert SetText(elements[1..]) == "0-4";
  }

  /** bytes=- is no range at all: the share handler serves the whole file as a part, the stream handler refuses. */
  lemma NoNumbersIsTheWholeFile()
    ensures ShareResolution(Parsed(Some("bytes=-"), false), 10) == Partial(0, 9)
    ensures StreamResolution(Parsed(Some("bytes=-"), true), 10) == NotSatisfiable
    ensures One("", "").spec.value.Rfc(10).None?
  {
    var elements := [One("", "")];
    assert HeaderText("bytes", elements) == "bytes=-";
    ExecOnHeader("bytes", elements, false);
    ExecOnHeader("bytes", elements, true);
    UnitIsBytes("bytes");
  }

  /** What the share handler does with headers that are no valid byte range: 416, but "bytes=-" gets the whole file. */
  lemma ShareOnInvalid(h: RangeHeader, total: nat)
    requires RfcRange(h, total).None?
    ensures ShareResolution(h, total) ==
      if h == ByteRange(None, None) && total > 0 then Partial(0, total - 1) else NotSatisfiable
  {
  }
}
