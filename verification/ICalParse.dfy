/** The VEVENT reader of internal/caldav/ics.go, and the round trip from the printer. */
module ICalParse {
  import opened Decimal
  import opened CivilTime
  import opened Text
  import opened ICal

  // ---------------------------------------------------------------- content lines

  function ParamsOf(parts: seq<string>, acc: map<string, string>): (r: map<string, string>)
    decreases |parts|
  {
    if parts == [] then acc
    else
      var p := parts[0];
      var eq := IndexOf(p, '=');
      ParamsOf(parts[1..], if eq < |p| then acc[Upper(p[..eq]) := TrimQuotes(p[eq + 1..])] else acc)
  }

  /** strings.Trim(s, `"`) */
  function TrimQuotes(s: string): (r: string) {
    if s != "" && s[0] == '"' then TrimQuotes(s[1..])
    else if s != "" && s[|s| - 1] == '"' then TrimQuotes(s[..|s| - 1])
    else s
  }

  datatype Line = Line(name: string, params: map<string, string>, value: string)

  /** splitLine */
  function SplitLine(ln: string): (r: Line) {
    var colon := IndexOf(ln, ':');
    if colon == |ln| then Line(ln, map[], "")
    else
      var parts := Split(ln[..colon], ';');
      Line(parts[0], ParamsOf(parts[1..], map[]), ln[colon + 1..])
  }

  /** splitLine as its loop over the parameters. */
  method SplitContentLine(ln: string) returns (r: Line)
    ensures r == SplitLine(ln)
  {
    var colon := IndexOf(ln, ':');
    if colon == |ln| {
      return Line(ln, map[], "");
    }
    var parts := Split(ln[..colon], ';');
    var params: map<string, string> := map[];
    for i := 1 to |parts|
      invariant ParamsOf(parts[i..], params) == ParamsOf(parts[1..], map[])
    {
      var p := parts[i];
      assert parts[i..][1..] == parts[i + 1..];
      var eq := IndexOf(p, '=');
      if eq < |p| {
        params := params[Upper(p[..eq]) := TrimQuotes(p[eq + 1..])];
      }
    }
    r := Line(parts[0], params, ln[colon + 1..]);
  }

  /** A line "name:value" with no parameters. */
  lemma {:induction false} SplitSimple(name: string, value: string)
    requires ':' !in name && ';' !in name
    ensures SplitLine(name + (":" + value)) == Line(name, map[], value)
  {
    var ln := name + (":" + value);
    IndexOfAt(name, ':', value);
    assert ln == name + ([':'] + value);
    assert ln[..|name|] == name && ln[|name| + 1..] == value;
    assert Split(name, ';') == [name] && [name][1..] == [];
  }

  /** A line that goes on with parameters still has its name in front. */
  lemma {:induction false} SplitNamed(name: string, rest: string)
    requires ':' !in name && ';' !in name && ':' in rest
    ensures SplitLine(name + (";" + rest)).name == name
  {
    var ln := name + (";" + rest);
    var i :| 0 <= i < |rest| && rest[i] == ':';
    assert ln[|name| + 1 + i] == ':';
    var colon := IndexOf(ln, ':');
    assert ':' in ln && ln == ln[..|ln|];
    assert colon > |name| by {
      assert forall j :: 0 <= j < |name| ==> ln[j] == name[j];
      assert ln[|name|] == ';';
    }
    var head := ln[..colon];
    assert head == name + ([';'] + head[|name| + 1..]);
    SplitAt(name, ';', head[|name| + 1..]);
  }

  // ---------------------------------------------------------------- times

  /** What the reader asks of the time library beyond UTC date-times. Nothing is assumed of it. */
  datatype TimeLib = TimeLib(
    date: string -> Option<int>,                              // VALUE=DATE
    local: (map<string, string>, string) -> Option<int>,      // floating or TZID times
    zulu: string -> Option<int>,                              // other spellings ending in Z
    duration: string -> Option<int>)

  predicate DigitsIn(s: string, i: nat, j: nat)
    requires i <= j <= |s|
  {
    forall k :: i <= k < j ==> IsDigit(s[k])
  }

  predicate IsBasicUTC(s: string) {
    |s| == 16 && DigitsIn(s, 0, 8) && s[8] == 'T' && DigitsIn(s, 9, 15) && s[15] == 'Z'
  }

  function Field(s: string, i: nat, j: nat): (n: nat)
    requires i <= j <= |s| && DigitsIn(s, i, j)
  {
    assert forall k :: 0 <= k < j - i ==> s[i..j][k] == s[i + k];
    Value(s[i..j])
  }

  /** time.Parse("20060102T150405Z", s) on the sixteen-octet form. */
  function ParseUTC(s: string): (t: Option<int>)
    requires IsBasicUTC(s)
  {
    var c := Civil(Field(s, 0, 4), Field(s, 4, 6), Field(s, 6, 8), Field(s, 9, 11), Field(s, 11, 13), Field(s, 13, 15));
    if ValidCivil(c) then Some(FromCivil(c)) else None
  }

  /** parseICSTime: the instant in seconds and whether it is a date only. */
  function ParseICSTime(lib: TimeLib, params: map<string, string>, raw: string): (r: Option<(int, bool)>) {
    var value := TrimSpace(raw);
    var kind := if "VALUE" in params then params["VALUE"] else "";
    if EqualFold(kind, "DATE") || (|value| == 8 && 'T' !in value) then
      match lib.date(value) case Some(t) => Some((t, true)) case None => None
    else if value != "" && value[|value| - 1] == 'Z' then
      match (if IsBasicUTC(value) then ParseUTC(value) else lib.zulu(value))
        case Some(t) => Some((t, false)) case None => None
    else
      match lib.local(params, value) case Some(t) => Some((t, false)) case None => None
  }

  lemma PadFields(c: Civil)
    requires ValidCivil(c) && c.year < 10000
    ensures Value(Pad(c.year, 4)) == c.year && Value(Pad(c.month, 2)) == c.month
    ensures Value(Pad(c.day, 2)) == c.day && Value(Pad(c.hour, 2)) == c.hour
    ensures Value(Pad(c.minute, 2)) == c.minute && Value(Pad(c.second, 2)) == c.second
  {
    assert Pow10(2) == 100 by { assert Pow10(1) == 10; }
    assert Pow10(4) == 10000 by { assert Pow10(3) == 1000; }
    ValueOfPad(c.year, 4);
    ValueOfPad(c.month, 2);
    ValueOfPad(c.day, 2);
    ValueOfPad(c.hour, 2);
    ValueOfPad(c.minute, 2);
    ValueOfPad(c.second, 2);
  }

  lemma SlicesOfFields(year: string, month: string, day: string, hour: string, minute: string, second: string)
    requires |year| == 4 && |month| == |day| == |hour| == |minute| == |second| == 2
    requires AllDigits(year) && AllDigits(month) && AllDigits(day)
    requires AllDigits(hour) && AllDigits(minute) && AllDigits(second)
    ensures var s := year + month + day + "T" + hour + minute + second + "Z";
            && IsBasicUTC(s)
            && s[0..4] == year && s[4..6] == month && s[6..8] == day
            && s[9..11] == hour && s[11..13] == minute && s[13..15] == second
  {
  }

  lemma SlicesOfUTC(t: nat)
    ensures var c, s := ToCivil(t), FormatUTC(t);
            && IsBasicUTC(s)
            && s[0..4] == Pad(c.year, 4) && s[4..6] == Pad(c.month, 2) && s[6..8] == Pad(c.day, 2)
            && s[9..11] == Pad(c.hour, 2) && s[11..13] == Pad(c.minute, 2) && s[13..15] == Pad(c.second, 2)
  {
    var c := ToCivil(t);
    SlicesOfFields(Pad(c.year, 4), Pad(c.month, 2), Pad(c.day, 2), Pad(c.hour, 2), Pad(c.minute, 2), Pad(c.second, 2));
  }

  /** Printing an instant and reading it back. */
  lemma {:induction false} UTCRoundTrip(t: nat)
    requires ToCivil(t).year < 10000
    ensures IsBasicUTC(FormatUTC(t)) && ParseUTC(FormatUTC(t)) == Some(t)
  {
    SlicesOfUTC(t);
    CivilOfInstant(t);
    PadFields(ToCivil(t));
  }

  lemma {:induction false} PadOfValue(s: string)
    requires AllDigits(s)
    ensures Pad(Value(s), |s|) == s
  {
    if s != "" {
      var front := s[..|s| - 1];
      PadOfValue(front);
      assert s == front + [s[|s| - 1]];
      assert Value(s) / 10 == Value(front);
    }
  }

  lemma FieldOfPad(s: string, i: nat, j: nat)
    requires i <= j <= |s| && DigitsIn(s, i, j)
    ensures Pad(Field(s, i, j), j - i) == s[i..j]
  {
    assert forall k :: 0 <= k < j - i ==> s[i..j][k] == s[i + k];
    PadOfValue(s[i..j]);
  }

  /** What reads as an instant is how that instant is printed. */
  lemma {:induction false} UTCReadsOnlyPrinted(s: string, t: int)
    requires IsBasicUTC(s) && ParseUTC(s) == Some(t)
    ensures t >= 0 && FormatUTC(t) == s
  {
    var c := Civil(Field(s, 0, 4), Field(s, 4, 6), Field(s, 6, 8), Field(s, 9, 11), Field(s, 11, 13), Field(s, 13, 15));
    InstantOfCivil(c);
    FieldOfPad(s, 0, 4);
    FieldOfPad(s, 4, 6);
    FieldOfPad(s, 6, 8);
    FieldOfPad(s, 9, 11);
    FieldOfPad(s, 11, 13);
    FieldOfPad(s, 13, 15);
    JoinFields(s);
  }

  lemma JoinFields(s: string)
    requires |s| == 16 && s[8] == 'T' && s[15] == 'Z'
    ensures s == s[0..4] + s[4..6] + s[6..8] + "T" + s[9..11] + s[11..13] + s[13..15] + "Z"
  {
  }

  lemma {:induction false} IcsTimeRoundTrip(lib: TimeLib, ns: nat)
    requires ToCivil(ns / SECOND).year < 10000
    ensures ParseICSTime(lib, map[], IcsUTC(ns)) == Some((ns / SECOND, false))
  {
    IcsUTCShape(ns);
    UTCRoundTrip(ns / SECOND);
    assert Upper("DATE")[0] == 'D';
    assert !EqualFold("", "DATE");
  }

  // ---------------------------------------------------------------- VEVENTs

  /** Go's zero time, 0001-01-01T00:00:00Z. */
  const ZERO: int := 366 * 86400

  datatype IcsEvent = IcsEvent(start: int, end: int, transparent: bool, cancelled: bool)

  datatype Reader = Reader(out: seq<IcsEvent>, cur: Option<IcsEvent>, startDate: bool)

  /** An end that was not given: a day after an all-day start, or the start itself. */
  function Finished(cur: IcsEvent, startDate: bool): (r: IcsEvent) {
    if cur.end == ZERO && cur.start != ZERO then
      cur.(end := if startDate then cur.start + 86400 else cur.start)
    else cur
  }

  /** The property names the reader acts on. */
  datatype Kind = Begin | End | DtStart | DtEnd | Duration | Transp | Status | Other

  function KindOf(upper: string): (k: Kind) {
    if upper == "BEGIN" then Begin
    else if upper == "END" then End
    else if upper == "DTSTART" then DtStart
    else if upper == "DTEND" then DtEnd
    else if upper == "DURATION" then Duration
    else if upper == "TRANSP" then Transp
    else if upper == "STATUS" then Status
    else Other
  }

  /** One content line inside a VEVENT, other than BEGIN and END. */
  function Property(lib: TimeLib, k: Kind, ln: Line, cur: IcsEvent, startDate: bool): (r: (IcsEvent, bool)) {
    match k
    case DtStart =>
      (match ParseICSTime(lib, ln.params, ln.value)
       case Some((t, isDate)) => (cur.(start := t), isDate) case None => (cur, startDate))
    case DtEnd =>
      (match ParseICSTime(lib, ln.params, ln.value)
       case Some((t, _)) => (cur.(end := t), startDate) case None => (cur, startDate))
    case Duration =>
      (match lib.duration(ln.value)
       case Some(d) => (if cur.start != ZERO then cur.(end := cur.start + d) else cur, startDate)
       case None => (cur, startDate))
    case Transp => (cur.(transparent := EqualFold(TrimSpace(ln.value), "TRANSPARENT")), startDate)
    case Status => (cur.(cancelled := EqualFold(TrimSpace(ln.value), "CANCELLED")), startDate)
    case _ => (cur, startDate)
  }

  predicate IsVEvent(value: string) {
    EqualFold(value, "VEVENT")
  }

  function ReadParts(lib: TimeLib, r: Reader, k: Kind, ln: Line): (r': Reader) {
    match k
    case Begin =>
      if IsVEvent(ln.value) then r.(cur := Some(IcsEvent(ZERO, ZERO, false, false)), startDate := false) else r
    case End =>
      if IsVEvent(ln.value) && r.cur.Some? then
        r.(out := r.out + [Finished(r.cur.value, r.startDate)], cur := None)
      else r
    case _ =>
      if r.cur.None? then r
      else
        var (cur, startDate) := Property(lib, k, ln, r.cur.value, r.startDate);
        r.(cur := Some(cur), startDate := startDate)
  }

  function ReadLine(lib: TimeLib, r: Reader, raw: string): (r': Reader) {
    var ln := SplitLine(raw);
    ReadParts(lib, r, KindOf(Upper(ln.name)), ln)
  }

  function ReadLines(lib: TimeLib, r: Reader, lines: seq<string>): (r': Reader)
    decreases |lines|
  {
    if lines == [] then r else ReadLines(lib, ReadLine(lib, r, lines[0]), lines[1..])
  }

  function Parsed(lib: TimeLib, data: string): (events: seq<IcsEvent>) {
    ReadLines(lib, Reader([], None, false), Unfolded(data)).out
  }

  /** parseVEvents */
  method ParseVEvents(lib: TimeLib, data: string) returns (out: seq<IcsEvent>)
    ensures out == Parsed(lib, data)
  {
    var lines := Unfold(data);
    out := [];
    var cur: Option<IcsEvent> := None;
    var startDate := false;
    assert lines[0..] == lines;
    for i := 0 to |lines|
      invariant ReadLines(lib, Reader(out, cur, startDate), lines[i..]).out == Parsed(lib, data)
    {
      assert lines[i..][1..] == lines[i + 1..];
      var ln := SplitContentLine(lines[i]);
      match KindOf(Upper(ln.name))
      case Begin =>
        if IsVEvent(ln.value) {
          cur := Some(IcsEvent(ZERO, ZERO, false, false));
          startDate := false;
        }
      case End =>
        if IsVEvent(ln.value) && cur.Some? {
          out := out + [Finished(cur.value, startDate)];
          cur := None;
        }
      case k =>
        if cur.Some? {
          var (c, d) := Property(lib, k, ln, cur.value, startDate);
          cur := Some(c);
          startDate := d;
        }
    }
    assert lines[|lines|..] == [];
  }

  lemma {:induction false} ReadConcat(lib: TimeLib, r: Reader, a: seq<string>, b: seq<string>)
    ensures ReadLines(lib, r, a + b) == ReadLines(lib, ReadLines(lib, r, a), b)
    decreases |a|
  {
    if a == [] {
      assert a + b == b;
    } else {
      assert (a + b)[1..] == a[1..] + b;
      ReadConcat(lib, ReadLine(lib, r, a[0]), a[1..], b);
    }
  }

  ghost predicate PlainName(name: string) {
    forall i :: 0 <= i < |name| ==> name[i] != ':' && name[i] != ';' && !('a' <= name[i] <= 'z')
  }

  lemma {:induction false} UpperSame(s: string)
    requires forall i :: 0 <= i < |s| ==> !('a' <= s[i] <= 'z')
    ensures Upper(s) == s
  {
  }

  /** How the reader sees "name:value". */
  lemma {:induction false} ReadProp(lib: TimeLib, r: Reader, name: string, value: string)
    requires PlainName(name)
    ensures ReadLine(lib, r, Prop(name, value)) == ReadParts(lib, r, KindOf(name), Line(name, map[], value))
  {
    SplitSimple(name, value);
    UpperSame(name);
  }

  /** A line the reader passes over, whatever its state. */
  ghost predicate Inert(raw: string) {
    forall lib: TimeLib, r: Reader :: ReadLine(lib, r, raw) == r
  }

  ghost predicate AllInert(lines: seq<string>) {
    forall i :: 0 <= i < |lines| ==> Inert(lines[i])
  }

  lemma {:induction false} ReadInert(lib: TimeLib, r: Reader, lines: seq<string>)
    requires AllInert(lines)
    ensures ReadLines(lib, r, lines) == r
    decreases |lines|
  {
    if lines != [] {
      assert Inert(lines[0]);
      ReadInert(lib, r, lines[1..]);
    }
  }

  lemma {:induction false} InertProp(name: string, value: string)
    requires PlainName(name)
    requires KindOf(name) == Other || ((KindOf(name) == Begin || KindOf(name) == End) && !IsVEvent(value))
    ensures Inert(Prop(name, value))
  {
    forall lib: TimeLib, r: Reader ensures ReadLine(lib, r, Prop(name, value)) == r {
      ReadProp(lib, r, name, value);
    }
  }

  lemma {:induction false} InertNamed(name: string, rest: string)
    requires PlainName(name) && KindOf(name) == Other && ':' in rest
    ensures Inert(name + (";" + rest))
  {
    SplitNamed(name, rest);
    UpperSame(name);
    assert forall lib: TimeLib, r: Reader :: ReadLine(lib, r, name + (";" + rest)) == r;
  }

  lemma ActingNames()
    ensures KindOf("BEGIN") == Begin && KindOf("END") == End && KindOf("DTSTART") == DtStart
    ensures KindOf("DTEND") == DtEnd && KindOf("STATUS") == Status
  {
    assert "DTEND"[0] != "BEGIN"[0];
    assert "STATUS"[0] != "TRANSP"[0];
  }

  lemma InertCalendar()
    ensures Inert(Prop("BEGIN", "VCALENDAR")) && Inert(Prop("END", "VCALENDAR"))
  {
    ActingNames();
    InertProp("BEGIN", "VCALENDAR");
    InertProp("END", "VCALENDAR");
  }

  lemma InertNames(value: string)
    ensures Inert(Prop("VERSION", value)) && Inert(Prop("PRODID", value)) && Inert(Prop("CALSCALE", value))
  {
    InertProp("VERSION", value);
    InertProp("PRODID", value);
    InertProp("CALSCALE", value);
  }

  lemma InertMoreNames(value: string)
    ensures Inert(Prop("METHOD", value)) && Inert(Prop("UID", value)) && Inert(Prop("DTSTAMP", value))
  {
    InertProp("METHOD", value);
    InertProp("UID", value);
    InertProp("DTSTAMP", value);
  }

  lemma InertTextNames(value: string)
    ensures Inert(Prop("SUMMARY", value)) && Inert(Prop("DESCRIPTION", value)) && Inert(Prop("LOCATION", value))
    ensures Inert(Prop("SEQUENCE", value))
  {
    InertProp("SUMMARY", value);
    InertProp("DESCRIPTION", value);
    InertProp("LOCATION", value);
    InertProp("SEQUENCE", value);
  }

  lemma InertOrganizer(e: Event)
    ensures Inert(OrganizerLine(e))
  {
    if e.orgName == "" {
      InertProp("ORGANIZER", "mailto:" + e.orgEmail);
    } else {
      var cn := "CN=" + EscapeText(e.orgName);
      var rest := Prop(cn, "mailto:" + e.orgEmail);
      assert rest[|cn|] == ':';
      InertNamed("ORGANIZER", rest);
    }
  }

  lemma InertVersion()
    ensures Inert(Prop("VERSION", "2.0"))
  {
    InertNames("2.0");
  }

  lemma InertProdid()
    ensures Inert(Prop("PRODID", "-//Calnode//Booking//EN"))
  {
    InertNames("-//Calnode//Booking//EN");
  }

  lemma InertScale()
    ensures Inert(Prop("CALSCALE", "GREGORIAN"))
  {
    InertNames("GREGORIAN");
  }

  lemma InertMethod()
    ensures Inert(Prop("METHOD", "REQUEST"))
  {
    InertMoreNames("REQUEST");
  }

  lemma InertPreambleA()
    ensures AllInert([Prop("BEGIN", "VCALENDAR"), Prop("VERSION", "2.0")])
  {
    InertCalendar();
    InertVersion();
  }

  lemma InertPreambleB()
    ensures AllInert([Prop("PRODID", "-//Calnode//Booking//EN"), Prop("CALSCALE", "GREGORIAN")])
  {
    InertProdid();
    InertScale();
  }

  lemma InertPreambleC()
    ensures AllInert([Prop("METHOD", "REQUEST")])
  {
    InertMethod();
  }

  lemma InertPreamble()
    ensures AllInert(Preamble())
  {
    var a := [Prop("BEGIN", "VCALENDAR"), Prop("VERSION", "2.0")];
    var b := [Prop("PRODID", "-//Calnode//Booking//EN"), Prop("CALSCALE", "GREGORIAN")];
    var c := [Prop("METHOD", "REQUEST")];
    assert Preamble() == a + b + c;
    InertPreambleA();
    InertPreambleB();
    InertPreambleC();
  }

  lemma InertText(e: Event)
    ensures AllInert(TextLines(e))
  {
    var a, b := Prop("SUMMARY", EscapeText(e.summary)), Prop("DESCRIPTION", EscapeText(e.description));
    var c, d := Prop("LOCATION", EscapeText(e.location)), OrganizerLine(e);
    var bs := if e.description != "" then [b] else [];
    var cs := if e.location != "" then [c] else [];
    var ds := if e.orgEmail != "" then [d] else [];
    assert TextLines(e) == [a] + bs + cs + ds;
    InertTextParts(e, a, b, c, d);
  }

  lemma InertTextParts(e: Event, a: string, b: string, c: string, d: string)
    requires a == Prop("SUMMARY", EscapeText(e.summary)) && b == Prop("DESCRIPTION", EscapeText(e.description))
    requires c == Prop("LOCATION", EscapeText(e.location)) && d == OrganizerLine(e)
    ensures Inert(a) && Inert(b) && Inert(c) && Inert(d)
  {
    InertTextNames(EscapeText(e.summary));
    InertTextNames(EscapeText(e.description));
    InertTextNames(EscapeText(e.location));
    InertOrganizer(e);
  }

  // ---------------------------------------------------------------- reading an object back

  lemma {:induction false} ReadOne(lib: TimeLib, r: Reader, l: string, rest: seq<string>)
    ensures ReadLines(lib, r, [l] + rest) == ReadLines(lib, ReadLine(lib, r, l), rest)
  {
    assert ([l] + rest)[1..] == rest;
  }

  lemma ReadTwo(lib: TimeLib, r: Reader, a: string, b: string)
    ensures ReadLines(lib, r, [a, b]) == ReadLine(lib, ReadLine(lib, r, a), b)
  {
    assert [a, b] == [a] + ([b] + []);
    ReadOne(lib, r, a, [b] + []);
    ReadOne(lib, ReadLine(lib, r, a), b, []);
  }

  lemma BeginLine(lib: TimeLib, r: Reader, name: string, value: string)
    requires PlainName(name) && KindOf(name) == Begin && IsVEvent(value)
    ensures ReadLine(lib, r, Prop(name, value)) ==
            r.(cur := Some(IcsEvent(ZERO, ZERO, false, false)), startDate := false)
  {
    ReadProp(lib, r, name, value);
  }

  lemma EndLine(lib: TimeLib, r: Reader, name: string, value: string)
    requires PlainName(name) && KindOf(name) == End && IsVEvent(value) && r.cur.Some?
    ensures ReadLine(lib, r, Prop(name, value)) == r.(out := r.out + [Finished(r.cur.value, r.startDate)], cur := None)
  {
    ReadProp(lib, r, name, value);
  }

  lemma StatusLine(lib: TimeLib, r: Reader, name: string, value: string)
    requires PlainName(name) && KindOf(name) == Status && !EqualFold(TrimSpace(value), "CANCELLED") && r.cur.Some?
    ensures ReadLine(lib, r, Prop(name, value)) == r.(cur := Some(r.cur.value.(cancelled := false)))
  {
    ReadProp(lib, r, name, value);
  }

  lemma StartLine(lib: TimeLib, r: Reader, name: string, value: string, t: int)
    requires PlainName(name) && KindOf(name) == DtStart && r.cur.Some?
    requires ParseICSTime(lib, map[], value) == Some((t, false))
    ensures ReadLine(lib, r, Prop(name, value)) == r.(cur := Some(r.cur.value.(start := t)), startDate := false)
  {
    ReadProp(lib, r, name, value);
  }

  lemma DtEndLine(lib: TimeLib, r: Reader, name: string, value: string, t: int)
    requires PlainName(name) && KindOf(name) == DtEnd && r.cur.Some?
    requires ParseICSTime(lib, map[], value) == Some((t, false))
    ensures ReadLine(lib, r, Prop(name, value)) == r.(cur := Some(r.cur.value.(end := t)))
  {
    ReadProp(lib, r, name, value);
  }

  lemma {:induction false} ReadBeginVEvent(lib: TimeLib, r: Reader)
    ensures ReadLine(lib, r, Prop("BEGIN", "VEVENT"))
         == r.(cur := Some(IcsEvent(ZERO, ZERO, false, false)), startDate := false)
  {
    ActingNames();
    BeginLine(lib, r, "BEGIN", "VEVENT");
  }

  lemma {:induction false} ReadEndVEvent(lib: TimeLib, r: Reader)
    requires r.cur.Some?
    ensures ReadLine(lib, r, Prop("END", "VEVENT"))
         == r.(out := r.out + [Finished(r.cur.value, r.startDate)], cur := None)
  {
    ActingNames();
    EndLine(lib, r, "END", "VEVENT");
  }

  lemma ConfirmedIsNotCancelled()
    ensures !EqualFold(TrimSpace("CONFIRMED"), "CANCELLED")
  {
    assert Upper("CONFIRMED")[1] == 'O' && Upper("CANCELLED")[1] == 'A';
  }

  lemma {:induction false} ReadStatus(lib: TimeLib, r: Reader)
    requires r.cur.Some?
    ensures ReadLine(lib, r, Prop("STATUS", "CONFIRMED")) == r.(cur := Some(r.cur.value.(cancelled := false)))
  {
    assert KindOf("STATUS") == Status by { ActingNames(); }
    assert !EqualFold(TrimSpace("CONFIRMED"), "CANCELLED") by { ConfirmedIsNotCancelled(); }
    StatusLine(lib, r, "STATUS", "CONFIRMED");
  }

  lemma {:induction false} ReadStart(lib: TimeLib, r: Reader, ns: nat)
    requires r.cur.Some? && ToCivil(ns / SECOND).year < 10000
    ensures ReadLine(lib, r, Prop("DTSTART", IcsUTC(ns)))
         == r.(cur := Some(r.cur.value.(start := ns / SECOND)), startDate := false)
  {
    ActingNames();
    IcsTimeRoundTrip(lib, ns);
    StartLine(lib, r, "DTSTART", IcsUTC(ns), ns / SECOND);
  }

  lemma {:induction false} ReadEnd(lib: TimeLib, r: Reader, ns: nat)
    requires r.cur.Some? && ToCivil(ns / SECOND).year < 10000
    ensures ReadLine(lib, r, Prop("DTEND", IcsUTC(ns))) == r.(cur := Some(r.cur.value.(end := ns / SECOND)))
  {
    ActingNames();
    IcsTimeRoundTrip(lib, ns);
    DtEndLine(lib, r, "DTEND", IcsUTC(ns), ns / SECOND);
  }

  ghost predicate FourDigitYears(v: Version) {
    ToCivil(v.start / SECOND).year < 10000 && ToCivil(v.end / SECOND).year < 10000
  }

  ghost function Open(start: int, end: int): (r: Reader) {
    Reader([], Some(IcsEvent(start, end, false, false)), false)
  }

  lemma {:induction false} ReadBeginUid(lib: TimeLib, uid: string)
    ensures ReadLines(lib, Reader([], None, false), [Prop("BEGIN", "VEVENT"), Prop("UID", uid)]) == Open(ZERO, ZERO)
  {
    ReadTwo(lib, Reader([], None, false), Prop("BEGIN", "VEVENT"), Prop("UID", uid));
    ReadBeginVEvent(lib, Reader([], None, false));
    InertMoreNames(uid);
  }

  lemma {:induction false} ReadHead(lib: TimeLib, e: Event)
    ensures ReadLines(lib, Reader([], None, false), HeadLines(e)) == Open(ZERO, ZERO)
  {
    var r0 := Reader([], None, false);
    var rest := [Prop("BEGIN", "VEVENT"), Prop("UID", e.id + "@calnode")];
    ReadConcat(lib, r0, Preamble(), rest);
    assert ReadLines(lib, r0, Preamble()) == r0 by {
      InertPreamble();
      ReadInert(lib, r0, Preamble());
    }
    ReadBeginUid(lib, e.id + "@calnode");
  }

  lemma {:induction false} ReadTimes(lib: TimeLib, v: Version)
    requires FourDigitYears(v)
    ensures ReadLines(lib, Open(ZERO, ZERO), TimeLines(v)) == Open(v.start / SECOND, v.end / SECOND)
  {
    var stamp := Prop("DTSTAMP", IcsUTC(v.stamp));
    var start, end := Prop("DTSTART", IcsUTC(v.start)), Prop("DTEND", IcsUTC(v.end));
    assert TimeLines(v) == [stamp] + ([start] + ([end] + []));
    InertMoreNames(IcsUTC(v.stamp));
    ReadOne(lib, Open(ZERO, ZERO), stamp, [start] + ([end] + []));
    ReadOne(lib, Open(ZERO, ZERO), start, [end] + []);
    ReadStart(lib, Open(ZERO, ZERO), v.start);
    ReadOne(lib, Open(v.start / SECOND, ZERO), end, []);
    ReadEnd(lib, Open(v.start / SECOND, ZERO), v.end);
  }

  lemma {:induction false} ReadTail(lib: TimeLib, v: Version, start: int, end: int)
    ensures ReadLines(lib, Open(start, end), TailLines(v))
         == Reader([Finished(IcsEvent(start, end, false, false), false)], None, false)
  {
    var sq, status := Prop("SEQUENCE", FormatInt(v.sequence)), Prop("STATUS", "CONFIRMED");
    var endEvent, endCal := Prop("END", "VEVENT"), Prop("END", "VCALENDAR");
    var r := Open(start, end);
    assert TailLines(v) == [sq] + ([status] + ([endEvent] + ([endCal] + [])));
    InertTextNames(FormatInt(v.sequence));
    InertCalendar();
    ReadOne(lib, r, sq, [status] + ([endEvent] + ([endCal] + [])));
    ReadOne(lib, r, status, [endEvent] + ([endCal] + []));
    ReadStatus(lib, r);
    ReadOne(lib, r, endEvent, [endCal] + []);
    ReadEndVEvent(lib, r);
    var done := Reader([Finished(IcsEvent(start, end, false, false), false)], None, false);
    ReadOne(lib, done, endCal, []);
  }

  lemma {:induction false} ReadContent(lib: TimeLib, e: Event, v: Version)
    requires FourDigitYears(v)
    ensures ReadLines(lib, Reader([], None, false), ContentLines(e, v)).out
         == [Finished(IcsEvent(v.start / SECOND, v.end / SECOND, false, false), false)]
  {
    var r0, times := Reader([], None, false), Open(v.start / SECOND, v.end / SECOND);
    ReadConcat(lib, r0, HeadLines(e) + TimeLines(v) + TextLines(e), TailLines(v));
    ReadConcat(lib, r0, HeadLines(e) + TimeLines(v), TextLines(e));
    ReadConcat(lib, r0, HeadLines(e), TimeLines(v));
    ReadHead(lib, e);
    ReadTimes(lib, v);
    InertText(e);
    ReadInert(lib, times, TextLines(e));
    ReadTail(lib, v, v.start / SECOND, v.end / SECOND);
  }

  // ---------------------------------------------------------------- unfolding an object

  ghost predicate Sound(line: string) {
    Plain(line) && OneLine(line)
  }

  ghost predicate AllSound(lines: seq<string>) {
    forall i :: 0 <= i < |lines| ==> Sound(lines[i])
  }

  lemma SoundProp(name: string, value: string)
    requires name != "" && name[0] != ' ' && name[0] != '\t' && OneLine(name) && OneLine(value)
    ensures Sound(Prop(name, value))
  {
  }

  lemma SoundPreamble()
    ensures AllSound(Preamble())
  {
    SoundProp("BEGIN", "VCALENDAR");
    SoundProp("VERSION", "2.0");
    SoundProp("PRODID", "-//Calnode//Booking//EN");
    SoundProp("CALSCALE", "GREGORIAN");
    SoundProp("METHOD", "REQUEST");
  }

  lemma SoundHead(e: Event)
    requires OneLine(e.id)
    ensures AllSound(HeadLines(e))
  {
    SoundPreamble();
    SoundProp("BEGIN", "VEVENT");
    SoundProp("UID", e.id + "@calnode");
  }

  lemma SoundTimes(v: Version)
    ensures AllSound(TimeLines(v))
  {
    IcsUTCShape(v.stamp);
    IcsUTCShape(v.start);
    IcsUTCShape(v.end);
    SoundProp("DTSTAMP", IcsUTC(v.stamp));
    SoundProp("DTSTART", IcsUTC(v.start));
    SoundProp("DTEND", IcsUTC(v.end));
  }

  lemma SoundOrganizer(e: Event)
    requires OneLine(e.orgEmail)
    ensures Sound(OrganizerLine(e))
  {
    EscapedIsOneLine(e.orgName);
  }

  lemma SoundEscaped(name: string, text: string)
    requires name != "" && name[0] != ' ' && name[0] != '\t' && OneLine(name)
    ensures Sound(Prop(name, EscapeText(text)))
  {
    EscapedIsOneLine(text);
    SoundProp(name, EscapeText(text));
  }

  lemma SoundText(e: Event)
    requires OneLine(e.orgEmail)
    ensures AllSound(TextLines(e))
  {
    SoundEscaped("SUMMARY", e.summary);
    SoundEscaped("DESCRIPTION", e.description);
    SoundEscaped("LOCATION", e.location);
    SoundOrganizer(e);
  }

  lemma SoundTail(v: Version)
    ensures AllSound(TailLines(v))
  {
    SoundProp("SEQUENCE", FormatInt(v.sequence));
    SoundProp("STATUS", "CONFIRMED");
    SoundProp("END", "VEVENT");
    SoundProp("END", "VCALENDAR");
  }

  lemma SoundContent(e: Event, v: Version)
    requires OneLine(e.id) && OneLine(e.orgEmail)
    ensures AllSound(ContentLines(e, v))
  {
    SoundHead(e);
    SoundTimes(v);
    SoundText(e);
    SoundTail(v);
  }

  /** Unfolding what buildICS wrote gives back exactly its content lines, for any text
      fields whatsoever, if and only if the id and the organizer's address hold no LF. */
  lemma {:induction false} UnfoldBuilt(e: Event, v: Version)
    ensures Unfolded(Built(e, v)) == ContentLines(e, v) <==> OneLine(e.id) && OneLine(e.orgEmail)
  {
    if OneLine(e.id) && OneLine(e.orgEmail) {
      SoundContent(e, v);
      UnfoldRender(ContentLines(e, v));
    } else {
      var raw := Split(ReplaceCRLF(Built(e, v)), '\n');
      SplitHasNone(ReplaceCRLF(Built(e, v)), '\n');
      UnfoldKeepsOneLine([], raw);
      var i := BrokenLine(e, v);
      assert i < |Unfolded(Built(e, v))| ==> OneLine(Unfolded(Built(e, v))[i]);
    }
  }

  /** An organizer's address with an LF in it breaks the ORGANIZER line for every time and sequence. */
  lemma LineFeedInAddress(v: Version)
    ensures var e := Event("1", "Call", "", "", "Ann", "ann\n@example.com"); Unfolded(Built(e, v)) != ContentLines(e, v)
  {
    var e := Event("1", "Call", "", "", "Ann", "ann\n@example.com");
    assert e.orgEmail[3] == '\n';
    UnfoldBuilt(e, v);
  }

  lemma BrokenUid(e: Event)
    requires !OneLine(e.id)
    ensures !OneLine(Prop("UID", e.id + "@calnode"))
  {
    assert Prop("UID", e.id + "@calnode") == "UID:" + (e.id + "@calnode");
  }

  lemma BrokenOrganizer(e: Event)
    requires !OneLine(e.orgEmail)
    ensures !OneLine(OrganizerLine(e))
  {
    var line := OrganizerLine(e);
    var k := |line| - |e.orgEmail|;
    assert line == line[..k] + (e.orgEmail + "");
  }

  lemma BrokenLine(e: Event, v: Version) returns (i: nat)
    requires !OneLine(e.id) || !OneLine(e.orgEmail)
    ensures i < |ContentLines(e, v)| && !OneLine(ContentLines(e, v)[i])
  {
    var lines := ContentLines(e, v);
    if !OneLine(e.id) {
      BrokenUid(e);
      i := |Preamble()| + 1;
      assert lines[i] == HeadLines(e)[i];
    } else {
      BrokenOrganizer(e);
      i := |HeadLines(e)| + |TimeLines(v)| + |TextLines(e)| - 1;
      assert lines[i] == TextLines(e)[|TextLines(e)| - 1];
    }
  }

  /** Every physical line of an object is at most 75 octets long. */
  lemma {:induction false} BuiltLinesFit(e: Event, v: Version)
    ensures Built(e, v) == Lines(Physical(ContentLines(e, v)))
    ensures forall i :: 0 <= i < |Physical(ContentLines(e, v))| ==> |Physical(ContentLines(e, v))[i]| <= 75
  {
    PhysicalAtMost75(ContentLines(e, v));
  }

  /** Reading a printed object gives exactly one opaque, live event with the printed times,
      to the second. An end at Go's zero time reads as "no end given". */
  lemma {:induction false} ParseBuilt(lib: TimeLib, e: Event, v: Version)
    requires OneLine(e.id) && OneLine(e.orgEmail) && FourDigitYears(v)
    ensures Parsed(lib, Built(e, v)) == [Finished(IcsEvent(v.start / SECOND, v.end / SECOND, false, false), false)]
    ensures Parsed(lib, Built(e, v)) == [IcsEvent(v.start / SECOND, v.end / SECOND, false, false)]
            <==> v.end / SECOND != ZERO || v.start / SECOND == ZERO
  {
    UnfoldBuilt(e, v);
    ReadContent(lib, e, v);
  }
}
