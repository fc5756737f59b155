/** rewriteEventTimes of internal/caldav/events.go: moving an event by editing the lines
    of the object stored on the server. */
module ICalRewrite {
  import opened Decimal
  import opened CivilTime
  import opened Text
  import opened ICal
  import ICalParse

  // ---------------------------------------------------------------- line parts

  /** propName: the line up to its first ':' or ';'. */
  function PropName(line: string): (name: string) {
    var i, j := IndexOf(line, ':'), IndexOf(line, ';');
    line[..if i < j then i else j]
  }

  /** propValue: the line after its first ':'. */
  function PropValue(line: string): (value: string) {
    var i := IndexOf(line, ':');
    if i < |line| then line[i + 1..] else ""
  }

  // ---------------------------------------------------------------- numbers

  const MAX_INT: int := 0x7fff_ffff_ffff_ffff
  const MIN_INT: int := -0x8000_0000_0000_0000

  /** A Go int: 64 bits, wrapping. */
  function Wrap(n: int): (r: int)
    ensures MIN_INT <= r <= MAX_INT
    ensures MIN_INT <= n <= MAX_INT ==> r == n
  {
    (n - MIN_INT) % 0x1_0000_0000_0000_0000 + MIN_INT
  }

  function AtoiFrom(s: string, n: int): (r: int)
    decreases |s|
  {
    if s == "" || !IsDigit(s[0]) then n
    else AtoiFrom(s[1..], Wrap(n * 10 + (s[0] as int - '0' as int)))
  }

  /** atoi: the leading digits, 0 when there are none. */
  method Atoi(s: string) returns (n: int)
    ensures n == AtoiFrom(s, 0)
  {
    n := 0;
    assert s[0..] == s;
    for i := 0 to |s|
      invariant AtoiFrom(s[i..], n) == AtoiFrom(s, 0)
    {
      assert s[i..][1..] == s[i + 1..];
      if s[i] < '0' || s[i] > '9' {
        return n;
      }
      n := Wrap(n * 10 + (s[i] as int - '0' as int));
    }
    assert s[|s|..] == "";
  }

  lemma {:induction false} AtoiSnoc(s: string, c: char, n: int)
    requires AllDigits(s) && IsDigit(c)
    ensures AtoiFrom(s + [c], n) == Wrap(AtoiFrom(s, n) * 10 + (c as int - '0' as int))
    decreases |s|
  {
    if s == "" {
      assert (s + [c])[1..] == "";
    } else {
      assert (s + [c])[1..] == s[1..] + [c];
      AtoiSnoc(s[1..], c, Wrap(n * 10 + (s[0] as int - '0' as int)));
    }
  }

  lemma {:induction false} AtoiOfItoa(n: nat)
    requires n <= MAX_INT
    ensures AtoiFrom(Itoa(n), 0) == n
  {
    if n >= 10 {
      AtoiOfItoa(n / 10);
      AtoiSnoc(Itoa(n / 10), DigitChar(n % 10), 0);
    } else {
      assert [DigitChar(n)][1..] == "";
    }
  }

  /** seqPlusOne */
  function SeqPlusOne(line: string): (n: int) {
    Wrap(AtoiFrom(TrimSpace(PropValue(line)), 0) + 1)
  }

  // ---------------------------------------------------------------- the rewriter

  datatype Edit = Edit(now: nat, start: nat, end: nat)

  datatype Head = DtStart | DtEnd | Duration | DtStamp | LastModified | Sequence | End | Other

  function HeadOf(upper: string): (h: Head) {
    if upper == "DTSTART" then DtStart
    else if upper == "DTEND" then DtEnd
    else if upper == "DURATION" then Duration
    else if upper == "DTSTAMP" then DtStamp
    else if upper == "LAST-MODIFIED" then LastModified
    else if upper == "SEQUENCE" then Sequence
    else if upper == "END" then End
    else Other
  }

  predicate EndsVEvent(ln: string) {
    EqualFold(TrimSpace(PropValue(ln)), "VEVENT")
  }

  /** What one line becomes, given whether a SEQUENCE has been seen. */
  function RewriteAs(h: Head, ln: string, edit: Edit, sawSeq: bool): (r: seq<string>) {
    match h
    case DtStart => [Prop("DTSTART", IcsUTC(edit.start))]
    case DtEnd => [Prop("DTEND", IcsUTC(edit.end))]
    case Duration => []
    case DtStamp => [Prop("DTSTAMP", IcsUTC(edit.now))]
    case LastModified => [Prop("LAST-MODIFIED", IcsUTC(edit.now))]
    case Sequence => [Prop("SEQUENCE", FormatInt(SeqPlusOne(ln)))]
    case End => if EndsVEvent(ln) && !sawSeq then [Prop("SEQUENCE", "1"), ln] else [ln]
    case Other => [ln]
  }

  function SeqSeen(h: Head, ln: string, sawSeq: bool): (r: bool) {
    sawSeq || h == Sequence || (h == End && EndsVEvent(ln))
  }

  function HeadIn(ln: string): (h: Head) {
    HeadOf(PropName(Upper(ln)))
  }

  /** All the lines, with the head of each given by `heads`. */
  function RewriteLines(heads: string -> Head, lines: seq<string>, edit: Edit, sawSeq: bool): (r: seq<string>)
    decreases |lines|
  {
    if lines == [] then []
    else if lines[0] == "" then RewriteLines(heads, lines[1..], edit, sawSeq)
    else
      var h := heads(lines[0]);
      RewriteAs(h, lines[0], edit, sawSeq)
        + RewriteLines(heads, lines[1..], edit, SeqSeen(h, lines[0], sawSeq))
  }

  function Rewritten(ics: string, edit: Edit): (r: string) {
    JoinCRLF(RewriteLines(HeadIn, Split(ReplaceCRLF(ics), '\n'), edit, false)) + CRLF
  }

  /** The switch of the rewriter. */
  method RewriteOne(head: Head, ln: string, edit: Edit, sawSeq: bool) returns (piece: seq<string>, seen: bool)
    ensures piece == RewriteAs(head, ln, edit, sawSeq)
    ensures seen == SeqSeen(head, ln, sawSeq)
  {
    piece, seen := [], sawSeq;
    match head
    case DtStart => piece := [Prop("DTSTART", IcsUTC(edit.start))];
    case DtEnd => piece := [Prop("DTEND", IcsUTC(edit.end))];
    case Duration =>
    case DtStamp => piece := [Prop("DTSTAMP", IcsUTC(edit.now))];
    case LastModified => piece := [Prop("LAST-MODIFIED", IcsUTC(edit.now))];
    case Sequence =>
      seen := true;
      var n := Atoi(TrimSpace(PropValue(ln)));
      piece := [Prop("SEQUENCE", FormatInt(Wrap(n + 1)))];
    case End =>
      if EndsVEvent(ln) && !sawSeq {
        piece := [Prop("SEQUENCE", "1")];
        seen := true;
      }
      piece := piece + [ln];
    case Other => piece := [ln];
  }

  /** rewriteEventTimes */
  method RewriteEventTimes(ics: string, edit: Edit) returns (r: string)
    ensures r == Rewritten(ics, edit)
  {
    var lines := Split(ReplaceCRLF(ics), '\n');
    var out := RewriteAll(HeadIn, lines, edit);
    r := JoinCRLF(out) + "\r\n";
  }

  /** The loop over the lines; heads reads the property name of each. */
  method RewriteAll(heads: string -> Head, lines: seq<string>, edit: Edit) returns (out: seq<string>)
    ensures out == RewriteLines(heads, lines, edit, false)
  {
    out := [];
    var sawSeq := false;
    ghost var all := RewriteLines(heads, lines, edit, false);
    assert lines[0..] == lines;
    for i := 0 to |lines|
      invariant out + RewriteLines(heads, lines[i..], edit, sawSeq) == all
    {
      var ln := lines[i];
      assert lines[i..] == [ln] + lines[i + 1..];
      if ln == "" {
        continue;
      }
      var piece, seen := RewriteOne(heads(ln), ln, edit, sawSeq);
      LineStep(heads, ln, lines[i + 1..], edit, sawSeq);
      out := out + piece;
      sawSeq := seen;
    }
    assert lines[|lines|..] == [];
  }

  lemma OtherStep(heads: string -> Head, ln: string, rest: seq<string>, edit: Edit, sawSeq: bool)
    requires ln != "" && heads(ln) == Other
    ensures RewriteLines(heads, [ln] + rest, edit, sawSeq) == [ln] + RewriteLines(heads, rest, edit, sawSeq)
  {
    LineStep(heads, ln, rest, edit, sawSeq);
  }

  lemma LineStep(heads: string -> Head, ln: string, rest: seq<string>, edit: Edit, sawSeq: bool)
    requires ln != ""
    ensures RewriteLines(heads, [ln] + rest, edit, sawSeq)
         == RewriteAs(heads(ln), ln, edit, sawSeq) + RewriteLines(heads, rest, edit, SeqSeen(heads(ln), ln, sawSeq))
  {
    assert ([ln] + rest)[1..] == rest;
  }

  // ------------------------------------------------- what it does to a printed object

  lemma FirstApart(a: seq<string>, b: seq<string>)
    requires a != []
    ensures [a[0]] + (a[1..] + b) == a + b
  {
  }

  lemma {:induction false} KeepsOther(heads: string -> Head, a: seq<string>, b: seq<string>, edit: Edit, sawSeq: bool)
    requires forall i :: 0 <= i < |a| ==> a[i] != "" && heads(a[i]) == Other
    ensures RewriteLines(heads, a + b, edit, sawSeq) == a + RewriteLines(heads, b, edit, sawSeq)
    decreases |a|
  {
    if a == [] {
      assert a + b == b;
    } else {
      OtherStep(heads, a[0], a[1..] + b, edit, sawSeq);
      KeepsOther(heads, a[1..], b, edit, sawSeq);
      FirstApart(a, b);
      FirstApart(a, RewriteLines(heads, b, edit, sawSeq));
    }
  }

  lemma {:induction false} PropNameSimple(name: string, rest: string)
    requires ':' !in name && ';' !in name && rest != "" && (rest[0] == ':' || rest[0] == ';')
    ensures PropName(name + rest) == name
  {
    var ln := name + rest;
    assert rest == [rest[0]] + rest[1..];
    assert ln == name + ([rest[0]] + rest[1..]);
    IndexOfAt(name, rest[0], rest[1..]);
    var other := if rest[0] == ':' then ';' else ':';
    assert ln[..|name|] == name;
  }

  lemma {:induction false} UpperConcat(a: string, b: string)
    ensures Upper(a + b) == Upper(a) + Upper(b)
  {
  }

  /** The head of a physical line that starts with a property name. */
  lemma {:induction false} HeadOfNamed(name: string, rest: string)
    requires ICalParse.PlainName(name) && rest != "" && (rest[0] == ':' || rest[0] == ';')
    ensures HeadIn(name + rest) == HeadOf(name)
  {
    UpperConcat(name, rest);
    ICalParse.UpperSame(name);
    PropNameSimple(name, Upper(rest));
  }

  ghost predicate AllOther(lines: seq<string>) {
    forall i :: 0 <= i < |lines| ==> lines[i] != "" && HeadIn(lines[i]) == Other
  }

  lemma ContinuationIsOther(ln: string)
    requires ln != "" && ln[0] == ' '
    ensures HeadIn(ln) == Other
  {
    assert Upper(ln)[0] == ' ';
  }

  /** However long the text after the name, none of its physical lines is touched. */
  lemma {:induction false} OtherChunks(name: string, rest: string)
    requires name != "" && |name| < LIMIT && ICalParse.PlainName(name) && HeadOf(name) == Other
    requires rest != "" && (rest[0] == ':' || rest[0] == ';')
    ensures AllOther(Chunks(name + rest))
  {
    var line := name + rest;
    var first := Chunks(line)[0];
    var n := |first| - |name|;
    assert first == name + rest[..n];
    HeadOfNamed(name, rest[..n]);
    forall i | 0 < i < |Chunks(line)| ensures Chunks(line)[i] != "" && HeadIn(Chunks(line)[i]) == Other {
      ChunksShape(line, i);
      ContinuationIsOther(Chunks(line)[i]);
    }
  }

  lemma {:induction false} OtherProp(name: string, value: string)
    requires name != "" && |name| < LIMIT && ICalParse.PlainName(name) && HeadOf(name) == Other
    ensures AllOther(Physical([Prop(name, value)]))
  {
    OtherChunks(name, ":" + value);
    assert [Prop(name, value)][1..] == [];
    assert Physical([Prop(name, value)]) == Chunks(Prop(name, value)) + [];
  }

  lemma {:induction false} PhysicalConcat(a: seq<string>, b: seq<string>)
    ensures Physical(a + b) == Physical(a) + Physical(b)
  {
    if a == [] {
      assert a + b == b;
    } else {
      assert (a + b)[1..] == a[1..] + b;
      PhysicalConcat(a[1..], b);
    }
  }

  lemma FourParts(f: seq<string> -> seq<string>, a: seq<string>, b: seq<string>, c: seq<string>, d: seq<string>)
    requires forall x, y :: f(x + y) == f(x) + f(y)
    ensures f(a + b + c + d) == f(a) + (f(b) + (f(c) + f(d)))
  {
    assert f(a + b + c + d) == ((f(a) + f(b)) + f(c)) + f(d);
  }

  lemma PhysicalFour(a: seq<string>, b: seq<string>, c: seq<string>, d: seq<string>)
    ensures Physical(a + b + c + d) == Physical(a) + (Physical(b) + (Physical(c) + Physical(d)))
  {
    forall x, y ensures Physical(x + y) == Physical(x) + Physical(y) {
      PhysicalConcat(x, y);
    }
    FourParts(Physical, a, b, c, d);
  }

  lemma OtherFour(a: seq<string>, b: seq<string>, c: seq<string>, d: seq<string>)
    requires AllOther(Physical(a)) && AllOther(Physical(b)) && AllOther(Physical(c)) && AllOther(Physical(d))
    ensures AllOther(Physical(a + b + c + d))
  {
    PhysicalFour(a, b, c, d);
  }

  lemma OtherCons(l: string, rest: seq<string>)
    requires AllOther(Physical([l])) && AllOther(Physical(rest))
    ensures AllOther(Physical([l] + rest))
  {
    PhysicalConcat([l], rest);
  }

  lemma HeadNames()
    ensures HeadOf("BEGIN") == Other && HeadOf("VERSION") == Other && HeadOf("PRODID") == Other
    ensures HeadOf("CALSCALE") == Other && HeadOf("METHOD") == Other && HeadOf("UID") == Other
  {
    assert "CALSCALE"[0] != "DURATION"[0] && "CALSCALE"[0] != "SEQUENCE"[0];
    assert "VERSION"[0] != "DTSTART"[0] && "VERSION"[0] != "DTSTAMP"[0];
    assert "BEGIN"[0] != "DTEND"[0];
    assert "UID"[0] != "END"[0];
  }

  lemma TextHeadNames()
    ensures HeadOf("SUMMARY") == Other && HeadOf("DESCRIPTION") == Other && HeadOf("LOCATION") == Other
    ensures HeadOf("ORGANIZER") == Other && HeadOf("STATUS") == Other
  {
    assert "SUMMARY"[0] != "DTSTART"[0] && "SUMMARY"[0] != "DTSTAMP"[0];
    assert "LOCATION"[0] != "DURATION"[0] && "LOCATION"[0] != "SEQUENCE"[0];
  }

  lemma ActingHeads()
    ensures HeadOf("DTSTART") == DtStart && HeadOf("DTEND") == DtEnd && HeadOf("DTSTAMP") == DtStamp
    ensures HeadOf("SEQUENCE") == Sequence && HeadOf("END") == End
  {
    assert "DTSTAMP"[5] != "DTSTART"[5];
    assert "SEQUENCE"[0] != "DURATION"[0];
  }

  lemma OtherPreambleA()
    ensures AllOther(Physical([Prop("BEGIN", "VCALENDAR")])) && AllOther(Physical([Prop("VERSION", "2.0")]))
    ensures AllOther(Physical([Prop("BEGIN", "VEVENT")]))
  {
    HeadNames();
    OtherProp("BEGIN", "VCALENDAR");
    OtherProp("VERSION", "2.0");
    OtherProp("BEGIN", "VEVENT");
  }

  lemma OtherPreambleB()
    ensures AllOther(Physical([Prop("PRODID", "-//Calnode//Booking//EN")]))
    ensures AllOther(Physical([Prop("CALSCALE", "GREGORIAN")])) && AllOther(Physical([Prop("METHOD", "REQUEST")]))
  {
    HeadNames();
    OtherProp("PRODID", "-//Calnode//Booking//EN");
    OtherProp("CALSCALE", "GREGORIAN");
    OtherProp("METHOD", "REQUEST");
  }

  lemma PhysicalNone()
    ensures AllOther(Physical([]))
  {
  }

  lemma OtherPreamble()
    ensures AllOther(Physical(Preamble()))
  {
    var a, b, c := Prop("BEGIN", "VCALENDAR"), Prop("VERSION", "2.0"), Prop("PRODID", "-//Calnode//Booking//EN");
    var d, e := Prop("CALSCALE", "GREGORIAN"), Prop("METHOD", "REQUEST");
    OtherPreambleA();
    OtherPreambleB();
    OtherCons(d, [e]);
    OtherCons(c, [d] + [e]);
    OtherCons(b, [c] + ([d] + [e]));
    OtherCons(a, [b] + ([c] + ([d] + [e])));
    assert Preamble() == [a] + ([b] + ([c] + ([d] + [e])));
  }

  lemma OtherHead(e: Event)
    ensures AllOther(Physical(HeadLines(e)))
  {
    var begin, uid := Prop("BEGIN", "VEVENT"), Prop("UID", e.id + "@calnode");
    HeadNames();
    OtherPreamble();
    OtherPreambleA();
    OtherProp("UID", e.id + "@calnode");
    OtherCons(begin, [uid]);
    assert [begin] + [uid] == [begin, uid];
    PhysicalConcat(Preamble(), [begin, uid]);
  }

  lemma OtherOrganizer(e: Event)
    ensures AllOther(Physical([OrganizerLine(e)]))
  {
    TextHeadNames();
    if e.orgName == "" {
      OtherProp("ORGANIZER", "mailto:" + e.orgEmail);
    } else {
      OtherChunks("ORGANIZER", ";" + Prop("CN=" + EscapeText(e.orgName), "mailto:" + e.orgEmail));
      assert [OrganizerLine(e)][1..] == [];
      assert Physical([OrganizerLine(e)]) == Chunks(OrganizerLine(e)) + [];
    }
  }

  lemma OtherOptional(present: bool, l: string)
    requires present ==> AllOther(Physical([l]))
    ensures AllOther(Physical(if present then [l] else []))
  {
    PhysicalNone();
  }

  lemma OtherSummary(text: string)
    ensures AllOther(Physical([Prop("SUMMARY", text)]))
  {
    TextHeadNames();
    OtherProp("SUMMARY", text);
  }

  lemma OtherDescription(text: string)
    ensures AllOther(Physical([Prop("DESCRIPTION", text)]))
  {
    TextHeadNames();
    OtherProp("DESCRIPTION", text);
  }

  lemma OtherLocation(text: string)
    ensures AllOther(Physical([Prop("LOCATION", text)]))
  {
    TextHeadNames();
    OtherProp("LOCATION", text);
  }

  lemma OtherText(e: Event)
    ensures AllOther(Physical(TextLines(e)))
  {
    var a, b := Prop("SUMMARY", EscapeText(e.summary)), Prop("DESCRIPTION", EscapeText(e.description));
    var c, d := Prop("LOCATION", EscapeText(e.location)), OrganizerLine(e);
    OtherSummary(EscapeText(e.summary));
    OtherDescription(EscapeText(e.description));
    OtherLocation(EscapeText(e.location));
    OtherOrganizer(e);
    var bs := if e.description != "" then [b] else [];
    var cs := if e.location != "" then [c] else [];
    var ds := if e.orgEmail != "" then [d] else [];
    OtherOptional(e.description != "", b);
    OtherOptional(e.location != "", c);
    OtherOptional(e.orgEmail != "", d);
    assert TextLines(e) == [a] + bs + cs + ds;
    OtherFour([a], bs, cs, ds);
  }

  // ---------------------------------------------------------------- the edited lines

  lemma {:induction false} ShortLines(lines: seq<string>)
    requires forall i :: 0 <= i < |lines| ==> |lines[i]| <= 75
    ensures Physical(lines) == lines
  {
    if lines != [] {
      ShortLines(lines[1..]);
      assert lines == [lines[0]] + lines[1..];
    }
  }

  lemma {:induction false} ItoaLength(n: nat, w: nat)
    requires w > 0 && n < Pow10(w)
    ensures |Itoa(n)| <= w
  {
    if n >= 10 {
      ItoaLength(n / 10, w - 1);
    }
  }

  lemma FormatIntShort(n: int)
    requires MIN_INT <= n <= MAX_INT
    ensures |FormatInt(n)| <= 21
  {
    assert Pow10(4) == 10_000 by { assert Pow10(2) == 100; }
    assert Pow10(8) == 100_000_000 by { assert Pow10(6) == 1_000_000; }
    assert Pow10(12) == 1_000_000_000_000 by { assert Pow10(10) == 10_000_000_000; }
    assert Pow10(16) == 10_000_000_000_000_000 by { assert Pow10(14) == 100_000_000_000_000; }
    assert Pow10(20) == 100_000_000_000_000_000_000 by { assert Pow10(18) == 1_000_000_000_000_000_000; }
    ItoaLength(if n < 0 then -n else n, 20);
  }

  lemma PhysicalTimes(v: Version)
    ensures Physical(TimeLines(v)) == TimeLines(v)
  {
    IcsUTCShape(v.stamp);
    IcsUTCShape(v.start);
    IcsUTCShape(v.end);
    ShortLines(TimeLines(v));
  }

  lemma PhysicalTail(v: Version)
    requires MIN_INT <= v.sequence <= MAX_INT
    ensures Physical(TailLines(v)) == TailLines(v)
  {
    FormatIntShort(v.sequence);
    ShortLines(TailLines(v));
  }

  /** What the rewriter makes of a SEQUENCE number it reads back. */
  function Bump(n: int): (r: int) {
    if n < 0 then 1 else Wrap(n + 1)
  }

  /** A sequence number grows by one exactly when it is not negative and not the last one. */
  lemma BumpIsNext(n: int)
    requires MIN_INT <= n <= MAX_INT
    ensures Bump(n) == n + 1 <==> 0 <= n < MAX_INT
    ensures Bump(MAX_INT) == MIN_INT && Bump(-1) == 1
  {
  }

  lemma {:induction false} PropValueSimple(name: string, value: string)
    requires ':' !in name
    ensures PropValue(Prop(name, value)) == value
  {
    IndexOfAt(name, ':', value);
    assert Prop(name, value) == name + ([':'] + value);
    assert Prop(name, value)[|name| + 1..] == value;
  }

  lemma FormattedIsTrim(n: int)
    ensures TrimSpace(FormatInt(n)) == FormatInt(n)
  {
    var s := FormatInt(n);
    assert !IsSpace(s[0]) && !IsSpace(s[|s| - 1]);
  }

  lemma {:induction false} SequenceRead(n: int)
    requires MIN_INT <= n <= MAX_INT
    ensures SeqPlusOne(Prop("SEQUENCE", FormatInt(n))) == Bump(n)
  {
    PropValueSimple("SEQUENCE", FormatInt(n));
    FormattedIsTrim(n);
    if n >= 0 {
      AtoiOfItoa(n);
    } else {
      assert FormatInt(n)[0] == '-';
    }
  }

  lemma {:induction false} PropHead(name: string, value: string)
    requires ICalParse.PlainName(name)
    ensures HeadIn(Prop(name, value)) == HeadOf(name)
  {
    HeadOfNamed(name, ":" + value);
  }

  // ---------------------------------------------------------------- rewriting is rebuilding

  /** The event's next version. */
  function Moved(v: Version, edit: Edit): (v': Version) {
    Version(edit.now, edit.start, edit.end, Bump(v.sequence))
  }

  lemma {:induction false} TimesReplaced(heads: string -> Head, a: string, b: string, c: string, rest: seq<string>,
                                         edit: Edit)
    requires a != "" && b != "" && c != ""
    requires heads(a) == DtStamp && heads(b) == DtStart && heads(c) == DtEnd
    ensures RewriteLines(heads, [a] + ([b] + ([c] + rest)), edit, false)
         == [Prop("DTSTAMP", IcsUTC(edit.now))] + ([Prop("DTSTART", IcsUTC(edit.start))]
            + ([Prop("DTEND", IcsUTC(edit.end))] + RewriteLines(heads, rest, edit, false)))
  {
    LineStep(heads, c, rest, edit, false);
    LineStep(heads, b, [c] + rest, edit, false);
    LineStep(heads, a, [b] + ([c] + rest), edit, false);
  }

  lemma StampHead(a: string)
    ensures HeadIn(Prop("DTSTAMP", a)) == DtStamp
  {
    assert HeadOf("DTSTAMP") == DtStamp by { ActingHeads(); }
    PropHead("DTSTAMP", a);
  }

  lemma StartHead(a: string)
    ensures HeadIn(Prop("DTSTART", a)) == DtStart
  {
    assert HeadOf("DTSTART") == DtStart by { ActingHeads(); }
    PropHead("DTSTART", a);
  }

  lemma EndHead(a: string)
    ensures HeadIn(Prop("DTEND", a)) == DtEnd
  {
    assert HeadOf("DTEND") == DtEnd by { ActingHeads(); }
    PropHead("DTEND", a);
  }

  lemma Three(a: string, b: string, c: string, rest: seq<string>)
    ensures [a, b, c] + rest == [a] + ([b] + ([c] + rest))
  {
  }

  lemma {:induction false} RewriteTimes(v: Version, rest: seq<string>, edit: Edit)
    ensures RewriteLines(HeadIn, TimeLines(v) + rest, edit, false)
         == TimeLines(Moved(v, edit)) + RewriteLines(HeadIn, rest, edit, false)
  {
    var a, b, c := Prop("DTSTAMP", IcsUTC(v.stamp)), Prop("DTSTART", IcsUTC(v.start)), Prop("DTEND", IcsUTC(v.end));
    StampHead(IcsUTC(v.stamp));
    StartHead(IcsUTC(v.start));
    EndHead(IcsUTC(v.end));
    Three(a, b, c, rest);
    TimesReplaced(HeadIn, a, b, c, rest, edit);
    Three(Prop("DTSTAMP", IcsUTC(edit.now)), Prop("DTSTART", IcsUTC(edit.start)), Prop("DTEND", IcsUTC(edit.end)),
          RewriteLines(HeadIn, rest, edit, false));
  }

  /** Once a SEQUENCE has been seen, END lines are kept as they are. */
  lemma {:induction false} TailRewritten(heads: string -> Head, sq: string, a: string, b: string, c: string, edit: Edit)
    requires sq != "" && a != "" && b != "" && c != ""
    requires heads(sq) == Sequence && heads(a) == Other && heads(b) == End && heads(c) == End
    ensures RewriteLines(heads, [sq] + ([a] + ([b] + ([c] + [""]))), edit, false)
         == [Prop("SEQUENCE", FormatInt(SeqPlusOne(sq)))] + ([a] + ([b] + ([c] + [])))
  {
    assert [""] + [] == [""];
    LineStep(heads, c, [""], edit, true);
    LineStep(heads, b, [c] + [""], edit, true);
    LineStep(heads, a, [b] + ([c] + [""]), edit, true);
    LineStep(heads, sq, [a] + ([b] + ([c] + [""])), edit, false);
  }

  lemma SequenceHead(n: string)
    ensures HeadIn(Prop("SEQUENCE", n)) == Sequence
  {
    assert HeadOf("SEQUENCE") == Sequence by { ActingHeads(); }
    PropHead("SEQUENCE", n);
  }

  lemma StatusHead(a: string)
    ensures HeadIn(Prop("STATUS", a)) == Other
  {
    assert HeadOf("STATUS") == Other by { TextHeadNames(); }
    PropHead("STATUS", a);
  }

  lemma EndLineHead(a: string)
    ensures HeadIn(Prop("END", a)) == End
  {
    assert HeadOf("END") == End by { ActingHeads(); }
    PropHead("END", a);
  }

  lemma Four(a: string, b: string, c: string, d: string, rest: seq<string>)
    ensures [a, b, c, d] + rest == [a] + ([b] + ([c] + ([d] + rest)))
  {
  }

  lemma {:induction false} RewriteTail(v: Version, edit: Edit)
    requires MIN_INT <= v.sequence <= MAX_INT
    ensures RewriteLines(HeadIn, TailLines(v) + [""], edit, false) == TailLines(Moved(v, edit))
  {
    var n := FormatInt(v.sequence);
    var sq, a := Prop("SEQUENCE", n), Prop("STATUS", "CONFIRMED");
    var b, c := Prop("END", "VEVENT"), Prop("END", "VCALENDAR");
    SequenceHead(n);
    StatusHead("CONFIRMED");
    EndLineHead("VEVENT");
    EndLineHead("VCALENDAR");
    SequenceRead(v.sequence);
    Four(sq, a, b, c, [""]);
    TailRewritten(HeadIn, sq, a, b, c, edit);
    var sq' := Prop("SEQUENCE", FormatInt(Bump(v.sequence)));
    Four(sq', a, b, c, []);
    assert [sq', a, b, c] + [] == [sq', a, b, c];
  }

  lemma {:induction false} PhysicalContent(e: Event, v: Version)
    requires MIN_INT <= v.sequence <= MAX_INT
    ensures Physical(ContentLines(e, v))
         == Physical(HeadLines(e)) + (TimeLines(v) + (Physical(TextLines(e)) + TailLines(v)))
  {
    PhysicalFour(HeadLines(e), TimeLines(v), TextLines(e), TailLines(v));
    PhysicalTimes(v);
    PhysicalTail(v);
  }

  ghost predicate OtherFor(heads: string -> Head, lines: seq<string>) {
    forall i :: 0 <= i < |lines| ==> lines[i] != "" && heads(lines[i]) == Other
  }

  lemma {:induction false} RewriteParts(heads: string -> Head, head: seq<string>, times: seq<string>, text: seq<string>,
                                        tail: seq<string>, times': seq<string>, tail': seq<string>, edit: Edit)
    requires OtherFor(heads, head) && OtherFor(heads, text)
    requires RewriteLines(heads, tail, edit, false) == tail'
    requires RewriteLines(heads, times + (text + tail), edit, false) ==
             times' + RewriteLines(heads, text + tail, edit, false)
    ensures RewriteLines(heads, head + (times + (text + tail)), edit, false) == head + (times' + (text + tail'))
  {
    KeepsOther(heads, text, tail, edit, false);
    KeepsOther(heads, head, times + (text + tail), edit, false);
  }

  lemma {:induction false} Regroup(a: seq<string>, b: seq<string>, c: seq<string>, d: seq<string>)
    ensures a + (b + (c + d)) + [""] == a + (b + (c + (d + [""])))
  {
  }

  lemma {:induction false} RewritePhysical(e: Event, v: Version, edit: Edit)
    requires MIN_INT <= v.sequence <= MAX_INT
    ensures RewriteLines(HeadIn, Physical(ContentLines(e, v)) + [""], edit, false)
         == Physical(ContentLines(e, Moved(v, edit)))
  {
    var head, text := Physical(HeadLines(e)), Physical(TextLines(e));
    var v' := Moved(v, edit);
    PhysicalContent(e, v);
    PhysicalContent(e, v');
    OtherHead(e);
    OtherText(e);
    assert OtherFor(HeadIn, head) && OtherFor(HeadIn, text);
    RewriteTail(v, edit);
    RewriteTimes(v, text + (TailLines(v) + [""]), edit);
    RewriteParts(HeadIn, head, TimeLines(v), text, TailLines(v) + [""], TimeLines(v'), TailLines(v'), edit);
    Regroup(head, TimeLines(v), text, TailLines(v));
  }

  /** Rewriting a printed object is printing it again with the new times and the next
      sequence number: every other line, folded text included, is the same octet for octet. */
  lemma {:induction false} RewriteIsRebuild(e: Event, v: Version, edit: Edit)
    requires OneLine(e.id) && OneLine(e.orgEmail) && MIN_INT <= v.sequence <= MAX_INT
    ensures Rewritten(Built(e, v), edit) == Built(e, Moved(v, edit))
  {
    var lines := Physical(ContentLines(e, v));
    ICalParse.SoundContent(e, v);
    PhysicalOneLine(ContentLines(e, v));
    SplitLines(lines);
    RewritePhysical(e, v, edit);
    var lines' := Physical(ContentLines(e, Moved(v, edit)));
    assert lines' != [] by { assert ContentLines(e, Moved(v, edit)) != []; }
    JoinIsLines(lines');
  }

  function RewrittenMany(ics: string, edits: seq<Edit>): (r: string)
    decreases |edits|
  {
    if edits == [] then ics else Rewritten(RewrittenMany(ics, edits[..|edits| - 1]), edits[|edits| - 1])
  }

  /** The version after a sequence of moves. */
  function After(v: Version, edits: seq<Edit>): (v': Version)
    decreases |edits|
  {
    if edits == [] then v else Moved(After(v, edits[..|edits| - 1]), edits[|edits| - 1])
  }

  lemma {:induction false} RewriteMany(e: Event, v: Version, edits: seq<Edit>)
    requires OneLine(e.id) && OneLine(e.orgEmail) && MIN_INT <= v.sequence <= MAX_INT
    ensures RewrittenMany(Built(e, v), edits) == Built(e, After(v, edits))
    ensures MIN_INT <= After(v, edits).sequence <= MAX_INT
    decreases |edits|
  {
    if edits != [] {
      var n := |edits| - 1;
      RewriteMany(e, v, edits[..n]);
      RewriteIsRebuild(e, After(v, edits[..n]), edits[n]);
    }
  }

  /** After k moves the sequence number has grown by exactly k. */
  lemma {:induction false} SequenceGrowsByMoves(v: Version, edits: seq<Edit>)
    requires 0 <= v.sequence && v.sequence + |edits| <= MAX_INT
    ensures After(v, edits).sequence == v.sequence + |edits|
    decreases |edits|
  {
    if edits != [] {
      SequenceGrowsByMoves(v, edits[..|edits| - 1]);
    }
  }

  /** After any moves, reading the object gives one event at the last times. */
  lemma {:induction false} ParseAfterMoves(lib: ICalParse.TimeLib, e: Event, v: Version, edits: seq<Edit>)
    requires OneLine(e.id) && OneLine(e.orgEmail) && MIN_INT <= v.sequence <= MAX_INT
    requires edits != []
    requires var last := edits[|edits| - 1];
             ICalParse.FourDigitYears(Version(last.now, last.start, last.end, 0)) && last.end / SECOND != ICalParse.ZERO
    ensures var last := edits[|edits| - 1];
            ICalParse.Parsed(lib, RewrittenMany(Built(e, v), edits))
            == [ICalParse.IcsEvent(last.start / SECOND, last.end / SECOND, false, false)]
  {
    RewriteMany(e, v, edits);
    ICalParse.ParseBuilt(lib, e, After(v, edits));
  }
}
