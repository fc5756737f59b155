/** The iCalendar printer of internal/caldav/events.go and the unfolding of
    internal/caldav/ics.go: content lines (section 3.1 of RFC 5545) and TEXT values
    (section 3.3.11 of RFC 5545). */
module ICal {
  import opened Decimal
  import opened CivilTime
  import opened Text

  const SECOND: int := 1_000_000_000

  // ---------------------------------------------------------------- times

  /** 20060102T150405Z */
  function FormatUTC(t: nat): (s: string) {
    var c := ToCivil(t);
    Pad(c.year, 4) + Pad(c.month, 2) + Pad(c.day, 2) + "T"
      + Pad(c.hour, 2) + Pad(c.minute, 2) + Pad(c.second, 2) + "Z"
  }

  /** icsUTC: the instant, in nanoseconds, to the second. */
  function IcsUTC(ns: nat): (s: string) {
    FormatUTC(ns / SECOND)
  }

  lemma IcsUTCShape(ns: nat)
    ensures |IcsUTC(ns)| == 16 && OneLine(IcsUTC(ns))
    ensures forall i :: 0 <= i < 16 ==> IcsUTC(ns)[i] != ':' && IcsUTC(ns)[i] != ';' && !IsSpace(IcsUTC(ns)[i])
    ensures IcsUTC(ns)[15] == 'Z'
  {
    var s := IcsUTC(ns);
    assert forall i :: 0 <= i < 16 && i != 8 && i != 15 ==> IsDigit(s[i]);
    assert s[8] == 'T';
  }

  // ---------------------------------------------------------------- text values

  /** escapeText: backslash, semicolon, comma; CRLF, LF and CR all become \n. */
  function EscapeText(s: string): (r: string) {
    if s == "" then ""
    else if s[0] == '\\' then "\\\\" + EscapeText(s[1..])
    else if s[0] == ';' then "\\;" + EscapeText(s[1..])
    else if s[0] == ',' then "\\," + EscapeText(s[1..])
    else if |s| > 1 && s[0] == '\r' && s[1] == '\n' then "\\n" + EscapeText(s[2..])
    else if s[0] == '\n' || s[0] == '\r' then "\\n" + EscapeText(s[1..])
    else [s[0]] + EscapeText(s[1..])
  }

  /** Section 3.3.11 of RFC 5545, read backwards: what an escaped value stands for. */
  function UnescapeText(s: string): (r: string) {
    if |s| < 2 then s
    else if s[0] == '\\' && (s[1] == '\\' || s[1] == ';' || s[1] == ',') then [s[1]] + UnescapeText(s[2..])
    else if s[0] == '\\' && (s[1] == 'n' || s[1] == 'N') then "\n" + UnescapeText(s[2..])
    else [s[0]] + UnescapeText(s[1..])
  }

  /** Every kind of line break as one LF. */
  function OneBreak(s: string): (r: string) {
    if s == "" then ""
    else if |s| > 1 && s[0] == '\r' && s[1] == '\n' then "\n" + OneBreak(s[2..])
    else (if s[0] == '\r' then "\n" else [s[0]]) + OneBreak(s[1..])
  }

  lemma UnescapeEscaped(c: char, rest: string)
    ensures c == '\\' || c == ';' || c == ',' ==> UnescapeText(['\\', c] + rest) == [c] + UnescapeText(rest)
    ensures UnescapeText("\\n" + rest) == "\n" + UnescapeText(rest)
    ensures c != '\\' ==> UnescapeText([c] + rest) == [c] + UnescapeText(rest)
  {
    assert (['\\', c] + rest)[2..] == ("\\n" + rest)[2..] == ([c] + rest)[1..] == rest;
  }

  /** Nothing but the spelling of line breaks is lost. */
  lemma {:induction false} EscapeRoundTrip(s: string)
    ensures UnescapeText(EscapeText(s)) == OneBreak(s)
    decreases |s|
  {
    if s != "" {
      var rest := if |s| > 1 && s[0] == '\r' && s[1] == '\n' then s[2..] else s[1..];
      EscapeRoundTrip(rest);
      UnescapeEscaped(s[0], EscapeText(rest));
    }
  }

  lemma {:induction false} EscapedIsOneLine(s: string)
    ensures OneLine(EscapeText(s))
    decreases |s|
  {
    if s != "" {
      if |s| > 1 && s[0] == '\r' && s[1] == '\n' {
        EscapedIsOneLine(s[2..]);
      } else {
        EscapedIsOneLine(s[1..]);
      }
    }
  }

  // ---------------------------------------------------------------- folding

  const LIMIT: nat := 73

  /** The physical lines of a content line. */
  function Chunks(line: string): (chunks: seq<string>)
    ensures chunks != []
  {
    if |line| <= 75 then [line] else [line[..LIMIT]] + Continuations(line[LIMIT..])
  }

  function Continuations(rest: string): (chunks: seq<string>)
    decreases |rest|
  {
    if rest == "" then []
    else
      var n := if |rest| < LIMIT then |rest| else LIMIT;
      [" " + rest[..n]] + Continuations(rest[n..])
  }

  /** foldLine: the physical lines joined by CRLF. */
  method FoldLine(line: string) returns (out: string)
    ensures out == JoinCRLF(Chunks(line))
  {
    if |line| <= 75 {
      return line;
    }
    out := line[..LIMIT];
    var rest := line[LIMIT..];
    ghost var done := [out];
    assert done + Continuations(rest) == Chunks(line);
    while |rest| > 0
      invariant done != [] && out == JoinCRLF(done)
      invariant done + Continuations(rest) == Chunks(line)
      decreases |rest|
    {
      var n := LIMIT;
      if |rest| < n { n := |rest|; }
      out := out + "\r\n ";
      out := out + rest[..n];
      JoinSnoc(done, " " + rest[..n]);
      assert CRLF + (" " + rest[..n]) == "\r\n " + rest[..n];
      done := done + [" " + rest[..n]];
      rest := rest[n..];
    }
    assert done + [] == done;
  }

  lemma {:induction false} JoinSnoc(lines: seq<string>, l: string)
    requires lines != []
    ensures JoinCRLF(lines + [l]) == JoinCRLF(lines) + (CRLF + l)
  {
    if |lines| == 1 {
      assert (lines + [l])[1..] == [l];
    } else {
      assert (lines + [l])[1..] == lines[1..] + [l];
      JoinSnoc(lines[1..], l);
    }
  }

  lemma {:induction false} ContinuationsShape(rest: string)
    ensures forall i :: 0 <= i < |Continuations(rest)| ==>
      var c := Continuations(rest)[i];
      2 <= |c| <= LIMIT + 1 && c[0] == ' ' && forall j :: 0 < j < |c| ==> c[j] in rest
    decreases |rest|
  {
    if rest != "" {
      var n := if |rest| < LIMIT then |rest| else LIMIT;
      ContinuationsShape(rest[n..]);
      assert forall x :: x in rest[n..] ==> x in rest;
    }
  }

  /** Folding: lines of at most 75 octets, with no new octets but the leading spaces. */
  lemma {:induction false} ChunksShape(line: string, i: nat)
    requires i < |Chunks(line)|
    ensures |Chunks(line)[i]| <= 75
    ensures i > 0 ==> Chunks(line)[i] != "" && Chunks(line)[i][0] == ' '
    ensures line != "" ==> Chunks(line)[0] != "" && Chunks(line)[0][0] == line[0]
    ensures OneLine(line) ==> OneLine(Chunks(line)[i])
  {
    if |line| > 75 {
      ContinuationsShape(line[LIMIT..]);
      assert forall x :: x in line[LIMIT..] ==> x in line;
    }
  }

  // ---------------------------------------------------------------- unfolding

  /** One step of unfold: skip an empty line, continue the last one, or start a new one. */
  function UnfoldStep(out: seq<string>, ln: string): (out': seq<string>) {
    if ln == "" then out
    else if (ln[0] == ' ' || ln[0] == '\t') && out != [] then
      out[|out| - 1 := out[|out| - 1] + ln[1..]]
    else out + [ln]
  }

  function UnfoldFrom(out: seq<string>, raw: seq<string>): (r: seq<string>)
    decreases |raw|
  {
    if raw == [] then out else UnfoldFrom(UnfoldStep(out, raw[0]), raw[1..])
  }

  function Unfolded(data: string): (r: seq<string>) {
    UnfoldFrom([], Split(ReplaceCRLF(data), '\n'))
  }

  /** unfold */
  method Unfold(data: string) returns (out: seq<string>)
    ensures out == Unfolded(data)
  {
    var raw := Split(ReplaceCRLF(data), '\n');
    out := [];
    assert raw[0..] == raw;
    for i := 0 to |raw|
      invariant UnfoldFrom(out, raw[i..]) == Unfolded(data)
    {
      var ln := raw[i];
      assert raw[i..][1..] == raw[i + 1..];
      if ln == "" {
        continue;
      }
      if (ln[0] == ' ' || ln[0] == '\t') && |out| > 0 {
        out := out[|out| - 1 := out[|out| - 1] + ln[1..]];
        continue;
      }
      out := out + [ln];
    }
    assert raw[|raw|..] == [];
  }

  lemma {:induction false} UnfoldConcat(out: seq<string>, a: seq<string>, b: seq<string>)
    ensures UnfoldFrom(out, a + b) == UnfoldFrom(UnfoldFrom(out, a), b)
    decreases |a|
  {
    if a == [] {
      assert a + b == b;
    } else {
      assert (a + b)[1..] == a[1..] + b;
      UnfoldConcat(UnfoldStep(out, a[0]), a[1..], b);
    }
  }

  lemma {:induction false} UnfoldContinuations(out: seq<string>, l: string, rest: string)
    ensures UnfoldFrom(out + [l], Continuations(rest)) == out + [l + rest]
    decreases |rest|
  {
    if rest == "" {
      assert l + rest == l;
    } else {
      var n := if |rest| < LIMIT then |rest| else LIMIT;
      var c := " " + rest[..n];
      assert c[1..] == rest[..n];
      assert (out + [l])[|out| := l + rest[..n]] == out + [l + rest[..n]];
      assert UnfoldStep(out + [l], c) == out + [l + rest[..n]];
      UnfoldContinuations(out, l + rest[..n], rest[n..]);
      assert l + rest[..n] + rest[n..] == l + rest;
      assert Continuations(rest)[1..] == Continuations(rest[n..]);
    }
  }

  /** A line a content line may be: it does not look like a continuation. */
  ghost predicate Plain(line: string) {
    line != "" && line[0] != ' ' && line[0] != '\t'
  }

  /** Unfolding undoes folding. */
  lemma {:induction false} UnfoldChunks(out: seq<string>, line: string)
    requires Plain(line)
    ensures UnfoldFrom(out, Chunks(line)) == out + [line]
  {
    if |line| <= 75 {
      assert [line][1..] == [];
      assert UnfoldFrom(out + [line], []) == out + [line];
    } else {
      assert Chunks(line)[1..] == Continuations(line[LIMIT..]);
      UnfoldContinuations(out, line[..LIMIT], line[LIMIT..]);
      assert line[..LIMIT] + line[LIMIT..] == line;
    }
  }

  /** All the physical lines of an object. */
  function Physical(lines: seq<string>): (r: seq<string>) {
    if lines == [] then [] else Chunks(lines[0]) + Physical(lines[1..])
  }

  lemma {:induction false} PhysicalOneLine(lines: seq<string>)
    requires forall i :: 0 <= i < |lines| ==> OneLine(lines[i])
    ensures forall i :: 0 <= i < |Physical(lines)| ==> OneLine(Physical(lines)[i])
  {
    if lines != [] {
      PhysicalOneLine(lines[1..]);
      forall i | 0 <= i < |Chunks(lines[0])| ensures OneLine(Chunks(lines[0])[i]) {
        ChunksShape(lines[0], i);
      }
    }
  }

  lemma {:induction false} PhysicalAtMost75(lines: seq<string>)
    ensures forall i :: 0 <= i < |Physical(lines)| ==> |Physical(lines)[i]| <= 75
  {
    if lines != [] {
      PhysicalAtMost75(lines[1..]);
      forall i | 0 <= i < |Chunks(lines[0])| ensures |Chunks(lines[0])[i]| <= 75 {
        ChunksShape(lines[0], i);
      }
    }
  }

  lemma {:induction false} UnfoldOne(out: seq<string>, line: string, rest: seq<string>)
    requires Plain(line)
    ensures UnfoldFrom(out, Chunks(line) + rest) == UnfoldFrom(out + [line], rest)
  {
    UnfoldConcat(out, Chunks(line), rest);
    UnfoldChunks(out, line);
  }

  function Flat(chunks: string -> seq<string>, lines: seq<string>): (r: seq<string>) {
    if lines == [] then [] else chunks(lines[0]) + Flat(chunks, lines[1..])
  }

  lemma {:induction false} PhysicalIsFlat(lines: seq<string>)
    ensures Physical(lines) == Flat(Chunks, lines)
  {
    if lines != [] {
      PhysicalIsFlat(lines[1..]);
    }
  }

  /** If every line's pieces are read back as the line, so are the pieces of all lines. */
  lemma {:induction false} ReadBackAll(read: (seq<string>, seq<string>) -> seq<string>, chunks: string -> seq<string>,
                                       out: seq<string>, lines: seq<string>, rest: seq<string>)
    requires forall o, l, r :: Plain(l) ==> read(o, chunks(l) + r) == read(o + [l], r)
    requires forall i :: 0 <= i < |lines| ==> Plain(lines[i])
    ensures read(out, Flat(chunks, lines) + rest) == read(out + lines, rest)
    decreases |lines|
  {
    if lines == [] {
      assert out + lines == out && Flat(chunks, lines) + rest == rest;
    } else {
      var more := Flat(chunks, lines[1..]);
      assert Flat(chunks, lines) + rest == chunks(lines[0]) + (more + rest);
      ReadBackAll(read, chunks, out + [lines[0]], lines[1..], rest);
      assert out + [lines[0]] + lines[1..] == out + lines;
    }
  }

  lemma {:induction false} UnfoldPhysical(out: seq<string>, lines: seq<string>, rest: seq<string>)
    requires forall i :: 0 <= i < |lines| ==> Plain(lines[i])
    ensures UnfoldFrom(out, Physical(lines) + rest) == UnfoldFrom(out + lines, rest)
  {
    PhysicalIsFlat(lines);
    forall o, l, r | Plain(l) ensures UnfoldFrom(o, Chunks(l) + r) == UnfoldFrom(o + [l], r) {
      UnfoldOne(o, l, r);
    }
    ReadBackAll(UnfoldFrom, Chunks, out, lines, rest);
  }

  /** The text of an object: its physical lines, each ended by CRLF. */
  function Render(lines: seq<string>): (r: string) {
    Lines(Physical(lines))
  }

  lemma {:induction false} UnfoldRender(lines: seq<string>)
    requires forall i :: 0 <= i < |lines| ==> Plain(lines[i]) && OneLine(lines[i])
    ensures Unfolded(Render(lines)) == lines
  {
    PhysicalOneLine(lines);
    SplitLines(Physical(lines));
    UnfoldPhysical([], lines, [""]);
    assert [] + lines == lines;
    assert [""][1..] == [];
    assert UnfoldFrom(lines, [""]) == UnfoldFrom(lines, []);
  }

  lemma {:induction false} UnfoldKeepsOneLine(out: seq<string>, raw: seq<string>)
    requires forall i :: 0 <= i < |out| ==> OneLine(out[i])
    requires forall i :: 0 <= i < |raw| ==> OneLine(raw[i])
    ensures forall i :: 0 <= i < |UnfoldFrom(out, raw)| ==> OneLine(UnfoldFrom(out, raw)[i])
    decreases |raw|
  {
    if raw != [] {
      UnfoldKeepsOneLine(UnfoldStep(out, raw[0]), raw[1..]);
    }
  }

  // ---------------------------------------------------------------- the object

  /** What buildICS is given besides the times. */
  datatype Event = Event(id: string, summary: string, description: string, location: string,
                         orgName: string, orgEmail: string)

  /** The times and number that change over an event's life, in nanoseconds. */
  datatype Version = Version(stamp: nat, start: nat, end: nat, sequence: int)

  function FormatInt(n: int): (s: string) {
    if n < 0 then "-" + Itoa(-n) else Itoa(n)
  }

  /** A minus sign exactly for negative numbers, then the digits. */
  lemma FormatIntExactly(n: int)
    ensures n >= 0 ==> AllDigits(FormatInt(n)) && Value(FormatInt(n)) == n
    ensures n < 0 ==> FormatInt(n)[0] == '-' && AllDigits(FormatInt(n)[1..]) && Value(FormatInt(n)[1..]) == -n
  {
    ValueOfItoa(if n < 0 then -n else n);
  }

  /** A content line without parameters. */
  function Prop(name: string, value: string): (s: string) {
    name + (":" + value)
  }

  function OrganizerLine(e: Event): (s: string) {
    if e.orgName == "" then Prop("ORGANIZER", "mailto:" + e.orgEmail)
    else "ORGANIZER" + (";" + Prop("CN=" + EscapeText(e.orgName), "mailto:" + e.orgEmail))
  }

  function Preamble(): (r: seq<string>) {
    [Prop("BEGIN", "VCALENDAR"), Prop("VERSION", "2.0"), Prop("PRODID", "-//Calnode//Booking//EN"),
     Prop("CALSCALE", "GREGORIAN"), Prop("METHOD", "REQUEST")]
  }

  function HeadLines(e: Event): (r: seq<string>) {
    Preamble() + [Prop("BEGIN", "VEVENT"), Prop("UID", e.id + "@calnode")]
  }

  function TimeLines(v: Version): (r: seq<string>) {
    [Prop("DTSTAMP", IcsUTC(v.stamp)), Prop("DTSTART", IcsUTC(v.start)), Prop("DTEND", IcsUTC(v.end))]
  }

  function TextLines(e: Event): (r: seq<string>) {
    [Prop("SUMMARY", EscapeText(e.summary))]
      + (if e.description == "" then [] else [Prop("DESCRIPTION", EscapeText(e.description))])
      + (if e.location == "" then [] else [Prop("LOCATION", EscapeText(e.location))])
      + (if e.orgEmail == "" then [] else [OrganizerLine(e)])
  }

  function TailLines(v: Version): (r: seq<string>) {
    [Prop("SEQUENCE", FormatInt(v.sequence)), Prop("STATUS", "CONFIRMED"),
     Prop("END", "VEVENT"), Prop("END", "VCALENDAR")]
  }

  /** The content lines buildICS writes. */
  function ContentLines(e: Event, v: Version): (r: seq<string>) {
    HeadLines(e) + TimeLines(v) + TextLines(e) + TailLines(v)
  }

  function Built(e: Event, v: Version): (r: string) {
    Render(ContentLines(e, v))
  }

  method WriteText(e: Event) returns (lines: seq<string>)
    ensures lines == TextLines(e)
  {
    lines := [Prop("SUMMARY", EscapeText(e.summary))];
    if e.description != "" {
      lines := lines + [Prop("DESCRIPTION", EscapeText(e.description))];
    }
    if e.location != "" {
      lines := lines + [Prop("LOCATION", EscapeText(e.location))];
    }
    if e.orgEmail != "" {
      var org := "ORGANIZER";
      if e.orgName != "" {
        org := org + (";CN=" + EscapeText(e.orgName));
        assert ";CN=" == ";" + "CN=";
      }
      assert Prop(org, "mailto:" + e.orgEmail) == OrganizerLine(e);
      lines := lines + [Prop(org, "mailto:" + e.orgEmail)];
    }
  }

  /** buildICS */
  method BuildICS(e: Event, v: Version) returns (out: string)
    ensures out == Built(e, v)
  {
    var text := WriteText(e);
    out := WriteAll(HeadLines(e) + TimeLines(v) + text + TailLines(v));
  }

  /** The writer: every line folded and ended by CRLF. */
  method WriteAll(lines: seq<string>) returns (out: string)
    ensures out == Render(lines)
  {
    out := "";
    for i := 0 to |lines|
      invariant out == Render(lines[..i])
    {
      var folded := FoldLine(lines[i]);
      PhysicalSnoc(lines[..i], lines[i]);
      JoinIsLines(Chunks(lines[i]));
      LinesConcat(Physical(lines[..i]), Chunks(lines[i]));
      out := out + folded;
      out := out + "\r\n";
      assert lines[..i + 1] == lines[..i] + [lines[i]];
    }
    assert lines[..|lines|] == lines;
  }

  lemma {:induction false} PhysicalSnoc(lines: seq<string>, l: string)
    ensures Physical(lines + [l]) == Physical(lines) + Chunks(l)
  {
    if lines == [] {
      assert lines + [l] == [l] && [l][1..] == [];
      assert Chunks(l) + [] == Chunks(l);
    } else {
      assert (lines + [l])[1..] == lines[1..] + [l];
      PhysicalSnoc(lines[1..], l);
    }
  }
}
