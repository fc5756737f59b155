/** What the lines of a printed object say, field by field (internal/caldav/events.go,
    internal/caldav/ics.go). */
module ICalFields {
  import opened Text
  import opened ICal
  import opened ICalParse

  // ---------------------------------------------------------------- parameters

  lemma ParamOfOne(part: string)
    ensures ParamsOf([part], map[]) ==
            var eq := IndexOf(part, '=');
            if eq < |part| then map[Upper(part[..eq]) := TrimQuotes(part[eq + 1..])] else map[]
  {
  }

  /** A head of one parameter, split at the semicolon. */
  lemma {:induction false} HeadWithParam(name: string, part: string)
    requires ';' !in name && ';' !in part
    ensures Split(name + ([';'] + part), ';') == [name, part]
  {
    SplitAt(name, ';', part);
    assert Split(part, ';') == [part];
  }

  lemma {:induction false} ParamWithKey(key: string, param: string)
    requires '=' !in key
    ensures ParamsOf([key + (['='] + param)], map[]) == map[Upper(key) := TrimQuotes(param)]
  {
    var part := key + (['='] + param);
    IndexOfAt(key, '=', param);
    assert part[..|key|] == key && part[|key| + 1..] == param;
    ParamOfOne(part);
  }

  lemma {:induction false} SplitAtColon(head: string, value: string)
    requires ':' !in head
    ensures var parts := Split(head, ';');
            SplitLine(head + ([':'] + value)) == Line(parts[0], ParamsOf(parts[1..], map[]), value)
  {
    var ln := head + ([':'] + value);
    IndexOfAt(head, ':', value);
    assert ln[..|head|] == head && ln[|head| + 1..] == value;
  }

  /** One parameter between the name and the value. */
  lemma SplitWithParam(name: string, key: string, param: string, value: string)
    requires ':' !in name && ';' !in name && ':' !in key && ';' !in key && '=' !in key
    requires ':' !in param && ';' !in param
    ensures SplitLine(name + ([';'] + (key + (['='] + param))) + ([':'] + value)) ==
            Line(name, map[Upper(key) := TrimQuotes(param)], value)
  {
    var part := key + (['='] + param);
    HeadWithParam(name, part);
    ParamWithKey(key, param);
    SplitAtColon(name + ([';'] + part), value);
    assert [name, part][1..] == [part];
  }

  // ---------------------------------------------------------------- what a printed object says

  /** Name and value of a line. */
  function PairOf(line: string): (r: (string, string)) {
    (SplitLine(line).name, SplitLine(line).value)
  }

  function Pairs(lines: seq<string>): (r: seq<(string, string)>) {
    seq(|lines|, i requires 0 <= i < |lines| => PairOf(lines[i]))
  }

  lemma PairsConcat(a: seq<string>, b: seq<string>)
    ensures Pairs(a + b) == Pairs(a) + Pairs(b)
  {
  }

  lemma PropPair(name: string, value: string)
    requires ':' !in name && ';' !in name
    ensures PairOf(Prop(name, value)) == (name, value)
  {
    SplitSimple(name, value);
  }

  function Heading(e: Event): (r: seq<(string, string)>) {
    [("BEGIN", "VCALENDAR"), ("VERSION", "2.0"), ("PRODID", "-//Calnode//Booking//EN"), ("CALSCALE", "GREGORIAN"),
     ("METHOD", "REQUEST"), ("BEGIN", "VEVENT"), ("UID", e.id + "@calnode")]
  }

  function Timing(v: Version): (r: seq<(string, string)>) {
    [("DTSTAMP", IcsUTC(v.stamp)), ("DTSTART", IcsUTC(v.start)), ("DTEND", IcsUTC(v.end))]
  }

  function Optional(name: string, text: string): (r: seq<(string, string)>) {
    if text == "" then [] else [(name, EscapeText(text))]
  }

  function Ending(v: Version): (r: seq<(string, string)>) {
    [("SEQUENCE", FormatInt(v.sequence)), ("STATUS", "CONFIRMED"), ("END", "VEVENT"), ("END", "VCALENDAR")]
  }

  lemma ThreePairs(a: string, b: string, c: string, va: string, vb: string, vc: string)
    requires ':' !in a && ';' !in a && ':' !in b && ';' !in b && ':' !in c && ';' !in c
    ensures Pairs([Prop(a, va), Prop(b, vb), Prop(c, vc)]) == [(a, va), (b, vb), (c, vc)]
  {
    PropPair(a, va);
    PropPair(b, vb);
    PropPair(c, vc);
  }

  lemma OnePair(name: string, value: string)
    requires ':' !in name && ';' !in name
    ensures Pairs([Prop(name, value)]) == [(name, value)]
  {
    PropPair(name, value);
  }

  lemma CalendarPairs()
    ensures Pairs([Prop("BEGIN", "VCALENDAR"), Prop("VERSION", "2.0"), Prop("PRODID", "-//Calnode//Booking//EN")]) ==
            [("BEGIN", "VCALENDAR"), ("VERSION", "2.0"), ("PRODID", "-//Calnode//Booking//EN")]
  {
    ThreePairs("BEGIN", "VERSION", "PRODID", "VCALENDAR", "2.0", "-//Calnode//Booking//EN");
  }

  lemma EventPairs()
    ensures Pairs([Prop("CALSCALE", "GREGORIAN"), Prop("METHOD", "REQUEST"), Prop("BEGIN", "VEVENT")]) ==
            [("CALSCALE", "GREGORIAN"), ("METHOD", "REQUEST"), ("BEGIN", "VEVENT")]
  {
    ThreePairs("CALSCALE", "METHOD", "BEGIN", "GREGORIAN", "REQUEST", "VEVENT");
  }

  lemma HeadPairs(e: Event)
    ensures Pairs(HeadLines(e)) == Heading(e)
  {
    var a := [Prop("BEGIN", "VCALENDAR"), Prop("VERSION", "2.0"), Prop("PRODID", "-//Calnode//Booking//EN")];
    var b := [Prop("CALSCALE", "GREGORIAN"), Prop("METHOD", "REQUEST"), Prop("BEGIN", "VEVENT")];
    var c := [Prop("UID", e.id + "@calnode")];
    assert HeadLines(e) == a + b + c;
    CalendarPairs();
    EventPairs();
    OnePair("UID", e.id + "@calnode");
    PairsConcat(a + b, c);
    PairsConcat(a, b);
  }

  lemma TimePairs(v: Version)
    ensures Pairs(TimeLines(v)) == Timing(v)
  {
    ThreePairs("DTSTAMP", "DTSTART", "DTEND", IcsUTC(v.stamp), IcsUTC(v.start), IcsUTC(v.end));
  }

  lemma TailPairs(v: Version)
    ensures Pairs(TailLines(v)) == Ending(v)
  {
    PropPair("SEQUENCE", FormatInt(v.sequence));
    PropPair("STATUS", "CONFIRMED");
    PropPair("END", "VEVENT");
    PropPair("END", "VCALENDAR");
  }

  lemma OptionalPairs(name: string, text: string)
    requires ':' !in name && ';' !in name
    ensures Pairs(if text == "" then [] else [Prop(name, EscapeText(text))]) == Optional(name, text)
  {
    PropPair(name, EscapeText(text));
  }

  // ---------------------------------------------------------------- the organizer

  lemma {:induction false} EscapeKeepsColons(s: string)
    ensures ':' in EscapeText(s) <==> ':' in s
    decreases |s|
  {
    if s != "" {
      var rest := if |s| > 1 && s[0] == '\r' && s[1] == '\n' then s[2..] else s[1..];
      EscapeKeepsColons(rest);
      assert s == s[..|s| - |rest|] + rest;
      assert EscapeText(s) == EscapeText(s)[..|EscapeText(s)| - |EscapeText(rest)|] + EscapeText(rest);
    }
  }

  lemma {:induction false} ValueAtColon(head: string, value: string)
    ensures SplitLine(head + ([':'] + value)).value == value <==> ':' !in head
  {
    var ln := head + ([':'] + value);
    assert ln[|head|] == ':';
    if ':' in head {
      var colon := IndexOf(ln, ':');
      var i :| 0 <= i < |head| && head[i] == ':';
      assert ln[i] == ':';
      assert colon <= i;
      assert |SplitLine(ln).value| == |ln| - colon - 1 > |value|;
    } else {
      SplitAtColon(head, value);
    }
  }

  /** ORGANIZER with the name as a parameter. */
  lemma NamedOrganizer(cn: string, value: string)
    ensures PairOf("ORGANIZER" + (";" + Prop("CN=" + cn, value))) == ("ORGANIZER", value) <==> ':' !in cn
  {
    var head := "ORGANIZER;CN=" + cn;
    var line := "ORGANIZER" + (";" + Prop("CN=" + cn, value));
    assert line == head + ([':'] + value);
    ValueAtColon(head, value);
    assert ':' in head <==> ':' in cn;
    assert Prop("CN=" + cn, value)[|"CN=" + cn|] == ':';
    SplitNamed("ORGANIZER", Prop("CN=" + cn, value));
  }

  /** The organizer line names the address if and only if the name in it holds no colon. */
  lemma OrganizerExactly(e: Event)
    ensures PairOf(OrganizerLine(e)) == ("ORGANIZER", "mailto:" + e.orgEmail) <==> ':' !in e.orgName
  {
    if e.orgName == "" {
      PropPair("ORGANIZER", "mailto:" + e.orgEmail);
    } else {
      EscapeKeepsColons(e.orgName);
      NamedOrganizer(EscapeText(e.orgName), "mailto:" + e.orgEmail);
    }
  }

  function Organizer(e: Event): (r: seq<(string, string)>) {
    if e.orgEmail == "" then [] else [PairOf(OrganizerLine(e))]
  }

  // ---------------------------------------------------------------- the whole object

  lemma TextPairs(e: Event)
    ensures Pairs(TextLines(e)) ==
            [("SUMMARY", EscapeText(e.summary))] + Optional("DESCRIPTION", e.description)
            + Optional("LOCATION", e.location) + Organizer(e)
  {
    var a := [Prop("SUMMARY", EscapeText(e.summary))];
    var b := if e.description == "" then [] else [Prop("DESCRIPTION", EscapeText(e.description))];
    var c := if e.location == "" then [] else [Prop("LOCATION", EscapeText(e.location))];
    var d := if e.orgEmail == "" then [] else [OrganizerLine(e)];
    PropPair("SUMMARY", EscapeText(e.summary));
    OptionalPairs("DESCRIPTION", e.description);
    OptionalPairs("LOCATION", e.location);
    PairsConcat(a + b + c, d);
    PairsConcat(a + b, c);
    PairsConcat(a, b);
  }

  /** What a calendar program finds in an event, in order: each value under its own name. The
      organizer is as OrganizerExactly says. */
  function Shown(e: Event, v: Version): (r: seq<(string, string)>) {
    Heading(e) + Timing(v)
    + ([("SUMMARY", EscapeText(e.summary))] + Optional("DESCRIPTION", e.description)
       + Optional("LOCATION", e.location) + Organizer(e))
    + Ending(v)
  }

  /** An unfolded printed object shows exactly that, for any summary, description and location. */
  lemma {:induction false} PrintedFields(e: Event, v: Version)
    requires OneLine(e.id) && OneLine(e.orgEmail)
    ensures Pairs(Unfolded(Built(e, v))) == Shown(e, v)
  {
    UnfoldBuilt(e, v);
    HeadPairs(e);
    TimePairs(v);
    TextPairs(e);
    TailPairs(v);
    PairsConcat(HeadLines(e) + TimeLines(v) + TextLines(e), TailLines(v));
    PairsConcat(HeadLines(e) + TimeLines(v), TextLines(e));
    PairsConcat(HeadLines(e), TimeLines(v));
  }

  function PlainText(name: string, text: string): (r: seq<(string, string)>) {
    if text == "" then [] else [(name, OneBreak(text))]
  }

  /** The texts of an event under their names. */
  function Texts(e: Event): (r: seq<(string, string)>) {
    [("SUMMARY", OneBreak(e.summary))] + PlainText("DESCRIPTION", e.description) + PlainText("LOCATION", e.location)
  }

  /** After the ten lines of heading and times come the texts: unescaping the values gives them back
      under their names, up to the spelling of line breaks. */
  lemma {:induction false} PrintedTexts(e: Event, v: Version, i: nat)
    requires OneLine(e.id) && OneLine(e.orgEmail) && i < |Texts(e)|
    ensures var shown := Pairs(Unfolded(Built(e, v)));
            && 10 + i < |shown| && shown[10 + i].0 == Texts(e)[i].0
            && UnescapeText(shown[10 + i].1) == Texts(e)[i].1
  {
    PrintedFields(e, v);
    var texts := [("SUMMARY", EscapeText(e.summary))] + Optional("DESCRIPTION", e.description)
                 + Optional("LOCATION", e.location);
    assert Shown(e, v)[10 + i] == texts[i];
    EscapeRoundTrip(e.summary);
    EscapeRoundTrip(e.description);
    EscapeRoundTrip(e.location);
  }
}
