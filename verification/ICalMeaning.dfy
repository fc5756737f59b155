/** What the VEVENT reader of internal/caldav/ics.go makes of an object, said of its lines: the
    last line of each kind decides. */
module ICalMeaning {
  import opened Text
  import opened ICal
  import opened ICalParse

  // ---------------------------------------------------------------- words

  predicate IsCapital(c: char) {
    'A' <= c <= 'Z'
  }

  /** The letter itself, or the same letter 32 places on. */
  predicate SameLetter(c: char, capital: char) {
    c == capital || (IsCapital(capital) && c as int == capital as int + 32)
  }

  ghost predicate Capitals(word: string) {
    forall i :: 0 <= i < |word| ==> IsCapital(word[i])
  }

  /** s is the word in some letter case. */
  predicate Spells(s: string, word: string) {
    |s| == |word| && forall i :: 0 <= i < |s| ==> SameLetter(s[i], word[i])
  }

  ghost predicate NoSmall(word: string) {
    forall i :: 0 <= i < |word| ==> !('a' <= word[i] <= 'z')
  }

  lemma EqualFoldSpells(s: string, word: string)
    requires NoSmall(word)
    ensures EqualFold(s, word) <==> Spells(s, word)
  {
    assert forall i :: 0 <= i < |word| ==> Upper(word)[i] == word[i];
    if EqualFold(s, word) {
      assert |s| == |word| && forall i :: 0 <= i < |s| ==> UpperChar(s[i]) == Upper(s)[i] == word[i];
    }
  }

  /** White space only outside s[i..j]. */
  ghost predicate SpaceAround(s: string, i: int, j: int) {
    && 0 <= i <= j <= |s|
    && (forall k :: 0 <= k < i ==> IsSpace(s[k])) && (forall k :: j <= k < |s| ==> IsSpace(s[k]))
  }

  /** s is the word in some letter case, with white space around it. */
  ghost predicate Says(s: string, word: string) {
    exists i, j :: SpaceAround(s, i, j) && Spells(s[i..j], word)
  }

  lemma {:induction false} TrimLeftAt(s: string, i: nat)
    requires i <= |s| && (forall k :: 0 <= k < i ==> IsSpace(s[k])) && (i < |s| ==> !IsSpace(s[i]))
    ensures TrimLeft(s) == s[i..]
  {
    if i > 0 {
      TrimLeftAt(s[1..], i - 1);
    }
  }

  lemma {:induction false} TrimRightAt(s: string, j: nat)
    requires j <= |s| && (forall k :: j <= k < |s| ==> IsSpace(s[k])) && (j > 0 ==> !IsSpace(s[j - 1]))
    ensures TrimRight(s) == s[..j]
    decreases |s|
  {
    if j < |s| {
      TrimRightAt(s[..|s| - 1], j);
      assert s[..|s| - 1][..j] == s[..j];
    } else {
      assert s[..j] == s;
    }
  }

  lemma {:induction false} FirstInk(s: string, n: nat) returns (i: nat)
    requires n <= |s| && forall k :: 0 <= k < n ==> IsSpace(s[k])
    ensures i <= |s| && (forall k :: 0 <= k < i ==> IsSpace(s[k])) && (i < |s| ==> !IsSpace(s[i]))
    decreases |s| - n
  {
    i := n;
    if n < |s| && IsSpace(s[n]) {
      i := FirstInk(s, n + 1);
    }
  }

  lemma {:induction false} LastInk(s: string, i: nat, n: nat) returns (j: nat)
    requires i <= n <= |s| && forall k :: n <= k < |s| ==> IsSpace(s[k])
    ensures i <= j <= |s| && (forall k :: j <= k < |s| ==> IsSpace(s[k])) && (j > i ==> !IsSpace(s[j - 1]))
    decreases n
  {
    j := n;
    if i < n && IsSpace(s[n - 1]) {
      j := LastInk(s, i, n - 1);
    }
  }

  /** strings.TrimSpace takes off exactly the white space around. */
  lemma TrimSpaceParts(s: string) returns (i: nat, j: nat)
    ensures SpaceAround(s, i, j) && TrimSpace(s) == s[i..j]
    ensures i < j ==> !IsSpace(s[i]) && !IsSpace(s[j - 1])
  {
    i := FirstInk(s, 0);
    j := LastInk(s, i, |s|);
    TrimLeftAt(s, i);
    var rest := s[i..];
    forall k | j - i <= k < |rest| ensures IsSpace(rest[k]) {
      assert rest[k] == s[i + k];
    }
    assert j > i ==> rest[j - i - 1] == s[j - 1];
    TrimRightAt(rest, j - i);
    assert rest[..j - i] == s[i..j];
  }

  lemma {:induction false} SaysExactly(s: string, word: string)
    requires Capitals(word) && word != ""
    ensures EqualFold(TrimSpace(s), word) <==> Says(s, word)
  {
    var i, j := TrimSpaceParts(s);
    EqualFoldSpells(s[i..j], word);
    if a, b :| SpaceAround(s, a, b) && Spells(s[a..b], word) {
      assert !IsSpace(s[a..b][0]) && !IsSpace(s[a..b][|word| - 1]);
      assert !IsSpace(s[a]) && !IsSpace(s[b - 1]);
      assert a == i && b == j;
    }
  }

  /** strings.Trim of quotes takes off exactly the quotes around. */
  lemma {:induction false} TrimQuotesParts(s: string) returns (i: nat, j: nat)
    ensures i <= j <= |s| && TrimQuotes(s) == s[i..j]
    ensures (forall k :: 0 <= k < i ==> s[k] == '"') && (forall k :: j <= k < |s| ==> s[k] == '"')
    ensures i < j ==> s[i] != '"' && s[j - 1] != '"'
    decreases |s|
  {
    i, j := 0, |s|;
    if s != "" && s[0] == '"' {
      i, j := TrimQuotesParts(s[1..]);
      assert s[1..][i..j] == s[i + 1..j + 1];
      i, j := i + 1, j + 1;
    } else if s != "" && s[|s| - 1] == '"' {
      i, j := TrimQuotesParts(s[..|s| - 1]);
      assert s[..|s| - 1][i..j] == s[i..j];
    }
  }

  /** A date and no time: by VALUE=DATE, or eight octets without a T. */
  predicate DateForm(params: map<string, string>, value: string) {
    || ("VALUE" in params && Spells(params["VALUE"], "DATE"))
    || (|value| == 8 && forall i :: 0 <= i < 8 ==> value[i] != 'T')
  }

  /** parseICSTime without the white space around: dates are dates, a trailing Z is UTC, anything
      else is a local time. */
  lemma {:induction false} TimeExactly(lib: TimeLib, params: map<string, string>, raw: string, t: int, isDate: bool)
    ensures exists i, j :: SpaceAround(raw, i, j) && (i < j ==> !IsSpace(raw[i]) && !IsSpace(raw[j - 1])) &&
              (ParseICSTime(lib, params, raw) == Some((t, isDate)) <==> ReadsAs(lib, params, raw[i..j], t, isDate))
  {
    var i, j := TrimSpaceParts(raw);
    if "VALUE" in params {
      EqualFoldSpells(params["VALUE"], "DATE");
    }
    assert !EqualFold("", "DATE") by { EqualFoldSpells("", "DATE"); }
    assert ParseICSTime(lib, params, raw) == Some((t, isDate)) <==> ReadsAs(lib, params, raw[i..j], t, isDate);
  }

  ghost predicate ReadsAs(lib: TimeLib, params: map<string, string>, value: string, t: int, isDate: bool) {
    && (isDate <==> DateForm(params, value))
    && Some(t) == if DateForm(params, value) then lib.date(value)
                  else if value == "" || value[|value| - 1] != 'Z' then lib.local(params, value)
                  else if IsBasicUTC(value) then ParseUTC(value)
                  else lib.zulu(value)
  }

  // ---------------------------------------------------------------- lines

  predicate Named(ln: string, name: string) {
    Spells(SplitLine(ln).name, name)
  }

  predicate Opens(ln: string) {
    Named(ln, "BEGIN") && Spells(SplitLine(ln).value, "VEVENT")
  }

  predicate Closes(ln: string) {
    Named(ln, "END") && Spells(SplitLine(ln).value, "VEVENT")
  }

  /** The last value given, or the default. */
  function LastGiven<T>(xs: seq<Option<T>>, default: T): (r: T) {
    if xs == [] then default
    else if xs[|xs| - 1].Some? then xs[|xs| - 1].value
    else LastGiven(xs[..|xs| - 1], default)
  }

  lemma {:induction false} LastGivenIsLast<T>(xs: seq<Option<T>>, default: T)
    ensures var r := LastGiven(xs, default);
            || (r == default && forall i :: 0 <= i < |xs| ==> xs[i].None?)
            || exists i :: 0 <= i < |xs| && xs[i] == Some(r) && forall j :: i < j < |xs| ==> xs[j].None?
  {
    if xs != [] && xs[|xs| - 1].None? {
      LastGivenIsLast(xs[..|xs| - 1], default);
    }
  }

  lemma LastGivenSnoc<T>(xs: seq<Option<T>>, x: Option<T>, default: T)
    ensures LastGiven(xs + [x], default) == if x.Some? then x.value else LastGiven(xs, default)
  {
    assert (xs + [x])[..|xs|] == xs;
  }

  /** Line i, if it has the name, says whether it is the word. */
  ghost function Flags(body: seq<string>, name: string, word: string): (r: seq<Option<bool>>) {
    seq(|body|, i requires 0 <= i < |body| => FlagGiven(body[i], name, word))
  }

  ghost function FlagGiven(ln: string, name: string, word: string): (r: Option<bool>) {
    if Named(ln, name) then Some(Says(SplitLine(ln).value, word)) else None
  }

  function TimeGiven(lib: TimeLib, ln: string, name: string): (r: Option<(int, bool)>) {
    if Named(ln, name) then ParseICSTime(lib, SplitLine(ln).params, SplitLine(ln).value) else None
  }

  /** The starts the lines give, each a date only or not. */
  ghost function Starts(lib: TimeLib, body: seq<string>): (r: seq<Option<(int, bool)>>) {
    seq(|body|, i requires 0 <= i < |body| => TimeGiven(lib, body[i], "DTSTART"))
  }

  ghost function StartOf(lib: TimeLib, body: seq<string>): (r: (int, bool)) {
    LastGiven(Starts(lib, body), (ZERO, false))
  }

  /** The end a line gives: outright, or as a duration from the start so far. */
  function EndGiven(lib: TimeLib, ln: string, start: int): (r: Option<int>) {
    if Named(ln, "DTEND") then
      match TimeGiven(lib, ln, "DTEND") case Some((t, _)) => Some(t) case None => None
    else if Named(ln, "DURATION") && start != ZERO then
      match lib.duration(SplitLine(ln).value) case Some(d) => Some(start + d) case None => None
    else None
  }

  ghost function Ends(lib: TimeLib, body: seq<string>): (r: seq<Option<int>>) {
    seq(|body|, i requires 0 <= i < |body| => EndGiven(lib, body[i], StartOf(lib, body[..i]).0))
  }

  ghost predicate Describes(lib: TimeLib, body: seq<string>, ev: IcsEvent, isDate: bool) {
    && (ev.start, isDate) == StartOf(lib, body)
    && ev.end == LastGiven(Ends(lib, body), ZERO)
    && ev.transparent == LastGiven(Flags(body, "TRANSP", "TRANSPARENT"), false)
    && ev.cancelled == LastGiven(Flags(body, "STATUS", "CANCELLED"), false)
  }

  /** The event of a VEVENT with these lines. Without an end it lasts a day from a date, and no
      time from an instant. */
  ghost predicate IsEvent(lib: TimeLib, body: seq<string>, ev: IcsEvent) {
    exists end, isDate :: Describes(lib, body, ev.(end := end), isDate)
      && ev.end == if end != ZERO || ev.start == ZERO then end else if isDate then ev.start + 86400 else ev.start
  }

  // ---------------------------------------------------------------- one more line

  lemma FlagsSnoc(body: seq<string>, ln: string, name: string, word: string)
    ensures LastGiven(Flags(body + [ln], name, word), false) ==
            if Named(ln, name) then Says(SplitLine(ln).value, word) else LastGiven(Flags(body, name, word), false)
  {
    assert Flags(body + [ln], name, word) == Flags(body, name, word) + [FlagGiven(ln, name, word)];
    LastGivenSnoc(Flags(body, name, word), FlagGiven(ln, name, word), false);
  }

  lemma StartsSnoc(lib: TimeLib, body: seq<string>, ln: string)
    ensures StartOf(lib, body + [ln]) ==
            if TimeGiven(lib, ln, "DTSTART").Some? then TimeGiven(lib, ln, "DTSTART").value else StartOf(lib, body)
  {
    assert Starts(lib, body + [ln]) == Starts(lib, body) + [TimeGiven(lib, ln, "DTSTART")];
    LastGivenSnoc(Starts(lib, body), TimeGiven(lib, ln, "DTSTART"), (ZERO, false));
  }

  lemma EndsSnoc(lib: TimeLib, body: seq<string>, ln: string)
    ensures var end := EndGiven(lib, ln, StartOf(lib, body).0);
            LastGiven(Ends(lib, body + [ln]), ZERO) == if end.Some? then end.value else LastGiven(Ends(lib, body), ZERO)
  {
    var more, end := body + [ln], EndGiven(lib, ln, StartOf(lib, body).0);
    assert more[..|body|] == body && forall i :: 0 <= i < |body| ==> more[..i] == body[..i];
    assert Ends(lib, more) == Ends(lib, body) + [end];
    LastGivenSnoc(Ends(lib, body), end, ZERO);
  }

  lemma KindIsName(name: string, word: string)
    requires NoSmall(word)
    ensures Upper(name) == word <==> Spells(name, word)
  {
    EqualFoldSpells(name, word);
    UpperSame(word);
  }

  ghost predicate KindNamed(ln: string, k: Kind) {
    && (k == Begin <==> Named(ln, "BEGIN")) && (k == End <==> Named(ln, "END"))
    && (k == DtStart <==> Named(ln, "DTSTART")) && (k == DtEnd <==> Named(ln, "DTEND"))
    && (k == Duration <==> Named(ln, "DURATION")) && (k == Transp <==> Named(ln, "TRANSP"))
    && (k == Status <==> Named(ln, "STATUS"))
  }

  /** The reader's kinds are the names in any letter case. */
  lemma KindsAreNames(ln: string)
    ensures KindNamed(ln, KindOf(Upper(SplitLine(ln).name)))
  {
    var name := SplitLine(ln).name;
    KindIsName(name, "BEGIN");
    KindIsName(name, "END");
    KindIsName(name, "DTSTART");
    KindIsName(name, "DTEND");
    KindIsName(name, "DURATION");
    KindIsName(name, "TRANSP");
    KindIsName(name, "STATUS");
  }

  /** What a line inside a VEVENT changes, by its name. */
  ghost predicate Changes(lib: TimeLib, ln: string, ev: IcsEvent, isDate: bool, ev': IcsEvent, isDate': bool) {
    var value, start, end := SplitLine(ln).value, TimeGiven(lib, ln, "DTSTART"), EndGiven(lib, ln, ev.start);
    && (ev'.start, isDate') == (if start.Some? then start.value else (ev.start, isDate))
    && ev'.end == (if end.Some? then end.value else ev.end)
    && ev'.transparent == (if Named(ln, "TRANSP") then Says(value, "TRANSPARENT") else ev.transparent)
    && ev'.cancelled == (if Named(ln, "STATUS") then Says(value, "CANCELLED") else ev.cancelled)
  }

  /** The same, by the kind of the line. */
  lemma PropertyChanges(lib: TimeLib, ln: string, k: Kind, ev: IcsEvent, isDate: bool)
    requires k == KindOf(Upper(SplitLine(ln).name)) && KindNamed(ln, k)
    ensures var (ev', isDate') := Property(lib, k, SplitLine(ln), ev, isDate);
            Changes(lib, ln, ev, isDate, ev', isDate')
  {
    SaysExactly(SplitLine(ln).value, "TRANSPARENT");
    SaysExactly(SplitLine(ln).value, "CANCELLED");
  }

  lemma LineChanges(lib: TimeLib, out: seq<IcsEvent>, ln: string, ev: IcsEvent, isDate: bool)
      returns (ev': IcsEvent, isDate': bool)
    requires !Opens(ln) && !Closes(ln)
    ensures ReadLine(lib, Reader(out, Some(ev), isDate), ln) == Reader(out, Some(ev'), isDate')
    ensures Changes(lib, ln, ev, isDate, ev', isDate')
  {
    var k := KindOf(Upper(SplitLine(ln).name));
    KindsAreNames(ln);
    EqualFoldSpells(SplitLine(ln).value, "VEVENT");
    PropertyChanges(lib, ln, k, ev, isDate);
    var p := Property(lib, k, SplitLine(ln), ev, isDate);
    ev', isDate' := p.0, p.1;
  }

  lemma DescribesSnoc(lib: TimeLib, body: seq<string>, ln: string, ev: IcsEvent, isDate: bool, ev': IcsEvent,
                      isDate': bool)
    requires Describes(lib, body, ev, isDate) && Changes(lib, ln, ev, isDate, ev', isDate')
    ensures Describes(lib, body + [ln], ev', isDate')
  {
    FlagsSnoc(body, ln, "TRANSP", "TRANSPARENT");
    FlagsSnoc(body, ln, "STATUS", "CANCELLED");
    StartsSnoc(lib, body, ln);
    EndsSnoc(lib, body, ln);
  }

  const BLANK := IcsEvent(ZERO, ZERO, false, false)

  ghost predicate Inside(body: seq<string>) {
    forall i :: 0 <= i < |body| ==> InnerLine(body[i])
  }

  // ---------------------------------------------------------------- reading one by one

  /** The state after reading the items in order. */
  ghost function Run<R, T>(read: (R, T) -> R, r: R, items: seq<T>): (r': R) {
    if items == [] then r else read(Run(read, r, items[..|items| - 1]), items[|items| - 1])
  }

  ghost predicate Kept<R(!new), T(!new)>(read: (R, T) -> R, good: T -> bool, inv: (seq<T>, R) -> bool) {
    forall items, r, x :: inv(items, r) && good(x) ==> inv(items + [x], read(r, x))
  }

  ghost predicate AllGood<T>(good: T -> bool, items: seq<T>) {
    forall i :: 0 <= i < |items| ==> good(items[i])
  }

  lemma {:induction false} RunKeeps<R(!new), T(!new)>(read: (R, T) -> R, good: T -> bool, inv: (seq<T>, R) -> bool,
                                                      r: R, items: seq<T>)
    requires Kept(read, good, inv) && inv([], r) && AllGood(good, items)
    ensures inv(items, Run(read, r, items))
    decreases |items|
  {
    if items != [] {
      var n := |items| - 1;
      RunKeeps(read, good, inv, r, items[..n]);
      assert items == items[..n] + [items[n]];
    } else {
      assert items == [];
    }
  }

  /** The same, from the front. */
  ghost function RunOn<R, T>(read: (R, T) -> R, r: R, items: seq<T>): (r': R) {
    if items == [] then r else RunOn(read, read(r, items[0]), items[1..])
  }

  lemma {:induction false} RunOnSnoc<R, T>(read: (R, T) -> R, r: R, items: seq<T>, x: T)
    ensures RunOn(read, r, items + [x]) == read(RunOn(read, r, items), x)
    decreases |items|
  {
    if items == [] {
      assert ([] + [x])[1..] == [];
    } else {
      assert (items + [x])[1..] == items[1..] + [x];
      RunOnSnoc(read, read(r, items[0]), items[1..], x);
    }
  }

  lemma {:induction false} RunOnIsRun<R, T>(read: (R, T) -> R, r: R, items: seq<T>)
    ensures RunOn(read, r, items) == Run(read, r, items)
    decreases |items|
  {
    if items != [] {
      var n := |items| - 1;
      RunOnIsRun(read, r, items[..n]);
      RunOnSnoc(read, r, items[..n], items[n]);
      assert items == items[..n] + [items[n]];
    }
  }

  ghost function LineReader(lib: TimeLib): (read: (Reader, string) -> Reader) {
    (r, ln) => ReadLine(lib, r, ln)
  }

  lemma {:induction false} ReadIsRunOn(lib: TimeLib, r: Reader, lines: seq<string>)
    ensures ReadLines(lib, r, lines) == RunOn(LineReader(lib), r, lines)
    decreases |lines|
  {
    if lines != [] {
      ReadIsRunOn(lib, ReadLine(lib, r, lines[0]), lines[1..]);
    }
  }

  /** The reader is inside a VEVENT with the lines so far. */
  ghost predicate Reading(lib: TimeLib, out: seq<IcsEvent>, body: seq<string>, r: Reader) {
    r.out == out && r.cur.Some? && Describes(lib, body, r.cur.value, r.startDate)
  }

  ghost predicate InnerLine(ln: string) {
    !Opens(ln) && !Closes(ln)
  }

  lemma LineKeeps(lib: TimeLib, out: seq<IcsEvent>, body: seq<string>, r: Reader, ln: string)
    requires Reading(lib, out, body, r) && InnerLine(ln)
    ensures Reading(lib, out, body + [ln], ReadLine(lib, r, ln))
  {
    var ev, isDate := LineChanges(lib, out, ln, r.cur.value, r.startDate);
    DescribesSnoc(lib, body, ln, r.cur.value, r.startDate, ev, isDate);
  }

  lemma NothingRead(lib: TimeLib, out: seq<IcsEvent>)
    ensures Reading(lib, out, [], Reader(out, Some(BLANK), false))
  {
  }

  /** The lines of one VEVENT, read from its opening on. */
  lemma BodyDescribed(lib: TimeLib, out: seq<IcsEvent>, body: seq<string>)
    requires Inside(body)
    ensures Reading(lib, out, body, ReadLines(lib, Reader(out, Some(BLANK), false), body))
  {
    var read, r0 := LineReader(lib), Reader(out, Some(BLANK), false);
    var inv := (lines, r) => Reading(lib, out, lines, r);
    var good := (ln: string) => InnerLine(ln);
    forall lines, r, ln | inv(lines, r) && good(ln) ensures inv(lines + [ln], read(r, ln)) {
      LineKeeps(lib, out, lines, r, ln);
    }
    NothingRead(lib, out);
    RunKeeps(read, good, inv, r0, body);
    ReadIsRunOn(lib, r0, body);
    RunOnIsRun(read, r0, body);
  }

  lemma ReadOne(lib: TimeLib, r: Reader, ln: string)
    ensures ReadLines(lib, r, [ln]) == ReadLine(lib, r, ln)
  {
    assert [ln][1..] == [];
  }

  // ---------------------------------------------------------------- whole objects

  /** A VEVENT and the lines before it. */
  datatype Block = Block(pre: seq<string>, open: string, body: seq<string>, close: string)

  /** No line opens a VEVENT. */
  predicate Outside(lines: seq<string>) {
    lines == [] || (!Opens(lines[0]) && Outside(lines[1..]))
  }

  ghost predicate GoodBlock(b: Block) {
    Outside(b.pre) && Opens(b.open) && Inside(b.body) && Closes(b.close)
  }

  ghost predicate GoodBlocks(blocks: seq<Block>) {
    forall i :: 0 <= i < |blocks| ==> GoodBlock(blocks[i])
  }

  function Lines(b: Block): (r: seq<string>) {
    b.pre + ([b.open] + (b.body + [b.close]))
  }

  function AllLines(blocks: seq<Block>): (r: seq<string>) {
    if blocks == [] then [] else AllLines(blocks[..|blocks| - 1]) + Lines(blocks[|blocks| - 1])
  }

  lemma {:induction false} ReadOutside(lib: TimeLib, out: seq<IcsEvent>, startDate: bool, lines: seq<string>)
    requires Outside(lines)
    ensures ReadLines(lib, Reader(out, None, startDate), lines) == Reader(out, None, startDate)
    decreases |lines|
  {
    if lines != [] {
      KindsAreNames(lines[0]);
      EqualFoldSpells(SplitLine(lines[0]).value, "VEVENT");
      ReadOutside(lib, out, startDate, lines[1..]);
    }
  }

  lemma OpensAndCloses(lib: TimeLib, out: seq<IcsEvent>, startDate: bool, open: string, ev: IcsEvent, close: string)
    requires Opens(open) && Closes(close)
    ensures ReadLine(lib, Reader(out, None, startDate), open) == Reader(out, Some(BLANK), false)
    ensures ReadLine(lib, Reader(out, Some(ev), startDate), close)
         == Reader(out + [Finished(ev, startDate)], None, startDate)
  {
    KindsAreNames(open);
    KindsAreNames(close);
    EqualFoldSpells(SplitLine(open).value, "VEVENT");
    EqualFoldSpells(SplitLine(close).value, "VEVENT");
  }

  lemma {:induction false} BlockRead(lib: TimeLib, out: seq<IcsEvent>, startDate: bool, b: Block)
      returns (ev: IcsEvent, isDate: bool)
    requires GoodBlock(b)
    ensures ReadLines(lib, Reader(out, None, startDate), Lines(b)) == Reader(out + [ev], None, isDate)
    ensures IsEvent(lib, b.body, ev)
  {
    var r0 := Reader(out, None, startDate);
    ReadOutside(lib, out, startDate, b.pre);
    ReadConcat(lib, r0, b.pre, [b.open] + (b.body + [b.close]));
    OpensAndCloses(lib, out, startDate, b.open, BLANK, b.close);
    ReadConcat(lib, r0, [b.open], b.body + [b.close]);
    ReadOne(lib, r0, b.open);
    ReadConcat(lib, Reader(out, Some(BLANK), false), b.body, [b.close]);
    BodyDescribed(lib, out, b.body);
    var r := ReadLines(lib, Reader(out, Some(BLANK), false), b.body);
    var cur := r.cur.value;
    isDate := r.startDate;
    OpensAndCloses(lib, out, isDate, b.open, cur, b.close);
    ReadOne(lib, Reader(out, Some(cur), isDate), b.close);
    ev := Finished(cur, isDate);
    assert ev.(end := cur.end) == cur;
  }

  ghost predicate EventsOf(lib: TimeLib, blocks: seq<Block>, events: seq<IcsEvent>) {
    |events| == |blocks| && forall i :: 0 <= i < |blocks| ==> IsEvent(lib, blocks[i].body, events[i])
  }

  ghost function BlockReader(lib: TimeLib): (read: (Reader, Block) -> Reader) {
    (r, b) => ReadLines(lib, r, Lines(b))
  }

  lemma {:induction false} ReadBlocksIsRun(lib: TimeLib, r: Reader, blocks: seq<Block>)
    ensures ReadLines(lib, r, AllLines(blocks)) == Run(BlockReader(lib), r, blocks)
    decreases |blocks|
  {
    if blocks != [] {
      var n := |blocks| - 1;
      ReadBlocksIsRun(lib, r, blocks[..n]);
      ReadConcat(lib, r, AllLines(blocks[..n]), Lines(blocks[n]));
    }
  }

  /** The reader is outside any VEVENT, with the events of the blocks so far. */
  ghost predicate Between(lib: TimeLib, blocks: seq<Block>, r: Reader) {
    r.cur.None? && EventsOf(lib, blocks, r.out)
  }

  lemma BlockKeeps(lib: TimeLib, blocks: seq<Block>, r: Reader, b: Block)
    requires Between(lib, blocks, r) && GoodBlock(b)
    ensures Between(lib, blocks + [b], ReadLines(lib, r, Lines(b)))
  {
    var ev, isDate := BlockRead(lib, r.out, r.startDate, b);
    EventsSnoc(lib, blocks, b, r.out, ev);
  }

  lemma BlocksRead(lib: TimeLib, blocks: seq<Block>)
    requires GoodBlocks(blocks)
    ensures Between(lib, blocks, ReadLines(lib, Reader([], None, false), AllLines(blocks)))
  {
    var read, r0 := BlockReader(lib), Reader([], None, false);
    var inv := (bs, r) => Between(lib, bs, r);
    var good := (b: Block) => GoodBlock(b);
    forall bs, r, b | inv(bs, r) && good(b) ensures inv(bs + [b], read(r, b)) {
      BlockKeeps(lib, bs, r, b);
    }
    RunKeeps(read, good, inv, r0, blocks);
    ReadBlocksIsRun(lib, r0, blocks);
  }

  lemma EventsSnoc(lib: TimeLib, blocks: seq<Block>, last: Block, events: seq<IcsEvent>, ev: IcsEvent)
    requires EventsOf(lib, blocks, events) && IsEvent(lib, last.body, ev)
    ensures EventsOf(lib, blocks + [last], events + [ev])
  {
  }

  /** An object whose lines are VEVENTs with anything around them reads as one event per VEVENT, in
      order. In each the last STATUS and the last TRANSP decide, the last readable DTSTART gives the
      start, and the last readable DTEND or DURATION after a start the end. */
  lemma ParsedIsDescribed(lib: TimeLib, data: string, blocks: seq<Block>, post: seq<string>)
    requires GoodBlocks(blocks) && Outside(post)
    requires Unfolded(data) == AllLines(blocks) + post
    ensures EventsOf(lib, blocks, Parsed(lib, data))
  {
    BlocksRead(lib, blocks);
    var r := ReadLines(lib, Reader([], None, false), AllLines(blocks));
    ReadConcat(lib, Reader([], None, false), AllLines(blocks), post);
    ReadOutside(lib, r.out, r.startDate, post);
  }
}
