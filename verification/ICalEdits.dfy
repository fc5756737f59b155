/** What rewriteEventTimes does to any object whatsoever, line by line (internal/caldav/events.go). */
module ICalEdits {
  import opened Decimal
  import opened Text
  import opened ICal
  import opened ICalRewrite
  import ICalMeaning
  import ICalParse

  // ---------------------------------------------------------------- the names it knows

  lemma {:induction false} UpperKeepsName(line: string)
    ensures PropName(Upper(line)) == Upper(PropName(line))
  {
    var u := Upper(line);
    FirstUnique(u, ':', IndexOf(u, ':'), IndexOf(line, ':'));
    FirstUnique(u, ';', IndexOf(u, ';'), IndexOf(line, ';'));
  }

  predicate NameIs(line: string, name: string) {
    ICalMeaning.Spells(PropName(line), name)
  }

  lemma HeadIsName(line: string, name: string)
    requires ICalMeaning.NoSmall(name)
    ensures PropName(Upper(line)) == name <==> NameIs(line, name)
  {
    UpperKeepsName(line);
    ICalMeaning.EqualFoldSpells(PropName(line), name);
    ICalParse.UpperSame(name);
  }

  /** The rewriter acts on these seven names, in any letter case. */
  lemma HeadsAreNames(line: string)
    ensures HeadIn(line) == DtStart <==> NameIs(line, "DTSTART")
    ensures HeadIn(line) == DtEnd <==> NameIs(line, "DTEND")
    ensures HeadIn(line) == Duration <==> NameIs(line, "DURATION")
    ensures HeadIn(line) == DtStamp <==> NameIs(line, "DTSTAMP")
    ensures HeadIn(line) == LastModified <==> NameIs(line, "LAST-MODIFIED")
    ensures HeadIn(line) == Sequence <==> NameIs(line, "SEQUENCE")
    ensures HeadIn(line) == End <==> NameIs(line, "END")
  {
    HeadIsName(line, "DTSTART");
    HeadIsName(line, "DTEND");
    HeadIsName(line, "DURATION");
    HeadIsName(line, "DTSTAMP");
    HeadIsName(line, "LAST-MODIFIED");
    HeadIsName(line, "SEQUENCE");
    HeadIsName(line, "END");
  }

  /** An END line closes a VEVENT when its value says so. */
  lemma EndsVEventExactly(line: string)
    ensures EndsVEvent(line) <==> ICalMeaning.Says(PropValue(line), "VEVENT")
  {
    ICalMeaning.SaysExactly(PropValue(line), "VEVENT");
  }

  // ---------------------------------------------------------------- lines by name

  /** The non-empty lines with one of these heads, in order. */
  function Sel(head: string -> Head, lines: seq<string>, heads: set<Head>): (r: seq<string>) {
    if lines == [] then []
    else One(head, lines[0], heads) + Sel(head, lines[1..], heads)
  }

  function One(head: string -> Head, line: string, heads: set<Head>): (r: seq<string>) {
    if line != "" && head(line) in heads then [line] else []
  }

  lemma {:induction false} SelConcat(head: string -> Head, a: seq<string>, b: seq<string>, heads: set<Head>)
    ensures Sel(head, a + b, heads) == Sel(head, a, heads) + Sel(head, b, heads)
    decreases |a|
  {
    if a == [] {
      assert a + b == b;
    } else {
      assert (a + b)[1..] == a[1..] + b;
      SelConcat(head, a[1..], b, heads);
    }
  }

  lemma SelOne(head: string -> Head, line: string, heads: set<Head>)
    ensures Sel(head, [line], heads) == One(head, line, heads)
  {
    assert [line][1..] == [];
  }

  lemma SelTwo(head: string -> Head, a: string, b: string, heads: set<Head>)
    ensures Sel(head, [a, b], heads) == One(head, a, heads) + One(head, b, heads)
  {
    assert [a, b] == [a] + [b];
    SelConcat(head, [a], [b], heads);
    SelOne(head, a, heads);
    SelOne(head, b, heads);
  }

  /** The lines the rewriter writes itself. */
  function NewLine(h: Head, edit: Edit): (r: string) {
    match h
    case DtStart => Prop("DTSTART", IcsUTC(edit.start))
    case DtEnd => Prop("DTEND", IcsUTC(edit.end))
    case DtStamp => Prop("DTSTAMP", IcsUTC(edit.now))
    case LastModified => Prop("LAST-MODIFIED", IcsUTC(edit.now))
    case _ => ""
  }

  function SequenceLine(n: string): (r: string) {
    Prop("SEQUENCE", n)
  }

  /** The heads whose lines it replaces. */
  predicate Replaces(h: Head) {
    h == DtStart || h == DtEnd || h == DtStamp || h == LastModified
  }

  /** They have the heads they stand for. */
  ghost predicate Fits(head: string -> Head, edit: Edit) {
    && (forall h :: Replaces(h) ==>
          NewLine(h, edit) != "" && head(NewLine(h, edit)) == h)
    && (forall n :: SequenceLine(n) != "" && head(SequenceLine(n)) == Sequence)
  }

  lemma StartHead(value: string)
    ensures HeadIn(Prop("DTSTART", value)) == DtStart
  {
    PropHead("DTSTART", value);
  }

  lemma EndHead(value: string)
    ensures HeadIn(Prop("DTEND", value)) == DtEnd
  {
    PropHead("DTEND", value);
  }

  lemma StampHead(value: string)
    ensures HeadIn(Prop("DTSTAMP", value)) == DtStamp
  {
    PropHead("DTSTAMP", value);
  }

  lemma ModifiedHead(value: string)
    ensures HeadIn(Prop("LAST-MODIFIED", value)) == LastModified
  {
    PropHead("LAST-MODIFIED", value);
  }

  lemma SequenceHead(value: string)
    ensures HeadIn(SequenceLine(value)) == Sequence
  {
    PropHead("SEQUENCE", value);
  }

  lemma HeadInFits(edit: Edit)
    ensures Fits(HeadIn, edit)
  {
    StartHead(IcsUTC(edit.start));
    EndHead(IcsUTC(edit.end));
    StampHead(IcsUTC(edit.now));
    ModifiedHead(IcsUTC(edit.now));
    forall n ensures HeadIn(SequenceLine(n)) == Sequence {
      SequenceHead(n);
    }
  }

  // ---------------------------------------------------------------- what becomes of a line

  /** The line written for a head, in place of the given line. */
  type Writer = (Head, string) -> string

  function NewLines(edit: Edit): (written: Writer) {
    (h, line) => if h == Sequence then SequenceLine(FormatInt(SeqPlusOne(line))) else NewLine(h, edit)
  }

  /** What is left of a line under the heads. */
  function Piece(h: Head, line: string, written: Writer, sawSeq: bool, heads: set<Head>): (r: seq<string>) {
    match h
    case Duration => []
    case Sequence => if Sequence in heads then [written(Sequence, line)] else []
    case End =>
      (if EndsVEvent(line) && !sawSeq && Sequence in heads then [SequenceLine("1")] else [])
      + (if End in heads then [line] else [])
    case Other => if Other in heads then [line] else []
    case _ => if h in heads then [written(h, "")] else []
  }

  lemma PieceOf(head: string -> Head, line: string, edit: Edit, sawSeq: bool, heads: set<Head>)
    requires line != "" && Fits(head, edit)
    ensures Sel(head, RewriteAs(head(line), line, edit, sawSeq), heads) ==
            Piece(head(line), line, NewLines(edit), sawSeq, heads)
  {
    var h := head(line);
    match h
    case Duration =>
    case Sequence => SelOne(head, SequenceLine(FormatInt(SeqPlusOne(line))), heads);
    case End =>
      SelOne(head, line, heads);
      SelTwo(head, SequenceLine("1"), line, heads);
    case Other => SelOne(head, line, heads);
    case _ => SelOne(head, NewLine(h, edit), heads);
  }

  // ---------------------------------------------------------------- what becomes of the lines

  function FirstPiece(head: string -> Head, line: string, written: Writer, sawSeq: bool, heads: set<Head>)
    : (r: seq<string>)
  {
    if line == "" then [] else Piece(head(line), line, written, sawSeq, heads)
  }

  function SeenAfter(head: string -> Head, line: string, sawSeq: bool): (r: bool) {
    if line == "" then sawSeq else SeqSeen(head(line), line, sawSeq)
  }

  lemma SelStep(head: string -> Head, lines: seq<string>, edit: Edit, sawSeq: bool, heads: set<Head>)
    requires lines != [] && Fits(head, edit)
    ensures Sel(head, RewriteLines(head, lines, edit, sawSeq), heads) ==
            FirstPiece(head, lines[0], NewLines(edit), sawSeq, heads)
            + Sel(head, RewriteLines(head, lines[1..], edit, SeenAfter(head, lines[0], sawSeq)), heads)
  {
    var line, seen := lines[0], SeenAfter(head, lines[0], sawSeq);
    if line != "" {
      PieceOf(head, line, edit, sawSeq, heads);
      SelConcat(head, RewriteAs(head(line), line, edit, sawSeq), RewriteLines(head, lines[1..], edit, seen), heads);
    }
  }

  /** The pieces of all the lines. */
  function Pieces(head: string -> Head, lines: seq<string>, written: Writer, sawSeq: bool, heads: set<Head>)
    : (r: seq<string>)
  {
    if lines == [] then []
    else FirstPiece(head, lines[0], written, sawSeq, heads)
         + Pieces(head, lines[1..], written, SeenAfter(head, lines[0], sawSeq), heads)
  }

  lemma {:induction false} SelIsPieces(head: string -> Head, lines: seq<string>, edit: Edit, sawSeq: bool,
                                       heads: set<Head>)
    requires Fits(head, edit)
    ensures Sel(head, RewriteLines(head, lines, edit, sawSeq), heads) ==
            Pieces(head, lines, NewLines(edit), sawSeq, heads)
    decreases |lines|
  {
    if lines != [] {
      SelStep(head, lines, edit, sawSeq, heads);
      SelIsPieces(head, lines[1..], edit, SeenAfter(head, lines[0], sawSeq), heads);
    }
  }

  lemma {:induction false} KeptLines(head: string -> Head, lines: seq<string>, written: Writer, sawSeq: bool)
    ensures Pieces(head, lines, written, sawSeq, {Other, End}) == Sel(head, lines, {Other, End})
    decreases |lines|
  {
    if lines != [] {
      KeptLines(head, lines[1..], written, SeenAfter(head, lines[0], sawSeq));
      assert FirstPiece(head, lines[0], written, sawSeq, {Other, End}) == One(head, lines[0], {Other, End});
    }
  }

  function Copies(line: string, n: nat): (r: seq<string>) {
    if n == 0 then [] else [line] + Copies(line, n - 1)
  }

  lemma ReplacedOne(head: string -> Head, line: string, written: Writer, sawSeq: bool, h: Head)
    requires Replaces(h)
    ensures FirstPiece(head, line, written, sawSeq, {h}) == Copies(written(h, ""), |One(head, line, {h})|)
  {
    OneMoreCopy(written(h, ""), 0);
  }

  lemma {:induction false} ReplacedLines(head: string -> Head, lines: seq<string>, written: Writer,
                                         sawSeq: bool, h: Head)
    requires Replaces(h)
    ensures Pieces(head, lines, written, sawSeq, {h}) == Copies(written(h, ""), |Sel(head, lines, {h})|)
    decreases |lines|
  {
    if lines != [] {
      var seen := SeenAfter(head, lines[0], sawSeq);
      ReplacedLines(head, lines[1..], written, seen, h);
      ReplacedOne(head, lines[0], written, sawSeq, h);
      CopiesAdd(written(h, ""), |One(head, lines[0], {h})|, |Sel(head, lines[1..], {h})|);
    }
  }

  lemma {:induction false} CopiesAdd(line: string, n: nat, m: nat)
    ensures Copies(line, n) + Copies(line, m) == Copies(line, n + m)
  {
    if n > 0 {
      CopiesAdd(line, n - 1, m);
    }
  }

  lemma OneMoreCopy(line: string, n: nat)
    ensures [line] + Copies(line, n) == Copies(line, n + 1) && [] + Copies(line, n) == Copies(line, n)
  {
  }

  lemma {:induction false} DroppedLines(head: string -> Head, lines: seq<string>, written: Writer, sawSeq: bool)
    ensures Pieces(head, lines, written, sawSeq, {Duration}) == []
    decreases |lines|
  {
    if lines != [] {
      DroppedLines(head, lines[1..], written, SeenAfter(head, lines[0], sawSeq));
      assert FirstPiece(head, lines[0], written, sawSeq, {Duration}) == [];
    }
  }

  function Bumped(written: Writer, lines: seq<string>): (r: seq<string>) {
    if lines == [] then [] else [written(Sequence, lines[0])] + Bumped(written, lines[1..])
  }

  function FirstNumber(there: bool): (r: seq<string>) {
    if there then [SequenceLine("1")] else []
  }

  /** A VEVENT closes before any SEQUENCE line. */
  predicate ClosesFirst(head: string -> Head, lines: seq<string>) {
    if lines == [] then false
    else if lines[0] == "" then ClosesFirst(head, lines[1..])
    else if head(lines[0]) == End && EndsVEvent(lines[0]) then true
    else head(lines[0]) != Sequence && ClosesFirst(head, lines[1..])
  }

  lemma BumpedFirst(written: Writer, line: string, rest: seq<string>)
    ensures Bumped(written, [line] + rest) == [written(Sequence, line)] + Bumped(written, rest)
  {
    assert ([line] + rest)[1..] == rest;
  }

  /** A closing line writes the first number; other lines leave it to the rest. */
  lemma NumberBefore(head: string -> Head, line: string, written: Writer, sawSeq: bool)
    requires line == "" || head(line) != Sequence
    ensures var closes := line != "" && head(line) == End && EndsVEvent(line);
            && FirstPiece(head, line, written, sawSeq, {Sequence}) == FirstNumber(closes && !sawSeq)
            && SeenAfter(head, line, sawSeq) == (sawSeq || closes)
  {
  }

  lemma NumberOf(head: string -> Head, line: string, written: Writer, sawSeq: bool)
    requires line != "" && head(line) == Sequence
    ensures FirstPiece(head, line, written, sawSeq, {Sequence}) == [written(Sequence, line)]
    ensures SeenAfter(head, line, sawSeq) && One(head, line, {Sequence}) == [line]
  {
  }

  /** The sequence numbers the rewriter leaves. */
  function Numbers(head: string -> Head, lines: seq<string>, written: Writer, sawSeq: bool): (r: seq<string>) {
    FirstNumber(!sawSeq && ClosesFirst(head, lines)) + Bumped(written, Sel(head, lines, {Sequence}))
  }

  lemma NumbersAt(head: string -> Head, lines: seq<string>, written: Writer, sawSeq: bool)
    requires lines != [] && lines[0] != "" && head(lines[0]) == Sequence
    ensures FirstPiece(head, lines[0], written, sawSeq, {Sequence})
            + Numbers(head, lines[1..], written, SeenAfter(head, lines[0], sawSeq)) ==
            Numbers(head, lines, written, sawSeq)
  {
    NumberOf(head, lines[0], written, sawSeq);
    BumpedFirst(written, lines[0], Sel(head, lines[1..], {Sequence}));
  }

  lemma NumbersBefore(head: string -> Head, lines: seq<string>, written: Writer, sawSeq: bool)
    requires lines != [] && (lines[0] == "" || head(lines[0]) != Sequence)
    ensures FirstPiece(head, lines[0], written, sawSeq, {Sequence})
            + Numbers(head, lines[1..], written, SeenAfter(head, lines[0], sawSeq)) ==
            Numbers(head, lines, written, sawSeq)
  {
    var line, rest := lines[0], lines[1..];
    NumberBefore(head, line, written, sawSeq);
    NoneOf(head, line, rest);
    FirstNumbers(line != "" && head(line) == End && EndsVEvent(line), sawSeq, ClosesFirst(head, rest),
                 Bumped(written, Sel(head, rest, {Sequence})));
  }

  lemma {:induction false} SequenceLines(head: string -> Head, lines: seq<string>, written: Writer,
                                         sawSeq: bool)
    ensures Pieces(head, lines, written, sawSeq, {Sequence}) == Numbers(head, lines, written, sawSeq)
    decreases |lines|
  {
    if lines != [] {
      SequenceLines(head, lines[1..], written, SeenAfter(head, lines[0], sawSeq));
      if lines[0] != "" && head(lines[0]) == Sequence {
        NumbersAt(head, lines, written, sawSeq);
      } else {
        NumbersBefore(head, lines, written, sawSeq);
      }
    }
  }

  lemma NoneOf(head: string -> Head, line: string, rest: seq<string>)
    requires line == "" || head(line) != Sequence
    ensures One(head, line, {Sequence}) + Sel(head, rest, {Sequence}) == Sel(head, rest, {Sequence})
  {
  }

  lemma FirstNumbers(closes: bool, sawSeq: bool, later: bool, more: seq<string>)
    ensures FirstNumber(closes && !sawSeq) + (FirstNumber(!(sawSeq || closes) && later) + more) ==
            FirstNumber(!sawSeq && (closes || later)) + more
  {
  }

  /** Of any object the rewriter keeps every line with another name, and the order of those lines;
      it gives every start, end and stamp the new value, drops durations, and counts up every
      sequence number, writing the first one if a VEVENT closes without. */
  lemma RewriteOfAny(lines: seq<string>, edit: Edit)
    ensures var r := RewriteLines(HeadIn, lines, edit, false);
            && Sel(HeadIn, r, {Other, End}) == Sel(HeadIn, lines, {Other, End})
            && (forall h :: Replaces(h) ==>
                  Sel(HeadIn, r, {h}) == Copies(NewLine(h, edit), |Sel(HeadIn, lines, {h})|))
            && Sel(HeadIn, r, {Duration}) == []
            && Sel(HeadIn, r, {Sequence}) ==
               FirstNumber(ClosesFirst(HeadIn, lines)) + Bumped(NewLines(edit), Sel(HeadIn, lines, {Sequence}))
  {
    HeadInFits(edit);
    SelIsPieces(HeadIn, lines, edit, false, {Other, End});
    KeptLines(HeadIn, lines, NewLines(edit), false);
    forall h | Replaces(h)
      ensures Sel(HeadIn, RewriteLines(HeadIn, lines, edit, false), {h}) ==
              Copies(NewLine(h, edit), |Sel(HeadIn, lines, {h})|)
    {
      SelIsPieces(HeadIn, lines, edit, false, {h});
      ReplacedLines(HeadIn, lines, NewLines(edit), false, h);
    }
    SelIsPieces(HeadIn, lines, edit, false, {Duration});
    DroppedLines(HeadIn, lines, NewLines(edit), false);
    SelIsPieces(HeadIn, lines, edit, false, {Sequence});
    SequenceLines(HeadIn, lines, NewLines(edit), false);
  }
}
