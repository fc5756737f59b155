/** The string helpers the iCalendar code leans on. A string is a sequence of octets, one
    per char; case mapping and white space are those of ASCII. */
module Text {
  datatype Option<+T> = None | Some(value: T)

  const CRLF: string := "\r\n"

  function UpperChar(c: char): (r: char) {
    if 'a' <= c <= 'z' then (c as int - 32) as char else c
  }

  /** strings.ToUpper */
  function Upper(s: string): (r: string)
    ensures |r| == |s| && forall i :: 0 <= i < |s| ==> r[i] == UpperChar(s[i])
  {
    seq(|s|, i requires 0 <= i < |s| => UpperChar(s[i]))
  }

  /** strings.EqualFold */
  predicate EqualFold(a: string, b: string) {
    Upper(a) == Upper(b)
  }

  predicate IsSpace(c: char) {
    c == ' ' || c == '\t' || c == '\n' || c == '\r' || c == 11 as char || c == 12 as char
  }

  /** Tab, line feed, vertical tab, form feed, carriage return and space. */
  lemma SpacesExactly(c: char)
    ensures IsSpace(c) <==> 9 <= c as int <= 13 || c as int == 32
  {
  }

  function TrimLeft(s: string): (r: string) {
    if s != "" && IsSpace(s[0]) then TrimLeft(s[1..]) else s
  }

  function TrimRight(s: string): (r: string) {
    if s != "" && IsSpace(s[|s| - 1]) then TrimRight(s[..|s| - 1]) else s
  }

  /** strings.TrimSpace */
  function TrimSpace(s: string): (r: string) {
    TrimRight(TrimLeft(s))
  }

  /** i is where c first occurs in s, or |s| if it does not. */
  predicate IsFirst(s: string, c: char, i: int) {
    0 <= i <= |s| && (i < |s| ==> s[i] == c) && forall k :: 0 <= k < i ==> s[k] != c
  }

  lemma {:induction false} FirstExists(s: string, c: char, n: nat)
    requires n <= |s| && forall k :: 0 <= k < n ==> s[k] != c
    ensures exists i :: 0 <= i <= |s| && IsFirst(s, c, i)
    decreases |s| - n
  {
    if n == |s| || s[n] == c {
      assert IsFirst(s, c, n);
    } else {
      FirstExists(s, c, n + 1);
    }
  }

  lemma FirstUnique(s: string, c: char, i: int, j: int)
    requires IsFirst(s, c, i) && IsFirst(s, c, j)
    ensures i == j
  {
  }

  /** strings.IndexByte, with |s| for "not there". */
  function IndexOf(s: string, c: char): (i: nat)
    ensures IsFirst(s, c, i) && c !in s[..i]
  {
    FirstExists(s, c, 0);
    var i :| 0 <= i <= |s| && IsFirst(s, c, i);
    i
  }

  /** strings.Split on one octet: always at least one part. */
  function Split(s: string, c: char): (parts: seq<string>)
    ensures parts != []
    decreases |s|
  {
    var i := IndexOf(s, c);
    if i == |s| then [s] else [s[..i]] + Split(s[i + 1..], c)
  }

  /** strings.ReplaceAll(s, "\r\n", "\n") */
  function ReplaceCRLF(s: string): (r: string) {
    if |s| < 2 then s
    else if s[0] == '\r' && s[1] == '\n' then "\n" + ReplaceCRLF(s[2..])
    else [s[0]] + ReplaceCRLF(s[1..])
  }

  /** Each line followed by CRLF. */
  function Lines(lines: seq<string>): (r: string) {
    if lines == [] then "" else lines[0] + (CRLF + Lines(lines[1..]))
  }

  /** strings.Join(lines, "\r\n") */
  function JoinCRLF(lines: seq<string>): (r: string) {
    if lines == [] then ""
    else if |lines| == 1 then lines[0]
    else lines[0] + (CRLF + JoinCRLF(lines[1..]))
  }

  ghost predicate OneLine(s: string) {
    '\n' !in s
  }

  lemma {:induction false} IndexOfAt(a: string, c: char, b: string)
    requires c !in a
    ensures IndexOf(a + ([c] + b), c) == |a|
  {
    FirstUnique(a + ([c] + b), c, IndexOf(a + ([c] + b), c), |a|);
  }

  lemma {:induction false} SplitAt(a: string, c: char, b: string)
    requires c !in a
    ensures Split(a + ([c] + b), c) == [a] + Split(b, c)
  {
    var s := a + ([c] + b);
    IndexOfAt(a, c, b);
    assert s[..|a|] == a && s[|a| + 1..] == b;
  }

  lemma {:induction false} ReplaceLine(l: string, rest: string)
    requires OneLine(l)
    ensures ReplaceCRLF(l + (CRLF + rest)) == l + ("\n" + ReplaceCRLF(rest))
  {
    if l == "" {
      assert l + (CRLF + rest) == CRLF + rest;
    } else {
      var tail := l[1..] + (CRLF + rest);
      ReplaceLine(l[1..], rest);
      assert l + (CRLF + rest) == [l[0]] + tail;
      assert tail[0] != '\n';
      assert l + ("\n" + ReplaceCRLF(rest)) == [l[0]] + (l[1..] + ("\n" + ReplaceCRLF(rest)));
    }
  }

  /** Reading back what was written line by line. */
  lemma {:induction false} SplitLines(lines: seq<string>)
    requires forall i :: 0 <= i < |lines| ==> OneLine(lines[i])
    ensures Split(ReplaceCRLF(Lines(lines)), '\n') == lines + [""]
  {
    if lines == [] {
      assert Lines(lines) == "";
    } else {
      SplitLines(lines[1..]);
      ReplaceLine(lines[0], Lines(lines[1..]));
      SplitAt(lines[0], '\n', ReplaceCRLF(Lines(lines[1..])));
      assert lines + [""] == [lines[0]] + (lines[1..] + [""]);
    }
  }

  lemma {:induction false} SplitHasNone(s: string, c: char)
    ensures forall i :: 0 <= i < |Split(s, c)| ==> c !in Split(s, c)[i]
    decreases |s|
  {
    var i := IndexOf(s, c);
    if i == |s| {
      assert s == s[..i];
    } else {
      SplitHasNone(s[i + 1..], c);
    }
  }

  lemma {:induction false} LinesConcat(a: seq<string>, b: seq<string>)
    ensures Lines(a + b) == Lines(a) + Lines(b)
  {
    if a == [] {
      assert a + b == b;
    } else {
      assert (a + b)[1..] == a[1..] + b;
      LinesConcat(a[1..], b);
      assert a[0] + (CRLF + (Lines(a[1..]) + Lines(b))) == a[0] + (CRLF + Lines(a[1..])) + Lines(b);
    }
  }

  lemma {:induction false} JoinIsLines(lines: seq<string>)
    requires lines != []
    ensures JoinCRLF(lines) + CRLF == Lines(lines)
  {
    if |lines| == 1 {
      assert Lines(lines[1..]) == "";
      assert Lines(lines) == lines[0] + (CRLF + "");
    } else {
      JoinIsLines(lines[1..]);
      assert JoinCRLF(lines) + CRLF == lines[0] + (CRLF + (JoinCRLF(lines[1..]) + CRLF));
    }
  }
}
