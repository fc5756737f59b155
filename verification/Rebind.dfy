/** The placeholder rewriter of internal/db/rebind.go.

    A query is a sequence of octets, one per char. The grammar of the tokens (quoted
    runs, line comments, nested block comments, placeholders, plain code) is stated
    declaratively first; the scanner of the source is then proved to compute the one
    tokenisation that the grammar allows. */
module Rebind {
  import opened Decimal

  // ---------------------------------------------------------------- grammar

  datatype Token = Code(text: string) | Mark | Verbatim(text: string)

  predicate IsQuote(c: char) {
    c == '\'' || c == '"' || c == '`'
  }

  predicate Opens(s: string, j: int) {
    0 <= j && j + 1 < |s| && s[j] == '/' && s[j + 1] == '*'
  }

  predicate Closes(s: string, j: int) {
    0 <= j && j + 1 < |s| && s[j] == '*' && s[j + 1] == '/'
  }

  predicate Dashes(s: string) {
    |s| > 1 && s[0] == '-' && s[1] == '-'
  }

  /** The inside of a quoted run: any octets, with every quote doubled. */
  ghost predicate QuotedBody(s: string, quote: char) {
    s == "" || (s[0] != quote && QuotedBody(s[1..], quote))
    || (|s| > 1 && s[0] == quote && s[1] == quote && QuotedBody(s[2..], quote))
  }

  /** s[..k] is a closed quoted run. */
  ghost predicate ClosedQuote(s: string, k: int) {
    && 2 <= k <= |s| && IsQuote(s[0]) && s[k - 1] == s[0]
    && QuotedBody(s[1..k - 1], s[0])
    && (k < |s| ==> s[k] != s[0])
  }

  /** s[i..k] is a block comment, closed, with whole block comments nested in it. */
  ghost predicate Comment(s: string, i: int, k: int)
    decreases k - i, 0
  {
    && 0 <= i && i + 4 <= k <= |s| && Opens(s, i) && Closes(s, k - 2)
    && CommentBody(s, i + 2, k - 2)
  }

  ghost predicate CommentBody(s: string, i: int, k: int)
    decreases k - i, 1
  {
    && 0 <= i <= k <= |s|
    && (|| i == k
        || (!Opens(s, i) && !Closes(s, i) && CommentBody(s, i + 1, k))
        || exists m :: i < m <= k && Comment(s, i, m) && CommentBody(s, m, k))
  }

  /** t is the token that s starts with, and it is k octets long. */
  ghost predicate StartsWith(s: string, k: int, t: Token) {
    && 0 < k <= |s|
    && if IsQuote(s[0]) then
         && t == Verbatim(s[..k])
         && (ClosedQuote(s, k) || (k == |s| && QuotedBody(s[1..], s[0])))
       else if Dashes(s) then
         t == Verbatim(s[..k]) && '\n' !in s[..k] && (k < |s| ==> s[k] == '\n')
       else if Opens(s, 0) then
         && t == Verbatim(s[..k])
         && (Comment(s, 0, k) || (k == |s| && forall m :: !Comment(s, 0, m)))
       else
         k == 1 && t == (if s[0] == '?' then Mark else Code([s[0]]))
  }

  /** toks is a tokenisation of s. */
  ghost predicate Tokenises(s: string, toks: seq<Token>)
    decreases |toks|
  {
    if toks == [] then s == ""
    else exists k :: StartsWith(s, k, toks[0]) && Tokenises(s[k..], toks[1..])
  }

  /** The rebound text: the (n+1)th, (n+2)th, … placeholders become $(n+1), $(n+2), …,
      and everything else is copied. */
  function Render(toks: seq<Token>, n: nat): (r: string)
    decreases |toks|
  {
    if toks == [] then ""
    else match toks[0]
      case Mark => "$" + Itoa(n + 1) + Render(toks[1..], n + 1)
      case Code(text) => text + Render(toks[1..], n)
      case Verbatim(text) => text + Render(toks[1..], n)
  }

  function Source(toks: seq<Token>): (r: string) {
    if toks == [] then ""
    else (if toks[0].Mark? then "?" else toks[0].text) + Source(toks[1..])
  }

  // ---------------------------------------------------------------- scanning

  /** Where the quoted run that s opens ends, scanning on from j. */
  function QuotedLen(s: string, j: nat): (k: nat)
    requires 1 <= j <= |s|
    ensures j <= k <= |s|
    decreases |s| - j
  {
    if j == |s| then |s|
    else if s[j] != s[0] then QuotedLen(s, j + 1)
    else if j + 1 < |s| && s[j + 1] == s[0] then QuotedLen(s, j + 2)
    else j + 1
  }

  function LineLen(s: string, j: nat): (k: nat)
    requires j <= |s|
    ensures j <= k <= |s| && (k < |s| ==> s[k] == '\n')
    ensures forall i :: j <= i < k ==> s[i] != '\n'
    decreases |s| - j
  {
    if j == |s| || s[j] == '\n' then j else LineLen(s, j + 1)
  }

  function BlockLen(s: string, j: nat, depth: nat): (k: nat)
    requires j <= |s| && (depth > 0 || Opens(s, j))
    ensures j <= k <= |s|
    decreases |s| - j
  {
    if j + 1 >= |s| then |s|
    else if Opens(s, j) then BlockLen(s, j + 2, depth + 1)
    else if Closes(s, j) then (if depth == 1 then j + 2 else BlockLen(s, j + 2, depth - 1))
    else BlockLen(s, j + 1, depth)
  }

  function FirstLen(s: string): (k: nat)
    requires s != ""
    ensures 1 <= k <= |s|
  {
    if IsQuote(s[0]) then QuotedLen(s, 1)
    else if Dashes(s) then LineLen(s, 0)
    else if Opens(s, 0) then BlockLen(s, 0, 0)
    else 1
  }

  function First(s: string): (t: Token)
    requires s != ""
  {
    if IsQuote(s[0]) || Dashes(s) || Opens(s, 0) then Verbatim(s[..FirstLen(s)])
    else if s[0] == '?' then Mark
    else Code([s[0]])
  }

  function Lex(s: string): (toks: seq<Token>)
    decreases |s|
  {
    if s == "" then [] else [First(s)] + Lex(s[FirstLen(s)..])
  }

  // ------------------------------------- the scanner computes the grammar's token

  lemma {:induction false} QuotedBodySnoc(s: string, i: nat, j: nat, e: nat)
    requires i <= j <= e <= |s| && s != ""
    requires QuotedBody(s[i..j], s[0])
    requires e == j || (e == j + 1 && s[j] != s[0]) || (e == j + 2 && s[j] == s[j + 1] == s[0])
    ensures QuotedBody(s[i..e], s[0])
    decreases j - i
  {
    if i == j {
      if e == j + 1 {
        assert s[i..e] == [s[i]] && s[i..e][1..] == "";
      } else if e == j + 2 {
        assert s[i..e] == [s[i], s[i + 1]] && s[i..e][2..] == "";
      }
    } else if s[i] != s[0] {
      assert s[i..j][1..] == s[i + 1..j] && s[i..e][1..] == s[i + 1..e];
      QuotedBodySnoc(s, i + 1, j, e);
    } else {
      assert s[i..j][2..] == s[i + 2..j] && s[i..e][2..] == s[i + 2..e];
      QuotedBodySnoc(s, i + 2, j, e);
    }
  }

  lemma {:induction false} QuotedSound(s: string, j: nat)
    requires 1 <= j <= |s| && IsQuote(s[0]) && QuotedBody(s[1..j], s[0])
    ensures var k := QuotedLen(s, j);
            ClosedQuote(s, k) || (k == |s| && QuotedBody(s[1..], s[0]))
    decreases |s| - j
  {
    if j == |s| {
      assert s[1..j] == s[1..];
    } else if s[j] != s[0] {
      QuotedBodySnoc(s, 1, j, j + 1);
      QuotedSound(s, j + 1);
    } else if j + 1 < |s| && s[j + 1] == s[0] {
      QuotedBodySnoc(s, 1, j, j + 2);
      QuotedSound(s, j + 2);
    } else {
      assert s[1..j] == s[1..QuotedLen(s, j) - 1];
    }
  }

  lemma {:induction false} QuotedComplete(s: string, j: nat, k: nat)
    requires 1 <= j < k <= |s| && s[k - 1] == s[0] && (k < |s| ==> s[k] != s[0])
    requires QuotedBody(s[j..k - 1], s[0])
    ensures QuotedLen(s, j) == k
    decreases k - j
  {
    if j < k - 1 {
      if s[j] != s[0] {
        assert s[j..k - 1][1..] == s[j + 1..k - 1];
        QuotedComplete(s, j + 1, k);
      } else {
        assert s[j..k - 1][1] == s[j + 1];
        assert s[j..k - 1][2..] == s[j + 2..k - 1];
        QuotedComplete(s, j + 2, k);
      }
    }
  }

  lemma {:induction false} QuotedOpen(s: string, j: nat)
    requires 1 <= j <= |s| && QuotedBody(s[j..], s[0])
    ensures QuotedLen(s, j) == |s|
    decreases |s| - j
  {
    if j < |s| {
      if s[j] != s[0] {
        assert s[j..][1..] == s[j + 1..];
        QuotedOpen(s, j + 1);
      } else {
        assert s[j..][1] == s[j + 1];
        assert s[j..][2..] == s[j + 2..];
        QuotedOpen(s, j + 2);
      }
    }
  }

  /** The scan at nesting level `depth` closed at k. */
  ghost predicate ClosedAt(s: string, j: nat, depth: nat, k: int)
    requires j <= |s| && (depth > 0 || Opens(s, j))
    decreases |s| - j
  {
    if j + 1 >= |s| then false
    else if Opens(s, j) then ClosedAt(s, j + 2, depth + 1, k)
    else if Closes(s, j) then
      (if depth == 1 then k == j + 2 else ClosedAt(s, j + 2, depth - 1, k))
    else ClosedAt(s, j + 1, depth, k)
  }

  lemma {:induction false} ClosedAtIsBlockLen(s: string, j: nat, depth: nat)
    requires j <= |s| && (depth > 0 || Opens(s, j))
    ensures forall k :: ClosedAt(s, j, depth, k) ==> k == BlockLen(s, j, depth)
    ensures ClosedAt(s, j, depth, BlockLen(s, j, depth)) || BlockLen(s, j, depth) == |s|
    decreases |s| - j
  {
    if j + 1 >= |s| {
    } else if Opens(s, j) {
      ClosedAtIsBlockLen(s, j + 2, depth + 1);
    } else if Closes(s, j) {
      if depth != 1 { ClosedAtIsBlockLen(s, j + 2, depth - 1); }
    } else {
      ClosedAtIsBlockLen(s, j + 1, depth);
    }
  }

  /** A closing scan passes over one comment body and then closes the current level. */
  lemma {:induction false} BodyThenClose(s: string, j: nat, depth: nat, k: int) returns (m: nat)
    requires j <= |s| && depth > 0 && ClosedAt(s, j, depth, k)
    ensures j <= m && m + 2 <= |s| && CommentBody(s, j, m) && Closes(s, m)
    ensures if depth == 1 then k == m + 2 else ClosedAt(s, m + 2, depth - 1, k)
    decreases |s| - j
  {
    if Opens(s, j) {
      var inner := BodyThenClose(s, j + 2, depth + 1, k);
      m := BodyThenClose(s, inner + 2, depth, k);
      assert Comment(s, j, inner + 2);
    } else if Closes(s, j) {
      m := j;
    } else {
      m := BodyThenClose(s, j + 1, depth, k);
    }
  }

  lemma {:induction false} BodySkipped(s: string, i: nat, m: nat, depth: nat, k: int)
    requires depth > 0 && CommentBody(s, i, m) && Closes(s, m)
    ensures ClosedAt(s, i, depth, k) == ClosedAt(s, m, depth, k)
    decreases m - i, 1
  {
    if i < m {
      if !Opens(s, i) && !Closes(s, i) && CommentBody(s, i + 1, m) {
        BodySkipped(s, i + 1, m, depth, k);
      } else {
        var e :| i < e <= m && Comment(s, i, e) && CommentBody(s, e, m);
        CommentSkipped(s, i, e, depth, k);
        BodySkipped(s, e, m, depth, k);
      }
    }
  }

  lemma {:induction false} CommentSkipped(s: string, i: nat, e: nat, depth: nat, k: int)
    requires depth > 0 && Comment(s, i, e)
    ensures ClosedAt(s, i, depth, k) == ClosedAt(s, e, depth, k)
    decreases e - i, 0
  {
    BodySkipped(s, i + 2, e - 2, depth + 1, k);
  }

  /** Nested comments: the depth counter stops exactly where the grammar says. */
  lemma {:induction false} BlockLenIsComment(s: string, k: int)
    requires Opens(s, 0)
    ensures Comment(s, 0, k) <==> ClosedAt(s, 0, 0, k)
  {
    if ClosedAt(s, 0, 0, k) {
      var m := BodyThenClose(s, 2, 1, k);
    }
    if Comment(s, 0, k) {
      BodySkipped(s, 2, k - 2, 1, k);
    }
  }

  /** The scanner's first token is the one and only token the grammar admits. */
  lemma {:induction false} FirstIsTheToken(s: string, k: int, t: Token)
    requires s != ""
    ensures StartsWith(s, k, t) <==> k == FirstLen(s) && t == First(s)
  {
    if IsQuote(s[0]) {
      assert s[1..1] == "";
      QuotedSound(s, 1);
      if ClosedQuote(s, k) { QuotedComplete(s, 1, k); }
      if k == |s| && QuotedBody(s[1..], s[0]) { QuotedOpen(s, 1); }
    } else if Dashes(s) {
      var e := LineLen(s, 0);
      assert forall i :: 0 <= i < e ==> s[..e][i] == s[i];
      assert 0 < k < e ==> s[k] != '\n';
      assert e < k <= |s| ==> s[..k][e] == '\n';
    } else if Opens(s, 0) {
      ClosedAtIsBlockLen(s, 0, 0);
      BlockLenIsComment(s, k);
      forall m ensures Comment(s, 0, m) <==> ClosedAt(s, 0, 0, m) { BlockLenIsComment(s, m); }
    }
  }

  /** Every query has exactly one tokenisation, the one the scanner finds. */
  lemma {:induction false} LexIsTheTokenisation(s: string, toks: seq<Token>)
    ensures Tokenises(s, toks) <==> toks == Lex(s)
    decreases |s|
  {
    if s == "" {
    } else if toks != [] {
      var e := FirstLen(s);
      forall k ensures StartsWith(s, k, toks[0]) <==> k == e && toks[0] == First(s) {
        FirstIsTheToken(s, k, toks[0]);
      }
      LexIsTheTokenisation(s[e..], toks[1..]);
      if toks == Lex(s) {
        assert toks[1..] == Lex(s[e..]);
      }
      if Tokenises(s, toks) {
        assert toks == [toks[0]] + toks[1..];
      }
    }
  }

  /** Nothing is lost: the tokens spell the query. */
  lemma {:induction false} SourceOfLex(s: string)
    ensures Source(Lex(s)) == s
    decreases |s|
  {
    if s != "" {
      var k := FirstLen(s);
      SourceOfLex(s[k..]);
      assert Lex(s)[1..] == Lex(s[k..]);
      assert s == s[..k] + s[k..];
    }
  }

  // ------------------------------------------------------- the rewriter itself

  function Rebound(query: string): (r: string) {
    Render(Lex(query), 0)
  }

  /** The output as the scan writes it: a placeholder becomes its number, any other token is copied. */
  function Rendered(s: string, n: nat): (r: string)
    decreases |s|
  {
    if s == "" then ""
    else if s[0] == '?' then "$" + Itoa(n + 1) + Rendered(s[1..], n + 1)
    else s[..FirstLen(s)] + Rendered(s[FirstLen(s)..], n)
  }

  lemma {:induction false} RenderedIsRender(s: string, n: nat)
    ensures Rendered(s, n) == Render(Lex(s), n)
    decreases |s|
  {
    if s != "" {
      assert Lex(s)[0] == First(s) && Lex(s)[1..] == Lex(s[FirstLen(s)..]);
      if s[0] == '?' {
        RenderedIsRender(s[1..], n + 1);
      } else {
        RenderedIsRender(s[FirstLen(s)..], n);
        assert s[..1] == [s[0]];
      }
    }
  }

  lemma {:induction false} NoMarkUnchanged(s: string, n: nat)
    requires '?' !in s
    ensures Rendered(s, n) == s
    decreases |s|
  {
    if s != "" {
      var k := FirstLen(s);
      assert s[0] != '?';
      NoMarkUnchanged(s[k..], n);
      assert s == s[..k] + s[k..];
    }
  }

  lemma {:induction false} CopyStep(query: string, i: nat, end: nat, out: string, n: nat, all: string)
    requires i < |query| && query[i] != '?' && end == i + FirstLen(query[i..])
    requires out + Rendered(query[i..], n) == all
    ensures out + query[i..end] + Rendered(query[end..], n) == all
  {
    var s := query[i..];
    assert s[FirstLen(s)..] == query[end..] && s[..FirstLen(s)] == query[i..end];
  }

  lemma {:induction false} MarkStep(query: string, i: nat, out: string, n: nat, all: string)
    requires i < |query| && query[i] == '?'
    requires out + Rendered(query[i..], n) == all
    ensures out + "$" + Itoa(n + 1) + Rendered(query[i + 1..], n + 1) == all
  {
    assert query[i..][1..] == query[i + 1..];
  }

  lemma TokenAt(query: string, i: nat)
    requires i < |query|
    ensures var s := query[i..];
            && (IsQuote(query[i]) ==> FirstLen(s) == QuotedLen(s, 1))
            && (Dashes(s) ==> FirstLen(s) == LineLen(s, 0))
            && (Opens(s, 0) ==> FirstLen(s) == BlockLen(s, 0, 0))
            && (!IsQuote(query[i]) && !Dashes(s) && !Opens(s, 0) ==> FirstLen(s) == 1)
            && (Dashes(s) <==> query[i] == '-' && i + 1 < |query| && query[i + 1] == '-')
            && (Opens(s, 0) <==> query[i] == '/' && i + 1 < |query| && query[i + 1] == '*')
  {
  }

  method EndOfQuoted(query: string, i: nat) returns (end: nat)
    requires i < |query|
    ensures end == i + QuotedLen(query[i..], 1)
  {
    ghost var s := query[i..];
    var quote := query[i];
    var j := i + 1;
    while j < |query|
      invariant i < j <= |query|
      invariant QuotedLen(s, j - i) == QuotedLen(s, 1)
    {
      if query[j] != quote {
        j := j + 1;
        continue;
      }
      if j + 1 < |query| && query[j + 1] == quote {
        j := j + 2;
        continue;
      }
      return j + 1;
    }
    return |query|;
  }

  method EndOfLineComment(query: string, i: nat) returns (end: nat)
    requires i < |query|
    ensures end == i + LineLen(query[i..], 0)
  {
    ghost var s := query[i..];
    end := i;
    while end < |query| && query[end] != '\n'
      invariant i <= end <= |query|
      invariant LineLen(s, end - i) == LineLen(s, 0)
    {
      end := end + 1;
    }
  }

  method EndOfBlockComment(query: string, i: nat) returns (end: nat)
    requires i + 1 < |query| && query[i] == '/' && query[i + 1] == '*'
    ensures end == i + BlockLen(query[i..], 0, 0)
  {
    ghost var s := query[i..];
    var depth := 0;
    var j := i;
    while j + 1 < |query|
      invariant i <= j <= |query| && depth >= 0
      invariant depth > 0 || j == i
      invariant BlockLen(s, j - i, depth) == BlockLen(s, 0, 0)
    {
      if query[j] == '/' && query[j + 1] == '*' {
        assert Opens(s, j - i);
        depth := depth + 1;
        j := j + 2;
      } else if query[j] == '*' && query[j + 1] == '/' {
        assert Closes(s, j - i);
        depth := depth - 1;
        j := j + 2;
        if depth == 0 { return j; }
      } else {
        j := j + 1;
      }
    }
    return |query|;
  }

  /** The rewriter: the fast path, the scan, and the builder. */
  method RebindQuery(query: string) returns (out: string)
    ensures out == Rebound(query)
  {
    ghost var all := Rendered(query, 0);
    assert all == Rebound(query) by { RenderedIsRender(query, 0); }
    if '?' !in query {
      NoMarkUnchanged(query, 0);
      return query;
    }
    out := "";
    var n := 0;
    var i := 0;
    assert query[0..] == query;
    while i < |query|
      invariant 0 <= i <= |query| && n >= 0
      invariant out + Rendered(query[i..], n) == all
    {
      var c := query[i];
      TokenAt(query, i);
      if c == '?' {
        MarkStep(query, i, out, n, all);
        n := n + 1;
        out := out + "$" + Itoa(n);
        i := i + 1;
        continue;
      }
      var end := i + 1;
      if c == '\'' || c == '"' || c == '`' {
        end := EndOfQuoted(query, i);
      } else if c == '-' && i + 1 < |query| && query[i + 1] == '-' {
        end := EndOfLineComment(query, i);
      } else if c == '/' && i + 1 < |query| && query[i + 1] == '*' {
        end := EndOfBlockComment(query, i);
      }
      CopyStep(query, i, end, out, n, all);
      out := out + query[i..end];
      i := end;
    }
    assert query[i..] == "";
  }

  // ------------------------------------------------- resynchronising on the output

  /** What follows a token in the output still ends it where it ended in the input. */
  ghost predicate Follows(rest: string, rest': string) {
    && (rest == "" <==> rest' == "")
    && (rest != "" ==> rest'[0] == rest[0] || (rest[0] == '?' && rest'[0] == '$'))
  }

  lemma {:induction false} QuotedLocal(s: string, s': string, j: nat)
    requires 1 <= j <= |s| && IsQuote(s[0])
    requires var k := QuotedLen(s, j);
             k <= |s'| && s'[..k] == s[..k] && Follows(s[k..], s'[k..])
    ensures QuotedLen(s', j) == QuotedLen(s, j)
    decreases |s| - j
  {
    var k := QuotedLen(s, j);
    assert s'[0] == s'[..k][0];
    if j == |s| {
    } else {
      assert j < k && s'[j] == s'[..k][j] == s[j];
      if s[j] != s[0] {
        QuotedLocal(s, s', j + 1);
      } else if j + 1 < |s| && s[j + 1] == s[0] {
        assert s'[j + 1] == s'[..k][j + 1];
        QuotedLocal(s, s', j + 2);
      }
    }
  }

  lemma {:induction false} LineLocal(s: string, s': string, j: nat)
    requires j <= |s|
    requires var k := LineLen(s, j);
             k <= |s'| && s'[..k] == s[..k] && Follows(s[k..], s'[k..])
    ensures LineLen(s', j) == LineLen(s, j)
    decreases |s| - j
  {
    var k := LineLen(s, j);
    if j < k {
      assert s'[j] == s'[..k][j] == s[j];
      LineLocal(s, s', j + 1);
    }
  }

  lemma {:induction false} BlockLocal(s: string, s': string, j: nat, depth: nat)
    requires j <= |s| && (depth > 0 || Opens(s, j))
    requires var k := BlockLen(s, j, depth);
             k < |s| && k <= |s'| && s'[..k] == s[..k]
    ensures j <= |s'| && (depth > 0 || Opens(s', j)) && BlockLen(s', j, depth) == BlockLen(s, j, depth)
    decreases |s| - j
  {
    var k := BlockLen(s, j, depth);
    assert j + 2 <= k by { BlockLenAtLeast(s, j, depth); }
    assert s'[j] == s'[..k][j] && s'[j + 1] == s'[..k][j + 1];
    if Opens(s, j) {
      BlockLocal(s, s', j + 2, depth + 1);
    } else if Closes(s, j) {
      if depth != 1 { BlockLocal(s, s', j + 2, depth - 1); }
    } else {
      BlockLocal(s, s', j + 1, depth);
    }
  }

  lemma {:induction false} BlockLenAtLeast(s: string, j: nat, depth: nat)
    requires j <= |s| && (depth > 0 || Opens(s, j))
    ensures BlockLen(s, j, depth) == |s| || j + 2 <= BlockLen(s, j, depth)
    decreases |s| - j
  {
    if j + 1 < |s| && !Opens(s, j) && !Closes(s, j) { BlockLenAtLeast(s, j + 1, depth); }
  }

  /** A token is read the same way in the output, placed before a compatible rest. */
  lemma {:induction false} FirstLocal(s: string, rest': string)
    requires s != "" && s[0] != '?' && Follows(s[FirstLen(s)..], rest')
    ensures var s' := s[..FirstLen(s)] + rest';
            s' != "" && FirstLen(s') == FirstLen(s) && First(s') == First(s)
  {
    var k := FirstLen(s);
    var s' := s[..k] + rest';
    assert s'[..k] == s[..k] && s'[k..] == rest';
    assert s'[0] == s'[..k][0] == s[0];
    if IsQuote(s[0]) {
      QuotedLocal(s, s', 1);
    } else if Dashes(s) {
      assert k >= 2 by { assert s[0] == '-' && s[1] == '-'; }
      assert s'[1] == s'[..k][1];
      LineLocal(s, s', 0);
    } else if Opens(s, 0) {
      if k < |s| {
        BlockLocal(s, s', 0, 0);
      } else {
        assert s' == s;
      }
    } else {
      if |s'| > 1 { assert s'[1] == rest'[0]; }
      if |s| > 1 { assert s[k..][0] == s[1]; }
    }
  }

  lemma {:induction false} RenderFollows(s: string, n: nat)
    ensures Follows(s, Rendered(s, n))
  {
    if s != "" {
      assert s[..FirstLen(s)][0] == s[0];
    }
  }

  predicate Plain(c: char) {
    !IsQuote(c) && c != '-' && c != '/' && c != '?'
  }

  /** A character that opens nothing is copied. */
  lemma CodeStep(c: char, rest: string, n: nat)
    requires Plain(c)
    ensures Rendered([c] + rest, n) == [c] + Rendered(rest, n)
  {
    var s := [c] + rest;
    assert s[0] == c && FirstLen(s) == 1 && s[..1] == [c] && s[1..] == rest;
  }

  lemma {:induction false} CopiesRun(f: string -> string, text: string, rest: string)
    requires forall c: char, r: string :: Plain(c) ==> f([c] + r) == [c] + f(r)
    requires forall i :: 0 <= i < |text| ==> Plain(text[i])
    ensures f(text + rest) == text + f(rest)
    decreases |text|
  {
    if text == "" {
      assert text + rest == rest;
    } else {
      CopiesRun(f, text[1..], rest);
      assert text + rest == [text[0]] + (text[1..] + rest);
      assert text == [text[0]] + text[1..];
    }
  }

  lemma {:induction false} StableAfterMark(n: nat, m: nat, rest': string)
    requires Rendered(rest', m) == rest'
    ensures var out := "$" + Itoa(n + 1) + rest';
            Rendered(out, m) == out
  {
    var f := x => Rendered(x, m);
    forall c: char, r: string | Plain(c) ensures f([c] + r) == [c] + f(r) {
      CodeStep(c, r, m);
    }
    CopiesRun(f, "$" + Itoa(n + 1), rest');
  }

  /** Reading the output again finds the same tokens, with no placeholder left. */
  lemma {:induction false} RenderStable(s: string, n: nat, m: nat)
    ensures Rendered(Rendered(s, n), m) == Rendered(s, n)
    decreases |s|
  {
    if s != "" {
      if s[0] == '?' {
        RenderStable(s[1..], n + 1, m);
        StableAfterMark(n, m, Rendered(s[1..], n + 1));
      } else {
        var k := FirstLen(s);
        var rest' := Rendered(s[k..], n);
        var out := s[..k] + rest';
        RenderFollows(s[k..], n);
        FirstLocal(s, rest');
        assert out[k..] == rest' && out[..k] == s[..k];
        assert out[0] == out[..k][0];
        RenderStable(s[k..], n, m);
      }
    }
  }

  /** Rebinding twice is rebinding once, for every query whatsoever. */
  lemma {:induction false} RebindIdempotent(query: string)
    ensures Rebound(Rebound(query)) == Rebound(query)
  {
    RenderedIsRender(query, 0);
    RenderedIsRender(Rebound(query), 0);
    RenderStable(query, 0, 0);
  }

  // -------------------------------------------------------------- undoing it

  ghost predicate NoDollarInCode(toks: seq<Token>) {
    Code("$") !in toks
  }

  /** Reads an output and turns its (n+1)th, (n+2)th, … numbered placeholders back. */
  function Unbind(s: string, n: nat): (r: string)
    decreases |s|
  {
    if s == "" then ""
    else if s[0] == '$' && Itoa(n + 1) <= s[1..] then
      "?" + Unbind(s[1 + |Itoa(n + 1)|..], n + 1)
    else
      s[..FirstLen(s)] + Unbind(s[FirstLen(s)..], n)
  }

  lemma UnbindMark(n: nat, rest: string)
    ensures Unbind("$" + Itoa(n + 1) + rest, n) == "?" + Unbind(rest, n + 1)
  {
    var out := "$" + Itoa(n + 1) + rest;
    assert out[1..] == Itoa(n + 1) + rest;
    assert out[1 + |Itoa(n + 1)|..] == rest;
  }

  lemma UnbindCopy(text: string, rest: string, n: nat)
    requires text != "" && text[0] != '$' && FirstLen(text + rest) == |text|
    ensures Unbind(text + rest, n) == text + Unbind(rest, n)
  {
    var out := text + rest;
    assert out[0] == text[0] && out[|text|..] == rest && out[..|text|] == text;
  }

  lemma NoDollarAhead(s: string)
    requires s != "" && NoDollarInCode(Lex(s))
    ensures NoDollarInCode(Lex(s[FirstLen(s)..])) && s[0] != '$'
    ensures s[0] == '?' ==> FirstLen(s) == 1
  {
    assert Lex(s)[1..] == Lex(s[FirstLen(s)..]) && Lex(s)[0] == First(s);
    assert [s[0]] == "$" <==> s[0] == '$';
  }

  lemma UnbindCopied(s: string, rest: string, n: nat)
    requires s != "" && s[0] != '?' && s[0] != '$' && Follows(s[FirstLen(s)..], rest)
    ensures Unbind(s[..FirstLen(s)] + rest, n) == s[..FirstLen(s)] + Unbind(rest, n)
  {
    FirstLocal(s, rest);
    assert s[..FirstLen(s)][0] == s[0];
    UnbindCopy(s[..FirstLen(s)], rest, n);
  }

  lemma {:induction false} UnbindRender(s: string, n: nat)
    requires NoDollarInCode(Lex(s))
    ensures Unbind(Rendered(s, n), n) == s
    decreases |s|
  {
    if s != "" {
      NoDollarAhead(s);
      if s[0] == '?' {
        UnbindRender(s[1..], n + 1);
        UnbindMark(n, Rendered(s[1..], n + 1));
        assert s == "?" + s[1..];
      } else {
        var k := FirstLen(s);
        UnbindRender(s[k..], n);
        RenderFollows(s[k..], n);
        UnbindCopied(s, Rendered(s[k..], n), n);
        assert s == s[..k] + s[k..];
      }
    }
  }

  /** With no `$` in code, the source is recovered exactly. */
  lemma {:induction false} RebindRoundTrip(query: string)
    requires NoDollarInCode(Lex(query))
    ensures Unbind(Rebound(query), 0) == query
  {
    RenderedIsRender(query, 0);
    UnbindRender(query, 0);
  }
}
