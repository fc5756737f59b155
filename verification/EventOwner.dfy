/** Which connected CalDAV account an existing event belongs to: pickEventOwner, the URL
    containment it rests on, and joinURL (internal/caldav/events.go). */
module EventOwner {
  import opened Text

  datatype DavURL = DavURL(scheme: string, host: string, port: string, path: string)

  /** parseDAVURL, which rests on the URL library. Nothing is assumed of it here. */
  type Parser = string -> Option<DavURL>

  datatype Account = Account(id: string, collections: seq<string>)

  datatype Pick = Owner(index: nat) | NotURL | NoOwner | ManyOwners

  /** strings.TrimRight(s, "/") */
  function TrimSlash(s: string): (r: string)
    ensures |r| <= |s| && r == s[..|r|] && (r != "" ==> r[|r| - 1] != '/')
    ensures forall i :: |r| <= i < |s| ==> s[i] == '/'
  {
    if s != "" && s[|s| - 1] == '/' then TrimSlash(s[..|s| - 1]) else s
  }

  predicate SameOrigin(a: DavURL, b: DavURL) {
    a.scheme == b.scheme && a.host == b.host && a.port == b.port
  }

  /** The resource lies inside the collection. */
  predicate Contains(col: DavURL, resource: DavURL) {
    var dir := TrimSlash(col.path) + "/";
    SameOrigin(col, resource) && |resource.path| > |dir| && dir <= resource.path
  }

  predicate SameCollection(a: DavURL, b: DavURL) {
    SameOrigin(a, b) && TrimSlash(a.path) == TrimSlash(b.path)
  }

  /** joinURL on the path: exactly one slash between the collection and the name. */
  function JoinPath(base: string, name: string): (r: string) {
    TrimSlash(base) + "/" + name
  }

  // ---------------------------------------------------------------- what is being maximised

  ghost predicate Holds(parse: Parser, raw: string, ev: DavURL) {
    parse(raw).Some? && Contains(parse(raw).value, ev)
  }

  ghost predicate IsHolder(parse: Parser, a: Account, ev: DavURL) {
    exists raw :: raw in a.collections && Holds(parse, raw, ev)
  }

  /** One of the account's collections holding the event is the recorded calendar. */
  ghost predicate IsExact(parse: Parser, a: Account, ev: DavURL, cal: Option<DavURL>) {
    cal.Some? && exists raw :: raw in a.collections && Holds(parse, raw, ev)
                   && SameCollection(parse(raw).value, cal.value)
  }

  ghost predicate HasDepth(parse: Parser, a: Account, ev: DavURL, d: int) {
    exists raw :: raw in a.collections && Holds(parse, raw, ev) && |TrimSlash(parse(raw).value.path)| == d
  }

  /** d is the depth of the deepest collection of the account that holds the event. */
  ghost predicate IsDepth(parse: Parser, a: Account, ev: DavURL, d: int) {
    && HasDepth(parse, a, ev, d)
    && forall raw :: raw in a.collections && Holds(parse, raw, ev) ==> |TrimSlash(parse(raw).value.path)| <= d
  }

  /** How good an account is: whether it holds the event, exactly or not, and how deep. */
  datatype Rank = Rank(held: bool, exact: bool, depth: int)

  ghost predicate IsRank(parse: Parser, a: Account, ev: DavURL, cal: Option<DavURL>, r: Rank) {
    && (r.held <==> IsHolder(parse, a, ev))
    && (r.exact <==> IsExact(parse, a, ev, cal))
    && (r.held ==> IsDepth(parse, a, ev, r.depth))
  }

  predicate Better(a: Rank, b: Rank) {
    (a.exact && !b.exact) || (a.exact == b.exact && a.depth > b.depth)
  }

  predicate Level(a: Rank, b: Rank) {
    a.exact == b.exact && a.depth == b.depth
  }

  // ---------------------------------------------------------------- the inner scan

  function RankStep(parse: Parser, raw: string, ev: DavURL, cal: Option<DavURL>, r: Rank): (r': Rank) {
    match parse(raw)
    case None => r
    case Some(col) =>
      if !Contains(col, ev) then r
      else
        var depth := |TrimSlash(col.path)|;
        Rank(true, r.exact || (cal.Some? && SameCollection(col, cal.value)),
             if depth > r.depth then depth else r.depth)
  }

  /** The rank of an account with these collections. */
  function RankIn(parse: Parser, cols: seq<string>, ev: DavURL, cal: Option<DavURL>): (r: Rank) {
    if cols == [] then Rank(false, false, -1)
    else RankStep(parse, cols[|cols| - 1], ev, cal, RankIn(parse, cols[..|cols| - 1], ev, cal))
  }

  /** The loop over one account's collections. */
  method RankOf(parse: Parser, a: Account, ev: DavURL, cal: Option<DavURL>) returns (r: Rank)
    ensures r == RankIn(parse, a.collections, ev, cal)
  {
    r := Rank(false, false, -1);
    for i := 0 to |a.collections|
      invariant r == RankIn(parse, a.collections[..i], ev, cal)
    {
      assert a.collections[..i + 1][..i] == a.collections[..i];
      r := RankStep(parse, a.collections[i], ev, cal, r);
    }
    assert a.collections[..|a.collections|] == a.collections;
  }

  /** The scan computes what is being maximised. */
  lemma {:induction false} RankInIsRank(parse: Parser, a: Account, ev: DavURL, cal: Option<DavURL>)
    ensures IsRank(parse, a, ev, cal, RankIn(parse, a.collections, ev, cal))
    ensures !RankIn(parse, a.collections, ev, cal).held ==> RankIn(parse, a.collections, ev, cal).depth == -1
    decreases |a.collections|
  {
    if a.collections != [] {
      var n := |a.collections| - 1;
      var front := a.(collections := a.collections[..n]);
      RankInIsRank(parse, front, ev, cal);
      assert a.collections == front.collections + [a.collections[n]];
      RankGrows(parse, front, a, a.collections[n], ev, cal, RankIn(parse, front.collections, ev, cal));
    }
  }

  lemma RankGrows(parse: Parser, a: Account, a': Account, raw: string, ev: DavURL, cal: Option<DavURL>, r: Rank)
    requires IsRank(parse, a, ev, cal, r) && (!r.held ==> r.depth == -1)
    requires a'.collections == a.collections + [raw]
    ensures IsRank(parse, a', ev, cal, RankStep(parse, raw, ev, cal, r))
  {
    var r' := RankStep(parse, raw, ev, cal, r);
    assert raw in a'.collections && forall x :: x in a.collections ==> x in a'.collections;
    if Holds(parse, raw, ev) {
      if r.held && r.depth >= |TrimSlash(parse(raw).value.path)| {
        var x :| x in a.collections && Holds(parse, x, ev) && |TrimSlash(parse(x).value.path)| == r.depth;
        assert x in a'.collections;
      }
      assert HasDepth(parse, a', ev, r'.depth);
    } else if r.held {
      var x :| x in a.collections && Holds(parse, x, ev) && |TrimSlash(parse(x).value.path)| == r.depth;
      assert x in a'.collections;
    }
  }

  // ---------------------------------------------------------------- the outer scan

  ghost function Ranks(parse: Parser, accounts: seq<Account>, ev: DavURL, cal: Option<DavURL>): (rs: seq<Rank>)
    ensures |rs| == |accounts|
    ensures forall i :: 0 <= i < |rs| ==> rs[i] == RankIn(parse, accounts[i].collections, ev, cal)
  {
    seq(|accounts|, i requires 0 <= i < |accounts| => RankIn(parse, accounts[i].collections, ev, cal))
  }

  /** i holds the event and beats every other holder. */
  ghost predicate UniqueBest(rs: seq<Rank>, i: int) {
    && 0 <= i < |rs| && rs[i].held
    && forall j :: 0 <= j < |rs| && j != i && rs[j].held ==> Better(rs[i], rs[j])
  }

  /** i and j are level with each other and no holder is better. */
  ghost predicate TiedBest(rs: seq<Rank>, i: int, j: int) {
    && 0 <= i < |rs| && 0 <= j < |rs| && i != j && rs[i].held && rs[j].held && Level(rs[i], rs[j])
    && forall k :: 0 <= k < |rs| && rs[k].held ==> !Better(rs[k], rs[i])
  }

  ghost predicate Picks(rs: seq<Rank>, p: Pick) {
    match p
    case Owner(i) => UniqueBest(rs, i)
    case NoOwner => forall i :: 0 <= i < |rs| ==> !rs[i].held
    case ManyOwners => exists i, j :: TiedBest(rs, i, j)
    case NotURL => false
  }

  /** What pickEventOwner answers for an event id and the calendar recorded with it. */
  ghost predicate Answers(parse: Parser, accounts: seq<Account>, calendarID: string, eventID: string, p: Pick) {
    match parse(eventID)
    case None => p == NotURL
    case Some(ev) => Picks(Ranks(parse, accounts, ev, parse(calendarID)), p)
  }

  /** pickEventOwner: one pass with a best candidate and a tie flag. */
  method PickEventOwner(parse: Parser, accounts: seq<Account>, calendarID: string, eventID: string) returns (p: Pick)
    ensures Answers(parse, accounts, calendarID, eventID, p)
  {
    var parsed := parse(eventID);
    if parsed.None? {
      return NotURL;
    }
    var ev := parsed.value;
    var cal := parse(calendarID);
    ghost var rs := Ranks(parse, accounts, ev, cal);
    var best, tie := -1, false;
    var bestRank := Rank(false, false, -1);
    for i := 0 to |accounts|
      invariant Scanned(rs[..i], best, tie, bestRank)
    {
      var r := RankOf(parse, accounts[i], ev, cal);
      assert r == rs[i] && rs[..i + 1] == rs[..i] + [r];
      ScanStep(rs[..i], r, best, tie, bestRank);
      if r.held {
        if best < 0 || Better(r, bestRank) {
          best, bestRank, tie := i, r, false;
        } else if Level(r, bestRank) {
          tie := true;
        }
      }
    }
    assert rs[..|accounts|] == rs;
    ScanResult(rs, best, tie, bestRank);
    if best < 0 {
      p := NoOwner;
    } else if tie {
      p := ManyOwners;
    } else {
      p := Owner(best);
    }
  }

  ghost predicate BestSoFar(rs: seq<Rank>, best: nat, tie: bool, bestRank: Rank) {
    && best < |rs| && rs[best] == bestRank && bestRank.held
    && (forall i :: 0 <= i < |rs| && rs[i].held ==> !Better(rs[i], bestRank))
    && (tie <==> exists i :: 0 <= i < |rs| && i != best && rs[i].held && Level(rs[i], bestRank))
  }

  ghost predicate Scanned(rs: seq<Rank>, best: int, tie: bool, bestRank: Rank) {
    && (best < 0 ==> !tie && forall i :: 0 <= i < |rs| ==> !rs[i].held)
    && (best >= 0 ==> BestSoFar(rs, best, tie, bestRank))
  }

  /** The candidate and the flag after one more account. */
  lemma ScanStep(rs: seq<Rank>, r: Rank, best: int, tie: bool, bestRank: Rank)
    requires Scanned(rs, best, tie, bestRank)
    ensures !r.held ==> Scanned(rs + [r], best, tie, bestRank)
    ensures r.held && (best < 0 || Better(r, bestRank)) ==> Scanned(rs + [r], |rs|, false, r)
    ensures r.held && best >= 0 && !Better(r, bestRank) && Level(r, bestRank) ==>
            Scanned(rs + [r], best, true, bestRank)
    ensures r.held && best >= 0 && !Better(r, bestRank) && !Level(r, bestRank) ==>
            Scanned(rs + [r], best, tie, bestRank)
  {
    var rs' := rs + [r];
    assert rs'[|rs|] == r && forall i :: 0 <= i < |rs| ==> rs'[i] == rs[i];
    if best >= 0 && tie {
      var i :| 0 <= i < |rs| && i != best && rs[i].held && Level(rs[i], bestRank);
      assert Level(rs'[i], bestRank);
    }
  }

  lemma ScanResult(rs: seq<Rank>, best: int, tie: bool, bestRank: Rank)
    requires Scanned(rs, best, tie, bestRank)
    ensures best >= 0 && !tie ==> UniqueBest(rs, best)
    ensures best >= 0 && tie ==> exists i, j :: TiedBest(rs, i, j)
  {
    if best >= 0 && tie {
      var i :| 0 <= i < |rs| && i != best && rs[i].held && Level(rs[i], bestRank);
      assert TiedBest(rs, best, i);
    }
  }

  // ---------------------------------------------------------------- what follows

  lemma BestIsNotTied(rs: seq<Rank>, i: int, a: int, b: int)
    requires UniqueBest(rs, i)
    ensures !TiedBest(rs, a, b)
  {
  }

  lemma BestIsUnique(rs: seq<Rank>, i: int, k: int)
    requires UniqueBest(rs, i) && UniqueBest(rs, k)
    ensures i == k
  {
  }

  /** The answer is determined, so it is found exactly when there is a unique best account. */
  lemma {:induction false} PickDetermined(rs: seq<Rank>, p: Pick, i: nat)
    requires Picks(rs, p)
    ensures p == Owner(i) <==> UniqueBest(rs, i)
  {
    if UniqueBest(rs, i) {
      forall a, b ensures !TiedBest(rs, a, b) {
        BestIsNotTied(rs, i, a, b);
      }
      if p.Owner? {
        BestIsUnique(rs, i, p.index);
      }
    }
  }

  // ---------------------------------------------------------------- the answer in terms of the URLs

  /** The event's path goes on below the collection's, on the same scheme, host and port. */
  ghost predicate Below(col: DavURL, ev: DavURL) {
    && col.scheme == ev.scheme && col.host == ev.host && col.port == ev.port
    && exists rest :: rest != "" && ev.path == TrimSlash(col.path) + "/" + rest
  }

  lemma ContainsExactly(col: DavURL, ev: DavURL)
    ensures Contains(col, ev) <==> Below(col, ev)
  {
    var dir := TrimSlash(col.path) + "/";
    if Contains(col, ev) {
      assert ev.path == dir + ev.path[|dir|..];
    }
  }

  predicate SameButSlashes(a: DavURL, b: DavURL) {
    a.(path := TrimSlash(a.path)) == b.(path := TrimSlash(b.path))
  }

  /** The account lists a collection above the event, with a path of n octets. */
  ghost predicate ListsAbove(parse: Parser, a: Account, ev: DavURL, n: int) {
    exists raw :: raw in a.collections && parse(raw).Some? && Below(parse(raw).value, ev)
      && |TrimSlash(parse(raw).value.path)| == n
  }

  /** The account lists the recorded calendar, and that is above the event. */
  ghost predicate ListsRecorded(parse: Parser, a: Account, ev: DavURL, cal: Option<DavURL>) {
    && cal.Some?
    && exists raw :: raw in a.collections && parse(raw).Some? && Below(parse(raw).value, ev) &&
                     SameButSlashes(parse(raw).value, cal.value)
  }

  /** The accounts in question: those with the recorded calendar, or all of them if none has it. */
  ghost predicate InQuestion(parse: Parser, accounts: seq<Account>, ev: DavURL, cal: Option<DavURL>, j: int) {
    && 0 <= j < |accounts|
    && (ListsRecorded(parse, accounts[j], ev, cal) ||
        forall k :: 0 <= k < |accounts| ==> !ListsRecorded(parse, accounts[k], ev, cal))
  }

  /** Account i lists a collection above the event that is longer than all of the others'. */
  ghost predicate MostSpecific(parse: Parser, accounts: seq<Account>, ev: DavURL, cal: Option<DavURL>, i: int) {
    && InQuestion(parse, accounts, ev, cal, i)
    && exists n :: ListsAbove(parse, accounts[i], ev, n)
         && forall j, m :: InQuestion(parse, accounts, ev, cal, j) && j != i && ListsAbove(parse, accounts[j], ev, m)
              ==> m < n
  }

  /** What the rank of an account says of the URLs it lists. */
  ghost predicate RankFits(parse: Parser, a: Account, ev: DavURL, cal: Option<DavURL>, r: Rank) {
    && (r.exact <==> ListsRecorded(parse, a, ev, cal))
    && (r.exact ==> r.held)
    && (r.held <==> exists n :: ListsAbove(parse, a, ev, n))
    && (r.held ==> ListsAbove(parse, a, ev, r.depth))
    && forall n :: ListsAbove(parse, a, ev, n) ==> n <= r.depth
  }

  lemma RankMeans(parse: Parser, a: Account, ev: DavURL, cal: Option<DavURL>)
    ensures RankFits(parse, a, ev, cal, RankIn(parse, a.collections, ev, cal))
  {
    RankInIsRank(parse, a, ev, cal);
    forall col: DavURL ensures Contains(col, ev) <==> Below(col, ev) {
      ContainsExactly(col, ev);
    }
    if raw :| raw in a.collections && Holds(parse, raw, ev) {
      assert ListsAbove(parse, a, ev, |TrimSlash(parse(raw).value.path)|);
    }
  }

  /** One account, or none, or a tie: said of the listed URLs alone. */
  lemma {:induction false} AnswerExactly(parse: Parser, accounts: seq<Account>, calendarID: string, eventID: string,
                                         p: Pick, i: nat)
    requires Answers(parse, accounts, calendarID, eventID, p)
    ensures p == NotURL <==> parse(eventID).None?
    ensures p == NoOwner <==>
              && parse(eventID).Some?
              && forall j, n :: 0 <= j < |accounts| ==> !ListsAbove(parse, accounts[j], parse(eventID).value, n)
    ensures p == Owner(i) <==>
              parse(eventID).Some? && MostSpecific(parse, accounts, parse(eventID).value, parse(calendarID), i)
  {
    if parse(eventID).Some? {
      var ev, cal := parse(eventID).value, parse(calendarID);
      var rs := Ranks(parse, accounts, ev, cal);
      forall j | 0 <= j < |accounts| ensures RankFits(parse, accounts[j], ev, cal, rs[j]) {
        RankMeans(parse, accounts[j], ev, cal);
      }
      PickDetermined(rs, p, i);
      BestExactly(parse, accounts, ev, cal, rs, i);
    }
  }

  lemma BestExactly(parse: Parser, accounts: seq<Account>, ev: DavURL, cal: Option<DavURL>, rs: seq<Rank>, i: nat)
    requires |rs| == |accounts|
    requires forall j :: 0 <= j < |accounts| ==> RankFits(parse, accounts[j], ev, cal, rs[j])
    ensures UniqueBest(rs, i) <==> MostSpecific(parse, accounts, ev, cal, i)
  {
  }

  /** Place k of the one list and of the other: p says where the account there came from, q where
      the account there went. */
  ghost predicate Moved<T>(xs: seq<T>, ys: seq<T>, p: seq<nat>, q: seq<nat>, k: int) {
    && |ys| == |p| == |q| == |xs| && 0 <= k < |xs| && p[k] < |xs| && q[k] < |xs|
    && ys[k] == xs[p[k]] && ys[q[k]] == xs[k] && p[q[k]] == k && q[p[k]] == k
  }

  ghost predicate Shuffles<T>(xs: seq<T>, ys: seq<T>, p: seq<nat>, q: seq<nat>) {
    |xs| == |ys| && forall k :: 0 <= k < |xs| ==> Moved(xs, ys, p, q, k)
  }

  /** The same answer, with an owner's index after the shuffle. */
  function Renamed(pick: Pick, q: seq<nat>): (r: Pick) {
    if pick.Owner? && pick.index < |q| then Owner(q[pick.index]) else pick
  }

  lemma ShuffledOwner(rs: seq<Rank>, rs': seq<Rank>, p: seq<nat>, q: seq<nat>, i: nat)
    requires Shuffles(rs, rs', p, q) && UniqueBest(rs, i)
    ensures i < |q| && UniqueBest(rs', q[i])
  {
    assert Moved(rs, rs', p, q, i);
    forall k | 0 <= k < |rs'| && k != q[i] && rs'[k].held ensures Better(rs'[q[i]], rs'[k]) {
      assert Moved(rs, rs', p, q, k);
    }
  }

  lemma ShuffledTie(rs: seq<Rank>, rs': seq<Rank>, p: seq<nat>, q: seq<nat>, i: int, j: int)
    requires Shuffles(rs, rs', p, q) && TiedBest(rs, i, j)
    ensures exists x, y :: TiedBest(rs', x, y)
  {
    assert Moved(rs, rs', p, q, i) && Moved(rs, rs', p, q, j);
    forall k | 0 <= k < |rs'| && rs'[k].held ensures !Better(rs'[k], rs'[q[i]]) {
      assert Moved(rs, rs', p, q, k);
    }
    assert TiedBest(rs', q[i], q[j]);
  }

  lemma ShuffledPick(rs: seq<Rank>, rs': seq<Rank>, p: seq<nat>, q: seq<nat>, pick: Pick)
    requires Shuffles(rs, rs', p, q) && Picks(rs, pick)
    ensures Picks(rs', Renamed(pick, q))
  {
    match pick
    case Owner(i) => ShuffledOwner(rs, rs', p, q, i);
    case ManyOwners =>
      var i, j :| TiedBest(rs, i, j);
      ShuffledTie(rs, rs', p, q, i, j);
    case NoOwner =>
      forall k | 0 <= k < |rs'| ensures !rs'[k].held {
        assert Moved(rs, rs', p, q, k);
      }
  }

  /** The order in which the accounts are listed does not matter, whatever the answer. */
  lemma {:induction false} OrderIrrelevant(parse: Parser, accounts: seq<Account>, shuffled: seq<Account>,
                                           calendarID: string, eventID: string, p: seq<nat>, q: seq<nat>, pick: Pick)
    requires Shuffles(accounts, shuffled, p, q) && Answers(parse, accounts, calendarID, eventID, pick)
    ensures Answers(parse, shuffled, calendarID, eventID, Renamed(pick, q))
  {
    if parse(eventID).Some? {
      var ev, cal := parse(eventID).value, parse(calendarID);
      var rs, rs' := Ranks(parse, accounts, ev, cal), Ranks(parse, shuffled, ev, cal);
      forall k | 0 <= k < |rs| ensures Moved(rs, rs', p, q, k) {
        assert Moved(accounts, shuffled, p, q, k);
      }
      ShuffledPick(rs, rs', p, q, pick);
    }
  }

  /** Two collections that hold the same event and are equally deep are the same collection. */
  lemma SameDepthSameCollection(a: DavURL, b: DavURL, ev: DavURL)
    requires Contains(a, ev) && Contains(b, ev) && |TrimSlash(a.path)| == |TrimSlash(b.path)|
    ensures SameCollection(a, b)
  {
    var da, db := TrimSlash(a.path) + "/", TrimSlash(b.path) + "/";
    assert da == ev.path[..|da|] && db == ev.path[..|db|];
    assert TrimSlash(a.path) == da[..|da| - 1] && TrimSlash(b.path) == db[..|db| - 1];
  }

  /** A refusal for ambiguity means that two accounts list the very same collection. */
  lemma {:induction false} TieMeansSameCollection(parse: Parser, accounts: seq<Account>, ev: DavURL,
                                                  cal: Option<DavURL>)
      returns (i: nat, j: nat, a: string, b: string)
    requires Picks(Ranks(parse, accounts, ev, cal), ManyOwners)
    ensures i < |accounts| && j < |accounts| && i != j
    ensures a in accounts[i].collections && b in accounts[j].collections
    ensures parse(a).Some? && parse(b).Some? && SameCollection(parse(a).value, parse(b).value)
  {
    var rs := Ranks(parse, accounts, ev, cal);
    i, j :| TiedBest(rs, i, j);
    RankInIsRank(parse, accounts[i], ev, cal);
    RankInIsRank(parse, accounts[j], ev, cal);
    a :| a in accounts[i].collections && Holds(parse, a, ev) && |TrimSlash(parse(a).value.path)| == rs[i].depth;
    b :| b in accounts[j].collections && Holds(parse, b, ev) && |TrimSlash(parse(b).value.path)| == rs[j].depth;
    SameDepthSameCollection(parse(a).value, parse(b).value, ev);
  }

  // ---------------------------------------------------------------- an event just created

  /** The event CreateEvent puts into collection col under a name without a slash. */
  ghost function Created(col: DavURL, name: string): (ev: DavURL) {
    col.(path := JoinPath(col.path, name))
  }

  ghost predicate Lists(parse: Parser, a: Account, col: DavURL) {
    exists raw :: raw in a.collections && parse(raw).Some? && SameCollection(parse(raw).value, col)
  }

  lemma CreatedInside(col: DavURL, other: DavURL, name: string)
    requires name != "" && '/' !in name
    ensures SameCollection(other, col) ==> Contains(other, Created(col, name))
    ensures Contains(other, Created(col, name)) ==>
              |TrimSlash(other.path)| < |TrimSlash(col.path)| || SameCollection(other, col)
  {
    var ev, t, o := Created(col, name), TrimSlash(col.path), TrimSlash(other.path);
    assert ev.path == t + "/" + name;
    if Contains(other, ev) {
      assert o + "/" == ev.path[..|o| + 1];
      assert ev.path[|o|] == '/';
      assert forall k :: |t| < k < |ev.path| ==> ev.path[k] == name[k - |t| - 1];
      if |o| == |t| {
        assert o == (o + "/")[..|o|] && t == ev.path[..|t|];
      }
    }
    if SameCollection(other, col) {
      assert o + "/" == ev.path[..|o| + 1];
    }
  }

  lemma {:induction false} CreatedRank(parse: Parser, a: Account, col: DavURL, cal: DavURL, name: string)
    requires name != "" && '/' !in name && SameCollection(cal, col)
    ensures var r := RankIn(parse, a.collections, Created(col, name), Some(cal));
            && (Lists(parse, a, col) ==> r == Rank(true, true, |TrimSlash(col.path)|))
            && (!Lists(parse, a, col) ==> !r.exact)
  {
    var ev := Created(col, name);
    var r := RankIn(parse, a.collections, ev, Some(cal));
    RankInIsRank(parse, a, ev, Some(cal));
    forall raw | raw in a.collections && Holds(parse, raw, ev)
      ensures |TrimSlash(parse(raw).value.path)| <= |TrimSlash(col.path)|
    {
      CreatedInside(col, parse(raw).value, name);
    }
    if Lists(parse, a, col) {
      var raw :| raw in a.collections && parse(raw).Some? && SameCollection(parse(raw).value, col);
      CreatedInside(col, parse(raw).value, name);
      assert Holds(parse, raw, ev) && SameCollection(parse(raw).value, cal);
    }
  }

  /** joinURL: exactly one slash between the collection's URL and the name. */
  function JoinURL(base: string, name: string): (r: string) {
    JoinPath(base, name)
  }

  /** What the URL library must make of a joined URL: the collection's URL with the name added
      to its path. */
  ghost predicate ParsesJoined(parse: Parser, raw: string, name: string) {
    parse(raw).Some? && parse(JoinURL(raw, name)) == Some(Created(parse(raw).value, name))
  }

  /** An event that account i has just created under the collection URL raw is attributed to i, or
      refused when another account lists the same collection; never to a different account. */
  lemma {:induction false} CreatedEventOwner(parse: Parser, accounts: seq<Account>, i: nat, raw: string, name: string,
                                             p: Pick)
    requires i < |accounts| && raw in accounts[i].collections && name != "" && '/' !in name
    requires ParsesJoined(parse, raw, name) && Answers(parse, accounts, raw, JoinURL(raw, name), p)
    ensures p == Owner(i) || p == ManyOwners
    ensures p == ManyOwners <==>
              exists j :: 0 <= j < |accounts| && j != i && Lists(parse, accounts[j], parse(raw).value)
  {
    var col := parse(raw).value;
    var rs := Ranks(parse, accounts, Created(col, name), Some(col));
    forall j | 0 <= j < |accounts|
      ensures Lists(parse, accounts[j], col) ==> rs[j] == Rank(true, true, |TrimSlash(col.path)|)
      ensures !Lists(parse, accounts[j], col) ==> !rs[j].exact
    {
      CreatedRank(parse, accounts[j], col, col, name);
    }
    ExactWins(rs, i, |TrimSlash(col.path)|, p);
    if p == ManyOwners {
      var j :| 0 <= j < |rs| && j != i && rs[j] == Rank(true, true, |TrimSlash(col.path)|);
      assert Lists(parse, accounts[j], col);
    }
  }

  /** Among ranks that are exact at one depth or not exact, an exact one wins unless it is tied. */
  lemma {:induction false} ExactWins(rs: seq<Rank>, i: nat, d: nat, p: Pick)
    requires i < |rs| && rs[i] == Rank(true, true, d) && Picks(rs, p)
    requires forall j :: 0 <= j < |rs| ==> rs[j] == Rank(true, true, d) || !rs[j].exact
    ensures p == Owner(i) || p == ManyOwners
    ensures p == ManyOwners <==> exists j :: 0 <= j < |rs| && j != i && rs[j] == Rank(true, true, d)
  {
    if j :| 0 <= j < |rs| && j != i && rs[j] == Rank(true, true, d) {
      assert Level(rs[i], rs[j]);
      forall k | 0 <= k < |rs| ensures !UniqueBest(rs, k) {
        assert !Better(rs[k], rs[i]);
      }
    } else {
      assert UniqueBest(rs, i);
      PickDetermined(rs, p, i);
    }
  }
}
