/** Guardrails on a model's watchlist reply (intelligence/universe_refresh.py:196-309): whatever the reply
    says, the outcome is a complete, bounded, protected diff of every strategy's membership. */
module Guardrails {
  import opened Models
  import opened BrokerSim

  // ---- Symbols ----

  function UpperChar(c: char): char {
    if 'a' <= c <= 'z' then (c as int - 32) as char else c
  }

  function LowerChar(c: char): char {
    if 'A' <= c <= 'Z' then (c as int + 32) as char else c
  }

  function Upper(s: string): (u: string)
    ensures |u| == |s|
    ensures forall i :: 0 <= i < |s| ==> UpperChar(u[i]) == u[i]
  {
    seq(|s|, i requires 0 <= i < |s| => UpperChar(s[i]))
  }

  function Lower(s: string): string {
    seq(|s|, i requires 0 <= i < |s| => LowerChar(s[i]))
  }

  /** The letters a to z become A to Z, one by one; nothing else changes. */
  lemma UpperExactly(s: string, i: nat)
    requires i < |s|
    ensures 'a' <= s[i] <= 'z' ==> Upper(s)[i] as int - 'A' as int == s[i] as int - 'a' as int
    ensures !('a' <= s[i] <= 'z') ==> Upper(s)[i] == s[i]
  {
  }

  lemma UpperTwice(s: string)
    ensures Upper(Upper(s)) == Upper(s)
  {
  }

  // ---- The reply ----

  /** One element of a `symbols` list: anything at all, or an object with a symbol. */
  datatype Item = Garbage | Item(symbol: string, action: Option<string>, score: Option<real>)

  datatype Watchlist = NotAnObject | Watchlist(strategy: string, items: seq<Item>)

  datatype Action = Add | Drop | Keep

  datatype Row = Row(symbol: string, action: Action, score: Option<real>)

  function ParseAction(a: Option<string>): Action {
    if a.None? then Keep
    else if Lower(a.value) == "add" then Add
    else if Lower(a.value) == "drop" then Drop
    else Keep
  }

  function Clamp(score: Option<real>): Option<real> {
    if score.None? then None
    else if score.value < 0.0 then Some(0.0)
    else if score.value > 100.0 then Some(100.0)
    else score
  }

  function RowOf(item: Item): Row
    requires item.Item?
  {
    Row(Upper(item.symbol), ParseAction(item.action), Clamp(item.score))
  }

  predicate Usable(item: Item) {
    item.Item? && |item.symbol| > 0
  }

  /** Assignment into an insertion-ordered dictionary keyed by symbol. */
  function Put(rows: seq<Row>, r: Row): seq<Row> {
    if |rows| == 0 then [r]
    else if rows[|rows| - 1].symbol == r.symbol then rows[..|rows| - 1] + [r]
    else Put(rows[..|rows| - 1], r) + [rows[|rows| - 1]]
  }

  function PutItems(rows: seq<Row>, items: seq<Item>): seq<Row> {
    if |items| == 0 then rows
    else
      var before := PutItems(rows, items[..|items| - 1]);
      var item := items[|items| - 1];
      if Usable(item) then Put(before, RowOf(item)) else before
  }

  /** The rows the reply gives for a strategy. */
  function Said(reply: seq<Watchlist>, sid: string): seq<Row> {
    if |reply| == 0 then []
    else
      var before := Said(reply[..|reply| - 1], sid);
      var wl := reply[|reply| - 1];
      if wl.Watchlist? && wl.strategy == sid then PutItems(before, wl.items) else before
  }

  predicate Unique(rows: seq<Row>) {
    forall i, j :: 0 <= i < j < |rows| ==> rows[i].symbol != rows[j].symbol
  }

  function Symbols(rows: seq<Row>): set<string> {
    set r | r in rows :: r.symbol
  }

  lemma {:induction false} PutUnique(rows: seq<Row>, r: Row)
    requires Unique(rows)
    ensures Unique(Put(rows, r)) && Symbols(Put(rows, r)) == Symbols(rows) + {r.symbol}
    ensures forall x :: x in Put(rows, r) <==> x == r || (x in rows && x.symbol != r.symbol)
  {
    if |rows| > 0 {
      var n := |rows| - 1;
      assert rows == rows[..n] + [rows[n]];
      assert forall x :: x in rows <==> x in rows[..n] || x == rows[n];
      if rows[n].symbol != r.symbol {
        PutUnique(rows[..n], r);
        var out := Put(rows[..n], r);
        assert forall i :: 0 <= i < |out| ==> out[i] in out;
      }
    }
  }

  // ---- The last word on a symbol ----

  /** What the reply's last usable mention of a symbol under a strategy asks for. */
  function LastItem(items: seq<Item>, sym: string): Option<Row> {
    if |items| == 0 then None
    else
      var item := items[|items| - 1];
      if Usable(item) && Upper(item.symbol) == sym then Some(RowOf(item)) else LastItem(items[..|items| - 1], sym)
  }

  function LastWord(reply: seq<Watchlist>, sid: string, sym: string): Option<Row> {
    if |reply| == 0 then None
    else
      var wl := reply[|reply| - 1];
      var here := if wl.Watchlist? && wl.strategy == sid then LastItem(wl.items, sym) else None;
      if here.Some? then here else LastWord(reply[..|reply| - 1], sid, sym)
  }

  lemma {:induction false} PutItemsLast(rows: seq<Row>, items: seq<Item>, sym: string)
    requires Unique(rows)
    ensures Unique(PutItems(rows, items))
    ensures forall x :: x in PutItems(rows, items) && x.symbol == sym
              <==> if LastItem(items, sym).Some? then x == LastItem(items, sym).value else x in rows && x.symbol == sym
  {
    hide Put, Symbols, Upper, ParseAction, Clamp;
    if |items| > 0 {
      var n := |items| - 1;
      PutItemsLast(rows, items[..n], sym);
      if Usable(items[n]) { PutUnique(PutItems(rows, items[..n]), RowOf(items[n])); }
      LastItemSymbol(items, sym);
      LastItemSymbol(items[..n], sym);
    }
  }

  lemma {:induction false} LastItemSymbol(items: seq<Item>, sym: string)
    ensures LastItem(items, sym).Some? ==> LastItem(items, sym).value.symbol == sym
  {
    if |items| > 0 { LastItemSymbol(items[..|items| - 1], sym); }
  }

  /** The rows are the last words: one per symbol mentioned, none for any other. */
  lemma {:induction false} SaidIsLastWord(reply: seq<Watchlist>, sid: string, sym: string)
    ensures Unique(Said(reply, sid))
    ensures forall x :: x in Said(reply, sid) && x.symbol == sym <==> LastWord(reply, sid, sym) == Some(x)
  {
    if |reply| > 0 {
      var n := |reply| - 1;
      SaidIsLastWord(reply[..n], sid, sym);
      if reply[n].Watchlist? && reply[n].strategy == sid { PutItemsLast(Said(reply[..n], sid), reply[n].items, sym); }
    }
  }

  // ---- One strategy's rules ----

  datatype Rules = Rules(members: set<string>, prot: set<string>, eligible: set<string>,
                         maxAdds: nat, maxDrops: nat, minSymbols: int)

  predicate ValidAdd(u: Rules, r: Row) {
    r.action.Add? && r.symbol !in u.members && r.symbol in u.eligible
  }

  predicate ValidDrop(u: Rules, r: Row) {
    r.action.Drop? && r.symbol in u.members && r.symbol !in u.prot
  }

  function AddsOf(u: Rules, rows: seq<Row>): seq<Row> {
    if |rows| == 0 then []
    else AddsOf(u, rows[..|rows| - 1]) + if ValidAdd(u, rows[|rows| - 1]) then [rows[|rows| - 1]] else []
  }

  function DropsOf(u: Rules, rows: seq<Row>): seq<Row> {
    if |rows| == 0 then []
    else DropsOf(u, rows[..|rows| - 1]) + if ValidDrop(u, rows[|rows| - 1]) then [rows[|rows| - 1]] else []
  }

  function Kept(r: Row): Row {
    r.(action := Keep)
  }

  function KeepsOf(u: Rules, rows: seq<Row>): seq<Row> {
    if |rows| == 0 then []
    else
      var r := rows[|rows| - 1];
      KeepsOf(u, rows[..|rows| - 1]) + if r.symbol in u.members && !ValidDrop(u, r) then [Kept(r)] else []
  }

  lemma {:induction false} Sifted(u: Rules, rows: seq<Row>)
    requires Unique(rows)
    ensures Unique(AddsOf(u, rows)) && Unique(DropsOf(u, rows)) && Unique(KeepsOf(u, rows))
    ensures forall x :: x in AddsOf(u, rows) <==> x in rows && ValidAdd(u, x)
    ensures forall x :: x in DropsOf(u, rows) <==> x in rows && ValidDrop(u, x)
    ensures forall x :: x in KeepsOf(u, rows) <==> exists r ::
            r in rows && r.symbol in u.members && !ValidDrop(u, r)
            && x == Kept(r)
  {
    if |rows| > 0 {
      var n := |rows| - 1;
      var r := rows[n];
      Sifted(u, rows[..n]);
      assert rows == rows[..n] + [r];
      var a, d, k := AddsOf(u, rows[..n]), DropsOf(u, rows[..n]), KeepsOf(u, rows[..n]);
      forall i | 0 <= i < |a| ensures a[i].symbol != r.symbol { assert a[i] in rows[..n]; }
      forall i | 0 <= i < |d| ensures d[i].symbol != r.symbol { assert d[i] in rows[..n]; }
      forall i | 0 <= i < |k| ensures k[i].symbol != r.symbol {
        assert k[i] in k;
        var q :| q in rows[..n] && q.symbol in u.members && !ValidDrop(u, q) && k[i] == Kept(q);
      }
    }
  }

  // ---- Sorting ----

  /** Adds go best score first, drops worst score first; a missing score counts as the weakest case. */
  function Rank(adding: bool, r: Row): real {
    if adding then (if r.score.Some? then -r.score.value else 1.0)
    else if r.score.Some? then r.score.value else 101.0
  }

  predicate Ordered(adding: bool, rows: seq<Row>) {
    forall i, j :: 0 <= i < j < |rows| ==> Rank(adding, rows[i]) <= Rank(adding, rows[j])
  }

  function Insert(adding: bool, rows: seq<Row>, r: Row): (out: seq<Row>)
    requires Ordered(adding, rows)
    ensures Ordered(adding, out) && multiset(out) == multiset(rows) + multiset{r}
  {
    if |rows| == 0 then [r]
    else
      hide Rank, Ordered;
      var n := |rows| - 1;
      assert rows == rows[..n] + [rows[n]];
      OrderedParts(adding, rows);
      if Rank(adding, rows[n]) <= Rank(adding, r) then
        OrderedAppend(adding, rows, r);
        rows + [r]
      else
        var front := Insert(adding, rows[..n], r);
        InsertedBelow(adding, rows, r, front);
        OrderedAppend(adding, front, rows[n]);
        front + [rows[n]]
  }

  lemma OrderedParts(adding: bool, rows: seq<Row>)
    requires Ordered(adding, rows) && |rows| > 0
    ensures Ordered(adding, rows[..|rows| - 1])
    ensures forall i :: 0 <= i < |rows| ==> Rank(adding, rows[i]) <= Rank(adding, rows[|rows| - 1])
  {
    hide Rank;
  }

  lemma OrderedAppend(adding: bool, rows: seq<Row>, r: Row)
    requires Ordered(adding, rows) && forall i :: 0 <= i < |rows| ==> Rank(adding, rows[i]) <= Rank(adding, r)
    ensures Ordered(adding, rows + [r])
  {
    hide Rank;
  }

  lemma InsertedBelow(adding: bool, rows: seq<Row>, r: Row, front: seq<Row>)
    requires |rows| > 0 && Ordered(adding, rows) && multiset(front) == multiset(rows[..|rows| - 1]) + multiset{r}
    requires Rank(adding, r) <= Rank(adding, rows[|rows| - 1])
    ensures forall i :: 0 <= i < |front| ==> Rank(adding, front[i]) <= Rank(adding, rows[|rows| - 1])
  {
    hide Rank;
    forall i | 0 <= i < |front| ensures Rank(adding, front[i]) <= Rank(adding, rows[|rows| - 1]) {
      assert front[i] in multiset(front);
      assert front[i] == r || front[i] in rows[..|rows| - 1];
    }
  }

  function Sort(adding: bool, rows: seq<Row>): (out: seq<Row>)
    ensures Ordered(adding, out) && multiset(out) == multiset(rows)
  {
    if |rows| == 0 then []
    else
      assert rows == rows[..|rows| - 1] + [rows[|rows| - 1]];
      Insert(adding, Sort(adding, rows[..|rows| - 1]), rows[|rows| - 1])
  }

  lemma PermutedUnique(rows: seq<Row>, out: seq<Row>)
    requires Unique(rows) && multiset(out) == multiset(rows)
    ensures Unique(out) && |out| == |rows| && (forall x :: x in out <==> x in rows)
  {
    assert |multiset(out)| == |out|;
    forall x ensures x in out <==> x in rows { assert x in multiset(out) <==> x in multiset(rows); }
    forall i, j | 0 <= i < j < |out| ensures out[i].symbol != out[j].symbol {
      if out[i].symbol == out[j].symbol {
        var a, b := out[i], out[j];
        assert a in rows && b in rows;
        TwiceCounted(out, i, j);
        OnceCounted(rows, a);
      }
    }
  }

  lemma TwiceCounted(rows: seq<Row>, i: nat, j: nat)
    requires i < j < |rows|
    ensures rows[i] == rows[j] ==> multiset(rows)[rows[i]] >= 2
  {
    assert rows == rows[..i] + [rows[i]] + rows[i + 1..j] + [rows[j]] + rows[j + 1..];
  }

  lemma {:induction false} OnceCounted(rows: seq<Row>, r: Row)
    requires Unique(rows)
    ensures multiset(rows)[r] <= 1
  {
    if |rows| > 0 {
      var n := |rows| - 1;
      assert rows == rows[..n] + [rows[n]];
      OnceCounted(rows[..n], r);
      if r == rows[n] { assert r !in rows[..n]; assert r !in multiset(rows[..n]); }
    }
  }

  lemma {:induction false} SymbolCount(rows: seq<Row>)
    requires Unique(rows)
    ensures |Symbols(rows)| == |rows|
  {
    if |rows| > 0 {
      var n := |rows| - 1;
      SymbolCount(rows[..n]);
      assert rows == rows[..n] + [rows[n]];
      assert Symbols(rows) == Symbols(rows[..n]) + {rows[n].symbol};
    }
  }

  // ---- What the guardrails promise ----

  function Chosen(entries: seq<Row>, a: Action): set<string> {
    set r | r in entries && r.action == a :: r.symbol
  }

  /** The adds (and drops) the reply may legitimately ask for. */
  function ProposedAdds(u: Rules, rows: seq<Row>): set<string> {
    set r | r in rows && ValidAdd(u, r) :: r.symbol
  }

  function ProposedDrops(u: Rules, rows: seq<Row>): set<string> {
    set r | r in rows && ValidDrop(u, r) :: r.symbol
  }

  function Min(a: int, b: int): int {
    if a < b then a else b
  }

  /** How many drops the churn cap and the floor leave room for. */
  function DropRoom(u: Rules, adds: nat, proposed: nat): int {
    var room := Min(Min(u.maxDrops, proposed), |u.members| + adds - u.minSymbols);
    if room < 0 then 0 else room
  }

  /** A complete diff: every member once, kept or dropped, plus the adds. */
  predicate Complete(u: Rules, entries: seq<Row>) {
    Unique(entries) && Chosen(entries, Keep) + Chosen(entries, Drop) == u.members
  }

  /** Adds and drops are legitimate proposals of the reply. */
  predicate Legitimate(u: Rules, rows: seq<Row>, entries: seq<Row>) {
    && (forall r :: r in entries && r.action.Add? ==> r in rows && ValidAdd(u, r))
    && (forall r :: r in entries && r.action.Drop? ==> r in rows && ValidDrop(u, r))
  }

  /** As many of them as the caps and the floor allow. */
  predicate Counted(u: Rules, rows: seq<Row>, entries: seq<Row>) {
    && |Chosen(entries, Add)| == Min(u.maxAdds, |ProposedAdds(u, rows)|)
    && |Chosen(entries, Drop)| == DropRoom(u, |Chosen(entries, Add)|, |ProposedDrops(u, rows)|)
  }

  /** The best-scored adds and the worst-scored drops of those proposed. */
  predicate Ranked(u: Rules, rows: seq<Row>, entries: seq<Row>) {
    && (forall a, b :: a in entries && a.action.Add? && b in rows && ValidAdd(u, b) && b.symbol !in Chosen(entries, Add)
          ==> Rank(true, a) <= Rank(true, b))
    && (forall a, b :: a in entries && a.action.Drop? && b in rows && ValidDrop(u, b)
                            && b.symbol !in Chosen(entries, Drop) ==>
          Rank(false, a) <= Rank(false, b))
  }

  /** A kept member carries the score the reply gave it, and none if the reply left it out. */
  predicate Scored(rows: seq<Row>, r: Row) {
    (exists q :: q in rows && q.symbol == r.symbol && q.score == r.score)
    || (r.score.None? && forall q :: q in rows ==> q.symbol != r.symbol)
  }

  predicate Recorded(rows: seq<Row>, entries: seq<Row>) {
    forall r :: r in entries && r.action.Keep? ==> Scored(rows, r)
  }

  predicate Lawful(u: Rules, rows: seq<Row>, entries: seq<Row>) {
    && Complete(u, entries) && Legitimate(u, rows, entries) && Counted(u, rows, entries) && Ranked(u, rows, entries)
    && Recorded(rows, entries)
  }

  /** Membership after the run. */
  function Membership(entries: seq<Row>): set<string> {
    Chosen(entries, Keep) + Chosen(entries, Add)
  }

  lemma KeptOrDropped(entries: seq<Row>)
    requires Unique(entries)
    ensures Chosen(entries, Keep) !! Chosen(entries, Drop)
  {
    forall a, b | a in entries && b in entries && a.symbol == b.symbol ensures a == b {
      SameRow(entries, a, b);
    }
  }

  lemma SameRow(rows: seq<Row>, a: Row, b: Row)
    requires Unique(rows) && a in rows && b in rows && a.symbol == b.symbol
    ensures a == b
  {
  }

  /** In the reader's terms: no protected member leaves, nothing ineligible enters, the new membership is the
      old one less the drops plus the adds, and it never falls below the floor except where it already was. */
  lemma LawfulOutcome(u: Rules, rows: seq<Row>, entries: seq<Row>)
    requires Lawful(u, rows, entries)
    ensures u.prot * u.members <= Membership(entries)
    ensures Membership(entries) - u.members <= u.eligible
    ensures Membership(entries) == u.members - Chosen(entries, Drop) + Chosen(entries, Add)
    ensures |Chosen(entries, Add)| <= u.maxAdds && |Chosen(entries, Drop)| <= u.maxDrops
    ensures |Membership(entries)| >= Min(u.minSymbols, |u.members| + |Chosen(entries, Add)|)
  {
    var adds, drops, keeps := Chosen(entries, Add), Chosen(entries, Drop), Chosen(entries, Keep);
    assert adds !! u.members && drops <= u.members;
    KeptOrDropped(entries);
    assert keeps == u.members - drops;
    assert |keeps| == |u.members| - |drops|;
    assert Membership(entries) == keeps + adds && keeps !! adds;
    forall sym | sym in u.prot * u.members ensures sym in keeps {
      assert sym !in drops;
    }
  }

  // ---- The code ----

  /** The first loop: the reply's rows by known strategy. */
  method Collect(reply: seq<Watchlist>, known: set<string>) returns (said: map<string, seq<Row>>)
    ensures forall sid :: sid in known ==> (if sid in said then said[sid] else []) == Said(reply, sid)
  {
    hide Put, Upper, ParseAction, Clamp;
    said := map[];
    for n := 0 to |reply|
      invariant forall sid :: sid in known ==> (if sid in said then said[sid] else []) == Said(reply[..n], sid)
    {
      assert reply[..n + 1][..n] == reply[..n];
      var wl := reply[n];
      if wl.Watchlist? && wl.strategy in known {
        var rows := if wl.strategy in said then said[wl.strategy] else [];
        ghost var before := rows;
        for m := 0 to |wl.items|
          invariant rows == PutItems(before, wl.items[..m])
        {
          assert wl.items[..m + 1][..m] == wl.items[..m];
          if Usable(wl.items[m]) { rows := Put(rows, RowOf(wl.items[m])); }
        }
        assert wl.items[..|wl.items|] == wl.items;
        said := said[wl.strategy := rows];
      }
    }
    assert reply[..|reply|] == reply;
  }

  /** `all` is `rows` plus a keep for each member they leave out. */
  predicate FilledIn(u: Rules, rows: seq<Row>, all: seq<Row>) {
    && Unique(all) && u.members <= Symbols(all)
    && (forall r :: r in rows ==> r in all)
    && (forall r :: r in all ==> r in rows || Omitted(u, rows, r))
  }

  /** The entry of a member the reply leaves out. */
  predicate Omitted(u: Rules, rows: seq<Row>, r: Row) {
    r.action.Keep? && r.symbol in u.members && r.score.None? && forall q :: q in rows ==> q.symbol != r.symbol
  }

  /** Members the reply omitted are kept. */
  method FillIn(u: Rules, rows: seq<Row>) returns (all: seq<Row>)
    requires Unique(rows)
    ensures FilledIn(u, rows, all)
  {
    all := rows;
    var order := ListOf(u.members);
    for n := 0 to |order|
      invariant Unique(all) && forall i :: 0 <= i < n ==> order[i] in Symbols(all)
      invariant forall r :: r in rows ==> r in all
      invariant forall r :: r in all ==> r in rows || Omitted(u, rows, r)
    {
      var sym := order[n];
      ghost var was := all;
      if sym !in (set r | r in all :: r.symbol) {
        var extra := Row(sym, Keep, None);
        assert forall i :: 0 <= i < |was| ==> was[i].symbol != sym by {
          assert forall i :: 0 <= i < |was| ==> was[i] in was;
        }
        all := all + [extra];
        assert extra in all;
        assert forall i :: 0 <= i < n ==> order[i] in Symbols(was);
        assert Symbols(was) <= Symbols(all);
      }
    }
    forall sym | sym in u.members ensures sym in Symbols(all) {
      var i :| 0 <= i < |order| && order[i] == sym;
    }
  }

  /** The candidates for one action, in the order the clamps see them. */
  ghost predicate Candidates(u: Rules, all: seq<Row>, adding: bool, sorted: seq<Row>) {
    && Unique(sorted) && Ordered(adding, sorted)
    && forall x :: x in sorted <==> x in all && if adding then ValidAdd(u, x) else ValidDrop(u, x)
  }

  lemma SortedCandidates(u: Rules, all: seq<Row>)
    requires Unique(all)
    ensures Candidates(u, all, true, Sort(true, AddsOf(u, all)))
    ensures Candidates(u, all, false, Sort(false, DropsOf(u, all)))
    ensures Symbols(Sort(false, DropsOf(u, all))) == Symbols(DropsOf(u, all))
  {
    Sifted(u, all);
    PermutedUnique(AddsOf(u, all), Sort(true, AddsOf(u, all)));
    PermutedUnique(DropsOf(u, all), Sort(false, DropsOf(u, all)));
  }

  lemma KeptMore(rows: seq<Row>, keeps: seq<Row>, r: Row)
    requires Unique(keeps) && r.symbol !in Symbols(keeps) && r in rows
    ensures Scored(rows, Kept(r))
    ensures Unique(keeps + [Kept(r)]) && Symbols(keeps + [Kept(r)]) == Symbols(keeps) + {r.symbol}
  {
    assert forall i :: 0 <= i < |keeps| ==> keeps[i] in keeps;
    assert Kept(r) in keeps + [Kept(r)];
  }

  lemma Prefixed(rows: seq<Row>, n: nat)
    requires Unique(rows) && n < |rows|
    ensures Symbols(rows[..n + 1]) == Symbols(rows[..n]) + {rows[n].symbol} && rows[n].symbol !in Symbols(rows[..n])
    ensures Symbols(rows[n..]) == Symbols(rows[n + 1..]) + {rows[n].symbol} && rows[n].symbol !in Symbols(rows[n + 1..])
    ensures Symbols(rows) == Symbols(rows[..n]) + Symbols(rows[n..]) && Symbols(rows[..n]) !! Symbols(rows[n..])
  {
    assert rows[..n + 1] == rows[..n] + [rows[n]] && rows[n..] == [rows[n]] + rows[n + 1..]
           && rows == rows[..n] + rows[n..];
  }

  /** Rows kept so far: each member not among the drops still standing, with its score. */
  predicate KeptSoFar(u: Rules, rows: seq<Row>, keeps: seq<Row>, standing: set<string>) {
    Unique(keeps) && Symbols(keeps) == u.members - standing
    && forall r :: r in keeps ==> r.action.Keep? && Scored(rows, r)
  }

  /** Kept rows go back to rows of the reply or to members it leaves out. */
  lemma KeptScores(u: Rules, rows: seq<Row>, all: seq<Row>, keeps: seq<Row>)
    requires FilledIn(u, rows, all) && forall r :: r in keeps ==> exists q :: q in all && r == Kept(q)
    ensures forall r :: r in keeps ==> Scored(rows, r)
  {
    hide Unique, Symbols;
    forall r | r in keeps ensures Scored(rows, r) {
      var q :| q in all && r == Kept(q);
      if q in rows { assert q.symbol == r.symbol && q.score == r.score; }
    }
  }

  lemma SiftedKeeps(u: Rules, rows: seq<Row>, all: seq<Row>)
    requires FilledIn(u, rows, all)
    ensures KeptSoFar(u, rows, KeepsOf(u, all), Symbols(DropsOf(u, all)))
    ensures Symbols(DropsOf(u, all)) <= u.members
  {
    Sifted(u, all);
    var keeps, drops := KeepsOf(u, all), DropsOf(u, all);
    KeptScores(u, rows, all, keeps);
    forall sym | sym in u.members - Symbols(drops) ensures sym in Symbols(keeps) {
      var r :| r in all && r.symbol == sym;
      assert r !in drops;
      assert Kept(r) in keeps;
    }
    forall sym | sym in Symbols(keeps) ensures sym in u.members - Symbols(drops) {
      var x :| x in keeps && x.symbol == sym;
      var r :| r in all && r.symbol in u.members && !ValidDrop(u, r) && x == Kept(r);
      forall q | q in drops && q.symbol == sym ensures q == r { SameRow(all, r, q); }
    }
  }

  /** The churn cap on sorted drops: those past it are kept instead. */
  method ClampDrops(u: Rules, rows: seq<Row>, sorted: seq<Row>, keeps0: seq<Row>)
    returns (drops: seq<Row>, keeps: seq<Row>)
    requires forall r :: r in sorted ==> r in rows
    requires Unique(sorted) && KeptSoFar(u, rows, keeps0, Symbols(sorted)) && Symbols(sorted) <= u.members
    ensures drops == sorted[..Min(u.maxDrops, |sorted|)] && KeptSoFar(u, rows, keeps, Symbols(drops))
  {
    hide Symbols;
    keeps, drops := keeps0, sorted;
    if |sorted| > u.maxDrops {
      Prefixed(sorted, u.maxDrops);
      for n := u.maxDrops to |sorted|
        invariant KeptSoFar(u, rows, keeps, Symbols(sorted[..u.maxDrops]) + Symbols(sorted[n..]))
      {
        Prefixed(sorted, n);
        Suffixed(sorted, u.maxDrops, n);
        KeptMore(rows, keeps, sorted[n]);
        keeps := keeps + [Kept(sorted[n])];
      }
      NoSymbols(sorted[|sorted|..]);
      drops := sorted[..u.maxDrops];
    } else {
      assert sorted[..|sorted|] == sorted;
    }
  }

  /** The floor: the least confident drops are reverted while membership would fall below it. */
  method HoldFloor(u: Rules, rows: seq<Row>, adds: nat, clamped: seq<Row>, keeps0: seq<Row>)
    returns (drops: seq<Row>, keeps: seq<Row>)
    requires forall r :: r in clamped ==> r in rows
    requires Unique(clamped) && KeptSoFar(u, rows, keeps0, Symbols(clamped)) && Symbols(clamped) <= u.members
    ensures drops <= clamped && KeptSoFar(u, rows, keeps, Symbols(drops))
    ensures |u.members| + adds - u.minSymbols >= |drops| || |drops| == 0
    ensures |drops| < |clamped| ==> |u.members| + adds - u.minSymbols <= |drops|
  {
    hide Symbols;
    keeps, drops := keeps0, clamped;
    while |drops| > 0 && |u.members| - |drops| + adds < u.minSymbols
      invariant drops <= clamped && KeptSoFar(u, rows, keeps, Symbols(drops))
      invariant |drops| < |clamped| ==> |u.members| + adds - u.minSymbols <= |drops|
      decreases |drops|
    {
      var n := |drops| - 1;
      assert drops == clamped[..n + 1] && drops[..n] == clamped[..n];
      Prefixed(clamped, n);
      PrefixWithin(clamped, n + 1);
      KeptMore(rows, keeps, drops[n]);
      keeps := keeps + [Kept(drops[n])];
      drops := drops[..n];
    }
  }

  lemma PrefixWithin(rows: seq<Row>, n: nat)
    requires n <= |rows|
    ensures Symbols(rows[..n]) <= Symbols(rows)
  {
  }

  /** The rest of one strategy's turn: sift, clamp the adds, clamp the drops, hold the floor. */
  method Judge(u: Rules, rows: seq<Row>) returns (entries: seq<Row>)
    requires Unique(rows)
    ensures Lawful(u, rows, entries)
  {
    hide Lawful, Symbols, Candidates, KeptSoFar, FilledIn, DropRoom, Unique, Ordered, Sort, AddsOf, DropsOf, KeepsOf;
    var all := FillIn(u, rows);
    FilledParts(u, rows, all);
    var adds, drops, keeps := Sift(u, all);
    SiftedKeeps(u, rows, all);
    SortedCandidates(u, all);
    var adds0, drops0 := Sort(true, adds), Sort(false, drops);
    assert Unique(drops0) by { CandidatesUnique(u, all, false, drops0); }
    var a := Min(u.maxAdds, |adds0|);
    Proposals(u, rows, all, adds0, drops0);
    drops, keeps := ClampDrops(u, rows, drops0, keeps);
    PrefixWithin(drops0, |drops|);
    PrefixUnique(drops0, |drops|);
    drops, keeps := HoldFloor(u, rows, a, drops, keeps);
    assert |drops| == DropRoom(u, a, |drops0|) by { RoomLeft(u, a, |drops0|, |drops|); }
    assert drops == drops0[..|drops|];
    entries := adds0[..a] + keeps + drops;
    Assembled(u, rows, all, adds0, a, drops0, |drops|, keeps);
  }

  lemma FilledParts(u: Rules, rows: seq<Row>, all: seq<Row>)
    requires FilledIn(u, rows, all)
    ensures Unique(all) && u.members <= Symbols(all)
  {
  }

  lemma CandidatesUnique(u: Rules, all: seq<Row>, adding: bool, sorted: seq<Row>)
    requires Candidates(u, all, adding, sorted)
    ensures Unique(sorted)
  {
  }

  lemma RoomLeft(u: Rules, adds: nat, proposed: nat, left: nat)
    requires left <= Min(u.maxDrops, proposed)
    requires |u.members| + adds - u.minSymbols >= left || left == 0
    requires left < Min(u.maxDrops, proposed) ==> |u.members| + adds - u.minSymbols <= left
    ensures left == DropRoom(u, adds, proposed)
  {
  }

  /** The classification loop. */
  method Sift(u: Rules, all: seq<Row>) returns (adds: seq<Row>, drops: seq<Row>, keeps: seq<Row>)
    ensures adds == AddsOf(u, all) && drops == DropsOf(u, all) && keeps == KeepsOf(u, all)
  {
    adds, drops, keeps := [], [], [];
    for n := 0 to |all|
      invariant adds == AddsOf(u, all[..n]) && drops == DropsOf(u, all[..n]) && keeps == KeepsOf(u, all[..n])
    {
      assert all[..n + 1][..n] == all[..n];
      var r := all[n];
      match r.action {
        case Add =>
          if r.symbol in u.members {
            keeps := keeps + [Kept(r)];
          } else if r.symbol in u.eligible {
            adds := adds + [r];
          }
        case Drop =>
          if r.symbol in u.members {
            if r.symbol in u.prot { keeps := keeps + [Kept(r)]; } else { drops := drops + [r]; }
          }
        case Keep =>
          if r.symbol in u.members { keeps := keeps + [Kept(r)]; }
      }
    }
    assert all[..|all|] == all;
  }

  lemma NoSymbols(rows: seq<Row>)
    requires rows == []
    ensures Symbols(rows) == {}
  {
  }

  lemma Suffixed(rows: seq<Row>, a: nat, n: nat)
    requires Unique(rows) && a <= n < |rows|
    ensures rows[n].symbol !in Symbols(rows[..a])
  {
  }

  /** The pieces make a lawful outcome. */
  lemma Assembled(u: Rules, rows: seq<Row>, all: seq<Row>, adds0: seq<Row>, a: nat, drops0: seq<Row>, d: nat,
                  keeps: seq<Row>)
    requires FilledIn(u, rows, all) && Candidates(u, all, true, adds0) && Candidates(u, all, false, drops0)
    requires a == Min(u.maxAdds, |adds0|) && d == DropRoom(u, a, |drops0|) && d <= |drops0|
    requires KeptSoFar(u, rows, keeps, Symbols(drops0[..d]))
    ensures Lawful(u, rows, adds0[..a] + keeps + drops0[..d])
  {
    hide Complete, Legitimate, Counted, Ranked, Recorded, Scored, Symbols, Chosen, Ordered, FilledIn, Unique, ValidAdd,
         ValidDrop;
    var adds, drops := adds0[..a], drops0[..d];
    var entries := adds + keeps + drops;
    assert forall r :: r in adds ==> r in adds0;
    assert forall r :: r in drops ==> r in drops0;
    Validity(u, adds, drops);
    ChosenParts(adds, keeps, drops);
    Proposals(u, rows, all, adds0, drops0);
    PrefixUnique(adds0, a);
    PrefixUnique(drops0, d);
    CompleteParts(u, rows, adds, keeps, drops);
    assert Recorded(rows, entries) by { RecordedParts(u, rows, adds, keeps, drops); }
    assert Legitimate(u, rows, entries) by { LegitimateParts(u, rows, adds0, a, drops0, d, keeps); }
    assert Counted(u, rows, entries) by {
      SymbolCount(adds);
      SymbolCount(drops);
      SymbolCount(adds0);
      SymbolCount(drops0);
      CountedParts(u, rows, entries);
    }
    assert Ranked(u, rows, entries) by { RankedParts(u, rows, adds0, a, drops0, d, keeps); }
  }

  lemma Validity(u: Rules, adds: seq<Row>, drops: seq<Row>)
    requires forall r :: r in adds ==> ValidAdd(u, r)
    requires forall r :: r in drops ==> ValidDrop(u, r)
    ensures forall r :: r in adds ==> r.action.Add? && r.symbol !in u.members
    ensures forall r :: r in drops ==> r.action.Drop? && r.symbol in u.members
  {
  }

  lemma PrefixUnique(rows: seq<Row>, n: nat)
    requires Unique(rows) && n <= |rows|
    ensures Unique(rows[..n])
  {
  }

  lemma CompleteParts(u: Rules, rows: seq<Row>, adds: seq<Row>, keeps: seq<Row>, drops: seq<Row>)
    requires Unique(adds) && Unique(drops) && KeptSoFar(u, rows, keeps, Symbols(drops))
    requires forall r :: r in adds ==> r.action.Add? && r.symbol !in u.members
    requires forall r :: r in drops ==> r.action.Drop? && r.symbol in u.members
    ensures Complete(u, adds + keeps + drops)
  {
    EntriesUnique(u, adds, keeps, drops);
    ChosenParts(adds, keeps, drops);
  }

  lemma RecordedParts(u: Rules, rows: seq<Row>, adds: seq<Row>, keeps: seq<Row>, drops: seq<Row>)
    requires KeptSoFar(u, rows, keeps, Symbols(drops))
    requires (forall r :: r in adds ==> r.action.Add?) && (forall r :: r in drops ==> r.action.Drop?)
    ensures Recorded(rows, adds + keeps + drops)
  {
    hide Scored, Unique, Symbols;
  }

  lemma LegitimateParts(u: Rules, rows: seq<Row>, adds0: seq<Row>, a: nat, drops0: seq<Row>, d: nat, keeps: seq<Row>)
    requires a <= |adds0| && d <= |drops0| && forall r :: r in keeps ==> r.action.Keep?
    requires forall x :: x in rows && ValidAdd(u, x) <==> x in adds0
    requires forall x :: x in rows && ValidDrop(u, x) <==> x in drops0
    ensures Legitimate(u, rows, adds0[..a] + keeps + drops0[..d])
  {
    var entries := adds0[..a] + keeps + drops0[..d];
    assert forall r :: r in entries <==> r in adds0[..a] || r in keeps || r in drops0[..d];
    assert forall r :: r in adds0[..a] ==> r in adds0;
    assert forall r :: r in drops0[..d] ==> r in drops0;
  }

  lemma CountedParts(u: Rules, rows: seq<Row>, entries: seq<Row>)
    requires |Chosen(entries, Add)| == Min(u.maxAdds, |ProposedAdds(u, rows)|)
    requires |Chosen(entries, Drop)| == DropRoom(u, |Chosen(entries, Add)|, |ProposedDrops(u, rows)|)
    ensures Counted(u, rows, entries)
  {
  }

  lemma RankedParts(u: Rules, rows: seq<Row>, adds0: seq<Row>, a: nat, drops0: seq<Row>, d: nat, keeps: seq<Row>)
    requires Unique(adds0) && Ordered(true, adds0) && a <= |adds0| && Unique(drops0) && Ordered(false, drops0)
    requires d <= |drops0|
    requires forall r :: r in keeps ==> r.action.Keep?
    requires forall x :: x in rows && ValidAdd(u, x) <==> x in adds0
    requires forall x :: x in rows && ValidDrop(u, x) <==> x in drops0
    ensures Ranked(u, rows, adds0[..a] + keeps + drops0[..d])
  {
    hide Rank, Ordered, Unique;
    var entries := adds0[..a] + keeps + drops0[..d];
    assert forall r :: r in entries <==> r in adds0[..a] || r in keeps || r in drops0[..d];
    assert forall r :: r in adds0[..a] ==> r in adds0 && ValidAdd(u, r);
    assert forall r :: r in drops0[..d] ==> r in drops0 && ValidDrop(u, r);
    ChosenParts(adds0[..a], keeps, drops0[..d]);
    LeftOut(true, adds0, a);
    LeftOut(false, drops0, d);
  }

  lemma ChosenParts(adds: seq<Row>, keeps: seq<Row>, drops: seq<Row>)
    requires forall r :: r in adds ==> r.action.Add?
    requires forall r :: r in keeps ==> r.action.Keep?
    requires forall r :: r in drops ==> r.action.Drop?
    ensures var entries := adds + keeps + drops;
            Chosen(entries, Add) == Symbols(adds) && Chosen(entries, Keep) == Symbols(keeps)
              && Chosen(entries, Drop) == Symbols(drops)
  {
    var entries := adds + keeps + drops;
    assert forall r :: r in entries <==> r in adds || r in keeps || r in drops;
  }

  lemma Proposals(u: Rules, rows: seq<Row>, all: seq<Row>, adds0: seq<Row>, drops0: seq<Row>)
    requires FilledIn(u, rows, all) && Candidates(u, all, true, adds0) && Candidates(u, all, false, drops0)
    ensures ProposedAdds(u, rows) == Symbols(adds0) && ProposedDrops(u, rows) == Symbols(drops0)
    ensures forall x :: x in rows && ValidAdd(u, x) <==> x in adds0
    ensures forall x :: x in rows && ValidDrop(u, x) <==> x in drops0
  {
  }

  lemma EntriesUnique(u: Rules, adds: seq<Row>, keeps: seq<Row>, drops: seq<Row>)
    requires Unique(adds) && Unique(keeps) && Unique(drops)
    requires forall r :: r in adds ==> r.symbol !in u.members
    requires forall r :: r in drops ==> r.symbol in u.members
    requires Symbols(keeps) == u.members - Symbols(drops)
    ensures Unique(adds + keeps + drops)
  {
    assert forall i :: 0 <= i < |adds| ==> adds[i] in adds;
    assert forall i :: 0 <= i < |keeps| ==> keeps[i] in keeps && keeps[i].symbol in Symbols(keeps);
    assert forall i :: 0 <= i < |drops| ==> drops[i] in drops && drops[i].symbol in Symbols(drops);
  }

  /** Whatever a prefix leaves out ranks no better than what it keeps. */
  lemma LeftOut(adding: bool, rows: seq<Row>, n: nat)
    requires Unique(rows) && Ordered(adding, rows) && n <= |rows|
    ensures forall a, b :: a in rows[..n] && b in rows && b.symbol !in Symbols(rows[..n]) ==>
            Rank(adding, a) <= Rank(adding, b)
  {
    hide Rank, Symbols;
    forall j: nat | j < n ensures rows[j].symbol in Symbols(rows[..n]) { KeptSymbol(rows, n, j); }
    forall a, b | a in rows[..n] && b in rows && b.symbol !in Symbols(rows[..n])
      ensures Rank(adding, a) <= Rank(adding, b)
    {
      var i :| 0 <= i < n && rows[i] == a;
      var j :| 0 <= j < |rows| && rows[j] == b;
    }
  }

  lemma KeptSymbol(rows: seq<Row>, n: nat, j: nat)
    requires j < n <= |rows|
    ensures rows[j].symbol in Symbols(rows[..n])
  {
    assert rows[..n][j] == rows[j];
  }

  function RulesFor(current: map<string, seq<string>>, prot: map<string, set<string>>, eligible: set<string>,
                    sid: string,
                    maxAdds: nat, maxDrops: nat, minSymbols: int): Rules
  {
    Rules(if sid in current then set s | s in current[sid] :: Upper(s) else {},
          if sid in prot then prot[sid] else {}, eligible, maxAdds, maxDrops, minSymbols)
  }

  /** enforce_guardrails: for every reply, every known strategy gets a lawful diff. */
  method EnforceGuardrails(reply: seq<Watchlist>, current: map<string, seq<string>>, prot: map<string, set<string>>,
                           eligible: set<string>, known: set<string>, maxAdds: nat, maxDrops: nat, minSymbols: int)
    returns (result: map<string, seq<Row>>)
    ensures result.Keys == known
    ensures forall sid :: sid in known ==>
              Lawful(RulesFor(current, prot, eligible, sid, maxAdds, maxDrops, minSymbols), Said(reply, sid),
                     result[sid])
  {
    hide Lawful, Said;
    var said := Collect(reply, known);
    result := map[];
    var order := ListOf(known);
    for n := 0 to |order|
      invariant result.Keys == set i | 0 <= i < n :: order[i]
      invariant forall sid :: sid in result ==>
                  Lawful(RulesFor(current, prot, eligible, sid, maxAdds, maxDrops, minSymbols), Said(reply, sid),
                         result[sid])
    {
      var sid := order[n];
      SaidIsLastWord(reply, sid, sid);
      var entries := Judge(RulesFor(current, prot, eligible, sid, maxAdds, maxDrops, minSymbols),
                           if sid in said then said[sid] else []);
      result := result[sid := entries];
    }
  }
}
