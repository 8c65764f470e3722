/** What the guardrails leave of a reply, read off its text, its scores and the rules
    (intelligence/universe_refresh.py:196-309). */
module GuardrailOutcome {
  import opened Models
  import opened Guardrails

  // ---- From text to rows ----

  /** The word in either case, letter by letter. */
  predicate Spells(text: Option<string>, lower: string, upper: string)
    requires |lower| == |upper|
  {
    text.Some? && |text.value| == |lower|
    && forall i :: 0 <= i < |lower| ==> text.value[i] == lower[i] || text.value[i] == upper[i]
  }

  predicate IsList(reply: seq<Watchlist>, sid: string, w: nat) {
    w < |reply| && reply[w].Watchlist? && reply[w].strategy == sid
  }

  predicate Names(item: Item, sym: string) {
    item.Item? && item.symbol != "" && Upper(item.symbol) == sym
  }

  /** Entry k of list w mentions the symbol, and nothing of the strategy after it does. */
  predicate LastMention(reply: seq<Watchlist>, sid: string, sym: string, w: nat, k: nat) {
    && IsList(reply, sid, w) && k < |reply[w].items| && Names(reply[w].items[k], sym)
    && (forall m :: k < m < |reply[w].items| ==> !Names(reply[w].items[m], sym))
    && (forall v: nat :: w < v < |reply| && IsList(reply, sid, v) ==> Silent(reply[v].items, sym))
  }

  predicate Silent(items: seq<Item>, sym: string) {
    forall m :: 0 <= m < |items| ==> !Names(items[m], sym)
  }

  /** The row an entry makes: add or drop exactly if its action is that word in any case, keep otherwise; its score cut
      to between 0 and 100. */
  predicate Makes(item: Item, r: Row)
    requires item.Item?
  {
    && r.symbol == Upper(item.symbol)
    && (r.action.Add? <==> Spells(item.action, "add", "ADD"))
    && (r.action.Drop? <==> Spells(item.action, "drop", "DROP"))
    && (r.score.Some? <==> item.score.Some?)
    && (item.score.Some? ==>
          && 0.0 <= r.score.value <= 100.0
          && (item.score.value <= 0.0 ==> r.score.value == 0.0)
          && (item.score.value >= 100.0 ==> r.score.value == 100.0)
          && (0.0 <= item.score.value <= 100.0 ==> r.score == item.score))
  }

  lemma LowerCase(c: char, lower: char, upper: char)
    requires 'a' <= lower <= 'z' && upper as int == lower as int - 32
    ensures LowerChar(c) == lower <==> c == lower || c == upper
  {
  }

  lemma LowerIs(text: string, lower: string, upper: string)
    requires |lower| == |upper|
    requires forall i :: 0 <= i < |lower| ==> 'a' <= lower[i] <= 'z' && upper[i] as int == lower[i] as int - 32
    ensures Lower(text) == lower <==> Spells(Some(text), lower, upper)
  {
    forall i | 0 <= i < |lower| && |text| == |lower|
      ensures Lower(text)[i] == lower[i] <==> text[i] == lower[i] || text[i] == upper[i]
    {
      LowerCase(text[i], lower[i], upper[i]);
    }
    if Spells(Some(text), lower, upper) { assert Lower(text) == lower; }
  }

  lemma RowMakes(item: Item)
    requires item.Item?
    ensures Makes(item, RowOf(item))
  {
    if item.action.Some? {
      LowerIs(item.action.value, "add", "ADD");
      LowerIs(item.action.value, "drop", "DROP");
    }
  }

  lemma {:induction false} LastIn(items: seq<Item>, sym: string) returns (k: nat)
    ensures LastItem(items, sym).None? ==> Silent(items, sym)
    ensures LastItem(items, sym).Some? ==>
              && k < |items| && Names(items[k], sym) && LastItem(items, sym).value == RowOf(items[k])
              && forall m :: k < m < |items| ==> !Names(items[m], sym)
  {
    hide Upper, RowOf;
    k := 0;
    if |items| > 0 {
      var n := |items| - 1;
      if Names(items[n], sym) {
        k := n;
      } else {
        k := LastIn(items[..n], sym);
      }
    }
  }

  /** The rows of a strategy: the row made by the last entry that names a symbol, for each symbol named, and no
      other. */
  lemma {:induction false} LastWordMeans(reply: seq<Watchlist>, sid: string, sym: string) returns (w: nat, k: nat)
    ensures LastWord(reply, sid, sym).None? ==>
              forall v: nat :: v < |reply| && IsList(reply, sid, v) ==> Silent(reply[v].items, sym)
    ensures LastWord(reply, sid, sym).Some? ==>
              LastMention(reply, sid, sym, w, k) && LastWord(reply, sid, sym).value == RowOf(reply[w].items[k])
  {
    hide LastItem, RowOf, Names;
    w, k := 0, 0;
    if |reply| > 0 {
      var n := |reply| - 1;
      var here := if IsList(reply, sid, n) then LastItem(reply[n].items, sym) else None;
      if IsList(reply, sid, n) { k := LastIn(reply[n].items, sym); }
      if here.Some? {
        w := n;
      } else {
        w, k := LastWordMeans(reply[..n], sid, sym);
        assert forall v: nat :: v < n ==> (IsList(reply, sid, v) <==> IsList(reply[..n], sid, v));
      }
    }
  }

  /** Each row comes from the last entry that names its symbol. */
  lemma RowMeans(reply: seq<Watchlist>, sid: string, r: Row) returns (w: nat, k: nat)
    requires r in Said(reply, sid)
    ensures LastMention(reply, sid, r.symbol, w, k) && Makes(reply[w].items[k], r)
  {
    hide Said, LastWord, Makes, RowOf;
    SaidIsLastWord(reply, sid, r.symbol);
    w, k := LastWordMeans(reply, sid, r.symbol);
    RowMakes(reply[w].items[k]);
  }

  /** And each symbol named has its row. */
  lemma NamedHasRow(reply: seq<Watchlist>, sid: string, w: nat, k: nat) returns (r: Row)
    requires IsList(reply, sid, w) && k < |reply[w].items| && reply[w].items[k].Item? && reply[w].items[k].symbol != ""
    ensures r in Said(reply, sid) && r.symbol == Upper(reply[w].items[k].symbol)
  {
    hide Said, LastWord, LastMention, Upper, RowOf;
    var sym := Upper(reply[w].items[k].symbol);
    assert Names(reply[w].items[k], sym);
    SaidIsLastWord(reply, sid, sym);
    var v, m := LastWordMeans(reply, sid, sym);
    r := LastWord(reply, sid, sym).value;
  }

  // ---- From rows to membership ----

  /** A reply may ask for this add. */
  predicate MayAdd(u: Rules, r: Row) {
    r.action == Add && r.symbol in u.eligible - u.members
  }

  /** A reply may ask for this drop. */
  predicate MayDrop(u: Rules, r: Row) {
    r.action == Drop && r.symbol in u.members - u.prot
  }

  function With(entries: seq<Row>, action: Action): set<string> {
    set r | r in entries && r.action == action :: r.symbol
  }

  /** The survivor is a surer add than one that was clamped: it scored at least as much, and it has a score if the
      other had one. */
  predicate SurerAdd(kept: Row, clamped: Row) {
    && (kept.score.Some? && clamped.score.Some? ==> kept.score.value >= clamped.score.value)
    && (kept.score.None? ==> clamped.score.None?)
  }

  /** The survivor is a surer drop than one that was clamped or reverted: it scored at most as much, and it has a
      score if the other had one. */
  predicate SurerDrop(kept: Row, reverted: Row) {
    && (kept.score.Some? && reverted.score.Some? ==> kept.score.value <= reverted.score.value)
    && (kept.score.None? ==> reverted.score.None?)
  }

  lemma SaidScored(reply: seq<Watchlist>, sid: string)
    ensures forall r :: r in Said(reply, sid) && r.score.Some? ==> 0.0 <= r.score.value <= 100.0
  {
    hide Said, LastMention;
    forall r | r in Said(reply, sid) && r.score.Some? ensures 0.0 <= r.score.value <= 100.0 {
      var w, k := RowMeans(reply, sid, r);
    }
  }

  /** Any lawful outcome: every surviving add is surer than every add that was clamped, and every surviving drop surer
      than every drop that was clamped or reverted. */
  lemma BestSurvive(u: Rules, reply: seq<Watchlist>, sid: string, entries: seq<Row>)
    requires Lawful(u, Said(reply, sid), entries)
    ensures forall a, b :: a in entries && a.action.Add? && b in Said(reply, sid) && MayAdd(u, b) && b !in entries ==>
              SurerAdd(a, b)
    ensures forall a, b :: a in entries && a.action.Drop? && b in Said(reply, sid) && MayDrop(u, b) && b !in entries ==>
              SurerDrop(a, b)
  {
    hide Said, Complete, Counted, Recorded;
    var rows := Said(reply, sid);
    SaidScored(reply, sid);
    SaidIsLastWord(reply, sid, sid);
    forall a, b | a in entries && a.action.Add? && b in rows && MayAdd(u, b) && b !in entries ensures SurerAdd(a, b) {
      NotChosen(u, rows, entries, b);
      assert ValidAdd(u, b) && a in rows;
      assert Rank(true, a) <= Rank(true, b);
    }
    forall a, b | a in entries && a.action.Drop? && b in rows && MayDrop(u, b) && b !in entries
      ensures SurerDrop(a, b)
    {
      NotChosen(u, rows, entries, b);
      assert ValidDrop(u, b) && a in rows;
      assert Rank(false, a) <= Rank(false, b);
    }
  }

  lemma NotChosen(u: Rules, rows: seq<Row>, entries: seq<Row>, b: Row)
    requires Legitimate(u, rows, entries) && Unique(rows) && b in rows && b !in entries && !b.action.Keep?
    ensures b.symbol !in Chosen(entries, b.action)
  {
    if b.symbol in Chosen(entries, b.action) {
      var r :| r in entries && r.action == b.action && r.symbol == b.symbol;
      SameRow(rows, r, b);
    }
  }

  lemma SameSets(entries: seq<Row>)
    ensures forall action :: With(entries, action) == Chosen(entries, action)
  {
  }

  /** Any lawful outcome: adds and drops are rows of the reply it may ask for, a symbol has one entry, and a kept member
      carries the score the reply gave it. */
  lemma OnlyAsked(u: Rules, reply: seq<Watchlist>, sid: string, entries: seq<Row>)
    requires Lawful(u, Said(reply, sid), entries)
    ensures var rows := Said(reply, sid);
            && (forall r :: r in entries && r.action.Add? ==> r in rows && MayAdd(u, r))
            && (forall r :: r in entries && r.action.Drop? ==> r in rows && MayDrop(u, r))
            && (forall r, s :: r in entries && s in entries && r.symbol == s.symbol ==> r == s)
            && (forall r :: r in entries && r.action.Keep? ==>
                  if exists q :: q in rows && q.symbol == r.symbol
                  then exists q :: q in rows && q.symbol == r.symbol && q.score == r.score
                  else r.score.None?)
  {
    hide Said, Ranked, Counted, Chosen;
    forall r, s | r in entries && s in entries && r.symbol == s.symbol ensures r == s { SameRow(entries, r, s); }
  }

  /** An add is clamped only once the cap is used up. */
  lemma AddsUsed(u: Rules, reply: seq<Watchlist>, sid: string, entries: seq<Row>, b: Row)
    requires Lawful(u, Said(reply, sid), entries) && b in Said(reply, sid) && MayAdd(u, b) && b !in entries
    ensures |With(entries, Add)| == u.maxAdds
  {
    hide Said, Ranked, Recorded, Complete;
    var rows := Said(reply, sid);
    SaidIsLastWord(reply, sid, sid);
    SameSets(entries);
    NotChosen(u, rows, entries, b);
    assert b.symbol in ProposedAdds(u, rows);
    Fewer(Chosen(entries, Add), ProposedAdds(u, rows), b.symbol);
  }

  /** A drop is clamped or reverted only if its cap is used up or one more would break the floor. */
  lemma DropsUsed(u: Rules, reply: seq<Watchlist>, sid: string, entries: seq<Row>, b: Row)
    requires Lawful(u, Said(reply, sid), entries) && b in Said(reply, sid) && MayDrop(u, b) && b !in entries
    ensures |With(entries, Drop)| == u.maxDrops
            || |u.members| + |With(entries, Add)| - (|With(entries, Drop)| + 1) < u.minSymbols
  {
    hide Said, Ranked, Recorded, Complete;
    var rows := Said(reply, sid);
    SaidIsLastWord(reply, sid, sid);
    SameSets(entries);
    NotChosen(u, rows, entries, b);
    assert b.symbol in ProposedDrops(u, rows);
    Fewer(Chosen(entries, Drop), ProposedDrops(u, rows), b.symbol);
  }

  /** Any lawful outcome: the caps hold, nothing is held back that they and the floor leave room for, no drop survives
      below the floor, and every member not dropped is kept. */
  lemma NoMoreThanNeeded(u: Rules, reply: seq<Watchlist>, sid: string, entries: seq<Row>)
    requires Lawful(u, Said(reply, sid), entries)
    ensures var rows, adds, drops := Said(reply, sid), With(entries, Add), With(entries, Drop);
            && |adds| <= u.maxAdds && |drops| <= u.maxDrops
            && ((exists b :: b in rows && MayAdd(u, b) && b !in entries) ==> |adds| == u.maxAdds)
            && ((exists b :: b in rows && MayDrop(u, b) && b !in entries) ==>
                  |drops| == u.maxDrops || |u.members| + |adds| - (|drops| + 1) < u.minSymbols)
            && (drops != {} ==> |u.members| + |adds| - |drops| >= u.minSymbols)
            && With(entries, Keep) == u.members - drops && drops <= u.members
  {
    hide Said, Legitimate, Ranked, Recorded, With, MayAdd, MayDrop, Chosen, ProposedAdds, ProposedDrops;
    var rows := Said(reply, sid);
    SameSets(entries);
    LawfulOutcome(u, rows, entries);
    KeptOrDropped(entries);
    if b :| b in rows && MayAdd(u, b) && b !in entries { AddsUsed(u, reply, sid, entries, b); }
    if b :| b in rows && MayDrop(u, b) && b !in entries { DropsUsed(u, reply, sid, entries, b); }
  }

  lemma Fewer(a: set<string>, b: set<string>, x: string)
    requires a <= b && x in b && x !in a
    ensures |a| < |b|
  {
    assert |b| == |a| + |b - a|;
    assert x in b - a;
  }

  /** Of the run's own inputs: a current member that is protected stays whatever the reply says, and a symbol enters
      only if it is eligible. */
  lemma ProtectedStay(reply: seq<Watchlist>, current: map<string, seq<string>>, prot: map<string, set<string>>,
                      eligible: set<string>, sid: string, maxAdds: nat, maxDrops: nat, minSymbols: int,
                      entries: seq<Row>, sym: string)
    requires Lawful(RulesFor(current, prot, eligible, sid, maxAdds, maxDrops, minSymbols), Said(reply, sid), entries)
    ensures sid in current && sym in current[sid] && sid in prot && Upper(sym) in prot[sid] ==>
              Upper(sym) in With(entries, Keep)
    ensures sid in current && sym in current[sid] ==> Upper(sym) in With(entries, Keep) + With(entries, Drop)
    ensures sym in With(entries, Add) ==> sym in eligible
    ensures sym in With(entries, Add) && sid in current ==> forall s :: s in current[sid] ==> Upper(s) != sym
    ensures |With(entries, Add)| <= maxAdds && |With(entries, Drop)| <= maxDrops
    ensures With(entries, Drop) != {} ==> |With(entries, Keep)| + |With(entries, Add)| >= minSymbols
  {
    hide Lawful, Said, Upper;
    var u := RulesFor(current, prot, eligible, sid, maxAdds, maxDrops, minSymbols);
    NoMoreThanNeeded(u, reply, sid, entries);
    OnlyAsked(u, reply, sid, entries);
    var drops := With(entries, Drop);
    assert |u.members - drops| == |u.members| - |drops|;
  }
}
