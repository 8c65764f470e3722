/** The universe refresh end to end (intelligence/universe_refresh.py:330-523): reply, guardrails, stored
    run, applied run, overlaid universe, one strategy's tickers. */
module WatchlistPipeline {
  import opened Models
  import opened PaperBrokers
  import opened Repos
  import opened BrokerSim
  import opened Guardrails
  import opened Watchlists

  /** What a run stores for the guarded result: one entry per row. */
  ghost predicate Stores(entries: seq<Entry>, run: nat, result: map<string, seq<Row>>) {
    forall sid, sym, a :: Entry(run, sid, sym, a) in entries
      <==> sid in result && exists r :: r in result[sid] && r.symbol == sym && r.action == a
  }

  predicate NoEntriesOf(entries: seq<Entry>, run: nat) {
    forall e :: e in entries ==> e.run != run
  }

  /** Nothing was added or dropped. */
  predicate NoChange(result: map<string, seq<Row>>) {
    forall sid :: sid in result ==> Chosen(result[sid], Add) == {} && Chosen(result[sid], Drop) == {}
  }

  method StoreEntries(repo: WatchlistsRepo, run: nat, result: map<string, seq<Row>>) returns (changes: nat)
    requires NoEntriesOf(repo.entries, run)
    modifies repo`entries
    ensures Stores(repo.entries, run, result)
    ensures changes == 0 <==> NoChange(result)
  {
    changes := 0;
    var order := ListOf(result.Keys);
    for n := 0 to |order|
      invariant forall sid, sym, a :: Entry(run, sid, sym, a) in repo.entries
                  <==> (exists i :: 0 <= i < n && order[i] == sid && exists r ::
                        r in result[sid] && r.symbol == sym
                        && r.action == a)
      invariant changes == 0 <==> forall i :: 0 <= i < n ==> AllKept(result[order[i]])
    {
      var sid := order[n];
      var rows := result[sid];
      ghost var was := repo.entries;
      for m := 0 to |rows|
        invariant forall s, sym, a :: Entry(run, s, sym, a) in repo.entries
                    <==>
                      Entry(run, s, sym, a) in was
                      || (s == sid && exists r :: r in rows[..m] && r.symbol == sym && r.action == a)
        invariant changes == 0 <==> (forall i :: 0 <= i < n ==> AllKept(result[order[i]])) && AllKept(rows[..m])
      {
        assert rows[..m + 1] == rows[..m] + [rows[m]];
        if !rows[m].action.Keep? { changes := changes + 1; }
        repo.InsertEntry(Entry(run, sid, rows[m].symbol, rows[m].action));
      }
      assert rows[..|rows|] == rows;
    }
    KeptIsNoChange(result, order);
  }

  predicate AllKept(rows: seq<Row>) {
    forall r :: r in rows ==> r.action.Keep?
  }

  lemma KeptIsNoChange(result: map<string, seq<Row>>, order: seq<string>)
    requires Enumerates(order, result.Keys)
    ensures NoChange(result) <==> forall i :: 0 <= i < |order| ==> AllKept(result[order[i]])
  {
    forall sid | sid in result
      ensures AllKept(result[sid]) <==> Chosen(result[sid], Add) == {} && Chosen(result[sid], Drop) == {}
    {
      forall r | r in result[sid] ensures r.symbol in Chosen(result[sid], r.action) {}
    }
  }

  /** Open-position symbols of the strategy, plus the operator's pins. */
  function Protected(ps: seq<Position>, pinned: map<string, seq<string>>, sid: string): set<string> {
    (set p | p in ps && !p.state.Idle? && p.strategy == sid :: Upper(p.symbol))
    + if sid in pinned then set s | s in pinned[sid] :: Upper(s) else {}
  }

  method ProtectedSets(ps: seq<Position>, pinned: map<string, seq<string>>, known: set<string>)
    returns (prot: map<string, set<string>>)
    ensures prot.Keys == known && forall sid :: sid in known ==> prot[sid] == Protected(ps, pinned, sid)
  {
    prot := map sid | sid in known :: Protected(ps, pinned, sid);
  }

  /** The diff base: what each strategy trades now. */
  function CurrentOf(u: Universe, known: set<string>): map<string, seq<string>> {
    map sid | sid in known :: SymbolsOf(TickersFor(u.tickers, sid))
  }

  function SymbolsOf(tickers: seq<Ticker>): seq<string> {
    seq(|tickers|, i requires 0 <= i < |tickers| => Upper(tickers[i].symbol))
  }

  /** The job from the parsed reply on. An unchanged run is closed; a changed one is applied if the
      configuration says so. */
  method RunRefresh(repo: WatchlistsRepo, reply: seq<Watchlist>, current: map<string, seq<string>>,
                    prot: map<string, set<string>>, eligible: set<string>, known: set<string>,
                    maxAdds: nat, maxDrops: nat, minSymbols: int, autoApply: bool, now: int)
    returns (run: nat, result: map<string, seq<Row>>)
    requires forall e :: e in repo.entries ==> e.run < |repo.runs|
    modifies repo
    ensures result.Keys == known && run < |repo.runs|
    ensures forall sid :: sid in known ==>
              Lawful(RulesFor(current, prot, eligible, sid, maxAdds, maxDrops, minSymbols), Said(reply, sid),
                     result[sid])
    ensures Stores(repo.entries, run, result)
    ensures |repo.runs| == |old(repo.runs)| + 1
    ensures autoApply && !NoChange(result) ==> AppliedRun(repo.runs) == Some(run) && AtMostOneApplied(repo.runs)
    ensures NoChange(result) ==> repo.runs[run].status.RunRejected?
    ensures (!autoApply || NoChange(result)) ==> forall i :: 0 <= i < |old(repo.runs)| ==>
            repo.runs[i] == old(repo.runs)[i]
  {
    hide Lawful, Said, Stores, NoChange, RulesFor;
    result := EnforceGuardrails(reply, current, prot, eligible, known, maxAdds, maxDrops, minSymbols);
    run := repo.InsertRun(Run(Proposed, now));
    var changes := StoreEntries(repo, run, result);
    if changes == 0 {
      repo.SetStatus(run, RunRejected);
    } else if autoApply {
      repo.ApplyRun(run);
    }
  }

  /** effective_universe with the feature on. */
  method EffectiveUniverse(repo: WatchlistsRepo, u: Universe) returns (out: Universe)
    ensures var m := if AppliedRun(repo.runs).None? then map[]
            else MembershipOf(repo.entries, AppliedRun(repo.runs).value);
            if m == map[] then out == u else OverlayOf(u, m, out)
  {
    var m := repo.AppliedMembership();
    if m == map[] { return u; }
    out := OverlayUniverse(u, m);
  }

  // ---- Exactness ----

  lemma {:induction false} LastWordUpper(reply: seq<Watchlist>, sid: string, sym: string)
    ensures LastWord(reply, sid, sym).Some? ==>
            Upper(LastWord(reply, sid, sym).value.symbol) == LastWord(reply, sid, sym).value.symbol
  {
    if |reply| > 0 {
      LastWordUpper(reply[..|reply| - 1], sid, sym);
      if reply[|reply| - 1].Watchlist? { LastItemUpper(reply[|reply| - 1].items, sym); }
    }
  }

  lemma {:induction false} LastItemUpper(items: seq<Item>, sym: string)
    ensures LastItem(items, sym).Some? ==> Upper(LastItem(items, sym).value.symbol) == LastItem(items, sym).value.symbol
  {
    if |items| > 0 {
      LastItemUpper(items[..|items| - 1], sym);
      if Usable(items[|items| - 1]) { UpperTwice(items[|items| - 1].symbol); }
    }
  }

  predicate AllUpper(names: set<string>) {
    forall s :: s in names ==> Upper(s) == s
  }

  lemma ResultUpper(u: Rules, reply: seq<Watchlist>, sid: string, rows: seq<Row>)
    requires Lawful(u, Said(reply, sid), rows) && AllUpper(u.members)
    ensures AllUpper(Membership(rows))
  {
    forall sym | sym in Membership(rows) ensures Upper(sym) == sym {
      if sym in Chosen(rows, Add) {
        var r :| r in rows && r.action.Add? && r.symbol == sym;
        SaidIsLastWord(reply, sid, sym);
        LastWordUpper(reply, sid, sym);
      } else {
        assert sym in u.members;
      }
    }
  }

  /** The stored run's membership map is the guarded membership. */
  lemma StoredMembership(entries: seq<Entry>, run: nat, result: map<string, seq<Row>>, sid: string)
    requires Stores(entries, run, result) && (sid in result ==> AllUpper(Membership(result[sid])))
    ensures sid in MembershipOf(entries, run) <==> sid in result && Membership(result[sid]) != {}
    ensures sid in MembershipOf(entries, run) ==>
            (set s | s in MembershipOf(entries, run)[sid] :: Upper(s)) == Membership(result[sid])
  {
    MembershipExact(entries, run, sid);
    var m := MembershipOf(entries, run);
    if e :| e in entries && e.run == run && !e.action.Drop? && e.strategy == sid {
      assert Entry(run, sid, e.symbol, e.action) in entries;
      var r :| r in result[sid] && r.symbol == e.symbol && r.action == e.action;
      assert r.symbol in Membership(result[sid]);
    }
    if sid in result && Membership(result[sid]) != {} {
      var sym :| sym in Membership(result[sid]);
      RowBehind(entries, run, result, sid, sym);
    }
    if sid in m {
      forall sym | sym in Membership(result[sid]) ensures sym in m[sid] && Upper(sym) == sym {
        RowBehind(entries, run, result, sid, sym);
      }
      forall s | s in m[sid] ensures s in Membership(result[sid]) && Upper(s) == s {
        var e :| e in entries && e.run == run && !e.action.Drop? && e.strategy == sid && Upper(e.symbol) == s;
        assert Entry(run, sid, e.symbol, e.action) in entries;
        var r :| r in result[sid] && r.symbol == e.symbol && r.action == e.action;
        assert r.symbol in Membership(result[sid]);
      }
    }
  }

  lemma RowBehind(entries: seq<Entry>, run: nat, result: map<string, seq<Row>>, sid: string, sym: string)
    requires Stores(entries, run, result) && sid in result && sym in Membership(result[sid])
    ensures exists e :: e in entries && e.run == run && !e.action.Drop? && e.strategy == sid && e.symbol == sym
  {
    var r :| r in result[sid] && (r.action.Keep? || r.action.Add?) && r.symbol == sym;
    assert Entry(run, sid, sym, r.action) in entries;
  }

  /** Once a guarded run is applied, a strategy with any surviving entry trades exactly its members less the
      drops plus the adds, minus what is banned or tier 3; every other strategy's list is unchanged; and no
      unbanned member with an open position or a pin has left. */
  lemma PipelineExact(u: Universe, reply: seq<Watchlist>, rules: Rules, entries: seq<Entry>, run: nat,
                      result: map<string, seq<Row>>, out: Universe, sid: string)
    requires Stores(entries, run, result) && OverlayOf(u, MembershipOf(entries, run), out)
    requires sid in result ==> Lawful(rules, Said(reply, sid), result[sid]) && AllUpper(rules.members)
    ensures sid in result && Membership(result[sid]) != {} ==>
              && Listed(out, sid) == rules.members - Chosen(result[sid], Drop) + Chosen(result[sid], Add) - Banned(u)
              && rules.prot * rules.members - Banned(u) <= Listed(out, sid)
    ensures !(sid in result && Membership(result[sid]) != {}) ==>
              SameTickers(TickersFor(out.tickers, sid), TickersFor(u.tickers, sid))
  {
    hide Lawful, OverlayOf, Stores, Listed, Banned, MembershipOf, Said;
    var m := MembershipOf(entries, run);
    if sid in result { ResultUpper(rules, reply, sid, result[sid]); }
    StoredMembership(entries, run, result, sid);
    if sid in m {
      OverlayExact(u, m, out, sid);
      LawfulOutcome(rules, Said(reply, sid), result[sid]);
    } else {
      OverlayUnmentioned(u, m, out, sid);
    }
  }

  /** A position in use, or a pin, protects its symbol for its strategy, and nothing else does. */
  lemma ProtectedExactly(ps: seq<Position>, pinned: map<string, seq<string>>, sid: string, sym: string)
    ensures sym in Protected(ps, pinned, sid)
            <==> (exists p :: p in ps && p.state != Idle && p.strategy == sid && Upper(p.symbol) == sym)
                 || (sid in pinned && exists s :: s in pinned[sid] && Upper(s) == sym)
  {
    hide Upper;
  }

  // ---- One refresh, start to finish ----

  lemma {:induction false} ListedTickers(tickers: seq<Ticker>, sid: string)
    ensures forall t :: t in TickersFor(tickers, sid) <==> t in tickers && sid in t.strategies
  {
    if |tickers| > 0 {
      var n := |tickers| - 1;
      ListedTickers(tickers[..n], sid);
      assert tickers == tickers[..n] + [tickers[n]];
    }
  }

  /** The diff base is what the strategy trades now. */
  lemma BaseMembers(u: Universe, known: set<string>, prot: map<string, set<string>>, eligible: set<string>, sid: string,
                    maxAdds: nat, maxDrops: nat, minSymbols: int)
    requires sid in known
    ensures var rules := RulesFor(CurrentOf(u, known), prot, eligible, sid, maxAdds, maxDrops, minSymbols);
            rules.members == Listed(u, sid) && AllUpper(rules.members)
  {
    var tickers := TickersFor(u.tickers, sid);
    ListedTickers(u.tickers, sid);
    var names := SymbolsOf(tickers);
    var rules := RulesFor(CurrentOf(u, known), prot, eligible, sid, maxAdds, maxDrops, minSymbols);
    forall t | t in tickers ensures Upper(t.symbol) in names && Upper(Upper(t.symbol)) == Upper(t.symbol) {
      var i :| 0 <= i < |tickers| && tickers[i] == t;
      assert names[i] == Upper(t.symbol);
      UpperTwice(t.symbol);
    }
    forall s | s in names ensures s in Listed(u, sid) && Upper(s) == s {
      var i :| 0 <= i < |names| && names[i] == s;
      assert tickers[i] in tickers;
      UpperTwice(tickers[i].symbol);
    }
  }

  /** Whatever the model replied: if the run changes anything, every known strategy with members left then
      trades its old list less the drops plus the adds, minus the banned; no open position's or pinned
      symbol was dropped; and every strategy the run does not speak for falls back to the universe file. */
  method RefreshUniverse(repo: WatchlistsRepo, u: Universe, ps: seq<Position>, pinned: map<string, seq<string>>,
                         reply: seq<Watchlist>, eligible: set<string>, known: set<string>,
                         maxAdds: nat, maxDrops: nat, minSymbols: int, now: int)
    returns (before: Universe, out: Universe, result: map<string, seq<Row>>)
    requires forall e :: e in repo.entries ==> e.run < |repo.runs|
    modifies repo
    ensures result.Keys == known
    ensures !NoChange(result) ==> forall sid :: sid in known && Membership(result[sid]) != {} ==>
              && Listed(out, sid) == Listed(before, sid) - Chosen(result[sid], Drop)
                                  + Chosen(result[sid], Add) - Banned(u)
              && Protected(ps, pinned, sid) * Listed(before, sid) - Banned(u) <= Listed(out, sid)
    ensures !NoChange(result) ==> forall sid :: !(sid in known && Membership(result[sid]) != {}) ==>
              SameTickers(TickersFor(out.tickers, sid), TickersFor(u.tickers, sid))
  {
    hide Lawful, Stores, NoChange, RulesFor, Said, OverlayOf, Listed, Chosen, Membership, MembershipOf, Protected,
         Banned, CurrentOf, SameTickers, TickersFor;
    before := EffectiveUniverse(repo, u);
    var prot := ProtectedSets(ps, pinned, known);
    var run;
    run, result := RunRefresh(repo, reply, CurrentOf(before, known), prot, eligible, known, maxAdds, maxDrops,
                              minSymbols, true, now);
    out := EffectiveUniverse(repo, u);
    if !NoChange(result) {
      ghost var m := MembershipOf(repo.entries, run);
      forall sid: string
        ensures sid in known && Membership(result[sid]) != {} ==>
                  && Listed(out, sid) == Listed(before, sid) - Chosen(result[sid], Drop)
                                      + Chosen(result[sid], Add) - Banned(u)
                  && Protected(ps, pinned, sid) * Listed(before, sid) - Banned(u) <= Listed(out, sid)
        ensures !(sid in known && Membership(result[sid]) != {}) ==>
                  SameTickers(TickersFor(out.tickers, sid), TickersFor(u.tickers, sid))
      {
        RefreshExact(u, before, known, prot, eligible, reply, repo.entries, run, result, out, sid, maxAdds, maxDrops,
                     minSymbols);
      }
    }
  }

  lemma RefreshExact(u: Universe, before: Universe, known: set<string>, prot: map<string, set<string>>,
                     eligible: set<string>,
                     reply: seq<Watchlist>, entries: seq<Entry>, run: nat, result: map<string, seq<Row>>, out: Universe,
                     sid: string, maxAdds: nat, maxDrops: nat, minSymbols: int)
    requires Stores(entries, run, result) && result.Keys == known && prot.Keys == known
    requires forall s :: s in known ==>
               Lawful(RulesFor(CurrentOf(before, known), prot, eligible, s, maxAdds, maxDrops, minSymbols),
                      Said(reply, s), result[s])
    requires var m := MembershipOf(entries, run); if m == map[] then out == u else OverlayOf(u, m, out)
    ensures sid in known && Membership(result[sid]) != {} ==>
              && Listed(out, sid) == Listed(before, sid) - Chosen(result[sid], Drop)
                                  + Chosen(result[sid], Add) - Banned(u)
              && prot[sid] * Listed(before, sid) - Banned(u) <= Listed(out, sid)
    ensures !(sid in known && Membership(result[sid]) != {}) ==>
              SameTickers(TickersFor(out.tickers, sid), TickersFor(u.tickers, sid))
  {
    hide Lawful, OverlayOf, Stores, Listed, Banned, MembershipOf, Said, CurrentOf, Chosen, TickersFor, AllUpper;
    var rules := RulesFor(CurrentOf(before, known), prot, eligible, sid, maxAdds, maxDrops, minSymbols);
    if sid in known {
      BaseMembers(before, known, prot, eligible, sid, maxAdds, maxDrops, minSymbols);
      ResultUpper(rules, reply, sid, result[sid]);
    }
    StoredMembership(entries, run, result, sid);
    if MembershipOf(entries, run) != map[] {
      PipelineExact(u, reply, rules, entries, run, result, out, sid);
    }
  }
}
