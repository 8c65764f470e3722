/** From stored watchlist entries to the universe each strategy trades (db/repo.py:1084-1167,
    core/watchlists.py:24-92, core/strategies.py:150-162). */
module Watchlists {
  import opened Models
  import opened BrokerSim
  import opened PaperBrokers
  import opened Guardrails

  datatype RunStatus = Proposed | Applied | Superseded | RunRejected | Failed

  datatype Run = Run(status: RunStatus, createdAt: int)

  datatype Entry = Entry(run: nat, strategy: string, symbol: string, action: Action)

  datatype Ticker = Ticker(symbol: string, tier: int, strategies: seq<string>)

  datatype Universe = Universe(tickers: seq<Ticker>, banned: seq<string>)

  // ---- Stored runs ----

  /** latest_run(status = applied): newest first, ties to the larger id. */
  function AppliedRun(runs: seq<Run>): Option<nat> {
    if |runs| == 0 then None
    else
      var n := |runs| - 1;
      var earlier := AppliedRun(runs[..n]);
      if runs[n].status.Applied? && !(earlier.Some? && earlier.value < n
                                      && runs[earlier.value].createdAt > runs[n].createdAt)
      then Some(n) else earlier
  }

  /** apply_run: supersede whatever was applied, then mark this run. */
  function ApplyStatus(runs: seq<Run>, run: nat, i: nat): Run
    requires i < |runs|
  {
    if i == run then runs[i].(status := Applied)
    else if runs[i].status.Applied? then runs[i].(status := Superseded)
    else runs[i]
  }

  predicate AtMostOneApplied(runs: seq<Run>) {
    forall i, j :: 0 <= i < j < |runs| ==> !(runs[i].status.Applied? && runs[j].status.Applied?)
  }

  lemma {:induction false} OnlyApplied(runs: seq<Run>, run: nat)
    requires run < |runs| && forall i :: 0 <= i < |runs| ==> (runs[i].status.Applied? <==> i == run)
    ensures AppliedRun(runs) == Some(run)
  {
    var n := |runs| - 1;
    if run < n {
      OnlyApplied(runs[..n], run);
    } else {
      NoneApplied(runs[..n]);
    }
  }

  lemma {:induction false} NoneApplied(runs: seq<Run>)
    requires forall i :: 0 <= i < |runs| ==> !runs[i].status.Applied?
    ensures AppliedRun(runs) == None
  {
    if |runs| > 0 { NoneApplied(runs[..|runs| - 1]); }
  }

  /** It is the applied run created last, and the later entered of two created together. */
  lemma {:induction false} AppliedExactly(runs: seq<Run>)
    ensures match AppliedRun(runs)
            case None => forall i :: 0 <= i < |runs| ==> runs[i].status != Applied
            case Some(n) =>
              && n < |runs| && runs[n].status == Applied
              && forall i :: 0 <= i < |runs| && runs[i].status == Applied ==>
                   runs[i].createdAt < runs[n].createdAt || (runs[i].createdAt == runs[n].createdAt && i <= n)
  {
    if |runs| > 0 {
      AppliedExactly(runs[..|runs| - 1]);
      assert forall i :: 0 <= i < |runs| - 1 ==> runs[..|runs| - 1][i] == runs[i];
    }
  }

  /** A run's surviving entries, by strategy. */
  function MembershipOf(entries: seq<Entry>, run: nat): map<string, seq<string>> {
    if |entries| == 0 then map[]
    else
      var before := MembershipOf(entries[..|entries| - 1], run);
      var e := entries[|entries| - 1];
      if e.run != run || e.action.Drop? then before
      else before[e.strategy := (if e.strategy in before then before[e.strategy] else []) + [Upper(e.symbol)]]
  }

  /** A strategy is in the map exactly if the run has a non-drop entry for it, with those entries' symbols. */
  lemma {:induction false} MembershipExact(entries: seq<Entry>, run: nat, sid: string)
    ensures sid in MembershipOf(entries, run) <==> exists e ::
            e in entries && e.run == run && !e.action.Drop?
            && e.strategy == sid
    ensures sid in MembershipOf(entries, run) ==>
              forall sym :: sym in MembershipOf(entries, run)[sid]
                <==> exists e ::
                  e in entries && e.run == run && !e.action.Drop? && e.strategy == sid
                  && Upper(e.symbol) == sym
  {
    if |entries| > 0 {
      var n := |entries| - 1;
      MembershipExact(entries[..n], run, sid);
      assert entries == entries[..n] + [entries[n]];
      assert forall e :: e in entries <==> e in entries[..n] || e == entries[n];
    }
  }

  class WatchlistsRepo {
    var runs: seq<Run>
    var entries: seq<Entry>

    constructor ()
      ensures runs == [] && entries == []
    {
      runs, entries := [], [];
    }

    method InsertRun(run: Run) returns (id: nat)
      modifies this`runs
      ensures id == |old(runs)| && runs == old(runs) + [run]
    {
      id := |runs|;
      runs := runs + [run];
    }

    method InsertEntry(e: Entry)
      modifies this`entries
      ensures entries == old(entries) + [e]
    {
      entries := entries + [e];
    }

    method SetStatus(run: nat, status: RunStatus)
      requires run < |runs|
      modifies this`runs
      ensures runs == old(runs)[run := old(runs)[run].(status := status)]
    {
      runs := runs[run := runs[run].(status := status)];
    }

    /** Whatever was applied before, afterwards this run is the one applied run. */
    method ApplyRun(run: nat)
      requires run < |runs|
      modifies this`runs
      ensures |runs| == |old(runs)| && forall i :: 0 <= i < |runs| ==> runs[i] == ApplyStatus(old(runs), run, i)
      ensures AppliedRun(runs) == Some(run) && AtMostOneApplied(runs)
      ensures runs[run] == old(runs)[run].(status := Applied)
      ensures forall i :: 0 <= i < |runs| && i != run ==>
                if old(runs)[i].status == Applied then runs[i] == old(runs)[i].(status := Superseded)
                else runs[i] == old(runs)[i]
    {
      for n := 0 to |runs|
        invariant |runs| == |old(runs)|
        invariant forall i :: 0 <= i < n && i != run ==> runs[i] == ApplyStatus(old(runs), run, i)
        invariant forall i :: (n <= i < |runs| || i == run) ==> runs[i] == old(runs)[i]
      {
        if n != run && runs[n].status.Applied? { runs := runs[n := runs[n].(status := Superseded)]; }
      }
      runs := runs[run := runs[run].(status := Applied)];
      OnlyApplied(runs, run);
    }

    method LatestApplied() returns (run: Option<nat>)
      ensures run == AppliedRun(runs)
      ensures run.Some? ==> run.value < |runs|
    {
      run := None;
      for n := 0 to |runs|
        invariant run == AppliedRun(runs[..n])
        invariant run.Some? ==> run.value < n
      {
        assert runs[..n + 1][..n] == runs[..n];
        if runs[n].status.Applied? && (run.None? || runs[run.value].createdAt <= runs[n].createdAt) { run := Some(n); }
      }
      assert runs[..|runs|] == runs;
    }

    method AppliedMembership() returns (membership: map<string, seq<string>>)
      ensures membership == if AppliedRun(runs).None? then map[] else MembershipOf(entries, AppliedRun(runs).value)
    {
      var run := LatestApplied();
      membership := map[];
      if run.None? { return; }
      for n := 0 to |entries|
        invariant membership == MembershipOf(entries[..n], run.value)
      {
        assert entries[..n + 1][..n] == entries[..n];
        var e := entries[n];
        if e.run == run.value && !e.action.Drop? {
          var so := if e.strategy in membership then membership[e.strategy] else [];
          membership := membership[e.strategy := so + [Upper(e.symbol)]];
        }
      }
      assert entries[..|entries|] == entries;
    }
  }

  // ---- The overlay ----

  /** Banned by name or by tier 3. */
  function Banned(u: Universe): set<string> {
    (set b | b in u.banned :: Upper(b)) + set t | t in u.tickers && t.tier == 3 :: Upper(t.symbol)
  }

  function Want(u: Universe, m: map<string, seq<string>>, sid: string): set<string>
    requires sid in m
  {
    (set s | s in m[sid] :: Upper(s)) - Banned(u)
  }

  function Known(u: Universe): set<string> {
    set t | t in u.tickers :: Upper(t.symbol)
  }

  function Unknown(u: Universe, m: map<string, seq<string>>): set<string> {
    set sid, sym | sid in m.Keys && sym in Want(u, m, sid) && sym !in Known(u) :: sym
  }

  /** The tags that survive: those of strategies the run does not mention. */
  function KeptTags(tags: seq<string>, m: map<string, seq<string>>): seq<string> {
    if |tags| == 0 then []
    else KeptTags(tags[..|tags| - 1], m) + if tags[|tags| - 1] !in m then [tags[|tags| - 1]] else []
  }

  /** The strategies whose watchlist names the symbol. */
  function Wanting(u: Universe, m: map<string, seq<string>>, sym: string): set<string> {
    set sid | sid in m.Keys && sym in Want(u, m, sid)
  }

  /** A listed ticker after the overlay: surviving tags first, then the wanting strategies once each. */
  ghost predicate Retagged(u: Universe, m: map<string, seq<string>>, t: Ticker, t': Ticker) {
    && t'.symbol == t.symbol && t'.tier == t.tier
    && exists added ::
    Enumerates(added, Wanting(u, m, Upper(t.symbol)))
    && t'.strategies == KeptTags(t.strategies, m) + added
  }

  ghost predicate Synthesized(u: Universe, m: map<string, seq<string>>, t: Ticker) {
    t.tier == 2 && Enumerates(t.strategies, Wanting(u, m, t.symbol))
  }

  ghost predicate OverlayOf(u: Universe, m: map<string, seq<string>>, out: Universe) {
    var n := |u.tickers|;
    && out.banned == u.banned
    && |out.tickers| >= n
    && (forall i :: 0 <= i < n ==> Retagged(u, m, u.tickers[i], out.tickers[i]))
    && (forall i :: n <= i < |out.tickers| ==> Synthesized(u, m, out.tickers[i]))
    && Enumerates(NewSymbols(out, n), Unknown(u, m))
  }

  function NewSymbols(out: Universe, n: nat): seq<string>
    requires n <= |out.tickers|
  {
    seq(|out.tickers| - n, i requires 0 <= i < |out.tickers| - n => out.tickers[n + i].symbol)
  }

  /** overlay_universe */
  method OverlayUniverse(u: Universe, m: map<string, seq<string>>) returns (out: Universe)
    ensures OverlayOf(u, m, out)
  {
    var tickers: seq<Ticker> := [];
    for n := 0 to |u.tickers|
      invariant |tickers| == n && forall i :: 0 <= i < n ==> Retagged(u, m, u.tickers[i], tickers[i])
    {
      var t := u.tickers[n];
      var kept := Survivors(t.strategies, m);
      var added := ListOf(Wanting(u, m, Upper(t.symbol)));
      tickers := tickers + [t.(strategies := kept + added)];
    }
    var novel := ListOf(Unknown(u, m));
    for n := 0 to |novel|
      invariant |tickers| == |u.tickers| + n
      invariant forall i :: 0 <= i < |u.tickers| ==> Retagged(u, m, u.tickers[i], tickers[i])
      invariant forall i :: |u.tickers| <= i < |tickers| ==> Synthesized(u, m, tickers[i])
      invariant forall i :: |u.tickers| <= i < |tickers| ==> tickers[i].symbol == novel[i - |u.tickers|]
    {
      var wanting := ListOf(Wanting(u, m, novel[n]));
      tickers := tickers + [Ticker(novel[n], 2, wanting)];
    }
    out := Universe(tickers, u.banned);
    assert NewSymbols(out, |u.tickers|) == novel;
  }

  method Survivors(tags: seq<string>, m: map<string, seq<string>>) returns (kept: seq<string>)
    ensures kept == KeptTags(tags, m)
  {
    kept := [];
    for n := 0 to |tags|
      invariant kept == KeptTags(tags[..n], m)
    {
      assert tags[..n + 1][..n] == tags[..n];
      if tags[n] !in m { kept := kept + [tags[n]]; }
    }
    assert tags[..|tags|] == tags;
  }

  // ---- One strategy's universe ----

  /** universe_for_strategy: its tickers, in universe order. */
  function TickersFor(tickers: seq<Ticker>, sid: string): seq<Ticker> {
    if |tickers| == 0 then []
    else TickersFor(tickers[..|tickers| - 1], sid) + if sid in tickers[|tickers| - 1].strategies
      then [tickers[|tickers| - 1]] else []
  }

  function Listed(u: Universe, sid: string): set<string> {
    set t | t in u.tickers && sid in t.strategies :: Upper(t.symbol)
  }

  lemma {:induction false} KeptTagsExact(tags: seq<string>, m: map<string, seq<string>>, sid: string)
    ensures sid in KeptTags(tags, m) <==> sid in tags && sid !in m
  {
    if |tags| > 0 {
      var n := |tags| - 1;
      KeptTagsExact(tags[..n], m, sid);
      assert tags == tags[..n] + [tags[n]];
    }
  }

  lemma RetaggedExact(u: Universe, m: map<string, seq<string>>, t: Ticker, t': Ticker, sid: string)
    requires Retagged(u, m, t, t')
    ensures sid in t'.strategies <==> if sid in m then Upper(t.symbol) in Want(u, m, sid) else sid in t.strategies
  {
    KeptTagsExact(t.strategies, m, sid);
    var added :| Enumerates(added, Wanting(u, m, Upper(t.symbol)))
        && t'.strategies == KeptTags(t.strategies, m) + added;
    assert sid in added <==> sid in Wanting(u, m, Upper(t.symbol));
  }

  lemma MemberUpper(u: Universe, m: map<string, seq<string>>, sid: string, sym: string)
    requires sid in m && sym in Want(u, m, sid)
    ensures Upper(sym) == sym
  {
    var s :| s in m[sid] && Upper(s) == sym;
    UpperTwice(s);
  }

  /** A refreshed strategy trades exactly its watchlist minus what is banned. */
  lemma OverlayExact(u: Universe, m: map<string, seq<string>>, out: Universe, sid: string)
    requires OverlayOf(u, m, out) && sid in m
    ensures Listed(out, sid) == Want(u, m, sid)
  {
    hide Want, Retagged;
    var n := |u.tickers|;
    forall sym | sym in Listed(out, sid) ensures sym in Want(u, m, sid) {
      var t :| t in out.tickers && sid in t.strategies && Upper(t.symbol) == sym;
      var i :| 0 <= i < |out.tickers| && out.tickers[i] == t;
      if i < n {
        RetaggedExact(u, m, u.tickers[i], t, sid);
        RetaggedSymbol(u, m, u.tickers[i], t);
      } else {
        assert Synthesized(u, m, out.tickers[i]);
        assert sid in Wanting(u, m, t.symbol);
        MemberUpper(u, m, sid, t.symbol);
      }
    }
    forall sym | sym in Want(u, m, sid) ensures sym in Listed(out, sid) {
      MemberUpper(u, m, sid, sym);
      if sym in Known(u) {
        var i :| 0 <= i < n && Upper(u.tickers[i].symbol) == sym;
        RetaggedExact(u, m, u.tickers[i], out.tickers[i], sid);
        RetaggedSymbol(u, m, u.tickers[i], out.tickers[i]);
        assert out.tickers[i] in out.tickers;
      } else {
        assert sym in Unknown(u, m);
        var i :| 0 <= i < |NewSymbols(out, n)| && NewSymbols(out, n)[i] == sym;
        var t := out.tickers[n + i];
        assert Synthesized(u, m, out.tickers[n + i]) && t in out.tickers;
        assert sid in Wanting(u, m, t.symbol);
      }
    }
  }

  /** Symbol by symbol: a refreshed strategy trades one exactly if its watchlist names it, no banned name is the same
      and no tier-3 ticker is. */
  lemma TradesExactly(u: Universe, m: map<string, seq<string>>, out: Universe, sid: string, sym: string)
    requires OverlayOf(u, m, out) && sid in m
    ensures (exists t :: t in out.tickers && sid in t.strategies && Upper(t.symbol) == sym)
            <==> (exists s :: s in m[sid] && Upper(s) == sym) && (forall b :: b in u.banned ==> Upper(b) != sym)
                 && (forall t :: t in u.tickers && t.tier == 3 ==> Upper(t.symbol) != sym)
  {
    hide OverlayOf, Upper;
    OverlayExact(u, m, out, sid);
    assert sym in Listed(out, sid) <==> exists t :: t in out.tickers && sid in t.strategies && Upper(t.symbol) == sym;
    assert sym in Banned(u) <==> (exists b :: b in u.banned && Upper(b) == sym)
                                 || exists t :: t in u.tickers && t.tier == 3 && Upper(t.symbol) == sym;
  }

  lemma RetaggedSymbol(u: Universe, m: map<string, seq<string>>, t: Ticker, t': Ticker)
    requires Retagged(u, m, t, t')
    ensures t'.symbol == t.symbol && t'.tier == t.tier
  {
  }

  /** The same symbols and tiers, whatever the tags. */
  predicate SameTickers(a: seq<Ticker>, b: seq<Ticker>) {
    |a| == |b| && forall i :: 0 <= i < |a| ==> a[i].symbol == b[i].symbol && a[i].tier == b[i].tier
  }

  lemma {:induction false} UnmentionedPrefix(u: Universe, m: map<string, seq<string>>, out: Universe, sid: string,
                                             n: nat)
    requires OverlayOf(u, m, out) && sid !in m && n <= |u.tickers|
    ensures SameTickers(TickersFor(out.tickers[..n], sid), TickersFor(u.tickers[..n], sid))
  {
    if n > 0 {
      UnmentionedPrefix(u, m, out, sid, n - 1);
      assert out.tickers[..n][..n - 1] == out.tickers[..n - 1] && u.tickers[..n][..n - 1] == u.tickers[..n - 1];
      assert Retagged(u, m, u.tickers[n - 1], out.tickers[n - 1]);
      RetaggedExact(u, m, u.tickers[n - 1], out.tickers[n - 1], sid);
    }
  }

  lemma {:induction false} SynthesizedSkips(u: Universe, m: map<string, seq<string>>, out: Universe, sid: string,
                                            n: nat)
    requires OverlayOf(u, m, out) && sid !in m && |u.tickers| <= n <= |out.tickers|
    ensures TickersFor(out.tickers[..n], sid) == TickersFor(out.tickers[..|u.tickers|], sid)
  {
    if n > |u.tickers| {
      SynthesizedSkips(u, m, out, sid, n - 1);
      assert out.tickers[..n][..n - 1] == out.tickers[..n - 1];
      assert Synthesized(u, m, out.tickers[n - 1]);
    }
  }

  /** A strategy the run does not mention keeps its list, in order, symbol for symbol. */
  lemma OverlayUnmentioned(u: Universe, m: map<string, seq<string>>, out: Universe, sid: string)
    requires OverlayOf(u, m, out) && sid !in m
    ensures SameTickers(TickersFor(out.tickers, sid), TickersFor(u.tickers, sid))
  {
    hide OverlayOf, SameTickers, TickersFor;
    OverlaySize(u, m, out);
    UnmentionedPrefix(u, m, out, sid, |u.tickers|);
    SynthesizedSkips(u, m, out, sid, |out.tickers|);
    assert out.tickers[..|out.tickers|] == out.tickers && u.tickers[..|u.tickers|] == u.tickers;
  }

  lemma OverlaySize(u: Universe, m: map<string, seq<string>>, out: Universe)
    requires OverlayOf(u, m, out)
    ensures |out.tickers| >= |u.tickers|
  {
  }

  /** A symbol the universe file lacks gets a single entry, at tier 2. */
  lemma UnknownOnce(u: Universe, m: map<string, seq<string>>, out: Universe, i: nat, j: nat)
    requires OverlayOf(u, m, out) && i < |out.tickers| && j < |out.tickers|
    requires Upper(out.tickers[i].symbol) !in Known(u) && Upper(out.tickers[j].symbol) == Upper(out.tickers[i].symbol)
    ensures i == j && out.tickers[i].tier == 2
  {
    var n := |u.tickers|;
    forall q | 0 <= q < n ensures Upper(out.tickers[q].symbol) in Known(u) {
      assert Retagged(u, m, u.tickers[q], out.tickers[q]);
      assert u.tickers[q] in u.tickers;
    }
    forall q | n <= q < |out.tickers| ensures Upper(out.tickers[q].symbol) == out.tickers[q].symbol {
      assert NewSymbols(out, n)[q - n] in Unknown(u, m);
      var sid :| sid in m.Keys && out.tickers[q].symbol in Want(u, m, sid);
      MemberUpper(u, m, sid, out.tickers[q].symbol);
    }
    assert Synthesized(u, m, out.tickers[i]);
    forall q, r | n <= q < r < |out.tickers| ensures out.tickers[q].symbol != out.tickers[r].symbol {
      assert NewSymbols(out, n)[q - n] != NewSymbols(out, n)[r - n];
    }
  }
}
