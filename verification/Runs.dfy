/**
 Any number of passes, each at its own clock, with anything failing and others
 writing in between and during them.
 */
module Runs {
  import opened Events
  import opened Calendars
  import opened Server
  import opened WriteLog
  import opened Target
  import opened Plan
  import opened Progress
  import opened Engine
  import opened Mirroring
  import opened Collecting
  import opened Pass
  import opened Theorems

  /** What one pass found in phase 1, the log halfway and at its end, and the
      listings the service had answered by then. */
  datatype Look = Look(
    f: Fetched,
    listing: map<string, seq<GEvent>>,
    seen: World,
    midway: seq<Applied>,
    end: seq<Applied>,
    shown: seq<Listing>)

  function AtClock(e: Engine, win: Window): Engine {
    e.(cfg := e.cfg.(win := win))
  }

  /** The log after the passes. */
  function EndOf(start: seq<Applied>, looks: seq<Look>): seq<Applied> {
    if looks == [] then start else looks[|looks| - 1].end
  }

  /** The listings answered up to the end of the passes. */
  function ShownBy(start: seq<Listing>, looks: seq<Look>): seq<Listing> {
    if looks == [] then start else looks[|looks| - 1].shown
  }

  /** Every pass fetched what the service showed it and wrote what it decided
      from that. */
  ghost predicate LooksOk(e: Engine, wins: seq<Window>, start: seq<Applied>, shown: seq<Listing>, looks: seq<Look>)
    requires |looks| <= |wins|
    decreases |looks|
  {
    looks == [] ||
    (var n := |looks| - 1;
     LooksOk(e, wins, start, shown, looks[..n])
     && LookOk(AtClock(e, wins[n]), EndOf(start, looks[..n]), ShownBy(shown, looks[..n]), looks[n]))
  }

  ghost predicate LookOk(e: Engine, log: seq<Applied>, shown: seq<Listing>, look: Look) {
    && FetchOf(e.cfg.accounts, e.cfg.win, look.f, look.listing, look.seen)
    && shown <= look.shown && SeenShown(e.cfg.win, look.seen, Since(shown, look.shown))
    && PassWrote(e, look.f, log, look.midway, look.end)
  }

  lemma LooksNext(e: Engine, wins: seq<Window>, start: seq<Applied>, shown: seq<Listing>, looks: seq<Look>, look: Look)
    requires |looks| < |wins| && LooksOk(e, wins, start, shown, looks)
    requires LookOk(AtClock(e, wins[|looks|]), EndOf(start, looks), ShownBy(shown, looks), look)
    ensures LooksOk(e, wins, start, shown, looks + [look])
    ensures EndOf(start, looks + [look]) == look.end && ShownBy(shown, looks + [look]) == look.shown
  {
    hide LookOk;
    assert (looks + [look])[..|looks|] == looks;
  }

  /** The cells of the real events that the passes listed. */
  ghost function ListedCells(e: Engine, wins: seq<Window>, looks: seq<Look>): set<Cell>
    requires |looks| <= |wins|
  {
    if looks == [] then {}
    else
      var n := |looks| - 1;
      ListedCells(e, wins, looks[..n])
      + MirrorCells(AtClock(e, wins[n]).cfg, Names(looks[n].f.healthy), looks[n].seen)
  }

  /** The events of other accounts than `a` that were live and unowned on the
      calendar the service had when it answered one of these listings. */
  ghost function RealElsewhere(shown: seq<Listing>, a: string): set<Key> {
    set x, id | x in shown && x.acc != a && id in x.cal && Real(x.win, x.cal[id]) :: Key(x.acc, id)
  }

  lemma RealElsewhereGrows(before: seq<Listing>, mid: seq<Listing>, after: seq<Listing>, a: string)
    requires before <= mid <= after
    ensures before <= after && RealElsewhere(Since(before, mid), a) <= RealElsewhere(Since(before, after), a)
    ensures RealElsewhere(Since(mid, after), a) <= RealElsewhere(Since(before, after), a)
  {
    assert Since(before, after) == Since(before, mid) + Since(mid, after);
  }

  lemma CellsAreReal(cfg: Config, healthy: set<string>, seen: World, shown: seq<Listing>, c: Cell)
    requires SeenShown(cfg.win, seen, shown) && c in MirrorCells(cfg, healthy, seen)
    ensures c.0 != c.1.acc && c.1 in RealElsewhere(shown, c.0)
  {
    assert Listing(c.1.acc, cfg.win, seen[c.1.acc]) in shown;
  }

  /** A listed cell names an event that was live and unowned, on another account
      than the cell's, when the service answered a listing of that account in
      one of the passes. */
  lemma {:induction false} ListedAreReal(e: Engine, wins: seq<Window>, start: seq<Applied>, shown: seq<Listing>,
                                         looks: seq<Look>, c: Cell)
    requires |looks| <= |wins| && LooksOk(e, wins, start, shown, looks)
    ensures shown <= ShownBy(shown, looks)
    ensures c in ListedCells(e, wins, looks) ==>
      c.0 != c.1.acc && c.1 in RealElsewhere(Since(shown, ShownBy(shown, looks)), c.0)
  {
    if looks != [] {
      var n := |looks| - 1;
      hide FetchOf, PassWrote, MirrorCells, RealElsewhere, Since;
      ListedAreReal(e, wins, start, shown, looks[..n], c);
      RealElsewhereGrows(shown, ShownBy(shown, looks[..n]), looks[n].shown, c.0);
      var now := AtClock(e, wins[n]).cfg;
      if c in MirrorCells(now, Names(looks[n].f.healthy), looks[n].seen) {
        CellsAreReal(now, Names(looks[n].f.healthy), looks[n].seen, Since(ShownBy(shown, looks[..n]), looks[n].shown),
                     c);
      }
    }
  }

  function Blocks(cal: Calendar): set<string> {
    set id | id in cal && KeyOf(cal[id]).Some?
  }

  ghost function KeysOf(cal: Calendar, ids: set<string>): set<Key>
    requires ids <= Blocks(cal)
  {
    set id | id in ids :: KeyOf(cal[id]).value
  }

  lemma {:induction false} UniqueKeysCount(cal: Calendar, ids: set<string>)
    requires Unique(cal) && ids <= Blocks(cal)
    ensures |KeysOf(cal, ids)| == |ids|
  {
    if ids == {} {
      assert KeysOf(cal, ids) == {};
    } else {
      var id :| id in ids;
      var k, rest := KeyOf(cal[id]).value, ids - {id};
      UniqueKeysCount(cal, rest);
      assert KeysOf(cal, ids) == KeysOf(cal, rest) + {k};
      forall x | x in rest
        ensures KeyOf(cal[x]).value != k
      {
        assert Holds(cal, id, k) && (KeyOf(cal[x]).value == k ==> Holds(cal, x, k));
      }
      assert |KeysOf(cal, ids)| == |KeysOf(cal, rest)| + 1;
    }
  }

  /** When blocks are unique there are as many as there are keys. */
  lemma UniqueBlocksCount(cal: Calendar)
    requires Unique(cal)
    ensures |Blocks(cal)| == |BlockKeys(cal)|
  {
    UniqueKeysCount(cal, Blocks(cal));
    assert KeysOf(cal, Blocks(cal)) == BlockKeys(cal);
  }

  lemma CardinalityLe<T>(a: set<T>, b: set<T>)
    requires a <= b
    ensures |a| <= |b|
  {
    assert |b - a| == |b| - |a|;
  }

  lemma UnionLe<T>(a: set<T>, b: set<T>)
    ensures |a + b| <= |a| + |b|
  {
    assert |a + b| == |a| + |b| - |a * b|;
  }

  /** A pass brings an account no key but those of events listed elsewhere. */
  lemma LookReach(e: Engine, first: World, log: seq<Applied>, shown: seq<Listing>, look: Look, a: string)
    requires LookOk(e, log, shown, look)
    ensures Reached(first, look.end, a) <=
            Reached(first, log, a) + KeysOn(MirrorCells(e.cfg, Names(look.f.healthy), look.seen), a)
  {
    hide FetchOf, MirrorCells, LiveSet, Reached;
    var mirrors := AllIntents(e.cfg.title, look.f.healthy, look.f.reals, look.f.healthy);
    var drops := DropIntents(look.f.healthy, look.f.owned, Names(look.f.healthy),
                             LiveSet(look.f.healthy, look.f.reals));
    var born := MirrorCells(e.cfg, Names(look.f.healthy), look.seen);
    IntentsAreReal(e, look.f, look.listing, look.seen);
    assert PassIntents(e.cfg.title, look.f) == mirrors + drops;
    assert BornIn(mirrors, born) && BornIn(drops, born);
    SafeReach(first, log, look.midway, mirrors, born, a);
    SafeReach(first, look.midway, look.end, drops, born, a);
  }

  lemma {:induction false} LooksReach(e: Engine, wins: seq<Window>, first: World, start: seq<Applied>,
                                      shown: seq<Listing>, looks: seq<Look>, a: string)
    requires |looks| <= |wins| && LooksOk(e, wins, start, shown, looks)
    ensures Reached(first, EndOf(start, looks), a) <=
            Reached(first, start, a) + KeysOn(ListedCells(e, wins, looks), a)
  {
    if looks != [] {
      hide LookOk, MirrorCells, Reached;
      var n := |looks| - 1;
      LooksReach(e, wins, first, start, shown, looks[..n], a);
      LookReach(AtClock(e, wins[n]), first, EndOf(start, looks[..n]), ShownBy(shown, looks[..n]),
                looks[n], a);
    }
  }

  /** The bound on blocks, from what is traced. */
  lemma BlocksBounded(first: World, start: seq<Applied>, log: seq<Applied>, cals: World, born: set<Key>, a: string)
    requires Traced(first, log, cals) && a in cals && Unique(cals[a])
    requires Reached(first, log, a) <= Reached(first, start, a) + born
    ensures BlockKeys(cals[a]) <= Reached(first, start, a) + born
    ensures |Blocks(cals[a])| <= |Reached(first, start, a)| + |born|
  {
    UniqueBlocksCount(cals[a]);
    CardinalityLe(BlockKeys(cals[a]), Reached(first, start, a) + born);
    UnionLe(Reached(first, start, a), born);
  }

  lemma RunBegins(e: Engine, wins: seq<Window>, log: seq<Applied>, shown: seq<Listing>)
    ensures LooksOk(e, wins, log, shown, []) && EndOf(log, []) == log && ShownBy(shown, []) == shown
  {
  }

  lemma ClockKeepsConfig(e: Engine, win: Window)
    ensures AtClock(e, win).cfg.accounts == e.cfg.accounts && AtClock(e, win).cfg.win == win
    ensures AtClock(e, win).dry == e.dry
    ensures ConfigOk(e.cfg) ==> ConfigOk(AtClock(e, win).cfg)
  {
  }

  lemma LookBy(e: Engine, log: seq<Applied>, shown: seq<Listing>, look: Look)
    requires FetchOf(e.cfg.accounts, e.cfg.win, look.f, look.listing, look.seen)
    requires shown <= look.shown && SeenShown(e.cfg.win, look.seen, Since(shown, look.shown))
    requires PassWrote(e, look.f, log, look.midway, look.end)
    ensures LookOk(e, log, shown, look)
  {
  }

  /** The daemon's loop: one pass at each of the given clocks. Whoever else
      writes, each pass writes only what it decided from its own fetch. */
  method RunPasses(e: Engine, s: Server, wins: seq<Window>) returns (ghost looks: seq<Look>)
    requires s.Valid() && ConfigOk(e.cfg) && forall a :: a in e.cfg.accounts ==> a.name in s.cals
    modifies s, s.journal
    ensures s.Valid() && s.cals.Keys == old(s.cals.Keys)
    ensures |looks| == |wins| && LooksOk(e, wins, old(s.log), old(s.journal.listings), looks)
    ensures s.log == EndOf(old(s.log), looks) && s.journal.listings == ShownBy(old(s.journal.listings), looks)
    ensures old(s.journal.calls) <= s.journal.calls
    ensures e.dry ==>
      s.log == old(s.log) && s.writes == old(s.writes) && WritesIn(s.journal.calls) == WritesIn(old(s.journal.calls))
    ensures s.tame && UniqueWorld(old(s.cals)) ==> UniqueWorld(s.cals)
    // No sync loop: blocks on a calendar are for keys it started with or for
    // real events of other accounts that the service itself listed in the run.
    ensures s.tame && UniqueWorld(old(s.cals)) ==> forall a :: a in s.cals ==>
      && BlockKeys(s.cals[a]) <=
           Reached(s.first, old(s.log), a) + RealElsewhere(Since(old(s.journal.listings), s.journal.listings), a)
      && |Blocks(s.cals[a])| <=
           |Reached(s.first, old(s.log), a)| + |RealElsewhere(Since(old(s.journal.listings), s.journal.listings), a)|
  {
    hide *;
    looks := [];
    RunBegins(e, wins, s.log, s.journal.listings);
    for i := 0 to |wins|
      invariant s.Valid() && s.cals.Keys == old(s.cals.Keys)
      invariant |looks| == i && LooksOk(e, wins, old(s.log), old(s.journal.listings), looks)
      invariant s.log == EndOf(old(s.log), looks) && s.journal.listings == ShownBy(old(s.journal.listings), looks)
      invariant old(s.journal.calls) <= s.journal.calls
      invariant e.dry ==>
        s.log == old(s.log) && s.writes == old(s.writes) && WritesIn(s.journal.calls) == WritesIn(old(s.journal.calls))
      invariant s.tame && UniqueWorld(old(s.cals)) ==> UniqueWorld(s.cals)
    {
      var now := AtClock(e, wins[i]);
      ClockKeepsConfig(e, wins[i]);
      ghost var logged, shown := s.log, s.journal.listings;
      ghost var f, listing, seen, midway, asked;
      var report;
      ghost var called := s.journal.calls;
      report, f, listing, seen, midway, asked := SyncOnce(now, s);
      FailuresAreCalls(now, f, report.syncErrs, called, s.journal.calls);
      ghost var look := Look(f, listing, seen, midway, s.log, s.journal.listings);
      LookBy(now, logged, shown, look);
      LooksNext(e, wins, old(s.log), old(s.journal.listings), looks, look);
      looks := looks + [look];
    }
    if s.tame && UniqueWorld(old(s.cals)) {
      RunBounded(e, s, wins, old(s.log), old(s.journal.listings), looks);
    }
  }

  lemma RunBounded(e: Engine, s: Server, wins: seq<Window>, start: seq<Applied>, shown: seq<Listing>, looks: seq<Look>)
    requires s.Valid() && s.tame && UniqueWorld(s.cals)
    requires |looks| <= |wins| && LooksOk(e, wins, start, shown, looks)
    requires s.log == EndOf(start, looks) && s.journal.listings == ShownBy(shown, looks)
    ensures forall a :: a in s.cals ==>
      && BlockKeys(s.cals[a]) <= Reached(s.first, start, a) + RealElsewhere(Since(shown, s.journal.listings), a)
      && |Blocks(s.cals[a])| <=
           |Reached(s.first, start, a)| + |RealElsewhere(Since(shown, s.journal.listings), a)|
  {
    hide LooksOk, Reached, ListedCells, BlockKeys, Blocks, RealElsewhere, Since;
    forall a | a in s.cals
      ensures BlockKeys(s.cals[a]) <= Reached(s.first, start, a) + RealElsewhere(Since(shown, s.journal.listings), a)
      ensures |Blocks(s.cals[a])| <=
              |Reached(s.first, start, a)| + |RealElsewhere(Since(shown, s.journal.listings), a)|
    {
      var born := RealElsewhere(Since(shown, s.journal.listings), a);
      LooksReach(e, wins, s.first, start, shown, looks, a);
      forall k | k in KeysOn(ListedCells(e, wins, looks), a)
        ensures k in born
      {
        ListedAreReal(e, wins, start, shown, looks, (a, k));
      }
      assert KeysOn(ListedCells(e, wins, looks), a) <= born;
      BlocksBounded(s.first, start, s.log, s.cals, born, a);
    }
  }

  /** What one error-free pass over these accounts might have left. */
  ghost predicate Direct(cfg: Config, healthy: set<string>, w0: World, direct: World) {
    Between(cfg, healthy, w0, direct) && Settled(cfg, healthy, w0, direct)
  }

  lemma SecondReachesGoal(e: Engine, f1: Fetched, f2: Fetched, w0: World, w1: World, w2: World, r1: Report, r2: Report,
                          a1: seq<Request>, a2: seq<Request>)
    requires PassExact(e, f1, w0, w1, r1, a1) && PassExact(e, f2, w1, w2, r2, a2)
    requires !e.dry && !r2.tooFew && r2.syncErrs == [] && Names(f1.healthy) <= Names(f2.healthy)
    ensures forall direct :: Direct(e.cfg, Names(f2.healthy), w0, direct) ==> SameState(w2, direct)
  {
    hide Between, Settled, CountsAre, SameState, DoneBut;
    CleanPass(e, f2, w1, w2, r2, a2);
    forall direct | Direct(e.cfg, Names(f2.healthy), w0, direct)
      ensures SameState(w2, direct)
    {
      InterruptionIsHarmless(e.cfg, Names(f1.healthy), Names(f2.healthy), w0, w1, w2, direct);
    }
  }

  lemma StillCalm(e: Engine, quiet: bool, f: Fetched, w0: World, w1: World, r: Report, asked: seq<Request>)
    requires CalmStart(quiet, w0) && PassExact(e, f, w0, w1, r, asked)
    ensures CalmStart(quiet, w1)
  {
    hide BarFree;
    BarFreeStays(e.cfg, Names(f.healthy), w0, w1);
  }

  /** Two passes at the same clock with nobody else writing. If no write of the
      first failed and the second fetches no more accounts, the second changes,
      writes, looks up and counts nothing. And whatever failed in the first, a
      second that meets no fault fetches every account, has no error, and leaves
      the calendars as one error-free pass would have left them. */
  method RunTwice(e: Engine, s: Server)
    returns (first: Report, second: Report, ghost f1: Fetched, ghost f2: Fetched,
             ghost cals: World, ghost writes: nat, ghost lookups: nat, ghost faults: nat)
    requires s.Valid() && ConfigOk(e.cfg) && forall a :: a in e.cfg.accounts ==> a.name in s.cals
    requires CalmStart(s.quiet, s.cals) && !e.dry
    modifies s, s.journal
    ensures ReportsFetch(first, f1) && ReportsFetch(second, f2)
    ensures !first.tooFew && first.syncErrs == [] && Names(f2.healthy) <= Names(f1.healthy) ==>
      && s.cals == cals && s.writes == writes && s.lookups == lookups
      && second.created == second.updated == second.deleted == 0
    ensures !second.tooFew && second.syncErrs == [] && Names(f1.healthy) <= Names(f2.healthy) ==>
      forall direct :: Direct(e.cfg, Names(f2.healthy), old(s.cals), direct) ==> SameState(s.cals, direct)
    ensures s.faults == faults && |e.cfg.accounts| >= 2 ==>
      !second.tooFew && second.fetchErrs == [] && second.syncErrs == [] && Names(f2.healthy) == Names(e.cfg.accounts)
  {
    hide *;
    ghost var w0, l1, v1, m1, a1, l2, v2, m2, a2 := s.cals, map[], map[], [], [], map[], map[], [], [];
    first, f1, l1, v1, m1, a1 := SyncOnce(e, s);
    StillCalm(e, s.quiet, f1, w0, s.cals, first, a1);
    cals, writes, lookups, faults := s.cals, s.writes, s.lookups, s.faults;
    second, f2, l2, v2, m2, a2 := SyncOnce(e, s);
    FetchedAll(e, f2, l2, v2, second);
    if !first.tooFew && first.syncErrs == [] && Names(f2.healthy) <= Names(f1.healthy) {
      CalmIsQuiet(s.quiet, w0);
      SecondPassIsSilent(e, f1, w0, cals, first, a1, Names(f2.healthy));
      SilentPassCountsNothing(e, f2, cals, s.cals, second, a2);
    }
    if !second.tooFew && second.syncErrs == [] && Names(f1.healthy) <= Names(f2.healthy) {
      SecondReachesGoal(e, f1, f2, w0, cals, s.cals, first, second, a1, a2);
    }
  }

  lemma NothingDone(cfg: Config, all: set<string>, quiet: bool, w: World)
    requires CalmStart(quiet, w)
    ensures Between(cfg, all, w, w)
  {
  }

  /** One more pass, however it fails. */
  lemma OneMorePass(e: Engine, f: Fetched, listing: map<string, seq<GEvent>>, seen: World, w0: World, w: World,
                    w1: World, r: Report, asked: seq<Request>)
    requires FetchOf(e.cfg.accounts, e.cfg.win, f, listing, seen)
    requires Between(e.cfg, Names(e.cfg.accounts), w0, w) && PassExact(e, f, w, w1, r, asked)
    ensures Between(e.cfg, Names(e.cfg.accounts), w0, w1)
  {
    hide Between, TookAll, SkippedOver, DoneBut;
    forall n | n in Names(f.healthy)
      ensures n in Names(e.cfg.accounts)
    {
      var a :| a in f.healthy && a.name == n;
      assert a in e.cfg.accounts;
    }
    BetweenWithMore(e.cfg, Names(f.healthy), Names(e.cfg.accounts), w, w1);
    BetweenCompose(e.cfg, Names(e.cfg.accounts), w0, w, w1);
  }

  lemma LastReachesGoal(e: Engine, f: Fetched, w0: World, w: World, w1: World, r: Report, asked: seq<Request>)
    requires Between(e.cfg, Names(e.cfg.accounts), w0, w) && PassExact(e, f, w, w1, r, asked)
    requires Names(f.healthy) == Names(e.cfg.accounts) && !e.dry && !r.tooFew && r.syncErrs == []
    ensures forall direct :: Direct(e.cfg, Names(e.cfg.accounts), w0, direct) ==> SameState(w1, direct)
    ensures AtGoal(e.cfg, Names(e.cfg.accounts), w1)
  {
    hide Between, Settled, CountsAre, SameState, DoneBut, PassExact, AtGoal;
    CleanPass(e, f, w, w1, r, asked);
    SettledIsAtGoal(e.cfg, Names(e.cfg.accounts), w, w1);
    forall direct | Direct(e.cfg, Names(e.cfg.accounts), w0, direct)
      ensures SameState(w1, direct)
    {
      InterruptionIsHarmless(e.cfg, Names(e.cfg.accounts), Names(e.cfg.accounts), w0, w, w1, direct);
    }
  }

  /** Any number of passes at one clock with nobody else writing, each failing
      anywhere on any accounts, and then one more. If the last one meets no
      fault, it has no error, nothing is left to do, and the calendars are as
      one error-free pass would have left them. */
  method RunMany(e: Engine, s: Server, passes: nat)
    returns (last: Report, ghost before: World, ghost faults: nat)
    requires s.Valid() && ConfigOk(e.cfg) && forall a :: a in e.cfg.accounts ==> a.name in s.cals
    requires CalmStart(s.quiet, s.cals) && !e.dry
    modifies s, s.journal
    ensures CalmStart(s.quiet, s.cals)
    ensures Between(e.cfg, Names(e.cfg.accounts), old(s.cals), before)
    ensures Between(e.cfg, Names(e.cfg.accounts), before, s.cals)
    ensures s.faults == faults && |e.cfg.accounts| >= 2 ==>
      && !last.tooFew && last.fetchErrs == [] && last.syncErrs == []
      && AtGoal(e.cfg, Names(e.cfg.accounts), s.cals)
      && forall direct :: Direct(e.cfg, Names(e.cfg.accounts), old(s.cals), direct) ==> SameState(s.cals, direct)
  {
    hide *;
    ghost var w0 := s.cals;
    NothingDone(e.cfg, Names(e.cfg.accounts), s.quiet, w0);
    ghost var f, listing, seen, midway, asked;
    for i := 0 to passes
      invariant s.Valid() && s.cals.Keys == w0.Keys && CalmStart(s.quiet, s.cals)
      invariant Between(e.cfg, Names(e.cfg.accounts), w0, s.cals)
    {
      ghost var w := s.cals;
      last, f, listing, seen, midway, asked := SyncOnce(e, s);
      OneMorePass(e, f, listing, seen, w0, w, s.cals, last, asked);
      StillCalm(e, s.quiet, f, w, s.cals, last, asked);
    }
    before, faults := s.cals, s.faults;
    NothingDone(e.cfg, Names(e.cfg.accounts), s.quiet, before);
    last, f, listing, seen, midway, asked := SyncOnce(e, s);
    OneMorePass(e, f, listing, seen, before, before, s.cals, last, asked);
    StillCalm(e, s.quiet, f, before, s.cals, last, asked);
    FetchedAll(e, f, listing, seen, last);
    if s.faults == faults && |e.cfg.accounts| >= 2 {
      LastReachesGoal(e, f, w0, before, s.cals, last, asked);
    }
  }

  /** With no fetch error every account was fetched. */
  lemma FetchedAll(e: Engine, f: Fetched, listing: map<string, seq<GEvent>>, seen: World, r: Report)
    requires FetchOf(e.cfg.accounts, e.cfg.win, f, listing, seen) && ReportsFetch(r, f)
    ensures r.fetchErrs == [] ==> Names(f.healthy) == Names(e.cfg.accounts) && (r.tooFew <==> |e.cfg.accounts| < 2)
  {
    hide TookAll, SkippedOver;
    if r.fetchErrs == [] {
      assert f.failed == [];
      assert forall a :: a in e.cfg.accounts <==> a in f.healthy;
    }
  }

  lemma SilentPassCountsNothing(e: Engine, f: Fetched, w: World, w1: World, r: Report, asked: seq<Request>)
    requires PassExact(e, f, w, w1, r, asked) && ReportsFetch(r, f) && AtGoal(e.cfg, Names(f.healthy), w)
    ensures r.created == r.updated == r.deleted == 0
  {
    hide Between, SettledBut, PassCells, PassPlan, AtGoal, Planned;
    if !r.tooFew {
      NothingPlanned(e.cfg, Names(f.healthy), w, BadCells(r.syncErrs), Addition);
      NothingPlanned(e.cfg, Names(f.healthy), w, BadCells(r.syncErrs), Rewrite);
      NothingPlanned(e.cfg, Names(f.healthy), w, BadCells(r.syncErrs), Removal);
    }
  }

  lemma CalmIsQuiet(quiet: bool, w: World)
    requires CalmStart(quiet, w)
    ensures quiet && CalmStart(true, w)
  {
  }
}
