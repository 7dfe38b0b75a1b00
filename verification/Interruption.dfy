/**
 A pass cut short after any of its writes: what the log says the calendars were
 at that moment.
 */
module Interruption {
  import opened Basics
  import opened Events
  import opened Calendars
  import opened WriteLog
  import opened Target
  import opened Plan
  import opened Progress
  import opened Server
  import opened Engine
  import opened Mirroring
  import opened Collecting
  import opened Pass
  import Bridge = ProviderClient
  import Safety

  /** On the way, and every event still there under its identifier has its key. */
  ghost predicate Underway(cfg: Config, healthy: set<string>, w0: World, w: World) {
    && Towards(cfg, healthy, w0, w)
    && forall d, id :: d in w0 && id in w0[d] && id in w[d] ==> KeyOf(w[d][id]) == KeyOf(w0[d][id])
  }

  /** No event has gone. */
  ghost predicate AllThere(w0: World, w: World) {
    w.Keys == w0.Keys && forall d, id :: d in w0 && id in w0[d] ==> id in w[d]
  }

  lemma SetsOut(cfg: Config, healthy: set<string>, w0: World)
    requires UniqueWorld(w0)
    ensures Underway(cfg, healthy, w0, w0) && AllThere(w0, w0)
  {
  }

  /** One key moved to its goal is one step on the way. */
  lemma OneStepOn(cfg: Config, healthy: set<string>, w0: World, w: World, after: World, d: string, k: Key)
    requires Towards(cfg, healthy, w0, w) && d in w0 && d in healthy && d in after && after == w[d := after[d]]
    requires Touched(w[d], after[d], k, Goal(cfg, healthy, w0, d, k))
    ensures Towards(cfg, healthy, w0, after)
  {
    TouchedAlone(w[d], after[d], k, Goal(cfg, healthy, w0, d, k));
    hide NonBlocks, Goal, Unique, BlockAt;
    assert Unique(after[d]);
    forall a, j | a in w0
      ensures At(after[a], j) == At(w0[a], j) || At(after[a], j) == Goal(cfg, healthy, w0, a, j)
    {
      assert At(w[a], j) == At(w0[a], j) || At(w[a], j) == Goal(cfg, healthy, w0, a, j);
    }
  }

  /** Keys of blocks on the way have no separator in their event IDs. */
  lemma NoBarOnTheWay(cfg: Config, healthy: set<string>, w0: World, w: World, d: string, id: string, k: Key)
    requires Towards(cfg, healthy, w0, w) && BarFree(w0) && d in w && Holds(w[d], id, k)
    ensures NoBar(k.ev)
  {
    assert !NoBlock(w[d], k);
    if At(w[d], k) == At(w0[d], k) {
      var j :| Holds(w0[d], j, k);
    } else if BlockAt(w0[d], k).Some? {
      var j :| Holds(w0[d], j, k);
    } else {
      assert Live(cfg, healthy, w0, k);
    }
  }

  /** The next pass may start from there. */
  lemma CalmOnTheWay(cfg: Config, healthy: set<string>, w0: World, w: World)
    requires Towards(cfg, healthy, w0, w) && BarFree(w0)
    ensures CalmStart(true, w)
  {
    forall d, id | d in w && id in w[d] && KeyOf(w[d][id]).Some?
      ensures NoBar(KeyOf(w[d][id]).value.ev)
    {
      assert Holds(w[d], id, KeyOf(w[d][id]).value);
      NoBarOnTheWay(cfg, healthy, w0, w, d, id, KeyOf(w[d][id]).value);
    }
    forall d, id | d in w && id in w[d] && !IsOwned(w[d][id])
      ensures NoBar(id)
    {
      NonBlocksSame(w0[d], w[d], id);
    }
  }

  /******* Phase 2 *******/

  /** Writing the span and the title over the wanted block changes nothing. */
  lemma WantedAgain(title: string, src: Account, ev: GEvent, cal: Calendar)
    requires ev == View(ev)
    ensures Mirror(Wanted(title, src, ev, cal), ev, title) == Wanted(title, src, ev, cal)
  {
    ViewPreserves(ev);
  }

  /** A creation meant for a source leaves its cell at its goal. */
  lemma CreationGoesOn(e: Engine, healthy: seq<Account>, w0: World, listing: map<string, seq<GEvent>>, w: World,
                       x: Applied, src: Account, ev: GEvent, dst: string)
    requires Calm(e, healthy, w0, listing) && SourceOf(e, healthy, w0, src, ev)
    requires dst in w0 && dst in Names(healthy) && dst != src.name
    requires Towards(e.cfg, Names(healthy), w0, w) && Fits(w, x) && x.acc == dst
    requires Carries(x, Making(dst, Bridge.BlockFor(InsertPayload(e.cfg.title, src, ev))))
    requires UniqueWorld(Stepped(w, x))
    ensures Towards(e.cfg, Names(healthy), w0, Stepped(w, x))
  {
    var k, after := KeyOfSource(src, ev), x.after.value;
    SourceFacts(e, healthy, w0, listing, src, ev, dst);
    KeyIgnoresVersion(Bridge.BlockFor(InsertPayload(e.cfg.title, src, ev)), after.id, after.etag);
    hide Calm, Bridge.BlockFor, InsertPayload, Goal;
    forall id
      ensures !Holds(w[dst], id, k)
    {
      assert Holds(w[dst], id, k) ==> Holds(Stepped(w, x)[dst], id, k) && id != after.id;
      assert Holds(Stepped(w, x)[dst], after.id, k);
    }
    assert NoBlock(w[dst], k);
    InsertTouches(w[dst], after, k);
    assert At(w[dst], k) == At(w0[dst], k);
    OneStepOn(e.cfg, Names(healthy), w0, w, Stepped(w, x), dst, k);
  }

  lemma SourceFacts(e: Engine, healthy: seq<Account>, w0: World, listing: map<string, seq<GEvent>>, src: Account,
                    ev: GEvent, dst: string)
    requires Calm(e, healthy, w0, listing) && SourceOf(e, healthy, w0, src, ev)
    requires dst in w0 && dst in Names(healthy) && dst != src.name
    ensures ev == View(ev) && NoBar(ev.id)
    ensures Goal(e.cfg, Names(healthy), w0, dst, KeyOfSource(src, ev)) == Some(Wanted(e.cfg.title, src, ev, w0[dst]))
    ensures KeyOf(Bridge.BlockFor(InsertPayload(e.cfg.title, src, ev))) == Some(KeyOfSource(src, ev))
    ensures At(w0[dst], KeyOfSource(src, ev)).None? ==>
      forall id, etag {:trigger Bridge.BlockFor(InsertPayload(e.cfg.title, src, ev)).(id := id, etag := etag)} ::
        Strip(Bridge.BlockFor(InsertPayload(e.cfg.title, src, ev)).(id := id, etag := etag)) ==
        Wanted(e.cfg.title, src, ev, w0[dst])
  {
    ViewPreserves(w0[src.name][ev.id]);
    WantedIsGoal(e.cfg, Names(healthy), w0, src, ev, dst);
    NoRequestIffWanted(e.cfg.title, src, ev, dst, w0[dst]);
  }

  /** An update meant for a source leaves its cell at its goal, whether the block
      was as fetched or at its goal already. */
  lemma UpdateGoesOn(e: Engine, healthy: seq<Account>, w0: World, listing: map<string, seq<GEvent>>, w: World,
                     x: Applied, src: Account, ev: GEvent, dst: string)
    requires Calm(e, healthy, w0, listing) && SourceOf(e, healthy, w0, src, ev)
    requires dst in w0 && dst in Names(healthy) && dst != src.name
    requires Towards(e.cfg, Names(healthy), w0, w) && Fits(w, x) && x.acc == dst
    requires Carries(x, Moving(dst, KeyOfSource(src, ev), e.cfg.title, Norm(ev.start), Norm(ev.end)))
    ensures Towards(e.cfg, Names(healthy), w0, Stepped(w, x))
  {
    var k, b, after := KeyOfSource(src, ev), x.before.value, x.after.value;
    SourceFacts(e, healthy, w0, listing, src, ev, dst);
    MovingKeepsKey(b, after);
    ViewPreserves(ev);
    hide Calm, Bridge.BlockFor, InsertPayload, Goal, View;
    BlockIs(w[dst], b.id, k);
    ReplaceTouches(w[dst], after, k);
    assert Strip(after) == Mirror(Strip(b), ev, e.cfg.title);
    if At(w[dst], k) == At(w0[dst], k) {
      assert Wanted(e.cfg.title, src, ev, w0[dst]) == Mirror(Strip(b), ev, e.cfg.title);
    } else {
      WantedAgain(e.cfg.title, src, ev, w0[dst]);
    }
    OneStepOn(e.cfg, Names(healthy), w0, w, Stepped(w, x), dst, k);
  }

  /** Any write of phase 2. */
  lemma MirroringGoesOn(e: Engine, healthy: seq<Account>, w0: World, listing: map<string, seq<GEvent>>, w: World,
                        x: Applied, i: Intent, src: Account, ev: GEvent, dst: string)
    requires Calm(e, healthy, w0, listing) && SourceOf(e, healthy, w0, src, ev)
    requires dst in w0 && dst in Names(healthy) && dst != src.name
    requires Underway(e.cfg, Names(healthy), w0, w) && AllThere(w0, w) && Fits(w, x)
    requires MirrorIntent(i, e.cfg.title, src, ev, dst) && Carries(x, i)
    requires UniqueWorld(Stepped(w, x))
    ensures Underway(e.cfg, Names(healthy), w0, Stepped(w, x)) && AllThere(w0, Stepped(w, x))
  {
    hide *;
    SourceFacts(e, healthy, w0, listing, src, ev, dst);
    WriteFacts(e.cfg, Names(healthy), w0, w, x, i, src, ev, dst);
    CalmIsBarFree(e, healthy, w0, listing);
    if i.Making? {
      CreationGoesOn(e, healthy, w0, listing, w, x, src, ev, dst);
    } else {
      NoBarOnTheWay(e.cfg, Names(healthy), w0, w, dst, x.before.value.id, i.key);
      IndexKeyInjective(i.key, KeyOfSource(src, ev));
      UpdateGoesOn(e, healthy, w0, listing, w, x, src, ev, dst);
    }
    StillUnderway(e.cfg, Names(healthy), w0, w, x);
  }

  lemma WriteFacts(cfg: Config, healthy: set<string>, w0: World, w: World, x: Applied, i: Intent, src: Account,
                   ev: GEvent, dst: string)
    requires Underway(cfg, healthy, w0, w) && Fits(w, x) && MirrorIntent(i, cfg.title, src, ev, dst) && Carries(x, i)
    ensures Towards(cfg, healthy, w0, w) && x.acc == dst && dst in w && !i.Dropping? && x.after.Some?
    ensures i.Making? ==> i == Making(dst, Bridge.BlockFor(InsertPayload(cfg.title, src, ev)))
    ensures i.Moving? ==>
      && i == Moving(dst, i.key, cfg.title, Norm(ev.start), Norm(ev.end))
      && IndexKey(i.key) == IndexKey(KeyOfSource(src, ev))
      && x.before.Some? && Holds(w[dst], x.before.value.id, i.key)
    ensures x.before.Some? ==> KeyOf(x.after.value) == KeyOf(x.before.value)
    ensures KeyOfSource(src, ev).ev == ev.id
  {
    hide Towards;
    CarriedKeys(x, i);
  }

  lemma StillUnderway(cfg: Config, healthy: set<string>, w0: World, w: World, x: Applied)
    requires Underway(cfg, healthy, w0, w) && AllThere(w0, w) && Fits(w, x) && x.after.Some?
    requires x.before.Some? ==> KeyOf(x.after.value) == KeyOf(x.before.value)
    requires Towards(cfg, healthy, w0, Stepped(w, x))
    ensures Underway(cfg, healthy, w0, Stepped(w, x)) && AllThere(w0, Stepped(w, x))
  {
    hide Towards, KeyOf;
    assert Stepped(w, x).Keys == w.Keys;
    forall d, id | d in w0 && id in w0[d]
      ensures id in Stepped(w, x)[d] && KeyOf(Stepped(w, x)[d][id]) == KeyOf(w0[d][id])
    {
      assert id in w[d] && KeyOf(w[d][id]) == KeyOf(w0[d][id]);
    }
  }

  lemma CalmIsBarFree(e: Engine, healthy: seq<Account>, w0: World, listing: map<string, seq<GEvent>>)
    requires Calm(e, healthy, w0, listing)
    ensures BarFree(w0)
  {
  }

  /** Blocks stay under their identifiers through phase 2, so if they are unique
      after some of its writes they were before. */
  lemma UniqueBefore(w: World, x: Applied, i: Intent)
    requires Fits(w, x) && Carries(x, i) && !i.Dropping? && UniqueWorld(Stepped(w, x))
    ensures UniqueWorld(w)
  {
    CarriedKeys(x, i);
    forall a, id, k | a in w && Holds(w[a], id, k)
      ensures Holds(Stepped(w, x)[a], id, k)
    {
    }
  }

  /******* Phase 3 *******/

  /** A removal meant for a stale block leaves its cell at its goal. */
  lemma RemovalGoesOn(cfg: Config, healthy: set<string>, w0: World, w: World, x: Applied, dst: string, id: string)
    requires UniqueWorld(w0) && Underway(cfg, healthy, w0, w) && Fits(w, x) && dst in w0 && dst in healthy
    requires x.acc == dst && x.before.Some? && x.after.None? && x.before.value.id == id
    requires id in w0[dst] && Collectable(cfg, healthy, w0, w0[dst][id])
    ensures Underway(cfg, healthy, w0, Stepped(w, x))
  {
    var k := KeyOf(w0[dst][id]).value;
    CollectedGoal(cfg, healthy, w0, dst, id);
    RemoveTouches(w[dst], id, k);
    OneStepOn(cfg, healthy, w0, w, Stepped(w, x), dst, k);
    hide Towards, UniqueWorld, Goal;
  }

  /******* Any prefix of the log *******/

  lemma {:induction false} UniqueAllAlong(first: World, log0: seq<Applied>, log: seq<Applied>, allowed: iset<Intent>,
                                          n: nat)
    requires SafeSince(log0, log, allowed) && forall i :: i in allowed ==> !i.Dropping?
    requires UniqueAfter(first, log) && |log0| <= n <= |log|
    ensures UniqueAfter(first, log[..n])
    decreases |log|
  {
    if n == |log| {
      assert log[..n] == log;
    } else {
      var front, x := log[..|log| - 1], log[|log| - 1];
      var i :| i in allowed && Carries(x, i);
      UniqueBefore(Replay(first, front).value, x, i);
      UniqueAllAlong(first, log0, front, allowed, n);
      assert front[..n] == log[..n];
    }
  }

  lemma MirrorsKeepAll(title: string, srcs: seq<Account>, reals: map<string, seq<GEvent>>, dsts: seq<Account>)
    ensures forall i :: i in AllIntents(title, srcs, reals, dsts) ==> !i.Dropping?
  {
  }

  /** After any writes of phase 2. */
  lemma {:induction false} MirroringIsUnderway(e: Engine, healthy: seq<Account>, w0: World,
                                               listing: map<string, seq<GEvent>>, reals: map<string, seq<GEvent>>,
                                               first: World, log0: seq<Applied>, log: seq<Applied>)
    requires Calm(e, healthy, w0, listing) && Classified(healthy, listing, reals)
    requires SafeSince(log0, log, AllIntents(e.cfg.title, healthy, reals, healthy))
    requires Replay(first, log0) == Some(w0) && UniqueAfter(first, log)
    ensures Underway(e.cfg, Names(healthy), w0, Replay(first, log).value)
    ensures AllThere(w0, Replay(first, log).value)
    decreases |log|
  {
    hide Calm, Classified, Fits, Carries, UniqueWorld, Underway, AllThere, MirrorIntent, SourceOf;
    if log0 == log {
      CalmMeansUnique(e, healthy, w0, listing);
      SetsOut(e.cfg, Names(healthy), w0);
    } else {
      var front, x := log[..|log| - 1], log[|log| - 1];
      var w := Replay(first, front).value;
      var i :| i in AllIntents(e.cfg.title, healthy, reals, healthy) && Carries(x, i);
      var src, ev, dst :| src in healthy && src.name in reals && ev in reals[src.name] && dst in healthy
                          && dst.name != src.name && MirrorIntent(i, e.cfg.title, src, ev, dst.name);
      MirrorsKeepAll(e.cfg.title, healthy, reals, healthy);
      UniqueBefore(w, x, i);
      MirroringIsUnderway(e, healthy, w0, listing, reals, first, log0, front);
      var n :| 0 <= n < |healthy| && healthy[n] == src;
      SourcesAreReal(e, healthy, w0, listing, reals, n);
      NamesKnown(e, healthy, w0, listing, dst);
      MirroringGoesOn(e, healthy, w0, listing, w, x, i, src, ev, dst.name);
    }
  }

  lemma NamesKnown(e: Engine, healthy: seq<Account>, w0: World, listing: map<string, seq<GEvent>>, dst: Account)
    requires Calm(e, healthy, w0, listing) && dst in healthy
    ensures dst.name in w0 && dst.name in Names(healthy) && UniqueWorld(w0)
  {
  }

  /** And after any writes of phase 3. */
  lemma {:induction false} CollectingIsUnderway(e: Engine, healthy: seq<Account>, w0: World,
                                                listing: map<string, seq<GEvent>>, reals: map<string, seq<GEvent>>,
                                                owned: map<string, seq<GEvent>>, first: World, midway: seq<Applied>,
                                                log: seq<Applied>)
    requires Calm(e, healthy, w0, listing)
    requires Classified(healthy, listing, reals) && OwnedClassified(healthy, listing, owned)
    requires SafeSince(midway, log, DropIntents(healthy, owned, Names(healthy), LiveSet(healthy, reals)))
    requires Replay(first, midway).Some? && Replay(first, log).Some?
    requires Underway(e.cfg, Names(healthy), w0, Replay(first, midway).value)
    ensures Underway(e.cfg, Names(healthy), w0, Replay(first, log).value)
    decreases |log|
  {
    hide Calm, Classified, OwnedClassified, Fits, UniqueWorld, Underway, Stale, LiveSet, Collectable;
    if midway != log {
      var front, x := log[..|log| - 1], log[|log| - 1];
      CollectingIsUnderway(e, healthy, w0, listing, reals, owned, first, midway, front);
      var i :| i in DropIntents(healthy, owned, Names(healthy), LiveSet(healthy, reals)) && Carries(x, i);
      var dst, b :| dst in healthy && dst.name in owned && b in owned[dst.name]
                    && Stale(Names(healthy), LiveSet(healthy, reals), b) && i == Dropping(dst.name, b.id);
      var n :| 0 <= n < |healthy| && healthy[n] == dst;
      BlocksAreListed(e, healthy, w0, listing, owned, n);
      StaleIsCollectable(e, healthy, w0, listing, reals, dst.name, b);
      NamesKnown(e, healthy, w0, listing, dst);
      RemovalGoesOn(e.cfg, Names(healthy), w0, Replay(first, front).value, x, dst.name, b.id);
    }
  }

  /** Wherever a pass is cut short: after any number of its writes the calendars
      are on the way, each key as it was or at its goal and everything else as it
      was, blocks unique, and fit for the next pass. */
  lemma CutShortAnywhere(e: Engine, f: Fetched, listing: map<string, seq<GEvent>>, seen: World, first: World,
                         w0: World, t0: nat, log0: seq<Applied>, midway: seq<Applied>, log1: seq<Applied>, n: nat)
    returns (w: World)
    requires ConfigOk(e.cfg) && FetchOf(e.cfg.accounts, e.cfg.win, f, listing, seen) && SeenIn(seen, w0)
    requires WorldOk(w0, t0) && CalmStart(true, w0) && forall a :: a in e.cfg.accounts ==> a.name in w0
    requires PassWrote(e, f, log0, midway, log1)
    requires Replay(first, log0) == Some(w0) && UniqueAfter(first, midway) && Replay(first, log1).Some?
    requires |log0| <= n <= |log1|
    ensures Replay(first, log1[..n]) == Some(w)
    ensures Towards(e.cfg, Names(f.healthy), w0, w) && CalmStart(true, w)
  {
    hide *;
    CalmMeans(true, w0);
    FetchIsCalm(e, f, listing, seen, w0, t0);
    FetchUsable(e.cfg, f, listing, seen, w0);
    WroteMeans(e, f, log0, midway, log1);
    Safety.ReplayPrefix(first, log1, n);
    w := Replay(first, log1[..n]).value;
    var mirrors := AllIntents(e.cfg.title, f.healthy, f.reals, f.healthy);
    if n <= |midway| {
      assert log1[..n] == midway[..n];
      MirrorsKeepAll(e.cfg.title, f.healthy, f.reals, f.healthy);
      UniqueAllAlong(first, log0, midway, mirrors, n);
      Safety.SafePrefix(log0, midway, mirrors, n);
      MirroringIsUnderway(e, f.healthy, w0, listing, f.reals, first, log0, midway[..n]);
    } else {
      MirroringIsUnderway(e, f.healthy, w0, listing, f.reals, first, log0, midway);
      Safety.SafePrefix(midway, log1, DropIntents(f.healthy, f.owned, Names(f.healthy), LiveSet(f.healthy, f.reals)),
                        n);
      WasUnique(first, midway);
      CollectingIsUnderway(e, f.healthy, w0, listing, f.reals, f.owned, first, midway, log1[..n]);
    }
    UnderwayMeans(e.cfg, Names(f.healthy), w0, w);
    CalmOnTheWay(e.cfg, Names(f.healthy), w0, w);
  }

  /** After `n` writes the calendars are on the way, and fit for the next pass. */
  ghost predicate OnTheWay(cfg: Config, healthy: set<string>, w0: World, first: World, log: seq<Applied>, n: nat) {
    && n <= |log| && Replay(first, log[..n]).Some?
    && Towards(cfg, healthy, w0, Replay(first, log[..n]).value) && CalmStart(true, Replay(first, log[..n]).value)
  }

  /** One pass with nobody else writing, whatever fails: on the way after every
      one of its writes. */
  method SyncWatched(e: Engine, s: Server) returns (report: Report, ghost f: Fetched)
    requires s.Valid() && ConfigOk(e.cfg) && forall a :: a in e.cfg.accounts ==> a.name in s.cals
    requires CalmStart(s.quiet, s.cals)
    modifies s, s.journal
    ensures s.Valid() && ReportsFetch(report, f)
    ensures forall n :: |old(s.log)| <= n <= |s.log| ==>
      OnTheWay(e.cfg, Names(f.healthy), old(s.cals), s.first, s.log, n)
  {
    hide *;
    ghost var w0, t0, log0 := s.cals, s.clock, s.log;
    WorldIsOk(s);
    CalmMeans(s.quiet, w0);
    LogTells(s);
    ghost var listing, seen, midway, asked;
    report, f, listing, seen, midway, asked := SyncOnce(e, s);
    LogTells(s);
    forall n | |log0| <= n <= |s.log|
      ensures OnTheWay(e.cfg, Names(f.healthy), w0, s.first, s.log, n)
    {
      var w := CutShortAnywhere(e, f, listing, seen, s.first, w0, t0, log0, midway, s.log, n);
      OnTheWayBy(e.cfg, Names(f.healthy), w0, s.first, s.log, n, w);
    }
  }

  lemma LogTells(s: Server)
    requires s.Valid() && s.quiet
    ensures Replay(s.first, s.log) == Some(s.cals)
  {
  }

  lemma OnTheWayBy(cfg: Config, healthy: set<string>, w0: World, first: World, log: seq<Applied>, n: nat, w: World)
    requires n <= |log| && Replay(first, log[..n]) == Some(w)
    requires Towards(cfg, healthy, w0, w) && CalmStart(true, w)
    ensures OnTheWay(cfg, healthy, w0, first, log, n)
  {
  }

  /** A pass cut short after any of its writes, and then an error-free one that
      fetches no fewer accounts, end where one error-free pass would have ended. */
  lemma CutShortThenResumed(e: Engine, f: Fetched, listing: map<string, seq<GEvent>>, seen: World, first: World,
                            w0: World, t0: nat, log0: seq<Applied>, midway: seq<Applied>, log1: seq<Applied>, n: nat,
                            again: Fetched, resumed: World, r: Report, asked: seq<Request>, direct: World)
    requires ConfigOk(e.cfg) && FetchOf(e.cfg.accounts, e.cfg.win, f, listing, seen) && SeenIn(seen, w0)
    requires WorldOk(w0, t0) && CalmStart(true, w0) && forall a :: a in e.cfg.accounts ==> a.name in w0
    requires PassWrote(e, f, log0, midway, log1)
    requires Replay(first, log0) == Some(w0) && UniqueAfter(first, midway) && Replay(first, log1).Some?
    requires |log0| <= n <= |log1| && Replay(first, log1[..n]).Some?
    requires PassExact(e, again, Replay(first, log1[..n]).value, resumed, r, asked) && !e.dry
    requires !r.tooFew && r.syncErrs == [] && Names(f.healthy) <= Names(again.healthy)
    requires Between(e.cfg, Names(again.healthy), w0, direct) && Settled(e.cfg, Names(again.healthy), w0, direct)
    ensures SameState(resumed, direct)
  {
    hide *;
    var w := CutShortAnywhere(e, f, listing, seen, first, w0, t0, log0, midway, log1, n);
    CleanPass(e, again, w, resumed, r, asked);
    CutShortIsHarmless(e.cfg, Names(f.healthy), Names(again.healthy), w0, w, resumed, direct);
  }

  lemma WroteMeans(e: Engine, f: Fetched, log0: seq<Applied>, midway: seq<Applied>, log1: seq<Applied>)
    requires PassWrote(e, f, log0, midway, log1)
    ensures SafeSince(log0, midway, AllIntents(e.cfg.title, f.healthy, f.reals, f.healthy))
    ensures SafeSince(midway, log1, DropIntents(f.healthy, f.owned, Names(f.healthy), LiveSet(f.healthy, f.reals)))
    ensures log0 <= midway <= log1
  {
    SafeSinceMeans(log0, midway, AllIntents(e.cfg.title, f.healthy, f.reals, f.healthy));
    SafeSinceMeans(midway, log1, DropIntents(f.healthy, f.owned, Names(f.healthy), LiveSet(f.healthy, f.reals)));
  }

  lemma WasUnique(first: World, log: seq<Applied>)
    requires UniqueAfter(first, log)
    ensures Replay(first, log).Some?
  {
  }

  lemma UnderwayMeans(cfg: Config, healthy: set<string>, w0: World, w: World)
    requires Underway(cfg, healthy, w0, w)
    ensures Towards(cfg, healthy, w0, w)
  {
  }
}
