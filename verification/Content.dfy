/**
 Non-interference: what people write in their own events, and who else attends
 them, cannot influence a pass.
 */
module Content {
  import opened Basics
  import opened Events
  import opened Calendars
  import opened Server
  import opened WriteLog
  import opened Target
  import opened Plan
  import opened Progress
  import opened Mirroring
  import opened Pass
  import opened Safety
  import Engine
  import Bridge = ProviderClient

  ghost predicate SameCalendarButContent(a: Calendar, b: Calendar) {
    && a.Keys == b.Keys
    && forall id :: id in a ==> a[id] == b[id] || SameButContent(a[id], b[id])
  }

  ghost predicate SameWorldButContent(a: World, b: World) {
    && a.Keys == b.Keys
    && forall d :: d in a ==> SameCalendarButContent(a[d], b[d])
  }

  /** The same blocks, identifiers and versions included. */
  lemma SameBlocks(a: Calendar, b: Calendar, k: Key)
    requires SameCalendarButContent(a, b) && Unique(a) && Unique(b)
    ensures BlockAt(a, k) == BlockAt(b, k) && At(a, k) == At(b, k)
  {
    forall id
      ensures Holds(a, id, k) <==> Holds(b, id, k)
      ensures Holds(a, id, k) ==> a[id] == b[id]
    {
    }
    if id :| Holds(a, id, k) {
      BlockIs(a, id, k);
      BlockIs(b, id, k);
    }
  }

  lemma SameSources(cfg: Config, healthy: set<string>, a: World, b: World, k: Key)
    requires SameWorldButContent(a, b)
    ensures Live(cfg, healthy, a, k) <==> Live(cfg, healthy, b, k)
    ensures Live(cfg, healthy, a, k) ==>
      a[k.acc][k.ev].start == b[k.acc][k.ev].start && a[k.acc][k.ev].end == b[k.acc][k.ev].end
  {
    assert k.acc in a ==> SameCalendarButContent(a[k.acc], b[k.acc]);
    if k.acc in a && k.ev in a[k.acc] && a[k.acc][k.ev] != b[k.acc][k.ev] {
      OwnResponsesAgree(a[k.acc][k.ev].attendees, b[k.acc][k.ev].attendees);
    }
  }

  lemma SameGoals(cfg: Config, healthy: set<string>, a: World, b: World, d: string, k: Key)
    requires SameWorldButContent(a, b) && UniqueWorld(a) && UniqueWorld(b) && d in a
    ensures Goal(cfg, healthy, a, d, k) == Goal(cfg, healthy, b, d, k)
  {
    SameBlocks(a[d], b[d], k);
    SameSources(cfg, healthy, a, b, k);
  }

  /** The engine is shown the same listings. */
  lemma SameListings(a: Calendar, b: Calendar, win: Window, evs: seq<GEvent>)
    requires SameCalendarButContent(a, b)
    ensures Bridge.Listed(a, win, evs) <==> Bridge.Listed(b, win, evs)
  {
    forall id | id in a
      ensures View(a[id]) == View(b[id]) && InWindow(win, a[id]) == InWindow(win, b[id])
    {
      if a[id] != b[id] {
        ContentIsInvisible(a[id], b[id]);
      }
    }
  }

  /** A lookup is answered the same. */
  lemma SameLookups(a: Calendar, b: Calendar, k: Key, found: Option<GEvent>)
    requires SameCalendarButContent(a, b)
    ensures Bridge.FoundView(a, k, found) <==> Bridge.FoundView(b, k, found)
  {
    assert forall id :: Holds(a, id, k) <==> Holds(b, id, k);
  }

  ghost predicate SameBlocksIn(a: World, b: World) {
    && a.Keys == b.Keys
    && forall d, k :: d in a ==> BlockAt(a[d], k) == BlockAt(b[d], k)
  }

  lemma {:induction false} SameEventPlan(title: string, src: Account, ev: GEvent, dsts: seq<Account>, a: World,
                                         b: World)
    requires SameBlocksIn(a, b)
    ensures PlanEvent(title, src, ev, dsts, a) == PlanEvent(title, src, ev, dsts, b)
  {
    if dsts != [] {
      SameEventPlan(title, src, ev, dsts[..|dsts| - 1], a, b);
    }
  }

  lemma {:induction false} SameSourcePlan(title: string, src: Account, evs: seq<GEvent>, dsts: seq<Account>, a: World,
                                          b: World)
    requires SameBlocksIn(a, b)
    ensures PlanFrom(title, src, evs, dsts, a) == PlanFrom(title, src, evs, dsts, b)
  {
    if evs != [] {
      SameSourcePlan(title, src, evs[..|evs| - 1], dsts, a, b);
      SameEventPlan(title, src, evs[|evs| - 1], dsts, a, b);
    }
  }

  lemma {:induction false} SameMirrorPlan(title: string, srcs: seq<Account>, reals: map<string, seq<GEvent>>,
                                          dsts: seq<Account>,
                                          a: World, b: World)
    requires SameBlocksIn(a, b)
    ensures PlanMirrors(title, srcs, reals, dsts, a) == PlanMirrors(title, srcs, reals, dsts, b)
  {
    if srcs != [] {
      var src := srcs[|srcs| - 1];
      SameMirrorPlan(title, srcs[..|srcs| - 1], reals, dsts, a, b);
      if src.name in reals {
        SameSourcePlan(title, src, reals[src.name], dsts, a, b);
      }
    }
  }

  /** A fetch can come out the same from both. */
  lemma SameFetch(accounts: seq<Account>, win: Window, f: Fetched, listing: map<string, seq<GEvent>>, a: World,
                  b: World)
    requires SameWorldButContent(a, b)
    ensures FetchOf(accounts, win, f, listing, a) <==> FetchOf(accounts, win, f, listing, b)
  {
    hide Bridge.Listed, SameCalendarButContent;
    forall name | name in a && name in listing
      ensures Took(win, f, listing, a, name) <==> Took(win, f, listing, b, name)
    {
      SameListings(a[name], b[name], win, listing[name]);
    }
  }

  /** Whatever fails and whoever else writes: what was fetched from calendars `a`
      could as well have been fetched from a service that showed `b`, which
      differs only in content of unowned events, and every write the service
      applied for the pass is one that `b` calls for, title, span and tags
      included. */
  lemma ContentCannotInfluenceWrites(e: Engine.Engine, f: Fetched, listing: map<string, seq<GEvent>>, a: World,
                                     b: World, shownA: seq<Listing>, shownB: seq<Listing>,
                                     logA: seq<Applied>, midA: seq<Applied>, endA: seq<Applied>, n: nat)
    requires SameWorldButContent(a, b) && FetchShown(e, f, listing, a, shownA)
    requires SeenShown(e.cfg.win, b, shownB)
    requires PassWrote(e, f, logA, midA, endA) && |logA| <= n < |endA|
    ensures FetchShown(e, f, listing, b, shownB)
    ensures n < |midA| ==> MirrorsShown(e, f, b, shownB, endA[n])
    ensures n >= |midA| ==> DropsShown(e.cfg.win, f, b, shownB, endA[n])
  {
    SameFetch(e.cfg.accounts, e.cfg.win, f, listing, a, b);
    EveryWriteIsDecided(e, f, listing, b, shownB, logA, midA, endA, n);
  }

  /** Blocks being equal, what carries out a request on the one does on the other. */
  lemma FollowedOnBoth(a: World, b: World, log0: seq<Applied>, log1: seq<Applied>, asked: seq<Request>)
    requires SameWorldButContent(a, b) && LogFollows(a, log0, log1, asked)
    ensures LogFollows(b, log0, log1, asked)
  {
    forall n | 0 <= n < |asked|
      ensures Fulfils(b, log1[|log0| + n], asked[n])
    {
      assert Fulfils(a, log1[|log0| + n], asked[n]);
      assert asked[n].dst in a ==> SameCalendarButContent(a[asked[n].dst], b[asked[n].dst]);
    }
  }

  /** And with nobody else writing, whatever fails in either: the same requests
      are planned and issued in the same order but for those that failed, and
      every block that failed in neither ends up the same. If neither pass met a
      fault, the service applied the same writes for both. */
  lemma ContentCannotInfluenceAPass(e: Engine.Engine, f: Fetched, a: World, b: World, a1: World, b1: World,
                                    ra: Report, rb: Report, askedA: seq<Request>, askedB: seq<Request>,
                                    logA: seq<Applied>, endA: seq<Applied>, logB: seq<Applied>, endB: seq<Applied>)
    requires SameWorldButContent(a, b) && UniqueWorld(a) && UniqueWorld(b) && !e.dry
    requires PassExact(e, f, a, a1, ra, askedA) && !ra.tooFew
    requires PassExact(e, f, b, b1, rb, askedB) && !rb.tooFew
    ensures PassPlan(e.cfg.title, f, a) == PassPlan(e.cfg.title, f, b)
    ensures Subsequence(askedA, PassPlan(e.cfg.title, f, a)) && Subsequence(askedB, PassPlan(e.cfg.title, f, a))
    ensures ra.syncErrs == rb.syncErrs == [] ==> askedA == askedB
    ensures (ra.syncErrs == rb.syncErrs == [] && LogFollows(a, logA, endA, askedA)
             && LogFollows(b, logB, endB, askedB)) ==>
      logA <= endA && logB <= endB && SameWrites(endA[|logA|..], endB[|logB|..])
    ensures forall d, k :: d in a && d in Names(f.healthy) && (d, k) !in BadCells(ra.syncErrs + rb.syncErrs) ==>
      At(a1[d], k) == At(b1[d], k)
  {
    hide Between, Goal, At, CountsAre, UniqueWorld, PassCells, Subsequence, Fulfils, SameWrites;
    AllBlocksSame(a, b);
    SameMirrorPlan(e.cfg.title, f.healthy, f.reals, f.healthy, a, b);
    if ra.syncErrs == rb.syncErrs == [] {
      CleanPass(e, f, a, a1, ra, askedA);
      CleanPass(e, f, b, b1, rb, askedB);
      if LogFollows(a, logA, endA, askedA) && LogFollows(b, logB, endB, askedB) {
        FollowedOnBoth(a, b, logA, endA, askedA);
        FollowedAlike(b, logA, endA, logB, endB, askedA);
      }
    }
    SameKeys(e.cfg, Names(f.healthy), a, a1);
    SameKeys(e.cfg, Names(f.healthy), b, b1);
    forall d, k | d in a && d in Names(f.healthy) && (d, k) !in BadCells(ra.syncErrs + rb.syncErrs)
      ensures At(a1[d], k) == At(b1[d], k)
    {
      assert forall x :: x in ra.syncErrs || x in rb.syncErrs ==> x in ra.syncErrs + rb.syncErrs;
      SameGoals(e.cfg, Names(f.healthy), a, b, d, k);
    }
  }

  lemma SameKeys(cfg: Config, healthy: set<string>, w0: World, w1: World)
    requires Between(cfg, healthy, w0, w1)
    ensures w1.Keys == w0.Keys
  {
  }

  lemma AllBlocksSame(a: World, b: World)
    requires SameWorldButContent(a, b) && UniqueWorld(a) && UniqueWorld(b)
    ensures SameBlocksIn(a, b)
  {
    forall d, k | d in a
      ensures BlockAt(a[d], k) == BlockAt(b[d], k)
    {
      SameBlocks(a[d], b[d], k);
    }
  }
}
