/**
 One whole synchronization pass: fetch and classify, mirror, collect.
 */
module Pass {
  import opened Basics
  import opened Events
  import opened Calendars
  import opened Retry
  import opened Server
  import opened WriteLog
  import opened Target
  import opened Plan
  import opened Progress
  import opened Engine
  import opened Mirroring
  import opened Collecting
  import Bridge = ProviderClient

  /******* Phase 1 *******/

  method Classify(evs: seq<GEvent>) returns (reals: seq<GEvent>, owned: seq<GEvent>, index: Index, skipped: nat)
    ensures reals == RealOf(evs) && owned == OwnedOf(evs) && index == IndexOf(evs) && skipped == SkippedIn(evs)
  {
    reals, owned, index, skipped := [], [], map[], 0;
    for i := 0 to |evs|
      invariant reals == RealOf(evs[..i]) && owned == OwnedOf(evs[..i])
      invariant index == IndexOf(evs[..i]) && skipped == SkippedIn(evs[..i])
    {
      var ev := evs[i];
      assert evs[..i + 1][..i] == evs[..i] && evs[..i + 1][i] == ev;
      if IsCancelled(ev) {
        continue;
      }
      if IsOwned(ev) {
        owned := owned + [ev];
        var id := SourceIdentity(ev);
        if id.Some? {
          index := index[IndexKey(Key(id.value.account, id.value.event)) := ev];
        }
        continue;
      }
      if !BlocksTime(ev) {
        skipped := skipped + 1;
        continue;
      }
      reals := reals + [ev];
    }
    assert evs[..|evs|] == evs;
  }

  /** What phase 1 leaves behind. */
  datatype Fetched = Fetched(
    healthy: seq<Account>,
    reals: map<string, seq<GEvent>>,
    owned: map<string, seq<GEvent>>,
    index: map<string, Index>,
    skipped: nat,
    failed: seq<string>,
    errs: seq<Err>)

  function SkippedOver(healthy: seq<Account>, listing: map<string, seq<GEvent>>): nat {
    if healthy == [] then 0
    else
      var name := healthy[|healthy| - 1].name;
      SkippedOver(healthy[..|healthy| - 1], listing) + if name in listing then SkippedIn(listing[name]) else 0
  }

  /** One account's fetched half: its listing shows the calendar `seen`. */
  ghost predicate Took(win: Window, f: Fetched, listing: map<string, seq<GEvent>>, seen: World, name: string) {
    && name in listing && name in seen && name in f.reals && name in f.owned && name in f.index
    && Bridge.Listed(seen[name], win, listing[name])
    && f.reals[name] == RealOf(listing[name])
    && f.owned[name] == OwnedOf(listing[name])
    && f.index[name] == IndexOf(listing[name])
  }

  ghost predicate DistinctNames(accounts: seq<Account>) {
    forall i, j :: 0 <= i < j < |accounts| ==> accounts[i].name != accounts[j].name
  }

  /** Every account was either fetched or failed. */
  ghost predicate Accounted(accounts: seq<Account>, healthy: seq<Account>, failed: seq<string>) {
    && DistinctNames(healthy)
    && (forall a :: a in healthy ==> a in accounts)
    && (forall a :: a in accounts ==> (a in healthy <==> a.name !in failed))
    && |healthy| + |failed| == |accounts|
    && (forall n :: n in failed ==> n in Names(accounts))
  }

  ghost predicate TookAll(win: Window, f: Fetched, listing: map<string, seq<GEvent>>, seen: World) {
    && seen.Keys == Names(f.healthy)
    && forall a :: a in f.healthy ==> Took(win, f, listing, seen, a.name)
  }

  ghost predicate FetchOf(accounts: seq<Account>, win: Window, f: Fetched, listing: map<string, seq<GEvent>>,
                          seen: World) {
    && Accounted(accounts, f.healthy, f.failed) && |f.errs| == |f.failed|
    && TookAll(win, f, listing, seen)
    && f.skipped == SkippedOver(f.healthy, listing)
  }

  /** The events, by account, that the calendars seen in the window held live,
      nobody's block and taking up no time. */
  ghost function FreeAcross(healthy: seq<Account>, seen: World, win: Window): set<(string, string)> {
    set a, id | a in healthy && a.name in seen && id in FreeOn(seen[a.name], win) :: (a.name, id)
  }

  lemma {:induction false} AsManyPairs(name: string, ids: set<string>)
    ensures |set id | id in ids :: (name, id)| == |ids|
    decreases |ids|
  {
    if ids != {} {
      var x :| x in ids;
      AsManyPairs(name, ids - {x});
      assert (set id | id in ids :: (name, id)) == (set id | id in ids - {x} :: (name, id)) + {(name, x)};
    } else {
      assert (set id | id in ids :: (name, id)) == {};
    }
  }

  lemma FreeAcrossNext(healthy: seq<Account>, a: Account, seen: World, win: Window)
    requires a.name in seen && a.name !in Names(healthy)
    ensures |FreeAcross(healthy + [a], seen, win)| == |FreeAcross(healthy, seen, win)| + |FreeOn(seen[a.name], win)|
  {
    hide FreeOn;
    var these := set id | id in FreeOn(seen[a.name], win) :: (a.name, id);
    AsManyPairs(a.name, FreeOn(seen[a.name], win));
    assert FreeAcross(healthy + [a], seen, win) == FreeAcross(healthy, seen, win) + these;
    assert FreeAcross(healthy, seen, win) !! these;
  }

  /** What a fetch counts as skipped is as many as those. */
  lemma {:induction false} SkippedAcross(healthy: seq<Account>, win: Window, listing: map<string, seq<GEvent>>,
                                         seen: World)
    requires DistinctNames(healthy)
    requires forall a :: a in healthy ==>
      a.name in listing && a.name in seen && Bridge.Listed(seen[a.name], win, listing[a.name])
    ensures SkippedOver(healthy, listing) == |FreeAcross(healthy, seen, win)|
  {
    hide Bridge.Listed, FreeOn, SkippedIn, FreeAcross;
    if healthy == [] {
      NothingAcross(seen, win);
    } else {
      var front, a := healthy[..|healthy| - 1], healthy[|healthy| - 1];
      SkippedAcross(front, win, listing, seen);
      SkippedCounts(seen[a.name], win, listing[a.name]);
      assert healthy == front + [a];
      NextIsNew(healthy, |front|);
      FreeAcrossNext(front, a, seen, win);
    }
  }

  lemma NothingAcross(seen: World, win: Window)
    ensures FreeAcross([], seen, win) == {}
  {
  }

  /** So for a pass: its count of skipped events is the number of events, on the
      calendars it fetched, that are live, nobody's block and take up no time. */
  lemma SkippedIsFree(accounts: seq<Account>, win: Window, f: Fetched, listing: map<string, seq<GEvent>>, seen: World)
    requires FetchOf(accounts, win, f, listing, seen)
    ensures f.skipped == |FreeAcross(f.healthy, seen, win)|
  {
    forall a | a in f.healthy
      ensures Took(win, f, listing, seen, a.name)
    {
    }
    SkippedAcross(f.healthy, win, listing, seen);
  }

  lemma NextIsNew(accounts: seq<Account>, i: nat)
    requires i < |accounts| && DistinctNames(accounts)
    ensures accounts[i].name !in Names(accounts[..i])
    ensures Names(accounts[..i + 1]) == Names(accounts[..i]) + {accounts[i].name}
  {
    assert accounts[..i + 1] == accounts[..i] + [accounts[i]];
    forall b | b in accounts[..i]
      ensures b.name != accounts[i].name
    {
      var j :| 0 <= j < i && accounts[j] == b;
    }
    assert Names(accounts[..i + 1]) == Names(accounts[..i]) + {accounts[i].name};
  }

  lemma AccountedOne(accounts: seq<Account>, i: nat, healthy: seq<Account>, failed: seq<string>)
    requires i < |accounts| && DistinctNames(accounts) && Accounted(accounts[..i], healthy, failed)
    ensures Accounted(accounts[..i + 1], healthy + [accounts[i]], failed)
    ensures Accounted(accounts[..i + 1], healthy, failed + [accounts[i].name])
    ensures accounts[i].name !in Names(healthy)
  {
    var a := accounts[i];
    NextIsNew(accounts, i);
    assert accounts[..i + 1] == accounts[..i] + [a];
    forall b | b in healthy
      ensures b.name != a.name
    {
      assert b.name in Names(accounts[..i]);
    }
  }

  lemma {:induction false} SkippedElsewhere(healthy: seq<Account>, listing: map<string, seq<GEvent>>, name: string,
                                            evs: seq<GEvent>)
    requires name !in Names(healthy)
    ensures SkippedOver(healthy, listing[name := evs]) == SkippedOver(healthy, listing)
  {
    if healthy != [] {
      var front, last := healthy[..|healthy| - 1], healthy[|healthy| - 1];
      assert last in healthy && last.name in Names(healthy);
      assert Names(front) <= Names(healthy);
      SkippedElsewhere(front, listing, name, evs);
    }
  }

  function WithAccount(f: Fetched, a: Account, reals: seq<GEvent>, owned: seq<GEvent>, index: Index,
                       skipped: nat): Fetched {
    Fetched(f.healthy + [a], f.reals[a.name := reals], f.owned[a.name := owned], f.index[a.name := index],
            f.skipped + skipped, f.failed, f.errs)
  }

  lemma WithAccountErrs(f: Fetched, a: Account, reals: seq<GEvent>, owned: seq<GEvent>, index: Index, skipped: nat)
    ensures var g := WithAccount(f, a, reals, owned, index, skipped);
      g.errs == f.errs && g.failed == f.failed && g.healthy == f.healthy + [a]
  {
  }

  lemma TookMore(win: Window, f: Fetched, g: Fetched, listing: map<string, seq<GEvent>>, seen: World, a: Account,
                 evs: seq<GEvent>, cal: Calendar)
    requires TookAll(win, f, listing, seen) && a.name !in Names(f.healthy) && Bridge.Listed(cal, win, evs)
    requires g == WithAccount(f, a, RealOf(evs), OwnedOf(evs), IndexOf(evs), SkippedIn(evs))
    ensures TookAll(win, g, listing[a.name := evs], seen[a.name := cal])
  {
    hide Bridge.Listed, RealOf, OwnedOf, IndexOf, SkippedIn;
    var listing1, seen1 := listing[a.name := evs], seen[a.name := cal];
    forall b | b in g.healthy
      ensures Took(win, g, listing1, seen1, b.name)
    {
      if b in f.healthy {
        assert Took(win, f, listing, seen, b.name) && b.name in Names(f.healthy);
      }
    }
    forall n
      ensures n in seen1.Keys <==> n in Names(g.healthy)
    {
      assert a in g.healthy;
      assert forall b :: b in g.healthy <==> b in f.healthy || b == a;
    }
  }

  lemma FetchedOne(accounts: seq<Account>, i: nat, win: Window, f: Fetched, g: Fetched, listing: map<string,
                   seq<GEvent>>,
                   seen: World, evs: seq<GEvent>, cal: Calendar)
    requires i < |accounts| && DistinctNames(accounts)
    requires FetchOf(accounts[..i], win, f, listing, seen) && Bridge.Listed(cal, win, evs)
    requires g == WithAccount(f, accounts[i], RealOf(evs), OwnedOf(evs), IndexOf(evs), SkippedIn(evs))
    ensures FetchOf(accounts[..i + 1], win, g, listing[accounts[i].name := evs], seen[accounts[i].name := cal])
  {
    hide Bridge.Listed, RealOf, OwnedOf, IndexOf, SkippedIn, Accounted, TookAll;
    AccountedOne(accounts, i, f.healthy, f.failed);
    TookMore(win, f, g, listing, seen, accounts[i], evs, cal);
    SkippedElsewhere(f.healthy, listing, accounts[i].name, evs);
    assert g.healthy[..|g.healthy| - 1] == f.healthy;
  }

  lemma FetchFailed(accounts: seq<Account>, i: nat, win: Window, f: Fetched, listing: map<string, seq<GEvent>>,
                    seen: World,
                    err: Err)
    requires i < |accounts| && DistinctNames(accounts)
    requires FetchOf(accounts[..i], win, f, listing, seen)
    ensures FetchOf(accounts[..i + 1], win, f.(failed := f.failed + [accounts[i].name], errs := f.errs + [err]),
                    listing, seen)
  {
    hide Accounted;
    AccountedOne(accounts, i, f.healthy, f.failed);
    var g := f.(failed := f.failed + [accounts[i].name], errs := f.errs + [err]);
    assert forall n :: Took(win, f, listing, seen, n) ==> Took(win, g, listing, seen, n);
  }

  lemma FetchBegins(e: Engine, quiet: bool, tame: bool, w: World, t: nat)
    requires ConfigOk(e.cfg) && WorldOk(w, t)
    ensures FetchOf(e.cfg.accounts[..0], e.cfg.win, Fetched([], map[], map[], map[], 0, [], []), map[], map[])
    ensures Interlude(quiet, tame, w, t, w, t) && DistinctNames(e.cfg.accounts) && SeenIn(map[], w)
  {
  }

  /** The calendars seen are those of the world. */
  ghost predicate SeenIn(seen: World, w: World) {
    forall n :: n in seen ==> n in w && seen[n] == w[n]
  }

  lemma SeenMore(seen: World, w: World, n: string)
    requires SeenIn(seen, w) && n in w
    ensures SeenIn(seen[n := w[n]], w)
  {
  }

  /** Each calendar seen is one the service had when it answered one of these listings. */
  ghost predicate SeenShown(win: Window, seen: World, shown: seq<Listing>) {
    forall n :: n in seen ==> Listing(n, win, seen[n]) in shown
  }

  /** The listings added since. */
  function Since(before: seq<Listing>, after: seq<Listing>): seq<Listing> {
    if |before| <= |after| then after[|before|..] else []
  }

  lemma NothingShown(win: Window, before: seq<Listing>)
    ensures SeenShown(win, map[], Since(before, before))
  {
  }

  lemma StillShown(win: Window, seen: World, before: seq<Listing>, mid: seq<Listing>, after: seq<Listing>)
    requires before <= mid <= after && SeenShown(win, seen, Since(before, mid))
    ensures before <= after && SeenShown(win, seen, Since(before, after))
  {
    forall n | n in seen
      ensures Listing(n, win, seen[n]) in Since(before, after)
    {
      var i :| 0 <= i < |Since(before, mid)| && Since(before, mid)[i] == Listing(n, win, seen[n]);
      assert Since(before, after)[i] == mid[|before| + i];
    }
  }

  lemma ShownToo(win: Window, seen: World, before: seq<Listing>, mid: seq<Listing>, after: seq<Listing>, n: string,
                 cal: Calendar)
    requires before <= mid && SeenShown(win, seen, Since(before, mid)) && Shown(mid, after, Listing(n, win, cal))
    ensures before <= after && SeenShown(win, seen[n := cal], Since(before, after))
  {
    StillShown(win, seen, before, mid, after);
    var last := Since(before, after)[|after| - |before| - 1];
    assert last == Listing(n, win, cal);
  }

  /** The accounts whose listing was answered, and the names and errors of the
      ones it was not, in the order of the calls. */
  function Answered(accounts: seq<Account>, calls: seq<Call>): seq<Account>
    requires |accounts| == |calls|
  {
    if calls == [] then []
    else
      var n := |calls| - 1;
      Answered(accounts[..n], calls[..n]) + if calls[n].err.None? then [accounts[n]] else []
  }

  function Unanswered(calls: seq<Call>): seq<string> {
    if calls == [] then []
    else
      var n := |calls| - 1;
      Unanswered(calls[..n]) + if calls[n].err.Some? && calls[n].ListCall? then [calls[n].acc] else []
  }

  function ErrorsIn(calls: seq<Call>): seq<Err> {
    if calls == [] then []
    else
      var n := |calls| - 1;
      ErrorsIn(calls[..n]) + if calls[n].err.Some? then [calls[n].err.value] else []
  }

  /** One listing was asked of each account, in order, and an account counts as
      fetched or as failed, with its error, by the answer to that. */
  ghost predicate Polled(accounts: seq<Account>, calls: seq<Call>, f: Fetched) {
    && |calls| == |accounts|
    && (forall i :: 0 <= i < |calls| ==> calls[i].ListCall? && calls[i].acc == accounts[i].name)
    && f.healthy == Answered(accounts, calls) && f.failed == Unanswered(calls) && f.errs == ErrorsIn(calls)
  }

  ghost predicate PolledSince(accounts: seq<Account>, before: seq<Call>, now: seq<Call>, f: Fetched) {
    before <= now && Polled(accounts, now[|before|..], f)
  }

  lemma PolledNothing(accounts: seq<Account>, before: seq<Call>)
    ensures PolledSince(accounts[..0], before, before, Fetched([], map[], map[], map[], 0, [], []))
  {
  }

  lemma PolledOne(accounts: seq<Account>, i: nat, before: seq<Call>, now: seq<Call>, f: Fetched, g: Fetched,
                  err: Option<Err>)
    requires i < |accounts| && PolledSince(accounts[..i], before, now, f)
    requires g.healthy == f.healthy + if err.None? then [accounts[i]] else []
    requires g.failed == f.failed + if err.Some? then [accounts[i].name] else []
    requires g.errs == f.errs + if err.Some? then [err.value] else []
    ensures PolledSince(accounts[..i + 1], before, now + [ListCall(accounts[i].name, err)], g)
  {
    var calls, more := now[|before|..], (now + [ListCall(accounts[i].name, err)])[|before|..];
    assert more == calls + [ListCall(accounts[i].name, err)] && more[..i] == calls;
    assert accounts[..i + 1][..i] == accounts[..i];
  }

  /** Every account was listed once and its answer decides. */
  lemma {:induction false} PolledMeans(accounts: seq<Account>, calls: seq<Call>, f: Fetched)
    requires Polled(accounts, calls, f)
    ensures forall i :: 0 <= i < |accounts| ==>
      if calls[i].err.None? then accounts[i] in f.healthy
      else accounts[i].name in f.failed && calls[i].err.value in f.errs
    ensures forall a :: a in f.healthy ==>
      exists i :: 0 <= i < |accounts| && accounts[i] == a && calls[i].err.None?
    ensures forall n :: n in f.failed ==>
      exists i :: 0 <= i < |accounts| && accounts[i].name == n && calls[i].err.Some?
  {
    if accounts != [] {
      var n := |accounts| - 1;
      var g := f.(healthy := Answered(accounts[..n], calls[..n]), failed := Unanswered(calls[..n]),
                  errs := ErrorsIn(calls[..n]));
      PolledMeans(accounts[..n], calls[..n], g);
      assert calls[n].ListCall? && calls[n].acc == accounts[n].name;
      forall i | 0 <= i < n
        ensures accounts[i] == accounts[..n][i] && calls[i] == calls[..n][i]
      {
      }
    }
  }

  /** Phase 1: lists every account, going on past the ones that fail. */
  method Fetch(e: Engine, s: Server) returns (f: Fetched, ghost listing: map<string, seq<GEvent>>, ghost seen: World)
    requires s.Valid() && ConfigOk(e.cfg) && forall a :: a in e.cfg.accounts ==> a.name in s.cals
    modifies s, s.journal
    ensures s.log == old(s.log) && s.writes == old(s.writes) && s.lookups == old(s.lookups)
    ensures s.Valid() && Interlude(s.quiet, s.tame, old(s.cals), old(s.clock), s.cals, s.clock)
    ensures FetchOf(e.cfg.accounts, e.cfg.win, f, listing, seen)
    ensures s.faults >= old(s.faults) && (s.faults == old(s.faults) ==> f.errs == [])
    // Each account was asked for one listing, and the answer decides.
    ensures PolledSince(e.cfg.accounts, old(s.journal.calls), s.journal.calls, f)
    // What was seen is what the service showed during the call, whoever else
    // writes, and with nobody else writing it is what was there.
    ensures old(s.journal.listings) <= s.journal.listings
    ensures SeenShown(e.cfg.win, seen, Since(old(s.journal.listings), s.journal.listings))
    ensures s.quiet ==> SeenIn(seen, old(s.cals))
  {
    hide *;
    WorldIsOk(s);
    NothingShown(e.cfg.win, s.journal.listings);
    PolledNothing(e.cfg.accounts, s.journal.calls);
    f := Fetched([], map[], map[], map[], 0, [], []);
    listing, seen := map[], map[];
    FetchBegins(e, s.quiet, s.tame, s.cals, s.clock);
    for i := 0 to |e.cfg.accounts|
      invariant s.log == old(s.log) && s.writes == old(s.writes) && s.lookups == old(s.lookups)
      invariant s.Valid() && Interlude(s.quiet, s.tame, old(s.cals), old(s.clock), s.cals, s.clock)
      invariant FetchOf(e.cfg.accounts[..i], e.cfg.win, f, listing, seen)
      invariant s.faults >= old(s.faults) && (s.faults == old(s.faults) ==> f.errs == [])
      invariant PolledSince(e.cfg.accounts[..i], old(s.journal.calls), s.journal.calls, f)
      invariant old(s.journal.listings) <= s.journal.listings
      invariant SeenShown(e.cfg.win, seen, Since(old(s.journal.listings), s.journal.listings))
      invariant s.quiet ==> SeenIn(seen, old(s.cals))
    {
      var a := e.cfg.accounts[i];
      assert a in e.cfg.accounts;
      ghost var w, t, shown, called := s.cals, s.clock, s.journal.listings, s.journal.calls;
      InterludeKeysSame(s.quiet, s.tame, old(s.cals), old(s.clock), w, t);
      var got := Bridge.ListEvents(s, e.policy, a.name, e.cfg.win);
      InterludesCompose(s.quiet, s.tame, old(s.cals), old(s.clock), w, t, s.cals, s.clock);
      InterludeKeysSame(s.quiet, s.tame, old(s.cals), old(s.clock), s.cals, s.clock);
      ErrOfMeans(got);
      if got.Err? {
        PolledOne(e.cfg.accounts, i, old(s.journal.calls), called, f,
                  f.(failed := f.failed + [a.name], errs := f.errs + [got.error]), Some(got.error));
        StillShown(e.cfg.win, seen, old(s.journal.listings), shown, s.journal.listings);
        FetchFailed(e.cfg.accounts, i, e.cfg.win, f, listing, seen, got.error);
        f := f.(failed := f.failed + [a.name], errs := f.errs + [got.error]);
        continue;
      }
      var reals, owned, index, skipped := Classify(got.value);
      ghost var before := f;
      f := WithAccount(f, a, reals, owned, index, skipped);
      WithAccountErrs(before, a, reals, owned, index, skipped);
      PolledOne(e.cfg.accounts, i, old(s.journal.calls), called, before, f, None);
      FetchedOne(e.cfg.accounts, i, e.cfg.win, before, f, listing, seen, got.value, s.cals[a.name]);
      if s.quiet {
        SeenMore(seen, old(s.cals), a.name);
      }
      ShownToo(e.cfg.win, seen, old(s.journal.listings), shown, s.journal.listings, a.name, s.cals[a.name]);
      listing, seen := listing[a.name := got.value], seen[a.name := s.cals[a.name]];
    }
    assert e.cfg.accounts[..|e.cfg.accounts|] == e.cfg.accounts;
  }

  /******* The pass *******/

  /** What a pass reports. `tooFew` is the error of having fewer than two
      fetched accounts. */
  datatype Report = Report(
    created: nat,
    updated: nat,
    deleted: nat,
    skipped: nat,
    healthy: seq<string>,
    failed: seq<string>,
    fetchErrs: seq<Err>,
    tooFew: bool,
    syncErrs: seq<Failure>)

  function NamesOf(accounts: seq<Account>): seq<string> {
    seq(|accounts|, i requires 0 <= i < |accounts| => accounts[i].name)
  }

  predicate ReportsFetch(r: Report, f: Fetched) {
    && r.skipped == f.skipped && r.failed == f.failed && r.fetchErrs == f.errs
    && |r.healthy| == |f.healthy| && (forall i :: 0 <= i < |r.healthy| ==> r.healthy[i] == f.healthy[i].name)
    && (r.tooFew <==> |f.healthy| < 2)
    && (r.tooFew ==> r.created == r.updated == r.deleted == 0 && r.syncErrs == [])
  }

  /** The requests of a pass, from the listings and the calendars as they were.
      No index takes part. */
  ghost function PassPlan(title: string, f: Fetched, w: World): seq<Request> {
    PlanMirrors(title, f.healthy, f.reals, f.healthy, w)
    + PlanCollection(f.healthy, f.owned, Names(f.healthy), LiveSet(f.healthy, f.reals))
  }

  ghost predicate CountsAre(cfg: Config, healthy: set<string>, w: World, bad: set<Cell>, r: Report) {
    && r.created == Planned(cfg, healthy, w, bad, Addition)
    && r.updated == Planned(cfg, healthy, w, bad, Rewrite)
    && r.deleted == Planned(cfg, healthy, w, bad, Removal)
  }

  /** What a pass comes to when nobody else writes and blocks were unique. Every
      error is of a cell of its own. Every other cell ends at its goal and is
      counted, whatever fails elsewhere, and the requests issued are the planned
      ones but for at most one for each error. A failed cell is where it was or
      at its goal, and nothing else changes. A dry run only counts. */
  ghost predicate PassExact(e: Engine, f: Fetched, w0: World, w1: World, r: Report, asked: seq<Request>) {
    && Between(e.cfg, Names(f.healthy), w0, w1)
    && (e.dry || r.tooFew ==> w1 == w0)
    && |BadCells(r.syncErrs)| == |r.syncErrs|
    && (!r.tooFew ==> DoneBut(e, f, w0, w1, r, BadCells(r.syncErrs), asked))
  }

  /** The pass did all it had to but for the cells in `bad`. */
  ghost predicate DoneBut(e: Engine, f: Fetched, w0: World, w1: World, r: Report, bad: set<Cell>, asked: seq<Request>)
    requires w1.Keys == w0.Keys
  {
    && bad <= PassCells(e.cfg, Names(f.healthy), w0)
    && CountsAre(e.cfg, Names(f.healthy), w0, bad, r)
    && (!e.dry ==>
          && SettledBut(e.cfg, Names(f.healthy), w0, w1, bad)
          && Subsequence(asked, PassPlan(e.cfg.title, f, w0))
          && |PassPlan(e.cfg.title, f, w0)| <= |asked| + |r.syncErrs|)
  }

  /** With no error the pass has settled, by exactly the planned requests. */
  lemma CleanPass(e: Engine, f: Fetched, w0: World, w1: World, r: Report, asked: seq<Request>)
    requires PassExact(e, f, w0, w1, r, asked) && r.syncErrs == [] && !r.tooFew
    ensures Between(e.cfg, Names(f.healthy), w0, w1)
    ensures CountsAre(e.cfg, Names(f.healthy), w0, {}, r)
    ensures !e.dry ==> Settled(e.cfg, Names(f.healthy), w0, w1) && asked == PassPlan(e.cfg.title, f, w0)
  {
    hide Between, CountsAre, Goal, At;
    assert BadCells(r.syncErrs) == {};
    if !e.dry {
      SubsequenceLength(asked, PassPlan(e.cfg.title, f, w0));
    }
  }

  /** Without a fault the writes applied are the plan: as many, and each carries
      out the planned request in its place. */
  lemma LogIsThePlan(e: Engine, f: Fetched, w0: World, w1: World, r: Report, asked: seq<Request>, log0: seq<Applied>,
                     log1: seq<Applied>)
    requires PassExact(e, f, w0, w1, r, asked) && r.syncErrs == [] && !r.tooFew && !e.dry
    requires LogFollows(w0, log0, log1, asked)
    ensures log0 <= log1 && |log1| == |log0| + |PassPlan(e.cfg.title, f, w0)|
    ensures forall n :: 0 <= n < |PassPlan(e.cfg.title, f, w0)| ==>
      Fulfils(w0, log1[|log0| + n], PassPlan(e.cfg.title, f, w0)[n])
  {
    hide PassExact, PassPlan;
    CleanPass(e, f, w0, w1, r, asked);
  }

  /** The assumptions of the exact results. */
  ghost predicate CalmStart(quiet: bool, w: World) {
    quiet && UniqueWorld(w) && BarFree(w)
  }

  lemma FetchUsable(cfg: Config, f: Fetched, listing: map<string, seq<GEvent>>, seen: World, w: World)
    requires FetchOf(cfg.accounts, cfg.win, f, listing, seen)
    requires forall a :: a in cfg.accounts ==> a.name in w
    ensures forall a :: a in f.healthy ==> a.name in w && a.name in f.reals && a.name in f.owned
    ensures Classified(f.healthy, listing, f.reals) && OwnedClassified(f.healthy, listing, f.owned)
  {
    forall a | a in f.healthy
      ensures Took(cfg.win, f, listing, seen, a.name)
    {
    }
  }

  lemma FetchIsCalm(e: Engine, f: Fetched, listing: map<string, seq<GEvent>>, seen: World, w0: World, t0: nat)
    requires ConfigOk(e.cfg) && FetchOf(e.cfg.accounts, e.cfg.win, f, listing, seen) && SeenIn(seen, w0)
    requires WorldOk(w0, t0) && UniqueWorld(w0) && BarFree(w0)
    ensures Calm(e, f.healthy, w0, listing)
  {
    hide Bridge.Listed, BarFree, UniqueWorld;
    forall d, id | d in w0 && id in w0[d]
      ensures w0[d][id].id == id && id != ""
    {
      assert StoredWell(w0[d], t0);
    }
    forall a | a in f.healthy
      ensures Bridge.Listed(w0[a.name], e.cfg.win, listing[a.name])
    {
      assert Took(e.cfg.win, f, listing, seen, a.name);
    }
  }

  lemma IndexesAreRight(e: Engine, f: Fetched, listing: map<string, seq<GEvent>>, seen: World, w0: World, d: string)
    requires FetchOf(e.cfg.accounts, e.cfg.win, f, listing, seen) && SeenIn(seen, w0)
    requires UniqueWorld(w0) && BarFree(w0) && d in Names(f.healthy)
    ensures d in f.index && d in w0 && IndexOk(f.index[d], w0[d], {}) && Covers(f.index[d], w0[d], e.cfg.win)
  {
    hide IndexOk, Covers, Bridge.Listed;
    var a :| a in f.healthy && a.name == d;
    assert Took(e.cfg.win, f, listing, seen, a.name);
    IndexIsBuiltRight(w0[d], e.cfg.win, listing[d]);
  }

  /** Each fetched account has an index, sane whoever writes. */
  ghost predicate IndexesSane(healthy: seq<Account>, index: map<string, Index>) {
    forall a :: a in healthy ==> a.name in index && IndexSane(index[a.name])
  }

  /** Each index is right about the calendar as fetched. */
  ghost predicate IndexesOk(healthy: seq<Account>, index: map<string, Index>, w: World) {
    forall d :: d in Names(healthy) && d in w && d in index ==> IndexOk(index[d], w[d], {})
  }

  /** Each index covers the blocks in the window. */
  ghost predicate IndexesCover(healthy: seq<Account>, index: map<string, Index>, w: World, win: Window) {
    forall d :: d in Names(healthy) && d in w && d in index ==> Covers(index[d], w[d], win)
  }

  lemma BuiltIndexes(e: Engine, f: Fetched, listing: map<string, seq<GEvent>>, seen: World)
    requires FetchOf(e.cfg.accounts, e.cfg.win, f, listing, seen)
    ensures IndexesSane(f.healthy, f.index)
    ensures forall w :: SeenIn(seen, w) && UniqueWorld(w) && BarFree(w) ==>
      IndexesOk(f.healthy, f.index, w) && IndexesCover(f.healthy, f.index, w, e.cfg.win)
  {
    hide IndexOk, Covers, FetchOf, UniqueWorld, BarFree, IndexSane;
    forall a | a in f.healthy
      ensures a.name in f.index && IndexSane(f.index[a.name])
    {
      BuiltIndex(e, f, listing, seen, a);
    }
    forall w | SeenIn(seen, w) && UniqueWorld(w) && BarFree(w)
      ensures IndexesOk(f.healthy, f.index, w) && IndexesCover(f.healthy, f.index, w, e.cfg.win)
    {
      forall d | d in Names(f.healthy)
        ensures d in f.index && d in w && IndexOk(f.index[d], w[d], {}) && Covers(f.index[d], w[d], e.cfg.win)
      {
        IndexesAreRight(e, f, listing, seen, w, d);
      }
    }
  }

  lemma BuiltIndex(e: Engine, f: Fetched, listing: map<string, seq<GEvent>>, seen: World, a: Account)
    requires FetchOf(e.cfg.accounts, e.cfg.win, f, listing, seen) && a in f.healthy
    ensures a.name in f.index && IndexSane(f.index[a.name])
  {
    assert Took(e.cfg.win, f, listing, seen, a.name);
    BuiltSane(listing[a.name]);
  }

  lemma PassBegins(e: Engine, f: Fetched, listing: map<string, seq<GEvent>>, seen: World, w0: World, t0: nat,
                   index: map<string, Index>)
    requires ConfigOk(e.cfg) && FetchOf(e.cfg.accounts, e.cfg.win, f, listing, seen) && SeenIn(seen, w0)
    requires WorldOk(w0, t0) && UniqueWorld(w0) && BarFree(w0)
    requires IndexesSane(f.healthy, index) && IndexesOk(f.healthy, index, w0)
    ensures Exact(e, true, f.healthy, w0, listing, w0, Books(index, 0, 0, 0, []), {})
    ensures AtGoal(e.cfg, Names(f.healthy), w0) && IndexesCover(f.healthy, index, w0, e.cfg.win) ==>
      Steady(e, Names(f.healthy), w0, index)
  {
    var none: set<Cell> := {};
    assert BadCells([]) == none && none - none == none;
    hide IndexOk, Covers, FetchOf, Calm, UniqueWorld, BarFree, AtGoal, InProgress, Tally;
    FetchIsCalm(e, f, listing, seen, w0, t0);
    forall d | d in Names(f.healthy) && d in w0
      ensures d in index && IndexOk(index[d], w0[d], DoneOn({}, d))
    {
      assert DoneOn({}, d) == {};
    }
    Begin(e.cfg, Names(f.healthy), w0);
  }

  lemma LiveIsTheSet(healthy: seq<Account>, listing: map<string, seq<GEvent>>, reals: map<string, seq<GEvent>>,
                     owned: map<string, seq<GEvent>>, live: set<string>)
    requires ReadyToCollect(healthy, listing, reals, owned, live)
    ensures live == LiveSet(healthy, reals)
  {
  }

  lemma TrackedIsBetween(e: Engine, healthy: set<string>, w0: World, w: World, done: set<Cell>, bad: set<Cell>)
    requires WorldTracked(e, healthy, w0, w, done, bad)
    ensures Between(e.cfg, healthy, w0, w)
    ensures e.dry ==> w == w0
    ensures !e.dry ==> InProgress(e.cfg, healthy, w0, w, done, bad)
  {
  }

  lemma PassEnds(e: Engine, f: Fetched, listing: map<string, seq<GEvent>>, w0: World, w1: World, b0: Books, b1: Books,
                 b2: Books, live: set<string>, asked: seq<Request>, more: seq<Request>)
    requires ReadyToCollect(f.healthy, listing, f.reals, f.owned, live) && |f.healthy| >= 2 && b0.errs == []
    requires Exact(e, true, f.healthy, w0, listing, w1, b2, MirrorCells(e.cfg, Names(f.healthy), w0)
                   + CollectedCells(Names(f.healthy), live, f.healthy, f.owned))
    requires AsPlanned(e.dry, b0, b1, asked, PlanMirrors(e.cfg.title, f.healthy, f.reals, f.healthy, w0))
    requires AsPlanned(e.dry, b1, b2, more, PlanCollection(f.healthy, f.owned, Names(f.healthy), live))
    ensures PassExact(e, f, w0, w1, ReportOf(f, b2), asked + more)
  {
    var r := ReportOf(f, b2);
    hide *;
    ReportedOf(f, b2);
    ReportCounts(f, b2);
    var names := Names(f.healthy);
    var cells := MirrorCells(e.cfg, names, w0) + CollectCells(e.cfg, names, w0);
    ExactIsCalm(e, true, f.healthy, w0, listing, w1, b2, MirrorCells(e.cfg, names, w0)
                + CollectedCells(names, live, f.healthy, f.owned));
    CollectedCellsAreCollectCells(e, f.healthy, w0, listing, f.reals, f.owned, live);
    LiveIsTheSet(f.healthy, listing, f.reals, f.owned, live);
    AllDone(e, names, w0, w1, b2, r);
    PlannedThen(e.dry, b0, b1, b2, asked, more, PlanMirrors(e.cfg.title, f.healthy, f.reals, f.healthy, w0),
                PlanCollection(f.healthy, f.owned, names, live));
    PassExactBy(e, f, w0, w1, b0, b2, r, asked + more);
  }

  lemma ReportCounts(f: Fetched, b: Books)
    ensures var r := ReportOf(f, b);
      r.created == b.created && r.updated == b.updated && r.deleted == b.deleted && r.syncErrs == b.errs
  {
  }

  /** With every cell dealt with, the world and the books say so. */
  lemma AllDone(e: Engine, names: set<string>, w0: World, w1: World, b: Books, r: Report)
    requires Tracking(e, names, w0, w1, b, MirrorCells(e.cfg, names, w0) + CollectCells(e.cfg, names, w0))
    requires r.created == b.created && r.updated == b.updated && r.deleted == b.deleted && r.syncErrs == b.errs
    ensures Between(e.cfg, names, w0, w1) && (e.dry ==> w1 == w0)
    ensures |BadCells(b.errs)| == |b.errs| && BadCells(b.errs) <= PassCells(e.cfg, names, w0)
    ensures CountsAre(e.cfg, names, w0, BadCells(b.errs), r)
    ensures !e.dry ==> SettledBut(e.cfg, names, w0, w1, BadCells(b.errs))
  {
    hide MirrorCells, CollectCells, Tally, InProgress, Between, SettledBut, UniqueWorld, Indexed;
    var cells := MirrorCells(e.cfg, names, w0) + CollectCells(e.cfg, names, w0);
    TrackedIsBetween(e, names, w0, w1, cells, BadCells(b.errs));
    if !e.dry {
      Finish(e.cfg, names, w0, w1, cells, BadCells(b.errs));
    }
  }

  lemma PassExactBy(e: Engine, f: Fetched, w0: World, w1: World, before: Books, after: Books, r: Report,
                    asked: seq<Request>)
    requires Between(e.cfg, Names(f.healthy), w0, w1) && !r.tooFew && (e.dry ==> w1 == w0)
    requires before.errs == [] && after.errs == r.syncErrs
    requires |BadCells(r.syncErrs)| == |r.syncErrs| && BadCells(r.syncErrs) <= PassCells(e.cfg, Names(f.healthy), w0)
    requires CountsAre(e.cfg, Names(f.healthy), w0, BadCells(r.syncErrs), r)
    requires !e.dry ==> SettledBut(e.cfg, Names(f.healthy), w0, w1, BadCells(r.syncErrs))
    requires AsPlanned(e.dry, before, after, asked,
                       PlanMirrors(e.cfg.title, f.healthy, f.reals, f.healthy, w0)
                       + PlanCollection(f.healthy, f.owned, Names(f.healthy), LiveSet(f.healthy, f.reals)))
    ensures PassExact(e, f, w0, w1, r, asked)
  {
    hide Between, SettledBut, CountsAre;
  }

  /** Whatever a pass creates is for an event listed as live and unowned on a
      fetched account, and goes to another fetched account. */
  lemma BornAreReal(e: Engine, f: Fetched, listing: map<string, seq<GEvent>>, seen: World)
    requires FetchOf(e.cfg.accounts, e.cfg.win, f, listing, seen)
    ensures AllCells(f.healthy, f.reals, f.healthy) <= MirrorCells(e.cfg, Names(f.healthy), seen)
  {
    hide Bridge.Listed;
    forall c | c in AllCells(f.healthy, f.reals, f.healthy)
      ensures c in MirrorCells(e.cfg, Names(f.healthy), seen)
    {
      var src, ev, a :| src in f.healthy && src.name in f.reals && ev in f.reals[src.name] && a in f.healthy
                        && a.name != src.name && c == (a.name, KeyOfSource(src, ev));
      assert Took(e.cfg.win, f, listing, seen, src.name) && Took(e.cfg.win, f, listing, seen, a.name);
      RealIsReal(e.cfg.win, seen[src.name], listing[src.name], ev);
    }
  }

  /** So are the blocks that a pass may create. */
  lemma IntentsAreReal(e: Engine, f: Fetched, listing: map<string, seq<GEvent>>, seen: World)
    requires FetchOf(e.cfg.accounts, e.cfg.win, f, listing, seen)
    ensures BornIn(PassIntents(e.cfg.title, f), MirrorCells(e.cfg, Names(f.healthy), seen))
  {
    BornAreReal(e, f, listing, seen);
    hide FetchOf, MirrorCells, LiveSet;
    forall i | i in PassIntents(e.cfg.title, f) && i.Making? && KeyOf(i.block).Some?
      ensures (i.acc, KeyOf(i.block).value) in AllCells(f.healthy, f.reals, f.healthy)
    {
      var src, ev, dst :| src in f.healthy && src.name in f.reals && ev in f.reals[src.name] && dst in f.healthy
                          && dst.name != src.name && MirrorIntent(i, e.cfg.title, src, ev, dst.name);
      BlockOfSource(e.cfg.title, src, ev);
    }
  }

  lemma BlockOfSource(title: string, src: Account, ev: GEvent)
    ensures var block := Bridge.BlockFor(InsertPayload(title, src, ev));
      KeyOf(block).Some? ==> KeyOf(block) == Some(KeyOfSource(src, ev))
  {
  }

  lemma RealIsReal(win: Window, cal: Calendar, evs: seq<GEvent>, ev: GEvent)
    requires Bridge.Listed(cal, win, evs) && ev in RealOf(evs)
    ensures ev.id in cal && Real(win, cal[ev.id])
  {
    ClassesAreFilters(evs);
    var i :| 0 <= i < |evs| && evs[i] == ev;
    ViewPreserves(cal[ev.id]);
  }

  /** What the writes of a pass may be for: to mirror events listed as live and
      unowned, and then to remove blocks listed as stale. */
  ghost function PassIntents(title: string, f: Fetched): iset<Intent> {
    AllIntents(title, f.healthy, f.reals, f.healthy)
    + DropIntents(f.healthy, f.owned, Names(f.healthy), LiveSet(f.healthy, f.reals))
  }

  lemma CanReach(healthy: seq<Account>, w: World, index: map<string, Index>)
    requires IndexesSane(healthy, index) && forall a :: a in healthy ==> a.name in w
    ensures Reachable(healthy, w, Books(index, 0, 0, 0, []))
  {
  }

  /** The assumptions of the exact results, for a fetch and an index. */
  ghost predicate CalmFetch(quiet: bool, f: Fetched, index: map<string, Index>, seen: World, w: World) {
    CalmStart(quiet, w) && SeenIn(seen, w) && IndexesOk(f.healthy, index, w)
  }

  lemma CalmFetchMeans(quiet: bool, f: Fetched, index: map<string, Index>, seen: World, w: World)
    requires CalmFetch(quiet, f, index, seen, w)
    ensures quiet && UniqueWorld(w) && BarFree(w) && SeenIn(seen, w) && IndexesOk(f.healthy, index, w)
    ensures CalmStart(quiet, w)
  {
  }

  /** The log grew as a pass may make it grow, with `midway` between its phases. */
  ghost predicate PassWrote(e: Engine, f: Fetched, log0: seq<Applied>, midway: seq<Applied>, log1: seq<Applied>) {
    && SafeSince(log0, midway, AllIntents(e.cfg.title, f.healthy, f.reals, f.healthy))
    && SafeSince(midway, log1, DropIntents(f.healthy, f.owned, Names(f.healthy), LiveSet(f.healthy, f.reals)))
  }

  lemma WroteNothing(e: Engine, f: Fetched, log: seq<Applied>)
    ensures PassWrote(e, f, log, log, log)
  {
  }

  lemma WroteBoth(e: Engine, f: Fetched, live: set<string>, log0: seq<Applied>, midway: seq<Applied>,
                  log1: seq<Applied>)
    requires live == LiveSet(f.healthy, f.reals)
    requires SafeSince(log0, midway, AllIntents(e.cfg.title, f.healthy, f.reals, f.healthy))
    requires SafeSince(midway, log1, DropIntents(f.healthy, f.owned, Names(f.healthy), live))
    ensures PassWrote(e, f, log0, midway, log1)
  {
  }

  lemma UniqueNow(s: Server)
    requires s.Valid()
    ensures s.quiet ==> s.tame
    ensures s.quiet && UniqueWorld(s.cals) ==> UniqueAfter(s.first, s.log)
  {
  }

  /** The two phases that write, with any index that is right about the fetched
      calendars. `midway` is the log between them, and `asked` the write requests
      issued to the accounts' clients. */
  method MirrorThenCollect(e: Engine, s: Server, f: Fetched, index: map<string, Index>,
                           ghost listing: map<string, seq<GEvent>>, ghost seen: World)
    returns (b: Books, ghost midway: seq<Applied>, ghost asked: seq<Request>)
    requires s.Valid() && ConfigOk(e.cfg) && forall a :: a in e.cfg.accounts ==> a.name in s.cals
    requires FetchOf(e.cfg.accounts, e.cfg.win, f, listing, seen) && IndexesSane(f.healthy, index)
    requires |f.healthy| >= 2
    modifies s, s.journal`calls
    ensures s.Valid() && s.cals.Keys == old(s.cals.Keys)
    ensures PassWrote(e, f, old(s.log), midway, s.log)
    ensures s.tame && UniqueWorld(old(s.cals)) ==> UniqueWorld(s.cals)
    ensures s.quiet && UniqueWorld(old(s.cals)) ==> UniqueAfter(s.first, midway)
    ensures e.dry ==> s.log == old(s.log) && s.writes == old(s.writes) && asked == []
    ensures s.faults >= old(s.faults) && WritesIn(s.journal.calls) == WritesIn(old(s.journal.calls)) + asked
    ensures Accountable(old(s.journal.calls), s.journal.calls, [], b.errs)
    ensures CalmFetch(s.quiet, f, index, seen, old(s.cals)) ==>
      && PassExact(e, f, old(s.cals), s.cals, ReportOf(f, b), asked)
      && (s.faults == old(s.faults) ==> b.errs == [] && LogFollows(old(s.cals), old(s.log), s.log, asked))
      && (AtGoal(e.cfg, Names(f.healthy), old(s.cals)) && IndexesCover(f.healthy, index, old(s.cals), e.cfg.win) ==>
            unchanged(s) && unchanged(s.journal`calls) && asked == [])
  {
    hide *;
    WorldIsOk(s);
    ghost var w0, names := s.cals, Names(f.healthy);
    ghost var calm := CalmFetch(s.quiet, f, index, seen, w0);
    FetchUsable(e.cfg, f, listing, seen, s.cals);
    CanReach(f.healthy, s.cals, index);
    ghost var steady := AtGoal(e.cfg, names, w0) && IndexesCover(f.healthy, index, w0, e.cfg.win);
    if calm {
      CalmFetchMeans(s.quiet, f, index, seen, w0);
      PassBegins(e, f, listing, seen, w0, s.clock, index);
    }
    var b0 := Books(index, 0, 0, 0, []);
    b, asked := MirrorAll(e, s, f.healthy, f.reals, b0, w0, listing);
    midway := s.log;
    ghost var called := s.journal.calls;
    UniqueNow(s);
    if calm {
      ExactIsCalm(e, true, f.healthy, w0, listing, s.cals, b, AllCells(f.healthy, f.reals, f.healthy));
      AllCellsAreMirrorCells(e, f.healthy, w0, listing, f.reals);
    }
    var live := LiveIds(f.healthy, f.reals);
    CollectingOf(f.healthy, listing, f.reals, f.owned, live);
    ghost var more, b1 := [], b;
    b, more := CollectAll(e, s, f.healthy, f.owned, live, b, w0, listing, f.reals);
    WroteBoth(e, f, live, old(s.log), midway, s.log);
    if calm {
      if s.faults == old(s.faults) {
        FlawlessThen(w0, b0, b1, b, old(s.log), midway, s.log, asked, more);
        FlawlessMeans(w0, b0, b, old(s.log), s.log, asked + more);
      }
      PassEnds(e, f, listing, w0, s.cals, b0, b1, b, live, asked, more);
    }
    AccountableThen(old(s.journal.calls), called, s.journal.calls, b0.errs, b1.errs, b.errs);
    AskedMore(WritesIn(old(s.journal.calls)), asked, more);
    asked := asked + more;
  }

  function ReportOf(f: Fetched, b: Books): Report {
    Report(b.created, b.updated, b.deleted, f.skipped, NamesOf(f.healthy), f.failed, f.errs, false, b.errs)
  }

  lemma ReportedOf(f: Fetched, b: Books)
    requires |f.healthy| >= 2
    ensures ReportsFetch(ReportOf(f, b), f) && ReportOf(f, b).syncErrs == b.errs && !ReportOf(f, b).tooFew
  {
  }

  /** The rest of a pass once it has fetched. */
  method Reconcile(e: Engine, s: Server, f: Fetched, index: map<string, Index>,
                   ghost listing: map<string, seq<GEvent>>, ghost seen: World)
    returns (report: Report, ghost midway: seq<Applied>, ghost asked: seq<Request>)
    requires s.Valid() && ConfigOk(e.cfg) && forall a :: a in e.cfg.accounts ==> a.name in s.cals
    requires FetchOf(e.cfg.accounts, e.cfg.win, f, listing, seen) && IndexesSane(f.healthy, index)
    modifies s, s.journal`calls
    ensures s.Valid() && s.cals.Keys == old(s.cals.Keys) && ReportsFetch(report, f)
    ensures PassWrote(e, f, old(s.log), midway, s.log)
    ensures s.tame && UniqueWorld(old(s.cals)) ==> UniqueWorld(s.cals)
    ensures s.quiet && UniqueWorld(old(s.cals)) ==> UniqueAfter(s.first, midway)
    ensures e.dry || report.tooFew ==> s.log == old(s.log) && s.writes == old(s.writes) && asked == []
    ensures s.faults >= old(s.faults) && WritesIn(s.journal.calls) == WritesIn(old(s.journal.calls)) + asked
    ensures Accountable(old(s.journal.calls), s.journal.calls, [], report.syncErrs)
    ensures CalmFetch(s.quiet, f, index, seen, old(s.cals)) ==>
      && PassExact(e, f, old(s.cals), s.cals, report, asked)
      && (s.faults == old(s.faults) ==>
            report.syncErrs == [] && LogFollows(old(s.cals), old(s.log), s.log, asked))
      && (AtGoal(e.cfg, Names(f.healthy), old(s.cals)) && IndexesCover(f.healthy, index, old(s.cals), e.cfg.win) ==>
            unchanged(s) && unchanged(s.journal`calls) && asked == [])
  {
    hide *;
    if |f.healthy| < 2 {
      midway, asked := s.log, [];
      report := Report(0, 0, 0, f.skipped, NamesOf(f.healthy), f.failed, f.errs, true, []);
      WroteNothing(e, f, s.log);
      UniqueNow(s);
      FollowsNothing(s.cals, s.log);
      AccountableNothing(s.journal.calls, []);
      if CalmFetch(s.quiet, f, index, seen, s.cals) {
        CalmFetchMeans(s.quiet, f, index, seen, s.cals);
      }
      Stopped(e, f, s.cals, s.quiet, report);
      return;
    }
    var b;
    b, midway, asked := MirrorThenCollect(e, s, f, index, listing, seen);
    report := ReportOf(f, b);
    ReportedOf(f, b);
  }

  /** The calls of a pass: one listing for each account, by whose answers the
      accounts count as fetched or failed, and then those of the two phases that
      write, whose errors are the pass's. */
  ghost predicate PassCalled(e: Engine, f: Fetched, errs: seq<Failure>, before: seq<Call>, now: seq<Call>) {
    exists polled :: PolledSince(e.cfg.accounts, before, polled, f) && Accountable(polled, now, [], errs)
  }

  lemma CalledBy(e: Engine, f: Fetched, errs: seq<Failure>, before: seq<Call>, polled: seq<Call>, now: seq<Call>)
    requires PolledSince(e.cfg.accounts, before, polled, f) && Accountable(polled, now, [], errs)
    ensures PassCalled(e, f, errs, before, now)
  {
  }

  /** So no failure is made up and none is kept back: every account failed or
      fetched was listed and answered so in the pass, every failure of a source
      on a destination is of a call made for the two that was answered with that
      error, and every such answer is reported. */
  lemma FailuresAreCalls(e: Engine, f: Fetched, errs: seq<Failure>, before: seq<Call>, now: seq<Call>)
    requires PassCalled(e, f, errs, before, now)
    ensures before <= now && |before| + |e.cfg.accounts| <= |now|
    ensures forall i :: 0 <= i < |e.cfg.accounts| ==>
      var c := now[|before| + i];
      && c.ListCall? && c.acc == e.cfg.accounts[i].name
      && (if c.err.None? then e.cfg.accounts[i] in f.healthy else c.acc in f.failed && c.err.value in f.errs)
    ensures var later := now[|before| + |e.cfg.accounts|..];
      && (forall x :: x in errs ==> exists c :: c in later && Causes(c, x))
      && (forall c :: c in later && c.err.Some? ==> exists x :: x in errs && Causes(c, x))
  {
    var polled :| PolledSince(e.cfg.accounts, before, polled, f) && Accountable(polled, now, [], errs);
    var calls := polled[|before|..];
    PolledMeans(e.cfg.accounts, calls, f);
    forall i | 0 <= i < |e.cfg.accounts|
      ensures now[|before| + i] == calls[i]
    {
      assert polled[|before| + i] == calls[i];
    }
    assert errs[0..] == errs;
    TellsMeans(now[|polled|..], errs);
  }

  lemma {:induction false} ListingsWriteNothing(before: seq<Call>, now: seq<Call>)
    requires before <= now && forall i :: |before| <= i < |now| ==> now[i].ListCall?
    ensures WritesIn(now) == WritesIn(before)
    decreases |now|
  {
    if |now| > |before| {
      ListingsWriteNothing(before, now[..|now| - 1]);
    } else {
      assert now == before;
    }
  }

  lemma PolledWrites(accounts: seq<Account>, before: seq<Call>, now: seq<Call>, f: Fetched)
    requires PolledSince(accounts, before, now, f)
    ensures WritesIn(now) == WritesIn(before) && |now| == |before| + |accounts|
  {
    forall i | |before| <= i < |now|
      ensures now[i].ListCall?
    {
      assert now[|before|..][i - |before|] == now[i];
    }
    ListingsWriteNothing(before, now);
  }

  /** One pass. `f`, `listing` and `seen` are what phase 1 found. */
  method SyncOnce(e: Engine, s: Server)
    returns (report: Report, ghost f: Fetched, ghost listing: map<string, seq<GEvent>>, ghost seen: World,
             ghost midway: seq<Applied>, ghost asked: seq<Request>)
    requires s.Valid() && ConfigOk(e.cfg) && forall a :: a in e.cfg.accounts ==> a.name in s.cals
    modifies s, s.journal
    ensures s.Valid() && s.cals.Keys == old(s.cals.Keys)
    ensures FetchOf(e.cfg.accounts, e.cfg.win, f, listing, seen) && ReportsFetch(report, f)
    // Whoever else writes, what was seen is what the service showed in this pass.
    ensures old(s.journal.listings) <= s.journal.listings
    ensures SeenShown(e.cfg.win, seen, Since(old(s.journal.listings), s.journal.listings))
    ensures s.quiet ==> SeenIn(seen, old(s.cals))
    // Whoever else writes, whatever fails and whatever the calendars are: the
    // first phase that writes only mirrors listed events, the second only
    // removes blocks listed as stale, and blocks stay unique.
    ensures PassWrote(e, f, old(s.log), midway, s.log)
    ensures s.tame && UniqueWorld(old(s.cals)) ==> UniqueWorld(s.cals)
    ensures s.quiet && UniqueWorld(old(s.cals)) ==> UniqueAfter(s.first, midway)
    ensures e.dry || report.tooFew ==> s.log == old(s.log) && s.writes == old(s.writes) && asked == []
    // `asked` are the write requests that reached the accounts' clients.
    ensures WritesIn(s.journal.calls) == WritesIn(old(s.journal.calls)) + asked
    // No failure is made up, and none is kept back.
    ensures PassCalled(e, f, report.syncErrs, old(s.journal.calls), s.journal.calls)
    // With nobody else writing, what it comes to is exact.
    ensures CalmStart(s.quiet, old(s.cals)) ==> PassExact(e, f, old(s.cals), s.cals, report, asked)
    // And with no fault it has no error, and the writes applied are one for
    // each request, in their order.
    ensures s.faults >= old(s.faults) && (s.faults == old(s.faults) ==> report.fetchErrs == [])
    ensures CalmStart(s.quiet, old(s.cals)) && s.faults == old(s.faults) ==>
      report.syncErrs == [] && LogFollows(old(s.cals), old(s.log), s.log, asked)
    // With nothing left to do: one listing for each account and no other call.
    ensures CalmStart(s.quiet, old(s.cals)) && AtGoal(e.cfg, Names(f.healthy), old(s.cals)) ==>
      && s.cals == old(s.cals) && s.log == old(s.log) && s.writes == old(s.writes) && s.lookups == old(s.lookups)
      && asked == [] && |s.journal.calls| == |old(s.journal.calls)| + |e.cfg.accounts|
  {
    hide *;
    WorldIsOk(s);
    ghost var w0, t0 := s.cals, s.clock;
    if CalmStart(s.quiet, w0) {
      CalmMeans(s.quiet, w0);
    }
    var g;
    g, listing, seen := Fetch(e, s);
    f := g;
    InterludeKeysSame(s.quiet, s.tame, w0, t0, s.cals, s.clock);
    InterludeKeeps(s.quiet, s.tame, w0, t0, s.cals, s.clock);
    BuiltIndexes(e, f, listing, seen);
    ReportedErrs(f);
    CalmFetchBy(s.quiet, f, g.index, seen, s.cals);
    ghost var polled := s.journal.calls;
    PolledWrites(e.cfg.accounts, old(s.journal.calls), polled, f);
    report, midway, asked := Reconcile(e, s, g, g.index, listing, seen);
    CalledBy(e, f, report.syncErrs, old(s.journal.calls), polled, s.journal.calls);
  }

  lemma CalmFetchBy(quiet: bool, f: Fetched, index: map<string, Index>, seen: World, w: World)
    ensures CalmStart(quiet, w) && SeenIn(seen, w) && IndexesOk(f.healthy, index, w) ==>
      CalmFetch(quiet, f, index, seen, w)
  {
  }

  lemma ReportedErrs(f: Fetched)
    ensures forall r :: ReportsFetch(r, f) ==> r.fetchErrs == f.errs
  {
  }

  lemma CalmMeans(quiet: bool, w: World)
    requires CalmStart(quiet, w)
    ensures quiet && UniqueWorld(w) && BarFree(w)
  {
  }

  lemma Stopped(e: Engine, f: Fetched, w: World, quiet: bool, r: Report)
    requires r == Report(0, 0, 0, f.skipped, NamesOf(f.healthy), f.failed, f.errs, true, []) && |f.healthy| < 2
    ensures ReportsFetch(r, f)
    ensures CalmStart(quiet, w) ==> PassExact(e, f, w, w, r, [])
  {
    assert BadCells([]) == {};
  }

  lemma CollectingOf(healthy: seq<Account>, listing: map<string, seq<GEvent>>, reals: map<string, seq<GEvent>>,
                     owned: map<string, seq<GEvent>>, live: set<string>)
    requires Classified(healthy, listing, reals) && OwnedClassified(healthy, listing, owned)
    requires live == LiveSet(healthy, reals)
    ensures ReadyToCollect(healthy, listing, reals, owned, live)
  {
  }
}
