/**
 What a pass means for the people whose calendars it touches: the consequences
 of its exact contract, spelled out.
 */
module Theorems {
  import opened Basics
  import opened Events
  import opened Calendars
  import opened Server
  import opened WriteLog
  import opened Target
  import opened Plan
  import opened Progress
  import opened Engine
  import opened Mirroring
  import opened Pass
  import Bridge = ProviderClient

  /******* One pass, the cells in `bad` having failed *******/

  /** `b` is the only block for `k` on the calendar, with the span of `src` and
      the title. */
  ghost predicate OnlyBlock(cal: Calendar, b: string, k: Key, src: GEvent, title: string) {
    && Holds(cal, b, k)
    && (forall j :: Holds(cal, j, k) ==> j == b)
    && Norm(cal[b].start) == Norm(src.start) && Norm(cal[b].end) == Norm(src.end)
    && cal[b].summary == title
  }

  /** Every live real event has exactly one block on every other account, with
      its start, its end and the configured title; and a block that was not
      there before carries nothing else of its source. What failed elsewhere
      does not matter. */
  lemma EveryEventIsMirrored(cfg: Config, healthy: set<string>, w0: World, w1: World, bad: set<Cell>, k: Key, d: string)
    requires Between(cfg, healthy, w0, w1) && SettledBut(cfg, healthy, w0, w1, bad) && (d, k) !in bad
    requires Live(cfg, healthy, w0, k) && d in healthy && d in w0 && d != k.acc
    ensures exists b :: OnlyBlock(w1[d], b, k, w0[k.acc][k.ev], cfg.title)
    ensures NoBlock(w0[d], k) ==> forall b :: Holds(w1[d], b, k) ==>
      && w1[d][b].description == "" && w1[d][b].location == "" && w1[d][b].attendees == []
      && w1[d][b].visibility == "private" && w1[d][b].transparency == "opaque"
      && OwnershipFromGoogle(w1[d][b]) == Ownership(OWNER_VALUE, k.acc, CalendarOf(cfg.accounts, k.acc), k.ev)
  {
    assert At(w1[d], k) == Goal(cfg, healthy, w0, d, k);
    assert !NoBlock(w1[d], k);
    var b :| Holds(w1[d], b, k);
    BlockIs(w1[d], b, k);
    assert OnlyBlock(w1[d], b, k, w0[k.acc][k.ev], cfg.title);
  }

  /** A block of a fetched account goes exactly when it was in the window, its
      source account was fetched, and its source is not live. */
  lemma BlocksGoExactlyWhenStale(cfg: Config, healthy: set<string>, w0: World, w1: World, bad: set<Cell>, d: string,
                                 k: Key)
    requires Between(cfg, healthy, w0, w1) && SettledBut(cfg, healthy, w0, w1, bad) && (d, k) !in bad
    requires d in healthy && d in w0 && BlockAt(w0[d], k).Some?
    ensures NoBlock(w1[d], k) <==>
            k.acc in healthy && !Live(cfg, healthy, w0, k) && InWindow(cfg.win, BlockAt(w0[d], k).value)
  {
    StripKeepsWindow(cfg.win, BlockAt(w0[d], k).value);
    assert At(w1[d], k) == Goal(cfg, healthy, w0, d, k);
  }

  /** Afterwards no block in the window outlives a source on a fetched account. */
  lemma NoBlockOutlivesItsSource(cfg: Config, healthy: set<string>, w0: World, w1: World, bad: set<Cell>, d: string,
                                 id: string, k: Key)
    requires Between(cfg, healthy, w0, w1) && SettledBut(cfg, healthy, w0, w1, bad) && (d, k) !in bad
    requires d in healthy && d in w1 && Holds(w1[d], id, k) && InWindow(cfg.win, w1[d][id]) && k.acc in healthy
    ensures Live(cfg, healthy, w1, k)
  {
    BlockIs(w1[d], id, k);
    StripKeepsWindow(cfg.win, w1[d][id]);
    LiveStays(cfg, healthy, healthy, w0, w1, k);
    GoalStays(cfg, healthy, w0, w1, d, k);
    assert At(w1[d], k) == Goal(cfg, healthy, w0, d, k);
  }

  /** An event marked free, or declined by its owner, holds no time: it gets no
      block, and a block in the window that it had goes. */
  lemma FreeEventsHoldNoTime(cfg: Config, healthy: set<string>, w0: World, w1: World, bad: set<Cell>, k: Key, d: string)
    requires Between(cfg, healthy, w0, w1) && SettledBut(cfg, healthy, w0, w1, bad) && (d, k) !in bad
    requires d in healthy && d in w0 && k.acc in healthy && k.acc in w0 && k.ev in w0[k.acc]
    requires var ev := w0[k.acc][k.ev];
      ev.transparency == "transparent"
      || exists i :: FirstSelf(ev.attendees, i) && ev.attendees[i].value.response == "declined"
    ensures NoBlock(w0[d], k) ==> NoBlock(w1[d], k)
    ensures BlockAt(w0[d], k).Some? && InWindow(cfg.win, BlockAt(w0[d], k).value) ==> NoBlock(w1[d], k)
  {
    TakesUpTime(w0[k.acc][k.ev]);
    assert !Live(cfg, healthy, w0, k);
    assert At(w1[d], k) == Goal(cfg, healthy, w0, d, k);
    if BlockAt(w0[d], k).Some? {
      StripKeepsWindow(cfg.win, BlockAt(w0[d], k).value);
    }
  }

  /** Any other live event in the window that is not the program's own is
      mirrored, a tentative invitation, one not answered, and an event nobody is
      invited to among them. */
  lemma BusyEventsAreMirrored(cfg: Config, healthy: set<string>, w0: World, w1: World, bad: set<Cell>, k: Key,
                              d: string)
    requires Between(cfg, healthy, w0, w1) && SettledBut(cfg, healthy, w0, w1, bad) && (d, k) !in bad
    requires d in healthy && d in w0 && d != k.acc && k.acc in healthy && k.acc in w0 && k.ev in w0[k.acc]
    requires var ev := w0[k.acc][k.ev];
      && InWindow(cfg.win, ev) && ev.status != "cancelled" && !Tagged(ev, OwnerKey, "calendar-bridge")
      && ev.transparency != "transparent"
      && forall i :: FirstSelf(ev.attendees, i) ==> ev.attendees[i].value.response != "declined"
    ensures exists b :: OnlyBlock(w1[d], b, k, w0[k.acc][k.ev], cfg.title)
  {
    var ev := w0[k.acc][k.ev];
    TakesUpTime(ev);
    BlockByItsFields(ev, k);
    assert Live(cfg, healthy, w0, k);
    EveryEventIsMirrored(cfg, healthy, w0, w1, bad, k, d);
  }

  /******* Any pass, however it fails *******/

  /** What is not a live block with a complete identity is not touched: nothing
      of the kind changes, goes or appears. */
  lemma OthersAreUntouched(cfg: Config, healthy: set<string>, w0: World, w1: World, d: string, id: string)
    requires Between(cfg, healthy, w0, w1) && d in w0
    ensures id in w0[d] && KeyOf(w0[d][id]).None? ==> id in w1[d] && w1[d][id] == w0[d][id]
    ensures id in w1[d] && KeyOf(w1[d][id]).None? ==> id in w0[d] && w0[d][id] == w1[d][id]
  {
    NonBlocksSame(w0[d], w1[d], id);
  }

  /** An account that was not fetched is not written, and no block mirroring it
      changes anywhere. Among such accounts is any name that is not configured,
      the old name of a renamed account included. */
  lemma UnfetchedAccountsAreSafe(cfg: Config, healthy: set<string>, w0: World, w1: World, gone: string)
    requires Between(cfg, healthy, w0, w1) && gone !in healthy
    ensures gone in w0 ==> w1[gone] == w0[gone]
    ensures forall d, k: Key :: d in w0 && k.acc == gone ==> BlockAt(w1[d], k) == BlockAt(w0[d], k)
  {
    forall d, k: Key | d in w0 && k.acc == gone
      ensures BlockAt(w1[d], k) == BlockAt(w0[d], k)
    {
      assert Goal(cfg, healthy, w0, d, k) == At(w0[d], k);
    }
  }

  /** A pass only creates blocks for events that are live and unowned on another
      account, and a key it has a block for afterwards had one or is such. */
  lemma BlocksComeFromEvents(cfg: Config, healthy: set<string>, w0: World, w1: World, d: string, id: string, k: Key)
    requires Between(cfg, healthy, w0, w1) && d in w1 && Holds(w1[d], id, k) && NoBlock(w0[d], k)
    ensures d in healthy && k.acc != d && Live(cfg, healthy, w0, k) && !IsOwned(w0[k.acc][k.ev])
  {
    BlockIs(w1[d], id, k);
    assert BlockAt(w1[d], k) == BlockAt(w0[d], k) || MovedToGoal(cfg, healthy, w0, w1, d, k);
  }

  /** No separator enters an event ID through a pass. */
  lemma BarFreeStays(cfg: Config, healthy: set<string>, w0: World, w1: World)
    requires Between(cfg, healthy, w0, w1) && BarFree(w0)
    ensures BarFree(w1)
  {
    forall d, id | d in w1 && id in w1[d] && KeyOf(w1[d][id]).Some?
      ensures NoBar(KeyOf(w1[d][id]).value.ev)
    {
      var k := KeyOf(w1[d][id]).value;
      if NoBlock(w0[d], k) {
        assert Holds(w1[d], id, k);
        BlocksComeFromEvents(cfg, healthy, w0, w1, d, id, k);
      } else {
        var j :| Holds(w0[d], j, k);
      }
    }
    forall d, id | d in w1 && id in w1[d] && !IsOwned(w1[d][id])
      ensures NoBar(id)
    {
      OthersAreUntouched(cfg, healthy, w0, w1, d, id);
    }
  }

  /** The two write phases never deal with the same cell: the collector never
      removes a block the mirroring wrote. */
  lemma PhasesAreDisjoint(cfg: Config, healthy: set<string>, w: World)
    ensures MirrorCells(cfg, healthy, w) !! CollectCells(cfg, healthy, w)
  {
    forall c | c in MirrorCells(cfg, healthy, w)
      ensures c !in CollectCells(cfg, healthy, w)
    {
      assert Live(cfg, healthy, w, c.1);
    }
  }

  /** What each count of a pass counts. */
  lemma CountsMean(cfg: Config, healthy: set<string>, w: World, d: string, k: Key)
    requires d in healthy && d in w
    ensures CellChange(cfg, healthy, w, (d, k)) == Addition <==>
            Live(cfg, healthy, w, k) && k.acc != d && NoBlock(w[d], k)
    ensures CellChange(cfg, healthy, w, (d, k)) == Removal <==>
            BlockAt(w[d], k).Some? && Collectable(cfg, healthy, w, BlockAt(w[d], k).value)
    ensures CellChange(cfg, healthy, w, (d, k)) == Rewrite <==>
            (Live(cfg, healthy, w, k) && k.acc != d && BlockAt(w[d], k).Some?
             && !(Norm(BlockAt(w[d], k).value.start) == Norm(w[k.acc][k.ev].start)
                  && Norm(BlockAt(w[d], k).value.end) == Norm(w[k.acc][k.ev].end)
                  && BlockAt(w[d], k).value.summary == cfg.title))
  {
    if BlockAt(w[d], k).Some? {
      StripKeepsWindow(cfg.win, BlockAt(w[d], k).value);
    }
  }

  /******* Two passes *******/

  /** With nothing left to do for all accounts, nothing is left for fewer. */
  lemma AtGoalWithFewer(cfg: Config, healthy: set<string>, fewer: set<string>, w: World)
    requires AtGoal(cfg, healthy, w) && fewer <= healthy
    ensures AtGoal(cfg, fewer, w)
  {
    forall d, k | d in w && d in fewer
      ensures At(w[d], k) == Goal(cfg, fewer, w, d, k)
    {
      assert At(w[d], k) == Goal(cfg, healthy, w, d, k);
      assert Live(cfg, fewer, w, k) ==> Live(cfg, healthy, w, k);
      assert k.acc in fewer && Live(cfg, healthy, w, k) ==> Live(cfg, fewer, w, k);
    }
  }

  /** After an error-free pass, a pass at the same clock that fetches no more
      accounts starts with nothing left to do, so it writes nothing and looks
      nothing up. */
  lemma SecondPassIsSilent(e: Engine, f: Fetched, w0: World, w1: World, r: Report, asked: seq<Request>,
                           again: set<string>)
    requires CalmStart(true, w0) && PassExact(e, f, w0, w1, r, asked)
    requires !e.dry && !r.tooFew && r.syncErrs == [] && again <= Names(f.healthy)
    ensures CalmStart(true, w1) && AtGoal(e.cfg, again, w1)
  {
    hide AtGoal, Settled, BarFree, DoneBut;
    CleanPass(e, f, w0, w1, r, asked);
    BarFreeStays(e.cfg, Names(f.healthy), w0, w1);
    SettledIsAtGoal(e.cfg, Names(f.healthy), w0, w1);
    AtGoalWithFewer(e.cfg, Names(f.healthy), again, w1);
  }

  /** Worlds left behind by passes that fetched the accounts `fetched[i]`. */
  ghost predicate Interrupted(cfg: Config, fetched: seq<set<string>>, worlds: seq<World>) {
    && |worlds| == |fetched| + 1
    && forall i :: 0 <= i < |fetched| ==> Between(cfg, fetched[i], worlds[i], worlds[i + 1])
  }

  lemma {:induction false} InterruptionsCompose(cfg: Config, healthy: set<string>, fetched: seq<set<string>>,
                                                worlds: seq<World>)
    requires Interrupted(cfg, fetched, worlds) && UniqueWorld(worlds[0])
    requires forall i :: 0 <= i < |fetched| ==> fetched[i] <= healthy
    ensures Between(cfg, healthy, worlds[0], worlds[|fetched|])
  {
    if fetched != [] {
      hide Between;
      var n := |fetched| - 1;
      assert Interrupted(cfg, fetched[..n], worlds[..n + 1]);
      InterruptionsCompose(cfg, healthy, fetched[..n], worlds[..n + 1]);
      BetweenWithMore(cfg, fetched[n], healthy, worlds[n], worlds[n + 1]);
      BetweenCompose(cfg, healthy, worlds[0], worlds[n], worlds[n + 1]);
    }
  }

  /** Confluence: any number of passes cut short anywhere or failing on any
      accounts, and then an error-free one, end where a single error-free pass
      would have ended. */
  lemma InterruptionsAreHarmless(cfg: Config, healthy: set<string>, fetched: seq<set<string>>, worlds: seq<World>,
                                 resumed: World, direct: World)
    requires Interrupted(cfg, fetched, worlds) && UniqueWorld(worlds[0])
    requires forall i :: 0 <= i < |fetched| ==> fetched[i] <= healthy
    requires Between(cfg, healthy, worlds[|fetched|], resumed) && Settled(cfg, healthy, worlds[|fetched|], resumed)
    requires Between(cfg, healthy, worlds[0], direct) && Settled(cfg, healthy, worlds[0], direct)
    ensures SameState(resumed, direct)
  {
    InterruptionsCompose(cfg, healthy, fetched, worlds);
    InterruptionIsHarmless(cfg, healthy, healthy, worlds[0], worlds[|fetched|], resumed, direct);
  }

  /** A dry run previews the real pass: the same counts from the same calendars. */
  lemma DryRunIsFaithful(dry: Engine, live: Engine, f: Fetched, g: Fetched, w: World, dryEnd: World, realEnd: World,
                         preview: Report, outcome: Report, none: seq<Request>, asked: seq<Request>)
    requires dry.dry && !live.dry && dry.cfg == live.cfg && Names(f.healthy) == Names(g.healthy)
    requires PassExact(dry, f, w, dryEnd, preview, none) && preview.syncErrs == [] && !preview.tooFew
    requires PassExact(live, g, w, realEnd, outcome, asked) && outcome.syncErrs == [] && !outcome.tooFew
    ensures dryEnd == w
    ensures preview.created == outcome.created && preview.updated == outcome.updated
    ensures preview.deleted == outcome.deleted
  {
    hide Between, Settled, Planned;
    CleanPass(dry, f, w, dryEnd, preview, none);
    CleanPass(live, g, w, realEnd, outcome, asked);
  }

  /******* The index *******/

  /** The last listed event with the index key wins. */
  lemma {:induction false} LastListedWins(evs: seq<GEvent>, s: string, j: nat)
    requires j < |evs| && KeyOf(evs[j]).Some? && IndexKey(KeyOf(evs[j]).value) == s
    requires forall i :: j < i < |evs| && KeyOf(evs[i]).Some? ==> IndexKey(KeyOf(evs[i]).value) != s
    ensures s in IndexOf(evs) && IndexOf(evs)[s] == evs[j]
  {
    if j < |evs| - 1 {
      LastListedWins(evs[..|evs| - 1], s, j);
    }
  }

  function Views(evs: seq<GEvent>): seq<GEvent> {
    seq(|evs|, i requires 0 <= i < |evs| => View(evs[i]))
  }

  /** `j` is the last of the events that goes by the index key of `k`. */
  predicate LastFor(evs: seq<GEvent>, k: Key, j: nat) {
    && j < |evs| && KeyOf(evs[j]).Some? && IndexKey(KeyOf(evs[j]).value) == IndexKey(k)
    && forall i :: j < i < |evs| && KeyOf(evs[i]).Some? ==> IndexKey(KeyOf(evs[i]).value) != IndexKey(k)
  }

  lemma IndexedIsLast(evs: seq<GEvent>, k: Key, j: nat)
    requires LastFor(evs, k, j)
    ensures IndexKey(k) in IndexOf(Views(evs)) && IndexOf(Views(evs))[IndexKey(k)] == View(evs[j])
  {
    forall i | 0 <= i < |evs|
      ensures KeyOf(Views(evs)[i]) == KeyOf(evs[i])
    {
      ViewPreserves(evs[i]);
    }
    LastListedWins(Views(evs), IndexKey(k), j);
  }

  /** Duplicates settle exactly when the last listed one is up to date. With any
      events listed in any order and several of them going by one index key, the
      index holds the last, at `j`, while an update goes to whichever its own
      query finds first, at `i`. After it the source still calls for an update
      unless the two are the same or the last one was up to date already. */
  lemma DuplicatesSettleExactlyWhen(title: string, ev: GEvent, k: Key, evs: seq<GEvent>, i: nat, j: nat)
    requires LastFor(evs, k, j) && i < |evs| && KeyOf(evs[i]) == Some(k) && ev == View(ev)
    ensures var moved := evs[i := evs[i].(start := ev.start, end := ev.end, summary := title)];
      && IndexKey(k) in IndexOf(Views(moved))
      && (UpToDate(title, IndexOf(Views(moved))[IndexKey(k)], ev) <==> i == j || UpToDate(title, View(evs[j]), ev))
  {
    var x := evs[i].(start := ev.start, end := ev.end, summary := title);
    var moved := evs[i := x];
    MovingKeepsKey(evs[i], x.(etag := evs[i].etag));
    assert x.(etag := evs[i].etag) == x;
    assert LastFor(moved, k, j);
    IndexedIsLast(moved, k, j);
    if i == j {
      ViewPreserves(x);
      ViewPreserves(ev);
    }
  }

  /** And so for the engine: from calendars with any number of blocks for a
      source, an update (Engine.EnsureBlock) moves one of them, `i`, and leaves
      the others. However the next pass lists the calendar, if the last block
      listed is for that source it calls for no further update exactly when it is
      the one moved or was up to date already. */
  lemma DuplicatesSettleOnCalendars(title: string, ev: GEvent, k: Key, w: World, t: nat, after: World, d: string,
                                    win: Window, evs: seq<GEvent>, j: nat)
    returns (i: string)
    requires WorldOk(w, t) && d in w && !NoBlock(w[d], k) && ev == View(ev)
    requires Bridge.Provider.MovesOne(w, after, d, k, title, SpanFromGoogle(ev.start), SpanFromGoogle(ev.end))
    requires d in after && Bridge.Listed(after[d], win, evs) && LastFor(evs, k, j) && KeyOf(evs[j]) == Some(k)
    ensures Holds(w[d], i, k) && after[d].Keys == w[d].Keys
    ensures forall id :: id in w[d] && id != i ==> after[d][id] == w[d][id]
    ensures IndexKey(k) in IndexOf(evs) && IndexOf(evs)[IndexKey(k)] == evs[j] && evs[j].id in w[d]
    ensures UpToDate(title, evs[j], ev) <==> evs[j].id == i || UpToDate(title, View(w[d][evs[j].id]), ev)
  {
    hide UpToDate, LastFor, Bridge.Listed, View, KeyOf;
    var id, made :| Bridge.Provider.MovesThis(w, after, d, k, id, title, SpanFromGoogle(ev.start),
                                              SpanFromGoogle(ev.end), made);
    i := id;
    assert StoredWell(w[d], t) && w[d][i].id == i;
    IndexedAs(evs, k, j);
    ShownIs(after[d], win, evs, j);
    if evs[j].id == i {
      MovedIsUpToDate(title, ev, w[d][i], made);
    }
  }

  lemma IndexedAs(evs: seq<GEvent>, k: Key, j: nat)
    requires LastFor(evs, k, j)
    ensures j < |evs| && IndexKey(k) in IndexOf(evs) && IndexOf(evs)[IndexKey(k)] == evs[j]
  {
    LastListedWins(evs, IndexKey(k), j);
  }

  lemma ShownIs(cal: Calendar, win: Window, evs: seq<GEvent>, j: nat)
    requires Bridge.Listed(cal, win, evs) && j < |evs|
    ensures evs[j].id in cal && evs[j] == View(cal[evs[j].id])
  {
  }

  lemma MovedIsUpToDate(title: string, ev: GEvent, b: GEvent, made: GEvent)
    requires ev == View(ev) && KeyOf(b).Some?
    requires made == b.(start := SpanToGoogle(SpanFromGoogle(ev.start)), end := SpanToGoogle(SpanFromGoogle(ev.end)),
                        summary := title, etag := made.etag)
    ensures UpToDate(title, View(made), ev)
  {
    MovingKeepsKey(b, made);
    ViewPreserves(made);
    ViewPreserves(ev);
  }

  /** The index is a correct cache: with the index of the fetch, with none at
      all, or with any that is right (Pass.Reconcile takes each), two passes from
      the same calendars that meet no error ask for the same writes, count the
      same and leave the same blocks; and if neither met a fault the service
      applied the same writes, up to identifiers and versions. */
  lemma IndexIsACache(e: Engine, f: Fetched, w0: World, cached: World, looked: World, r1: Report, r2: Report,
                      asked1: seq<Request>, asked2: seq<Request>, c0: seq<Applied>, c1: seq<Applied>,
                      l0: seq<Applied>, l1: seq<Applied>)
    requires PassExact(e, f, w0, cached, r1, asked1) && r1.syncErrs == []
    requires PassExact(e, f, w0, looked, r2, asked2) && r2.syncErrs == []
    requires !e.dry && !r1.tooFew && !r2.tooFew
    ensures asked1 == asked2
    ensures r1.created == r2.created && r1.updated == r2.updated && r1.deleted == r2.deleted
    ensures SameState(cached, looked)
    ensures LogFollows(w0, c0, c1, asked1) && LogFollows(w0, l0, l1, asked2) ==>
      c0 <= c1 && l0 <= l1 && SameWrites(c1[|c0|..], l1[|l0|..])
  {
    CleanPass(e, f, w0, cached, r1, asked1);
    CleanPass(e, f, w0, looked, r2, asked2);
    hide PassExact, DoneBut, Planned, Fulfils, SameWrites;
    SettledTheSame(e.cfg, Names(f.healthy), w0, cached, looked);
    if LogFollows(w0, c0, c1, asked1) && LogFollows(w0, l0, l1, asked2) {
      FollowedAlike(w0, c0, c1, l0, l1, asked1);
    }
  }

  lemma SettledTheSame(cfg: Config, healthy: set<string>, w0: World, a: World, b: World)
    requires Between(cfg, healthy, w0, a) && Settled(cfg, healthy, w0, a)
    requires Between(cfg, healthy, w0, b) && Settled(cfg, healthy, w0, b)
    ensures SameState(a, b)
  {
    forall d, k | d in w0
      ensures At(a[d], k) == At(b[d], k)
    {
      assert d in healthy ==> At(a[d], k) == Goal(cfg, healthy, w0, d, k) == At(b[d], k);
    }
  }

  /** No index at all is right about any calendars. */
  lemma NoIndexIsRight(healthy: seq<Account>, w: World)
    ensures var none := map d | d in Names(healthy) :: map[];
      IndexesSane(healthy, none) && IndexesOk(healthy, none, w)
  {
  }
}
