/**
 Phase 2 of a pass: every real event of every fetched account on every other
 fetched account.
 */
module Mirroring {
  import opened Basics
  import opened Events
  import opened Calendars
  import opened Retry
  import opened Server
  import opened WriteLog
  import opened Target
  import opened Plan
  import opened Progress
  import opened Engine
  import Bridge = ProviderClient

  /** An error of one block, with the block's destination and source. */
  datatype Failure =
    | Ensuring(dst: string, key: Key, err: Err)
    | Deleting(dst: string, key: Key, id: string, err: Err)

  /** What a pass accumulates: the block index of every destination, the
      counters of its result, and the errors of its writes. */
  datatype Books = Books(index: map<string, Index>, created: nat, updated: nat, deleted: nat, errs: seq<Failure>)

  /** The call is the one that failed. */
  predicate Causes(c: Call, f: Failure) {
    match f
    case Ensuring(dst, k, err) => ForCell(c, dst, k) && c.err == Some(err)
    case Deleting(dst, _, id, err) => c == WriteCall(Remove(dst, id), Some(err))
  }

  /** The failures are those of the calls answered with an error, in order. */
  predicate Tells(calls: seq<Call>, errs: seq<Failure>)
    decreases |calls|
  {
    if calls == [] then errs == []
    else
      var front, last := calls[..|calls| - 1], calls[|calls| - 1];
      if last.err.None? then Tells(front, errs)
      else errs != [] && Causes(last, errs[|errs| - 1]) && Tells(front, errs[..|errs| - 1])
  }

  /** The failures added are those of the calls made since that were answered
      with an error, one for each and in their order. */
  ghost predicate Accountable(calls0: seq<Call>, calls1: seq<Call>, errs0: seq<Failure>, errs1: seq<Failure>) {
    calls0 <= calls1 && errs0 <= errs1 && Tells(calls1[|calls0|..], errs1[|errs0|..])
  }

  lemma AccountableNothing(calls: seq<Call>, errs: seq<Failure>)
    ensures Accountable(calls, calls, errs, errs)
  {
  }

  lemma {:induction false} TellsBoth(c1: seq<Call>, c2: seq<Call>, e1: seq<Failure>, e2: seq<Failure>)
    requires Tells(c1, e1) && Tells(c2, e2)
    ensures Tells(c1 + c2, e1 + e2)
    decreases |c2|
  {
    if c2 == [] {
      assert c1 + c2 == c1 && e1 + e2 == e1;
    } else {
      var n := |c2| - 1;
      assert (c1 + c2)[..|c1 + c2| - 1] == c1 + c2[..n];
      if c2[n].err.None? {
        TellsBoth(c1, c2[..n], e1, e2);
      } else {
        TellsBoth(c1, c2[..n], e1, e2[..|e2| - 1]);
        assert (e1 + e2)[..|e1 + e2| - 1] == e1 + e2[..|e2| - 1];
      }
    }
  }

  lemma AccountableThen(c0: seq<Call>, c1: seq<Call>, c2: seq<Call>, e0: seq<Failure>, e1: seq<Failure>,
                        e2: seq<Failure>)
    requires Accountable(c0, c1, e0, e1) && Accountable(c1, c2, e1, e2)
    ensures Accountable(c0, c2, e0, e2)
  {
    TellsBoth(c1[|c0|..], c2[|c1|..], e1[|e0|..], e2[|e1|..]);
    assert c2[|c0|..] == c1[|c0|..] + c2[|c1|..] && e2[|e0|..] == e1[|e0|..] + e2[|e1|..];
  }

  /** Every failure told is of one of the calls, and every call answered with an
      error is told. */
  lemma {:induction false} TellsMeans(calls: seq<Call>, errs: seq<Failure>)
    requires Tells(calls, errs)
    ensures forall f :: f in errs ==> exists c :: c in calls && Causes(c, f)
    ensures forall c :: c in calls && c.err.Some? ==> exists f :: f in errs && Causes(c, f)
    decreases |calls|
  {
    if calls != [] {
      var front, last := calls[..|calls| - 1], calls[|calls| - 1];
      assert calls == front + [last];
      if last.err.None? {
        TellsMeans(front, errs);
      } else {
        var f := errs[|errs| - 1];
        assert errs == errs[..|errs| - 1] + [f];
        TellsMeans(front, errs[..|errs| - 1]);
        assert last in calls && f in errs;
      }
    }
  }

  lemma {:induction false} QuietCalls(calls: seq<Call>)
    requires forall i :: 0 <= i < |calls| ==> calls[i].err.None?
    ensures Tells(calls, [])
  {
    if calls != [] {
      QuietCalls(calls[..|calls| - 1]);
    }
  }

  /** One source on one destination. */
  lemma OneAccountable(c0: seq<Call>, c1: seq<Call>, b: Books, dst: string, k: Key, r: Result<Outcome, Err>, now: Index)
    requires CallsFor(c0, c1, dst, k, ErrOf(r))
    ensures Accountable(c0, c1, b.errs, Booked(b, dst, k, r, now).errs)
  {
    var gained, errs := c1[|c0|..], Booked(b, dst, k, r, now).errs;
    if r.Ok? {
      assert errs[|b.errs|..] == [];
      QuietCalls(gained);
    } else {
      assert errs[|b.errs|..] == [Ensuring(dst, k, r.error)];
      assert gained[|gained| - 1] == c1[|c1| - 1];
      QuietCalls(gained[..|gained| - 1]);
    }
  }

  /** The cells whose call failed. */
  function BadCells(errs: seq<Failure>): set<Cell> {
    set f | f in errs :: (f.dst, f.key)
  }

  lemma BadCellsNext(errs: seq<Failure>, f: Failure)
    ensures BadCells(errs + [f]) == BadCells(errs) + {(f.dst, f.key)}
  {
    assert forall x :: x in errs + [f] <==> x in errs || x == f;
  }

  function Names(accounts: seq<Account>): set<string> {
    set a | a in accounts :: a.name
  }

  ghost function DoneOn(done: set<Cell>, d: string): set<Key> {
    set c | c in done && c.0 == d :: c.1
  }

  /** The assumptions of the exact results, beside nobody else writing: blocks
      unique at the start, no separator in an event ID, and listings taken from
      the calendars `w0`. */
  ghost predicate Calm(e: Engine, healthy: seq<Account>, w0: World, listing: map<string, seq<GEvent>>) {
    && ConfigOk(e.cfg) && UniqueWorld(w0) && BarFree(w0)
    && (forall d, id :: d in w0 && id in w0[d] ==> w0[d][id].id == id && id != "")
    && (forall i, j :: 0 <= i < j < |healthy| ==> healthy[i].name != healthy[j].name)
    && (forall a :: a in healthy ==>
          (a in e.cfg.accounts && a.name in w0 && a.name in listing
           && Bridge.Listed(w0[a.name], e.cfg.win, listing[a.name])))
  }

  ghost predicate WorldTracked(e: Engine, healthy: set<string>, w0: World, w: World, done: set<Cell>, bad: set<Cell>) {
    && UniqueWorld(w) && w.Keys == w0.Keys
    && (if e.dry then w == w0 else InProgress(e.cfg, healthy, w0, w, done, bad))
  }

  /** Every failure is of a cell of its own, and the counts are those of the
      cells dealt with and not failed. */
  ghost predicate Counted(e: Engine, healthy: set<string>, w0: World, b: Books, done: set<Cell>) {
    && BadCells(b.errs) <= done && |BadCells(b.errs)| == |b.errs|
    && b.created == Tally(e.cfg, healthy, w0, done - BadCells(b.errs), Addition)
    && b.updated == Tally(e.cfg, healthy, w0, done - BadCells(b.errs), Rewrite)
    && b.deleted == Tally(e.cfg, healthy, w0, done - BadCells(b.errs), Removal)
  }

  ghost predicate Indexed(healthy: set<string>, w: World, index: map<string, Index>, done: set<Cell>) {
    forall d :: d in healthy && d in w ==> d in index && IndexOk(index[d], w[d], DoneOn(done, d))
  }

  /** Where a calm pass stands. */
  ghost predicate Tracking(e: Engine, healthy: set<string>, w0: World, w: World, b: Books, done: set<Cell>) {
    && WorldTracked(e, healthy, w0, w, done, BadCells(b.errs))
    && Counted(e, healthy, w0, b, done)
    && Indexed(healthy, w, b.index, done)
  }

  /** The requests issued are planned ones in their order, and for each failure
      at most one planned request was not issued. */
  predicate AsPlanned(dry: bool, before: Books, after: Books, asked: seq<Request>, plan: seq<Request>) {
    && |before.errs| <= |after.errs|
    && (dry ==> asked == [])
    && (!dry ==> Subsequence(asked, plan) && |plan| <= |asked| + |after.errs| - |before.errs|)
  }

  /** `ev` is a real event fetched from `src`. */
  ghost predicate SourceOf(e: Engine, healthy: seq<Account>, w0: World, src: Account, ev: GEvent) {
    && src in healthy
    && src.name in w0 && ev.id in w0[src.name]
    && ev == View(w0[src.name][ev.id]) && Real(e.cfg.win, w0[src.name][ev.id])
  }

  /** Folds one EnsureBlock outcome into the books. */
  function Booked(b: Books, dst: string, k: Key, r: Result<Outcome, Err>, now: Index): Books {
    var kept := b.(index := b.index[dst := now]);
    match r
    case Err(err) => kept.(errs := b.errs + [Ensuring(dst, k, err)])
    case Ok(Unchanged) => kept
    case Ok(Created) => kept.(created := b.created + 1)
    case Ok(Updated) => kept.(updated := b.updated + 1)
  }

  lemma BookedMeans(b: Books, dst: string, k: Key, r: Result<Outcome, Err>, now: Index)
    ensures Booked(b, dst, k, r, now).index == b.index[dst := now]
    ensures r.Ok? ==> Booked(b, dst, k, r, now).errs == b.errs
    ensures r.Err? ==> |Booked(b, dst, k, r, now).errs| == |b.errs| + 1
    ensures BadCells(Booked(b, dst, k, r, now).errs) == BadCells(b.errs) + if r.Ok? then {} else {(dst, k)}
  {
    if r.Err? {
      BadCellsNext(b.errs, Ensuring(dst, k, r.error));
    }
  }

  lemma BlocksSame(e: Engine, healthy: set<string>, w0: World, w: World, b: Books, done: set<Cell>, d: string, k: Key)
    requires Tracking(e, healthy, w0, w, b, done) && d in w0 && (d, k) !in done
    ensures BlockAt(w[d], k) == BlockAt(w0[d], k)
  {
  }

  /** The call is one EnsureBlock may be used for. */
  lemma SourceIsNice(e: Engine, healthy: seq<Account>, w0: World, listing: map<string, seq<GEvent>>, w: World, b: Books,
                     done: set<Cell>, src: Account, ev: GEvent, dst: string)
    requires Calm(e, healthy, w0, listing) && Tracking(e, Names(healthy), w0, w, b, done)
    requires SourceOf(e, healthy, w0, src, ev) && dst in Names(healthy) && (dst, KeyOfSource(src, ev)) !in done
    ensures dst in w && dst in b.index && Nice(src, ev, dst, b.index[dst], w, DoneOn(done, dst))
  {
    ViewPreserves(w0[src.name][ev.id]);
  }

  /** What the cell of a source and a destination calls for, in the calendar as
      it is now and in the calendar as fetched. */
  lemma CellFacts(e: Engine, healthy: seq<Account>, w0: World, listing: map<string, seq<GEvent>>, w: World,
                  b: Books, done: set<Cell>, src: Account, ev: GEvent, dst: string)
    requires Calm(e, healthy, w0, listing) && Tracking(e, Names(healthy), w0, w, b, done)
    requires SourceOf(e, healthy, w0, src, ev) && dst in Names(healthy) && dst != src.name
    requires dst in w0 && (dst, KeyOfSource(src, ev)) !in done
    ensures RequestFor(e.cfg.title, src, ev, dst, w[dst]) == RequestFor(e.cfg.title, src, ev, dst, w0[dst])
    ensures BlockAt(w[dst], KeyOfSource(src, ev)) == BlockAt(w0[dst], KeyOfSource(src, ev))
    ensures Goal(e.cfg, Names(healthy), w0, dst, KeyOfSource(src, ev)) == Some(Wanted(e.cfg.title, src, ev, w[dst]))
    ensures RequestFor(e.cfg.title, src, ev, dst, w0[dst]).None? <==>
            At(w0[dst], KeyOfSource(src, ev)) == Goal(e.cfg, Names(healthy), w0, dst, KeyOfSource(src, ev))
    ensures CellChange(e.cfg, Names(healthy), w0, (dst, KeyOfSource(src, ev))) ==
            (if RequestFor(e.cfg.title, src, ev, dst, w0[dst]).None? then Nothing
             else if BlockAt(w0[dst], KeyOfSource(src, ev)).None? then Addition
             else Rewrite)
  {
    BlocksSame(e, Names(healthy), w0, w, b, done, dst, KeyOfSource(src, ev));
    WantedIsGoal(e.cfg, Names(healthy), w0, src, ev, dst);
    ViewPreserves(w0[src.name][ev.id]);
    NoRequestIffWanted(e.cfg.title, src, ev, dst, w0[dst]);
  }

  lemma IndexesKept(healthy: set<string>, w: World, after: World, index: map<string, Index>, now: Index,
                    done: set<Cell>,
                    dst: string, k: Key)
    requires Indexed(healthy, w, index, done)
    requires dst in w && after.Keys == w.Keys && forall d :: d in w && d != dst ==> after[d] == w[d]
    requires IndexOk(now, after[dst], DoneOn(done, dst) + {k})
    ensures Indexed(healthy, after, index[dst := now], done + {(dst, k)})
  {
    var done1 := done + {(dst, k)};
    forall d | d in healthy && d in after
      ensures IndexOk(index[dst := now][d], after[d], DoneOn(done1, d))
    {
      assert DoneOn(done, d) <= DoneOn(done1, d);
      assert (dst, k) in done1;
      if d == dst {
        assert k in DoneOn(done1, d);
      }
    }
  }

  lemma WorldStep(e: Engine, healthy: set<string>, w0: World, w: World, after: World, done: set<Cell>, bad: set<Cell>,
                  src: Account, ev: GEvent, dst: string, r: Result<Outcome, Err>, asked: Option<Request>)
    requires WorldTracked(e, healthy, w0, w, done, bad) && UniqueWorld(w0)
    requires dst in w0 && dst in healthy && (dst, KeyOfSource(src, ev)) !in done
    requires UniqueWorld(after) && after.Keys == w.Keys
    requires Mirrored(e.dry, e.cfg.title, src, ev, dst, w, after, r, asked)
    requires Goal(e.cfg, healthy, w0, dst, KeyOfSource(src, ev)) == Some(Wanted(e.cfg.title, src, ev, w[dst]))
    requires RequestFor(e.cfg.title, src, ev, dst, w[dst]).None? <==>
             At(w0[dst], KeyOfSource(src, ev)) == Goal(e.cfg, healthy, w0, dst, KeyOfSource(src, ev))
    ensures WorldTracked(e, healthy, w0, after, done + {(dst, KeyOfSource(src, ev))},
                         if r.Ok? then bad else bad + {(dst, KeyOfSource(src, ev))})
    ensures forall d :: d in w && d != dst ==> after[d] == w[d]
  {
    if !e.dry {
      assert CellStep(e.cfg, healthy, w0, w, after, dst, KeyOfSource(src, ev), r.Ok?);
      Advance(e.cfg, healthy, w0, w, after, done, bad, dst, KeyOfSource(src, ev), r.Ok?);
    }
  }

  lemma MirrorStep(e: Engine, healthy: seq<Account>, w0: World, listing: map<string, seq<GEvent>>, w: World,
                   after: World,
                   b: Books, done: set<Cell>, src: Account, ev: GEvent, dst: string,
                   r: Result<Outcome, Err>, now: Index, asked: Option<Request>)
    requires Calm(e, healthy, w0, listing) && Tracking(e, Names(healthy), w0, w, b, done)
    requires SourceOf(e, healthy, w0, src, ev) && dst in Names(healthy) && dst != src.name
    requires dst in w0 && (dst, KeyOfSource(src, ev)) !in done
    requires UniqueWorld(after) && after.Keys == w.Keys
    requires Mirrored(e.dry, e.cfg.title, src, ev, dst, w, after, r, asked)
    requires IndexKept(now, src, ev, dst, after, DoneOn(done, dst), r.Ok?)
    ensures Tracking(e, Names(healthy), w0, after, Booked(b, dst, KeyOfSource(src, ev), r, now),
                     done + {(dst, KeyOfSource(src, ev))})
    ensures AsPlanned(e.dry, b, Booked(b, dst, KeyOfSource(src, ev), r, now), AsSeq(asked),
                      AsSeq(RequestFor(e.cfg.title, src, ev, dst, w0[dst])))
  {
    var k := KeyOfSource(src, ev);
    BookedMeans(b, dst, k, r, now);
    CellFacts(e, healthy, w0, listing, w, b, done, src, ev, dst);
    MirroredMeans(e.dry, e.cfg.title, src, ev, dst, w, after, r, asked);
    OnePlanned(e.dry, b, Booked(b, dst, k, r, now), asked, RequestFor(e.cfg.title, src, ev, dst, w0[dst]), r.Ok?);
    TrackingMeans(e, Names(healthy), w0, w, b, done);
    CalmMeansUnique(e, healthy, w0, listing);
    hide *;
    WorldStep(e, Names(healthy), w0, w, after, done, BadCells(b.errs), src, ev, dst, r, asked);
    MirrorCounts(e, Names(healthy), w0, b, done, dst, k, r, now);
    KeptMeans(now, src, ev, dst, after, DoneOn(done, dst), r.Ok?);
    IndexesKept(Names(healthy), w, after, b.index, now, done, dst, k);
    TrackingBy(e, Names(healthy), w0, after, Booked(b, dst, k, r, now), done + {(dst, k)});
  }

  lemma MirroredMeans(dry: bool, title: string, src: Account, ev: GEvent, dst: string, before: World, after: World,
                      r: Result<Outcome, Err>, asked: Option<Request>)
    requires dst in before && dst in after && Mirrored(dry, title, src, ev, dst, before, after, r, asked)
    ensures dry ==> asked.None?
    ensures asked.None? || asked == RequestFor(title, src, ev, dst, before[dst])
    ensures r.Ok? && !dry ==> asked == RequestFor(title, src, ev, dst, before[dst])
    ensures (r.Ok? ==>
               ChangeFor(r.value) == if RequestFor(title, src, ev, dst, before[dst]).None? then Nothing
                                     else if BlockAt(before[dst], KeyOfSource(src, ev)).None? then Addition
                                     else Rewrite)
  {
  }

  lemma OnePlanned(dry: bool, before: Books, after: Books, asked: Option<Request>, request: Option<Request>, ok: bool)
    requires |after.errs| == |before.errs| + if ok then 0 else 1
    requires (dry ==> asked.None?) && (asked.None? || asked == request) && (ok && !dry ==> asked == request)
    ensures AsPlanned(dry, before, after, AsSeq(asked), AsSeq(request))
  {
  }

  lemma TrackingMeans(e: Engine, healthy: set<string>, w0: World, w: World, b: Books, done: set<Cell>)
    requires Tracking(e, healthy, w0, w, b, done)
    ensures WorldTracked(e, healthy, w0, w, done, BadCells(b.errs)) && Counted(e, healthy, w0, b, done)
    ensures Indexed(healthy, w, b.index, done) && w.Keys == w0.Keys
  {
  }

  lemma TrackingBy(e: Engine, healthy: set<string>, w0: World, w: World, b: Books, done: set<Cell>)
    requires WorldTracked(e, healthy, w0, w, done, BadCells(b.errs)) && Counted(e, healthy, w0, b, done)
    requires Indexed(healthy, w, b.index, done)
    ensures Tracking(e, healthy, w0, w, b, done)
  {
  }

  lemma CalmMeansWell(e: Engine, healthy: seq<Account>, w0: World, listing: map<string, seq<GEvent>>, dst: string)
    requires Calm(e, healthy, w0, listing) && dst in w0
    ensures forall id :: id in w0[dst] ==> w0[dst][id].id == id
  {
  }

  lemma CalmMeansUnique(e: Engine, healthy: seq<Account>, w0: World, listing: map<string, seq<GEvent>>)
    requires Calm(e, healthy, w0, listing)
    ensures UniqueWorld(w0)
  {
  }

  lemma KeptMeans(now: Index, src: Account, ev: GEvent, dst: string, after: World, stale: set<Key>, ok: bool)
    requires dst in after && IndexKept(now, src, ev, dst, after, stale, ok)
    ensures IndexOk(now, after[dst], stale + {KeyOfSource(src, ev)})
  {
  }

  function ChangeFor(o: Outcome): Change {
    match o
    case Unchanged => Nothing
    case Created => Addition
    case Updated => Rewrite
  }

  /** One more cell: counted when its call went well, set aside when it failed. */
  lemma OneMoreCell(cfg: Config, healthy: set<string>, w0: World, done: set<Cell>, bad: set<Cell>, c: Cell, ok: bool,
                    change: Change)
    requires c !in done && bad <= done
    ensures Tally(cfg, healthy, w0, done + {c} - (if ok then bad else bad + {c}), change) ==
            Tally(cfg, healthy, w0, done - bad, change)
            + if ok && CellChange(cfg, healthy, w0, c) == change then 1 else 0
  {
    hide CellChange, Tally;
    if ok {
      assert done + {c} - bad == (done - bad) + {c};
      TallyAdds(cfg, healthy, w0, done - bad, c, change);
    } else {
      assert done + {c} - (bad + {c}) == done - bad;
    }
  }

  lemma MirrorCounts(e: Engine, healthy: set<string>, w0: World, b: Books, done: set<Cell>, dst: string, k: Key,
                     r: Result<Outcome, Err>, now: Index)
    requires dst in w0 && (dst, k) !in done && Counted(e, healthy, w0, b, done)
    requires r.Ok? ==> CellChange(e.cfg, healthy, w0, (dst, k)) == ChangeFor(r.value)
    ensures Counted(e, healthy, w0, Booked(b, dst, k, r, now), done + {(dst, k)})
  {
    hide CellChange, Tally;
    var bad := BadCells(b.errs);
    BookedMeans(b, dst, k, r, now);
    OneMoreCell(e.cfg, healthy, w0, done, bad, (dst, k), r.Ok?, Addition);
    OneMoreCell(e.cfg, healthy, w0, done, bad, (dst, k), r.Ok?, Rewrite);
    OneMoreCell(e.cfg, healthy, w0, done, bad, (dst, k), r.Ok?, Removal);
    hide BadCells;
  }

  /** Nothing is left to do, and every block in the window is indexed. */
  ghost predicate Steady(e: Engine, healthy: set<string>, w0: World, index: map<string, Index>) {
    && AtGoal(e.cfg, healthy, w0)
    && forall d :: d in healthy && d in w0 ==> d in index && Covers(index[d], w0[d], e.cfg.win)
  }

  lemma SteadyNeedsNothing(e: Engine, healthy: seq<Account>, w0: World, listing: map<string, seq<GEvent>>, w: World,
                           b: Books, done: set<Cell>, src: Account, ev: GEvent, dst: string)
    requires Calm(e, healthy, w0, listing) && Tracking(e, Names(healthy), w0, w, b, done)
    requires SourceOf(e, healthy, w0, src, ev) && dst in Names(healthy) && dst != src.name
    requires dst in w0 && (dst, KeyOfSource(src, ev)) !in done
    requires Steady(e, Names(healthy), w0, b.index)
    ensures RequestFor(e.cfg.title, src, ev, dst, w[dst]).None?
    ensures dst in b.index && IndexKey(KeyOfSource(src, ev)) in b.index[dst]
  {
    CellFacts(e, healthy, w0, listing, w, b, done, src, ev, dst);
    WantedIsGoal(e.cfg, Names(healthy), w0, src, ev, dst);
    MirroredIsInWindow(e.cfg, Names(healthy), w0, dst, KeyOfSource(src, ev));
  }

  /** The hypotheses under which phase 2 is exact, gathered. */
  ghost predicate Exact(e: Engine, quiet: bool, healthy: seq<Account>, w0: World, listing: map<string, seq<GEvent>>,
                        w: World, b: Books, done: set<Cell>)
  {
    quiet && Calm(e, healthy, w0, listing) && Tracking(e, Names(healthy), w0, w, b, done)
  }

  lemma AskedMore(before: seq<Request>, asked: seq<Request>, more: seq<Request>)
    ensures before + asked + more == before + (asked + more)
  {
  }

  /** What carries out the request on the calendar as it is does so on the
      calendar as fetched, the cell not having been dealt with. */
  lemma FollowsAsFetched(e: Engine, healthy: seq<Account>, w0: World, listing: map<string, seq<GEvent>>, w: World,
                         b: Books, done: set<Cell>, src: Account, ev: GEvent, dst: string, asked: Option<Request>,
                         log0: seq<Applied>, log1: seq<Applied>)
    requires Calm(e, healthy, w0, listing) && Tracking(e, Names(healthy), w0, w, b, done)
    requires dst in w0 && dst in w && (dst, KeyOfSource(src, ev)) !in done
    requires asked.None? || asked == RequestFor(e.cfg.title, src, ev, dst, w[dst])
    requires LogFollows(w, log0, log1, AsSeq(asked))
    ensures LogFollows(w0, log0, log1, AsSeq(asked))
  {
    hide *;
    BlocksSame(e, Names(healthy), w0, w, b, done, dst, KeyOfSource(src, ev));
    CalmMeansWell(e, healthy, w0, listing, dst);
    TrackingMeans(e, Names(healthy), w0, w, b, done);
    TrackedIsUnique(e, Names(healthy), w0, w, done, BadCells(b.errs), dst);
    FollowsOnSame(e.cfg.title, src, ev, dst, w, w0, asked, log0, log1);
  }

  lemma TrackedIsUnique(e: Engine, healthy: set<string>, w0: World, w: World, done: set<Cell>, bad: set<Cell>,
                        dst: string)
    requires WorldTracked(e, healthy, w0, w, done, bad) && dst in w
    ensures Unique(w[dst])
  {
  }

  lemma FollowsOnSame(title: string, src: Account, ev: GEvent, dst: string, w: World, w0: World,
                      asked: Option<Request>, log0: seq<Applied>, log1: seq<Applied>)
    requires dst in w0 && dst in w && Unique(w[dst])
    requires BlockAt(w[dst], KeyOfSource(src, ev)) == BlockAt(w0[dst], KeyOfSource(src, ev))
    requires forall id :: id in w0[dst] ==> w0[dst][id].id == id
    requires asked.None? || asked == RequestFor(title, src, ev, dst, w[dst])
    requires LogFollows(w, log0, log1, AsSeq(asked))
    ensures LogFollows(w0, log0, log1, AsSeq(asked))
  {
    hide View, UpdatePayload, Unique;
    if asked.Some? {
      var x, k := log1[|log0|], KeyOfSource(src, ev);
      assert Fulfils(w, x, AsSeq(asked)[0]);
      if asked.value.Update? {
        SameBlock(title, ev, w[dst], w0[dst], k, asked.value.id, asked.value.block, BlockAt(w[dst], k).value);
      }
      assert Fulfils(w0, x, AsSeq(asked)[0]);
    }
  }

  lemma SameBlock(title: string, ev: GEvent, cal: Calendar, cal0: Calendar, k: Key, id: string, payload: GEvent,
                  block: GEvent)
    requires Unique(cal) && BlockAt(cal, k) == Some(block) && BlockAt(cal0, k) == Some(block)
    requires payload == UpdatePayload(title, View(block), ev) && id == block.id
    requires forall j :: j in cal0 ==> cal0[j].id == j
    ensures KeyOf(payload) == Some(k) && id in cal0 && cal0[id] == block
    ensures id in cal && KeyOf(cal[id]) == Some(k) ==> cal[id] == block
  {
    ViewPreserves(block);
    var j :| Holds(cal0, j, k) && cal0[j] == block;
    if Holds(cal, id, k) {
      BlockIs(cal, id, k);
    }
  }

  /** The body of the innermost loop. */
  method MirrorTo(e: Engine, s: Server, src: Account, ev: GEvent, dst: Account, b: Books,
                  ghost healthy: seq<Account>, ghost w0: World, ghost listing: map<string, seq<GEvent>>,
                  ghost done: set<Cell>)
    returns (b1: Books, ghost asked: seq<Request>)
    requires s.Valid() && dst.name in s.cals && dst.name in b.index && IndexSane(b.index[dst.name])
    modifies s, s.journal`calls
    ensures s.Valid() && s.cals.Keys == old(s.cals.Keys)
    ensures IndexGrew(b, b1)
    ensures SafeSince(old(s.log), s.log, MirrorIntents(e.cfg.title, src, ev, dst.name))
    ensures s.faults >= old(s.faults)
    ensures WritesIn(s.journal.calls) == WritesIn(old(s.journal.calls)) + asked
    ensures Accountable(old(s.journal.calls), s.journal.calls, b.errs, b1.errs)
    ensures e.dry ==> s.log == old(s.log) && s.writes == old(s.writes) && asked == []
    ensures s.tame && UniqueWorld(old(s.cals)) ==> UniqueWorld(s.cals)
    ensures (Exact(e, s.quiet, healthy, w0, listing, old(s.cals), b, done) && SourceOf(e, healthy, w0, src, ev)
             && dst in healthy && dst.name != src.name && (dst.name, KeyOfSource(src, ev)) !in done) ==>
      && Exact(e, s.quiet, healthy, w0, listing, s.cals, b1, done + {(dst.name, KeyOfSource(src, ev))})
      && AsPlanned(e.dry, b, b1, asked, AsSeq(RequestFor(e.cfg.title, src, ev, dst.name, w0[dst.name])))
      && (s.faults == old(s.faults) ==> Flawless(w0, b, b1, old(s.log), s.log, asked))
      && (Steady(e, Names(healthy), w0, b.index) ==> unchanged(s) && unchanged(s.journal`calls) && asked == [])
  {
    hide *;
    var k := KeyOfSource(src, ev);
    ghost var exact := Exact(e, s.quiet, healthy, w0, listing, s.cals, b, done) && SourceOf(e, healthy, w0, src, ev)
                       && dst in healthy && dst.name != src.name && (dst.name, k) !in done;
    if exact {
      ExactIsCalm(e, s.quiet, healthy, w0, listing, s.cals, b, done);
      DestinationOk(e, healthy, w0, listing, s.cals, b, done, dst);
      SourceIsNice(e, healthy, w0, listing, s.cals, b, done, src, ev, dst.name);
      if Steady(e, Names(healthy), w0, b.index) {
        SteadyNeedsNothing(e, healthy, w0, listing, s.cals, b, done, src, ev, dst.name);
      }
    }
    ghost var request;
    var r, now;
    AskedNothing(WritesIn(s.journal.calls));
    r, now, request := EnsureBlock(e, s, src, ev, dst, b.index[dst.name], DoneOn(done, dst.name));
    b1 := Booked(b, dst.name, k, r, now);
    asked := AsSeq(request);
    OneAccountable(old(s.journal.calls), s.journal.calls, b, dst.name, k, r, now);
    BookedMeans(b, dst.name, k, r, now);
    OneIndexGrew(b, b1, dst.name, now);
    if exact {
      if s.faults == old(s.faults) {
        MirroredMeans(e.dry, e.cfg.title, src, ev, dst.name, old(s.cals), s.cals, r, request);
        FollowsAsFetched(e, healthy, w0, listing, old(s.cals), b, done, src, ev, dst.name, request, old(s.log), s.log);
        FlawlessMeans(w0, b, b1, old(s.log), s.log, asked);
      }
      MirrorStep(e, healthy, w0, listing, old(s.cals), s.cals, b, done, src, ev, dst.name, r, now, request);
      StillExact(e, s.quiet, healthy, w0, listing, s.cals, b1, done + {(dst.name, k)});
    }
  }

  lemma ExactIsCalm(e: Engine, quiet: bool, healthy: seq<Account>, w0: World, listing: map<string, seq<GEvent>>,
                    w: World, b: Books, done: set<Cell>)
    requires Exact(e, quiet, healthy, w0, listing, w, b, done)
    ensures quiet && Calm(e, healthy, w0, listing) && Tracking(e, Names(healthy), w0, w, b, done)
  {
  }

  lemma StillExact(e: Engine, quiet: bool, healthy: seq<Account>, w0: World, listing: map<string, seq<GEvent>>,
                   w: World, b: Books, done: set<Cell>)
    requires quiet && Calm(e, healthy, w0, listing) && Tracking(e, Names(healthy), w0, w, b, done)
    ensures Exact(e, quiet, healthy, w0, listing, w, b, done)
  {
  }

  lemma DestinationOk(e: Engine, healthy: seq<Account>, w0: World, listing: map<string, seq<GEvent>>, w: World,
                      b: Books,
                      done: set<Cell>, dst: Account)
    requires Calm(e, healthy, w0, listing) && Tracking(e, Names(healthy), w0, w, b, done) && dst in healthy
    ensures dst.name in Names(healthy) && dst.name in w0 && dst.name in w && UniqueWorld(w)
  {
  }

  lemma OneIndexGrew(b: Books, b1: Books, d: string, now: Index)
    requires d in b.index && b1.index == b.index[d := now] && b.index[d].Keys <= now.Keys && IndexSane(now)
    ensures IndexGrew(b, b1)
  {
  }

  ghost predicate Reachable(dsts: seq<Account>, w: World, b: Books) {
    forall a :: a in dsts ==> a.name in w && a.name in b.index && IndexSane(b.index[a.name])
  }

  ghost predicate IndexGrew(before: Books, after: Books) {
    && after.index.Keys == before.index.Keys
    && forall d :: d in before.index ==>
         && before.index[d].Keys <= after.index[d].Keys
         && (IndexSane(before.index[d]) ==> IndexSane(after.index[d]))
  }

  lemma SteadyStays(e: Engine, healthy: set<string>, w0: World, before: Books, after: Books)
    requires Steady(e, healthy, w0, before.index) && IndexGrew(before, after)
    ensures Steady(e, healthy, w0, after.index)
  {
    forall d | d in healthy && d in w0
      ensures d in after.index && Covers(after.index[d], w0[d], e.cfg.win)
    {
      assert Covers(before.index[d], w0[d], e.cfg.win);
      assert forall x :: x in before.index[d].Keys ==> x in after.index[d].Keys;
    }
  }

  /** The cells of one source event. */
  ghost function EventCells(src: Account, ev: GEvent, dsts: seq<Account>): set<Cell> {
    set a | a in dsts && a.name != src.name :: (a.name, KeyOfSource(src, ev))
  }

  lemma EventCellsNext(src: Account, ev: GEvent, dsts: seq<Account>, i: nat, done: set<Cell>)
    requires i < |dsts|
    ensures var cells, next := done + EventCells(src, ev, dsts[..i]), done + EventCells(src, ev, dsts[..i + 1]);
      if dsts[i].name == src.name then next == cells else next == cells + {(dsts[i].name, KeyOfSource(src, ev))}
  {
    assert dsts[..i + 1] == dsts[..i] + [dsts[i]];
    var next := EventCells(src, ev, dsts[..i + 1]);
    assert next == EventCells(src, ev, dsts[..i]) +
                   if dsts[i].name == src.name then {} else {(dsts[i].name, KeyOfSource(src, ev))};
  }

  lemma ReachableAt(dsts: seq<Account>, w: World, b: Books, i: nat)
    requires Reachable(dsts, w, b) && i < |dsts|
    ensures dsts[i] in dsts && dsts[i].name in w && dsts[i].name in b.index && IndexSane(b.index[dsts[i].name])
  {
  }

  lemma StillReachable(dsts: seq<Account>, w: World, w1: World, b: Books, b1: Books)
    requires Reachable(dsts, w, b) && w1.Keys == w.Keys && IndexGrew(b, b1)
    ensures Reachable(dsts, w1, b1)
  {
  }

  lemma NameIn(dsts: seq<Account>, i: nat)
    requires i < |dsts|
    ensures dsts[i].name in Names(dsts) && {dsts[i].name} <= Names(dsts)
  {
  }

  lemma EventCellsFresh(src: Account, ev: GEvent, dsts: seq<Account>, i: nat)
    requires i < |dsts| && forall i, j :: 0 <= i < j < |dsts| ==> dsts[i].name != dsts[j].name
    ensures forall k :: (dsts[i].name, k) !in EventCells(src, ev, dsts[..i])
  {
  }

  lemma PlanEventNext(title: string, src: Account, ev: GEvent, dsts: seq<Account>, i: nat, w: World)
    requires i < |dsts|
    ensures var plan, next := PlanEvent(title, src, ev, dsts[..i], w), PlanEvent(title, src, ev, dsts[..i + 1], w);
      if dsts[i].name == src.name then next == plan
      else dsts[i].name in w ==> next == plan + AsSeq(RequestFor(title, src, ev, dsts[i].name, w[dsts[i].name]))
  {
    assert dsts[..i + 1][..i] == dsts[..i];
  }

  lemma PlannedThen(dry: bool, b0: Books, b1: Books, b2: Books, a1: seq<Request>, a2: seq<Request>,
                    p1: seq<Request>, p2: seq<Request>)
    requires AsPlanned(dry, b0, b1, a1, p1) && AsPlanned(dry, b1, b2, a2, p2)
    ensures AsPlanned(dry, b0, b2, a1 + a2, p1 + p2)
  {
    if !dry {
      SubsequenceConcat(a1, p1, a2, p2);
    }
  }

  /** No error, and the log grew by exactly the requests. */
  ghost predicate Flawless(w0: World, before: Books, after: Books, log0: seq<Applied>, log1: seq<Applied>,
                           asked: seq<Request>)
  {
    after.errs == before.errs && LogFollows(w0, log0, log1, asked)
  }

  lemma FlawlessNothing(w0: World, b: Books, log: seq<Applied>)
    ensures Flawless(w0, b, b, log, log, [])
  {
  }

  lemma FlawlessThen(w0: World, b0: Books, b1: Books, b2: Books, l0: seq<Applied>, l1: seq<Applied>, l2: seq<Applied>,
                     a1: seq<Request>, a2: seq<Request>)
    requires Flawless(w0, b0, b1, l0, l1, a1) && Flawless(w0, b1, b2, l1, l2, a2)
    ensures Flawless(w0, b0, b2, l0, l2, a1 + a2)
  {
    FollowsThen(w0, l0, l1, l2, a1, a2);
  }

  lemma FlawlessMeans(w0: World, b0: Books, b1: Books, log0: seq<Applied>, log1: seq<Applied>, asked: seq<Request>)
    ensures Flawless(w0, b0, b1, log0, log1, asked) <==> b1.errs == b0.errs && LogFollows(w0, log0, log1, asked)
  {
  }

  lemma IndexGrewThen(b0: Books, b1: Books, b2: Books)
    requires IndexGrew(b0, b1) && IndexGrew(b1, b2)
    ensures IndexGrew(b0, b2)
  {
  }

  lemma EventBegins(e: Engine, quiet: bool, w: World, log: seq<Applied>, src: Account, ev: GEvent, dsts: seq<Account>,
                    b: Books, w0: World, listing: map<string, seq<GEvent>>, done: set<Cell>)
    ensures IndexGrew(b, b)
    ensures AsPlanned(e.dry, b, b, [], PlanEvent(e.cfg.title, src, ev, dsts[..0], w0))
    ensures done + EventCells(src, ev, dsts[..0]) == done
    ensures Exact(e, quiet, dsts, w0, listing, w, b, done) ==>
      && (forall i, j :: 0 <= i < j < |dsts| ==> dsts[i].name != dsts[j].name)
      && (forall a :: a in dsts ==> a.name in w0)
  {
  }

  /** Whatever is meant for mirroring these events is among `allowed`. */
  ghost predicate Covered(title: string, src: Account, evs: seq<GEvent>, dsts: seq<Account>, allowed: iset<Intent>) {
    forall ev, dst :: ev in evs && dst in dsts && dst.name != src.name ==>
      MirrorIntents(title, src, ev, dst.name) <= allowed
  }

  lemma CoversOne(title: string, src: Account, evs: seq<GEvent>, dsts: seq<Account>, allowed: iset<Intent>, i: nat)
    requires Covered(title, src, evs, dsts, allowed) && i < |evs|
    ensures Covered(title, src, [evs[i]], dsts, allowed)
  {
    assert evs[i] in evs;
  }

  lemma CoversDestination(title: string, src: Account, ev: GEvent, dsts: seq<Account>, allowed: iset<Intent>, i: nat)
    requires Covered(title, src, [ev], dsts, allowed) && i < |dsts| && dsts[i].name != src.name
    ensures MirrorIntents(title, src, ev, dsts[i].name) <= allowed
  {
    assert ev in [ev] && dsts[i] in dsts;
  }

  /** One source event on every destination but its own. */
  method MirrorEvent(e: Engine, s: Server, src: Account, ev: GEvent, dsts: seq<Account>, b: Books,
                     ghost w0: World, ghost listing: map<string, seq<GEvent>>, ghost done: set<Cell>,
                     ghost allowed: iset<Intent>)
    returns (b1: Books, ghost asked: seq<Request>)
    requires s.Valid() && Reachable(dsts, s.cals, b) && Covered(e.cfg.title, src, [ev], dsts, allowed)
    modifies s, s.journal`calls
    ensures s.Valid() && s.cals.Keys == old(s.cals.Keys) && IndexGrew(b, b1)
    ensures SafeSince(old(s.log), s.log, allowed)
    ensures s.faults >= old(s.faults)
    ensures WritesIn(s.journal.calls) == WritesIn(old(s.journal.calls)) + asked
    ensures Accountable(old(s.journal.calls), s.journal.calls, b.errs, b1.errs)
    ensures e.dry ==> s.log == old(s.log) && s.writes == old(s.writes) && asked == []
    ensures s.tame && UniqueWorld(old(s.cals)) ==> UniqueWorld(s.cals)
    ensures (Exact(e, s.quiet, dsts, w0, listing, old(s.cals), b, done) && SourceOf(e, dsts, w0, src, ev)
             && forall d :: (d, KeyOfSource(src, ev)) !in done) ==>
      && Exact(e, s.quiet, dsts, w0, listing, s.cals, b1, done + EventCells(src, ev, dsts))
      && AsPlanned(e.dry, b, b1, asked, PlanEvent(e.cfg.title, src, ev, dsts, w0))
      && (s.faults == old(s.faults) ==> Flawless(w0, b, b1, old(s.log), s.log, asked))
      && (Steady(e, Names(dsts), w0, b.index) ==> unchanged(s) && unchanged(s.journal`calls) && asked == [])
  {
    hide *;
    ghost var exact := Exact(e, s.quiet, dsts, w0, listing, s.cals, b, done) && SourceOf(e, dsts, w0, src, ev)
                       && forall d :: (d, KeyOfSource(src, ev)) !in done;
    ghost var steady := Steady(e, Names(dsts), w0, b.index);
    b1, asked := b, [];
    SafeNothing(s.log, allowed);
    FlawlessNothing(w0, b, s.log);
    AccountableNothing(s.journal.calls, b.errs);
    EventBegins(e, s.quiet, s.cals, s.log, src, ev, dsts, b, w0, listing, done);
    for i := 0 to |dsts|
      invariant s.Valid() && s.cals.Keys == old(s.cals.Keys) && IndexGrew(b, b1) && Reachable(dsts, s.cals, b1)
      invariant SafeSince(old(s.log), s.log, allowed)
      invariant s.faults >= old(s.faults) && WritesIn(s.journal.calls) == WritesIn(old(s.journal.calls)) + asked
      invariant Accountable(old(s.journal.calls), s.journal.calls, b.errs, b1.errs)
      invariant exact && s.faults == old(s.faults) ==> Flawless(w0, b, b1, old(s.log), s.log, asked)
      invariant e.dry ==> s.log == old(s.log) && s.writes == old(s.writes) && asked == []
      invariant s.tame && UniqueWorld(old(s.cals)) ==> UniqueWorld(s.cals)
      invariant exact ==> Exact(e, s.quiet, dsts, w0, listing, s.cals, b1, done + EventCells(src, ev, dsts[..i]))
      invariant exact ==> AsPlanned(e.dry, b, b1, asked, PlanEvent(e.cfg.title, src, ev, dsts[..i], w0))
      invariant exact && steady ==> unchanged(s) && unchanged(s.journal`calls) && asked == []
    {
      EventCellsNext(src, ev, dsts, i, done);
      PlanEventNext(e.cfg.title, src, ev, dsts, i, w0);
      ghost var cells := done + EventCells(src, ev, dsts[..i]);
      ReachableAt(dsts, s.cals, b1, i);
      if dsts[i].name == src.name {
        continue;
      }
      if exact {
        EventCellsFresh(src, ev, dsts, i);
        NameIn(dsts, i);
      }
      if steady {
        SteadyStays(e, Names(dsts), w0, b, b1);
      }
      ghost var logged, w, before, more, called := s.log, s.cals, b1, [], s.journal.calls;
      b1, more := MirrorTo(e, s, src, ev, dsts[i], b1, dsts, w0, listing, cells);
      NameIn(dsts, i);
      CoversDestination(e.cfg.title, src, ev, dsts, allowed, i);
      SafeCompose(old(s.log), logged, s.log, MirrorIntents(e.cfg.title, src, ev, dsts[i].name), allowed);
      IndexGrewThen(b, before, b1);
      StillReachable(dsts, w, s.cals, before, b1);
      if exact {
        PlannedThen(e.dry, b, before, b1, asked, more, PlanEvent(e.cfg.title, src, ev, dsts[..i], w0),
                    AsSeq(RequestFor(e.cfg.title, src, ev, dsts[i].name, w0[dsts[i].name])));
      }
      if exact && s.faults == old(s.faults) {
        FlawlessThen(w0, b, before, b1, old(s.log), logged, s.log, asked, more);
      }
      AskedMore(WritesIn(old(s.journal.calls)), asked, more);
      AccountableThen(old(s.journal.calls), called, s.journal.calls, b.errs, before.errs, b1.errs);
      asked := asked + more;
    }
    assert dsts[..|dsts|] == dsts;
  }

  /** The cells of the events of one source. */
  ghost function FromCells(src: Account, evs: seq<GEvent>, dsts: seq<Account>): set<Cell> {
    set ev, a | ev in evs && a in dsts && a.name != src.name :: (a.name, KeyOfSource(src, ev))
  }

  lemma FromCellsNext(src: Account, evs: seq<GEvent>, dsts: seq<Account>, i: nat, done: set<Cell>)
    requires i < |evs|
    ensures done + FromCells(src, evs[..i + 1], dsts) ==
            done + FromCells(src, evs[..i], dsts) + EventCells(src, evs[i], dsts)
  {
    assert evs[..i + 1] == evs[..i] + [evs[i]];
    forall c
      ensures c in FromCells(src, evs[..i + 1], dsts) <==>
              c in FromCells(src, evs[..i], dsts) + EventCells(src, evs[i], dsts)
    {
    }
  }

  lemma FromCellsFresh(src: Account, evs: seq<GEvent>, dsts: seq<Account>, i: nat, done: set<Cell>)
    requires i < |evs| && DistinctIds(evs)
    requires forall d, id :: (d, Key(src.name, id)) !in done
    ensures forall d :: (d, KeyOfSource(src, evs[i])) !in done + FromCells(src, evs[..i], dsts)
  {
  }

  lemma PlanFromNext(title: string, src: Account, evs: seq<GEvent>, dsts: seq<Account>, i: nat, w: World)
    requires i < |evs|
    ensures PlanFrom(title, src, evs[..i + 1], dsts, w) ==
            PlanFrom(title, src, evs[..i], dsts, w) + PlanEvent(title, src, evs[i], dsts, w)
  {
    assert evs[..i + 1][..i] == evs[..i];
  }

  lemma FromBegins(e: Engine, w: World, log: seq<Applied>, src: Account, evs: seq<GEvent>, dsts: seq<Account>,
                   b: Books, w0: World, done: set<Cell>)
    ensures IndexGrew(b, b)
    ensures AsPlanned(e.dry, b, b, [], PlanFrom(e.cfg.title, src, evs[..0], dsts, w0))
    ensures done + FromCells(src, evs[..0], dsts) == done
  {
    assert FromCells(src, evs[..0], dsts) == {};
  }

  /** The events are distinct real ones of the source, none of them dealt with. */
  ghost predicate FromSource(e: Engine, dsts: seq<Account>, w0: World, src: Account, evs: seq<GEvent>,
                             done: set<Cell>)
  {
    && DistinctIds(evs)
    && (forall ev :: ev in evs ==> SourceOf(e, dsts, w0, src, ev))
    && forall d, id :: (d, Key(src.name, id)) !in done
  }

  lemma NextOfSource(e: Engine, dsts: seq<Account>, w0: World, src: Account, evs: seq<GEvent>, done: set<Cell>, i: nat)
    requires FromSource(e, dsts, w0, src, evs, done) && i < |evs|
    ensures SourceOf(e, dsts, w0, src, evs[i])
    ensures forall d :: (d, KeyOfSource(src, evs[i])) !in done + FromCells(src, evs[..i], dsts)
  {
    hide SourceOf;
    assert evs[i] in evs;
    FromCellsFresh(src, evs, dsts, i, done);
  }

  /** Every real event of one source. */
  method MirrorFrom(e: Engine, s: Server, src: Account, evs: seq<GEvent>, dsts: seq<Account>, b: Books,
                    ghost w0: World, ghost listing: map<string, seq<GEvent>>, ghost done: set<Cell>,
                    ghost allowed: iset<Intent>)
    returns (b1: Books, ghost asked: seq<Request>)
    requires s.Valid() && Reachable(dsts, s.cals, b) && Covered(e.cfg.title, src, evs, dsts, allowed)
    modifies s, s.journal`calls
    ensures s.Valid() && s.cals.Keys == old(s.cals.Keys) && IndexGrew(b, b1)
    ensures SafeSince(old(s.log), s.log, allowed)
    ensures s.faults >= old(s.faults)
    ensures WritesIn(s.journal.calls) == WritesIn(old(s.journal.calls)) + asked
    ensures Accountable(old(s.journal.calls), s.journal.calls, b.errs, b1.errs)
    ensures e.dry ==> s.log == old(s.log) && s.writes == old(s.writes) && asked == []
    ensures s.tame && UniqueWorld(old(s.cals)) ==> UniqueWorld(s.cals)
    ensures (Exact(e, s.quiet, dsts, w0, listing, old(s.cals), b, done) && FromSource(e, dsts, w0, src, evs, done)) ==>
      && Exact(e, s.quiet, dsts, w0, listing, s.cals, b1, done + FromCells(src, evs, dsts))
      && AsPlanned(e.dry, b, b1, asked, PlanFrom(e.cfg.title, src, evs, dsts, w0))
      && (s.faults == old(s.faults) ==> Flawless(w0, b, b1, old(s.log), s.log, asked))
      && (Steady(e, Names(dsts), w0, b.index) ==> unchanged(s) && unchanged(s.journal`calls) && asked == [])
  {
    hide *;
    ghost var exact := Exact(e, s.quiet, dsts, w0, listing, s.cals, b, done) && FromSource(e, dsts, w0, src, evs, done);
    ghost var steady := Steady(e, Names(dsts), w0, b.index);
    b1, asked := b, [];
    SafeNothing(s.log, allowed);
    FlawlessNothing(w0, b, s.log);
    AccountableNothing(s.journal.calls, b.errs);
    FromBegins(e, s.cals, s.log, src, evs, dsts, b, w0, done);
    for i := 0 to |evs|
      invariant s.Valid() && s.cals.Keys == old(s.cals.Keys) && IndexGrew(b, b1) && Reachable(dsts, s.cals, b1)
      invariant SafeSince(old(s.log), s.log, allowed)
      invariant s.faults >= old(s.faults) && WritesIn(s.journal.calls) == WritesIn(old(s.journal.calls)) + asked
      invariant Accountable(old(s.journal.calls), s.journal.calls, b.errs, b1.errs)
      invariant exact && s.faults == old(s.faults) ==> Flawless(w0, b, b1, old(s.log), s.log, asked)
      invariant e.dry ==> s.log == old(s.log) && s.writes == old(s.writes) && asked == []
      invariant s.tame && UniqueWorld(old(s.cals)) ==> UniqueWorld(s.cals)
      invariant exact ==> Exact(e, s.quiet, dsts, w0, listing, s.cals, b1, done + FromCells(src, evs[..i], dsts))
      invariant exact ==> AsPlanned(e.dry, b, b1, asked, PlanFrom(e.cfg.title, src, evs[..i], dsts, w0))
      invariant exact && steady ==> unchanged(s) && unchanged(s.journal`calls) && asked == []
    {
      ghost var cells := done + FromCells(src, evs[..i], dsts);
      FromCellsNext(src, evs, dsts, i, done);
      PlanFromNext(e.cfg.title, src, evs, dsts, i, w0);
      if exact {
        NextOfSource(e, dsts, w0, src, evs, done, i);
      }
      if steady {
        SteadyStays(e, Names(dsts), w0, b, b1);
      }
      ghost var logged, w, before, more, called := s.log, s.cals, b1, [], s.journal.calls;
      CoversOne(e.cfg.title, src, evs, dsts, allowed, i);
      b1, more := MirrorEvent(e, s, src, evs[i], dsts, b1, w0, listing, cells, allowed);
      SafeCompose(old(s.log), logged, s.log, allowed, allowed);
      IndexGrewThen(b, before, b1);
      StillReachable(dsts, w, s.cals, before, b1);
      if exact {
        PlannedThen(e.dry, b, before, b1, asked, more, PlanFrom(e.cfg.title, src, evs[..i], dsts, w0),
                    PlanEvent(e.cfg.title, src, evs[i], dsts, w0));
      }
      if exact && s.faults == old(s.faults) {
        FlawlessThen(w0, b, before, b1, old(s.log), logged, s.log, asked, more);
      }
      AskedMore(WritesIn(old(s.journal.calls)), asked, more);
      AccountableThen(old(s.journal.calls), called, s.journal.calls, b.errs, before.errs, b1.errs);
      asked := asked + more;
    }
    assert evs[..|evs|] == evs;
  }

  /** The classes of every fetched account's listing. */
  ghost predicate Classified(healthy: seq<Account>, listing: map<string, seq<GEvent>>, reals: map<string,
                             seq<GEvent>>) {
    forall a :: a in healthy ==> a.name in listing && a.name in reals && reals[a.name] == RealOf(listing[a.name])
  }

  /** The cells of the sources taken so far. */
  ghost function AllCells(srcs: seq<Account>, reals: map<string, seq<GEvent>>, dsts: seq<Account>): set<Cell> {
    set src, ev, a | src in srcs && src.name in reals && ev in reals[src.name] && a in dsts && a.name != src.name
      :: (a.name, KeyOfSource(src, ev))
  }

  lemma AllCellsNext(srcs: seq<Account>, reals: map<string, seq<GEvent>>, dsts: seq<Account>, i: nat)
    requires i < |srcs| && srcs[i].name in reals
    ensures AllCells(srcs[..i + 1], reals, dsts) ==
            AllCells(srcs[..i], reals, dsts) + FromCells(srcs[i], reals[srcs[i].name], dsts)
  {
    assert srcs[..i + 1] == srcs[..i] + [srcs[i]];
    forall c
      ensures c in AllCells(srcs[..i + 1], reals, dsts) <==>
              c in AllCells(srcs[..i], reals, dsts) + FromCells(srcs[i], reals[srcs[i].name], dsts)
    {
    }
  }

  /** Sources taken so far share no key with the next one. */
  lemma AllCellsFresh(e: Engine, healthy: seq<Account>, w0: World, listing: map<string, seq<GEvent>>,
                      reals: map<string, seq<GEvent>>, i: nat)
    requires Calm(e, healthy, w0, listing) && i < |healthy|
    ensures forall d, id :: (d, Key(healthy[i].name, id)) !in AllCells(healthy[..i], reals, healthy)
  {
  }

  lemma SourcesAreReal(e: Engine, healthy: seq<Account>, w0: World, listing: map<string, seq<GEvent>>,
                       reals: map<string, seq<GEvent>>, i: nat)
    requires Calm(e, healthy, w0, listing) && Classified(healthy, listing, reals) && i < |healthy|
    ensures DistinctIds(reals[healthy[i].name])
    ensures forall ev :: ev in reals[healthy[i].name] ==> SourceOf(e, healthy, w0, healthy[i], ev)
  {
    var src := healthy[i];
    assert src in healthy;
    var evs := listing[src.name];
    ClassesStayDistinct(evs);
    ClassesAreFilters(evs);
    forall ev | ev in reals[src.name]
      ensures SourceOf(e, healthy, w0, src, ev)
    {
      var j :| 0 <= j < |evs| && evs[j] == ev;
      ViewPreserves(w0[src.name][ev.id]);
    }
  }

  lemma PlanMirrorsNext(title: string, srcs: seq<Account>, reals: map<string, seq<GEvent>>, dsts: seq<Account>,
                        i: nat, w: World)
    requires i < |srcs| && srcs[i].name in reals
    ensures PlanMirrors(title, srcs[..i + 1], reals, dsts, w) ==
            PlanMirrors(title, srcs[..i], reals, dsts, w) + PlanFrom(title, srcs[i], reals[srcs[i].name], dsts, w)
  {
    assert srcs[..i + 1][..i] == srcs[..i];
  }

  lemma AllBegins(e: Engine, log: seq<Applied>, healthy: seq<Account>, reals: map<string, seq<GEvent>>, b: Books,
                  w0: World)
    ensures IndexGrew(b, b)
    ensures AsPlanned(e.dry, b, b, [], PlanMirrors(e.cfg.title, healthy[..0], reals, healthy, w0))
    ensures AllCells(healthy[..0], reals, healthy) == {}
  {
  }

  lemma AllIntentsCover(title: string, srcs: seq<Account>, reals: map<string, seq<GEvent>>, dsts: seq<Account>, i: nat)
    requires i < |srcs| && srcs[i].name in reals
    ensures Covered(title, srcs[i], reals[srcs[i].name], dsts, AllIntents(title, srcs, reals, dsts))
  {
    forall ev, dst, x | ev in reals[srcs[i].name] && dst in dsts && dst.name != srcs[i].name
                        && MirrorIntent(x, title, srcs[i], ev, dst.name)
      ensures x in AllIntents(title, srcs, reals, dsts)
    {
      assert srcs[i] in srcs;
      assert Mirrors(x, title, srcs, reals, dsts);
    }
  }

  lemma NextSource(e: Engine, healthy: seq<Account>, w0: World, listing: map<string, seq<GEvent>>,
                   reals: map<string, seq<GEvent>>, i: nat)
    requires Calm(e, healthy, w0, listing) && Classified(healthy, listing, reals) && i < |healthy|
    ensures healthy[i].name in reals
    ensures FromSource(e, healthy, w0, healthy[i], reals[healthy[i].name], AllCells(healthy[..i], reals, healthy))
  {
    AllCellsFresh(e, healthy, w0, listing, reals, i);
    SourcesAreReal(e, healthy, w0, listing, reals, i);
  }

  /** Phase 2: every real event of every source. */
  method MirrorAll(e: Engine, s: Server, healthy: seq<Account>, reals: map<string, seq<GEvent>>, b: Books,
                   ghost w0: World, ghost listing: map<string, seq<GEvent>>)
    returns (b1: Books, ghost asked: seq<Request>)
    requires s.Valid() && Reachable(healthy, s.cals, b) && forall a :: a in healthy ==> a.name in reals
    modifies s, s.journal`calls
    ensures s.Valid() && s.cals.Keys == old(s.cals.Keys) && IndexGrew(b, b1)
    ensures SafeSince(old(s.log), s.log, AllIntents(e.cfg.title, healthy, reals, healthy))
    ensures s.faults >= old(s.faults)
    ensures WritesIn(s.journal.calls) == WritesIn(old(s.journal.calls)) + asked
    ensures Accountable(old(s.journal.calls), s.journal.calls, b.errs, b1.errs)
    ensures e.dry ==> s.log == old(s.log) && s.writes == old(s.writes) && asked == []
    ensures s.tame && UniqueWorld(old(s.cals)) ==> UniqueWorld(s.cals)
    ensures Exact(e, s.quiet, healthy, w0, listing, old(s.cals), b, {}) && Classified(healthy, listing, reals) ==>
      && Exact(e, s.quiet, healthy, w0, listing, s.cals, b1, AllCells(healthy, reals, healthy))
      && AsPlanned(e.dry, b, b1, asked, PlanMirrors(e.cfg.title, healthy, reals, healthy, w0))
      && (s.faults == old(s.faults) ==> Flawless(w0, b, b1, old(s.log), s.log, asked))
      && (Steady(e, Names(healthy), w0, b.index) ==> unchanged(s) && unchanged(s.journal`calls) && asked == [])
  {
    hide *;
    ghost var exact := Exact(e, s.quiet, healthy, w0, listing, s.cals, b, {}) && Classified(healthy, listing, reals);
    ghost var steady := Steady(e, Names(healthy), w0, b.index);
    b1, asked := b, [];
    ghost var allowed := AllIntents(e.cfg.title, healthy, reals, healthy);
    SafeNothing(s.log, allowed);
    FlawlessNothing(w0, b, s.log);
    AccountableNothing(s.journal.calls, b.errs);
    AllBegins(e, s.log, healthy, reals, b, w0);
    if exact {
      ExactIsCalm(e, s.quiet, healthy, w0, listing, s.cals, b, {});
    }
    for i := 0 to |healthy|
      invariant s.Valid() && s.cals.Keys == old(s.cals.Keys) && IndexGrew(b, b1) && Reachable(healthy, s.cals, b1)
      invariant SafeSince(old(s.log), s.log, allowed)
      invariant s.faults >= old(s.faults) && WritesIn(s.journal.calls) == WritesIn(old(s.journal.calls)) + asked
      invariant Accountable(old(s.journal.calls), s.journal.calls, b.errs, b1.errs)
      invariant exact && s.faults == old(s.faults) ==> Flawless(w0, b, b1, old(s.log), s.log, asked)
      invariant e.dry ==> s.log == old(s.log) && s.writes == old(s.writes) && asked == []
      invariant s.tame && UniqueWorld(old(s.cals)) ==> UniqueWorld(s.cals)
      invariant exact ==> Exact(e, s.quiet, healthy, w0, listing, s.cals, b1, AllCells(healthy[..i], reals, healthy))
      invariant exact ==> AsPlanned(e.dry, b, b1, asked, PlanMirrors(e.cfg.title, healthy[..i], reals, healthy, w0))
      invariant exact && steady ==> unchanged(s) && unchanged(s.journal`calls) && asked == []
    {
      ghost var cells := AllCells(healthy[..i], reals, healthy);
      assert healthy[i] in healthy;
      AllCellsNext(healthy, reals, healthy, i);
      PlanMirrorsNext(e.cfg.title, healthy, reals, healthy, i, w0);
      if exact {
        NextSource(e, healthy, w0, listing, reals, i);
      }
      if steady {
        SteadyStays(e, Names(healthy), w0, b, b1);
      }
      ghost var logged, w, before, more, called := s.log, s.cals, b1, [], s.journal.calls;
      AllIntentsCover(e.cfg.title, healthy, reals, healthy, i);
      b1, more := MirrorFrom(e, s, healthy[i], reals[healthy[i].name], healthy, b1, w0, listing, cells, allowed);
      SafeCompose(old(s.log), logged, s.log, allowed, allowed);
      IndexGrewThen(b, before, b1);
      StillReachable(healthy, w, s.cals, before, b1);
      if exact {
        PlannedThen(e.dry, b, before, b1, asked, more, PlanMirrors(e.cfg.title, healthy[..i], reals, healthy, w0),
                    PlanFrom(e.cfg.title, healthy[i], reals[healthy[i].name], healthy, w0));
      }
      if exact && s.faults == old(s.faults) {
        FlawlessThen(w0, b, before, b1, old(s.log), logged, s.log, asked, more);
      }
      AskedMore(WritesIn(old(s.journal.calls)), asked, more);
      AccountableThen(old(s.journal.calls), called, s.journal.calls, b.errs, before.errs, b1.errs);
      asked := asked + more;
    }
    assert healthy[..|healthy|] == healthy;
  }

  lemma MirrorCellIsTaken(e: Engine, healthy: seq<Account>, w0: World, listing: map<string, seq<GEvent>>,
                          reals: map<string, seq<GEvent>>, dst: Account, src: Account, id: string)
    requires Calm(e, healthy, w0, listing) && Classified(healthy, listing, reals)
    requires dst in healthy && src in healthy && dst.name != src.name
    requires src.name in w0 && id in w0[src.name] && Real(e.cfg.win, w0[src.name][id])
    ensures (dst.name, Key(src.name, id)) in AllCells(healthy, reals, healthy)
  {
    var evs := listing[src.name];
    var i :| 0 <= i < |evs| && evs[i].id == id;
    ClassesAreFilters(evs);
    ViewPreserves(w0[src.name][id]);
    assert evs[i] in evs && evs[i] in reals[src.name];
    assert KeyOfSource(src, evs[i]) == Key(src.name, id);
  }

  lemma TakenIsMirrorCell(e: Engine, healthy: seq<Account>, w0: World, listing: map<string, seq<GEvent>>,
                          reals: map<string, seq<GEvent>>, dst: Account, src: Account, ev: GEvent)
    requires Calm(e, healthy, w0, listing) && Classified(healthy, listing, reals)
    requires dst in healthy && src in healthy && dst.name != src.name && src.name in reals && ev in reals[src.name]
    ensures (dst.name, KeyOfSource(src, ev)) in MirrorCells(e.cfg, Names(healthy), w0)
  {
    var i :| 0 <= i < |healthy| && healthy[i] == src;
    SourcesAreReal(e, healthy, w0, listing, reals, i);
  }

  /** Phase 2 deals with exactly its cells. */
  lemma AllCellsAreMirrorCells(e: Engine, healthy: seq<Account>, w0: World, listing: map<string, seq<GEvent>>,
                               reals: map<string, seq<GEvent>>)
    requires Calm(e, healthy, w0, listing) && Classified(healthy, listing, reals)
    ensures AllCells(healthy, reals, healthy) == MirrorCells(e.cfg, Names(healthy), w0)
  {
    hide Calm, Classified;
    forall c | c in AllCells(healthy, reals, healthy)
      ensures c in MirrorCells(e.cfg, Names(healthy), w0)
    {
      var src, ev, a :| src in healthy && src.name in reals && ev in reals[src.name] && a in healthy
                        && a.name != src.name && c == (a.name, KeyOfSource(src, ev));
      TakenIsMirrorCell(e, healthy, w0, listing, reals, a, src, ev);
    }
    forall c | c in MirrorCells(e.cfg, Names(healthy), w0)
      ensures c in AllCells(healthy, reals, healthy)
    {
      var dst :| dst in healthy && dst.name == c.0;
      var src :| src in healthy && src.name == c.1.acc;
      MirrorCellIsTaken(e, healthy, w0, listing, reals, dst, src, c.1.ev);
    }
  }
}
