/**
 Phase 3 of a pass: removing blocks whose source is gone.
 */
module Collecting {
  import opened Basics
  import opened Events
  import opened Calendars
  import opened Retry
  import opened Server
  import opened WriteLog
  import opened Target
  import opened Plan
  import opened Progress
  import opened Engine
  import opened Mirroring
  import Bridge = ProviderClient

  /** The index keys of every live real event. */
  ghost function LiveSet(healthy: seq<Account>, reals: map<string, seq<GEvent>>): set<string> {
    set src, ev | src in healthy && src.name in reals && ev in reals[src.name] :: IndexKey(KeyOfSource(src, ev))
  }

  method LiveIds(healthy: seq<Account>, reals: map<string, seq<GEvent>>) returns (live: set<string>)
    requires forall a :: a in healthy ==> a.name in reals
    ensures live == LiveSet(healthy, reals)
  {
    live := {};
    for i := 0 to |healthy|
      invariant live == LiveSet(healthy[..i], reals)
    {
      var src := healthy[i];
      var evs := reals[src.name];
      for j := 0 to |evs|
        invariant live == LiveSet(healthy[..i], reals) + set ev | ev in evs[..j] :: IndexKey(KeyOfSource(src, ev))
      {
        assert evs[..j + 1] == evs[..j] + [evs[j]];
        live := live + {IndexKey(KeyOfSource(src, evs[j]))};
      }
      assert evs[..|evs|] == evs;
      assert healthy[..i + 1] == healthy[..i] + [src];
    }
    assert healthy[..|healthy|] == healthy;
  }

  /** The owned blocks of every fetched account's listing. */
  ghost predicate OwnedClassified(healthy: seq<Account>, listing: map<string, seq<GEvent>>, owned: map<string,
                                  seq<GEvent>>) {
    forall a :: a in healthy ==> a.name in listing && a.name in owned && owned[a.name] == OwnedOf(listing[a.name])
  }

  /** `block` is an owned block listed on `dst`. */
  ghost predicate ListedBlock(e: Engine, w0: World, dst: string, block: GEvent) {
    && dst in w0 && block.id in w0[dst]
    && block == View(w0[dst][block.id]) && InWindow(e.cfg.win, w0[dst][block.id])
    && CountsAsOwned(block)
  }

  lemma BlocksAreListed(e: Engine, healthy: seq<Account>, w0: World, listing: map<string, seq<GEvent>>,
                        owned: map<string, seq<GEvent>>, i: nat)
    requires Calm(e, healthy, w0, listing) && OwnedClassified(healthy, listing, owned) && i < |healthy|
    ensures DistinctIds(owned[healthy[i].name])
    ensures forall x :: x in owned[healthy[i].name] ==> ListedBlock(e, w0, healthy[i].name, x)
  {
    assert healthy[i] in healthy;
    var evs := listing[healthy[i].name];
    ClassesStayDistinct(evs);
    ClassesAreFilters(evs);
    forall x | x in owned[healthy[i].name]
      ensures ListedBlock(e, w0, healthy[i].name, x)
    {
      var j :| 0 <= j < |evs| && evs[j] == x;
    }
  }

  /** A listed block with a complete identity has that identity as its key. */
  lemma BlockKey(e: Engine, w0: World, dst: string, block: GEvent)
    requires ListedBlock(e, w0, dst, block)
    ensures KeyOf(w0[dst][block.id]) == KeyOf(block)
    ensures SourceIdentity(block).Some? <==> KeyOf(block).Some?
    ensures SourceIdentity(block).Some? ==>
      KeyOf(block) == Some(Key(SourceIdentity(block).value.account, SourceIdentity(block).value.event))
  {
    ViewPreserves(w0[dst][block.id]);
  }

  /** The live set answers exactly whether a source is live. */
  lemma LiveSetIsLive(e: Engine, healthy: seq<Account>, w0: World, listing: map<string, seq<GEvent>>,
                      reals: map<string, seq<GEvent>>, k: Key)
    requires Calm(e, healthy, w0, listing) && Classified(healthy, listing, reals) && NoBar(k.ev)
    ensures IndexKey(k) in LiveSet(healthy, reals) <==> Live(e.cfg, Names(healthy), w0, k)
  {
    if IndexKey(k) in LiveSet(healthy, reals) {
      var src, ev :| src in healthy && src.name in reals && ev in reals[src.name]
                     && IndexKey(k) == IndexKey(KeyOfSource(src, ev));
      var i :| 0 <= i < |healthy| && healthy[i] == src;
      SourcesAreReal(e, healthy, w0, listing, reals, i);
      IndexKeyInjective(k, KeyOfSource(src, ev));
    }
    if Live(e.cfg, Names(healthy), w0, k) {
      LiveIsTaken(e, healthy, w0, listing, reals, k);
    }
  }

  lemma LiveIsTaken(e: Engine, healthy: seq<Account>, w0: World, listing: map<string, seq<GEvent>>,
                    reals: map<string, seq<GEvent>>, k: Key)
    requires Calm(e, healthy, w0, listing) && Classified(healthy, listing, reals) && Live(e.cfg, Names(healthy), w0, k)
    ensures IndexKey(k) in LiveSet(healthy, reals)
  {
    var src :| src in healthy && src.name == k.acc;
    var evs := listing[k.acc];
    var i :| 0 <= i < |evs| && evs[i].id == k.ev;
    ClassesAreFilters(evs);
    ViewPreserves(w0[k.acc][k.ev]);
    assert evs[i] in evs && evs[i] in reals[k.acc];
    assert KeyOfSource(src, evs[i]) == k;
  }

  /** The engine's staleness test is collectability. */
  lemma StaleIsCollectable(e: Engine, healthy: seq<Account>, w0: World, listing: map<string, seq<GEvent>>,
                           reals: map<string, seq<GEvent>>, dst: string, block: GEvent)
    requires Calm(e, healthy, w0, listing) && Classified(healthy, listing, reals) && ListedBlock(e, w0, dst, block)
    ensures Stale(Names(healthy), LiveSet(healthy, reals), block) <==>
            Collectable(e.cfg, Names(healthy), w0, w0[dst][block.id])
  {
    BlockKey(e, w0, dst, block);
    if KeyOf(block).Some? {
      LiveSetIsLive(e, healthy, w0, listing, reals, KeyOf(block).value);
    }
  }

  /** Folds one removal into the books. */
  function Removed(b: Books, dst: string, k: Key, id: string, r: Option<Err>): Books {
    if r.Some? then b.(errs := b.errs + [Deleting(dst, k, id, r.value)]) else b.(deleted := b.deleted + 1)
  }

  /** What a removal does to the world when nobody else writes. */
  ghost predicate RemovedFrom(dry: bool, w: World, after: World, dst: string, id: string, r: Option<Err>)
    requires dst in w
  {
    if dry then after == w && r.None?
    else
      && (after == w || after == w[dst := w[dst] - {id}])
      && (r.None? ==> dst in after && id !in after[dst])
  }

  lemma CollectWorld(e: Engine, healthy: set<string>, w0: World, w: World, after: World, done: set<Cell>,
                     bad: set<Cell>,
                     dst: string, id: string, k: Key, r: Option<Err>)
    requires WorldTracked(e, healthy, w0, w, done, bad) && UniqueWorld(w0)
    requires dst in w0 && dst in healthy && (dst, k) !in done
    requires id in w0[dst] && w0[dst][id].id == id && KeyOf(w0[dst][id]) == Some(k)
    requires Collectable(e.cfg, healthy, w0, w0[dst][id])
    requires forall x :: x in w[dst] ==> w[dst][x].id == x
    requires RemovedFrom(e.dry, w, after, dst, id, r)
    ensures WorldTracked(e, healthy, w0, after, done + {(dst, k)}, if r.None? then bad else bad + {(dst, k)})
    ensures after.Keys == w.Keys && forall d :: d in w && d != dst ==> after[d] == w[d]
    ensures after == w || Touched(w[dst], after[dst], k, None)
    ensures CellChange(e.cfg, healthy, w0, (dst, k)) == Removal
  {
    CollectedGoal(e.cfg, healthy, w0, dst, id);
    if !e.dry {
      assert BlockAt(w[dst], k) == BlockAt(w0[dst], k);
      var x :| Holds(w[dst], x, k) && w[dst][x] == w0[dst][id];
      assert x == id;
      RemoveTouches(w[dst], id, k);
      assert CellStep(e.cfg, healthy, w0, w, after, dst, k, r.None?);
      Advance(e.cfg, healthy, w0, w, after, done, bad, dst, k, r.None?);
    }
  }

  lemma CollectCounts(e: Engine, healthy: set<string>, w0: World, b: Books, done: set<Cell>, dst: string, k: Key,
                      id: string, r: Option<Err>)
    requires dst in w0 && (dst, k) !in done && Counted(e, healthy, w0, b, done)
    requires CellChange(e.cfg, healthy, w0, (dst, k)) == Removal
    ensures Counted(e, healthy, w0, Removed(b, dst, k, id, r), done + {(dst, k)})
  {
    hide CellChange, Tally;
    var bad := BadCells(b.errs);
    RemovedMeans(b, dst, k, id, r);
    OneMoreCell(e.cfg, healthy, w0, done, bad, (dst, k), r.None?, Addition);
    OneMoreCell(e.cfg, healthy, w0, done, bad, (dst, k), r.None?, Rewrite);
    OneMoreCell(e.cfg, healthy, w0, done, bad, (dst, k), r.None?, Removal);
    hide BadCells;
  }

  lemma CollectIndexes(healthy: set<string>, w: World, after: World, index: map<string, Index>, done: set<Cell>,
                       dst: string, k: Key)
    requires Indexed(healthy, w, index, done) && UniqueWorld(w) && NoBar(k.ev)
    requires dst in w && dst in healthy && after.Keys == w.Keys && forall d :: d in w && d != dst ==> after[d] == w[d]
    requires after == w || Touched(w[dst], after[dst], k, None)
    ensures Indexed(healthy, after, index, done + {(dst, k)})
  {
    if after != w {
      IndexFollows(index[dst], w[dst], after[dst], k, None, DoneOn(done, dst));
    }
    IndexesKept(healthy, w, after, index, index[dst], done, dst, k);
    assert index[dst := index[dst]] == index;
  }

  lemma CollectStep(e: Engine, healthy: seq<Account>, w0: World, listing: map<string, seq<GEvent>>, w: World,
                    after: World,
                    b: Books, done: set<Cell>, dst: string, id: string, k: Key, r: Option<Err>)
    requires Calm(e, healthy, w0, listing) && Tracking(e, Names(healthy), w0, w, b, done)
    requires dst in w0 && dst in Names(healthy) && (dst, k) !in done
    requires id in w0[dst] && KeyOf(w0[dst][id]) == Some(k) && Collectable(e.cfg, Names(healthy), w0, w0[dst][id])
    requires forall x :: x in w[dst] ==> w[dst][x].id == x
    requires RemovedFrom(e.dry, w, after, dst, id, r)
    ensures Tracking(e, Names(healthy), w0, after, Removed(b, dst, k, id, r), done + {(dst, k)})
  {
    assert UniqueWorld(w0) && NoBar(k.ev) && w0[dst][id].id == id;
    TrackingMeans(e, Names(healthy), w0, w, b, done);
    hide *;
    CollectWorld(e, Names(healthy), w0, w, after, done, BadCells(b.errs), dst, id, k, r);
    CollectCounts(e, Names(healthy), w0, b, done, dst, k, id, r);
    TrackedUnique(e, Names(healthy), w0, w, done, BadCells(b.errs));
    CollectIndexes(Names(healthy), w, after, b.index, done, dst, k);
    RemovedMeans(b, dst, k, id, r);
    TrackingBy(e, Names(healthy), w0, after, Removed(b, dst, k, id, r), done + {(dst, k)});
  }

  lemma TrackedUnique(e: Engine, healthy: set<string>, w0: World, w: World, done: set<Cell>, bad: set<Cell>)
    requires WorldTracked(e, healthy, w0, w, done, bad)
    ensures UniqueWorld(w) && w.Keys == w0.Keys
  {
  }

  lemma RemovedMeans(b: Books, dst: string, k: Key, id: string, r: Option<Err>)
    ensures Removed(b, dst, k, id, r).index == b.index
    ensures r.None? ==> Removed(b, dst, k, id, r).errs == b.errs
    ensures r.Some? ==> |Removed(b, dst, k, id, r).errs| == |b.errs| + 1
    ensures BadCells(Removed(b, dst, k, id, r).errs) == BadCells(b.errs) + if r.None? then {} else {(dst, k)}
  {
    if r.Some? {
      BadCellsNext(b.errs, Deleting(dst, k, id, r.value));
    }
  }

  /** `block` was listed on `dst`, calls for removal, and was not dealt with. */
  ghost predicate CallsForRemoval(e: Engine, healthy: set<string>, w0: World, dst: string, block: GEvent,
                                  done: set<Cell>) {
    && dst in healthy && ListedBlock(e, w0, dst, block)
    && KeyOf(block).Some? && (dst, BlockKeyOf(block)) !in done
    && Collectable(e.cfg, healthy, w0, w0[dst][block.id])
  }

  function BlockKeyOf(block: GEvent): Key {
    if KeyOf(block).Some? then KeyOf(block).value else Key("", "")
  }

  /** The removal of one stale block. */
  method CollectOne(e: Engine, s: Server, dst: Account, block: GEvent, b: Books,
                    ghost healthy: seq<Account>, ghost w0: World, ghost listing: map<string, seq<GEvent>>,
                    ghost done: set<Cell>)
    returns (b1: Books, ghost asked: seq<Request>)
    requires s.Valid() && dst.name in s.cals
    modifies s, s.journal`calls
    ensures s.Valid() && s.cals.Keys == old(s.cals.Keys) && b1.index == b.index
    ensures SafeSince(old(s.log), s.log, iset{Dropping(dst.name, block.id)})
    ensures s.faults >= old(s.faults)
    ensures WritesIn(s.journal.calls) == WritesIn(old(s.journal.calls)) + asked
    ensures Accountable(old(s.journal.calls), s.journal.calls, b.errs, b1.errs)
    ensures e.dry ==> unchanged(s) && unchanged(s.journal`calls) && asked == []
    ensures s.tame && UniqueWorld(old(s.cals)) ==> UniqueWorld(s.cals)
    ensures (Exact(e, s.quiet, healthy, w0, listing, old(s.cals), b, done)
             && CallsForRemoval(e, Names(healthy), w0, dst.name, block, done)) ==>
      && Exact(e, s.quiet, healthy, w0, listing, s.cals, b1, done + {(dst.name, BlockKeyOf(block))})
      && AsPlanned(e.dry, b, b1, asked, [Remove(dst.name, block.id)])
      && (s.faults == old(s.faults) ==> Flawless(w0, b, b1, old(s.log), s.log, asked))
  {
    hide *;
    WorldIsOk(s);
    FlawlessNothing(w0, b, s.log);
    AccountableNothing(s.journal.calls, b.errs);
    ghost var exact := Exact(e, s.quiet, healthy, w0, listing, s.cals, b, done)
                       && CallsForRemoval(e, Names(healthy), w0, dst.name, block, done);
    var r: Option<Err> := None;
    SafeNothing(s.log, iset{Dropping(dst.name, block.id)});
    if exact {
      ExactIsCalm(e, s.quiet, healthy, w0, listing, s.cals, b, done);
      StillListed(e, healthy, w0, listing, s.cals, b, done, dst.name, block, s.clock);
    }
    if e.dry {
      asked := [];
    } else {
      asked := [Remove(dst.name, block.id)];
      r := Bridge.DeleteEvent(s, e.policy, dst.name, block.id, block.etag);
      if exact && s.faults == old(s.faults) {
        FaultlessDelete(old(s.cals), s.cals, dst.name, block.id, r);
        RemovalFollows(w0, old(s.cals), dst.name, block.id, old(s.log));
      }
    }
    b1 := Removed(b, dst.name, BlockKeyOf(block), block.id, r);
    RemovalAccountable(old(s.journal.calls), e.dry, b, dst.name, BlockKeyOf(block), block.id, r);
    RemovedMeans(b, dst.name, BlockKeyOf(block), block.id, r);
    FlawlessMeans(w0, b, b1, old(s.log), s.log, asked);
    if exact {
      CollectExactly(e, s.quiet, healthy, w0, listing, old(s.cals), old(s.clock), s.cals, b, done, dst.name, block, r,
                     asked);
    }
  }

  /** A block not dealt with is where it was listed. */
  lemma StillListed(e: Engine, healthy: seq<Account>, w0: World, listing: map<string, seq<GEvent>>, w: World, b: Books,
                    done: set<Cell>, dst: string, block: GEvent, clock: nat)
    requires Calm(e, healthy, w0, listing) && Tracking(e, Names(healthy), w0, w, b, done) && WorldOk(w, clock)
    requires CallsForRemoval(e, Names(healthy), w0, dst, block, done)
    ensures !e.dry ==> dst in w && block.id in w[dst] && IsOwned(w[dst][block.id])
    ensures !e.dry ==> Stood(w0, dst, block.id, Some(w[dst][block.id]))
  {
    BlockKey(e, w0, dst, block);
    if !e.dry {
      var k := KeyOf(block).value;
      assert BlockAt(w[dst], k) == BlockAt(w0[dst], k);
      BlockIs(w0[dst], block.id, k);
      var x :| Holds(w[dst], x, k) && Some(w[dst][x]) == BlockAt(w[dst], k);
      assert w[dst][x] == w0[dst][block.id] && StoredWell(w[dst], clock);
    }
  }

  lemma RemovalAccountable(calls: seq<Call>, dry: bool, b: Books, dst: string, k: Key, id: string, r: Option<Err>)
    requires dry ==> r.None?
    ensures var now := if dry then calls else calls + [WriteCall(Remove(dst, id), r)];
      && Accountable(calls, now, b.errs, Removed(b, dst, k, id, r).errs)
      && WritesIn(now) == WritesIn(calls) + if dry then [] else [Remove(dst, id)]
  {
    var c, errs := WriteCall(Remove(dst, id), r), Removed(b, dst, k, id, r).errs;
    OneMoreCall(calls, c);
    assert errs[|b.errs|..] == if r.Some? then [Deleting(dst, k, id, r.value)] else [];
    if !dry {
      assert [c][..0] == [] && Tells([], []);
    }
  }

  lemma RemovalFollows(w0: World, w: World, dst: string, id: string, log: seq<Applied>)
    requires dst in w && id in w[dst] && IsOwned(w[dst][id]) && Stood(w0, dst, id, Some(w[dst][id]))
    ensures LogFollows(w0, log, log + Bridge.Provider.Removal(w, dst, id), [Remove(dst, id)])
  {
    FollowsOne(w0, log, Applied(dst, Some(w[dst][id]), None), Remove(dst, id));
  }

  lemma FaultlessDelete(before: World, after: World, dst: string, id: string, r: Option<Err>)
    requires dst in before && id in before[dst] && IsOwned(before[dst][id])
    requires Bridge.Provider.Deleted(before, after, dst, id, r)
    ensures r.None?
  {
  }

  lemma CollectExactly(e: Engine, quiet: bool, healthy: seq<Account>, w0: World, listing: map<string, seq<GEvent>>,
                       w: World, clock: nat, after: World, b: Books, done: set<Cell>, dst: string, block: GEvent,
                       r: Option<Err>, asked: seq<Request>)
    requires Exact(e, quiet, healthy, w0, listing, w, b, done) && WorldOk(w, clock) && dst in w
    requires CallsForRemoval(e, Names(healthy), w0, dst, block, done)
    requires if e.dry then after == w && r.None? && asked == []
             else
               && asked == [Remove(dst, block.id)]
               && (after != w ==> after == w[dst := w[dst] - {block.id}])
               && (r.None? ==> dst in after && block.id !in after[dst])
    ensures Exact(e, quiet, healthy, w0, listing, after, Removed(b, dst, BlockKeyOf(block), block.id, r),
                  done + {(dst, BlockKeyOf(block))})
    ensures AsPlanned(e.dry, b, Removed(b, dst, BlockKeyOf(block), block.id, r), asked, [Remove(dst, block.id)])
  {
    ExactIsCalm(e, quiet, healthy, w0, listing, w, b, done);
    BlockKey(e, w0, dst, block);
    RemovedMeans(b, dst, BlockKeyOf(block), block.id, r);
    hide Calm, Tracking, Counted;
    assert StoredWell(w[dst], clock);
    assert e.dry || Subsequence(asked, [Remove(dst, block.id)]);
    CollectStep(e, healthy, w0, listing, w, after, b, done, dst, block.id, KeyOf(block).value, r);
  }

  /** The cells of the stale blocks of one account. */
  ghost function RemovalCells(names: set<string>, live: set<string>, dst: Account, blocks: seq<GEvent>): set<Cell> {
    set x | x in blocks && Stale(names, live, x) :: (dst.name, BlockKeyOf(x))
  }

  lemma RemovalCellsNext(names: set<string>, live: set<string>, dst: Account, blocks: seq<GEvent>, i: nat)
    requires i < |blocks|
    ensures RemovalCells(names, live, dst, blocks[..i + 1]) ==
            RemovalCells(names, live, dst, blocks[..i]) +
            if Stale(names, live, blocks[i]) then {(dst.name, BlockKeyOf(blocks[i]))} else {}
  {
    assert blocks[..i + 1] == blocks[..i] + [blocks[i]];
  }

  lemma PlanRemovalsNext(dst: string, blocks: seq<GEvent>, names: set<string>, live: set<string>, i: nat)
    requires i < |blocks|
    ensures PlanRemovals(dst, blocks[..i + 1], names, live) == PlanRemovals(dst, blocks[..i], names, live) +
      if Stale(names, live, blocks[i]) then [Remove(dst, blocks[i].id)] else []
  {
    assert blocks[..i + 1][..i] == blocks[..i];
  }

  /** What phase 3 needs of the account it is at: its blocks were listed, the
      live set is right, and no stale cell of it was dealt with. */
  ghost predicate AtAccount(e: Engine, healthy: seq<Account>, w0: World, listing: map<string, seq<GEvent>>,
                            reals: map<string, seq<GEvent>>, live: set<string>, dst: Account, blocks: seq<GEvent>,
                            done: set<Cell>)
  {
    && dst in healthy && Classified(healthy, listing, reals) && live == LiveSet(healthy, reals)
    && DistinctIds(blocks)
    && (forall x :: x in blocks ==> ListedBlock(e, w0, dst.name, x))
    && (forall k :: (dst.name, k) in done ==> Live(e.cfg, Names(healthy), w0, k))
  }

  lemma StaleCallsForRemoval(e: Engine, healthy: seq<Account>, w0: World, listing: map<string, seq<GEvent>>,
                             reals: map<string, seq<GEvent>>, live: set<string>, dst: Account, blocks: seq<GEvent>,
                             done: set<Cell>, i: nat)
    requires Calm(e, healthy, w0, listing) && AtAccount(e, healthy, w0, listing, reals, live, dst, blocks, done)
    requires i < |blocks| && Stale(Names(healthy), live, blocks[i])
    ensures CallsForRemoval(e, Names(healthy), w0, dst.name, blocks[i],
                            done + RemovalCells(Names(healthy), live, dst, blocks[..i]))
  {
    var block := blocks[i];
    assert block in blocks;
    StaleIsCollectable(e, healthy, w0, listing, reals, dst.name, block);
    BlockKey(e, w0, dst.name, block);
    forall x | x in blocks[..i] && Stale(Names(healthy), live, x)
      ensures BlockKeyOf(x) != BlockKeyOf(block)
    {
      assert x in blocks;
      BlockKey(e, w0, dst.name, x);
      var j :| 0 <= j < i && blocks[j] == x;
      assert x.id != block.id;
      assert BlockKeyOf(x) == BlockKeyOf(block) ==>
        Holds(w0[dst.name], x.id, BlockKeyOf(block)) && Holds(w0[dst.name], block.id, BlockKeyOf(block));
    }
  }

  /** With nothing left to do no listed block is stale. */
  lemma SteadyNothingStale(e: Engine, healthy: seq<Account>, w0: World, listing: map<string, seq<GEvent>>,
                           reals: map<string, seq<GEvent>>, live: set<string>, dst: Account, blocks: seq<GEvent>,
                           done: set<Cell>, block: GEvent)
    requires Calm(e, healthy, w0, listing) && AtAccount(e, healthy, w0, listing, reals, live, dst, blocks, done)
    requires AtGoal(e.cfg, Names(healthy), w0) && block in blocks
    ensures !Stale(Names(healthy), live, block)
  {
    StaleIsCollectable(e, healthy, w0, listing, reals, dst.name, block);
    if Collectable(e.cfg, Names(healthy), w0, w0[dst.name][block.id]) {
      CollectedGoal(e.cfg, Names(healthy), w0, dst.name, block.id);
      assert false;
    }
  }

  lemma CollectFromBegins(e: Engine, dst: Account, blocks: seq<GEvent>, names: set<string>,
                          live: set<string>, b: Books, done: set<Cell>)
    ensures AsPlanned(e.dry, b, b, [], PlanRemovals(dst.name, blocks[..0], names, live))
    ensures done + RemovalCells(names, live, dst, blocks[..0]) == done
  {
    assert RemovalCells(names, live, dst, blocks[..0]) == {};
  }

  /** The removal of any stale block of these is among `allowed`. */
  ghost predicate MayDrop(dst: Account, blocks: seq<GEvent>, names: set<string>, live: set<string>,
                          allowed: iset<Intent>) {
    forall x :: x in blocks && Stale(names, live, x) ==> Dropping(dst.name, x.id) in allowed
  }

  lemma DropsOne(dst: Account, blocks: seq<GEvent>, names: set<string>, live: set<string>, allowed: iset<Intent>,
                 i: nat)
    requires MayDrop(dst, blocks, names, live, allowed) && i < |blocks| && Stale(names, live, blocks[i])
    ensures iset{Dropping(dst.name, blocks[i].id)} <= allowed
  {
    assert blocks[i] in blocks;
  }

  lemma DropIntentsSuffice(dsts: seq<Account>, owned: map<string, seq<GEvent>>, names: set<string>, live: set<string>,
                           i: nat)
    requires i < |dsts| && dsts[i].name in owned
    ensures MayDrop(dsts[i], owned[dsts[i].name], names, live, DropIntents(dsts, owned, names, live))
  {
    assert dsts[i] in dsts;
    forall x | x in owned[dsts[i].name] && Stale(names, live, x)
      ensures Dropping(dsts[i].name, x.id) in DropIntents(dsts, owned, names, live)
    {
      assert Collects(Dropping(dsts[i].name, x.id), dsts, owned, names, live);
    }
  }

  /** The stale blocks of one account. */
  method CollectFrom(e: Engine, s: Server, dst: Account, blocks: seq<GEvent>, healthy: seq<Account>, live: set<string>,
                     b: Books, ghost w0: World, ghost listing: map<string, seq<GEvent>>,
                     ghost reals: map<string, seq<GEvent>>, ghost done: set<Cell>,
                     ghost allowed: iset<Intent>)
    returns (b1: Books, ghost asked: seq<Request>)
    requires s.Valid() && dst.name in s.cals && MayDrop(dst, blocks, Names(healthy), live, allowed)
    modifies s, s.journal`calls
    ensures s.Valid() && s.cals.Keys == old(s.cals.Keys) && b1.index == b.index
    ensures SafeSince(old(s.log), s.log, allowed)
    ensures s.faults >= old(s.faults)
    ensures WritesIn(s.journal.calls) == WritesIn(old(s.journal.calls)) + asked
    ensures Accountable(old(s.journal.calls), s.journal.calls, b.errs, b1.errs)
    ensures e.dry ==> unchanged(s) && unchanged(s.journal`calls) && asked == []
    ensures s.tame && UniqueWorld(old(s.cals)) ==> UniqueWorld(s.cals)
    ensures (Exact(e, s.quiet, healthy, w0, listing, old(s.cals), b, done)
             && AtAccount(e, healthy, w0, listing, reals, live, dst, blocks, done)) ==>
      && Exact(e, s.quiet, healthy, w0, listing, s.cals, b1, done + RemovalCells(Names(healthy), live, dst, blocks))
      && AsPlanned(e.dry, b, b1, asked, PlanRemovals(dst.name, blocks, Names(healthy), live))
      && (s.faults == old(s.faults) ==> Flawless(w0, b, b1, old(s.log), s.log, asked))
      && (AtGoal(e.cfg, Names(healthy), w0) ==> unchanged(s) && unchanged(s.journal`calls) && asked == [])
  {
    hide *;
    ghost var exact := Exact(e, s.quiet, healthy, w0, listing, s.cals, b, done)
                       && AtAccount(e, healthy, w0, listing, reals, live, dst, blocks, done);
    ghost var names := Names(healthy);
    ghost var steady := AtGoal(e.cfg, names, w0);
    b1, asked := b, [];
    SafeNothing(s.log, allowed);
    FlawlessNothing(w0, b, s.log);
    AccountableNothing(s.journal.calls, b.errs);
    CollectFromBegins(e, dst, blocks, names, live, b, done);
    if exact {
      ExactIsCalm(e, s.quiet, healthy, w0, listing, s.cals, b, done);
    }
    for i := 0 to |blocks|
      invariant s.Valid() && s.cals.Keys == old(s.cals.Keys) && b1.index == b.index
      invariant SafeSince(old(s.log), s.log, allowed)
      invariant s.faults >= old(s.faults) && WritesIn(s.journal.calls) == WritesIn(old(s.journal.calls)) + asked
      invariant Accountable(old(s.journal.calls), s.journal.calls, b.errs, b1.errs)
      invariant exact && s.faults == old(s.faults) ==> Flawless(w0, b, b1, old(s.log), s.log, asked)
      invariant e.dry ==> unchanged(s) && unchanged(s.journal`calls) && asked == []
      invariant s.tame && UniqueWorld(old(s.cals)) ==> UniqueWorld(s.cals)
      invariant exact ==>
        Exact(e, s.quiet, healthy, w0, listing, s.cals, b1, done + RemovalCells(names, live, dst, blocks[..i]))
      invariant exact ==> AsPlanned(e.dry, b, b1, asked, PlanRemovals(dst.name, blocks[..i], names, live))
      invariant exact && steady ==> unchanged(s) && unchanged(s.journal`calls) && asked == []
    {
      ghost var cells := done + RemovalCells(names, live, dst, blocks[..i]);
      RemovalCellsNext(names, live, dst, blocks, i);
      PlanRemovalsNext(dst.name, blocks, names, live, i);
      if exact && steady {
        SteadyNothingStale(e, healthy, w0, listing, reals, live, dst, blocks, done, blocks[i]);
      }
      if !Stale(Names(healthy), live, blocks[i]) {
        assert done + RemovalCells(names, live, dst, blocks[..i + 1]) == cells;
        assert PlanRemovals(dst.name, blocks[..i + 1], names, live) == PlanRemovals(dst.name, blocks[..i], names, live);
        continue;
      }
      if exact {
        StaleCallsForRemoval(e, healthy, w0, listing, reals, live, dst, blocks, done, i);
      }
      ghost var logged, before, more, called := s.log, b1, [], s.journal.calls;
      b1, more := CollectOne(e, s, dst, blocks[i], b1, healthy, w0, listing, cells);
      DropsOne(dst, blocks, names, live, allowed, i);
      SafeCompose(old(s.log), logged, s.log, iset{Dropping(dst.name, blocks[i].id)}, allowed);
      if exact {
        PlannedThen(e.dry, b, before, b1, asked, more, PlanRemovals(dst.name, blocks[..i], names, live),
                    [Remove(dst.name, blocks[i].id)]);
      }
      if exact && s.faults == old(s.faults) {
        FlawlessThen(w0, b, before, b1, old(s.log), logged, s.log, asked, more);
      }
      AskedMore(WritesIn(old(s.journal.calls)), asked, more);
      AccountableThen(old(s.journal.calls), called, s.journal.calls, b.errs, before.errs, b1.errs);
      asked := asked + more;
      assert done + RemovalCells(names, live, dst, blocks[..i + 1]) == cells + {(dst.name, BlockKeyOf(blocks[i]))};
    }
    assert blocks[..|blocks|] == blocks;
  }

  /** The cells of the accounts collected so far. */
  ghost function CollectedCells(names: set<string>, live: set<string>, dsts: seq<Account>, owned: map<string,
                                seq<GEvent>>)
    : set<Cell>
  {
    set a, x | a in dsts && a.name in owned && x in owned[a.name] && Stale(names, live, x) :: (a.name, BlockKeyOf(x))
  }

  lemma CollectedCellsNext(names: set<string>, live: set<string>, dsts: seq<Account>, owned: map<string, seq<GEvent>>,
                           i: nat)
    requires i < |dsts| && dsts[i].name in owned
    ensures CollectedCells(names, live, dsts[..i + 1], owned) ==
            CollectedCells(names, live, dsts[..i], owned) + RemovalCells(names, live, dsts[i], owned[dsts[i].name])
  {
    assert dsts[..i + 1] == dsts[..i] + [dsts[i]];
    forall c
      ensures c in CollectedCells(names, live, dsts[..i + 1], owned) <==>
              c in CollectedCells(names, live, dsts[..i], owned)
                   + RemovalCells(names, live, dsts[i], owned[dsts[i].name])
    {
    }
  }

  lemma PlanCollectionNext(dsts: seq<Account>, owned: map<string, seq<GEvent>>, names: set<string>, live: set<string>,
                           i: nat)
    requires i < |dsts| && dsts[i].name in owned
    ensures PlanCollection(dsts[..i + 1], owned, names, live) ==
            PlanCollection(dsts[..i], owned, names, live) + PlanRemovals(dsts[i].name, owned[dsts[i].name], names, live)
  {
    assert dsts[..i + 1][..i] == dsts[..i];
  }

  /** What phase 3 starts from. */
  ghost predicate ReadyToCollect(healthy: seq<Account>, listing: map<string, seq<GEvent>>, reals: map<string,
                                 seq<GEvent>>,
                             owned: map<string, seq<GEvent>>, live: set<string>)
  {
    Classified(healthy, listing, reals) && OwnedClassified(healthy, listing, owned) && live == LiveSet(healthy, reals)
  }

  lemma NextAccount(e: Engine, healthy: seq<Account>, w0: World, listing: map<string, seq<GEvent>>,
                    reals: map<string, seq<GEvent>>, owned: map<string, seq<GEvent>>, live: set<string>, i: nat)
    requires Calm(e, healthy, w0, listing) && ReadyToCollect(healthy, listing, reals, owned, live) && i < |healthy|
    requires healthy[i].name in owned
    ensures AtAccount(e, healthy, w0, listing, reals, live, healthy[i], owned[healthy[i].name],
                      MirrorCells(e.cfg, Names(healthy), w0)
                      + CollectedCells(Names(healthy), live, healthy[..i], owned))
  {
    BlocksAreListed(e, healthy, w0, listing, owned, i);
  }

  lemma CollectionBegins(e: Engine, healthy: seq<Account>, owned: map<string, seq<GEvent>>,
                         live: set<string>, b: Books, done: set<Cell>)
    ensures AsPlanned(e.dry, b, b, [], PlanCollection(healthy[..0], owned, Names(healthy), live))
    ensures done + CollectedCells(Names(healthy), live, healthy[..0], owned) == done
  {
    assert CollectedCells(Names(healthy), live, healthy[..0], owned) == {};
  }

  /** Phase 3: the stale blocks of every account. */
  method CollectAll(e: Engine, s: Server, healthy: seq<Account>, owned: map<string, seq<GEvent>>, live: set<string>,
                    b: Books,
                    ghost w0: World, ghost listing: map<string, seq<GEvent>>, ghost reals: map<string, seq<GEvent>>)
    returns (b1: Books, ghost asked: seq<Request>)
    requires s.Valid() && forall a :: a in healthy ==> a.name in s.cals && a.name in owned
    modifies s, s.journal`calls
    ensures s.Valid() && s.cals.Keys == old(s.cals.Keys) && b1.index == b.index
    ensures SafeSince(old(s.log), s.log, DropIntents(healthy, owned, Names(healthy), live))
    ensures s.faults >= old(s.faults)
    ensures WritesIn(s.journal.calls) == WritesIn(old(s.journal.calls)) + asked
    ensures Accountable(old(s.journal.calls), s.journal.calls, b.errs, b1.errs)
    ensures e.dry ==> unchanged(s) && unchanged(s.journal`calls) && asked == []
    ensures s.tame && UniqueWorld(old(s.cals)) ==> UniqueWorld(s.cals)
    ensures (Exact(e, s.quiet, healthy, w0, listing, old(s.cals), b, MirrorCells(e.cfg, Names(healthy), w0))
             && ReadyToCollect(healthy, listing, reals, owned, live)) ==>
      && Exact(e, s.quiet, healthy, w0, listing, s.cals, b1,
               MirrorCells(e.cfg, Names(healthy), w0) + CollectedCells(Names(healthy), live, healthy, owned))
      && AsPlanned(e.dry, b, b1, asked, PlanCollection(healthy, owned, Names(healthy), live))
      && (s.faults == old(s.faults) ==> Flawless(w0, b, b1, old(s.log), s.log, asked))
      && (AtGoal(e.cfg, Names(healthy), w0) ==> unchanged(s) && unchanged(s.journal`calls) && asked == [])
  {
    hide *;
    ghost var names := Names(healthy);
    ghost var mirrored := MirrorCells(e.cfg, names, w0);
    ghost var exact := Exact(e, s.quiet, healthy, w0, listing, s.cals, b, mirrored)
                       && ReadyToCollect(healthy, listing, reals, owned, live);
    ghost var steady := AtGoal(e.cfg, names, w0);
    b1, asked := b, [];
    ghost var allowed := DropIntents(healthy, owned, names, live);
    SafeNothing(s.log, allowed);
    FlawlessNothing(w0, b, s.log);
    AccountableNothing(s.journal.calls, b.errs);
    CollectionBegins(e, healthy, owned, live, b, mirrored);
    if exact {
      ExactIsCalm(e, s.quiet, healthy, w0, listing, s.cals, b, mirrored);
    }
    for i := 0 to |healthy|
      invariant s.Valid() && s.cals.Keys == old(s.cals.Keys) && b1.index == b.index
      invariant SafeSince(old(s.log), s.log, allowed)
      invariant s.faults >= old(s.faults) && WritesIn(s.journal.calls) == WritesIn(old(s.journal.calls)) + asked
      invariant Accountable(old(s.journal.calls), s.journal.calls, b.errs, b1.errs)
      invariant exact && s.faults == old(s.faults) ==> Flawless(w0, b, b1, old(s.log), s.log, asked)
      invariant e.dry ==> unchanged(s) && unchanged(s.journal`calls) && asked == []
      invariant s.tame && UniqueWorld(old(s.cals)) ==> UniqueWorld(s.cals)
      invariant exact ==>
        Exact(e, s.quiet, healthy, w0, listing, s.cals, b1, mirrored + CollectedCells(names, live, healthy[..i], owned))
      invariant exact ==> AsPlanned(e.dry, b, b1, asked, PlanCollection(healthy[..i], owned, names, live))
      invariant exact && steady ==> unchanged(s) && unchanged(s.journal`calls) && asked == []
    {
      ghost var cells := mirrored + CollectedCells(names, live, healthy[..i], owned);
      assert healthy[i] in healthy;
      CollectedCellsNext(names, live, healthy, owned, i);
      PlanCollectionNext(healthy, owned, names, live, i);
      if exact {
        NextAccount(e, healthy, w0, listing, reals, owned, live, i);
      }
      ghost var logged, before, more, called := s.log, b1, [], s.journal.calls;
      DropIntentsSuffice(healthy, owned, names, live, i);
      b1, more := CollectFrom(e, s, healthy[i], owned[healthy[i].name], healthy, live, b1, w0, listing, reals, cells,
                              allowed);
      SafeCompose(old(s.log), logged, s.log, allowed, allowed);
      if exact {
        PlannedThen(e.dry, b, before, b1, asked, more, PlanCollection(healthy[..i], owned, names, live),
                    PlanRemovals(healthy[i].name, owned[healthy[i].name], names, live));
      }
      if exact && s.faults == old(s.faults) {
        FlawlessThen(w0, b, before, b1, old(s.log), logged, s.log, asked, more);
      }
      AskedMore(WritesIn(old(s.journal.calls)), asked, more);
      AccountableThen(old(s.journal.calls), called, s.journal.calls, b.errs, before.errs, b1.errs);
      asked := asked + more;
      assert mirrored + CollectedCells(names, live, healthy[..i + 1], owned) ==
             cells + RemovalCells(names, live, healthy[i], owned[healthy[i].name]);
    }
    assert healthy[..|healthy|] == healthy;
  }

  lemma CollectCellIsTaken(e: Engine, healthy: seq<Account>, w0: World, listing: map<string, seq<GEvent>>,
                           reals: map<string, seq<GEvent>>, owned: map<string, seq<GEvent>>, live: set<string>,
                           dst: Account, id: string)
    requires Calm(e, healthy, w0, listing) && ReadyToCollect(healthy, listing, reals, owned, live) && dst in healthy
    requires id in w0[dst.name] && Collectable(e.cfg, Names(healthy), w0, w0[dst.name][id])
    ensures (dst.name, KeyOf(w0[dst.name][id]).value) in CollectedCells(Names(healthy), live, healthy, owned)
  {
    var evs := listing[dst.name];
    var i :| 0 <= i < |evs| && evs[i].id == id;
    ViewPreserves(w0[dst.name][id]);
    ClassesAreFilters(evs);
    assert evs[i] in evs && evs[i] in owned[dst.name];
    StaleIsCollectable(e, healthy, w0, listing, reals, dst.name, evs[i]);
    assert BlockKeyOf(evs[i]) == KeyOf(w0[dst.name][id]).value;
  }

  lemma TakenIsCollectCell(e: Engine, healthy: seq<Account>, w0: World, listing: map<string, seq<GEvent>>,
                           reals: map<string, seq<GEvent>>, owned: map<string, seq<GEvent>>, live: set<string>,
                           dst: Account, block: GEvent)
    requires Calm(e, healthy, w0, listing) && ReadyToCollect(healthy, listing, reals, owned, live) && dst in healthy
    requires block in owned[dst.name] && Stale(Names(healthy), live, block)
    ensures (dst.name, BlockKeyOf(block)) in CollectCells(e.cfg, Names(healthy), w0)
  {
    var i :| 0 <= i < |healthy| && healthy[i] == dst;
    BlocksAreListed(e, healthy, w0, listing, owned, i);
    StaleIsCollectable(e, healthy, w0, listing, reals, dst.name, block);
    BlockKey(e, w0, dst.name, block);
  }

  /** Phase 3 deals with exactly its cells. */
  lemma CollectedCellsAreCollectCells(e: Engine, healthy: seq<Account>, w0: World, listing: map<string, seq<GEvent>>,
                                      reals: map<string, seq<GEvent>>, owned: map<string, seq<GEvent>>,
                                      live: set<string>)
    requires Calm(e, healthy, w0, listing) && ReadyToCollect(healthy, listing, reals, owned, live)
    ensures CollectedCells(Names(healthy), live, healthy, owned) == CollectCells(e.cfg, Names(healthy), w0)
  {
    hide Calm, ReadyToCollect, Stale;
    forall c | c in CollectedCells(Names(healthy), live, healthy, owned)
      ensures c in CollectCells(e.cfg, Names(healthy), w0)
    {
      var a, x :| a in healthy && a.name in owned && x in owned[a.name] && Stale(Names(healthy), live, x)
                  && c == (a.name, BlockKeyOf(x));
      TakenIsCollectCell(e, healthy, w0, listing, reals, owned, live, a, x);
    }
    forall c | c in CollectCells(e.cfg, Names(healthy), w0)
      ensures c in CollectedCells(Names(healthy), live, healthy, owned)
    {
      var id :| id in w0[c.0] && Collectable(e.cfg, Names(healthy), w0, w0[c.0][id]) && c.1 == KeyOf(w0[c.0][id]).value;
      var dst :| dst in healthy && dst.name == c.0;
      CollectCellIsTaken(e, healthy, w0, listing, reals, owned, live, dst, id);
    }
  }
}
