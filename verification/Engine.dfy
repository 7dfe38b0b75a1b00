/**
 One synchronization pass over the accounts' clients.
 */
module Engine {
  import opened Basics
  import opened Events
  import opened Calendars
  import opened Retry
  import opened Server
  import opened WriteLog
  import opened Target
  import opened Plan
  import Bridge = ProviderClient

  function KeyOfSource(src: Account, ev: GEvent): Key {
    Key(src.name, ev.id)
  }

  datatype Outcome = Unchanged | Created | Updated

  /** What the engine is run with. */
  datatype Engine = Engine(cfg: Config, dry: bool, policy: Policy)

  /** What EnsureBlock does to the destination when nobody else writes: it
      issues the request the destination calls for, and the block under the key
      becomes the wanted one or, on a failure, possibly stays as it was. No
      index takes part. */
  ghost predicate Mirrored(dry: bool, title: string, src: Account, ev: GEvent, dst: string,
                           before: World, after: World, r: Result<Outcome, Err>, asked: Option<Request>)
    requires dst in before && dst in after
  {
    var k := KeyOfSource(src, ev);
    var request := RequestFor(title, src, ev, dst, before[dst]);
    var moved := request.Some? && after == before[dst := after[dst]]
                 && Touched(before[dst], after[dst], k, Some(Wanted(title, src, ev, before[dst])));
    && (dry ==> after == before && asked.None?)
    && (r.Err? ==> (after == before || moved) && (asked.None? || asked == request))
    && (r.Ok? ==>
          && r.value == (if request.None? then Unchanged
                         else if BlockAt(before[dst], k).None? then Created
                         else Updated)
          && (request.None? ==> after == before)
          && (!dry && request.Some? ==> moved)
          && (!dry ==> asked == request))
  }

  /** The sources EnsureBlock is used with. */
  ghost predicate Mirrorable(src: Account, ev: GEvent) {
    src.name != "" && src.calendarID != "" && ev.id != "" && NoBar(ev.id) && ev == View(ev)
  }

  /** What EnsureBlock's exact contract rests on: blocks are unique, and the
      index is right about every key but those in `stale`. */
  ghost predicate Nice(src: Account, ev: GEvent, dst: string, idx: Index, w: World, stale: set<Key>) {
    && UniqueWorld(w) && dst in w && IndexOk(idx, w[dst], stale)
    && Mirrorable(src, ev) && KeyOfSource(src, ev) !in stale
  }

  /** The index afterwards: right about the key too, unless the call failed. */
  ghost predicate IndexKept(idx: Index, src: Account, ev: GEvent, dst: string, w: World, stale: set<Key>, ok: bool)
    requires dst in w
  {
    IndexOk(idx, w[dst], if ok then stale else stale + {KeyOfSource(src, ev)})
  }

  /** The call is about the source on this destination. */
  predicate ForCell(c: Call, dst: string, k: Key) {
    match c
    case ListCall(_, _) => false
    case FindCall(acc, key, _) => acc == dst && key == k
    case WriteCall(Create(acc, block), _) => acc == dst && GoesBy(block, k)
    case WriteCall(Update(acc, _, block), _) => acc == dst && GoesBy(block, k)
    case WriteCall(Remove(_, _), _) => false
  }

  /** The calls made for the source on this destination: a lookup and a write at
      most, the outcome being that of the last one. */
  ghost predicate CallsFor(before: seq<Call>, after: seq<Call>, dst: string, k: Key, err: Option<Err>) {
    && before <= after && |after| <= |before| + 2
    && (forall i :: |before| <= i < |after| ==> ForCell(after[i], dst, k))
    && (forall i :: |before| <= i < |after| - 1 ==> after[i].err.None?)
    && (if before == after then err.None? else after[|after| - 1].err == err)
  }

  lemma LookedUp(before: seq<Call>, dst: string, k: Key, err: Option<Err>)
    ensures WritesIn(before + []) == WritesIn(before) && WritesIn(before + [FindCall(dst, k, err)]) == WritesIn(before)
    ensures CallsFor(before, before + [], dst, k, None)
    ensures CallsFor(before, before + [FindCall(dst, k, err)], dst, k, err)
  {
    OneMoreCall(before, FindCall(dst, k, err));
    assert before + [] == before;
  }

  lemma ThenWrote(before: seq<Call>, mid: seq<Call>, dst: string, k: Key, request: Request, err: Option<Err>)
    requires CallsFor(before, mid, dst, k, None) && |mid| <= |before| + 1
    requires ForCell(WriteCall(request, err), dst, k)
    ensures CallsFor(before, mid + [WriteCall(request, err)], dst, k, err)
    ensures WritesIn(mid + [WriteCall(request, err)]) == WritesIn(mid) + [request]
  {
    OneMoreCall(mid, WriteCall(request, err));
  }

  /** The block for a source, from the index or else from the service. */
  method Lookup(e: Engine, s: Server, src: Account, ev: GEvent, dst: Account, idx: Index, ghost stale: set<Key>)
    returns (found: Result<Option<GEvent>, Err>)
    requires s.Valid() && dst.name in s.cals && IndexSane(idx)
    modifies s, s.journal`calls
    ensures s.log == old(s.log) && s.writes == old(s.writes)
    ensures s.Valid() && Interlude(s.quiet, s.tame, old(s.cals), old(s.clock), s.cals, s.clock)
    ensures s.faults >= old(s.faults) && (found.Err? ==> s.faults > old(s.faults))
    ensures s.journal.calls == old(s.journal.calls) +
              if IndexKey(KeyOfSource(src, ev)) in idx then []
              else [FindCall(dst.name, KeyOfSource(src, ev), ErrOf(found))]
    ensures found.Ok? && found.value.Some? ==> GoesBy(found.value.value, KeyOfSource(src, ev))
    ensures found.Ok? && found.value.None? ==> IndexKey(KeyOfSource(src, ev)) !in idx
    // The index is a cache of the query, and a hit makes no call.
    ensures s.quiet && Nice(src, ev, dst.name, idx, old(s.cals), stale) && found.Ok? ==>
      found.value == Existing(old(s.cals)[dst.name], KeyOfSource(src, ev))
    ensures IndexKey(KeyOfSource(src, ev)) in idx ==>
      unchanged(s) && found == Ok(Some(idx[IndexKey(KeyOfSource(src, ev))]))
  {
    hide *;
    WorldIsOk(s);
    var k := KeyOfSource(src, ev);
    ghost var nice := s.quiet && Nice(src, ev, dst.name, idx, s.cals, stale);
    InterludeNothing(s.quiet, s.tame, s.cals, s.clock);
    if nice {
      NiceMeans(src, ev, dst.name, idx, s.cals, stale);
    }
    if IndexKey(k) in idx {
      IndexNames(idx, k);
      found := Ok(Some(idx[IndexKey(k)]));
      if nice {
        IndexYieldsExisting(s.cals[dst.name], idx, stale, k);
      }
      return;
    }
    found := Bridge.FindBlockBySource(s, e.policy, dst.name, k);
    InterludeKeysSame(s.quiet, s.tame, old(s.cals), old(s.clock), s.cals, s.clock);
    if found.Ok? {
      FoundNames(s.cals[dst.name], k, found.value);
      if nice {
        LookupYieldsExisting(s.cals[dst.name], k, found.value);
      }
    }
  }

  /** The index has an entry for the source that passes the write gate. */
  predicate Writable(idx: Index, src: Account, ev: GEvent) {
    && IndexKey(KeyOfSource(src, ev)) in idx
    && ValidForWrite(OwnershipFromGoogle(idx[IndexKey(KeyOfSource(src, ev))]))
  }

  /** One block of the source that the index entry names gets the span and title. */
  ghost predicate MovesIndexed(before: World, after: World, dst: string, idx: Index, src: Account, ev: GEvent,
                               title: string)
    requires dst in before && IndexKey(KeyOfSource(src, ev)) in idx
  {
    Bridge.Provider.MovesOne(before, after, dst,
                             Bridge.Provider.KeyFor(OwnershipFromGoogle(idx[IndexKey(KeyOfSource(src, ev))])), title,
                             SpanFromGoogle(ev.start), SpanFromGoogle(ev.end))
  }

  /** Makes the destination carry the block mirroring a source event. `now` is
      the destination's index afterwards. */
  method EnsureBlock(e: Engine, s: Server, src: Account, ev: GEvent, dst: Account, idx: Index, ghost stale: set<Key>)
    returns (r: Result<Outcome, Err>, now: Index, ghost asked: Option<Request>)
    requires s.Valid() && dst.name in s.cals && IndexSane(idx)
    modifies s, s.journal`calls
    ensures s.Valid() && s.cals.Keys == old(s.cals.Keys)
    ensures idx.Keys <= now.Keys && IndexSane(now)
    ensures WritesIn(s.journal.calls) == WritesIn(old(s.journal.calls)) + AsSeq(asked)
    // An error is that of a call made for this source and destination.
    ensures CallsFor(old(s.journal.calls), s.journal.calls, dst.name, KeyOfSource(src, ev), ErrOf(r))
    // Whoever writes: what is written is meant for this source.
    ensures SafeSince(old(s.log), s.log, MirrorIntents(e.cfg.title, src, ev, dst.name))
    ensures s.faults >= old(s.faults)
    ensures e.dry ==> s.log == old(s.log) && s.writes == old(s.writes) && asked.None?
    ensures s.tame && UniqueWorld(old(s.cals)) ==> UniqueWorld(s.cals)
    ensures s.quiet && Nice(src, ev, dst.name, idx, old(s.cals), stale) ==>
      && UniqueWorld(s.cals)
      && Mirrored(e.dry, e.cfg.title, src, ev, dst.name, old(s.cals), s.cals, r, asked)
      && IndexKept(now, src, ev, dst.name, s.cals, stale, r.Ok?)
      && (r.Err? ==> s.faults > old(s.faults))
      && (s.faults == old(s.faults) ==> LogFollows(old(s.cals), old(s.log), s.log, AsSeq(asked)))
    // Blocks unique or not: what the index holds decides, and whatever block of
    // its source the provider finds is the one updated.
    ensures (s.quiet && s.faults == old(s.faults) && !e.dry && Writable(idx, src, ev)
             && !UpToDate(e.cfg.title, idx[IndexKey(KeyOfSource(src, ev))], ev))
            ==> r == Ok(Updated) && MovesIndexed(old(s.cals), s.cals, dst.name, idx, src, ev, e.cfg.title)
    // Settled and indexed: not even a lookup.
    ensures (s.quiet && Nice(src, ev, dst.name, idx, old(s.cals), stale)
             && RequestFor(e.cfg.title, src, ev, dst.name, old(s.cals)[dst.name]).None?
             && IndexKey(KeyOfSource(src, ev)) in idx)
            ==> unchanged(s) && unchanged(s.journal`calls) && r == Ok(Unchanged) && asked.None?
  {
    hide *;
    now, asked := idx, None;
    WorldIsOk(s);
    SafeNothing(s.log, MirrorIntents(e.cfg.title, src, ev, dst.name));
    AskedNothing(WritesIn(s.journal.calls));
    FollowsNothing(s.cals, s.log);
    WritableMeans(idx, src, ev);
    ghost var nice := s.quiet && Nice(src, ev, dst.name, idx, s.cals, stale);
    var k := KeyOfSource(src, ev);
    var found := Lookup(e, s, src, ev, dst, idx, stale);
    ErrOfMeans(found);
    LookedUp(old(s.journal.calls), dst.name, k, if found.Ok? then None else Some(found.error));
    ghost var looked := s.journal.calls;
    InterludeKeeps(s.quiet, s.tame, old(s.cals), old(s.clock), s.cals, s.clock);
    InterludeKeysSame(s.quiet, s.tame, old(s.cals), old(s.clock), s.cals, s.clock);
    if nice {
      NiceMeans(src, ev, dst.name, idx, s.cals, stale);
    }
    if found.Err? {
      r := Err(found.error);
      ErrOfMeans(r);
      if nice {
        FailedLookup(e.dry, e.cfg.title, src, ev, dst.name, idx, s.cals, stale, found.error);
      }
      return;
    }
    var existing := found.value;
    if nice {
      WithoutWriting(e.dry, e.cfg.title, src, ev, dst.name, idx, s.cals, stale, existing);
    }
    if existing.Some? {
      if UpToDate(e.cfg.title, existing.value, ev) {
        r := Ok(Unchanged);
        ErrOfMeans(r);
      } else if e.dry {
        r := Ok(Updated);
        ErrOfMeans(r);
      } else {
        r, now, asked := UpdateExisting(e, s, src, ev, dst, idx, existing.value, stale);
        ErrOfMeans(r);
        AskedOne(asked.value);
        ThenWrote(old(s.journal.calls), looked, dst.name, k, asked.value, ErrOf(r));
        if IndexKey(k) in idx {
          MovingIndexed(old(s.cals), s.cals, dst.name, idx, src, ev, e.cfg.title);
        }
      }
    } else if e.dry {
      r := Ok(Created);
      ErrOfMeans(r);
    } else {
      r, now, asked := CreateNew(e, s, src, ev, dst, idx, stale);
      ErrOfMeans(r);
      AskedOne(asked.value);
      ThenWrote(old(s.journal.calls), looked, dst.name, k, asked.value, ErrOf(r));
      if nice {
        StillKept(now, src, ev, dst.name, s.cals, stale);
      }
    }
  }

  lemma WritableMeans(idx: Index, src: Account, ev: GEvent)
    ensures Writable(idx, src, ev) <==>
            (IndexKey(KeyOfSource(src, ev)) in idx
             && ValidForWrite(OwnershipFromGoogle(idx[IndexKey(KeyOfSource(src, ev))])))
  {
  }

  lemma MovingIndexed(before: World, after: World, dst: string, idx: Index, src: Account, ev: GEvent, title: string)
    requires dst in before && IndexKey(KeyOfSource(src, ev)) in idx
    ensures Bridge.MovesToward(before, after, dst, UpdatePayload(title, idx[IndexKey(KeyOfSource(src, ev))], ev)) <==>
            MovesIndexed(before, after, dst, idx, src, ev, title)
  {
    hide Bridge.Provider.MovesOne;
    PayloadIs(title, idx[IndexKey(KeyOfSource(src, ev))], ev, KeyOfSource(src, ev));
  }

  lemma AskedNothing(requests: seq<Request>)
    ensures AsSeq(None) == [] && requests + AsSeq(None) == requests
  {
  }

  lemma AskedOne(x: Request)
    ensures AsSeq(Some(x)) == [x]
  {
  }

  lemma NiceMeans(src: Account, ev: GEvent, dst: string, idx: Index, w: World, stale: set<Key>)
    requires Nice(src, ev, dst, idx, w, stale)
    ensures UniqueWorld(w) && dst in w && Unique(w[dst]) && IndexOk(idx, w[dst], stale)
    ensures NoBar(KeyOfSource(src, ev).ev) && KeyOfSource(src, ev) !in stale
  {
  }

  lemma StillKept(idx: Index, src: Account, ev: GEvent, dst: string, w: World, stale: set<Key>)
    requires dst in w && IndexKept(idx, src, ev, dst, w, stale, true)
    ensures IndexKept(idx, src, ev, dst, w, stale, false)
  {
  }

  lemma FailedLookup(dry: bool, title: string, src: Account, ev: GEvent, dst: string, idx: Index, w: World,
                     stale: set<Key>, err: Err)
    requires Nice(src, ev, dst, idx, w, stale)
    ensures Mirrored(dry, title, src, ev, dst, w, w, Err(err), None)
    ensures IndexKept(idx, src, ev, dst, w, stale, false)
  {
  }

  /** Answers that write nothing, for what is there. */
  lemma WithoutWriting(dry: bool, title: string, src: Account, ev: GEvent, dst: string, idx: Index, w: World,
                       stale: set<Key>, existing: Option<GEvent>)
    requires Nice(src, ev, dst, idx, w, stale) && existing == Existing(w[dst], KeyOfSource(src, ev))
    ensures IndexKept(idx, src, ev, dst, w, stale, true)
    ensures existing.None? <==> NoBlock(w[dst], KeyOfSource(src, ev))
    ensures RequestFor(title, src, ev, dst, w[dst]).None? <==> existing.Some? && UpToDate(title, existing.value, ev)
    ensures existing.Some? && UpToDate(title, existing.value, ev) ==>
      Mirrored(dry, title, src, ev, dst, w, w, Ok(Unchanged), None)
    ensures dry && existing.Some? && !UpToDate(title, existing.value, ev) ==>
      Mirrored(dry, title, src, ev, dst, w, w, Ok(Updated), None)
    ensures dry && existing.None? ==> Mirrored(dry, title, src, ev, dst, w, w, Ok(Created), None)
  {
  }

  /** The block goes by an index key. */
  predicate GoesBy(block: GEvent, k: Key) {
    IndexKey(Bridge.Provider.KeyFor(OwnershipFromGoogle(block))) == IndexKey(k)
  }

  lemma IndexNames(idx: Index, k: Key)
    requires IndexSane(idx) && IndexKey(k) in idx
    ensures GoesBy(idx[IndexKey(k)], k)
  {
  }

  lemma FoundNames(cal: Calendar, k: Key, found: Option<GEvent>)
    requires Bridge.FoundView(cal, k, found)
    ensures found.Some? ==> GoesBy(found.value, k)
  {
    if found.Some? {
      ViewPreserves(cal[found.value.id]);
      WriteGateIsCollectable(found.value);
    }
  }

  lemma IndexStaysSane(idx: Index, k: Key, block: GEvent)
    requires IndexSane(idx) && GoesBy(block, k)
    ensures IndexSane(idx[IndexKey(k) := block])
  {
  }

  lemma UpdateIsMeant(title: string, src: Account, ev: GEvent, dst: string, payload: GEvent)
    requires GoesBy(payload, KeyOfSource(src, ev)) && payload.summary == title
    requires payload.start == ev.start && payload.end == ev.end
    ensures iset{Bridge.Retiming(dst, payload)} <= MirrorIntents(title, src, ev, dst)
  {
  }

  lemma InsertIsMeant(title: string, src: Account, ev: GEvent, dst: string)
    ensures iset{Making(dst, Bridge.BlockFor(InsertPayload(title, src, ev)))} <= MirrorIntents(title, src, ev, dst)
  {
  }

  /** The update half: the block is replaced by a copy with the source's span
      and the title, and the index follows only on success. */
  method UpdateExisting(e: Engine, s: Server, src: Account, ev: GEvent, dst: Account, idx: Index, existing: GEvent,
                        ghost stale: set<Key>)
    returns (r: Result<Outcome, Err>, now: Index, ghost asked: Option<Request>)
    requires s.Valid() && dst.name in s.cals && IndexSane(idx) && GoesBy(existing, KeyOfSource(src, ev))
    modifies s, s.journal`calls
    ensures s.Valid() && s.cals.Keys == old(s.cals.Keys)
    ensures idx.Keys <= now.Keys && IndexSane(now)
    ensures asked.Some? && ForCell(WriteCall(asked.value, ErrOf(r)), dst.name, KeyOfSource(src, ev))
    ensures s.journal.calls == old(s.journal.calls) + [WriteCall(asked.value, ErrOf(r))]
    ensures SafeSince(old(s.log), s.log, MirrorIntents(e.cfg.title, src, ev, dst.name))
    ensures s.faults >= old(s.faults)
    ensures s.tame && UniqueWorld(old(s.cals)) ==> UniqueWorld(s.cals)
    ensures s.quiet && s.faults == old(s.faults) && ValidForWrite(OwnershipFromGoogle(existing)) ==>
      r == Ok(Updated)
      && Bridge.MovesToward(old(s.cals), s.cals, dst.name, UpdatePayload(e.cfg.title, existing, ev))
    ensures (s.quiet && Nice(src, ev, dst.name, idx, old(s.cals), stale)
             && Existing(old(s.cals)[dst.name], KeyOfSource(src, ev)) == Some(existing)
             && !UpToDate(e.cfg.title, existing, ev)) ==>
      && UniqueWorld(s.cals)
      && Mirrored(false, e.cfg.title, src, ev, dst.name, old(s.cals), s.cals, r, asked)
      && IndexKept(now, src, ev, dst.name, s.cals, stale, r.Ok?)
      && (r.Err? ==> s.faults > old(s.faults))
      && (s.faults == old(s.faults) ==> LogFollows(old(s.cals), old(s.log), s.log, AsSeq(asked)))
  {
    hide *;
    WorldIsOk(s);
    SafeNothing(s.log, MirrorIntents(e.cfg.title, src, ev, dst.name));
    now := idx;
    var k := KeyOfSource(src, ev);
    var payload := UpdatePayload(e.cfg.title, existing, ev);
    asked := Some(Update(dst.name, existing.id, payload));
    ghost var nice := s.quiet && Nice(src, ev, dst.name, idx, s.cals, stale)
                      && Existing(s.cals[dst.name], k) == Some(existing) && !UpToDate(e.cfg.title, existing, ev);
    AskedOne(asked.value);
    PayloadIs(e.cfg.title, existing, ev, k);
    UpdateIsMeant(e.cfg.title, src, ev, dst.name, payload);
    if nice {
      NiceMeans(src, ev, dst.name, idx, s.cals, stale);
      PayloadNamesTheBlock(e.cfg.title, src, ev, s.cals, dst.name, s.clock, existing);
    }
    ghost var made;
    var result;
    result, made := Bridge.UpdateEvent(s, e.policy, dst.name, existing.id, payload, existing.etag);
    SafeWiden(old(s.log), s.log, iset{Bridge.Retiming(dst.name, payload)},
              MirrorIntents(e.cfg.title, src, ev, dst.name));
    if nice {
      ErrOfMeans(result);
      AfterUpdating(e.cfg.title, src, ev, dst.name, existing, old(s.cals), s.cals, made, idx, stale, ErrOf(result));
      if s.faults == old(s.faults) {
        UpdateFollows(e.cfg.title, src, ev, dst.name, existing, old(s.cals), s.cals, made, old(s.log));
      }
    }
    ErrOfMeans(result);
    UpdateForCell(dst.name, existing.id, payload, k, ErrOf(result));
    if result.Err? {
      r := Err(result.error);
      ErrOfMeans(r);
      return;
    }
    var block := if result.value.None? then payload else result.value.value;
    StillNames(payload, block, k);
    IndexStaysSane(idx, k, block);
    now := idx[IndexKey(k) := block];
    r := Ok(Updated);
    ErrOfMeans(r);
  }

  lemma UpdateForCell(dst: string, id: string, block: GEvent, k: Key, err: Option<Err>)
    requires GoesBy(block, k)
    ensures ForCell(WriteCall(Update(dst, id, block), err), dst, k)
  {
  }

  lemma CreateForCell(dst: string, block: GEvent, k: Key, err: Option<Err>)
    requires GoesBy(block, k)
    ensures ForCell(WriteCall(Create(dst, block), err), dst, k)
  {
  }

  lemma PayloadIs(title: string, existing: GEvent, ev: GEvent, k: Key)
    ensures var payload := UpdatePayload(title, existing, ev);
      && payload.summary == title && payload.start == ev.start && payload.end == ev.end
      && (GoesBy(existing, k) ==> GoesBy(payload, k))
      && OwnershipFromGoogle(payload) == OwnershipFromGoogle(existing)
  {
  }

  lemma StillNames(payload: GEvent, block: GEvent, k: Key)
    requires GoesBy(payload, k) && (block == payload || Bridge.SameSource(block, payload))
    ensures GoesBy(block, k)
  {
  }

  lemma PayloadNamesTheBlock(title: string, src: Account, ev: GEvent, w: World, dst: string, clock: nat,
                             existing: GEvent)
    requires WorldOk(w, clock) && dst in w && Existing(w[dst], KeyOfSource(src, ev)) == Some(existing)
    ensures KeyOf(UpdatePayload(title, existing, ev)) == Some(KeyOfSource(src, ev))
    ensures ValidForWrite(OwnershipFromGoogle(UpdatePayload(title, existing, ev)))
    ensures BlockAt(w[dst], KeyOfSource(src, ev)).Some? && BlockAt(w[dst], KeyOfSource(src, ev)).value.id == existing.id
    ensures Holds(w[dst], existing.id, KeyOfSource(src, ev)) && w[dst][existing.id].id == existing.id
    ensures UpdatePayload(title, existing, ev).summary == title
  {
    assert StoredWell(w[dst], clock);
    var b := BlockAt(w[dst], KeyOfSource(src, ev)).value;
    ViewPreserves(b);
    var id :| Holds(w[dst], id, KeyOfSource(src, ev)) && w[dst][id] == b;
  }

  /** The call's answer, given what it left behind. */
  lemma AfterUpdating(title: string, src: Account, ev: GEvent, dst: string, existing: GEvent, before: World,
                      after: World,
                      made: Option<GEvent>, idx: Index, stale: set<Key>, err: Option<Err>)
    requires Nice(src, ev, dst, idx, before, stale) && !UpToDate(title, existing, ev)
    requires Existing(before[dst], KeyOfSource(src, ev)) == Some(existing)
    requires Holds(before[dst], existing.id, KeyOfSource(src, ev)) && before[dst][existing.id].id == existing.id
    requires BlockAt(before[dst], KeyOfSource(src, ev)).Some?
    requires BlockAt(before[dst], KeyOfSource(src, ev)).value.id == existing.id
    requires Bridge.Provider.Rewritten(before, after, dst, BlockAt(before[dst], KeyOfSource(src, ev)).value, title,
               SpanFromGoogle(ev.start), SpanFromGoogle(ev.end), made)
    requires err.None? ==> made.Some?
    ensures UniqueWorld(after) && after.Keys == before.Keys
    ensures Mirrored(false, title, src, ev, dst, before, after, if err.Some? then Err(err.value) else Ok(Updated),
                     Some(Update(dst, existing.id, UpdatePayload(title, existing, ev))))
    ensures err.Some? ==> IndexKept(idx, src, ev, dst, after, stale, false)
    ensures err.None? ==>
      IndexKept(idx[IndexKey(KeyOfSource(src, ev)) := View(made.value)], src, ev, dst, after, stale, true)
  {
    var k := KeyOfSource(src, ev);
    BlockIs(before[dst], existing.id, k);
    if made.Some? {
      ViewPreserves(ev);
      MovingKeepsKey(before[dst][existing.id], made.value);
      ReplaceTouches(before[dst], made.value, k);
      IndexFollows(idx, before[dst], after[dst], k, Some(Strip(made.value)), stale);
    }
  }

  lemma UpdateFollows(title: string, src: Account, ev: GEvent, dst: string, existing: GEvent, before: World,
                      after: World, made: Option<GEvent>, log: seq<Applied>)
    requires dst in before && Unique(before[dst]) && made.Some?
    requires Holds(before[dst], existing.id, KeyOfSource(src, ev)) && before[dst][existing.id].id == existing.id
    requires KeyOf(UpdatePayload(title, existing, ev)) == Some(KeyOfSource(src, ev))
    requires BlockAt(before[dst], KeyOfSource(src, ev)).Some?
    requires Bridge.Provider.Rewritten(before, after, dst, BlockAt(before[dst], KeyOfSource(src, ev)).value, title,
               SpanFromGoogle(ev.start), SpanFromGoogle(ev.end), made)
    ensures LogFollows(before, log, log + Entry(dst, BlockAt(before[dst], KeyOfSource(src, ev)), made),
                       [Update(dst, existing.id, UpdatePayload(title, existing, ev))])
  {
    BlockIs(before[dst], existing.id, KeyOfSource(src, ev));
    FollowsOne(before, log, Applied(dst, Some(before[dst][existing.id]), made),
               Update(dst, existing.id, UpdatePayload(title, existing, ev)));
  }

  lemma PayloadKey(title: string, src: Account, ev: GEvent)
    ensures GoesBy(InsertPayload(title, src, ev), KeyOfSource(src, ev))
    ensures src.name != "" && src.calendarID != "" && ev.id != "" ==>
      ValidForWrite(OwnershipFromGoogle(InsertPayload(title, src, ev)))
  {
  }

  /** The insert half. Only the span crosses the account boundary. */
  method CreateNew(e: Engine, s: Server, src: Account, ev: GEvent, dst: Account, idx: Index, ghost stale: set<Key>)
    returns (r: Result<Outcome, Err>, now: Index, ghost asked: Option<Request>)
    requires s.Valid() && dst.name in s.cals && IndexSane(idx)
    modifies s, s.journal`calls
    ensures s.Valid() && s.cals.Keys == old(s.cals.Keys)
    ensures idx.Keys <= now.Keys && IndexSane(now)
    ensures asked.Some? && ForCell(WriteCall(asked.value, ErrOf(r)), dst.name, KeyOfSource(src, ev))
    ensures s.journal.calls == old(s.journal.calls) + [WriteCall(asked.value, ErrOf(r))]
    ensures SafeSince(old(s.log), s.log, MirrorIntents(e.cfg.title, src, ev, dst.name))
    ensures s.faults >= old(s.faults)
    ensures s.tame && UniqueWorld(old(s.cals)) ==> UniqueWorld(s.cals)
    ensures (s.quiet && Nice(src, ev, dst.name, idx, old(s.cals), stale)
             && NoBlock(old(s.cals)[dst.name], KeyOfSource(src, ev))
             && IndexKey(KeyOfSource(src, ev)) !in idx) ==>
      && UniqueWorld(s.cals)
      && Mirrored(false, e.cfg.title, src, ev, dst.name, old(s.cals), s.cals, r, asked)
      && IndexKept(now, src, ev, dst.name, s.cals, stale, true)
      && (r.Err? ==> s.faults > old(s.faults))
      && (s.faults == old(s.faults) ==> LogFollows(old(s.cals), old(s.log), s.log, AsSeq(asked)))
  {
    hide *;
    SafeNothing(s.log, MirrorIntents(e.cfg.title, src, ev, dst.name));
    now := idx;
    var k := KeyOfSource(src, ev);
    var block := InsertPayload(e.cfg.title, src, ev);
    asked := Some(Create(dst.name, block));
    AskedOne(asked.value);
    PayloadKey(e.cfg.title, src, ev);
    ghost var nice := s.quiet && Nice(src, ev, dst.name, idx, s.cals, stale)
                      && NoBlock(s.cals[dst.name], k) && IndexKey(k) !in idx;
    if nice {
      NewPayloadOk(e.cfg.title, src, ev, dst.name, idx, s.cals, stale);
    }
    ghost var made;
    var created;
    InsertIsMeant(e.cfg.title, src, ev, dst.name);
    created, made := Bridge.InsertEvent(s, e.policy, dst.name, block);
    SafeWiden(old(s.log), s.log, iset{Making(dst.name, Bridge.BlockFor(block))},
              MirrorIntents(e.cfg.title, src, ev, dst.name));
    if nice {
      ErrOfMeans(created);
      AfterCreating(e.cfg.title, src, ev, dst.name, old(s.cals), s.cals, made, idx, stale, ErrOf(created));
      if s.faults == old(s.faults) {
        CreateFollows(block, dst.name, old(s.cals), s.cals, made, old(s.log));
      }
    }
    ErrOfMeans(created);
    CreateForCell(dst.name, block, k, ErrOf(created));
    if created.Err? {
      r := Err(created.error);
      ErrOfMeans(r);
      return;
    }
    StillNames(block, created.value, k);
    IndexStaysSane(idx, k, created.value);
    now := idx[IndexKey(k) := created.value];
    r := Ok(Created);
    ErrOfMeans(r);
  }

  lemma CreateFollows(block: GEvent, dst: string, before: World, after: World, made: Option<GEvent>,
                      log: seq<Applied>)
    requires dst in before && made.Some?
    requires Bridge.Provider.Retrying.Stored(before, after, dst, Bridge.BlockFor(block), made)
    ensures LogFollows(before, log, log + Entry(dst, None, made), [Create(dst, block)])
  {
    FollowsOne(before, log, Applied(dst, None, made), Create(dst, block));
  }

  lemma NewPayloadOk(title: string, src: Account, ev: GEvent, dst: string, idx: Index, w: World, stale: set<Key>)
    requires Nice(src, ev, dst, idx, w, stale)
    ensures KeyOf(InsertPayload(title, src, ev)) == Some(KeyOfSource(src, ev))
    ensures ValidForWrite(OwnershipFromGoogle(InsertPayload(title, src, ev)))
  {
    PayloadHasKey(title, src, ev);
    WriteGateIsCollectable(InsertPayload(title, src, ev));
  }

  lemma AfterCreating(title: string, src: Account, ev: GEvent, dst: string, before: World, after: World,
                      made: Option<GEvent>, idx: Index, stale: set<Key>, err: Option<Err>)
    requires Nice(src, ev, dst, idx, before, stale)
    requires NoBlock(before[dst], KeyOfSource(src, ev)) && IndexKey(KeyOfSource(src, ev)) !in idx
    requires Bridge.Provider.Retrying.Stored(before, after, dst, Bridge.BlockFor(InsertPayload(title, src, ev)), made)
    requires err.None? ==> made.Some?
    ensures UniqueWorld(after) && after.Keys == before.Keys
    ensures Mirrored(false, title, src, ev, dst, before, after, if err.Some? then Err(err.value) else Ok(Created),
                     Some(Create(dst, InsertPayload(title, src, ev))))
    ensures IndexKept(idx, src, ev, dst, after, stale, true)
    ensures err.None? ==>
      IndexKept(idx[IndexKey(KeyOfSource(src, ev)) := View(made.value)], src, ev, dst, after, stale, true)
  {
    var k := KeyOfSource(src, ev);
    if made.Some? {
      NoRequestIffWanted(title, src, ev, dst, before[dst]);
      var block := Bridge.BlockFor(InsertPayload(title, src, ev));
      KeyIgnoresVersion(block, made.value.id, made.value.etag);
      InsertTouches(before[dst], made.value, k);
      IndexFollows(idx, before[dst], after[dst], k, Some(Strip(made.value)), stale);
    }
  }
}
