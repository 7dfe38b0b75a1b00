/**
 Stored calendars, the blocks on them, and the two ways they change: by one
 keyed write, and by somebody else.
 */
module Calendars {
  import opened Basics
  import opened Events

  type Calendar = map<string, GEvent>

  /** One calendar for each account name. */
  type World = map<string, Calendar>

  predicate StoredWell(cal: Calendar, clock: nat) {
    forall id :: id in cal ==> cal[id].id == id && id != "" && 1 <= cal[id].etag <= clock
  }

  predicate WorldOk(w: World, clock: nat) {
    forall a :: a in w ==> StoredWell(w[a], clock)
  }

  /******* Blocks by key *******/

  predicate Holds(cal: Calendar, id: string, k: Key) {
    id in cal && KeyOf(cal[id]) == Some(k)
  }

  /** At most one owned block per source identity. */
  ghost predicate Unique(cal: Calendar) {
    forall i, j, k :: Holds(cal, i, k) && Holds(cal, j, k) ==> i == j
  }

  ghost predicate UniqueWorld(w: World) {
    forall a :: a in w ==> Unique(w[a])
  }

  ghost predicate NoBlock(cal: Calendar, k: Key) {
    forall id :: !Holds(cal, id, k)
  }

  /** The block for a key; the only one when the calendar is Unique. */
  ghost function BlockAt(cal: Calendar, k: Key): (r: Option<GEvent>)
    ensures r.None? <==> NoBlock(cal, k)
    ensures r.Some? ==> KeyOf(r.value) == Some(k)
  {
    if id :| Holds(cal, id, k) then Some(cal[id]) else None
  }

  /** A block up to its identifier and version, an empty endpoint being nil. */
  function Strip(ev: GEvent): GEvent {
    ev.(id := "", etag := 0, start := Norm(ev.start), end := Norm(ev.end))
  }

  ghost function At(cal: Calendar, k: Key): Option<GEvent> {
    if BlockAt(cal, k).Some? then Some(Strip(BlockAt(cal, k).value)) else None
  }

  predicate KeyIn(ev: GEvent, ks: set<Key>) {
    KeyOf(ev).Some? && KeyOf(ev).value in ks
  }

  /** The calendar without the blocks of the given keys. */
  function Outside(cal: Calendar, ks: set<Key>): Calendar {
    map id | id in cal && !KeyIn(cal[id], ks) :: cal[id]
  }

  /** `after` is `before` except that the block of `k` is now `t`. */
  ghost predicate Touched(before: Calendar, after: Calendar, k: Key, t: Option<GEvent>) {
    && Outside(after, {k}) == Outside(before, {k})
    && Unique(after)
    && At(after, k) == t
  }

  lemma BlockIs(cal: Calendar, id: string, k: Key)
    requires Unique(cal) && Holds(cal, id, k)
    ensures BlockAt(cal, k) == Some(cal[id])
  {
    assert !NoBlock(cal, k);
    var j :| Holds(cal, j, k) && BlockAt(cal, k) == Some(cal[j]);
  }

  /** Calendars equal outside some keys have the same block at every other key. */
  lemma SameElsewhere(a: Calendar, b: Calendar, ks: set<Key>, k: Key)
    requires Unique(a) && Unique(b) && Outside(a, ks) == Outside(b, ks) && k !in ks
    ensures BlockAt(a, k) == BlockAt(b, k) && At(a, k) == At(b, k)
  {
    forall id
      ensures Holds(a, id, k) <==> Holds(b, id, k)
      ensures Holds(a, id, k) ==> a[id] == b[id]
    {
      assert Holds(a, id, k) ==> id in Outside(a, ks) && Outside(b, ks)[id] == a[id];
      assert Holds(b, id, k) ==> id in Outside(b, ks) && Outside(a, ks)[id] == b[id];
    }
    if id :| Holds(a, id, k) {
      BlockIs(a, id, k);
      BlockIs(b, id, k);
    }
  }

  /******* The three keyed writes *******/

  lemma InsertTouches(cal: Calendar, ev: GEvent, k: Key)
    requires Unique(cal) && NoBlock(cal, k) && KeyOf(ev) == Some(k) && ev.id !in cal
    ensures Touched(cal, cal[ev.id := ev], k, Some(Strip(ev)))
    ensures BlockAt(cal[ev.id := ev], k) == Some(ev)
  {
    var after := cal[ev.id := ev];
    forall i, j, k' | Holds(after, i, k') && Holds(after, j, k')
      ensures i == j
    {
      assert i != ev.id ==> Holds(cal, i, k');
      assert j != ev.id ==> Holds(cal, j, k');
    }
    assert Outside(after, {k}) == Outside(cal, {k});
    BlockIs(after, ev.id, k);
  }

  lemma ReplaceTouches(cal: Calendar, ev: GEvent, k: Key)
    requires Unique(cal) && Holds(cal, ev.id, k) && KeyOf(ev) == Some(k)
    ensures Touched(cal, cal[ev.id := ev], k, Some(Strip(ev)))
    ensures BlockAt(cal[ev.id := ev], k) == Some(ev)
  {
    var after := cal[ev.id := ev];
    forall i, j, k' | Holds(after, i, k') && Holds(after, j, k')
      ensures i == j
    {
      assert Holds(cal, i, k') && Holds(cal, j, k');
    }
    assert Outside(after, {k}) == Outside(cal, {k});
    BlockIs(after, ev.id, k);
  }

  lemma RemoveTouches(cal: Calendar, id: string, k: Key)
    requires Unique(cal) && Holds(cal, id, k)
    ensures Touched(cal, cal - {id}, k, None)
  {
    var after := cal - {id};
    forall i, k' | Holds(after, i, k')
      ensures Holds(cal, i, k')
    {
    }
    assert Outside(after, {k}) == Outside(cal, {k});
    assert NoBlock(after, k);
  }

  /** `x` is `b` moved or retitled, and nothing else. */
  predicate Moves(b: GEvent, x: GEvent) {
    x == b.(start := x.start, end := x.end, summary := x.summary, etag := x.etag)
  }

  lemma MovingKeepsKey(b: GEvent, x: GEvent)
    requires Moves(b, x)
    ensures KeyOf(x) == KeyOf(b) && IsOwned(x) == IsOwned(b) && OwnershipFromGoogle(x) == OwnershipFromGoogle(b)
  {
  }

  /******* Other writers *******/

  /** Somebody else edited, added or removed events: every version that is new
      carries an ETag never issued before. */
  predicate Edited(before: World, t0: nat, after: World, t1: nat) {
    && before.Keys == after.Keys
    && t0 <= t1
    && forall a :: a in before ==> EditedCal(before[a], t0, after[a], t1)
  }

  predicate EditedCal(before: Calendar, t0: nat, after: Calendar, t1: nat) {
    forall id :: id in after ==>
      && after[id].id == id && id != ""
      && ((id in before && before[id] == after[id]) || t0 < after[id].etag <= t1)
  }

  /** Nobody else made a live owned block where there was none. */
  predicate NoNewBlocks(before: World, after: World)
    requires before.Keys == after.Keys
  {
    forall a :: a in before ==>
      forall id :: id in after[a] && KeyOf(after[a][id]).Some? ==>
        id in before[a] && KeyOf(before[a][id]) == KeyOf(after[a][id])
  }

  lemma EditsCompose(w0: World, t0: nat, w1: World, t1: nat, w2: World, t2: nat)
    requires Edited(w0, t0, w1, t1) && Edited(w1, t1, w2, t2)
    ensures Edited(w0, t0, w2, t2)
  {
    forall a | a in w0
      ensures EditedCal(w0[a], t0, w2[a], t2)
    {
      assert EditedCal(w0[a], t0, w1[a], t1) && EditedCal(w1[a], t1, w2[a], t2);
    }
  }

  lemma NoNewBlocksKeepUnique(before: World, after: World)
    requires before.Keys == after.Keys && NoNewBlocks(before, after) && UniqueWorld(before)
    ensures UniqueWorld(after)
    ensures forall a, k :: a in before && NoBlock(before[a], k) ==> NoBlock(after[a], k)
  {
    forall a, i, k | a in before && Holds(after[a], i, k)
      ensures Holds(before[a], i, k)
    {
    }
  }

  /** An event read earlier: its ETag still names exactly that version. */
  ghost predicate Knows(cal: Calendar, clock: nat, seen: GEvent) {
    && 1 <= seen.etag <= clock
    && (seen.id in cal && cal[seen.id].etag == seen.etag ==> cal[seen.id] == seen)
  }

  lemma KnowsStays(before: Calendar, t0: nat, after: Calendar, t1: nat, seen: GEvent)
    requires Knows(before, t0, seen) && EditedCal(before, t0, after, t1) && t0 <= t1
    ensures Knows(after, t1, seen)
  {
  }
}
