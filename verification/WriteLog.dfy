/**
 The log of the writes the service applied: what each one did, which intents
 cover it, and what the log says about the calendars.
 */
module WriteLog {
  import opened Basics
  import opened Events
  import opened Calendars

  /** A write the service applied for this program. */
  datatype Applied = Applied(acc: string, before: Option<GEvent>, after: Option<GEvent>)

  /** A write the engine asks an account's client for. */
  datatype Request =
    | Create(dst: string, block: GEvent)
    | Update(dst: string, id: string, block: GEvent)
    | Remove(dst: string, id: string)

  /** The log entry of a write that stored `made`, if it did. */
  function Entry(acc: string, before: Option<GEvent>, made: Option<GEvent>): seq<Applied> {
    if made.None? then [] else [Applied(acc, before, made)]
  }

  /** The same write, up to the identifier and version the service gave. */
  predicate SameWrite(x: Applied, y: Applied) {
    && x.acc == y.acc && x.before == y.before
    && (x.after.None? <==> y.after.None?)
    && (x.after.Some? && y.after.Some? ==>
          x.after.value == y.after.value.(id := x.after.value.id, etag := x.after.value.etag))
  }

  predicate SameWrites(a: seq<Applied>, b: seq<Applied>) {
    |a| == |b| && forall n :: 0 <= n < |a| ==> SameWrite(a[n], b[n])
  }

  /** One key on one account's calendar. */
  type Cell = (string, Key)

  function BlockKeys(cal: Calendar): set<Key> {
    set id | id in cal && KeyOf(cal[id]).Some? :: KeyOf(cal[id]).value
  }

  /** The key a write put on the account's calendar, beyond the one it replaced. */
  function Brought(x: Applied, a: string): set<Key> {
    if x.acc == a && x.after.Some? && KeyOf(x.after.value).Some?
       && (x.before.None? || KeyOf(x.before.value) != KeyOf(x.after.value))
    then {KeyOf(x.after.value).value}
    else {}
  }

  /** The keys an account's calendar started with or was written. */
  function Reached(first: World, log: seq<Applied>, a: string): set<Key> {
    if log == [] then if a in first then BlockKeys(first[a]) else {}
    else Reached(first, log[..|log| - 1], a) + Brought(log[|log| - 1], a)
  }

  /** Every block on a calendar was there at first or came with a logged write. */
  ghost predicate Traced(first: World, log: seq<Applied>, cals: World) {
    forall a :: a in cals ==> BlockKeys(cals[a]) <= Reached(first, log, a)
  }

  lemma TracedAcross(first: World, log: seq<Applied>, w0: World, w1: World)
    requires Traced(first, log, w0) && w0.Keys == w1.Keys && NoNewBlocks(w0, w1)
    ensures Traced(first, log, w1)
  {
    forall a | a in w1
      ensures BlockKeys(w1[a]) <= BlockKeys(w0[a])
    {
    }
  }

  lemma TracedAfter(first: World, log: seq<Applied>, w: World, x: Applied, after: World)
    requires Traced(first, log, w) && x.acc in w && x.acc in after && after == w[x.acc := after[x.acc]]
    requires x.before.Some? ==> x.before.value.id in w[x.acc] && w[x.acc][x.before.value.id] == x.before.value
    requires forall id :: id in after[x.acc] ==>
      (id in w[x.acc] && after[x.acc][id] == w[x.acc][id]) || Some(after[x.acc][id]) == x.after
    ensures Traced(first, log + [x], after)
  {
    forall a | a in after
      ensures BlockKeys(after[a]) <= Reached(first, log + [x], a)
    {
      assert (log + [x])[..|log|] == log;
      assert BlockKeys(w[a]) <= Reached(first, log, a);
    }
  }

  function Put(w: World, acc: string, ev: GEvent): (r: World)
    requires acc in w
    ensures r.Keys == w.Keys
  {
    w[acc := w[acc][ev.id := ev]]
  }

  lemma PutOk(w: World, t: nat, acc: string, ev: GEvent)
    requires WorldOk(w, t) && acc in w && ev.id != "" && ev.etag == t + 1
    ensures WorldOk(Put(w, acc, ev), t + 1)
  {
    forall a | a in w
      ensures StoredWell(Put(w, acc, ev)[a], t + 1)
    {
      assert StoredWell(w[a], t);
    }
  }

  /******* What the log did *******/

  /** The write meets the calendars as they are. */
  predicate Fits(w: World, x: Applied) {
    && x.acc in w
    && (x.before.Some? || x.after.Some?)
    && (x.before.Some? ==> x.before.value.id in w[x.acc] && w[x.acc][x.before.value.id] == x.before.value)
    && (x.before.Some? && x.after.Some? ==> x.after.value.id == x.before.value.id)
    && (x.before.None? && x.after.Some? ==> x.after.value.id !in w[x.acc])
  }

  function Stepped(w: World, x: Applied): World
    requires Fits(w, x)
  {
    if x.after.Some? then Put(w, x.acc, x.after.value) else w[x.acc := w[x.acc] - {x.before.value.id}]
  }

  /** The calendars after the writes, if each of them met the ones before it. */
  function Replay(first: World, log: seq<Applied>): Option<World> {
    if log == [] then Some(first)
    else
      var w := Replay(first, log[..|log| - 1]);
      if w.Some? && Fits(w.value, log[|log| - 1]) then Some(Stepped(w.value, log[|log| - 1])) else None
  }

  /** The writes met each other, and blocks are unique after them. */
  ghost predicate UniqueAfter(first: World, log: seq<Applied>) {
    Replay(first, log).Some? && UniqueWorld(Replay(first, log).value)
  }

  /** The books of the service: with nobody else creating blocks they are traced
      to the log, and with nobody else writing the log is all that happened. */
  ghost predicate Logged(quiet: bool, tame: bool, first: World, log: seq<Applied>, cals: World) {
    && (tame ==> Traced(first, log, cals))
    && (quiet ==> Replay(first, log) == Some(cals))
  }

  lemma LoggedAfter(quiet: bool, tame: bool, first: World, log: seq<Applied>, w: World, x: Applied)
    requires Logged(quiet, tame, first, log, w) && Fits(w, x)
    requires x.after.Some? ==> x.after.value.id != ""
    ensures Logged(quiet, tame, first, log + [x], Stepped(w, x))
  {
    assert (log + [x])[..|log|] == log;
    if tame {
      TracedAfter(first, log, w, x, Stepped(w, x));
    }
  }

  lemma StepOk(w: World, t: nat, x: Applied)
    requires WorldOk(w, t) && Fits(w, x)
    requires x.after.Some? ==> x.after.value.id != "" && x.after.value.etag == t + 1
    ensures WorldOk(Stepped(w, x), if x.after.Some? then t + 1 else t)
  {
    if x.after.Some? {
      PutOk(w, t, x.acc, x.after.value);
    } else {
      assert StoredWell(w[x.acc], t);
    }
  }

  /******* What was meant *******/

  /** A write somebody means to make, up to the identifier and version that the
      service gives: to create just this block, to give the block of a key this
      title and span and change nothing else of it, or to remove an event. */
  datatype Intent =
    | Making(acc: string, block: GEvent)
    | Moving(acc: string, key: Key, title: string, start: Option<Span>, end: Option<Span>)
    | Dropping(acc: string, id: string)

  /** The write carries out the intent. A removal is of an event owned at that step. */
  predicate Carries(x: Applied, i: Intent) {
    && x.acc == i.acc
    && match i
       case Making(_, block) =>
         x.before.None? && x.after.Some? && x.after.value == block.(id := x.after.value.id, etag := x.after.value.etag)
       case Moving(_, k, title, start, end) =>
         && x.before.Some? && x.after.Some? && KeyOf(x.before.value) == Some(k)
         && x.after.value == x.before.value.(start := start, end := end, summary := title, etag := x.after.value.etag)
       case Dropping(_, id) =>
         x.before.Some? && x.after.None? && x.before.value.id == id && IsOwned(x.before.value)
  }

  ghost predicate Meant(x: Applied, allowed: iset<Intent>) {
    exists i :: i in allowed && Carries(x, i)
  }

  /** The log only grew, by writes that were meant. */
  ghost predicate SafeSince(before: seq<Applied>, after: seq<Applied>, allowed: iset<Intent>)
    decreases |after|
  {
    || before == after
    || (&& after != []
        && Meant(after[|after| - 1], allowed)
        && SafeSince(before, after[..|after| - 1], allowed))
  }

  lemma SafeNothing(log: seq<Applied>, allowed: iset<Intent>)
    ensures SafeSince(log, log, allowed)
  {
  }

  lemma SafeAppend(before: seq<Applied>, after: seq<Applied>, x: Applied, i: Intent, allowed: iset<Intent>)
    requires SafeSince(before, after, allowed) && i in allowed && Carries(x, i)
    ensures SafeSince(before, after + [x], allowed)
  {
    assert (after + [x])[..|after|] == after;
  }

  lemma {:induction false} SafeCompose(l0: seq<Applied>, l1: seq<Applied>, l2: seq<Applied>,
                                       some: iset<Intent>, allowed: iset<Intent>)
    requires SafeSince(l0, l1, allowed) && SafeSince(l1, l2, some) && some <= allowed
    ensures SafeSince(l0, l2, allowed)
    decreases |l2|
  {
    if l1 != l2 {
      SafeCompose(l0, l1, l2[..|l2| - 1], some, allowed);
      var i :| i in some && Carries(l2[|l2| - 1], i);
      assert i in allowed;
    }
  }

  lemma SafeWiden(before: seq<Applied>, after: seq<Applied>, some: iset<Intent>, allowed: iset<Intent>)
    requires SafeSince(before, after, some) && some <= allowed
    ensures SafeSince(before, after, allowed)
  {
    SafeCompose(before, before, after, some, allowed);
  }

  /** Every entry past the old log was meant. */
  lemma {:induction false} SafeSinceMeans(before: seq<Applied>, after: seq<Applied>, allowed: iset<Intent>)
    requires SafeSince(before, after, allowed)
    ensures before <= after
    ensures forall n :: |before| <= n < |after| ==> Meant(after[n], allowed)
    decreases |after|
  {
    if before != after {
      SafeSinceMeans(before, after[..|after| - 1], allowed);
    }
  }

  ghost function KeysOn(cells: set<Cell>, a: string): set<Key> {
    set c | c in cells && c.0 == a :: c.1
  }

  /** The blocks that may be created are for the given cells. */
  ghost predicate BornIn(allowed: iset<Intent>, born: set<Cell>) {
    forall i :: i in allowed && i.Making? && KeyOf(i.block).Some? ==> (i.acc, KeyOf(i.block).value) in born
  }

  lemma CarriedKeys(x: Applied, i: Intent)
    requires Carries(x, i)
    ensures i.Making? ==> KeyOf(x.after.value) == KeyOf(i.block)
    ensures i.Moving? ==> KeyOf(x.after.value) == KeyOf(x.before.value) == Some(i.key)
  {
    match i
    case Making(_, block) => KeyIgnoresVersion(block, x.after.value.id, x.after.value.etag);
    case Moving(_, _, _, _, _) => MovingKeepsKey(x.before.value, x.after.value);
    case Dropping(_, _) =>
  }

  /** Meant writes bring an account no key beyond the cells created for it. */
  lemma {:induction false} SafeReach(first: World, before: seq<Applied>, after: seq<Applied>, allowed: iset<Intent>,
                                     born: set<Cell>, a: string)
    requires SafeSince(before, after, allowed) && BornIn(allowed, born)
    ensures Reached(first, after, a) <= Reached(first, before, a) + KeysOn(born, a)
    decreases |after|
  {
    if before != after {
      var x := after[|after| - 1];
      SafeReach(first, before, after[..|after| - 1], allowed, born, a);
      var i :| i in allowed && Carries(x, i);
      CarriedKeys(x, i);
      forall k | k in Brought(x, a)
        ensures k in KeysOn(born, a)
      {
        assert (a, k) in born;
      }
    }
  }
}
