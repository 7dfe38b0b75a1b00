/**
 The retrying client: every call under the retry loop, an ambiguous insert
 reconciled by a lookup before it may be repeated, and "already gone" accepted
 on a repeated delete only.

 The loop of Retry.Run is written out once for each operation. The context's
 error is an arbitrary value each time it is looked at.
 */
module RetryingClient {
  import opened Basics
  import opened Events
  import opened Calendars
  import opened Retry
  import opened Server
  import opened WriteLog
  import Client

  /** The head of a turn: stops if the context is done. */
  method BeforeCall(s: Server, p: Policy, last: Option<Err>, ghost tries: seq<Option<Err>>) returns (stop: Option<Err>)
    requires Trying(tries, last) && |tries| < Attempts(p)
    modifies s`faults, s`halts
    ensures stop.None? ==> s.faults == old(s.faults) && s.halts == old(s.halts)
    ensures stop.Some? ==> s.faults > old(s.faults) && s.halts > old(s.halts) && Retried(p, tries, stop, true)
    ensures tries != [] ==> tries[|tries| - 1] == last && last.Some? && !IsGone(last.value)
  {
    var ctx := s.Context();
    StoppedBefore(p, tries, last, ctx);
    stop := StopBefore(last, ctx);
  }

  /** The tail of a turn whose call failed with `e`: stops if that is final, if
      no attempt is left, or if the context is done while waiting. */
  method AfterFailure(s: Server, p: Policy, e: Err, last: Option<Err>, ghost tries: seq<Option<Err>>, i: nat)
    returns (stop: Option<Err>, ghost now: seq<Option<Err>>)
    requires Trying(tries, last) && i == |tries| < Attempts(p)
    modifies s`faults, s`halts
    ensures s.faults >= old(s.faults) && s.halts >= old(s.halts)
    ensures now == tries + [Some(e)]
    ensures stop.Some? ==> Retried(p, now, stop, s.halts > old(s.halts))
    ensures stop.None? ==> s.halts == old(s.halts) && Trying(now, Some(e)) && i + 1 < Attempts(p) && IsTransient(e)
    ensures !IsTransient(e) ==> stop == Some(e)
  {
    now := tries + [Some(e)];
    var ctx := s.Context();
    CalledAgain(p, tries, last, Some(e), ctx);
    stop := StopAfter(p, i, e, ctx);
  }

  /** One more reply is one more try. */
  lemma OneMoreReply(before: seq<Option<Err>>, tries: seq<Option<Err>>, reply: Option<Err>)
    ensures before + tries + [reply] == before + (tries + [reply])
  {
  }

  lemma Succeeded<T>(p: Policy, tries: seq<Option<Err>>, last: Option<Err>, r: Result<T, Err>)
    returns (now: seq<Option<Err>>)
    requires Trying(tries, last) && |tries| < Attempts(p) && r.Ok?
    ensures now == tries + [None] && Retried(p, now, ErrOf(r), false) && Retried(p, now, None, false)
  {
    now := tries + [None];
    CalledAgain(p, tries, last, None, None);
  }

  method ListEvents(s: Server, p: Policy, acc: string, win: Window)
    returns (r: Result<seq<Option<GEvent>>, Err>, ghost tries: seq<Option<Err>>)
    requires s.Valid() && acc in s.cals
    modifies s, s.journal`listings
    ensures s.log == old(s.log) && s.writes == old(s.writes) && s.lookups == old(s.lookups)
    ensures s.faults >= old(s.faults) && (r.Err? ==> s.faults > old(s.faults))
    ensures s.Valid() && Interlude(s.quiet, s.tame, old(s.cals), old(s.clock), s.cals, s.clock)
    ensures r.Ok? ==> Lists(s.cals[acc], win, r.value)
    ensures old(s.journal.listings) <= s.journal.listings
    ensures r.Ok? ==> Shown(old(s.journal.listings), s.journal.listings, Listing(acc, win, s.cals[acc]))
    // The tries are the replies the service gave.
    ensures s.halts >= old(s.halts) && Retried(p, tries, ErrOf(r), s.halts > old(s.halts))
    ensures s.replies == old(s.replies) + tries
  {
    hide *;
    WorldIsOk(s);
    InterludeNothing(s.quiet, s.tame, s.cals, s.clock);
    var last: Option<Err> := None;
    var i: nat := 0;
    tries := [];
    TryingBegins(p);
    ghost var w0, t0 := s.cals, s.clock;
    while i < Attempts(p)
      invariant s.log == old(s.log) && s.writes == old(s.writes) && s.lookups == old(s.lookups)
      invariant old(s.journal.listings) <= s.journal.listings
      invariant s.cals.Keys == old(s.cals.Keys)
      invariant s.Valid() && Interlude(s.quiet, s.tame, w0, t0, s.cals, s.clock)
      invariant s.faults >= old(s.faults) + i
      invariant |tries| == i < Attempts(p) && Trying(tries, last) && s.halts == old(s.halts)
      invariant s.replies == old(s.replies) + tries
    {
      var stop := BeforeCall(s, p, last, tries);
      if stop.Some? {
        r := Err(stop.value);
        ErrOfMeans(r);
        return;
      }
      ghost var w, t, shown := s.cals, s.clock, s.journal.listings;
      r := Client.ListEvents(s, acc, win);
      InterludesCompose(s.quiet, s.tame, w0, t0, w, t, s.cals, s.clock);
      InterludeKeysSame(s.quiet, s.tame, w0, t0, s.cals, s.clock);
      GrowsOn(old(s.journal.listings), shown, s.journal.listings);
      if r.Ok? {
        ShownLater(old(s.journal.listings), shown, s.journal.listings, Listing(acc, win, s.cals[acc]));
      }
      ErrOfMeans(r);
      OneMoreReply(old(s.replies), tries, if r.Ok? then None else Some(r.error));
      if r.Ok? {
        tries := Succeeded(p, tries, last, r);
        return;
      }
      stop, tries := AfterFailure(s, p, r.error, last, tries, i);
      last := Some(r.error);
      if stop.Some? {
        r := Err(stop.value);
        ErrOfMeans(r);
        return;
      }
      i := i + 1;
    }
    assert false;
  }

  method FindBlockBySource(s: Server, p: Policy, acc: string, k: Key)
    returns (r: Result<Option<GEvent>, Err>, ghost tries: seq<Option<Err>>)
    requires s.Valid() && acc in s.cals
    modifies s
    ensures s.log == old(s.log) && s.writes == old(s.writes)
    ensures s.faults >= old(s.faults) && (r.Err? ==> s.faults > old(s.faults))
    ensures s.Valid() && Interlude(s.quiet, s.tame, old(s.cals), old(s.clock), s.cals, s.clock)
    ensures r.Ok? ==> Client.Found(s.cals[acc], k, r.value)
    // The tries are the replies the service gave.
    ensures s.halts >= old(s.halts) && Retried(p, tries, ErrOf(r), s.halts > old(s.halts))
    ensures s.replies == old(s.replies) + tries
    ensures s.faults == old(s.faults) ==> r.Ok? && tries == [None]
    ensures s.lookups == old(s.lookups) + |tries|
  {
    hide *;
    WorldIsOk(s);
    InterludeNothing(s.quiet, s.tame, s.cals, s.clock);
    var last: Option<Err> := None;
    var i: nat := 0;
    tries := [];
    TryingBegins(p);
    ghost var w0, t0 := s.cals, s.clock;
    while i < Attempts(p)
      invariant s.log == old(s.log) && s.writes == old(s.writes)
      invariant s.cals.Keys == old(s.cals.Keys)
      invariant s.Valid() && Interlude(s.quiet, s.tame, w0, t0, s.cals, s.clock)
      invariant s.faults >= old(s.faults) + i
      invariant |tries| == i < Attempts(p) && Trying(tries, last) && s.halts == old(s.halts)
      invariant s.replies == old(s.replies) + tries
      invariant s.lookups == old(s.lookups) + |tries|
    {
      var stop := BeforeCall(s, p, last, tries);
      if stop.Some? {
        r := Err(stop.value);
        ErrOfMeans(r);
        return;
      }
      ghost var w, t := s.cals, s.clock;
      r := Client.FindBlockBySource(s, acc, k);
      InterludesCompose(s.quiet, s.tame, w0, t0, w, t, s.cals, s.clock);
      InterludeKeysSame(s.quiet, s.tame, w0, t0, s.cals, s.clock);
      ErrOfMeans(r);
      OneMoreReply(old(s.replies), tries, if r.Ok? then None else Some(r.error));
      if r.Ok? {
        tries := Succeeded(p, tries, last, r);
        return;
      }
      stop, tries := AfterFailure(s, p, r.error, last, tries, i);
      last := Some(r.error);
      if stop.Some? {
        r := Err(stop.value);
        ErrOfMeans(r);
        return;
      }
      i := i + 1;
    }
    assert false;
  }

  method GetEvent(s: Server, p: Policy, acc: string, id: string)
    returns (r: Result<Option<GEvent>, Err>, ghost tries: seq<Option<Err>>)
    requires s.Valid() && acc in s.cals
    modifies s
    ensures s.log == old(s.log) && s.writes == old(s.writes) && s.lookups == old(s.lookups)
    ensures s.faults >= old(s.faults) && (r.Err? ==> s.faults > old(s.faults))
    ensures s.Valid() && Interlude(s.quiet, s.tame, old(s.cals), old(s.clock), s.cals, s.clock)
    ensures r.Ok? ==> r.value == if id in s.cals[acc] then Some(s.cals[acc][id]) else None
    // The tries are the replies the service gave.
    ensures s.halts >= old(s.halts) && Retried(p, tries, ErrOf(r), s.halts > old(s.halts))
    ensures s.replies == old(s.replies) + tries
    ensures s.faults == old(s.faults) ==> r.Ok? && tries == [None]
  {
    hide *;
    WorldIsOk(s);
    InterludeNothing(s.quiet, s.tame, s.cals, s.clock);
    var last: Option<Err> := None;
    var i: nat := 0;
    tries := [];
    TryingBegins(p);
    ghost var w0, t0 := s.cals, s.clock;
    while i < Attempts(p)
      invariant s.log == old(s.log) && s.writes == old(s.writes) && s.lookups == old(s.lookups)
      invariant s.cals.Keys == old(s.cals.Keys)
      invariant s.Valid() && Interlude(s.quiet, s.tame, w0, t0, s.cals, s.clock)
      invariant s.faults >= old(s.faults) + i
      invariant |tries| == i < Attempts(p) && Trying(tries, last) && s.halts == old(s.halts)
      invariant s.replies == old(s.replies) + tries
    {
      var stop := BeforeCall(s, p, last, tries);
      if stop.Some? {
        r := Err(stop.value);
        ErrOfMeans(r);
        return;
      }
      ghost var w, t := s.cals, s.clock;
      r := Client.GetEvent(s, acc, id);
      InterludesCompose(s.quiet, s.tame, w0, t0, w, t, s.cals, s.clock);
      InterludeKeysSame(s.quiet, s.tame, w0, t0, s.cals, s.clock);
      ErrOfMeans(r);
      OneMoreReply(old(s.replies), tries, if r.Ok? then None else Some(r.error));
      if r.Ok? {
        tries := Succeeded(p, tries, last, r);
        return;
      }
      stop, tries := AfterFailure(s, p, r.error, last, tries, i);
      last := Some(r.error);
      if stop.Some? {
        r := Err(stop.value);
        ErrOfMeans(r);
        return;
      }
      i := i + 1;
    }
    assert false;
  }

  /** Storing a block keeps blocks unique exactly when its key has none at that
      moment, which a second instance inserting after the lookup can spoil. */
  lemma UniqueExactlyWhenNoneThen(w: World, acc: string, ev: GEvent, k: Key)
    requires acc in w && UniqueWorld(w) && KeyOf(ev) == Some(k) && ev.id !in w[acc]
    ensures UniqueWorld(Put(w, acc, ev)) <==> NoBlock(w[acc], k)
  {
    if NoBlock(w[acc], k) {
      InsertTouches(w[acc], ev, k);
    } else {
      var id :| Holds(w[acc], id, k);
      assert Holds(Put(w, acc, ev)[acc], id, k) && Holds(Put(w, acc, ev)[acc], ev.id, k);
    }
  }

  /** Two instances whose lookups both found no block, and whose inserts both
      follow, leave two blocks for the source. */
  lemma TwoInstancesCollide(w: World, acc: string, k: Key, a: GEvent, b: GEvent)
    requires acc in w && UniqueWorld(w) && Client.Found(w[acc], k, None)
    requires KeyOf(a) == Some(k) && KeyOf(b) == Some(k)
    requires a.id !in w[acc] && b.id !in w[acc] && a.id != b.id
    ensures UniqueWorld(Put(w, acc, a)) && !UniqueWorld(Put(Put(w, acc, a), acc, b))
  {
    UniqueExactlyWhenNoneThen(w, acc, a, k);
    UniqueExactlyWhenNoneThen(Put(w, acc, a), acc, b, k);
    assert Holds(Put(w, acc, a)[acc], a.id, k);
  }

  /** What an insert of `ev` leaves behind when nobody else writes: nothing, or
      the one block `made`. */
  ghost predicate Stored(before: World, after: World, acc: string, ev: GEvent, made: Option<GEvent>)
    requires acc in before
  {
    if made.None? then after == before
    else
      && made.value == ev.(id := made.value.id, etag := made.value.etag)
      && made.value.id !in before[acc]
      && after == Put(before, acc, made.value)
  }

  ghost predicate NoBlockFor(w: World, acc: string, ev: GEvent) {
    acc in w && KeyOf(ev).Some? && NoBlock(w[acc], KeyOf(ev).value)
  }

  lemma AfterInsert(quiet: bool, tame: bool, w0: World, t0: nat, w: World, t: nat, w1: World,
                    acc: string, ev: GEvent, made: Option<GEvent>)
    requires Interlude(quiet, tame, w0, t0, w, t) && WorldOk(w0, t0) && NoBlockFor(w0, acc, ev) && tame
    requires made.None? ==> w1 == w
    requires made.Some? ==>
      && made.value == ev.(id := made.value.id, etag := made.value.etag)
      && made.value.id !in w[acc] && w1 == Put(w, acc, made.value)
    ensures UniqueWorld(w0) ==> UniqueWorld(w1)
    ensures made.None? ==> NoBlockFor(w1, acc, ev)
    ensures quiet ==> Stored(w0, w1, acc, ev, made)
    ensures made.Some? ==> Holds(w1[acc], made.value.id, KeyOf(ev).value)
  {
    InterludeKeeps(quiet, tame, w0, t0, w, t);
    InterludeNoBlock(quiet, tame, w0, t0, w, t, acc, KeyOf(ev).value);
    if UniqueWorld(w0) && made.Some? {
      UniqueExactlyWhenNoneThen(w, acc, made.value, KeyOf(ev).value);
    }
  }

  /** With nobody else writing, a block found after the insert is the one it made. */
  lemma FoundIsMade(before: World, after: World, acc: string, ev: GEvent, made: Option<GEvent>, found: Option<GEvent>)
    requires NoBlockFor(before, acc, ev) && Stored(before, after, acc, ev, made)
    requires Client.Found(after[acc], KeyOf(ev).value, found)
    ensures found == made
  {
    if made.Some? {
      KeyIgnoresVersion(ev, made.value.id, made.value.etag);
      assert Holds(after[acc], made.value.id, KeyOf(ev).value);
    }
    assert forall id :: Holds(after[acc], id, KeyOf(ev).value) && (made.None? || id != made.value.id) ==>
      Holds(before[acc], id, KeyOf(ev).value);
  }

  /** The replies behind one attempt of an insert: the insert's own, and after an
      ambiguous one, if the block names its source, the lookup's. */
  predicate Attempted(replies: seq<Option<Err>>, own: Ownership, r: Result<GEvent, Err>) {
    var resolves := replies != [] && replies[0].Some? && IsAmbiguous(replies[0].value)
                    && own.sourceAccount != "" && own.sourceEvent != "";
    if !resolves then |replies| == 1 && ErrOf(r) == replies[0]
    else
      && |replies| == 2
      && (if replies[1].Some? then ErrOf(r) == Some(AmbiguousInsert(replies[0].value, replies[1].value))
          else r.Ok? || ErrOf(r) == replies[0])
  }

  lemma AttemptedAtOnce(before: seq<Option<Err>>, own: Ownership, r: Result<GEvent, Err>)
    requires r.Ok? || !IsAmbiguous(r.error) || own.sourceAccount == "" || own.sourceEvent == ""
    ensures Attempted((before + [ErrOf(r)])[|before|..], own, r)
  {
    assert (before + [ErrOf(r)])[|before|..] == [ErrOf(r)];
  }

  lemma AttemptedResolving(before: seq<Option<Err>>, own: Ownership, e: Err, reply: Option<Err>, r: Result<GEvent, Err>)
    requires IsAmbiguous(e) && own.sourceAccount != "" && own.sourceEvent != ""
    requires if reply.Some? then r == Err(AmbiguousInsert(e, reply.value)) else r.Ok? || r == Err(e)
    ensures before <= before + [Some(e)] + [reply]
    ensures Attempted((before + [Some(e)] + [reply])[|before|..], own, r)
  {
    assert (before + [Some(e)] + [reply])[|before|..] == [Some(e), reply];
  }

  /** The insert of one attempt. */
  method InsertOnce(s: Server, acc: string, ev: GEvent) returns (r: Result<GEvent, Err>, ghost made: Option<GEvent>)
    requires s.Valid() && acc in s.cals
    modifies s
    ensures s.halts == old(s.halts) && s.writes == old(s.writes) + 1 && s.log == old(s.log) + Entry(acc, None, made)
    ensures s.replies == old(s.replies) + [ErrOf(r)]
    ensures if r.Ok? then s.faults == old(s.faults) && made == Some(r.value) else s.faults > old(s.faults)
    ensures made.Some? ==> KeyOf(made.value) == KeyOf(ev) && (r.Err? ==> FirstApi(r.error).None?)
    ensures s.Valid() && s.cals.Keys == old(s.cals.Keys)
    ensures SafeSince(old(s.log), s.log, iset{Making(acc, ev)})
    ensures s.tame && NoBlockFor(old(s.cals), acc, ev) ==>
      && (UniqueWorld(old(s.cals)) ==> UniqueWorld(s.cals))
      && (made.None? ==> NoBlockFor(s.cals, acc, ev))
      && (s.quiet ==> Stored(old(s.cals), s.cals, acc, ev, made))
  {
    hide UniqueWorld, WorldOk, SafeSince, Logged, FirstApi;
    ghost var w, t;
    SafeNothing(s.log, iset{Making(acc, ev)});
    r, w, t, made := s.Insert(acc, ev);
    if made.Some? {
      KeyIgnoresVersion(ev, made.value.id, made.value.etag);
      SafeAppend(old(s.log), old(s.log), Applied(acc, None, made), Making(acc, ev), iset{Making(acc, ev)});
    }
    if s.tame && NoBlockFor(old(s.cals), acc, ev) {
      AfterInsert(s.quiet, s.tame, old(s.cals), old(s.clock), w, t, s.cals, acc, ev, made);
    }
  }

  /** After an answered error nothing was stored. */
  lemma Unstored(e: Err, own: Ownership, ev: GEvent, made: Option<GEvent>)
    requires own == OwnershipFromGoogle(ev) && (made.Some? ==> FirstApi(e).None?)
    ensures IsTransient(e) && !IsAmbiguous(e) ==> made.None?
    ensures KeyOf(ev).Some? ==> own.sourceAccount != "" && own.sourceEvent != ""
    ensures KeyOf(ev).Some? ==> KeyOf(ev) == Some(Key(own.sourceAccount, own.sourceEvent))
  {
    TransientIsAmbiguousOrAnswered(e);
    WriteGateIsCollectable(ev);
  }

  lemma FoundHasKey(cal: Calendar, k: Key, found: Option<GEvent>)
    requires Client.Found(cal, k, found)
    ensures found.Some? ==> KeyOf(found.value) == Some(k)
    ensures found.None? ==> NoBlock(cal, k)
  {
  }

  lemma StillNone(w: World, acc: string, ev: GEvent)
    requires acc in w && KeyOf(ev).Some? && NoBlock(w[acc], KeyOf(ev).value)
    ensures NoBlockFor(w, acc, ev)
  {
  }

  lemma NoBlockForMeans(w: World, acc: string, ev: GEvent)
    requires NoBlockFor(w, acc, ev)
    ensures acc in w && KeyOf(ev).Some?
  {
  }

  lemma NotResolved(e: Err, e2: Err)
    ensures !IsTransient(AmbiguousInsert(e, e2))
  {
    TransientIsAmbiguousOrAnswered(AmbiguousInsert(e, e2));
  }

  /** One attempt: the insert, and the lookup that resolves an ambiguous
      failure. After a failure worth retrying there is still no block. */
  method InsertAttempt(s: Server, acc: string, ev: GEvent, own: Ownership)
    returns (r: Result<GEvent, Err>, ghost made: Option<GEvent>)
    requires s.Valid() && acc in s.cals && own == OwnershipFromGoogle(ev)
    modifies s
    ensures s.halts == old(s.halts) && s.writes == old(s.writes) + 1 && s.log == old(s.log) + Entry(acc, None, made)
    ensures old(s.replies) <= s.replies && Attempted(s.replies[|old(s.replies)|..], own, r)
    ensures s.faults == old(s.faults) && r.Ok? ==> made == Some(r.value)
    ensures s.faults >= old(s.faults) && (r.Err? ==> s.faults > old(s.faults))
    ensures s.Valid() && s.cals.Keys == old(s.cals.Keys)
    ensures SafeSince(old(s.log), s.log, iset{Making(acc, ev)})
    ensures r.Ok? && KeyOf(ev).Some? ==> KeyOf(r.value) == KeyOf(ev)
    ensures s.tame && NoBlockFor(old(s.cals), acc, ev) && UniqueWorld(old(s.cals)) ==> UniqueWorld(s.cals)
    ensures s.tame && NoBlockFor(old(s.cals), acc, ev) && r.Err? && IsTransient(r.error) ==>
      NoBlockFor(s.cals, acc, ev)
    ensures s.quiet && NoBlockFor(old(s.cals), acc, ev) ==>
      && Stored(old(s.cals), s.cals, acc, ev, made)
      && (r.Ok? ==> made == Some(r.value))
      && (r.Err? && IsTransient(r.error) ==> made.None?)
  {
    hide *;
    WorldIsOk(s);
    r, made := InsertOnce(s, acc, ev);
    ErrOfMeans(r);
    if r.Ok? {
      AttemptedAtOnce(old(s.replies), own, r);
      return;
    }
    var e := r.error;
    Unstored(e, own, ev, made);
    if NoBlockFor(old(s.cals), acc, ev) {
      NoBlockForMeans(old(s.cals), acc, ev);
    }
    if !IsAmbiguous(e) || own.sourceAccount == "" || own.sourceEvent == "" {
      AttemptedAtOnce(old(s.replies), own, r);
      return;
    }
    ghost var w, t := s.cals, s.clock;
    var k := Key(own.sourceAccount, own.sourceEvent);
    WorldIsOk(s);
    var existing := Client.FindBlockBySource(s, acc, k);
    ErrOfMeans(existing);
    InterludeKeeps(s.quiet, s.tame, w, t, s.cals, s.clock);
    InterludeKeysSame(s.quiet, s.tame, w, t, s.cals, s.clock);
    AttemptedResolving(old(s.replies), own, e, if existing.Ok? then None else Some(existing.error),
                       if existing.Err? then Err(AmbiguousInsert(e, existing.error))
                       else if existing.value.Some? then Ok(existing.value.value)
                       else r);
    if existing.Err? {
      NotResolved(e, existing.error);
      r := Err(AmbiguousInsert(e, existing.error));
      return;
    }
    FoundHasKey(s.cals[acc], k, existing.value);
    if s.quiet && NoBlockFor(old(s.cals), acc, ev) {
      FoundIsMade(old(s.cals), s.cals, acc, ev, made, existing.value);
    }
    if existing.value.Some? {
      r := Ok(existing.value.value);
    } else if KeyOf(ev).Some? {
      StillNone(s.cals, acc, ev);
    }
  }

  lemma StoredNothing(acc: string, ev: GEvent)
    ensures forall w, w1 {:trigger Stored(w, w1, acc, ev, None)} ::
      acc in w ==> (Stored(w, w1, acc, ev, None) <==> w1 == w)
  {
  }

  lemma KeyByOwnership(ev: GEvent)
    ensures KeyOf(ev).Some? ==>
      KeyOf(ev) == Some(Key(OwnershipFromGoogle(ev).sourceAccount, OwnershipFromGoogle(ev).sourceEvent))
  {
    WriteGateIsCollectable(ev);
  }

  /** `made` is what the call left on the calendar, if nobody else writes. */
  method InsertEvent(s: Server, p: Policy, acc: string, ev: GEvent)
    returns (r: Result<GEvent, Err>, ghost made: Option<GEvent>, ghost tries: seq<Option<Err>>)
    requires s.Valid() && acc in s.cals
    modifies s
    ensures s.faults >= old(s.faults) && (r.Err? ==> s.faults > old(s.faults))
    ensures s.Valid() && s.cals.Keys == old(s.cals.Keys)
    ensures SafeSince(old(s.log), s.log, iset{Making(acc, ev)})
    ensures r.Ok? && KeyOf(ev).Some? ==> KeyOf(r.value) == KeyOf(ev)
    ensures s.tame && NoBlockFor(old(s.cals), acc, ev) && UniqueWorld(old(s.cals)) ==> UniqueWorld(s.cals)
    ensures s.quiet && NoBlockFor(old(s.cals), acc, ev) ==>
      && Stored(old(s.cals), s.cals, acc, ev, made)
      && (r.Ok? ==> made == Some(r.value))
    ensures s.halts >= old(s.halts) && Retried(p, tries, ErrOf(r), s.halts > old(s.halts))
    ensures s.writes == old(s.writes) + |tries|
    // Without a fault the log gains just what is returned.
    ensures s.faults == old(s.faults) ==> r.Ok? && made == Some(r.value) && s.log == old(s.log) + Entry(acc, None, made)
  {
    hide *;
    WorldIsOk(s);
    KeyByOwnership(ev);
    StoredNothing(acc, ev);
    assert Stored(s.cals, s.cals, acc, ev, None);
    var own := OwnershipFromGoogle(ev);
    var last: Option<Err> := None;
    var i: nat := 0;
    tries := [];
    TryingBegins(p);
    made := None;
    SafeNothing(s.log, iset{Making(acc, ev)});
    while i < Attempts(p)
      invariant s.Valid() && s.cals.Keys == old(s.cals.Keys)
      invariant s.faults >= old(s.faults) + i
      invariant |tries| == i < Attempts(p) && Trying(tries, last) && s.halts == old(s.halts)
      invariant s.writes == old(s.writes) + |tries|
      invariant i == 0 ==> s.log == old(s.log)
      invariant SafeSince(old(s.log), s.log, iset{Making(acc, ev)})
      invariant NoBlockFor(old(s.cals), acc, ev) && s.tame ==> NoBlockFor(s.cals, acc, ev)
      invariant NoBlockFor(old(s.cals), acc, ev) && s.tame && UniqueWorld(old(s.cals)) ==> UniqueWorld(s.cals)
      invariant NoBlockFor(old(s.cals), acc, ev) && s.quiet ==> s.cals == old(s.cals) && made.None?
    {
      var stop := BeforeCall(s, p, last, tries);
      if stop.Some? {
        r := Err(stop.value);
        ErrOfMeans(r);
        return;
      }
      ghost var logged := s.log;
      r, made := InsertAttempt(s, acc, ev, own);
      SafeCompose(old(s.log), logged, s.log, iset{Making(acc, ev)}, iset{Making(acc, ev)});
      if r.Ok? {
        tries := Succeeded(p, tries, last, r);
        return;
      }
      stop, tries := AfterFailure(s, p, r.error, last, tries, i);
      last := Some(r.error);
      if stop.Some? {
        r := Err(stop.value);
        ErrOfMeans(r);
        return;
      }
      i := i + 1;
    }
    assert false;
  }

  /** The call writes over the version `seen`, moving or retitling a block. */
  ghost predicate RewriteOf(cal: Calendar, clock: nat, seen: GEvent, id: string, payload: GEvent, ifMatch: nat) {
    && seen.id == id && seen.etag == ifMatch
    && Knows(cal, clock, seen)
    && KeyOf(seen).Some? && Moves(seen, payload)
  }

  /** What such a call means to do. */
  ghost function Rewriting(acc: string, seen: GEvent, payload: GEvent): Intent
    requires KeyOf(seen).Some?
  {
    Moving(acc, KeyOf(seen).value, payload.summary, payload.start, payload.end)
  }

  lemma AfterUpdate(quiet: bool, tame: bool, w0: World, t0: nat, w: World, t: nat, w1: World,
                    acc: string, seen: GEvent, payload: GEvent, made: GEvent)
    requires Interlude(quiet, tame, w0, t0, w, t) && WorldOk(w0, t0) && acc in w0
    requires RewriteOf(w0[acc], t0, seen, seen.id, payload, seen.etag)
    requires seen.id in w[acc] && w[acc][seen.id].etag == seen.etag
    requires made == payload.(id := seen.id, etag := t + 1) && w1 == Put(w, acc, made)
    ensures w[acc][seen.id] == seen
    ensures Carries(Applied(acc, Some(seen), Some(made)), Rewriting(acc, seen, payload))
    ensures tame && UniqueWorld(w0) ==> UniqueWorld(w1)
    ensures RewriteOf(w1[acc], t + 1, seen, seen.id, payload, seen.etag)
  {
    InterludeKeeps(quiet, tame, w0, t0, w, t);
    assert EditedCal(w0[acc], t0, w[acc], t);
    KnowsStays(w0[acc], t0, w[acc], t, seen);
    MovingKeepsKey(seen, made);
    if tame && UniqueWorld(w0) {
      ReplaceTouches(w[acc], made, KeyOf(seen).value);
    }
  }

  lemma StillRewrites(quiet: bool, tame: bool, w0: World, t0: nat, w: World, t: nat, acc: string, seen: GEvent,
                      payload: GEvent)
    requires Interlude(quiet, tame, w0, t0, w, t) && WorldOk(w0, t0) && acc in w0
    requires RewriteOf(w0[acc], t0, seen, seen.id, payload, seen.etag)
    ensures RewriteOf(w[acc], t, seen, seen.id, payload, seen.etag)
    ensures tame && UniqueWorld(w0) ==> UniqueWorld(w)
  {
    InterludeKeeps(quiet, tame, w0, t0, w, t);
    assert EditedCal(w0[acc], t0, w[acc], t);
    KnowsStays(w0[acc], t0, w[acc], t, seen);
  }

  /** The replies to a conditional write that the calendars themselves call for. */
  predicate Refused(e: Err) {
    e == Api(404) || e == Api(410) || e == Api(412)
  }

  predicate RefusedUpdate(e: Err) {
    e == Api(404) || e == Api(412)
  }

  lemma RefusedUpdateIsFinal(e: Err)
    ensures RefusedUpdate(e) ==> !IsTransient(e)
  {
  }

  lemma RefusedIsFinal(e: Err)
    ensures Refused(e) ==> !IsTransient(e)
  {
  }

  lemma PutTwice(w: World, acc: string, a: GEvent, b: GEvent)
    requires acc in w && a.id == b.id
    ensures Put(Put(w, acc, a), acc, b) == Put(w, acc, b)
  {
    assert w[acc][a.id := a][b.id := b] == w[acc][b.id := b];
  }

  predicate Current(cal: Calendar, seen: GEvent) {
    seen.id in cal && cal[seen.id] == seen
  }

  /** A stored version of the payload, another than the one it replaced. */
  predicate VersionOf(made: GEvent, payload: GEvent, id: string, ifMatch: nat) {
    made == payload.(id := id, etag := made.etag) && made.etag != ifMatch
  }

  /** What a conditional update over `seen` leaves behind when nobody else writes. */
  ghost predicate Written(before: World, after: World, acc: string, seen: GEvent, made: Option<GEvent>)
    requires acc in before
  {
    if made.None? then after == before
    else Current(before[acc], seen) && made.value.id == seen.id && after == Put(before, acc, made.value)
  }

  lemma WrittenAgain(before: World, mid: World, after: World, acc: string, seen: GEvent,
                     m1: Option<GEvent>, m2: Option<GEvent>)
    requires acc in before && acc in mid && Written(before, mid, acc, seen, m1) && Written(mid, after, acc, seen, m2)
    ensures Written(before, after, acc, seen, if m2.Some? then m2 else m1)
  {
    if m1.Some? && m2.Some? {
      PutTwice(before, acc, m1.value, m2.value);
    }
  }

  /** What the attempts of an update have left behind so far. */
  ghost predicate UpdateSoFar(quiet: bool, tame: bool, acc: string, seen: GEvent, payload: GEvent, w0: World,
                              log0: seq<Applied>, w: World, t: nat, log: seq<Applied>, made: Option<GEvent>)
  {
    && acc in w0 && acc in w && RewriteOf(w[acc], t, seen, seen.id, payload, seen.etag)
    && SafeSince(log0, log, iset{Rewriting(acc, seen, payload)})
    && (tame && UniqueWorld(w0) ==> UniqueWorld(w))
    && (made.Some? ==> VersionOf(made.value, payload, seen.id, seen.etag))
    && (quiet ==> Written(w0, w, acc, seen, made))
  }

  lemma EntryIs(acc: string, seen: GEvent, made: Option<GEvent>)
    ensures Entry(acc, Some(seen), made) == if made.None? then [] else [Applied(acc, Some(seen), made)]
  {
  }

  lemma Unrefused(w: World, acc: string, seen: GEvent, r: Result<GEvent, Err>)
    requires acc in w
    ensures RefusedUpdate(Api(404)) && RefusedUpdate(Api(412))
    ensures Current(w[acc], seen) ==> seen.id in w[acc] && w[acc][seen.id] == seen
  {
  }

  lemma UpdateBegins(quiet: bool, tame: bool, acc: string, seen: GEvent, payload: GEvent, id: string, ifMatch: nat,
                     w: World, t: nat, log: seq<Applied>)
    requires acc in w && RewriteOf(w[acc], t, seen, id, payload, ifMatch)
    ensures id == seen.id && ifMatch == seen.etag && seen.etag != 0 && KeyOf(seen).Some?
    ensures UpdateSoFar(quiet, tame, acc, seen, payload, w, log, w, t, log, None)
  {
    SafeNothing(log, iset{Rewriting(acc, seen, payload)});
  }

  lemma UpdateSoFarMeans(quiet: bool, tame: bool, acc: string, seen: GEvent, payload: GEvent, w0: World,
                         log0: seq<Applied>, w: World, t: nat, log: seq<Applied>, made: Option<GEvent>)
    requires UpdateSoFar(quiet, tame, acc, seen, payload, w0, log0, w, t, log, made)
    ensures acc in w0 && acc in w && KeyOf(seen).Some? && RewriteOf(w[acc], t, seen, seen.id, payload, seen.etag)
    ensures SafeSince(log0, log, iset{Rewriting(acc, seen, payload)})
    ensures tame && UniqueWorld(w0) ==> UniqueWorld(w)
    ensures made.Some? ==> VersionOf(made.value, payload, seen.id, seen.etag)
    ensures quiet ==> Written(w0, w, acc, seen, made)
  {
  }

  lemma MayRewrite(quiet: bool, tame: bool, acc: string, seen: GEvent, payload: GEvent, w0: World,
                   log0: seq<Applied>, w: World, t: nat, log: seq<Applied>, made: Option<GEvent>)
    requires UpdateSoFar(quiet, tame, acc, seen, payload, w0, log0, w, t, log, made)
    ensures acc in w && RewriteOf(w[acc], t, seen, seen.id, payload, seen.etag)
  {
  }

  lemma UpdateGoesOn(quiet: bool, tame: bool, acc: string, seen: GEvent, payload: GEvent, w0: World,
                     l0: seq<Applied>, w1: World, t1: nat, l1: seq<Applied>, m1: Option<GEvent>, w2: World, t2: nat,
                     l2: seq<Applied>, m2: Option<GEvent>)
    requires UpdateSoFar(quiet, tame, acc, seen, payload, w0, l0, w1, t1, l1, m1)
    requires UpdateSoFar(quiet, tame, acc, seen, payload, w1, l1, w2, t2, l2, m2)
    ensures UpdateSoFar(quiet, tame, acc, seen, payload, w0, l0, w2, t2, l2, if m2.Some? then m2 else m1)
  {
    hide UniqueWorld, SafeSince, VersionOf, Written, Knows, Moves;
    var intent := Rewriting(acc, seen, payload);
    SafeCompose(l0, l1, l2, iset{intent}, iset{intent});
    if quiet {
      WrittenAgain(w0, w1, w2, acc, seen, m1, m2);
    }
  }

  /** What one conditional write comes to: the version seen is replaced, or
      nothing is. */
  lemma UpdateOnce(quiet: bool, tame: bool, acc: string, seen: GEvent, payload: GEvent, w0: World, t0: nat, w: World,
                   t: nat, w1: World, t1: nat, made: Option<GEvent>, log: seq<Applied>)
    requires Interlude(quiet, tame, w0, t0, w, t) && WorldOk(w0, t0) && acc in w0
    requires RewriteOf(w0[acc], t0, seen, seen.id, payload, seen.etag)
    requires made.None? ==> w1 == w && t1 == t
    requires made.Some? ==>
      && made.value == payload.(id := seen.id, etag := t + 1)
      && seen.id in w[acc] && w[acc][seen.id].etag == seen.etag && w1 == Put(w, acc, made.value) && t1 == t + 1
    ensures acc in w && (made.Some? ==> seen.id in w[acc] && w[acc][seen.id] == seen)
    ensures quiet ==> w == w0
    ensures UpdateSoFar(quiet, tame, acc, seen, payload, w0, log, w1, t1, log + Entry(acc, Some(seen), made), made)
  {
    hide UniqueWorld, SafeSince, Carries;
    var intent := Rewriting(acc, seen, payload);
    SafeNothing(log, iset{intent});
    if made.Some? {
      AfterUpdate(quiet, tame, w0, t0, w, t, w1, acc, seen, payload, made.value);
      SafeAppend(log, log, Applied(acc, Some(seen), made), intent, iset{intent});
    } else {
      StillRewrites(quiet, tame, w0, t0, w, t, acc, seen, payload);
      assert log + Entry(acc, Some(seen), made) == log;
    }
  }

  /** One attempt of a conditional update. */
  method UpdateAttempt(s: Server, acc: string, id: string, payload: GEvent, ifMatch: nat, ghost seen: GEvent)
    returns (r: Result<GEvent, Err>, ghost made: Option<GEvent>)
    requires s.Valid() && acc in s.cals
    requires RewriteOf(s.cals[acc], s.clock, seen, id, payload, ifMatch)
    modifies s
    ensures s.halts == old(s.halts) && s.writes == old(s.writes) + 1
    ensures s.log == old(s.log) + Entry(acc, Some(seen), made)
    ensures s.replies == old(s.replies) + [ErrOf(r)]
    ensures s.faults == old(s.faults) && r.Err? ==> made.None?
    ensures s.faults >= old(s.faults) && (r.Err? && s.faults == old(s.faults) ==> RefusedUpdate(r.error))
    ensures s.quiet && Current(old(s.cals)[acc], seen) && r.Err? ==> s.faults > old(s.faults)
    ensures s.Valid() && s.cals.Keys == old(s.cals.Keys) && s.lookups == old(s.lookups)
    ensures r.Ok? ==> made == Some(r.value)
    ensures UpdateSoFar(s.quiet, s.tame, acc, seen, payload, old(s.cals), old(s.log), s.cals, s.clock, s.log, made)
  {
    hide *;
    WorldIsOk(s);
    UpdateBegins(s.quiet, s.tame, acc, seen, payload, id, ifMatch, s.cals, s.clock, s.log);
    ghost var w, t;
    r, w, t, made := s.Update(acc, id, payload, ifMatch);
    InterludeKeysSame(s.quiet, s.tame, old(s.cals), old(s.clock), w, t);
    UpdateOnce(s.quiet, s.tame, acc, seen, payload, old(s.cals), old(s.clock), w, t, s.cals, s.clock, made, old(s.log));
    EntryIs(acc, seen, made);
    Unrefused(old(s.cals), acc, seen, r);
  }

  /** One try refused by the calendars is the result. */
  lemma OneTry<T>(p: Policy, tries: seq<Option<Err>>, r: Result<T, Err>, halted: bool)
    requires |tries| == 1 && Retried(p, tries, ErrOf(r), halted) && (r.Err? ==> RefusedUpdate(r.error))
    ensures tries == [if r.Ok? then None else Some(r.error)]
  {
  }

  /** One turn of the loop of an update. */
  method UpdateTurn(s: Server, p: Policy, acc: string, id: string, payload: GEvent, ifMatch: nat, last: Option<Err>,
                    i: nat, ghost seen: GEvent, ghost tries: seq<Option<Err>>)
    returns (over: bool, r: Result<GEvent, Err>, ghost made: Option<GEvent>, ghost now: seq<Option<Err>>)
    requires s.Valid() && acc in s.cals
    requires RewriteOf(s.cals[acc], s.clock, seen, id, payload, ifMatch)
    requires Trying(tries, last) && i == |tries| < Attempts(p)
    modifies s
    ensures s.Valid() && s.cals.Keys == old(s.cals.Keys) && s.lookups == old(s.lookups)
    ensures UpdateSoFar(s.quiet, s.tame, acc, seen, payload, old(s.cals), old(s.log), s.cals, s.clock, s.log, made)
    ensures s.faults >= old(s.faults) && s.halts >= old(s.halts)
    ensures now == tries || |now| == i + 1
    ensures s.writes == old(s.writes) + |now| - i
    ensures forall before :: old(s.replies) == before + tries ==> s.replies == before + now
    ensures over ==> Retried(p, now, ErrOf(r), s.halts > old(s.halts))
    ensures !over ==>
      && r.Err? && |now| == i + 1 < Attempts(p) && Trying(now, Some(r.error))
      && s.halts == old(s.halts) && s.faults > old(s.faults)
    ensures r.Ok? ==>
      && made == Some(r.value)
      && s.log != [] && s.log[|s.log| - 1] == Applied(acc, Some(seen), Some(r.value))
    ensures s.faults == old(s.faults) ==>
      |now| == i + 1 && s.log == old(s.log) + Entry(acc, Some(seen), made) && (r.Err? ==> RefusedUpdate(r.error))
    ensures s.quiet && Current(old(s.cals)[acc], seen) && r.Err? ==> s.faults > old(s.faults)
  {
    hide *;
    UpdateBegins(s.quiet, s.tame, acc, seen, payload, id, ifMatch, s.cals, s.clock, s.log);
    now, made := tries, None;
    var stop := BeforeCall(s, p, last, tries);
    if stop.Some? {
      r := Err(stop.value);
      ErrOfMeans(r);
      over := true;
      return;
    }
    r, made := UpdateAttempt(s, acc, id, payload, ifMatch, seen);
    ErrOfMeans(r);
    EntryIs(acc, seen, made);
    RepliesGrow(tries, if r.Ok? then None else Some(r.error));
    if r.Ok? {
      now := Succeeded(p, tries, last, r);
      over := true;
      return;
    }
    RefusedUpdateIsFinal(r.error);
    stop, now := AfterFailure(s, p, r.error, last, tries, i);
    over := stop.Some?;
    if over {
      r := Err(stop.value);
      ErrOfMeans(r);
    }
  }

  lemma RepliesGrow(tries: seq<Option<Err>>, reply: Option<Err>)
    ensures forall before: seq<Option<Err>> :: before + tries + [reply] == before + (tries + [reply])
  {
  }

  lemma MadeOnce(acc: string, seen: GEvent, was: Option<GEvent>, made: Option<GEvent>)
    ensures Entry(acc, Some(seen), None) == []
    ensures was.None? ==> Entry(acc, Some(seen), made) == Entry(acc, Some(seen), if made.Some? then made else was)
  {
  }

  method UpdateEvent(s: Server, p: Policy, acc: string, id: string, payload: GEvent, ifMatch: nat, ghost seen: GEvent)
    returns (r: Result<GEvent, Err>, ghost made: Option<GEvent>, ghost tries: seq<Option<Err>>)
    requires s.Valid() && acc in s.cals
    requires RewriteOf(s.cals[acc], s.clock, seen, id, payload, ifMatch)
    modifies s
    ensures s.faults >= old(s.faults) && (r.Err? && s.faults == old(s.faults) ==> RefusedUpdate(r.error))
    ensures s.quiet && Current(old(s.cals)[acc], seen) && r.Err? ==> s.faults > old(s.faults)
    ensures s.Valid() && s.cals.Keys == old(s.cals.Keys) && s.lookups == old(s.lookups)
    ensures SafeSince(old(s.log), s.log, iset{Rewriting(acc, seen, payload)})
    ensures s.tame && UniqueWorld(old(s.cals)) ==> UniqueWorld(s.cals)
    ensures r.Ok? ==> made == Some(r.value)
    ensures made.Some? ==> VersionOf(made.value, payload, id, ifMatch)
    ensures s.quiet ==> Written(old(s.cals), s.cals, acc, seen, made)
    // The tries are the replies the service gave.
    ensures s.halts >= old(s.halts) && Retried(p, tries, ErrOf(r), s.halts > old(s.halts))
    ensures s.replies == old(s.replies) + tries
    ensures s.writes == old(s.writes) + |tries|
    // Success is the last write applied.
    ensures r.Ok? ==> s.log != [] && s.log[|s.log| - 1] == Applied(acc, Some(seen), Some(r.value))
    // Without a fault there is one try, and the log gains just what was stored.
    ensures s.faults == old(s.faults) ==> |tries| == 1 && s.log == old(s.log) + Entry(acc, Some(seen), made)
  {
    hide *;
    UpdateBegins(s.quiet, s.tame, acc, seen, payload, id, ifMatch, s.cals, s.clock, s.log);
    var last: Option<Err> := None;
    var i: nat := 0;
    tries := [];
    TryingBegins(p);
    made := None;
    ghost var w0, log0 := s.cals, s.log;
    while i < Attempts(p)
      invariant s.Valid() && s.cals.Keys == w0.Keys && s.lookups == old(s.lookups)
      invariant s.faults >= old(s.faults) + i
      invariant i == 0 ==> s.cals == w0 && s.log == log0 && made.None?
      invariant |tries| == i < Attempts(p) && Trying(tries, last) && s.halts == old(s.halts)
      invariant s.writes == old(s.writes) + |tries| && s.replies == old(s.replies) + tries
      invariant UpdateSoFar(s.quiet, s.tame, acc, seen, payload, w0, log0, s.cals, s.clock, s.log, made)
    {
      ghost var logged, w, t, was := s.log, s.cals, s.clock, made;
      MayRewrite(s.quiet, s.tame, acc, seen, payload, w0, log0, w, t, logged, made);
      var over;
      over, r, made, tries := UpdateTurn(s, p, acc, id, payload, ifMatch, last, i, seen, tries);
      UpdateGoesOn(s.quiet, s.tame, acc, seen, payload, w0, log0, w, t, logged, was, s.cals, s.clock, s.log, made);
      MadeOnce(acc, seen, was, made);
      made := if made.Some? then made else was;
      if over {
        break;
      }
      last := Some(r.error);
      i := i + 1;
    }
    UpdateSoFarMeans(s.quiet, s.tame, acc, seen, payload, w0, log0, s.cals, s.clock, s.log, made);
  }

  /** The call deletes the version `seen`, which was owned. */
  ghost predicate RemovalOf(cal: Calendar, clock: nat, seen: GEvent, id: string, ifMatch: nat) {
    seen.id == id && seen.etag == ifMatch && Knows(cal, clock, seen) && IsOwned(seen)
  }

  lemma RemovingKeepsUnique(w: World, acc: string, id: string)
    requires acc in w && UniqueWorld(w)
    ensures UniqueWorld(w[acc := w[acc] - {id}])
  {
    forall i, k | Holds(w[acc] - {id}, i, k)
      ensures Holds(w[acc], i, k)
    {
    }
  }

  lemma RemovedTwice(before: World, after: World, acc: string, id: string)
    requires acc in before && after == before[acc := before[acc] - {id}]
    ensures after[acc := after[acc] - {id}] == after
  {
    assert after[acc] - {id} == after[acc];
  }

  lemma AfterDelete(quiet: bool, tame: bool, w0: World, t0: nat, w: World, t: nat, w1: World, acc: string, seen: GEvent,
                    gone: bool)
    requires Interlude(quiet, tame, w0, t0, w, t) && WorldOk(w0, t0) && acc in w0
    requires RemovalOf(w0[acc], t0, seen, seen.id, seen.etag)
    requires gone ==> seen.id in w[acc] && w[acc][seen.id].etag == seen.etag && w1 == w[acc := w[acc] - {seen.id}]
    requires !gone ==> w1 == w
    ensures gone ==> w[acc][seen.id] == seen
    ensures Carries(Applied(acc, Some(seen), None), Dropping(acc, seen.id))
    ensures tame && UniqueWorld(w0) ==> UniqueWorld(w1)
    ensures RemovalOf(w1[acc], t, seen, seen.id, seen.etag)
  {
    InterludeKeeps(quiet, tame, w0, t0, w, t);
    assert EditedCal(w0[acc], t0, w[acc], t);
    KnowsStays(w0[acc], t0, w[acc], t, seen);
    if tame && UniqueWorld(w0) && gone {
      RemovingKeepsUnique(w, acc, seen.id);
    }
  }

  method DeleteAttempt(s: Server, acc: string, id: string, ifMatch: nat, ghost seen: GEvent) returns (r: Option<Err>)
    requires s.Valid() && acc in s.cals
    requires RemovalOf(s.cals[acc], s.clock, seen, id, ifMatch)
    modifies s
    ensures s.halts == old(s.halts) && s.writes == old(s.writes) + 1 && s.replies == old(s.replies) + [r]
    ensures s.faults >= old(s.faults) && (r.Some? && s.faults == old(s.faults) ==> Refused(r.value))
    ensures s.quiet && Current(old(s.cals)[acc], seen) && r.Some? ==> s.faults > old(s.faults)
    ensures s.Valid() && s.cals.Keys == old(s.cals.Keys) && s.lookups == old(s.lookups)
    ensures SafeSince(old(s.log), s.log, iset{Dropping(acc, id)})
    ensures RemovalOf(s.cals[acc], s.clock, seen, id, ifMatch)
    ensures s.tame && UniqueWorld(old(s.cals)) ==> UniqueWorld(s.cals)
    ensures r.None? || IsGone(r.value) ==> id !in s.cals[acc]
    ensures r.None? ==> s.log == old(s.log) + [Applied(acc, Some(seen), None)]
    ensures s.faults == old(s.faults) && r.Some? ==> s.log == old(s.log) && (r == GONE || r == Some(Api(412)))
    ensures s.quiet && s.cals != old(s.cals) ==> s.cals == old(s.cals)[acc := old(s.cals)[acc] - {id}]
  {
    hide UniqueWorld, WorldOk, SafeSince, Carries;
    ghost var w, t, gone;
    SafeNothing(s.log, iset{Dropping(acc, id)});
    r, w, t, gone := s.Delete(acc, id, ifMatch);
    AfterDelete(s.quiet, s.tame, old(s.cals), old(s.clock), w, t, s.cals, acc, seen, gone);
    if gone {
      SafeAppend(old(s.log), old(s.log), Applied(acc, Some(seen), None), Dropping(acc, id), iset{Dropping(acc, id)});
    }
  }

  /** What the replies to a delete count as: "already gone" is no failure after
      the first. */
  function Accepted(replies: seq<Option<Err>>): seq<Option<Err>> {
    seq(|replies|, i requires 0 <= i < |replies| =>
      if i > 0 && replies[i].Some? && IsGone(replies[i].value) then None else replies[i])
  }

  lemma OneMoreAccepted(before: seq<Option<Err>>, now: seq<Option<Err>>, reply: Option<Err>)
    requires before <= now
    ensures before <= now + [reply]
    ensures Accepted((now + [reply])[|before|..]) == Accepted(now[|before|..]) +
              [if |now| > |before| && reply.Some? && IsGone(reply.value) then None else reply]
  {
    assert (now + [reply])[|before|..] == now[|before|..] + [reply];
  }

  lemma NothingAccepted(now: seq<Option<Err>>)
    ensures Accepted(now[|now|..]) == []
  {
  }

  /** "Already gone" is success on a repetition, and a failure the first time. */
  method DeleteEvent(s: Server, p: Policy, acc: string, id: string, ifMatch: nat, ghost seen: GEvent)
    returns (r: Option<Err>, ghost tries: seq<Option<Err>>)
    requires s.Valid() && acc in s.cals
    requires RemovalOf(s.cals[acc], s.clock, seen, id, ifMatch)
    modifies s
    ensures s.faults >= old(s.faults) && (r.Some? && s.faults == old(s.faults) ==> Refused(r.value))
    ensures s.quiet && Current(old(s.cals)[acc], seen) && r.Some? ==> s.faults > old(s.faults)
    ensures s.Valid() && s.cals.Keys == old(s.cals.Keys) && s.lookups == old(s.lookups)
    ensures SafeSince(old(s.log), s.log, iset{Dropping(acc, id)})
    ensures s.tame && UniqueWorld(old(s.cals)) ==> UniqueWorld(s.cals)
    ensures r.None? ==> id !in s.cals[acc]
    // Success at the first try is a delete applied by this call; after a
    // repetition "already gone" is no failure.
    ensures r.None? && |tries| == 1 ==> s.log == old(s.log) + [Applied(acc, Some(seen), None)]
    ensures |tries| > 1 && tries[|tries| - 1].Some? ==> !IsGone(tries[|tries| - 1].value)
    ensures s.quiet && s.cals != old(s.cals) ==> s.cals == old(s.cals)[acc := old(s.cals)[acc] - {id}]
    // The tries are the replies the service gave, so taken.
    ensures s.halts >= old(s.halts) && Retried(p, tries, r, s.halts > old(s.halts))
    ensures old(s.replies) <= s.replies && tries == Accepted(s.replies[|old(s.replies)|..])
    ensures s.writes == old(s.writes) + |tries|
    // Without a fault there is one reply, the result.
    ensures s.faults == old(s.faults) ==>
      s.replies == old(s.replies) + [r] && (r.None? || r == GONE || r == Some(Api(412)))
    // Without a fault the log gains just the removal of the version seen.
    ensures s.faults == old(s.faults) ==>
      s.log == old(s.log) + if r.None? then [Applied(acc, Some(seen), None)] else []
  {
    hide *;
    NothingAccepted(s.replies);
    SafeNothing(s.log, iset{Dropping(acc, id)});
    var first := true;
    var last: Option<Err> := None;
    var i: nat := 0;
    tries := [];
    TryingBegins(p);
    while i < Attempts(p)
      invariant s.Valid() && s.cals.Keys == old(s.cals.Keys) && s.lookups == old(s.lookups)
      invariant s.faults >= old(s.faults) + i
      invariant |tries| == i < Attempts(p) && Trying(tries, last) && s.halts == old(s.halts)
      invariant s.writes == old(s.writes) + |tries|
      invariant old(s.replies) <= s.replies && |s.replies| == |old(s.replies)| + i
      invariant tries == Accepted(s.replies[|old(s.replies)|..])
      invariant SafeSince(old(s.log), s.log, iset{Dropping(acc, id)})
      invariant first <==> i == 0
      invariant i == 0 ==> s.log == old(s.log) && s.cals == old(s.cals) && s.replies == old(s.replies)
      invariant RemovalOf(s.cals[acc], s.clock, seen, id, ifMatch)
      invariant s.tame && UniqueWorld(old(s.cals)) ==> UniqueWorld(s.cals)
      invariant s.quiet && s.cals != old(s.cals) ==> s.cals == old(s.cals)[acc := old(s.cals)[acc] - {id}]
    {
      var stop := BeforeCall(s, p, last, tries);
      if stop.Some? {
        return stop, tries;
      }
      ghost var logged, w, heard := s.log, s.cals, s.replies;
      r := DeleteAttempt(s, acc, id, ifMatch, seen);
      OneMoreAccepted(old(s.replies), heard, r);
      SafeCompose(old(s.log), logged, s.log, iset{Dropping(acc, id)}, iset{Dropping(acc, id)});
      if s.quiet && w != old(s.cals) {
        RemovedTwice(old(s.cals), w, acc, id);
      }
      if first {
        first := false;
      } else if r.Some? && IsGone(r.value) {
        r := None;
      }
      if r.None? {
        tries := Succeeded(p, tries, last, Ok(()));
        return;
      }
      RefusedIsFinal(r.value);
      stop, tries := AfterFailure(s, p, r.value, last, tries, i);
      if stop.Some? {
        return stop, tries;
      }
      last := r;
      i := i + 1;
    }
    assert false;
  }
}
