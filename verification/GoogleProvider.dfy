/**
 The provider: neutral events over the retrying client, with ownership checked
 before every write and every write conditional on the version checked.
 */
module GoogleProvider {
  import opened Basics
  import opened Events
  import opened Calendars
  import opened Retry
  import opened Server
  import opened WriteLog
  import Retrying = RetryingClient

  /** The non-nil events, in order, each in its neutral form. */
  ghost predicate Neutralized(raw: seq<Option<GEvent>>, out: seq<NEvent>) {
    && |out| == |Present(raw)|
    && forall i :: 0 <= i < |out| ==> out[i] == EventFromGoogle(Present(raw)[i])
  }

  method ListEvents(s: Server, p: Policy, acc: string, win: Window)
    returns (r: Result<seq<NEvent>, Err>, ghost raw: seq<Option<GEvent>>)
    requires s.Valid() && acc in s.cals
    modifies s, s.journal`listings
    ensures s.log == old(s.log) && s.writes == old(s.writes) && s.lookups == old(s.lookups)
    ensures s.faults >= old(s.faults) && (r.Err? ==> s.faults > old(s.faults))
    ensures s.Valid() && Interlude(s.quiet, s.tame, old(s.cals), old(s.clock), s.cals, s.clock)
    // The outcome is that of the retry loop over the replies given.
    ensures s.halts >= old(s.halts) && Heeded(p, old(s.replies), s.replies, ErrOf(r), s.halts > old(s.halts))
    ensures r.Ok? ==> Lists(s.cals[acc], win, raw) && Neutralized(raw, r.value)
    ensures old(s.journal.listings) <= s.journal.listings
    ensures r.Ok? ==> Shown(old(s.journal.listings), s.journal.listings, Listing(acc, win, s.cals[acc]))
  {
    raw := [];
    ghost var tries;
    var got;
    got, tries := Retrying.ListEvents(s, p, acc, win);
    HeededBy(p, old(s.replies), tries, ErrOf(got), s.halts > old(s.halts));
    if got.Err? {
      return Err(got.error), raw;
    }
    raw := got.value;
    var out := [];
    for i := 0 to |got.value|
      invariant Neutralized(got.value[..i], out)
    {
      assert got.value[..i + 1][..i] == got.value[..i];
      if got.value[i].None? {
        continue;
      }
      out := out + [EventFromGoogle(got.value[i].value)];
    }
    assert got.value[..|got.value|] == got.value;
    r := Ok(out);
  }

  ghost predicate FoundNeutral(cal: Calendar, k: Key, r: Option<NEvent>) {
    if r.None? then NoBlock(cal, k)
    else Holds(cal, r.value.id, k) && r.value == EventFromGoogle(cal[r.value.id])
  }

  method FindOwnedBlock(s: Server, p: Policy, acc: string, k: Key) returns (r: Result<Option<NEvent>, Err>)
    requires s.Valid() && acc in s.cals
    modifies s
    ensures s.log == old(s.log) && s.writes == old(s.writes)
    ensures s.faults >= old(s.faults) && (r.Err? ==> s.faults > old(s.faults))
    ensures s.Valid() && Interlude(s.quiet, s.tame, old(s.cals), old(s.clock), s.cals, s.clock)
    ensures s.halts >= old(s.halts) && Heeded(p, old(s.replies), s.replies, ErrOf(r), s.halts > old(s.halts))
    ensures r.Ok? ==> FoundNeutral(s.cals[acc], k, r.value)
  {
    ghost var tries;
    var found;
    found, tries := Retrying.FindBlockBySource(s, p, acc, k);
    HeededBy(p, old(s.replies), tries, ErrOf(found), s.halts > old(s.halts));
    if found.Err? {
      return Err(found.error);
    }
    if found.value.None? {
      return Ok(None);
    }
    var ev := found.value.value;
    WriteGateIsCollectable(ev);
    assert s.cals[acc][ev.id] == ev && s.cals[acc][ev.id].id == ev.id;
    var e := EventFromGoogle(ev);
    if !ValidForWrite(e.own) || e.own.sourceAccount != k.acc || e.own.sourceEvent != k.ev {
      return Ok(None);
    }
    r := Ok(Some(e));
  }

  /** The event a new block is inserted as. Only the span crosses over. */
  function NewBlock(title: string, start: Span, end: Span, own: Ownership): (ev: GEvent)
    ensures OwnershipFromGoogle(ev) == own
    ensures ValidForWrite(own) ==> KeyOf(ev) == Some(Key(own.sourceAccount, own.sourceEvent))
  {
    var ev := GEvent("", 0, "", title, "", "", SpanToGoogle(start), SpanToGoogle(end), "opaque", "private", [],
                     Some(OwnershipTags(own)));
    WriteGateIsCollectable(ev);
    ev
  }

  function KeyFor(own: Ownership): Key {
    Key(own.sourceAccount, own.sourceEvent)
  }

  /** `made` is the block the call stored, if nobody else writes and there was none. */
  method InsertBlock(s: Server, p: Policy, acc: string, title: string, start: Span, end: Span, own: Ownership)
    returns (r: Result<NEvent, Err>, ghost made: Option<GEvent>)
    requires s.Valid() && acc in s.cals
    modifies s
    ensures s.Valid() && s.cals.Keys == old(s.cals.Keys) && s.writes <= old(s.writes) + Attempts(p)
    ensures SafeSince(old(s.log), s.log, iset{Making(acc, NewBlock(title, start, end, own))})
    ensures s.faults >= old(s.faults) && (ValidForWrite(own) && r.Err? ==> s.faults > old(s.faults))
    ensures r.Ok? ==> KeyFor(r.value.own) == KeyFor(own)
    ensures !ValidForWrite(own) ==> r == Err(NotOwned) && unchanged(s)
    // Without a fault the log gains one creation, or nothing when there is a block.
    ensures s.faults == old(s.faults) ==> s.log == old(s.log) + Entry(acc, None, made)
    // Blocks stay unique, whatever fails.
    ensures s.tame && UniqueWorld(old(s.cals)) ==> UniqueWorld(s.cals)
    ensures s.quiet && ValidForWrite(own) && NoBlock(old(s.cals)[acc], KeyFor(own)) ==>
      && Retrying.Stored(old(s.cals), s.cals, acc, NewBlock(title, start, end, own), made)
      && (r.Ok? ==> made.Some? && r.value == EventFromGoogle(made.value))
    ensures s.quiet && ValidForWrite(own) && !NoBlock(old(s.cals)[acc], KeyFor(own)) ==>
      && s.cals == old(s.cals)
      && (r.Ok? ==> made.None? && FoundNeutral(s.cals[acc], KeyFor(own), Some(r.value)))
  {
    hide *;
    WorldIsOk(s);
    made := None;
    SafeNothing(s.log, iset{Making(acc, NewBlock(title, start, end, own))});
    NoEntry(acc, s.log);
    if !ValidForWrite(own) {
      return Err(NotOwned), made;
    }
    var k := KeyFor(own);
    var existing := FindOwnedBlock(s, p, acc, k);
    InterludeKeeps(s.quiet, s.tame, old(s.cals), old(s.clock), s.cals, s.clock);
    InterludeKeysSame(s.quiet, s.tame, old(s.cals), old(s.clock), s.cals, s.clock);
    Retrying.StoredNothing(acc, NewBlock(title, start, end, own));
    assert Retrying.Stored(s.cals, s.cals, acc, NewBlock(title, start, end, own), None);
    if existing.Err? {
      return Err(existing.error), made;
    }
    FoundNeutralMeans(s.cals[acc], k, existing.value);
    if existing.value.Some? {
      return Ok(existing.value.value), made;
    }
    NewBlockKey(title, start, end, own);
    r, made := InsertFresh(s, p, acc, k, NewBlock(title, start, end, own));
  }

  lemma NoEntry(acc: string, log: seq<Applied>)
    ensures log + Entry(acc, None, None) == log
  {
  }

  lemma FoundNeutralMeans(cal: Calendar, k: Key, r: Option<NEvent>)
    requires FoundNeutral(cal, k, r)
    ensures r.None? <==> NoBlock(cal, k)
    ensures r.Some? ==> KeyFor(r.value.own) == k
  {
    if r.Some? {
      NeutralKey(cal[r.value.id], k);
    }
  }

  lemma NewBlockKey(title: string, start: Span, end: Span, own: Ownership)
    requires ValidForWrite(own)
    ensures KeyOf(NewBlock(title, start, end, own)) == Some(KeyFor(own))
  {
  }

  lemma NeutralKey(ev: GEvent, k: Key)
    requires KeyOf(ev) == Some(k)
    ensures KeyFor(EventFromGoogle(ev).own) == k && ValidForWrite(EventFromGoogle(ev).own)
  {
  }

  /** The insert proper, with the lookup that follows an ambiguous failure. */
  method InsertFresh(s: Server, p: Policy, acc: string, k: Key, block: GEvent)
    returns (r: Result<NEvent, Err>, ghost made: Option<GEvent>)
    requires s.Valid() && acc in s.cals && NoBlock(s.cals[acc], k) && KeyOf(block) == Some(k)
    modifies s
    ensures s.Valid() && s.cals.Keys == old(s.cals.Keys) && s.writes <= old(s.writes) + Attempts(p)
    ensures SafeSince(old(s.log), s.log, iset{Making(acc, block)})
    ensures s.faults >= old(s.faults) && (r.Err? ==> s.faults > old(s.faults))
    ensures r.Ok? ==> KeyFor(r.value.own) == k
    ensures s.faults == old(s.faults) ==> made.Some? && s.log == old(s.log) + Entry(acc, None, made)
    ensures s.tame && UniqueWorld(old(s.cals)) ==> UniqueWorld(s.cals)
    ensures s.quiet ==>
      && Retrying.Stored(old(s.cals), s.cals, acc, block, made)
      && (r.Ok? ==> made.Some? && r.value == EventFromGoogle(made.value))
  {
    ghost var tries;
    var created;
    AtMost(p, s.writes);
    created, made, tries := Retrying.InsertEvent(s, p, acc, block);
    if created.Ok? {
      NeutralKey(created.value, k);
      return Ok(EventFromGoogle(created.value)), made;
    }
    r := Err(created.error);
    if IsAmbiguous(created.error) {
      ghost var w, t := s.cals, s.clock;
      var existing := FindOwnedBlock(s, p, acc, k);
      InterludeKeeps(s.quiet, s.tame, w, t, s.cals, s.clock);
      if existing.Ok? && existing.value.Some? {
        if s.quiet {
          ghost var found := s.cals[acc][existing.value.value.id];
          assert found.id == existing.value.value.id;
          Retrying.FoundIsMade(old(s.cals), s.cals, acc, block, made, Some(found));
        }
        return Ok(existing.value.value), made;
      }
    }
  }

  /** What an update of the block `b` leaves behind when nobody else writes:
      nothing, or that block moved and retitled. */
  ghost predicate Rewritten(before: World, after: World, acc: string, b: GEvent, title: string, start: Span, end: Span,
                            made: Option<GEvent>)
    requires acc in before
  {
    if made.None? then after == before
    else
      && made.value == b.(start := SpanToGoogle(start), end := SpanToGoogle(end), summary := title,
                          etag := made.value.etag)
      && after == Put(before, acc, made.value)
  }

  /** Blocks unique or not: one block with the key is moved and retitled, or
      there is none and nothing happens. */
  ghost predicate MovesOne(before: World, after: World, acc: string, k: Key, title: string, start: Span, end: Span)
    requires acc in before
  {
    if NoBlock(before[acc], k) then after == before
    else exists id, made :: MovesThis(before, after, acc, k, id, title, start, end, made)
  }

  ghost predicate MovesThis(before: World, after: World, acc: string, k: Key, id: string, title: string, start: Span,
                            end: Span, made: GEvent)
    requires acc in before
  {
    Holds(before[acc], id, k) && Rewritten(before, after, acc, before[acc][id], title, start, end, Some(made))
  }

  /** What the replies gained by a call say. */
  predicate LastIs(replies: seq<Option<Err>>, code: int) {
    replies != [] && replies[|replies| - 1] == Some(Api(code))
  }

  predicate Twice(replies: seq<Option<Err>>, code: int) {
    exists i, j :: 0 <= i < j < |replies| && replies[i] == replies[j] == Some(Api(code))
  }

  /** The last write applied carries out the intent, and `block` is what it stored. */
  predicate JustWrote(log: seq<Applied>, i: Intent, block: NEvent) {
    && log != [] && Carries(log[|log| - 1], i)
    && log[|log| - 1].after.Some? && block == EventFromGoogle(log[|log| - 1].after.value)
  }

  /** What the replies of one attempt come to, without a fault: the lookup's, and
      the write's if there was a block to write. */
  predicate AttemptReplies<T>(gained: seq<Option<Err>>, done: bool, r: Result<T, Err>) {
    if r.Ok? then done && (gained == [None] || gained == [None, None])
    else
      && gained == [None, Some(r.error)] && (r.error == Api(404) || r.error == Api(412))
      && (done <==> r.error == Api(404))
  }

  /** What the replies of a whole update come to. */
  predicate GaveUp(gained: seq<Option<Err>>) {
    LastIs(gained, 404) || Twice(gained, 412)
  }

  lemma OneAttempt<T>(before: seq<Option<Err>>, found: Option<Err>, r: Result<T, Err>)
    requires found.None?
    ensures r.Ok? ==> AttemptReplies((before + [found])[|before|..], true, r)
    ensures r.Ok? ==> AttemptReplies((before + [found] + [None])[|before|..], true, r)
    ensures r.Err? && (r.error == Api(404) || r.error == Api(412)) ==>
      AttemptReplies((before + [found] + [Some(r.error)])[|before|..], !IsPreconditionFailed(r.error), r)
    ensures before <= before + [found] <= before + [found] + [if r.Ok? then None else Some(r.error)]
  {
    assert (before + [found])[|before|..] == [found];
    assert forall x: Option<Err> :: (before + [found] + [x])[|before|..] == [found, x];
  }

  lemma OkMeansDone<T>(gained: seq<Option<Err>>, done: bool, r: Result<T, Err>)
    requires AttemptReplies(gained, done, r)
    ensures r.Ok? ==> done
  {
  }

  /** The first attempt is the last one, or the second one is. */
  lemma FirstAttemptEnds<T>(before: seq<Option<Err>>, now: seq<Option<Err>>, r: Result<T, Err>)
    requires before <= now && AttemptReplies(now[|before|..], true, r)
    ensures r.Err? <==> GaveUp(now[|before|..])
  {
  }

  lemma SecondAttemptEnds<T>(before: seq<Option<Err>>, mid: seq<Option<Err>>, now: seq<Option<Err>>, r1: Result<T, Err>,
                             done: bool, r: Result<T, Err>)
    requires before <= mid <= now
    requires AttemptReplies(mid[|before|..], false, r1) && AttemptReplies(now[|mid|..], done, r)
    ensures before <= now && (r.Err? <==> GaveUp(now[|before|..]))
  {
    var a, b, all := mid[|before|..], now[|mid|..], now[|before|..];
    assert all == a + b && a == [None, Some(Api(412))];
    if r.Err? && r.error == Api(412) {
      assert all[1] == all[3] == Some(Api(412));
    }
  }

  /** What an update of the block with this ownership means to do. */
  ghost function Retiming(acc: string, own: Ownership, title: string, start: Span, end: Span): Intent {
    Moving(acc, KeyFor(own), title, SpanToGoogle(start), SpanToGoogle(end))
  }

  function Moved(full: GEvent, title: string, start: Span, end: Span): GEvent {
    full.(start := SpanToGoogle(start), end := SpanToGoogle(end), summary := title)
  }

  /** A block that was just found may be rewritten, and is the block under its key. */
  lemma FoundToRewrite(w: World, t: nat, acc: string, own: Ownership, full: GEvent, title: string, start: Span,
                       end: Span)
    requires WorldOk(w, t) && acc in w && ValidForWrite(own)
    requires Retrying.Client.Found(w[acc], KeyFor(own), Some(full))
    ensures Holds(w[acc], full.id, KeyFor(own)) && w[acc][full.id] == full
    ensures Retrying.Current(w[acc], full)
    ensures Retrying.RewriteOf(w[acc], t, full, full.id, Moved(full, title, start, end), full.etag)
    ensures KeyOf(full).Some? && Moves(full, Moved(full, title, start, end))
    ensures Retrying.Rewriting(acc, full, Moved(full, title, start, end)) == Retiming(acc, own, title, start, end)
    ensures UniqueWorld(w) ==> BlockAt(w[acc], KeyFor(own)) == Some(full)
    ensures BlockAt(w[acc], KeyFor(own)).Some?
    ensures var reread := OwnershipFromGoogle(full); ValidForWrite(reread) && KeyFor(reread) == KeyFor(own)
  {
    assert StoredWell(w[acc], t);
    WriteGateIsCollectable(full);
    if UniqueWorld(w) {
      BlockIs(w[acc], full.id, KeyFor(own));
    }
  }

  lemma AfterRewriting(before: World, after: World, acc: string, k: Key, full: GEvent, title: string, start: Span,
                       end: Span, made: Option<GEvent>)
    requires acc in before && Holds(before[acc], full.id, k) && before[acc][full.id] == full
    requires Retrying.Written(before, after, acc, full, made)
    requires made.Some? ==> Retrying.VersionOf(made.value, Moved(full, title, start, end), full.id, full.etag)
    ensures Rewritten(before, after, acc, full, title, start, end, made)
    ensures made.Some? ==> MovesOne(before, after, acc, k, title, start, end)
  {
    if made.Some? {
      assert MovesThis(before, after, acc, k, full.id, title, start, end, made.value);
    }
  }

  lemma StoredMoved(full: GEvent, stored: GEvent, k: Key, title: string, start: Span, end: Span)
    requires Retrying.VersionOf(stored, Moved(full, title, start, end), full.id, full.etag) && KeyOf(full) == Some(k)
    ensures KeyFor(EventFromGoogle(stored).own) == k
  {
    MovingKeepsKey(full, stored);
    NeutralKey(stored, k);
  }

  lemma OneReply<T>(p: Policy, tries: seq<Option<Err>>, r: Result<T, Err>, halted: bool)
    requires |tries| == 1 && Retried(p, tries, ErrOf(r), halted) && (r.Err? ==> Retrying.RefusedUpdate(r.error))
    ensures tries == [if r.Ok? then None else Some(r.error)]
    ensures r.Err? ==> r.error == Api(404) || r.error == Api(412)
  {
    Retrying.OneTry(p, tries, r, halted);
  }

  lemma JustWritten(log: seq<Applied>, acc: string, seen: GEvent, stored: GEvent, payload: GEvent, i: Intent)
    requires log != [] && log[|log| - 1] == Applied(acc, Some(seen), Some(stored)) && KeyOf(seen).Some?
    requires Retrying.VersionOf(stored, payload, seen.id, seen.etag) && Moves(seen, payload)
    requires Retrying.Rewriting(acc, seen, payload) == i
    ensures JustWrote(log, i, EventFromGoogle(stored))
  {
  }

  lemma NoneToMove(w: World, acc: string, k: Key, title: string, start: Span, end: Span)
    requires acc in w && NoBlock(w[acc], k)
    ensures MovesOne(w, w, acc, k, title, start, end)
  {
  }

  lemma NothingRewritten(w: World, acc: string, b: GEvent, title: string, start: Span, end: Span)
    requires acc in w
    ensures Rewritten(w, w, acc, b, title, start, end, None)
  {
  }

  /** The write of one attempt, over the version `full` that was just found. */
  method WriteOver(s: Server, p: Policy, acc: string, own: Ownership, full: GEvent, title: string, start: Span,
                   end: Span)
    returns (r: Result<NEvent, Err>, ghost made: Option<GEvent>)
    requires s.Valid() && acc in s.cals && ValidForWrite(own)
    requires Retrying.Client.Found(s.cals[acc], KeyFor(own), Some(full))
    modifies s
    ensures s.Valid() && s.cals.Keys == old(s.cals.Keys)
    ensures s.writes <= old(s.writes) + Attempts(p)
    ensures SafeSince(old(s.log), s.log, iset{Retiming(acc, own, title, start, end)})
    ensures s.faults >= old(s.faults) && (s.quiet && r.Err? ==> s.faults > old(s.faults))
    ensures s.tame && UniqueWorld(old(s.cals)) ==> UniqueWorld(s.cals)
    ensures old(s.replies) <= s.replies
    ensures s.faults == old(s.faults) ==>
      && s.replies == old(s.replies) + [if r.Ok? then None else Some(r.error)]
      && (r.Err? ==> r.error == Api(404) || r.error == Api(412))
      && s.log == old(s.log) + Entry(acc, Some(full), made)
    ensures r.Ok? ==>
      JustWrote(s.log, Retiming(acc, own, title, start, end), r.value) && KeyFor(r.value.own) == KeyFor(own)
    ensures s.quiet ==>
      && Rewritten(old(s.cals), s.cals, acc, full, title, start, end, made)
      && (made.Some? ==> MovesOne(old(s.cals), s.cals, acc, KeyFor(own), title, start, end))
      && (r.Ok? ==> made.Some? && r.value == EventFromGoogle(made.value))
  {
    hide *;
    WorldIsOk(s);
    FoundToRewrite(s.cals, s.clock, acc, own, full, title, start, end);
    AtMost(p, s.writes);
    ghost var w, faults, halts := s.cals, s.faults, s.halts;
    var payload := Moved(full, title, start, end);
    var updated;
    ghost var tries;
    updated, made, tries := Retrying.UpdateEvent(s, p, acc, full.id, payload, full.etag, full);
    if s.faults == faults {
      OneReply(p, tries, updated, s.halts > halts);
    }
    if s.quiet {
      AfterRewriting(w, s.cals, acc, KeyFor(own), full, title, start, end, made);
    }
    if updated.Err? {
      return Err(updated.error), made;
    }
    JustWritten(s.log, acc, full, updated.value, payload, Retiming(acc, own, title, start, end));
    StoredMoved(full, updated.value, KeyFor(own), title, start, end);
    r := Ok(EventFromGoogle(updated.value));
  }

  /** One attempt: re-find the block, verify it, and write over the version
      read. `done` is false only after a failed precondition. */
  method UpdateAttempt(s: Server, p: Policy, acc: string, own: Ownership, title: string, start: Span, end: Span)
    returns (done: bool, r: Result<Option<NEvent>, Err>, ghost made: Option<GEvent>)
    requires s.Valid() && acc in s.cals && ValidForWrite(own)
    modifies s
    ensures s.Valid() && s.cals.Keys == old(s.cals.Keys)
    ensures s.writes <= old(s.writes) + Attempts(p)
    ensures SafeSince(old(s.log), s.log, iset{Retiming(acc, own, title, start, end)})
    ensures s.faults >= old(s.faults) && (s.quiet && r.Err? ==> s.faults > old(s.faults))
    ensures s.tame && UniqueWorld(old(s.cals)) ==> UniqueWorld(s.cals)
    ensures !done ==> r.Err? && IsPreconditionFailed(r.error)
    ensures old(s.replies) <= s.replies
    ensures s.faults == old(s.faults) ==> AttemptReplies(s.replies[|old(s.replies)|..], done, r)
    // Success is a write just applied, or there is no block with the key.
    ensures r.Ok? && r.value.Some? ==> JustWrote(s.log, Retiming(acc, own, title, start, end), r.value.value)
    ensures r.Ok? && r.value.None? ==> NoBlock(s.cals[acc], KeyFor(own))
    ensures r.Ok? && r.value.Some? ==> KeyFor(r.value.value.own) == KeyFor(own)
    ensures s.quiet && s.faults == old(s.faults) ==>
      done && r.Ok? && MovesOne(old(s.cals), s.cals, acc, KeyFor(own), title, start, end)
    ensures s.quiet && UniqueWorld(old(s.cals)) ==>
      match BlockAt(old(s.cals)[acc], KeyFor(own))
      case None => s.cals == old(s.cals) && s.log == old(s.log) && (r.Ok? ==> r.value.None?)
      case Some(b) =>
        && Rewritten(old(s.cals), s.cals, acc, b, title, start, end, made)
        && (s.faults == old(s.faults) ==> s.log == old(s.log) + Entry(acc, Some(b), made))
        && (r.Ok? ==> made.Some? && r.value == Some(EventFromGoogle(made.value)))
  {
    hide *;
    WorldIsOk(s);
    made := None;
    var k := KeyFor(own);
    ghost var tries;
    var found;
    SafeNothing(s.log, iset{Retiming(acc, own, title, start, end)});
    AtMost(p, s.writes);
    if BlockAt(s.cals[acc], k).Some? {
      NothingRewritten(s.cals, acc, BlockAt(s.cals[acc], k).value, title, start, end);
    }
    found, tries := Retrying.FindBlockBySource(s, p, acc, k);
    InterludeKeeps(s.quiet, s.tame, old(s.cals), old(s.clock), s.cals, s.clock);
    InterludeKeysSame(s.quiet, s.tame, old(s.cals), old(s.clock), s.cals, s.clock);
    if found.Err? {
      return true, Err(found.error), made;
    }
    Retrying.FoundHasKey(s.cals[acc], k, found.value);
    if found.value.None? {
      NoneToMove(s.cals, acc, k, title, start, end);
      OneAttempt<Option<NEvent>>(old(s.replies), None, Ok(None));
      return true, Ok(None), made;
    }
    var full := found.value.value;
    FoundToRewrite(s.cals, s.clock, acc, own, full, title, start, end);
    var reread := OwnershipFromGoogle(full);
    if !ValidForWrite(reread) || reread.sourceAccount != own.sourceAccount || reread.sourceEvent != own.sourceEvent {
      KeysDiffer(reread, own);
      return true, Err(NotOwned), made;
    }
    var written;
    written, made := WriteOver(s, p, acc, own, full, title, start, end);
    if written.Ok? {
      OneAttempt(old(s.replies), None, Ok(Some(written.value)));
      return true, Ok(Some(written.value)), made;
    }
    OneAttempt<Option<NEvent>>(old(s.replies), None, Err(written.error));
    return !IsPreconditionFailed(written.error), Err(written.error), made;
  }

  lemma KeysDiffer(a: Ownership, b: Ownership)
    ensures KeyFor(a) == KeyFor(b) <==> a.sourceAccount == b.sourceAccount && a.sourceEvent == b.sourceEvent
  {
  }

  /** What an update has come to so far when nobody else writes and blocks were unique. */
  ghost predicate ComesTo(acc: string, k: Key, title: string, start: Span, end: Span, w0: World, log0: seq<Applied>,
                          w: World, log: seq<Applied>, made: Option<GEvent>, r: Result<Option<NEvent>, Err>)
    requires acc in w0
  {
    var b := BlockAt(w0[acc], k);
    if b.None? then w == w0 && log == log0 && (r.Ok? ==> r.value.None?)
    else
      && Rewritten(w0, w, acc, b.value, title, start, end, made)
      && (r.Ok? ==> made.Some? && r.value == Some(EventFromGoogle(made.value)))
  }

  lemma ComesToMeans(acc: string, k: Key, title: string, start: Span, end: Span, w0: World, log0: seq<Applied>,
                     w: World, log: seq<Applied>, made: Option<GEvent>, r: Result<Option<NEvent>, Err>)
    requires acc in w0
    ensures ComesTo(acc, k, title, start, end, w0, log0, w, log, made, r) <==>
            if BlockAt(w0[acc], k).None? then w == w0 && log == log0 && (r.Ok? ==> r.value.None?)
            else
              && Rewritten(w0, w, acc, BlockAt(w0[acc], k).value, title, start, end, made)
              && (r.Ok? ==> made.Some? && r.value == Some(EventFromGoogle(made.value)))
  {
  }

  lemma ComesToNothing(acc: string, k: Key, title: string, start: Span, end: Span, w: World, log: seq<Applied>,
                       err: Err)
    requires acc in w
    ensures ComesTo(acc, k, title, start, end, w, log, w, log, None, Err(err))
  {
  }

  lemma ComesToThen(acc: string, k: Key, title: string, start: Span, end: Span, t0: nat, w0: World,
                    l0: seq<Applied>, w1: World, l1: seq<Applied>, m1: Option<GEvent>, r1: Result<Option<NEvent>, Err>,
                    w2: World, l2: seq<Applied>, m2: Option<GEvent>, r2: Result<Option<NEvent>, Err>)
    requires acc in w0 && acc in w1 && UniqueWorld(w0) && WorldOk(w0, t0)
    requires ComesTo(acc, k, title, start, end, w0, l0, w1, l1, m1, r1)
    requires ComesTo(acc, k, title, start, end, w1, l1, w2, l2, m2, r2)
    ensures ComesTo(acc, k, title, start, end, w0, l0, w2, l2, if m2.None? then m1 else m2, r2)
  {
    var b := BlockAt(w0[acc], k);
    if b.Some? {
      assert StoredWell(w0[acc], t0);
      var id :| Holds(w0[acc], id, k);
      BlockIs(w0[acc], id, k);
      hide Rewritten;
      RewrittenTwice(w0, w1, w2, acc, k, b.value, title, start, end, m1, m2);
    }
  }

  method UpdateBlock(s: Server, p: Policy, acc: string, block: NEvent, title: string, start: Span, end: Span)
    returns (r: Result<Option<NEvent>, Err>, ghost made: Option<GEvent>)
    requires s.Valid() && acc in s.cals
    modifies s
    ensures s.Valid() && s.cals.Keys == old(s.cals.Keys)
    ensures s.writes <= old(s.writes) + 2 * Attempts(p)
    // Every write hit the version of an owned block and changed only its span and title.
    ensures SafeSince(old(s.log), s.log, iset{Retiming(acc, block.own, title, start, end)})
    ensures s.faults >= old(s.faults)
    ensures s.quiet && ValidForWrite(block.own) && r.Err? ==> s.faults > old(s.faults)
    ensures r.Ok? && r.value.Some? ==> KeyFor(r.value.value.own) == KeyFor(block.own)
    ensures !ValidForWrite(block.own) ==> r == Err(NotOwned) && unchanged(s)
    ensures s.tame && UniqueWorld(old(s.cals)) ==> UniqueWorld(s.cals)
    // Success is a write just applied, or there is no block with the key.
    ensures r.Ok? && r.value.Some? ==>
      JustWrote(s.log, Retiming(acc, block.own, title, start, end), r.value.value)
    ensures r.Ok? && r.value.None? ==> NoBlock(s.cals[acc], KeyFor(block.own))
    // One edit by somebody else is survived: without a fault it fails exactly
    // when the block went under the write or two preconditions failed.
    ensures old(s.replies) <= s.replies
    ensures ValidForWrite(block.own) && s.faults == old(s.faults) ==>
      (r.Err? <==> GaveUp(s.replies[|old(s.replies)|..]))
    // Without a fault one block with the key is moved, even among duplicates.
    ensures s.quiet && ValidForWrite(block.own) && s.faults == old(s.faults) ==>
      r.Ok? && MovesOne(old(s.cals), s.cals, acc, KeyFor(block.own), title, start, end)
    ensures s.quiet && ValidForWrite(block.own) && UniqueWorld(old(s.cals)) ==>
      match BlockAt(old(s.cals)[acc], KeyFor(block.own))
      case None => s.cals == old(s.cals) && s.log == old(s.log) && (r.Ok? ==> r.value.None?)
      case Some(b) =>
        && Rewritten(old(s.cals), s.cals, acc, b, title, start, end, made)
        && (s.faults == old(s.faults) ==> s.log == old(s.log) + Entry(acc, Some(b), made))
        && (r.Ok? ==> made.Some? && r.value == Some(EventFromGoogle(made.value)))
  {
    hide *;
    WorldIsOk(s);
    made := None;
    var own := block.own;
    ghost var k, w0, t0, log0 := KeyFor(own), s.cals, s.clock, s.log;
    ghost var intent := Retiming(acc, own, title, start, end);
    SafeNothing(s.log, iset{intent});
    if !ValidForWrite(own) {
      return Err(NotOwned), made;
    }
    ghost var was: Result<Option<NEvent>, Err> := Err(NotOwned);
    ComesToNothing(acc, k, title, start, end, s.cals, s.log, NotOwned);
    for attempt := 0 to 2
      invariant s.Valid() && s.cals.Keys == w0.Keys
      invariant s.writes <= old(s.writes) + attempt * Attempts(p)
      invariant SafeSince(log0, s.log, iset{intent})
      invariant s.faults >= old(s.faults) && (s.quiet && attempt > 0 ==> s.faults > old(s.faults))
      invariant attempt == 0 ==> s.log == log0 && s.cals == w0 && made.None?
      invariant old(s.replies) <= s.replies && (attempt == 0 ==> s.replies == old(s.replies))
      invariant attempt == 1 && s.faults == old(s.faults) ==>
        AttemptReplies(s.replies[|old(s.replies)|..], false, was)
      invariant attempt == 2 && s.faults == old(s.faults) ==> GaveUp(s.replies[|old(s.replies)|..])
      invariant s.tame && UniqueWorld(w0) ==> UniqueWorld(s.cals)
      invariant s.quiet && UniqueWorld(w0) ==> ComesTo(acc, k, title, start, end, w0, log0, s.cals, s.log, made, was)
    {
      ghost var logged, w, heard, before := s.log, s.cals, s.replies, made;
      WorldIsOk(s);
      var done;
      done, r, made := UpdateAttempt(s, p, acc, own, title, start, end);
      SafeCompose(log0, logged, s.log, iset{intent}, iset{intent});
      if s.quiet && UniqueWorld(w0) {
        ComesToMeans(acc, k, title, start, end, w, logged, s.cals, s.log, made, r);
        ComesToThen(acc, k, title, start, end, t0, w0, log0, w, logged, before, was, s.cals, s.log, made, r);
        made := if made.None? then before else made;
        ComesToMeans(acc, k, title, start, end, w0, log0, s.cals, s.log, made, r);
      }
      if s.faults == old(s.faults) {
        if attempt == 1 {
          SecondAttemptEnds(old(s.replies), heard, s.replies, was, done, r);
          OkMeansDone(s.replies[|heard|..], done, r);
        } else if done {
          FirstAttemptEnds(old(s.replies), s.replies, r);
        }
      }
      if done {
        return;
      }
      was := r;
    }
    ComesToMeans(acc, k, title, start, end, w0, log0, s.cals, s.log, made, was);
    r := Err(Other("update kept failing its ownership precondition"));
  }

  lemma RewrittenTwice(w0: World, w1: World, w2: World, acc: string, k: Key, b: GEvent,
                       title: string, start: Span, end: Span, m1: Option<GEvent>, m2: Option<GEvent>)
    requires acc in w0 && UniqueWorld(w0) && BlockAt(w0[acc], k) == Some(b) && Holds(w0[acc], b.id, k)
    requires Rewritten(w0, w1, acc, b, title, start, end, m1)
    requires BlockAt(w1[acc], k).Some? ==>
      Rewritten(w1, w2, acc, BlockAt(w1[acc], k).value, title, start, end, m2)
    requires BlockAt(w1[acc], k).None? ==> w2 == w1
    ensures BlockAt(w1[acc], k).Some?
    ensures Rewritten(w0, w2, acc, b, title, start, end, if m2.None? then m1 else m2)
  {
    if m1.Some? {
      MovingKeepsKey(b, m1.value);
      ReplaceTouches(w0[acc], m1.value, k);
      assert BlockAt(w1[acc], k) == m1;
      if m2.Some? {
        assert w0[acc][b.id := m1.value][b.id := m2.value] == w0[acc][b.id := m2.value];
      }
    }
  }

  /** What a delete by ID adds to the log when nobody else writes and nothing faults. */
  function Removal(w: World, acc: string, id: string): seq<Applied> {
    if acc in w && id in w[acc] && IsOwned(w[acc][id]) then [Applied(acc, Some(w[acc][id]), None)] else []
  }

  /** What a delete comes to when nobody else writes and nothing faults. */
  predicate Deleted(before: World, after: World, acc: string, id: string, r: Option<Err>)
    requires acc in before
  {
    if id !in before[acc] then r.None? && after == before
    else if IsOwned(before[acc][id]) then r.None? && after == before[acc := before[acc] - {id}]
    else r == Some(NotOwned) && after == before
  }

  /** The event is there and somebody's own. */
  predicate Unowned(cal: Calendar, id: string) {
    id in cal && !IsOwned(cal[id])
  }

  /** What the replies of one attempt come to, without a fault: the read's, and
      the delete's if there was an owned event. */
  predicate RemovalReplies(gained: seq<Option<Err>>, cal: Calendar, id: string, done: bool, r: Option<Err>) {
    if r.None? then done && (gained == [None] || gained == [None, None])
    else
      || (done && r == Some(NotOwned) && gained == [None] && Unowned(cal, id))
      || (gained == [None, r] && (r == GONE || r == Some(Api(412))) && (done <==> r == GONE))
  }

  /** What a whole delete fails on. */
  predicate NotRemoved(gained: seq<Option<Err>>, cal: Calendar, id: string) {
    Unowned(cal, id) || LastIs(gained, 410) || Twice(gained, 412)
  }

  lemma OneRemoval(before: seq<Option<Err>>, cal: Calendar, id: string, r: Option<Err>)
    ensures r.None? ==> RemovalReplies((before + [None])[|before|..], cal, id, true, r)
    ensures r == Some(NotOwned) && Unowned(cal, id) ==> RemovalReplies((before + [None])[|before|..], cal, id, true, r)
    ensures r.None? || r == GONE || r == Some(Api(412)) ==>
      RemovalReplies((before + [None] + [r])[|before|..], cal, id, r.None? || !IsPreconditionFailed(r.value), r)
    ensures before <= before + [None] <= before + [None] + [r]
  {
    assert (before + [None])[|before|..] == [None];
    assert (before + [None] + [r])[|before|..] == [None, r];
  }

  lemma FirstRemovalEnds(before: seq<Option<Err>>, now: seq<Option<Err>>, cal: Calendar, id: string, r: Option<Err>)
    requires before <= now && RemovalReplies(now[|before|..], cal, id, true, r) && (r.None? ==> id !in cal)
    ensures r.Some? <==> NotRemoved(now[|before|..], cal, id)
  {
  }

  lemma SecondRemovalEnds(before: seq<Option<Err>>, mid: seq<Option<Err>>, now: seq<Option<Err>>, cal0: Calendar,
                          cal: Calendar, id: string, r1: Option<Err>, done: bool, r: Option<Err>)
    requires before <= mid <= now && RemovalReplies(mid[|before|..], cal0, id, false, r1)
    requires RemovalReplies(now[|mid|..], cal, id, done, r) && (r.None? ==> id !in cal)
    ensures before <= now && (r.Some? <==> NotRemoved(now[|before|..], cal, id)) && (r.None? ==> done)
  {
    var a, b, all := mid[|before|..], now[|mid|..], now[|before|..];
    assert all == a + b && a == [None, Some(Api(412))];
    if r == Some(Api(412)) {
      assert all[1] == all[3] == Some(Api(412));
    }
  }

  /** One attempt: read the event, check it, and delete the version read. `done`
      is false only after a failed precondition. */
  method DeleteAttempt(s: Server, p: Policy, acc: string, id: string) returns (done: bool, r: Option<Err>)
    requires s.Valid() && acc in s.cals
    modifies s
    ensures s.Valid() && s.cals.Keys == old(s.cals.Keys) && s.lookups == old(s.lookups)
    ensures s.writes <= old(s.writes) + Attempts(p)
    ensures SafeSince(old(s.log), s.log, iset{Dropping(acc, id)})
    ensures s.faults >= old(s.faults)
    ensures s.quiet && s.faults == old(s.faults) ==> done && Deleted(old(s.cals), s.cals, acc, id, r)
    ensures s.quiet && s.faults == old(s.faults) ==> s.log == old(s.log) + Removal(old(s.cals), acc, id)
    ensures s.tame && UniqueWorld(old(s.cals)) ==> UniqueWorld(s.cals)
    ensures !done ==> r.Some? && IsPreconditionFailed(r.value)
    ensures old(s.replies) <= s.replies
    ensures s.faults == old(s.faults) ==>
      RemovalReplies(s.replies[|old(s.replies)|..], s.cals[acc], id, done, r)
    ensures r.None? ==> id !in s.cals[acc]
    ensures s.quiet && s.cals != old(s.cals) ==>
      && id in old(s.cals)[acc] && IsOwned(old(s.cals)[acc][id])
      && s.cals == old(s.cals)[acc := old(s.cals)[acc] - {id}]
  {
    hide UniqueWorld, SafeSince, IsPreconditionFailed, Retried, ErrOf, RemovalReplies;
    SafeNothing(s.log, iset{Dropping(acc, id)});
    ghost var w0, t0 := s.cals, s.clock;
    ghost var tries;
    var got;
    got, tries := Retrying.GetEvent(s, p, acc, id);
    InterludeKeeps(s.quiet, s.tame, w0, t0, s.cals, s.clock);
    if got.Err? {
      return true, Some(got.error);
    }
    if got.value.None? {
      OneRemoval(old(s.replies), s.cals[acc], id, None);
      return true, None;
    }
    var ev := got.value.value;
    if !IsOwned(ev) {
      OneRemoval(old(s.replies), s.cals[acc], id, Some(NotOwned));
      return true, Some(NotOwned);
    }
    assert StoredWell(s.cals[acc], s.clock);
    AtMost(p, s.writes);
    r, tries := Retrying.DeleteEvent(s, p, acc, id, ev.etag, ev);
    OneRemoval(old(s.replies), s.cals[acc], id, r);
    done := r.None? || !IsPreconditionFailed(r.value);
  }

  lemma AtMost(p: Policy, writes: nat)
    ensures forall tries, err, halted :: Retried(p, tries, err, halted) ==> writes + |tries| <= writes + Attempts(p)
  {
  }

  /** Deletes an event by ID, if it is owned when read and still that version
      when deleted. Success means the event is absent. */
  method DeleteBlock(s: Server, p: Policy, acc: string, id: string) returns (r: Option<Err>)
    requires s.Valid() && acc in s.cals
    modifies s
    ensures s.Valid() && s.cals.Keys == old(s.cals.Keys) && s.lookups == old(s.lookups)
    ensures s.writes <= old(s.writes) + 2 * Attempts(p)
    ensures SafeSince(old(s.log), s.log, iset{Dropping(acc, id)})
    ensures s.faults >= old(s.faults)
    ensures s.quiet && s.faults == old(s.faults) ==> Deleted(old(s.cals), s.cals, acc, id, r)
    ensures s.quiet && s.faults == old(s.faults) ==> s.log == old(s.log) + Removal(old(s.cals), acc, id)
    ensures s.tame && UniqueWorld(old(s.cals)) ==> UniqueWorld(s.cals)
    ensures r.None? ==> id !in s.cals[acc]
    // One edit by somebody else is survived: without a fault it fails exactly
    // when the event is somebody's own, went under the delete, or two
    // preconditions failed.
    ensures old(s.replies) <= s.replies
    ensures s.faults == old(s.faults) ==>
      (r.Some? <==> NotRemoved(s.replies[|old(s.replies)|..], s.cals[acc], id))
    ensures s.quiet && s.cals != old(s.cals) ==>
      && id in old(s.cals)[acc] && IsOwned(old(s.cals)[acc][id])
      && s.cals == old(s.cals)[acc := old(s.cals)[acc] - {id}]
  {
    hide UniqueWorld, SafeSince, Attempts, RemovalReplies, NotRemoved;
    ghost var was: Option<Err> := None;
    ghost var met := s.cals[acc];
    SafeNothing(s.log, iset{Dropping(acc, id)});
    for attempt := 0 to 2
      invariant s.Valid() && s.cals.Keys == old(s.cals.Keys) && s.lookups == old(s.lookups)
      invariant s.writes <= old(s.writes) +
                            if attempt == 0 then 0 else if attempt == 1 then Attempts(p) else 2 * Attempts(p)
      invariant SafeSince(old(s.log), s.log, iset{Dropping(acc, id)})
      invariant s.faults >= old(s.faults) && (s.quiet && attempt > 0 ==> s.faults > old(s.faults))
      invariant attempt == 0 ==> s.cals == old(s.cals) && s.log == old(s.log) && s.replies == old(s.replies)
      invariant old(s.replies) <= s.replies
      invariant attempt == 1 && s.faults == old(s.faults) ==>
        RemovalReplies(s.replies[|old(s.replies)|..], met, id, false, was)
      invariant attempt == 2 && s.faults == old(s.faults) ==>
        NotRemoved(s.replies[|old(s.replies)|..], s.cals[acc], id)
      invariant s.tame && UniqueWorld(old(s.cals)) ==> UniqueWorld(s.cals)
      invariant s.quiet && s.cals != old(s.cals) ==>
        && id in old(s.cals)[acc] && IsOwned(old(s.cals)[acc][id])
        && s.cals == old(s.cals)[acc := old(s.cals)[acc] - {id}]
    {
      ghost var logged, heard := s.log, s.replies;
      var done;
      done, r := DeleteAttempt(s, p, acc, id);
      SafeCompose(old(s.log), logged, s.log, iset{Dropping(acc, id)}, iset{Dropping(acc, id)});
      if s.faults == old(s.faults) {
        if attempt == 1 {
          SecondRemovalEnds(old(s.replies), heard, s.replies, met, s.cals[acc], id, was, done, r);
        } else if done {
          FirstRemovalEnds(old(s.replies), s.replies, s.cals[acc], id, r);
        }
      }
      if done {
        return;
      }
      was, met := r, s.cals[acc];
    }
    r := Some(Other("delete kept failing its ownership precondition"));
  }
}
