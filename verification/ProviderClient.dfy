/**
 The bridge: the provider seen through the engine's own client interface. This
 is the account client the engine runs on.
 */
module ProviderClient {
  import opened Basics
  import opened Events
  import opened Calendars
  import opened Retry
  import opened Server
  import opened WriteLog
  import Provider = GoogleProvider

  /** What the engine gets from a listing: the view of every event in the
      window, each once. */
  ghost predicate Listed(cal: Calendar, win: Window, evs: seq<GEvent>) {
    && (forall i :: 0 <= i < |evs| ==>
          evs[i].id in cal && evs[i] == View(cal[evs[i].id]) && InWindow(win, cal[evs[i].id]))
    && (forall id :: id in cal && InWindow(win, cal[id]) ==> exists i :: 0 <= i < |evs| && evs[i].id == id)
    && (forall i, j :: 0 <= i < j < |evs| ==> evs[i].id != evs[j].id)
  }

  lemma {:induction false} PresentDistinct(raw: seq<Option<GEvent>>)
    requires forall i, j :: 0 <= i < j < |raw| && raw[i].Some? && raw[j].Some? ==> raw[i].value.id != raw[j].value.id
    ensures forall i, j :: 0 <= i < j < |Present(raw)| ==> Present(raw)[i].id != Present(raw)[j].id
  {
    if raw != [] {
      var front := raw[..|raw| - 1];
      PresentDistinct(front);
      forall x: GEvent | x in Present(front) && raw[|raw| - 1].Some?
        ensures x.id != raw[|raw| - 1].value.id
      {
        assert Some(x) in front;
      }
    }
  }

  lemma ViewsAreListed(cal: Calendar, clock: nat, win: Window, raw: seq<Option<GEvent>>, evs: seq<GEvent>)
    requires StoredWell(cal, clock) && Lists(cal, win, raw)
    requires |evs| == |Present(raw)| && forall i :: 0 <= i < |evs| ==> evs[i] == View(Present(raw)[i])
    ensures Listed(cal, win, evs)
  {
    PresentDistinct(raw);
    forall i | 0 <= i < |evs|
      ensures evs[i].id in cal && evs[i] == View(cal[evs[i].id]) && InWindow(win, cal[evs[i].id])
    {
      var ev := Present(raw)[i];
      ViewPreserves(ev);
      assert ev in Present(raw) && Some(ev) in raw;
    }
    forall id | id in cal && InWindow(win, cal[id])
      ensures exists i :: 0 <= i < |evs| && evs[i].id == id
    {
      assert Some(cal[id]) in raw && cal[id] in Present(raw);
      var i :| 0 <= i < |evs| && Present(raw)[i] == cal[id];
      ViewPreserves(cal[id]);
      assert evs[i].id == id;
    }
  }

  lemma NeutralIsListed(w: World, clock: nat, acc: string, win: Window, raw: seq<Option<GEvent>>, neutral: seq<NEvent>,
                        evs: seq<GEvent>)
    requires WorldOk(w, clock) && acc in w && Lists(w[acc], win, raw) && Provider.Neutralized(raw, neutral)
    requires |evs| == |neutral| && forall i :: 0 <= i < |evs| ==> evs[i] == EventToGoogle(neutral[i])
    ensures Listed(w[acc], win, evs)
  {
    assert StoredWell(w[acc], clock);
    hide StoredWell, Lists, Listed, EventToGoogle, EventFromGoogle;
    ViewsAreListed(w[acc], clock, win, raw, evs);
  }

  method ListEvents(s: Server, p: Policy, acc: string, win: Window) returns (r: Result<seq<GEvent>, Err>)
    requires s.Valid() && acc in s.cals
    modifies s, s.journal
    ensures s.log == old(s.log) && s.writes == old(s.writes) && s.lookups == old(s.lookups)
    ensures s.faults >= old(s.faults) && (r.Err? ==> s.faults > old(s.faults))
    ensures s.Valid() && Interlude(s.quiet, s.tame, old(s.cals), old(s.clock), s.cals, s.clock)
    // The call is recorded, with the outcome of its retry loop.
    ensures s.journal.calls == old(s.journal.calls) + [ListCall(acc, ErrOf(r))]
    ensures s.halts >= old(s.halts) && Heeded(p, old(s.replies), s.replies, ErrOf(r), s.halts > old(s.halts))
    // The listing is of a calendar as the service had it during the call.
    ensures r.Ok? ==> Listed(s.cals[acc], win, r.value)
    ensures old(s.journal.listings) <= s.journal.listings
    ensures r.Ok? ==> Shown(old(s.journal.listings), s.journal.listings, Listing(acc, win, s.cals[acc]))
  {
    hide *;
    ghost var raw;
    var got;
    got, raw := Provider.ListEvents(s, p, acc, win);
    InterludeKeysSame(s.quiet, s.tame, old(s.cals), old(s.clock), s.cals, s.clock);
    ErrOfMeans(got);
    s.journal.calls := s.journal.calls + [ListCall(acc, if got.Ok? then None else Some(got.error))];
    if got.Err? {
      r := Err(got.error);
      ErrOfMeans(r);
      return;
    }
    var out := [];
    for i := 0 to |got.value|
      invariant |out| == i && forall j :: 0 <= j < i ==> out[j] == EventToGoogle(got.value[j])
    {
      out := out + [EventToGoogle(got.value[i])];
    }
    WorldIsOk(s);
    NeutralIsListed(s.cals, s.clock, acc, win, raw, got.value, out);
    r := Ok(out);
    ErrOfMeans(r);
  }

  /** The view of the block under the key, None when there is no block. */
  ghost predicate FoundView(cal: Calendar, k: Key, r: Option<GEvent>) {
    if r.None? then NoBlock(cal, k)
    else Holds(cal, r.value.id, k) && r.value == View(cal[r.value.id])
  }

  method FindBlockBySource(s: Server, p: Policy, acc: string, k: Key) returns (r: Result<Option<GEvent>, Err>)
    requires s.Valid() && acc in s.cals
    modifies s, s.journal`calls
    ensures s.log == old(s.log) && s.writes == old(s.writes)
    ensures s.faults >= old(s.faults) && (r.Err? ==> s.faults > old(s.faults))
    ensures s.Valid() && Interlude(s.quiet, s.tame, old(s.cals), old(s.clock), s.cals, s.clock)
    ensures s.journal.calls == old(s.journal.calls) + [FindCall(acc, k, ErrOf(r))]
    ensures s.halts >= old(s.halts) && Heeded(p, old(s.replies), s.replies, ErrOf(r), s.halts > old(s.halts))
    ensures r.Ok? ==> FoundView(s.cals[acc], k, r.value)
  {
    var found := Provider.FindOwnedBlock(s, p, acc, k);
    match found {
      case Err(e) => r := Err(e);
      case Ok(None) => r := Ok(None);
      case Ok(Some(e)) =>
        assert StoredWell(s.cals[acc], s.clock);
        r := Ok(Some(EventToGoogle(e)));
    }
    s.journal.calls := s.journal.calls + [FindCall(acc, k, ErrOf(r))];
  }

  /** The block that inserting `ev` stores, before it has an identifier. */
  function BlockFor(ev: GEvent): GEvent {
    Provider.NewBlock(ev.summary, SpanFromGoogle(ev.start), SpanFromGoogle(ev.end), OwnershipFromGoogle(ev))
  }

  /** The two name the same source, whether or not they are blocks. */
  predicate SameSource(a: GEvent, b: GEvent) {
    Provider.KeyFor(OwnershipFromGoogle(a)) == Provider.KeyFor(OwnershipFromGoogle(b))
  }

  lemma BridgeKeepsOwner(e: NEvent)
    ensures OwnershipFromGoogle(EventToGoogle(e)) == e.own
  {
  }

  /** What an update with this payload means to do. */
  ghost function Retiming(acc: string, ev: GEvent): Intent {
    Provider.Retiming(acc, OwnershipFromGoogle(ev), ev.summary, SpanFromGoogle(ev.start), SpanFromGoogle(ev.end))
  }

  method InsertEvent(s: Server, p: Policy, acc: string, ev: GEvent)
    returns (r: Result<GEvent, Err>, ghost made: Option<GEvent>)
    requires s.Valid() && acc in s.cals
    modifies s, s.journal`calls
    ensures s.Valid() && s.cals.Keys == old(s.cals.Keys)
    ensures SafeSince(old(s.log), s.log, iset{Making(acc, BlockFor(ev))})
    ensures s.journal.calls == old(s.journal.calls) + [WriteCall(Create(acc, ev), ErrOf(r))]
    ensures s.faults >= old(s.faults)
    ensures ValidForWrite(OwnershipFromGoogle(ev)) && r.Err? ==> s.faults > old(s.faults)
    ensures r.Ok? ==> SameSource(r.value, ev)
    ensures !ValidForWrite(OwnershipFromGoogle(ev)) ==> r == Err(NotOwned) && unchanged(s)
    ensures s.tame && UniqueWorld(old(s.cals)) ==> UniqueWorld(s.cals)
    ensures s.quiet && KeyOf(ev).Some? && NoBlock(old(s.cals)[acc], KeyOf(ev).value) ==>
      && Provider.Retrying.Stored(old(s.cals), s.cals, acc, BlockFor(ev), made)
      && (r.Ok? ==> made.Some? && r.value == View(made.value))
      && (s.faults == old(s.faults) ==> s.log == old(s.log) + Entry(acc, None, made))
  {
    WriteGateIsCollectable(ev);
    SafeNothing(s.log, iset{Making(acc, BlockFor(ev))});
    hide SafeSince;
    var own := OwnershipFromGoogle(ev);
    made := None;
    if !ValidForWrite(own) {
      r := Err(NotOwned);
    } else {
      var created;
      created, made :=
        Provider.InsertBlock(s, p, acc, ev.summary, SpanFromGoogle(ev.start), SpanFromGoogle(ev.end), own);
      if created.Err? {
        r := Err(created.error);
      } else {
        BridgeKeepsOwner(created.value);
        r := Ok(EventToGoogle(created.value));
      }
    }
    s.journal.calls := s.journal.calls + [WriteCall(Create(acc, ev), ErrOf(r))];
  }

  /** One block of the payload's source, if there is any, gets its span and title. */
  ghost predicate MovesToward(before: World, after: World, acc: string, ev: GEvent)
    requires acc in before
  {
    Provider.MovesOne(before, after, acc, Provider.KeyFor(OwnershipFromGoogle(ev)), ev.summary,
                      SpanFromGoogle(ev.start), SpanFromGoogle(ev.end))
  }

  /** The caller's ETag is ignored: the provider re-reads and uses its own. */
  method UpdateEvent(s: Server, p: Policy, acc: string, id: string, ev: GEvent, ifMatch: nat)
    returns (r: Result<Option<GEvent>, Err>, ghost made: Option<GEvent>)
    requires s.Valid() && acc in s.cals
    modifies s, s.journal`calls
    ensures s.Valid() && s.cals.Keys == old(s.cals.Keys)
    ensures SafeSince(old(s.log), s.log, iset{Retiming(acc, ev)})
    ensures s.journal.calls == old(s.journal.calls) + [WriteCall(Update(acc, id, ev), ErrOf(r))]
    ensures s.faults >= old(s.faults)
    ensures s.quiet && ValidForWrite(OwnershipFromGoogle(ev)) && r.Err? ==> s.faults > old(s.faults)
    ensures r.Ok? && r.value.Some? ==> SameSource(r.value.value, ev)
    ensures !ValidForWrite(OwnershipFromGoogle(ev)) ==> r == Err(NotOwned) && unchanged(s)
    ensures s.tame && UniqueWorld(old(s.cals)) ==> UniqueWorld(s.cals)
    // One edit by somebody else is survived.
    ensures old(s.replies) <= s.replies
    ensures ValidForWrite(OwnershipFromGoogle(ev)) && s.faults == old(s.faults) ==>
      (r.Err? <==> Provider.GaveUp(s.replies[|old(s.replies)|..]))
    ensures s.quiet && ValidForWrite(OwnershipFromGoogle(ev)) && s.faults == old(s.faults) ==>
      r.Ok? && MovesToward(old(s.cals), s.cals, acc, ev)
    ensures s.quiet && KeyOf(ev).Some? && UniqueWorld(old(s.cals)) ==>
      match BlockAt(old(s.cals)[acc], KeyOf(ev).value)
      case None => s.cals == old(s.cals) && s.log == old(s.log) && (r.Ok? ==> r.value.None?)
      case Some(b) =>
        && Provider.Rewritten(old(s.cals), s.cals, acc, b, ev.summary, SpanFromGoogle(ev.start),
                              SpanFromGoogle(ev.end), made)
        && (s.faults == old(s.faults) ==> s.log == old(s.log) + Entry(acc, Some(b), made))
        && (r.Ok? ==> made.Some? && r.value == Some(View(made.value)))
  {
    WriteGateIsCollectable(ev);
    SafeNothing(s.log, iset{Retiming(acc, ev)});
    hide SafeSince, Provider.MovesOne, Provider.GaveUp, Provider.JustWrote;
    var block := EventFromGoogle(ev);
    made := None;
    if !ValidForWrite(block.own) {
      r := Err(NotOwned);
    } else {
      var updated;
      updated, made :=
        Provider.UpdateBlock(s, p, acc, block, ev.summary, SpanFromGoogle(ev.start), SpanFromGoogle(ev.end));
      match updated {
        case Err(e) => r := Err(e);
        case Ok(None) => r := Ok(None);
        case Ok(Some(e)) =>
          BridgeKeepsOwner(e);
          r := Ok(Some(EventToGoogle(e)));
      }
    }
    s.journal.calls := s.journal.calls + [WriteCall(Update(acc, id, ev), ErrOf(r))];
  }

  method DeleteEvent(s: Server, p: Policy, acc: string, id: string, ifMatch: nat) returns (r: Option<Err>)
    requires s.Valid() && acc in s.cals
    modifies s, s.journal`calls
    ensures s.Valid() && s.cals.Keys == old(s.cals.Keys) && s.lookups == old(s.lookups)
    ensures SafeSince(old(s.log), s.log, iset{Dropping(acc, id)})
    ensures s.journal.calls == old(s.journal.calls) + [WriteCall(Remove(acc, id), r)]
    ensures s.faults >= old(s.faults)
    ensures s.quiet && s.faults == old(s.faults) ==> Provider.Deleted(old(s.cals), s.cals, acc, id, r)
    ensures s.quiet && s.faults == old(s.faults) ==> s.log == old(s.log) + Provider.Removal(old(s.cals), acc, id)
    ensures s.tame && UniqueWorld(old(s.cals)) ==> UniqueWorld(s.cals)
    ensures r.None? ==> id !in s.cals[acc]
    // One edit by somebody else is survived.
    ensures old(s.replies) <= s.replies
    ensures s.faults == old(s.faults) ==>
      (r.Some? <==> Provider.NotRemoved(s.replies[|old(s.replies)|..], s.cals[acc], id))
    ensures s.quiet && s.cals != old(s.cals) ==>
      && id in old(s.cals)[acc] && IsOwned(old(s.cals)[acc][id])
      && s.cals == old(s.cals)[acc := old(s.cals)[acc] - {id}]
  {
    hide *;
    r := Provider.DeleteBlock(s, p, acc, id);
    s.journal.calls := s.journal.calls + [WriteCall(Remove(acc, id), r)];
  }
}
