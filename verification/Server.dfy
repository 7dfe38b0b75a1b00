/**
 The calendar service: every account's calendar, the version clock, other
 writers acting between calls, and calls that fail with or without effect.
 */
module Server {
  import opened Basics
  import opened Events
  import opened Calendars
  import opened Retry
  import opened WriteLog

  /** The fetch window, a predicate on an event's two endpoints. */
  type Window = (Span, Span) -> bool

  predicate InWindow(win: Window, ev: GEvent) {
    win(SpanFromGoogle(ev.start), SpanFromGoogle(ev.end))
  }

  /** One page of a listing; `next` 0 is the empty page token, and otherwise
      the number of the page it leads to. */
  datatype Page = Page(items: seq<Option<GEvent>>, next: nat)

  /** A finite chain of pages. A page may be empty and still have a successor. */
  predicate Chain(pages: seq<Page>) {
    && pages != []
    && forall i :: 0 <= i < |pages| ==> pages[i].next == if i + 1 == |pages| then 0 else i + 1
  }

  function Concat(pages: seq<Page>): seq<Option<GEvent>> {
    if pages == [] then [] else Concat(pages[..|pages| - 1]) + pages[|pages| - 1].items
  }

  /** The items are exactly the events in the window, each once, with nil
      entries anywhere. */
  predicate Lists(cal: Calendar, win: Window, items: seq<Option<GEvent>>) {
    && (forall i :: 0 <= i < |items| && items[i].Some? ==>
          var ev := items[i].value;
          ev.id in cal && cal[ev.id] == ev && InWindow(win, ev))
    && (forall id :: id in cal && InWindow(win, cal[id]) ==> Some(cal[id]) in items)
    && (forall i, j :: 0 <= i < j < |items| && items[i].Some? && items[j].Some? ==>
          items[i].value.id != items[j].value.id)
  }

  /** The answer to a filtered query covers the matching events; nothing says
      that everything in it matches. */
  predicate Answers(cal: Calendar, k: Key, items: seq<Option<GEvent>>) {
    && (forall i :: 0 <= i < |items| && items[i].Some? ==>
          var ev := items[i].value;
          ev.id in cal && cal[ev.id] == ev)
    && (forall id :: id in cal && KeyOf(cal[id]) == Some(k) ==> Some(cal[id]) in items)
  }

  /** What may happen between two calls. */
  predicate Interlude(quiet: bool, tame: bool, w0: World, t0: nat, w1: World, t1: nat) {
    && Edited(w0, t0, w1, t1)
    && (tame ==> NoNewBlocks(w0, w1))
    && (quiet ==> w0 == w1 && t0 == t1)
  }

  lemma InterludesCompose(quiet: bool, tame: bool, w0: World, t0: nat, w1: World, t1: nat, w2: World, t2: nat)
    requires Interlude(quiet, tame, w0, t0, w1, t1) && Interlude(quiet, tame, w1, t1, w2, t2)
    ensures Interlude(quiet, tame, w0, t0, w2, t2)
  {
    EditsCompose(w0, t0, w1, t1, w2, t2);
  }

  lemma InterludeNothing(quiet: bool, tame: bool, w: World, t: nat)
    requires WorldOk(w, t)
    ensures Interlude(quiet, tame, w, t, w, t)
  {
    forall a | a in w
      ensures EditedCal(w[a], t, w[a], t)
    {
      assert StoredWell(w[a], t);
    }
  }

  lemma InterludeKeysSame(quiet: bool, tame: bool, w0: World, t0: nat, w1: World, t1: nat)
    requires Interlude(quiet, tame, w0, t0, w1, t1)
    ensures w0.Keys == w1.Keys && (quiet ==> w0 == w1 && t0 == t1)
  {
  }

  lemma InterludeKeeps(quiet: bool, tame: bool, w0: World, t0: nat, w1: World, t1: nat)
    requires Interlude(quiet, tame, w0, t0, w1, t1) && WorldOk(w0, t0)
    ensures WorldOk(w1, t1)
    ensures tame && UniqueWorld(w0) ==> UniqueWorld(w1)
  {
    forall a | a in w0
      ensures StoredWell(w1[a], t1)
    {
      assert EditedCal(w0[a], t0, w1[a], t1) && StoredWell(w0[a], t0);
    }
    if tame && UniqueWorld(w0) {
      NoNewBlocksKeepUnique(w0, w1);
    }
  }

  lemma InterludeNoBlock(quiet: bool, tame: bool, w0: World, t0: nat, w1: World, t1: nat, a: string, k: Key)
    requires Interlude(quiet, tame, w0, t0, w1, t1) && tame && a in w0 && NoBlock(w0[a], k)
    ensures NoBlock(w1[a], k)
  {
    assert forall id :: Holds(w1[a], id, k) ==> Holds(w0[a], id, k);
  }

  /** The error of fetching page i, if it fails. */
  function Fault(faults: seq<Option<Err>>, i: nat): Option<Err> {
    if i < |faults| then faults[i] else None
  }

  /** What a delete of an absent event is answered. */
  const GONE := Some(Api(410))

  /** A calendar as the service had it when it answered a listing. */
  datatype Listing = Listing(acc: string, win: Window, cal: Calendar)

  /** `x` was the last of the entries added. */
  ghost predicate Shown(before: seq<Listing>, after: seq<Listing>, x: Listing) {
    before <= after && |before| < |after| && after[|after| - 1] == x
  }

  lemma ShownLater(l0: seq<Listing>, l1: seq<Listing>, l2: seq<Listing>, x: Listing)
    requires l0 <= l1 && Shown(l1, l2, x)
    ensures Shown(l0, l2, x)
  {
  }

  lemma GrowsOn(l0: seq<Listing>, l1: seq<Listing>, l2: seq<Listing>)
    requires l0 <= l1 <= l2
    ensures l0 <= l2
  {
  }

  lemma WorldIsOk(s: Server)
    requires s.Valid()
    ensures WorldOk(s.cals, s.clock) && (s.quiet ==> s.tame)
  {
  }

  lemma NewFits(w: World, t: nat, acc: string, id: string, payload: GEvent)
    requires acc in w && id !in w[acc] && id != ""
    ensures var stored := payload.(id := id, etag := t + 1);
      Fits(w, Applied(acc, None, Some(stored))) && stored.id != "" && stored.etag == t + 1
  {
  }

  lemma DeleteReplies()
    ensures GONE == Some(Api(410)) && IsGone(Api(410)) && !IsGone(Api(412)) && !IsGone(Api(503))
  {
  }

  lemma StoredFits(w: World, t: nat, acc: string, id: string, payload: GEvent)
    requires WorldOk(w, t) && acc in w && id in w[acc]
    ensures var stored := payload.(id := id, etag := t + 1);
      Fits(w, Applied(acc, Some(w[acc][id]), Some(stored))) && stored.id != "" && stored.etag == t + 1
    ensures Fits(w, Applied(acc, Some(w[acc][id]), None))
  {
    assert StoredWell(w[acc], t);
  }

  /** A call on an account's client, with the error it was answered with, if any. */
  datatype Call =
    | ListCall(acc: string, err: Option<Err>)
    | FindCall(acc: string, key: Key, err: Option<Err>)
    | WriteCall(request: Request, err: Option<Err>)

  /** The write requests among the calls, in order. */
  function WritesIn(calls: seq<Call>): seq<Request> {
    if calls == [] then []
    else
      var last := calls[|calls| - 1];
      WritesIn(calls[..|calls| - 1]) + if last.WriteCall? then [last.request] else []
  }

  lemma OneMoreCall(calls: seq<Call>, c: Call)
    ensures WritesIn(calls + [c]) == WritesIn(calls) + if c.WriteCall? then [c.request] else []
    ensures calls <= calls + [c] && (calls + [c])[|calls|..] == [c]
  {
    assert (calls + [c])[..|calls|] == calls;
  }

  /** What went over two boundaries, in order: the listings the service answered,
      and the calls on the accounts' clients with their answers. It is an object
      of its own, so the frame of a method says which of the two it can add to. */
  class Journal {
    ghost var listings: seq<Listing>
    ghost var calls: seq<Call>

    constructor ()
      ensures listings == [] && calls == []
    {
      listings, calls := [], [];
    }
  }

  class Server {
    var cals: World
    var clock: nat
    /** Every write applied, in order. */
    var log: seq<Applied>
    /** Filtered queries and write calls received, whatever became of them. */
    var lookups: nat
    var writes: nat
    /** Replies the calendars did not call for, pages that failed to arrive and
        contexts found to be done. */
    ghost var faults: nat
    /** How often a context was found to be done. */
    ghost var halts: nat
    /** The outcome of every call made through a client, in order. */
    ghost var replies: seq<Option<Err>>
    const journal: Journal
    /** Nobody else writes. */
    const quiet: bool
    /** Nobody else creates a live owned block. */
    const tame: bool
    /** The calendars at the start. */
    ghost const first: World

    ghost predicate Valid()
      reads `cals, `clock, `log
    {
      WorldOk(cals, clock) && (quiet ==> tame) && Logged(quiet, tame, first, log, cals)
    }

    constructor (cals: World, clock: nat, quiet: bool, tame: bool)
      requires WorldOk(cals, clock) && (quiet ==> tame)
      ensures Valid() && this.cals == cals && this.clock == clock && this.quiet == quiet && this.tame == tame
      ensures log == [] && lookups == 0 && writes == 0 && faults == 0 && halts == 0 && replies == [] && first == cals
      ensures fresh(journal) && journal.listings == [] && journal.calls == []
    {
      this.cals, this.clock, this.quiet, this.tame := cals, clock, quiet, tame;
      log, lookups, writes, faults, halts, replies, first := [], 0, 0, 0, 0, [], cals;
      journal := new Journal();
    }

    /** Others act. */
    method Elapse()
      requires Valid()
      modifies this`cals, this`clock
      ensures cals.Keys == old(cals.Keys)
      ensures log == old(log) && writes == old(writes) && lookups == old(lookups)
      ensures Valid() && Interlude(quiet, tame, old(cals), old(clock), cals, clock)
    {
      if !quiet {
        var next: World := *;
        var t: nat := *;
        if Interlude(quiet, tame, cals, clock, next, t) {
          InterludeKeeps(quiet, tame, cals, clock, next, t);
          if tame {
            TracedAcross(first, log, cals, next);
          }
          cals, clock := next, t;
        }
      }
    }

    /** The context's error at this moment, if it is done. */
    method Context() returns (ctx: Option<Err>)
      modifies this`faults, this`halts
      ensures ctx.None? ==> faults == old(faults) && halts == old(halts)
      ensures ctx.Some? ==> faults > old(faults) && halts > old(halts)
    {
      ctx := *;
      if ctx != None {
        faults, halts := faults + 1, halts + 1;
      }
    }

    /** Which of a listing's pages fail to arrive. */
    method PageFaults(pages: nat) returns (lost: seq<Option<Err>>)
      modifies this`faults
      ensures faults >= old(faults)
      ensures faults == old(faults) ==> forall i: nat :: i < pages ==> Fault(lost, i).None?
    {
      lost := *;
      if exists i :: 0 <= i < |lost| && lost[i].Some? {
        faults := faults + 1;
      }
    }

    /** The pages of one unfiltered listing, taken from one snapshot. */
    method OpenList(acc: string, win: Window) returns (r: Result<seq<Page>, Err>)
      requires Valid() && acc in cals
      modifies this`cals, this`clock, this`faults, journal`listings
      ensures log == old(log) && writes == old(writes) && lookups == old(lookups)
      ensures Valid() && Interlude(quiet, tame, old(cals), old(clock), cals, clock)
      ensures r.Ok? ==> Chain(r.value) && Lists(cals[acc], win, Concat(r.value))
      ensures journal.listings == old(journal.listings) + if r.Ok? then [Listing(acc, win, cals[acc])] else []
      ensures if r.Ok? then faults == old(faults) else faults > old(faults)
    {
      Elapse();
      var pages: seq<Page> := *;
      if Chain(pages) && Lists(cals[acc], win, Concat(pages)) {
        journal.listings := journal.listings + [Listing(acc, win, cals[acc])];
        r := Ok(pages);
      } else {
        var e: Err := *;
        faults := faults + 1;
        r := Err(e);
      }
    }

    /** The pages of one query filtered by source identity. */
    method OpenQuery(acc: string, k: Key) returns (r: Result<seq<Page>, Err>)
      requires Valid() && acc in cals
      modifies this`cals, this`clock, this`lookups, this`faults
      ensures log == old(log) && writes == old(writes) && lookups == old(lookups) + 1
      ensures Valid() && Interlude(quiet, tame, old(cals), old(clock), cals, clock)
      ensures r.Ok? ==> Chain(r.value) && Answers(cals[acc], k, Concat(r.value))
      ensures if r.Ok? then faults == old(faults) else faults > old(faults)
    {
      Elapse();
      lookups := lookups + 1;
      var pages: seq<Page> := *;
      if Chain(pages) && Answers(cals[acc], k, Concat(pages)) {
        r := Ok(pages);
      } else {
        var e: Err := *;
        faults := faults + 1;
        r := Err(e);
      }
    }

    /** An event by ID. A 404 is truthful. */
    method Get(acc: string, id: string) returns (r: Result<GEvent, Err>)
      requires Valid() && acc in cals
      modifies this`cals, this`clock, this`faults
      ensures log == old(log) && writes == old(writes) && lookups == old(lookups)
      ensures Valid() && Interlude(quiet, tame, old(cals), old(clock), cals, clock)
      ensures r.Ok? ==> id in cals[acc] && r.value == cals[acc][id]
      ensures r.Err? && FirstApi(r.error) == Some(404) ==> id !in cals[acc]
      ensures faults >= old(faults)
      ensures faults == old(faults) ==> r == if id in cals[acc] then Ok(cals[acc][id]) else Err(Api(404))
    {
      Elapse();
      var fault: Option<Err> := *;
      if fault.Some? {
        faults := faults + 1;
      }
      if id !in cals[acc] {
        r := Err(if fault.Some? then fault.value else Api(404));
      } else if fault.Some? && FirstApi(fault.value) != Some(404) {
        r := Err(fault.value);
      } else {
        r := Ok(cals[acc][id]);
      }
    }

    /** Creates an event under a fresh identifier. An HTTP error reply means no
        effect; any other failure may or may not have taken effect, but not
        later than the failure. `w`, `t` is the state the call met and `made`
        what it stored. */
    method Insert(acc: string, payload: GEvent)
      returns (r: Result<GEvent, Err>, ghost w: World, ghost t: nat, ghost made: Option<GEvent>)
      requires Valid() && acc in cals
      modifies this`cals, this`clock, this`writes, this`log, this`faults,
        this`replies
      ensures replies == old(replies) + [ErrOf(r)]
      ensures Valid() && writes == old(writes) + 1
      ensures Interlude(quiet, tame, old(cals), old(clock), w, t)
      ensures made.None? ==> cals == w && clock == t && log == old(log) && r.Err?
      ensures made.Some? ==>
        && made.value == payload.(id := made.value.id, etag := t + 1)
        && made.value.id !in w[acc] && made.value.id != ""
        && cals == Put(w, acc, made.value) && clock == t + 1
        && log == old(log) + [Applied(acc, None, made)]
        && (r.Ok? ==> r.value == made.value)
        && (r.Err? ==> FirstApi(r.error).None?)
      ensures if r.Ok? then faults == old(faults) else faults > old(faults)
    {
      hide *;
      Elapse();
      WorldIsOk(this);
      w, t, made := cals, clock, None;
      writes := writes + 1;
      var fault: Option<Err> := *;
      var took: bool := *;
      var id: string := *;
      if id == "" || id in cals[acc] || (fault.Some? && (!took || FirstApi(fault.value).Some?)) {
        var e: Err := *;
        faults := faults + 1;
        r := Err(if fault.Some? then fault.value else e);
        replies := replies + [ErrOf(r)];
        return;
      }
      var stored := payload.(id := id, etag := clock + 1);
      NewFits(cals, clock, acc, id, payload);
      Apply(acc, None, Some(stored));
      made := Some(stored);
      if fault.Some? {
        faults := faults + 1;
        r := Err(fault.value);
      } else {
        r := Ok(stored);
      }
      replies := replies + [ErrOf(r)];
    }

    /** Replaces an event; conditional when `ifMatch` is not the empty ETag. A
        failure may or may not have taken effect. */
    method Update(acc: string, id: string, payload: GEvent, ifMatch: nat)
      returns (r: Result<GEvent, Err>, ghost w: World, ghost t: nat, ghost made: Option<GEvent>)
      requires Valid() && acc in cals
      modifies this`cals, this`clock, this`writes, this`log, this`faults,
        this`replies
      ensures replies == old(replies) + [ErrOf(r)]
      ensures Valid() && writes == old(writes) + 1
      ensures Interlude(quiet, tame, old(cals), old(clock), w, t)
      ensures made.None? ==> cals == w && clock == t && log == old(log) && r.Err?
      ensures made.Some? ==>
        && made.value == payload.(id := id, etag := t + 1)
        && id in w[acc] && (ifMatch == 0 || w[acc][id].etag == ifMatch)
        && cals == Put(w, acc, made.value) && clock == t + 1
        && log == old(log) + [Applied(acc, Some(w[acc][id]), made)]
        && (r.Ok? ==> r.value == made.value)
      ensures faults >= old(faults)
      ensures faults == old(faults) && r.Err? ==>
        r.error == if id !in w[acc] then Api(404) else Api(412)
      ensures faults == old(faults) && id in w[acc] && (ifMatch == 0 || w[acc][id].etag == ifMatch) ==> r.Ok?
    {
      hide *;
      Elapse();
      w, t, made := cals, clock, None;
      WorldIsOk(this);
      writes := writes + 1;
      var fault: Option<Err> := *;
      var took: bool := *;
      if fault.Some? {
        faults := faults + 1;
      }
      if fault.Some? && !took {
        r := Err(fault.value);
      } else if id !in cals[acc] {
        r := Err(if fault.Some? then fault.value else Api(404));
      } else if ifMatch != 0 && cals[acc][id].etag != ifMatch {
        r := Err(if fault.Some? then fault.value else Api(412));
      } else {
        var stored := payload.(id := id, etag := clock + 1);
        StoredFits(cals, clock, acc, id, payload);
        Apply(acc, Some(cals[acc][id]), Some(stored));
        made := Some(stored);
        r := if fault.Some? then Err(fault.value) else Ok(stored);
      }
      replies := replies + [ErrOf(r)];
    }

    /** Deletes an event; conditional when `ifMatch` is not the empty ETag. A
        failure may or may not have taken effect; a 404 or 410 is truthful. */
    method Delete(acc: string, id: string, ifMatch: nat)
      returns (r: Option<Err>, ghost w: World, ghost t: nat, ghost gone: bool)
      requires Valid() && acc in cals
      modifies this`cals, this`clock, this`writes, this`log, this`faults,
        this`replies
      ensures replies == old(replies) + [r]
      ensures Valid() && writes == old(writes) + 1 && clock == t
      ensures Interlude(quiet, tame, old(cals), old(clock), w, t)
      ensures !gone ==> cals == w && log == old(log) && r.Some?
      ensures gone ==>
        && id in w[acc] && (ifMatch == 0 || w[acc][id].etag == ifMatch)
        && cals == w[acc := w[acc] - {id}]
        && log == old(log) + [Applied(acc, Some(w[acc][id]), None)]
      ensures r.Some? && IsGone(r.value) ==> id !in cals[acc]
      ensures faults >= old(faults)
      ensures faults == old(faults) && r.Some? ==>
        r == if id !in w[acc] then GONE else Some(Api(412))
      ensures faults == old(faults) && id in w[acc] && (ifMatch == 0 || w[acc][id].etag == ifMatch) ==> r.None?
    {
      DeleteReplies();
      hide *;
      Elapse();
      WorldIsOk(this);
      w, t, gone := cals, clock, false;
      writes := writes + 1;
      var fault: Option<Err> := *;
      var took: bool := *;
      if fault != None {
        faults := faults + 1;
      }
      if id !in cals[acc] {
        r := if fault.Some? then fault else GONE;
      } else if fault.Some? && !took {
        r := Some(if IsGone(fault.value) then Api(503) else fault.value);
      } else if ifMatch != 0 && cals[acc][id].etag != ifMatch {
        r := Some(if fault.Some? && !IsGone(fault.value) then fault.value else Api(412));
      } else {
        StoredFits(cals, clock, acc, id, cals[acc][id]);
        Apply(acc, Some(cals[acc][id]), None);
        gone := true;
        r := fault;
      }
      replies := replies + [r];
    }

    /** Carries out a write that fits the calendars, and logs it. A version that
        is stored takes the next ETag. */
    method Apply(acc: string, before: Option<GEvent>, after: Option<GEvent>)
      requires Valid() && Fits(cals, Applied(acc, before, after))
      requires after.Some? ==> after.value.id != "" && after.value.etag == clock + 1
      modifies this`cals, this`clock, this`log
      ensures Valid() && log == old(log) + [Applied(acc, before, after)]
      ensures after.Some? ==> cals == Put(old(cals), acc, after.value) && clock == old(clock) + 1
      ensures after.None? ==> cals == old(cals)[acc := old(cals)[acc] - {before.value.id}] && clock == old(clock)
    {
      hide Logged, WorldOk;
      var x := Applied(acc, before, after);
      StepOk(cals, clock, x);
      LoggedAfter(quiet, tame, first, log, cals, x);
      log := log + [x];
      if after.Some? {
        cals, clock := Put(cals, acc, after.value), clock + 1;
      } else {
        cals := cals[acc := cals[acc] - {before.value.id}];
      }
    }
  }
}
