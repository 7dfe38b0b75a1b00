/**
 The calendar client: page loops over the service, and local re-verification
 of what a filtered query returned.
 */
module Client {
  import opened Basics
  import opened Events
  import opened Calendars
  import opened Retry
  import opened Server

  predicate Matches(item: Option<GEvent>, k: Key) {
    item.Some? && KeyOf(item.value) == Some(k)
  }

  /** `found` is the first live owned block with exactly the identity `k`, or
      None when there is none. */
  predicate IsFirst(items: seq<Option<GEvent>>, k: Key, found: Option<GEvent>) {
    if found.None? then forall i :: 0 <= i < |items| ==> !Matches(items[i], k)
    else exists i :: 0 <= i < |items| && items[i] == found && Matches(items[i], k)
                     && forall j :: 0 <= j < i ==> !Matches(items[j], k)
  }

  lemma ConcatPrefix(pages: seq<Page>, n: nat)
    requires n <= |pages|
    ensures Concat(pages[..n]) <= Concat(pages)
  {
    if n < |pages| {
      assert pages[..|pages| - 1][..n] == pages[..n];
      ConcatPrefix(pages[..|pages| - 1], n);
    } else {
      assert pages[..n] == pages;
    }
  }

  lemma ConcatNext(pages: seq<Page>, n: nat)
    requires n < |pages|
    ensures Concat(pages[..n + 1]) == Concat(pages[..n]) + pages[n].items
  {
    assert pages[..n + 1][..n] == pages[..n];
  }

  /** Follows the page tokens to completion. */
  method ReadAll(pages: seq<Page>, faults: seq<Option<Err>>) returns (r: Result<seq<Option<GEvent>>, Err>)
    requires Chain(pages)
    ensures r.Ok? ==> r.value == Concat(pages)
    ensures r.Err? <==> exists i: nat :: i < |pages| && Fault(faults, i).Some?
    ensures r.Err? ==>
      exists i: nat :: (i < |pages| && Fault(faults, i) == Some(r.error)
                        && forall j: nat :: j < i ==> Fault(faults, j).None?)
  {
    var all := [];
    var token: nat := 0;
    while true
      invariant token < |pages| && all == Concat(pages[..token])
      invariant forall j: nat :: j < token ==> Fault(faults, j).None?
      decreases |pages| - token
    {
      var fault := Fault(faults, token);
      if fault.Some? {
        return Err(fault.value);
      }
      var page := pages[token];
      ConcatNext(pages, token);
      all := all + page.items;
      if page.next == 0 {
        break;
      }
      token := page.next;
    }
    assert pages[..|pages|] == pages;
    r := Ok(all);
  }

  /** The local checks amount to having the key. */
  lemma ChecksMeanMatch(item: Option<GEvent>, k: Key)
    ensures Matches(item, k) <==>
      (item.Some? && !IsCancelled(item.value) && IsOwned(item.value) && SourceIdentity(item.value).Some?
       && SourceIdentity(item.value).value.account == k.acc && SourceIdentity(item.value).value.event == k.ev)
  {
  }

  /** The local checks on one page. */
  method FirstOn(items: seq<Option<GEvent>>, k: Key) returns (r: Option<GEvent>)
    ensures IsFirst(items, k, r)
  {
    hide IsCancelled, IsOwned, SourceIdentity, Matches;
    for i := 0 to |items|
      invariant forall j :: 0 <= j < i ==> !Matches(items[j], k)
    {
      ChecksMeanMatch(items[i], k);
      if items[i].None? || IsCancelled(items[i].value) {
        continue;
      }
      var ev := items[i].value;
      if !IsOwned(ev) {
        continue;
      }
      var id := SourceIdentity(ev);
      if id.None? || id.value.account != k.acc || id.value.event != k.ev {
        continue;
      }
      return Some(ev);
    }
    r := None;
  }

  /** What is first on the next page is first over all, if nothing was before. */
  lemma FirstAfter(before: seq<Option<GEvent>>, items: seq<Option<GEvent>>, after: seq<Option<GEvent>>, k: Key,
                   r: Option<GEvent>)
    requires IsFirst(before, k, None) && IsFirst(items, k, r)
    ensures r.Some? ==> IsFirst(before + items + after, k, r)
    ensures r.None? ==> IsFirst(before + items, k, None)
  {
    if r.Some? {
      var i :| 0 <= i < |items| && items[i] == r && Matches(items[i], k)
               && forall j :: 0 <= j < i ==> !Matches(items[j], k);
      assert (before + items + after)[|before| + i] == r;
    }
  }

  /** Follows the page tokens until an event passes the local checks. */
  method FindIn(pages: seq<Page>, k: Key, faults: seq<Option<Err>>) returns (r: Result<Option<GEvent>, Err>)
    requires Chain(pages)
    ensures r.Ok? ==> IsFirst(Concat(pages), k, r.value)
    ensures r.Err? ==>
      exists i: nat :: (i < |pages| && Fault(faults, i) == Some(r.error)
                        && IsFirst(Concat(pages[..i]), k, None))
  {
    hide Matches;
    var token: nat := 0;
    while true
      invariant token < |pages| && IsFirst(Concat(pages[..token]), k, None)
      decreases |pages| - token
    {
      var fault := Fault(faults, token);
      if fault.Some? {
        return Err(fault.value);
      }
      var page := pages[token];
      ConcatNext(pages, token);
      ConcatPrefix(pages, token + 1);
      var found := FirstOn(page.items, k);
      ghost var before := Concat(pages[..token]);
      ghost var rest := Concat(pages)[|before + page.items|..];
      assert before + page.items + rest == Concat(pages);
      FirstAfter(before, page.items, rest, k, found);
      if found.Some? {
        return Ok(found);
      }
      if page.next == 0 {
        break;
      }
      token := page.next;
    }
    assert pages[..|pages|] == pages;
    r := Ok(None);
  }

  lemma LastShown(before: seq<Listing>, after: seq<Listing>, x: Listing)
    requires after == before + [x]
    ensures Shown(before, after, x)
  {
  }

  method ListEvents(s: Server, acc: string, win: Window) returns (r: Result<seq<Option<GEvent>>, Err>)
    requires s.Valid() && acc in s.cals
    modifies s`cals, s`clock, s`faults, s`replies, s.journal`listings
    ensures s.log == old(s.log) && s.writes == old(s.writes) && s.lookups == old(s.lookups)
    ensures s.faults >= old(s.faults) && (r.Err? ==> s.faults > old(s.faults))
    ensures s.Valid() && Interlude(s.quiet, s.tame, old(s.cals), old(s.clock), s.cals, s.clock)
    ensures r.Ok? ==> Lists(s.cals[acc], win, r.value)
    ensures s.replies == old(s.replies) + [ErrOf(r)]
    ensures old(s.journal.listings) <= s.journal.listings
    ensures r.Ok? ==> Shown(old(s.journal.listings), s.journal.listings, Listing(acc, win, s.cals[acc]))
  {
    hide *;
    var answer := s.OpenList(acc, win);
    InterludeKeysSame(s.quiet, s.tame, old(s.cals), old(s.clock), s.cals, s.clock);
    if answer.Err? {
      r := Err(answer.error);
      s.replies := s.replies + [ErrOf(r)];
      return;
    }
    LastShown(old(s.journal.listings), s.journal.listings, Listing(acc, win, s.cals[acc]));
    var faults := s.PageFaults(|answer.value|);
    r := ReadAll(answer.value, faults);
    s.replies := s.replies + [ErrOf(r)];
  }

  /** The found event is on the calendar now; None means no block has the key. */
  ghost predicate Found(cal: Calendar, k: Key, r: Option<GEvent>) {
    if r.None? then NoBlock(cal, k) else Holds(cal, r.value.id, k) && cal[r.value.id] == r.value
  }

  lemma NothingMatches(cal: Calendar, k: Key, items: seq<Option<GEvent>>)
    requires Answers(cal, k, items) && IsFirst(items, k, None)
    ensures NoBlock(cal, k)
  {
    forall id
      ensures Holds(cal, id, k) ==> exists i :: 0 <= i < |items| && Matches(items[i], k)
    {
      if Holds(cal, id, k) {
        assert Some(cal[id]) in items;
      }
    }
  }

  lemma FirstIsFound(cal: Calendar, k: Key, items: seq<Option<GEvent>>, found: Option<GEvent>)
    requires Answers(cal, k, items) && IsFirst(items, k, found)
    ensures Found(cal, k, found)
  {
    if found.None? {
      NothingMatches(cal, k, items);
    }
  }

  method FindBlockBySource(s: Server, acc: string, k: Key) returns (r: Result<Option<GEvent>, Err>)
    requires s.Valid() && acc in s.cals
    modifies s`cals, s`clock, s`lookups, s`faults, s`replies
    ensures s.log == old(s.log) && s.writes == old(s.writes) && s.lookups == old(s.lookups) + 1
    ensures s.faults >= old(s.faults) && (r.Err? ==> s.faults > old(s.faults))
    ensures s.Valid() && Interlude(s.quiet, s.tame, old(s.cals), old(s.clock), s.cals, s.clock)
    ensures r.Ok? ==> Found(s.cals[acc], k, r.value)
    ensures s.replies == old(s.replies) + [ErrOf(r)]
  {
    hide *;
    var answer := s.OpenQuery(acc, k);
    if answer.Err? {
      r := Err(answer.error);
      s.replies := s.replies + [ErrOf(r)];
      return;
    }
    InterludeKeysSame(s.quiet, s.tame, old(s.cals), old(s.clock), s.cals, s.clock);
    var faults := s.PageFaults(|answer.value|);
    r := FindIn(answer.value, k, faults);
    if r.Ok? {
      FirstIsFound(s.cals[acc], k, Concat(answer.value), r.value);
    }
    s.replies := s.replies + [ErrOf(r)];
  }

  /** A 404 is "no event", any other failure an error. */
  method GetEvent(s: Server, acc: string, id: string) returns (r: Result<Option<GEvent>, Err>)
    requires s.Valid() && acc in s.cals
    modifies s`cals, s`clock, s`faults, s`replies
    ensures s.log == old(s.log) && s.writes == old(s.writes) && s.lookups == old(s.lookups)
    ensures s.faults >= old(s.faults) && (r.Err? ==> s.faults > old(s.faults))
    ensures s.Valid() && Interlude(s.quiet, s.tame, old(s.cals), old(s.clock), s.cals, s.clock)
    ensures r.Ok? ==> r.value == if id in s.cals[acc] then Some(s.cals[acc][id]) else None
    ensures s.replies == old(s.replies) + [ErrOf(r)]
  {
    var got := s.Get(acc, id);
    match got
    case Ok(ev) =>
      r := Ok(Some(ev));
      s.replies := s.replies + [ErrOf(r)];
    case Err(e) =>
      r := if FirstApi(e) == Some(404) then Ok(None) else Err(e);
      s.replies := s.replies + [ErrOf(r)];
  }
}
