/**
 What a pass decides: classification of a listing, the block index and its
 keys, and the write each (source event, destination) pair calls for.
 */
module Plan {
  import opened Basics
  import opened Events
  import opened Calendars
  import opened Server
  import opened WriteLog
  import opened Target
  import Bridge = ProviderClient

  /******* Index keys *******/

  function IndexKey(k: Key): string {
    k.acc + "|" + k.ev
  }

  predicate NoBar(s: string) {
    '|' !in s
  }

  /** Two sources with the same index key are the same source, unless an event
      ID contains the separator. */
  lemma IndexKeyInjective(a: Key, b: Key)
    requires IndexKey(a) == IndexKey(b) && NoBar(a.ev) && NoBar(b.ev)
    ensures a == b
  {
    LastBar(a);
    LastBar(b);
    assert |a.acc| == |b.acc|;
    assert IndexKey(a)[..|a.acc|] == a.acc && IndexKey(b)[..|b.acc|] == b.acc;
    assert IndexKey(a)[|a.acc| + 1..] == a.ev && IndexKey(b)[|b.acc| + 1..] == b.ev;
  }

  lemma LastBar(k: Key)
    requires NoBar(k.ev)
    ensures IndexKey(k)[|k.acc|] == '|'
    ensures forall n :: |k.acc| < n < |IndexKey(k)| ==> IndexKey(k)[n] != '|'
  {
    forall n | |k.acc| < n < |IndexKey(k)|
      ensures IndexKey(k)[n] != '|'
    {
      assert IndexKey(k)[n] == k.ev[n - |k.acc| - 1];
    }
  }

  /** The account name of `a` runs on, past a separator, into the event ID of `b`. */
  ghost predicate SplitOf(a: Key, b: Key) {
    exists x: string :: a.acc == b.acc + "|" + x && b.ev == x + "|" + a.ev
  }

  lemma SplitsCollide(a: Key, b: Key, x: string)
    requires a.acc == b.acc + "|" + x && b.ev == x + "|" + a.ev
    ensures IndexKey(a) == IndexKey(b)
  {
    assert IndexKey(a) == b.acc + "|" + x + "|" + a.ev == b.acc + "|" + (x + "|" + a.ev);
  }

  lemma LongerAccountSplits(a: Key, b: Key)
    requires IndexKey(a) == IndexKey(b) && |a.acc| > |b.acc|
    ensures SplitOf(a, b)
  {
    var s, n := IndexKey(a), |b.acc|;
    assert s[..|a.acc|] == a.acc && s[..n] == b.acc && s[n] == '|' && s[|a.acc|] == '|';
    assert s[n + 1..] == b.ev && s[|a.acc| + 1..] == a.ev;
    var x := s[n + 1..|a.acc|];
    assert a.acc == b.acc + "|" + x;
    assert b.ev == x + "|" + a.ev;
  }

  /** Two different sources share an index key exactly when the account name of
      one is the other's, a separator and some text, and that text, a separator
      and the one's event ID are the other's event ID. */
  lemma IndexKeysCollideExactlyWhen(a: Key, b: Key)
    ensures IndexKey(a) == IndexKey(b) <==> a == b || SplitOf(a, b) || SplitOf(b, a)
  {
    if SplitOf(a, b) {
      var x :| a.acc == b.acc + "|" + x && b.ev == x + "|" + a.ev;
      SplitsCollide(a, b, x);
    }
    if SplitOf(b, a) {
      var x :| b.acc == a.acc + "|" + x && a.ev == x + "|" + b.ev;
      SplitsCollide(b, a, x);
    }
    if IndexKey(a) == IndexKey(b) {
      if |a.acc| > |b.acc| {
        LongerAccountSplits(a, b);
      } else if |b.acc| > |a.acc| {
        LongerAccountSplits(b, a);
      } else {
        assert IndexKey(a)[..|a.acc|] == a.acc && IndexKey(b)[..|b.acc|] == b.acc;
        assert IndexKey(a)[|a.acc| + 1..] == a.ev && IndexKey(b)[|b.acc| + 1..] == b.ev;
      }
    }
  }

  /** So account names without the separator are enough as well. */
  lemma PlainAccountsSuffice(a: Key, b: Key)
    requires NoBar(a.acc) && NoBar(b.acc)
    ensures IndexKey(a) == IndexKey(b) <==> a == b
  {
    IndexKeysCollideExactlyWhen(a, b);
    forall x: string
      ensures '|' in a.acc + "|" + x && '|' in b.acc + "|" + x
    {
      assert (a.acc + "|" + x)[|a.acc|] == '|' && (b.acc + "|" + x)[|b.acc|] == '|';
    }
  }

  /** No source of a block, and no event that can become one, has the separator
      in its ID. */
  ghost predicate BarFree(w: World) {
    && (forall d, id :: d in w && id in w[d] && KeyOf(w[d][id]).Some? ==> NoBar(KeyOf(w[d][id]).value.ev))
    && (forall d, id :: d in w && id in w[d] && !IsOwned(w[d][id]) ==> NoBar(id))
  }

  /******* Classification *******/

  predicate CountsAsReal(ev: GEvent) {
    !IsCancelled(ev) && !IsOwned(ev) && BlocksTime(ev)
  }

  predicate CountsAsOwned(ev: GEvent) {
    !IsCancelled(ev) && IsOwned(ev)
  }

  function RealOf(evs: seq<GEvent>): seq<GEvent> {
    if evs == [] then []
    else if CountsAsReal(evs[|evs| - 1]) then RealOf(evs[..|evs| - 1]) + [evs[|evs| - 1]]
    else RealOf(evs[..|evs| - 1])
  }

  function OwnedOf(evs: seq<GEvent>): seq<GEvent> {
    if evs == [] then []
    else if CountsAsOwned(evs[|evs| - 1]) then OwnedOf(evs[..|evs| - 1]) + [evs[|evs| - 1]]
    else OwnedOf(evs[..|evs| - 1])
  }

  type Index = map<string, GEvent>

  /** A live event of somebody's own that does not take up time. */
  predicate IsFree(ev: GEvent) {
    !IsCancelled(ev) && !IsOwned(ev) && !BlocksTime(ev)
  }

  function FreeIn(evs: seq<GEvent>): set<string> {
    set ev | ev in evs && IsFree(ev) :: ev.id
  }

  lemma {:induction false} SkippedAreFree(evs: seq<GEvent>)
    requires DistinctIds(evs)
    ensures SkippedIn(evs) == |FreeIn(evs)|
  {
    hide IsCancelled, IsOwned, BlocksTime;
    if evs == [] {
      assert FreeIn(evs) == {};
    } else {
      var front, x := evs[..|evs| - 1], evs[|evs| - 1];
      SkippedAreFree(front);
      assert evs == front + [x];
      assert FreeIn(evs) == FreeIn(front) + if IsFree(x) then {x.id} else {};
      forall ev | ev in front
        ensures ev.id != x.id
      {
        var i :| 0 <= i < |front| && front[i] == ev;
        assert evs[i].id != evs[|evs| - 1].id;
      }
    }
  }

  /** The events on the calendar, in the window, that are live, nobody's block and
      take up no time. */
  function FreeOn(cal: Calendar, win: Window): set<string> {
    set id | id in cal && InWindow(win, cal[id]) && IsFree(cal[id])
  }

  /** What a listing skips is as many as those. */
  lemma SkippedCounts(cal: Calendar, win: Window, evs: seq<GEvent>)
    requires Bridge.Listed(cal, win, evs)
    ensures SkippedIn(evs) == |FreeOn(cal, win)|
  {
    SkippedAreFree(evs);
    hide View;
    forall i | 0 <= i < |evs|
      ensures IsFree(evs[i]) <==> IsFree(cal[evs[i].id])
    {
      ViewPreserves(cal[evs[i].id]);
    }
    hide IsFree;
    forall id
      ensures id in FreeIn(evs) <==> id in FreeOn(cal, win)
    {
      if id in FreeIn(evs) {
        var ev :| ev in evs && IsFree(ev) && ev.id == id;
        var i :| 0 <= i < |evs| && evs[i] == ev;
        assert IsFree(evs[i]);
      }
      if id in FreeOn(cal, win) {
        var i :| 0 <= i < |evs| && evs[i].id == id;
        assert evs[i] in evs && IsFree(evs[i]);
      }
    }
    assert FreeIn(evs) == FreeOn(cal, win);
  }

  /** The last block listed for a key wins. */
  function IndexOf(evs: seq<GEvent>): Index {
    if evs == [] then map[]
    else
      var ev := evs[|evs| - 1];
      var front := IndexOf(evs[..|evs| - 1]);
      if KeyOf(ev).Some? then front[IndexKey(KeyOf(ev).value) := ev] else front
  }

  function SkippedIn(evs: seq<GEvent>): nat {
    if evs == [] then 0
    else
      var ev := evs[|evs| - 1];
      SkippedIn(evs[..|evs| - 1]) + if !IsCancelled(ev) && !IsOwned(ev) && !BlocksTime(ev) then 1 else 0
  }

  lemma {:induction false} ClassesAreFilters(evs: seq<GEvent>)
    ensures forall x :: x in RealOf(evs) <==> x in evs && CountsAsReal(x)
    ensures forall x :: x in OwnedOf(evs) <==> x in evs && CountsAsOwned(x)
  {
    if evs != [] {
      var front, x := evs[..|evs| - 1], evs[|evs| - 1];
      ClassesAreFilters(front);
      assert evs == front + [x];
      assert forall y :: y in evs <==> y in front || y == x;
      assert forall y :: y in RealOf(evs) <==> y in RealOf(front) || (CountsAsReal(x) && y == x);
      assert forall y :: y in OwnedOf(evs) <==> y in OwnedOf(front) || (CountsAsOwned(x) && y == x);
    }
  }

  predicate DistinctIds(evs: seq<GEvent>) {
    forall i, j :: 0 <= i < j < |evs| ==> evs[i].id != evs[j].id
  }

  lemma {:induction false} ClassesStayDistinct(evs: seq<GEvent>)
    requires DistinctIds(evs)
    ensures DistinctIds(RealOf(evs)) && DistinctIds(OwnedOf(evs))
  {
    if evs != [] {
      var front, x := evs[..|evs| - 1], evs[|evs| - 1];
      ClassesStayDistinct(front);
      ClassesAreFilters(front);
      forall y: GEvent | y in front
        ensures y.id != x.id
      {
        var i :| 0 <= i < |front| && front[i] == y;
        assert evs[i].id != evs[|evs| - 1].id;
      }
      assert forall i :: 0 <= i < |RealOf(front)| ==> RealOf(front)[i] in RealOf(front);
      assert forall i :: 0 <= i < |OwnedOf(front)| ==> OwnedOf(front)[i] in OwnedOf(front);
    }
  }

  /** An index entry is the view of the block under its key right now, the keys
      in `stale` excepted. */
  ghost predicate IndexOk(idx: Index, cal: Calendar, stale: set<Key>) {
    forall k: Key {:trigger IndexKey(k)} :: NoBar(k.ev) && k !in stale && IndexKey(k) in idx ==>
      BlockAt(cal, k).Some? && idx[IndexKey(k)] == View(BlockAt(cal, k).value)
  }

  /** Every block in the window has an index entry. */
  ghost predicate Covers(idx: Index, cal: Calendar, win: Window) {
    forall k: Key {:trigger IndexKey(k)} {:trigger BlockAt(cal, k)} ::
      BlockAt(cal, k).Some? && InWindow(win, BlockAt(cal, k).value) ==> IndexKey(k) in idx
  }

  lemma {:induction false} IndexEntries(evs: seq<GEvent>)
    ensures forall s :: s in IndexOf(evs) ==>
      IndexOf(evs)[s] in evs && KeyOf(IndexOf(evs)[s]).Some? && IndexKey(KeyOf(IndexOf(evs)[s]).value) == s
    ensures forall ev :: ev in evs && KeyOf(ev).Some? ==> IndexKey(KeyOf(ev).value) in IndexOf(evs)
  {
    if evs != [] {
      var front, x := evs[..|evs| - 1], evs[|evs| - 1];
      IndexEntries(front);
      assert evs == front + [x];
    }
  }

  /** Every entry of the index names a source with its index key, whoever writes. */
  ghost predicate IndexSane(idx: Index) {
    forall s :: s in idx ==> IndexKey(Bridge.Provider.KeyFor(OwnershipFromGoogle(idx[s]))) == s
  }

  lemma BuiltSane(evs: seq<GEvent>)
    ensures IndexSane(IndexOf(evs))
  {
    IndexEntries(evs);
    forall s | s in IndexOf(evs)
      ensures IndexKey(Bridge.Provider.KeyFor(OwnershipFromGoogle(IndexOf(evs)[s]))) == s
    {
      WriteGateIsCollectable(IndexOf(evs)[s]);
    }
  }

  /** The index built from a listing is correct, and covers every block listed. */
  lemma IndexIsBuiltRight(cal: Calendar, win: Window, evs: seq<GEvent>)
    requires Unique(cal) && Bridge.Listed(cal, win, evs)
    requires forall id :: id in cal && KeyOf(cal[id]).Some? ==> NoBar(KeyOf(cal[id]).value.ev)
    ensures IndexOk(IndexOf(evs), cal, {})
    ensures Covers(IndexOf(evs), cal, win)
  {
    IndexEntries(evs);
    forall k: Key | NoBar(k.ev) && IndexKey(k) in IndexOf(evs)
      ensures BlockAt(cal, k).Some? && IndexOf(evs)[IndexKey(k)] == View(BlockAt(cal, k).value)
    {
      var ev := IndexOf(evs)[IndexKey(k)];
      var i :| 0 <= i < |evs| && evs[i] == ev;
      ViewPreserves(cal[ev.id]);
      IndexKeyInjective(k, KeyOf(ev).value);
      BlockIs(cal, ev.id, k);
    }
    forall k | BlockAt(cal, k).Some? && InWindow(win, BlockAt(cal, k).value)
      ensures IndexKey(k) in IndexOf(evs)
    {
      var id :| Holds(cal, id, k);
      BlockIs(cal, id, k);
      var i :| 0 <= i < |evs| && evs[i].id == id;
      ViewPreserves(cal[id]);
      assert evs[i] in evs;
    }
  }

  /** After a write to one key the index is right everywhere else, and right
      there too once it points at the block that now stands there. */
  lemma IndexFollows(idx: Index, before: Calendar, after: Calendar, k: Key, t: Option<GEvent>, stale: set<Key>)
    requires Unique(before) && IndexOk(idx, before, stale) && NoBar(k.ev)
    requires Touched(before, after, k, t)
    ensures IndexOk(idx, after, stale + {k})
    ensures IndexKey(k) !in idx ==> IndexOk(idx, after, stale)
    ensures BlockAt(after, k).Some? ==> IndexOk(idx[IndexKey(k) := View(BlockAt(after, k).value)], after, stale)
  {
    forall j: Key | NoBar(j.ev) && j != k
      ensures IndexKey(j) != IndexKey(k) && BlockAt(after, j) == BlockAt(before, j)
    {
      if IndexKey(j) == IndexKey(k) {
        IndexKeyInjective(j, k);
      }
      SameElsewhere(before, after, {k}, j);
    }
  }

  /** What an index hit or a lookup yields is the view of the block under the
      key: the index is a cache of the lookup. */
  ghost function Existing(cal: Calendar, k: Key): Option<GEvent> {
    if BlockAt(cal, k).None? then None else Some(View(BlockAt(cal, k).value))
  }

  lemma LookupYieldsExisting(cal: Calendar, k: Key, found: Option<GEvent>)
    requires Unique(cal) && Bridge.FoundView(cal, k, found)
    ensures found == Existing(cal, k)
  {
    if found.Some? {
      BlockIs(cal, found.value.id, k);
    }
  }

  lemma IndexYieldsExisting(cal: Calendar, idx: Index, stale: set<Key>, k: Key)
    requires IndexOk(idx, cal, stale) && NoBar(k.ev) && k !in stale && IndexKey(k) in idx
    ensures Some(idx[IndexKey(k)]) == Existing(cal, k)
  {
  }

  /******* Requests *******/

  /** The block the engine inserts for a source event. */
  function InsertPayload(title: string, src: Account, ev: GEvent): GEvent {
    GEvent("", 0, "", title, "", "", ev.start, ev.end, "opaque", "private", [],
           Some(map[OwnerKey := OWNER_VALUE, SourceAccountKey := src.name,
                    SourceCalendarKey := src.calendarID, SourceEventKey := ev.id]))
  }

  predicate UpToDate(title: string, existing: GEvent, ev: GEvent) {
    TimesEqual(existing.start, ev.start) && TimesEqual(existing.end, ev.end) && existing.summary == title
  }

  function UpdatePayload(title: string, existing: GEvent, ev: GEvent): GEvent {
    existing.(start := ev.start, end := ev.end, summary := title)
  }

  /** Only the identifier and the span of a source decide the block asked for,
      and it carries no text, place or attendees of it; an update's payload is
      the block with another span and title and nothing else changed. */
  lemma OnlySpanCrosses(title: string, src: Account, a: GEvent, b: GEvent, existing: GEvent)
    requires a.id == b.id && a.start == b.start && a.end == b.end
    ensures InsertPayload(title, src, a) == InsertPayload(title, src, b)
    ensures UpdatePayload(title, existing, a) == UpdatePayload(title, existing, b)
    ensures Moves(existing, UpdatePayload(title, existing, a))
    ensures var block := InsertPayload(title, src, a);
      && block.description == "" && block.location == "" && block.attendees == [] && block.summary == title
      && block.transparency == "opaque" && block.visibility == "private"
      && OwnershipFromGoogle(block) == Ownership("calendar-bridge", src.name, src.calendarID, a.id)
  {
  }

  /** The write that mirroring `ev` on `dst` calls for, given the destination
      calendar. It does not depend on any index. */
  ghost function RequestFor(title: string, src: Account, ev: GEvent, dst: string, cal: Calendar): Option<Request> {
    var b := BlockAt(cal, Key(src.name, ev.id));
    if b.None? then Some(Create(dst, InsertPayload(title, src, ev)))
    else if UpToDate(title, View(b.value), ev) then None
    else Some(Update(dst, b.value.id, UpdatePayload(title, View(b.value), ev)))
  }

  /** The stored block, up to identifier and version, that the request leads to. */
  ghost function Wanted(title: string, src: Account, ev: GEvent, cal: Calendar): GEvent {
    var b := BlockAt(cal, Key(src.name, ev.id));
    if b.None? then Bridge.BlockFor(InsertPayload(title, src, ev))
    else Mirror(Strip(b.value), ev, title)
  }

  /******* Intents *******/

  /** A write meant for mirroring `ev` on `dst`: to create just the block that
      is wanted, or to give a block with its index key its span and the title. */
  predicate MirrorIntent(i: Intent, title: string, src: Account, ev: GEvent, dst: string) {
    && i.acc == dst
    && match i
       case Making(_, block) => block == Bridge.BlockFor(InsertPayload(title, src, ev))
       case Moving(_, k, t, start, end) =>
         IndexKey(k) == IndexKey(Key(src.name, ev.id)) && t == title && start == Norm(ev.start) && end == Norm(ev.end)
       case Dropping(_, _) => false
  }

  ghost function MirrorIntents(title: string, src: Account, ev: GEvent, dst: string): iset<Intent> {
    iset i | MirrorIntent(i, title, src, ev, dst)
  }

  /** A write meant for mirroring a real event of one of the sources on another account. */
  ghost predicate Mirrors(i: Intent, title: string, srcs: seq<Account>, reals: map<string, seq<GEvent>>,
                          dsts: seq<Account>) {
    exists src, ev, dst :: src in srcs && src.name in reals && ev in reals[src.name] && dst in dsts
                           && dst.name != src.name && MirrorIntent(i, title, src, ev, dst.name)
  }

  ghost function AllIntents(title: string, srcs: seq<Account>, reals: map<string, seq<GEvent>>, dsts: seq<Account>)
    : iset<Intent>
  {
    iset i | Mirrors(i, title, srcs, reals, dsts)
  }

  /** A write meant for collecting: to remove a block listed on a fetched account
      whose source account was fetched and whose index key is not live. */
  ghost predicate Collects(i: Intent, dsts: seq<Account>, owned: map<string, seq<GEvent>>, healthy: set<string>,
                           live: set<string>)
  {
    exists dst, x :: dst in dsts && dst.name in owned && x in owned[dst.name] && Stale(healthy, live, x)
                     && i == Dropping(dst.name, x.id)
  }

  ghost function DropIntents(dsts: seq<Account>, owned: map<string, seq<GEvent>>, healthy: set<string>,
                             live: set<string>)
    : iset<Intent>
  {
    iset i | Collects(i, dsts, owned, healthy, live)
  }

  /** `b` is the owned event under the ID as it was in `w`. */
  predicate Stood(w: World, acc: string, id: string, b: Option<GEvent>) {
    b.Some? && b.value.id == id && IsOwned(b.value) && acc in w && id in w[acc] && w[acc][id] == b.value
  }

  /** The write carries out the request, the calendars having been `w`: it
      creates just the block asked for, gives the block under the ID the title
      and the span and nothing else, or removes it. */
  predicate Fulfils(w: World, x: Applied, r: Request) {
    && x.acc == r.dst
    && match r
       case Create(_, block) =>
         && x.before.None? && x.after.Some?
         && x.after.value == Bridge.BlockFor(block).(id := x.after.value.id, etag := x.after.value.etag)
       case Update(_, id, block) =>
         && Stood(w, r.dst, id, x.before) && KeyOf(x.before.value) == KeyOf(block) && x.after.Some?
         && x.after.value == x.before.value.(start := Norm(block.start), end := Norm(block.end),
                                             summary := block.summary, etag := x.after.value.etag)
       case Remove(_, id) => Stood(w, r.dst, id, x.before) && x.after.None?
  }

  /** The log grew by exactly the requests: one write for each, in their order. */
  ghost predicate LogFollows(w: World, log0: seq<Applied>, log1: seq<Applied>, asked: seq<Request>) {
    && log0 <= log1 && |log1| == |log0| + |asked|
    && forall n :: 0 <= n < |asked| ==> Fulfils(w, log1[|log0| + n], asked[n])
  }

  lemma FollowsNothing(w: World, log: seq<Applied>)
    ensures LogFollows(w, log, log, [])
  {
  }

  lemma FollowsOne(w: World, log: seq<Applied>, x: Applied, r: Request)
    requires Fulfils(w, x, r)
    ensures LogFollows(w, log, log + [x], [r])
  {
  }

  lemma FollowsThen(w: World, l0: seq<Applied>, l1: seq<Applied>, l2: seq<Applied>, a1: seq<Request>,
                    a2: seq<Request>)
    requires LogFollows(w, l0, l1, a1) && LogFollows(w, l1, l2, a2)
    ensures LogFollows(w, l0, l2, a1 + a2)
  {
    hide Fulfils;
    forall n | 0 <= n < |a1 + a2|
      ensures Fulfils(w, l2[|l0| + n], (a1 + a2)[n])
    {
      if n < |a1| {
        assert (a1 + a2)[n] == a1[n] && l2[|l0| + n] == l1[|l0| + n];
      } else {
        assert (a1 + a2)[n] == a2[n - |a1|] && |l0| + n == |l1| + (n - |a1|);
      }
    }
  }

  /** The requests determine the writes, up to identifiers and versions. */
  lemma FollowedAlike(w: World, a0: seq<Applied>, a1: seq<Applied>, b0: seq<Applied>, b1: seq<Applied>,
                      asked: seq<Request>)
    requires LogFollows(w, a0, a1, asked) && LogFollows(w, b0, b1, asked)
    ensures SameWrites(a1[|a0|..], b1[|b0|..])
  {
    var a, b := a1[|a0|..], b1[|b0|..];
    forall n | 0 <= n < |a|
      ensures SameWrite(a[n], b[n])
    {
      assert a[n] == a1[|a0| + n] && b[n] == b1[|b0| + n];
      assert Fulfils(w, a1[|a0| + n], asked[n]) && Fulfils(w, b1[|b0| + n], asked[n]);
    }
  }

  /** `a` is `b` with some entries left out. */
  predicate Subsequence<T(==)>(a: seq<T>, b: seq<T>)
    decreases |b|
  {
    || a == []
    || (b != []
        && ((a[|a| - 1] == b[|b| - 1] && Subsequence(a[..|a| - 1], b[..|b| - 1])) || Subsequence(a, b[..|b| - 1])))
  }

  lemma {:induction false} SubsequenceLength<T>(a: seq<T>, b: seq<T>)
    requires Subsequence(a, b)
    ensures |a| <= |b|
    ensures |a| == |b| ==> a == b
    decreases |b|
  {
    if a != [] {
      if a[|a| - 1] == b[|b| - 1] && Subsequence(a[..|a| - 1], b[..|b| - 1]) {
        SubsequenceLength(a[..|a| - 1], b[..|b| - 1]);
        assert |a| == |b| ==> a == a[..|a| - 1] + [a[|a| - 1]] && b == b[..|b| - 1] + [b[|b| - 1]];
      } else {
        SubsequenceLength(a, b[..|b| - 1]);
      }
    }
  }

  lemma {:induction false} SubsequenceConcat<T>(a1: seq<T>, b1: seq<T>, a2: seq<T>, b2: seq<T>)
    requires Subsequence(a1, b1) && Subsequence(a2, b2)
    ensures Subsequence(a1 + a2, b1 + b2)
    decreases |b2|
  {
    if b2 == [] {
      assert a1 + a2 == a1 && b1 + b2 == b1;
    } else {
      var n := |b2| - 1;
      assert (b1 + b2)[..|b1 + b2| - 1] == b1 + b2[..n];
      if a2 != [] && a2[|a2| - 1] == b2[n] && Subsequence(a2[..|a2| - 1], b2[..n]) {
        SubsequenceConcat(a1, b1, a2[..|a2| - 1], b2[..n]);
        assert (a1 + a2)[..|a1 + a2| - 1] == a1 + a2[..|a2| - 1];
      } else {
        SubsequenceConcat(a1, b1, a2, b2[..n]);
      }
    }
  }

  function AsSeq(r: Option<Request>): seq<Request> {
    if r.None? then [] else [r.value]
  }

  ghost function PlanEvent(title: string, src: Account, ev: GEvent, dsts: seq<Account>, w: World): seq<Request> {
    if dsts == [] then []
    else
      var front, dst := dsts[..|dsts| - 1], dsts[|dsts| - 1];
      PlanEvent(title, src, ev, front, w) +
      if dst.name == src.name || dst.name !in w then [] else AsSeq(RequestFor(title, src, ev, dst.name, w[dst.name]))
  }

  ghost function PlanFrom(title: string, src: Account, evs: seq<GEvent>, dsts: seq<Account>, w: World): seq<Request> {
    if evs == [] then []
    else PlanFrom(title, src, evs[..|evs| - 1], dsts, w) + PlanEvent(title, src, evs[|evs| - 1], dsts, w)
  }

  /** Phase 2: every real event of every source on every other account. */
  ghost function PlanMirrors(title: string, srcs: seq<Account>, reals: map<string, seq<GEvent>>, dsts: seq<Account>,
                             w: World)
    : seq<Request>
  {
    if srcs == [] then []
    else
      var src := srcs[|srcs| - 1];
      PlanMirrors(title, srcs[..|srcs| - 1], reals, dsts, w) +
      if src.name in reals then PlanFrom(title, src, reals[src.name], dsts, w) else []
  }

  /** A listed block is stale when its identity is complete, its source account
      was fetched, and its source is not among the live ones. */
  predicate Stale(healthy: set<string>, live: set<string>, block: GEvent) {
    var id := SourceIdentity(block);
    id.Some? && id.value.account in healthy && IndexKey(Key(id.value.account, id.value.event)) !in live
  }

  function PlanRemovals(dst: string, blocks: seq<GEvent>, healthy: set<string>, live: set<string>): seq<Request> {
    if blocks == [] then []
    else
      var block := blocks[|blocks| - 1];
      PlanRemovals(dst, blocks[..|blocks| - 1], healthy, live) +
      if Stale(healthy, live, block) then [Remove(dst, block.id)] else []
  }

  /** Phase 3: the stale blocks of every account. */
  function PlanCollection(dsts: seq<Account>, owned: map<string, seq<GEvent>>, healthy: set<string>, live: set<string>)
    : seq<Request>
  {
    if dsts == [] then []
    else
      var dst := dsts[|dsts| - 1];
      PlanCollection(dsts[..|dsts| - 1], owned, healthy, live) +
      if dst.name in owned then PlanRemovals(dst.name, owned[dst.name], healthy, live) else []
  }

  lemma PayloadHasKey(title: string, src: Account, ev: GEvent)
    requires src.name != "" && src.calendarID != "" && ev.id != ""
    ensures KeyOf(InsertPayload(title, src, ev)) == Some(Key(src.name, ev.id))
  {
  }

  lemma UpToDateIffMirrored(title: string, block: GEvent, ev: GEvent)
    requires ev == View(ev) && IsOwned(block)
    ensures UpToDate(title, View(block), ev) <==> Strip(block) == Mirror(Strip(block), ev, title)
  {
    ViewPreserves(ev);
    ViewPreserves(block);
  }

  /** No write is called for exactly when the block already is what is wanted. */
  lemma NoRequestIffWanted(title: string, src: Account, ev: GEvent, dst: string, cal: Calendar)
    requires ev == View(ev) && src.name != "" && src.calendarID != "" && ev.id != ""
    ensures RequestFor(title, src, ev, dst, cal).None? <==>
            At(cal, Key(src.name, ev.id)) == Some(Wanted(title, src, ev, cal))
    ensures KeyOf(InsertPayload(title, src, ev)) == Some(Key(src.name, ev.id))
  {
    PayloadHasKey(title, src, ev);
    var b := BlockAt(cal, Key(src.name, ev.id));
    if b.Some? {
      UpToDateIffMirrored(title, b.value, ev);
      hide UpToDate, View, Strip, Mirror;
      assert IsOwned(b.value);
    }
  }

  /** The wanted block is the goal of its key. */
  lemma WantedIsGoal(cfg: Config, healthy: set<string>, w: World, src: Account, ev: GEvent, dst: string)
    requires ConfigOk(cfg) && src in cfg.accounts && src.name in healthy && src.name in w && dst in w && dst != src.name
    requires ev.id in w[src.name] && ev == View(w[src.name][ev.id]) && Real(cfg.win, w[src.name][ev.id])
    ensures Live(cfg, healthy, w, Key(src.name, ev.id))
    ensures Goal(cfg, healthy, w, dst, Key(src.name, ev.id)) == Some(Wanted(cfg.title, src, ev, w[dst]))
  {
    CalendarOfIs(cfg.accounts, src);
    ViewPreserves(w[src.name][ev.id]);
    assert OwnershipFromGoogle(InsertPayload(cfg.title, src, ev)) ==
           Ownership(OWNER_VALUE, src.name, src.calendarID, ev.id);
  }

  lemma {:induction false} CalendarOfIs(accounts: seq<Account>, a: Account)
    requires a in accounts
    requires forall i, j :: 0 <= i < j < |accounts| ==> accounts[i].name != accounts[j].name
    ensures CalendarOf(accounts, a.name) == a.calendarID
  {
    if accounts[0] != a {
      var i :| 0 <= i < |accounts| && accounts[i] == a;
      assert accounts[1..][i - 1] == a;
      CalendarOfIs(accounts[1..], a);
    }
  }
}
