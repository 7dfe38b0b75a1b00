/**
 What every write of a pass was decided from, whoever else writes, whatever
 fails, and whether or not blocks are unique or event IDs free of separators.
 */
module Safety {
  import opened Basics
  import opened Events
  import opened Calendars
  import opened Server
  import opened WriteLog
  import opened Target
  import opened Plan
  import opened Engine
  import opened Mirroring
  import opened Collecting
  import opened Pass
  import Bridge = ProviderClient

  /** What was fetched is classified from `seen`, calendars that the service had
      when it answered the listings `shown`. */
  ghost predicate FetchShown(e: Engine, f: Fetched, listing: map<string, seq<GEvent>>, seen: World,
                             shown: seq<Listing>) {
    FetchOf(e.cfg.accounts, e.cfg.win, f, listing, seen) && SeenShown(e.cfg.win, seen, shown)
  }

  /** `b` is an owned block on the account's calendar as the service listed it. */
  ghost predicate ShownBlock(win: Window, f: Fetched, seen: World, shown: seq<Listing>, acc: string, b: GEvent) {
    && acc in f.owned && b in f.owned[acc]
    && acc in seen && Listing(acc, win, seen[acc]) in shown
    && b.id in seen[acc] && b == View(seen[acc][b.id]) && IsOwned(seen[acc][b.id])
  }

  /** `ev` is a live real event on the account's calendar as the service listed it. */
  ghost predicate ShownEvent(win: Window, f: Fetched, seen: World, shown: seq<Listing>, src: Account, ev: GEvent) {
    && src in f.healthy && src.name in f.reals && ev in f.reals[src.name]
    && src.name in seen && Listing(src.name, win, seen[src.name]) in shown
    && ev.id in seen[src.name] && ev == View(seen[src.name][ev.id])
    && Real(win, seen[src.name][ev.id])
  }

  /** The write puts the title and the span of a source on a block and nothing
      else of it: on a new block tagged with the source, or on one that goes by
      its index key. */
  predicate PutsSpan(title: string, src: Account, ev: GEvent, x: Applied) {
    && x.after.Some? && x.acc != src.name
    && x.after.value.summary == title
    && x.after.value.start == Norm(ev.start) && x.after.value.end == Norm(ev.end)
    && match x.before
       case None =>
         && x.after.value.description == "" && x.after.value.location == "" && x.after.value.attendees == []
         && x.after.value.transparency == "opaque" && x.after.value.visibility == "private"
         && OwnershipFromGoogle(x.after.value) == Ownership(OWNER_VALUE, src.name, src.calendarID, ev.id)
       case Some(b) =>
         && Moves(b, x.after.value) && KeyOf(b).Some?
         && IndexKey(KeyOf(b).value) == IndexKey(KeyOfSource(src, ev))
  }

  ghost predicate MirrorsShown(e: Engine, f: Fetched, seen: World, shown: seq<Listing>, x: Applied) {
    exists src, ev :: ShownEvent(e.cfg.win, f, seen, shown, src, ev) && PutsSpan(e.cfg.title, src, ev, x)
  }

  /** The write removes an event owned at that step, under the ID of a block that
      was shown as stale: its source account was fetched, its source not live. */
  predicate DropsBlock(f: Fetched, x: Applied, b: GEvent, live: set<string>) {
    && x.before.Some? && x.after.None? && IsOwned(x.before.value)
    && x.before.value.id == b.id && Stale(Names(f.healthy), live, b)
  }

  ghost predicate DropsShown(win: Window, f: Fetched, seen: World, shown: seq<Listing>, x: Applied) {
    exists b :: ShownBlock(win, f, seen, shown, x.acc, b) && DropsBlock(f, x, b, LiveSet(f.healthy, f.reals))
  }

  lemma ShownEventsAre(e: Engine, f: Fetched, listing: map<string, seq<GEvent>>, seen: World,
                       shown: seq<Listing>, src: Account, ev: GEvent)
    requires FetchShown(e, f, listing, seen, shown) && src in f.healthy
    requires src.name in f.reals && ev in f.reals[src.name]
    ensures ShownEvent(e.cfg.win, f, seen, shown, src, ev)
  {
    hide Bridge.Listed;
    assert Took(e.cfg.win, f, listing, seen, src.name);
    ListedReal(e.cfg.win, seen[src.name], listing[src.name], ev);
  }

  lemma ListedReal(win: Window, cal: Calendar, evs: seq<GEvent>, ev: GEvent)
    requires Bridge.Listed(cal, win, evs) && ev in RealOf(evs)
    ensures ev.id in cal && ev == View(cal[ev.id]) && Real(win, cal[ev.id])
  {
    ClassesAreFilters(evs);
    var i :| 0 <= i < |evs| && evs[i] == ev;
    ViewPreserves(cal[ev.id]);
  }

  lemma ShownBlocksAre(e: Engine, f: Fetched, listing: map<string, seq<GEvent>>, seen: World,
                       shown: seq<Listing>, dst: Account, b: GEvent)
    requires FetchShown(e, f, listing, seen, shown) && dst in f.healthy
    requires dst.name in f.owned && b in f.owned[dst.name]
    ensures ShownBlock(e.cfg.win, f, seen, shown, dst.name, b)
  {
    hide Bridge.Listed;
    assert Took(e.cfg.win, f, listing, seen, dst.name);
    ListedOwned(e.cfg.win, seen[dst.name], listing[dst.name], b);
  }

  lemma ListedOwned(win: Window, cal: Calendar, evs: seq<GEvent>, b: GEvent)
    requires Bridge.Listed(cal, win, evs) && b in OwnedOf(evs)
    ensures b.id in cal && b == View(cal[b.id]) && IsOwned(cal[b.id])
  {
    ClassesAreFilters(evs);
    var i :| 0 <= i < |evs| && evs[i] == b;
    ViewPreserves(cal[b.id]);
  }

  lemma IntentPutsSpan(title: string, src: Account, ev: GEvent, dst: string, i: Intent, x: Applied)
    requires MirrorIntent(i, title, src, ev, dst) && Carries(x, i) && dst != src.name
    ensures PutsSpan(title, src, ev, x)
  {
  }

  /** Every write of a pass is to a fetched account; up to `midway` it mirrors an
      event that was live on its account when the service listed that, and after
      that it removes a block listed as stale. */
  lemma EveryWriteIsDecided(e: Engine, f: Fetched, listing: map<string, seq<GEvent>>, seen: World,
                            shown: seq<Listing>, log0: seq<Applied>, midway: seq<Applied>, log1: seq<Applied>, n: nat)
    requires FetchShown(e, f, listing, seen, shown) && PassWrote(e, f, log0, midway, log1)
    requires |log0| <= n < |log1|
    ensures log0 <= midway <= log1 && log1[n].acc in Names(f.healthy)
    ensures n < |midway| ==> MirrorsShown(e, f, seen, shown, log1[n])
    ensures n >= |midway| ==> DropsShown(e.cfg.win, f, seen, shown, log1[n])
  {
    hide FetchShown, LiveSet, PutsSpan, Stale;
    var mirrors := AllIntents(e.cfg.title, f.healthy, f.reals, f.healthy);
    SafeSinceMeans(log0, midway, mirrors);
    SafeSinceMeans(midway, log1, DropIntents(f.healthy, f.owned, Names(f.healthy), LiveSet(f.healthy, f.reals)));
    var x := log1[n];
    if n < |midway| {
      assert x == midway[n];
      var i :| i in mirrors && Carries(x, i);
      var src, ev, dst :| src in f.healthy && src.name in f.reals && ev in f.reals[src.name] && dst in f.healthy
                          && dst.name != src.name && MirrorIntent(i, e.cfg.title, src, ev, dst.name);
      ShownEventsAre(e, f, listing, seen, shown, src, ev);
      IntentPutsSpan(e.cfg.title, src, ev, dst.name, i, x);
    } else {
      var i :| i in DropIntents(f.healthy, f.owned, Names(f.healthy), LiveSet(f.healthy, f.reals)) && Carries(x, i);
      var dst, b :| dst in f.healthy && dst.name in f.owned && b in f.owned[dst.name]
                    && Stale(Names(f.healthy), LiveSet(f.healthy, f.reals), b) && i == Dropping(dst.name, b.id);
      ShownBlocksAre(e, f, listing, seen, shown, dst, b);
      assert DropsBlock(f, x, b, LiveSet(f.healthy, f.reals));
    }
  }

  /** A calendar whose fetch failed is not written, and no block shown as
      mirroring a failed or unknown account is removed anywhere. */
  lemma FailedAccountsAreSafe(e: Engine, f: Fetched, listing: map<string, seq<GEvent>>, seen: World,
                              shown: seq<Listing>, log0: seq<Applied>, midway: seq<Applied>, log1: seq<Applied>,
                              gone: string, n: nat)
    requires FetchShown(e, f, listing, seen, shown) && PassWrote(e, f, log0, midway, log1)
    requires gone !in Names(f.healthy) && |log0| <= n < |log1|
    ensures log1[n].acc != gone
    ensures log1[n].after.None? ==> exists b ::
      && ShownBlock(e.cfg.win, f, seen, shown, log1[n].acc, b)
      && log1[n].before.Some? && b.id == log1[n].before.value.id
      && SourceIdentity(b).Some? && SourceIdentity(b).value.account != gone
  {
    EveryWriteIsDecided(e, f, listing, seen, shown, log0, midway, log1, n);
    if n < |midway| {
      var src, ev :| ShownEvent(e.cfg.win, f, seen, shown, src, ev) && PutsSpan(e.cfg.title, src, ev, log1[n]);
    }
  }

  /** An event both written and removed in one pass was shown under another
      source than the one it was written for. */
  lemma WrittenThenRemoved(e: Engine, f: Fetched, listing: map<string, seq<GEvent>>, seen: World,
                           shown: seq<Listing>, log0: seq<Applied>, midway: seq<Applied>, log1: seq<Applied>,
                           i: nat, j: nat)
    returns (b: GEvent, src: Account, ev: GEvent)
    requires FetchShown(e, f, listing, seen, shown) && PassWrote(e, f, log0, midway, log1)
    requires |log0| <= i < |midway| <= j < |log1| && log1[i].acc == log1[j].acc
    requires midway <= log1 && log1[j].before.Some? && log1[i].after.Some?
    requires log1[j].before.value.id == log1[i].after.value.id
    ensures ShownBlock(e.cfg.win, f, seen, shown, log1[j].acc, b) && b.id == log1[j].before.value.id
    ensures ShownEvent(e.cfg.win, f, seen, shown, src, ev) && PutsSpan(e.cfg.title, src, ev, log1[i])
    ensures SourceIdentity(b).Some? && Provenance(b) != IndexKey(KeyOfSource(src, ev))
  {
    EveryWriteIsDecided(e, f, listing, seen, shown, log0, midway, log1, i);
    EveryWriteIsDecided(e, f, listing, seen, shown, log0, midway, log1, j);
    hide FetchShown, PassWrote, PutsSpan;
    src, ev :| ShownEvent(e.cfg.win, f, seen, shown, src, ev) && PutsSpan(e.cfg.title, src, ev, log1[i]);
    b :| ShownBlock(e.cfg.win, f, seen, shown, log1[j].acc, b)
         && DropsBlock(f, log1[j], b, LiveSet(f.healthy, f.reals));
    ShownIsLive(e.cfg.win, f, seen, shown, src, ev);
    StaleIsNotLive(Names(f.healthy), LiveSet(f.healthy, f.reals), b);
  }

  lemma ShownIsLive(win: Window, f: Fetched, seen: World, shown: seq<Listing>, src: Account, ev: GEvent)
    requires ShownEvent(win, f, seen, shown, src, ev)
    ensures IndexKey(KeyOfSource(src, ev)) in LiveSet(f.healthy, f.reals)
  {
  }

  lemma StaleIsNotLive(names: set<string>, live: set<string>, b: GEvent)
    requires Stale(names, live, b)
    ensures SourceIdentity(b).Some? && Provenance(b) !in live
  {
  }

  /** The index key of the source a block names. */
  function Provenance(b: GEvent): string {
    IndexKey(Bridge.Provider.KeyFor(OwnershipFromGoogle(b)))
  }

  /** With nobody else writing, events outlast writes that remove nothing, and
      name the source they named. */
  lemma {:induction false} EventsOutlast(first: World, l0: seq<Applied>, l1: seq<Applied>, allowed: iset<Intent>,
                                         w0: World, w1: World, a: string, id: string)
    requires SafeSince(l0, l1, allowed) && forall i :: i in allowed ==> !i.Dropping?
    requires Replay(first, l0) == Some(w0) && Replay(first, l1) == Some(w1)
    requires a in w0 && id in w0[a]
    ensures a in w1 && id in w1[a] && OwnershipFromGoogle(w1[a][id]) == OwnershipFromGoogle(w0[a][id])
    decreases |l1|
  {
    if l0 != l1 {
      var x, front := l1[|l1| - 1], l1[..|l1| - 1];
      var w := Replay(first, front).value;
      EventsOutlast(first, l0, front, allowed, w0, w, a, id);
      var i :| i in allowed && Carries(x, i);
    }
  }

  /** What a write finds under an ID names the source it writes for. */
  lemma FoundUnderId(title: string, src: Account, ev: GEvent, w: World, x: Applied, id: string)
    requires PutsSpan(title, src, ev, x) && Fits(w, x) && id in w[x.acc] && x.after.value.id == id
    ensures Provenance(w[x.acc][id]) == IndexKey(KeyOfSource(src, ev))
  {
    WriteGateIsCollectable(w[x.acc][id]);
  }

  /** The calendars that the i-th write met. */
  lemma MetBy(first: World, log0: seq<Applied>, midway: seq<Applied>, log1: seq<Applied>, allowed: iset<Intent>,
              w1: World,
              i: nat)
    returns (w: World)
    requires SafeSince(log0, midway, allowed) && midway <= log1 && |log0| <= i < |midway|
    requires Replay(first, log1) == Some(w1)
    ensures Replay(first, log1[..i]) == Some(w) && Fits(w, log1[i]) && SafeSince(log0, log1[..i], allowed)
  {
    SafePrefix(log0, midway, allowed, i);
    ReplayPrefix(first, log1, i + 1);
    var upTo := log1[..i + 1];
    assert upTo[..i] == log1[..i] == midway[..i] && upTo[|upTo| - 1] == log1[i];
    hide SafeSince, Fits;
    w := Replay(first, log1[..i]).value;
  }

  /** With nobody else writing the collector never removes a block that the
      mirroring of the same pass wrote. */
  lemma CollectorSparesMirrored(e: Engine, f: Fetched, listing: map<string, seq<GEvent>>, seen: World,
                                shown: seq<Listing>, first: World, w0: World, w1: World, log0: seq<Applied>,
                                midway: seq<Applied>, log1: seq<Applied>, i: nat, j: nat)
    requires FetchShown(e, f, listing, seen, shown) && PassWrote(e, f, log0, midway, log1)
    requires Replay(first, log0) == Some(w0) && Replay(first, log1) == Some(w1) && SeenIn(seen, w0)
    requires log0 <= midway <= log1 && |log0| <= i < |midway| <= j < |log1|
    ensures log1[i].acc != log1[j].acc || log1[j].before.None? || log1[i].after.None?
            || log1[j].before.value.id != log1[i].after.value.id
  {
    hide FetchShown, Replay, SafeSince, LiveSet, Fits, ShownEvent, PutsSpan;
    if log1[i].acc == log1[j].acc && log1[j].before.Some? && log1[i].after.Some?
       && log1[j].before.value.id == log1[i].after.value.id {
      var b, src, ev := WrittenThenRemoved(e, f, listing, seen, shown, log0, midway, log1, i, j);
      var mirrors := AllIntents(e.cfg.title, f.healthy, f.reals, f.healthy);
      var w := MetBy(first, log0, midway, log1, mirrors, w1, i);
      EventsOutlast(first, log0, log1[..i], mirrors, w0, w, log1[i].acc, b.id);
      ViewPreserves(w0[log1[i].acc][b.id]);
      FoundUnderId(e.cfg.title, src, ev, w, log1[i], b.id);
      assert false;
    }
  }

  lemma {:induction false} SafePrefix(before: seq<Applied>, after: seq<Applied>, allowed: iset<Intent>, n: nat)
    requires SafeSince(before, after, allowed) && |before| <= n <= |after|
    ensures SafeSince(before, after[..n], allowed)
    decreases |after|
  {
    if before == after {
      assert after[..n] == after;
    } else if n == |after| {
      assert after[..n] == after;
    } else {
      assert after[..|after| - 1][..n] == after[..n];
      SafePrefix(before, after[..|after| - 1], allowed, n);
    }
  }

  lemma {:induction false} ReplayPrefix(first: World, log: seq<Applied>, n: nat)
    requires Replay(first, log).Some? && n <= |log|
    ensures Replay(first, log[..n]).Some?
    decreases |log|
  {
    if n == |log| {
      assert log[..n] == log;
    } else {
      assert log[..|log| - 1][..n] == log[..n];
      ReplayPrefix(first, log[..|log| - 1], n);
    }
  }
}
