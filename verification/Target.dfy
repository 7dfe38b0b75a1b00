/**
 The state a pass works towards, key by key, and the theory of passes that
 only ever move keys to it.
 */
module Target {
  import opened Basics
  import opened Events
  import opened Calendars
  import opened Server
  import opened WriteLog
  import Provider = GoogleProvider

  datatype Account = Account(name: string, calendarID: string)

  /** What one pass is run with. The window is fixed by the clock. */
  datatype Config = Config(accounts: seq<Account>, title: string, win: Window)

  /** What configuration loading guarantees. */
  predicate ConfigOk(cfg: Config) {
    && (forall i :: 0 <= i < |cfg.accounts| ==> cfg.accounts[i].name != "" && cfg.accounts[i].calendarID != "")
    && (forall i, j :: 0 <= i < j < |cfg.accounts| ==> cfg.accounts[i].name != cfg.accounts[j].name)
  }

  function CalendarOf(accounts: seq<Account>, name: string): string {
    if accounts == [] then ""
    else if accounts[0].name == name then accounts[0].calendarID
    else CalendarOf(accounts[1..], name)
  }

  /******* The goal of one key *******/

  /** A live event somebody made, in the window, that takes up time. */
  predicate Real(win: Window, ev: GEvent) {
    InWindow(win, ev) && !IsCancelled(ev) && !IsOwned(ev) && BlocksTime(ev)
  }

  /** `k` names a real event of an account that was fetched. */
  predicate Live(cfg: Config, healthy: set<string>, w: World, k: Key) {
    k.acc in healthy && k.acc in w && k.ev in w[k.acc] && Real(cfg.win, w[k.acc][k.ev])
  }

  function Mirror(b: GEvent, src: GEvent, title: string): GEvent {
    b.(start := Norm(src.start), end := Norm(src.end), summary := title)
  }

  function Fresh(cfg: Config, k: Key, src: GEvent): GEvent {
    Provider.NewBlock(cfg.title, SpanFromGoogle(src.start), SpanFromGoogle(src.end),
                      Ownership(OWNER_VALUE, k.acc, CalendarOf(cfg.accounts, k.acc), k.ev))
  }

  /** What should stand on `d` for `k`: a block with the span and title of its
      live source, nothing for a block in the window whose source account was
      fetched and whose source is not live, and otherwise what is there. */
  ghost function Goal(cfg: Config, healthy: set<string>, w: World, d: string, k: Key): Option<GEvent>
    requires d in w
  {
    var b := At(w[d], k);
    if Live(cfg, healthy, w, k) then
      if k.acc == d then b
      else if b.None? then Some(Fresh(cfg, k, w[k.acc][k.ev]))
      else Some(Mirror(b.value, w[k.acc][k.ev], cfg.title))
    else if k.acc in healthy && b.Some? && InWindow(cfg.win, b.value) then None
    else b
  }

  /** The events that are not live blocks with a complete identity. */
  function NonBlocks(cal: Calendar): Calendar {
    map id | id in cal && KeyOf(cal[id]).None? :: cal[id]
  }

  /******* Passes *******/

  /** `w1` is `w0` with some keys of fetched accounts moved to their goals and
      every other event as it was: what any pass does, however it fails. */
  ghost predicate Between(cfg: Config, healthy: set<string>, w0: World, w1: World) {
    && w1.Keys == w0.Keys
    && UniqueWorld(w1)
    && forall d :: d in w0 ==>
         && (d !in healthy ==> w1[d] == w0[d])
         && NonBlocks(w1[d]) == NonBlocks(w0[d])
         && forall k {:trigger BlockAt(w1[d], k)} {:trigger At(w1[d], k)} ::
              BlockAt(w1[d], k) == BlockAt(w0[d], k) || MovedToGoal(cfg, healthy, w0, w1, d, k)
  }

  ghost predicate MovedToGoal(cfg: Config, healthy: set<string>, w0: World, w1: World, d: string, k: Key)
    requires d in w0 && d in w1
  {
    Goal(cfg, healthy, w0, d, k) != At(w0[d], k) && At(w1[d], k) == Goal(cfg, healthy, w0, d, k)
  }

  /** `w1` is on the way from `w0`: every key is as it was or at its goal, up to
      identifiers and versions of blocks, and every other event as it was. */
  ghost predicate Towards(cfg: Config, healthy: set<string>, w0: World, w1: World) {
    && w1.Keys == w0.Keys
    && UniqueWorld(w1)
    && forall d :: d in w0 ==>
         && (d !in healthy ==> w1[d] == w0[d])
         && NonBlocks(w1[d]) == NonBlocks(w0[d])
         && forall k {:trigger At(w1[d], k)} ::
              At(w1[d], k) == At(w0[d], k) || At(w1[d], k) == Goal(cfg, healthy, w0, d, k)
  }

  /** Every key of every fetched account is at its goal. */
  ghost predicate Settled(cfg: Config, healthy: set<string>, w0: World, w1: World)
    requires w1.Keys == w0.Keys
  {
    forall d, k :: d in w0 && d in healthy ==> At(w1[d], k) == Goal(cfg, healthy, w0, d, k)
  }

  /** Every key of every fetched account is at its goal, the cells in `bad` excepted. */
  ghost predicate SettledBut(cfg: Config, healthy: set<string>, w0: World, w1: World, bad: set<Cell>)
    requires w1.Keys == w0.Keys
  {
    forall d, k {:trigger At(w1[d], k)} ::
      d in w0 && d in healthy && (d, k) !in bad ==> At(w1[d], k) == Goal(cfg, healthy, w0, d, k)
  }

  /** Nothing is left to do. */
  ghost predicate AtGoal(cfg: Config, healthy: set<string>, w: World) {
    Settled(cfg, healthy, w, w)
  }

  /** Equal up to identifiers and versions of blocks. */
  ghost predicate SameState(a: World, b: World) {
    && a.Keys == b.Keys
    && forall d :: d in a ==>
         && NonBlocks(a[d]) == NonBlocks(b[d])
         && forall k :: At(a[d], k) == At(b[d], k)
  }

  lemma NonBlocksSame(a: Calendar, b: Calendar, id: string)
    requires NonBlocks(a) == NonBlocks(b)
    ensures (id in a && KeyOf(a[id]).None?) <==> (id in b && KeyOf(b[id]).None?)
    ensures id in a && KeyOf(a[id]).None? ==> a[id] == b[id]
  {
    assert id in NonBlocks(a) <==> id in NonBlocks(b);
    assert id in NonBlocks(a) ==> NonBlocks(a)[id] == NonBlocks(b)[id];
  }

  lemma StripKeepsWindow(win: Window, ev: GEvent)
    ensures InWindow(win, Strip(ev)) == InWindow(win, ev)
    ensures Strip(Strip(ev)) == Strip(ev)
  {
  }

  /** A pass changes no unowned event, so it changes no source. */
  lemma LiveStays(cfg: Config, healthy: set<string>, sources: set<string>, w0: World, w1: World, k: Key)
    requires Between(cfg, healthy, w0, w1)
    ensures Live(cfg, sources, w1, k) <==> Live(cfg, sources, w0, k)
    ensures Live(cfg, sources, w0, k) ==> w1[k.acc][k.ev] == w0[k.acc][k.ev]
  {
    if k.acc in w0 {
      NonBlocksSame(w0[k.acc], w1[k.acc], k.ev);
    }
  }

  /** The goal of every key survives every pass, however it fails. */
  lemma GoalStays(cfg: Config, healthy: set<string>, w0: World, w1: World, d: string, k: Key)
    requires Between(cfg, healthy, w0, w1) && d in w0
    ensures Goal(cfg, healthy, w1, d, k) == Goal(cfg, healthy, w0, d, k)
  {
    LiveStays(cfg, healthy, healthy, w0, w1, k);
    assert BlockAt(w1[d], k) == BlockAt(w0[d], k) || MovedToGoal(cfg, healthy, w0, w1, d, k);
  }

  /** So does it along the way. */
  lemma GoalStaysOnTheWay(cfg: Config, some: set<string>, healthy: set<string>, w0: World, w1: World, d: string,
                          k: Key)
    requires Towards(cfg, some, w0, w1) && some <= healthy && d in w0
    ensures Goal(cfg, healthy, w1, d, k) == Goal(cfg, healthy, w0, d, k)
  {
    if k.acc in w0 {
      NonBlocksSame(w0[k.acc], w1[k.acc], k.ev);
    }
    assert At(w1[d], k) == At(w0[d], k) || At(w1[d], k) == Goal(cfg, some, w0, d, k);
    if BlockAt(w0[d], k).Some? {
      StripKeepsWindow(cfg.win, BlockAt(w0[d], k).value);
    }
    if BlockAt(w1[d], k).Some? {
      StripKeepsWindow(cfg.win, BlockAt(w1[d], k).value);
    }
  }

  /** With more accounts fetched no key is sent anywhere new. */
  lemma BetweenWithMore(cfg: Config, some: set<string>, healthy: set<string>, w0: World, w1: World)
    requires Between(cfg, some, w0, w1) && some <= healthy
    ensures Between(cfg, healthy, w0, w1)
  {
    forall d, k | d in w0
      ensures BlockAt(w1[d], k) == BlockAt(w0[d], k) || MovedToGoal(cfg, healthy, w0, w1, d, k)
    {
      assert BlockAt(w1[d], k) == BlockAt(w0[d], k) || MovedToGoal(cfg, some, w0, w1, d, k);
    }
  }

  lemma BetweenCompose(cfg: Config, healthy: set<string>, w0: World, w1: World, w2: World)
    requires Between(cfg, healthy, w0, w1) && Between(cfg, healthy, w1, w2)
    ensures Between(cfg, healthy, w0, w2)
  {
    forall d, k | d in w0
      ensures BlockAt(w2[d], k) == BlockAt(w0[d], k) || MovedToGoal(cfg, healthy, w0, w2, d, k)
    {
      GoalStays(cfg, healthy, w0, w1, d, k);
      assert BlockAt(w1[d], k) == BlockAt(w0[d], k) || MovedToGoal(cfg, healthy, w0, w1, d, k);
      assert BlockAt(w2[d], k) == BlockAt(w1[d], k) || MovedToGoal(cfg, healthy, w1, w2, d, k);
    }
  }

  /** Confluence: an interrupted pass that fetched `some` accounts and failed
      anywhere, followed by an error-free one, ends where one error-free pass
      would have ended. */
  lemma InterruptionIsHarmless(cfg: Config, some: set<string>, healthy: set<string>,
                               w0: World, part: World, resumed: World, direct: World)
    requires some <= healthy
    requires Between(cfg, some, w0, part)
    requires Between(cfg, healthy, part, resumed) && Settled(cfg, healthy, part, resumed)
    requires Between(cfg, healthy, w0, direct) && Settled(cfg, healthy, w0, direct)
    ensures SameState(resumed, direct)
  {
    BetweenWithMore(cfg, some, healthy, w0, part);
    forall d, k | d in w0
      ensures At(resumed[d], k) == At(direct[d], k)
    {
      GoalStays(cfg, healthy, w0, part, d, k);
    }
  }

  /** So does a pass cut short on the way, followed by an error-free one. */
  lemma CutShortIsHarmless(cfg: Config, some: set<string>, healthy: set<string>,
                           w0: World, part: World, resumed: World, direct: World)
    requires some <= healthy
    requires Towards(cfg, some, w0, part)
    requires Between(cfg, healthy, part, resumed) && Settled(cfg, healthy, part, resumed)
    requires Between(cfg, healthy, w0, direct) && Settled(cfg, healthy, w0, direct)
    ensures SameState(resumed, direct)
  {
    forall d, k | d in w0
      ensures At(resumed[d], k) == At(direct[d], k)
    {
      GoalStaysOnTheWay(cfg, some, healthy, w0, part, d, k);
      if d in healthy {
        assert At(resumed[d], k) == Goal(cfg, healthy, part, d, k);
        assert At(direct[d], k) == Goal(cfg, healthy, w0, d, k);
      }
    }
  }

  /** An error-free pass leaves nothing to do at the same clock. */
  lemma SettledIsAtGoal(cfg: Config, healthy: set<string>, w0: World, w1: World)
    requires Between(cfg, healthy, w0, w1) && Settled(cfg, healthy, w0, w1)
    ensures AtGoal(cfg, healthy, w1)
  {
    forall d, k | d in w1 && d in healthy
      ensures At(w1[d], k) == Goal(cfg, healthy, w1, d, k)
    {
      GoalStays(cfg, healthy, w0, w1, d, k);
    }
  }

  /** With nothing left to do, a live source, which is in the window, has its
      block in the window too. */
  lemma MirroredIsInWindow(cfg: Config, healthy: set<string>, w: World, d: string, k: Key)
    requires d in w && AtGoal(cfg, healthy, w) && d in healthy && Live(cfg, healthy, w, k) && k.acc != d
    ensures BlockAt(w[d], k).Some? && InWindow(cfg.win, BlockAt(w[d], k).value)
  {
    assert At(w[d], k) == Goal(cfg, healthy, w, d, k);
    StripKeepsWindow(cfg.win, BlockAt(w[d], k).value);
  }
}
