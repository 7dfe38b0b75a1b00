/**
 A pass in the middle: which cells it has dealt with, and what they came to.
 */
module Progress {
  import opened Basics
  import opened Events
  import opened Calendars
  import opened Server
  import opened WriteLog
  import opened Target

  datatype Change = Nothing | Addition | Rewrite | Removal

  function ChangeOf(now: Option<GEvent>, goal: Option<GEvent>): Change {
    if now == goal then Nothing
    else if now.None? then Addition
    else if goal.None? then Removal
    else Rewrite
  }

  ghost function CellChange(cfg: Config, healthy: set<string>, w: World, c: Cell): Change {
    if c.0 in w then ChangeOf(At(w[c.0], c.1), Goal(cfg, healthy, w, c.0, c.1)) else Nothing
  }

  /** The number of cells whose goal calls for the change. */
  ghost function Tally(cfg: Config, healthy: set<string>, w: World, cells: set<Cell>, change: Change): nat {
    |set c | c in cells && CellChange(cfg, healthy, w, c) == change|
  }

  lemma TallyAdds(cfg: Config, healthy: set<string>, w: World, cells: set<Cell>, c: Cell, change: Change)
    requires c !in cells
    ensures Tally(cfg, healthy, w, cells + {c}, change) ==
            Tally(cfg, healthy, w, cells, change) + if CellChange(cfg, healthy, w, c) == change then 1 else 0
  {
    var small := set x | x in cells && CellChange(cfg, healthy, w, x) == change;
    var large := set x | x in cells + {c} && CellChange(cfg, healthy, w, x) == change;
    assert large == if CellChange(cfg, healthy, w, c) == change then small + {c} else small;
  }

  /** The cells phase 2 deals with. */
  ghost function MirrorCells(cfg: Config, healthy: set<string>, w: World): set<Cell> {
    set d, a, e | d in healthy && d in w && a in healthy && a in w && e in w[a] && a != d && Real(cfg.win, w[a][e])
      :: (d, Key(a, e))
  }

  /** The cells phase 3 deals with: blocks listed whose source is gone. */
  ghost function CollectCells(cfg: Config, healthy: set<string>, w: World): set<Cell> {
    set d, id | d in healthy && d in w && id in w[d] && Collectable(cfg, healthy, w, w[d][id])
      :: (d, KeyOf(w[d][id]).value)
  }

  predicate Collectable(cfg: Config, healthy: set<string>, w: World, block: GEvent) {
    && KeyOf(block).Some?
    && InWindow(cfg.win, block)
    && KeyOf(block).value.acc in healthy
    && !Live(cfg, healthy, w, KeyOf(block).value)
  }

  /** The cells a pass deals with. */
  ghost function PassCells(cfg: Config, healthy: set<string>, w: World): set<Cell> {
    MirrorCells(cfg, healthy, w) + CollectCells(cfg, healthy, w)
  }

  /** How many changes of each kind the pass has to make, from the calendars
      alone, the cells in `bad` left aside. */
  ghost function Planned(cfg: Config, healthy: set<string>, w: World, bad: set<Cell>, change: Change): nat {
    Tally(cfg, healthy, w, PassCells(cfg, healthy, w) - bad, change)
  }

  lemma CollectedGoal(cfg: Config, healthy: set<string>, w: World, d: string, id: string)
    requires d in healthy && d in w && Unique(w[d]) && id in w[d] && Collectable(cfg, healthy, w, w[d][id])
    ensures BlockAt(w[d], KeyOf(w[d][id]).value) == Some(w[d][id])
    ensures Goal(cfg, healthy, w, d, KeyOf(w[d][id]).value).None?
  {
    BlockIs(w[d], id, KeyOf(w[d][id]).value);
    StripKeepsWindow(cfg.win, w[d][id]);
  }

  /** No other cell calls for a change. */
  lemma OthersAtGoal(cfg: Config, healthy: set<string>, w: World, d: string, k: Key)
    requires d in healthy && d in w
    requires (d, k) !in MirrorCells(cfg, healthy, w) && (d, k) !in CollectCells(cfg, healthy, w)
    ensures Goal(cfg, healthy, w, d, k) == At(w[d], k)
  {
    if BlockAt(w[d], k).Some? {
      StripKeepsWindow(cfg.win, BlockAt(w[d], k).value);
      var id :| Holds(w[d], id, k) && w[d][id] == BlockAt(w[d], k).value;
      assert Collectable(cfg, healthy, w, w[d][id]) ==> (d, k) in CollectCells(cfg, healthy, w);
    }
    assert Live(cfg, healthy, w, k) && k.acc != d ==> (d, k) in MirrorCells(cfg, healthy, w);
  }

  /** Cells not dealt with are as they were, and of the others all but those in
      `bad`, whose call failed, are at their goals. */
  ghost predicate InProgress(cfg: Config, healthy: set<string>, w0: World, w: World, done: set<Cell>, bad: set<Cell>) {
    && Between(cfg, healthy, w0, w)
    && (forall d, k :: d in w0 && (d, k) !in done ==> BlockAt(w[d], k) == BlockAt(w0[d], k))
    && bad <= done
    && (forall d, k {:trigger At(w[d], k)} ::
          (d, k) in done && (d, k) !in bad && d in w0 ==> At(w[d], k) == Goal(cfg, healthy, w0, d, k))
  }

  /** What one write does to the world, as seen from the cell it is about. */
  ghost predicate CellStep(cfg: Config, healthy: set<string>, w0: World, w: World, after: World, d: string, k: Key,
                           ok: bool)
    requires d in w0 && w.Keys == w0.Keys
  {
    || (after == w && (ok ==> At(w0[d], k) == Goal(cfg, healthy, w0, d, k)))
    || (&& d in after
        && after == w[d := after[d]]
        && Goal(cfg, healthy, w0, d, k) != At(w0[d], k)
        && Touched(w[d], after[d], k, Goal(cfg, healthy, w0, d, k)))
  }

  /** A keyed write leaves every other key and every non-block alone. */
  lemma TouchedAlone(before: Calendar, after: Calendar, k: Key, t: Option<GEvent>)
    requires Touched(before, after, k, t) && Unique(before)
    ensures NonBlocks(after) == NonBlocks(before)
    ensures forall j {:trigger BlockAt(after, j)} {:trigger At(after, j)} ::
      j != k ==> BlockAt(after, j) == BlockAt(before, j) && At(after, j) == At(before, j)
  {
    forall id
      ensures id in NonBlocks(after) <==> id in NonBlocks(before)
      ensures id in NonBlocks(after) ==> after[id] == before[id]
    {
      assert id in Outside(after, {k}) <==> id in Outside(before, {k});
      assert id in Outside(after, {k}) ==> Outside(after, {k})[id] == Outside(before, {k})[id];
    }
    assert NonBlocks(after) == NonBlocks(before);
    forall j | j != k
      ensures BlockAt(after, j) == BlockAt(before, j) && At(after, j) == At(before, j)
    {
      SameElsewhere(after, before, {k}, j);
    }
  }

  lemma Advance(cfg: Config, healthy: set<string>, w0: World, w: World, after: World, done: set<Cell>, bad: set<Cell>,
                d: string, k: Key, ok: bool)
    requires InProgress(cfg, healthy, w0, w, done, bad) && UniqueWorld(w0)
    requires d in w0 && d in healthy && (d, k) !in done
    requires CellStep(cfg, healthy, w0, w, after, d, k, ok)
    ensures InProgress(cfg, healthy, w0, after, done + {(d, k)}, if ok then bad else bad + {(d, k)})
  {
    if after != w {
      TouchedAlone(w[d], after[d], k, Goal(cfg, healthy, w0, d, k));
      hide NonBlocks, Goal, Unique, BlockAt;
      assert Unique(after[d]);
      assert MovedToGoal(cfg, healthy, w0, after, d, k);
      forall a, j | a in w0
        ensures BlockAt(after[a], j) == BlockAt(w0[a], j) || MovedToGoal(cfg, healthy, w0, after, a, j)
      {
        assert BlockAt(w[a], j) == BlockAt(w0[a], j) || MovedToGoal(cfg, healthy, w0, w, a, j);
      }
    }
  }

  lemma Begin(cfg: Config, healthy: set<string>, w0: World)
    requires UniqueWorld(w0)
    ensures InProgress(cfg, healthy, w0, w0, {}, {})
    ensures forall change :: Tally(cfg, healthy, w0, {}, change) == 0
  {
    forall change
      ensures Tally(cfg, healthy, w0, {}, change) == 0
    {
      assert (set c: Cell | c in {} && CellChange(cfg, healthy, w0, c) == change) == {};
    }
  }

  /** With every cell dealt with, every key is at its goal unless its call failed. */
  lemma Finish(cfg: Config, healthy: set<string>, w0: World, w: World, done: set<Cell>, bad: set<Cell>)
    requires InProgress(cfg, healthy, w0, w, done, bad)
    requires MirrorCells(cfg, healthy, w0) + CollectCells(cfg, healthy, w0) <= done
    ensures SettledBut(cfg, healthy, w0, w, bad)
  {
    forall d, k | d in w0 && d in healthy && (d, k) !in bad
      ensures At(w[d], k) == Goal(cfg, healthy, w0, d, k)
    {
      if (d, k) !in done {
        OthersAtGoal(cfg, healthy, w0, d, k);
      }
    }
  }

  /** At the goal no cell calls for a change. */
  lemma NothingPlanned(cfg: Config, healthy: set<string>, w: World, bad: set<Cell>, change: Change)
    requires AtGoal(cfg, healthy, w) && change != Nothing
    ensures Planned(cfg, healthy, w, bad, change) == 0
  {
    var cells := PassCells(cfg, healthy, w) - bad;
    assert (set c | c in cells && CellChange(cfg, healthy, w, c) == change) == {};
  }
}
