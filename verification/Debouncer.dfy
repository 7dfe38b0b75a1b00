/**
 The debouncer: a generation counter, a timer whose callback may already be
 running when it is stopped, and a channel that holds one token.
 */
module Debouncer {
  import opened Basics

  const SECOND := 1_000_000_000

  /** A scheduled callback: the generation it captured and when it is due. */
  datatype Callback = Callback(gen: nat, due: nat)

  /** `armed` is the timer's callback until it starts, `running` the
      generations of callbacks that have started and wait for the lock. */
  datatype State = State(gen: nat, armed: Option<Callback>, running: multiset<nat>, tokens: nat, now: nat)

  /** What can happen, in any order. The lock makes each atomic. */
  datatype Event = Notify | Start | Fire(gen: nat) | Receive | Elapse(d: nat)

  predicate Enabled(s: State, e: Event) {
    match e
    case Notify => true
    case Start => s.armed.Some? && s.armed.value.due <= s.now
    case Fire(g) => g in s.running
    case Receive => s.tokens > 0
    case Elapse(_) => true
  }

  function After(interval: nat, s: State, e: Event): State
    requires Enabled(s, e)
  {
    match e
    case Notify => s.(gen := s.gen + 1, armed := Some(Callback(s.gen + 1, s.now + interval)))
    case Start => s.(armed := None, running := s.running + multiset{s.armed.value.gen})
    case Fire(g) =>
      s.(running := s.running - multiset{g}, tokens := if g == s.gen && s.tokens < 1 then s.tokens + 1 else s.tokens)
    case Receive => s.(tokens := s.tokens - 1)
    case Elapse(d) => s.(now := s.now + d)
  }

  class Debouncer {
    const interval: nat
    var gen: nat
    var timer: Option<Callback>
    var running: multiset<nat>
    var tokens: nat
    var now: nat

    constructor (interval: int, now: nat)
      ensures this.interval == if interval <= 0 then 5_000_000_000 else interval
      ensures Now() == State(0, None, multiset{}, 0, now)
    {
      this.interval := if interval <= 0 then 5 * SECOND else interval;
      gen, timer, running, tokens, this.now := 0, None, multiset{}, 0, now;
    }

    function Now(): State
      reads this
    {
      State(gen, timer, running, tokens, now)
    }

    /** Stops the timer's callback if it has not started, and arms a new one. */
    method Notify()
      modifies this
      ensures Now() == After(interval, old(Now()), Event.Notify)
    {
      gen := gen + 1;
      if timer.None? {
        timer := Some(Callback(gen, now + interval));
        return;
      }
      timer := None;
      timer := Some(Callback(gen, now + interval));
    }

    /** A started callback gets the lock. */
    method Fire(g: nat)
      requires g in running
      modifies this
      ensures Now() == After(interval, old(Now()), Event.Fire(g))
    {
      running := running - multiset{g};
      if g != gen {
        return;
      }
      if tokens < 1 {
        tokens := tokens + 1;
      }
    }
  }

  /******* Runs *******/

  /** Any interleaving from a new debouncer. */
  predicate Run(interval: nat, states: seq<State>, events: seq<Event>) {
    && |states| == |events| + 1
    && states[0] == State(0, None, multiset{}, 0, states[0].now)
    && forall i :: 0 <= i < |events| ==>
         Enabled(states[i], events[i]) && states[i + 1] == After(interval, states[i], events[i])
  }

  /** The number of the last Notify before event `n`, -1 when there is none. */
  function LastNotify(events: seq<Event>, n: nat): (j: int)
    requires n <= |events|
    ensures -1 <= j < n
    ensures j >= 0 ==> events[j] == Notify
    ensures forall i :: j < i < n ==> events[i] != Notify
  {
    if n == 0 then -1
    else if events[n - 1] == Notify then n - 1
    else LastNotify(events, n - 1)
  }

  predicate ReceivedSince(events: seq<Event>, from: int, n: nat)
    requires n <= |events|
  {
    exists i: nat :: from < i < n && events[i] == Receive
  }

  /** A callback of the current generation is armed or running. */
  predicate Pending(s: State) {
    s.armed.Some? || s.gen in s.running
  }

  /** What every interleaving keeps: at most one callback of the current
      generation exists, due an interval after the last Notify. */
  ghost predicate Timely(interval: nat, states: seq<State>, events: seq<Event>, n: nat)
    requires Run(interval, states, events) && n <= |events|
  {
    var s, j := states[n], LastNotify(events, n);
    && s.tokens <= 1
    && (forall g :: g in s.running ==> g <= s.gen)
    && s.running[s.gen] <= 1
    && (s.armed.Some? ==> s.armed.value.gen == s.gen && s.gen !in s.running)
    && (j < 0 ==> s.gen == 0 && s.armed.None? && s.running == multiset{})
    && (j >= 0 ==>
          && states[j + 1].gen == s.gen && states[j].now <= s.now
          && (s.armed.Some? ==> s.armed.value.due == states[j].now + interval)
          && (s.gen in s.running ==> s.now >= states[j].now + interval))
  }

  lemma {:induction false} TimelyHolds(interval: nat, states: seq<State>, events: seq<Event>, n: nat)
    requires Run(interval, states, events) && n <= |events|
    ensures Timely(interval, states, events, n)
  {
    if n > 0 {
      TimelyHolds(interval, states, events, n - 1);
      var s, t, e := states[n - 1], states[n], events[n - 1];
      assert Enabled(s, e) && t == After(interval, s, e);
    }
  }

  /** The last Notify is answered for. */
  ghost predicate Answered(states: seq<State>, events: seq<Event>, n: nat)
    requires |states| == |events| + 1 && n <= |events|
  {
    LastNotify(events, n) >= 0 ==>
      Pending(states[n]) || states[n].tokens == 1 || ReceivedSince(events, LastNotify(events, n), n)
  }

  lemma ReceivedLater(events: seq<Event>, j: int, m: nat, n: nat)
    requires m <= n <= |events|
    ensures ReceivedSince(events, j, m) ==> ReceivedSince(events, j, n)
    ensures m < n && j < m && events[m] == Receive ==> ReceivedSince(events, j, n)
  {
    if ReceivedSince(events, j, m) {
      var i: nat :| j < i < m && events[i] == Receive;
      assert ReceivedSince(events, j, n);
    }
  }

  /** One step answers for a Notify, or keeps it answered for. */
  lemma StaysAnswered(interval: nat, s: State, e: Event)
    requires Enabled(s, e) && s.tokens <= 1 && (s.armed.Some? ==> s.armed.value.gen == s.gen)
    ensures e == Notify ==> Pending(After(interval, s, e))
    ensures e != Notify && e != Receive && (Pending(s) || s.tokens == 1) ==>
      Pending(After(interval, s, e)) || After(interval, s, e).tokens == 1
  {
  }

  lemma {:induction false} AnsweredHolds(interval: nat, states: seq<State>, events: seq<Event>, n: nat)
    requires Run(interval, states, events) && n <= |events|
    ensures Answered(states, events, n)
  {
    if n > 0 {
      AnsweredHolds(interval, states, events, n - 1);
      TimelyHolds(interval, states, events, n - 1);
      var s, e, j := states[n - 1], events[n - 1], LastNotify(events, n - 1);
      assert Enabled(s, e) && states[n] == After(interval, s, e);
      StaysAnswered(interval, s, e);
      ReceivedLater(events, j, n - 1, n);
      hide Timely, Run, Enabled, After, Pending, ReceivedSince;
    }
  }

  /** The event is a callback that passes the generation check. */
  predicate Emits(states: seq<State>, events: seq<Event>, i: nat)
    requires |states| == |events| + 1 && i < |events|
  {
    events[i].Fire? && events[i].gen == states[i].gen
  }

  /** The channel never holds more than one token, whatever is interleaved. */
  lemma AtMostOneToken(interval: nat, states: seq<State>, events: seq<Event>, n: nat)
    requires Run(interval, states, events) && n <= |events|
    ensures states[n].tokens <= 1
  {
    TimelyHolds(interval, states, events, n);
  }

  /** Only a callback of the latest generation emits, and only once a full
      quiet interval has passed since the last Notify; it leaves a token. */
  lemma EmitsOnlyWhenQuiet(interval: nat, states: seq<State>, events: seq<Event>, i: nat)
    requires Run(interval, states, events) && i < |events|
    ensures states[i + 1].tokens > states[i].tokens ==> Emits(states, events, i)
    ensures Emits(states, events, i) ==>
      && LastNotify(events, i) >= 0
      && states[i].now >= states[LastNotify(events, i)].now + interval
      && states[i + 1].tokens == 1 && !Pending(states[i + 1])
  {
    TimelyHolds(interval, states, events, i);
    TimelyHolds(interval, states, events, i + 1);
    assert states[i + 1] == After(interval, states[i], events[i]);
    if Emits(states, events, i) {
      assert states[i].gen in states[i].running;
    }
  }

  /** No Notify is lost: afterwards a current callback is pending, or a token is
      queued, or one has been received since. */
  lemma {:induction false} NoNotifyIsLost(interval: nat, states: seq<State>, events: seq<Event>, j: nat, n: nat)
    requires Run(interval, states, events) && j < n <= |events| && events[j] == Notify
    ensures Pending(states[n]) || states[n].tokens == 1 || ReceivedSince(events, j, n)
  {
    AnsweredHolds(interval, states, events, n);
    var last := LastNotify(events, n);
    assert last >= j;
    if ReceivedSince(events, last, n) {
      var i: nat :| last < i < n && events[i] == Receive;
      assert ReceivedSince(events, j, n);
    }
  }

  lemma {:induction false} TimeOnlyPasses(interval: nat, states: seq<State>, events: seq<Event>, i: nat, j: nat)
    requires Run(interval, states, events) && i <= j <= |events|
    ensures states[i].now <= states[j].now && states[i].gen <= states[j].gen
    decreases j
  {
    if i < j {
      TimeOnlyPasses(interval, states, events, i, j - 1);
      assert states[j] == After(interval, states[j - 1], events[j - 1]);
    }
  }

  /** With no Notify in between, nothing new becomes pending. */
  lemma {:induction false} StaysIdle(interval: nat, states: seq<State>, events: seq<Event>, i: nat, j: nat)
    requires Run(interval, states, events) && i <= j <= |events| && !Pending(states[i])
    requires forall m :: i <= m < j ==> events[m] != Notify
    ensures !Pending(states[j])
    decreases j
  {
    if i < j {
      StaysIdle(interval, states, events, i, j - 1);
      assert Enabled(states[j - 1], events[j - 1]) && states[j] == After(interval, states[j - 1], events[j - 1]);
    }
  }

  /** Triggers come at most once an interval. */
  lemma {:induction false} EmissionsAreSpaced(interval: nat, states: seq<State>, events: seq<Event>, i: nat, j: nat)
    requires Run(interval, states, events) && i < j < |events| && Emits(states, events, i) && Emits(states, events, j)
    ensures states[j].now >= states[i].now + interval
  {
    EmitsOnlyWhenQuiet(interval, states, events, i);
    EmitsOnlyWhenQuiet(interval, states, events, j);
    var last := LastNotify(events, j);
    if last < i {
      StaysIdle(interval, states, events, i + 1, j);
      assert false;
    }
    TimeOnlyPasses(interval, states, events, i, last);
  }

  /** A pending callback can always be brought to leave a token: once the
      interval has passed it can start, and once started it can fire. */
  lemma PendingCanFire(interval: nat, states: seq<State>, events: seq<Event>, n: nat)
    requires Run(interval, states, events) && n <= |events| && Pending(states[n])
    ensures states[n].armed.Some? ==>
      var waited := After(interval, states[n], Elapse(interval));
      && Enabled(waited, Start)
      && Enabled(After(interval, waited, Start), Fire(states[n].gen))
      && After(interval, After(interval, waited, Start), Fire(states[n].gen)).tokens == 1
    ensures states[n].armed.None? ==>
      && Enabled(states[n], Fire(states[n].gen))
      && After(interval, states[n], Fire(states[n].gen)).tokens == 1
  {
    TimelyHolds(interval, states, events, n);
  }
}
