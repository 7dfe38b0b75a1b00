/**
 Watch channels: one per calendar, registered at start, replaced before they
 expire, stopped at shutdown.
 */
module Watch {
  import opened Basics

  /** Times and durations are whole nanoseconds. */
  const SECOND := 1_000_000_000
  const MINUTE := 60 * SECOND

  datatype Channel = Channel(id: nat, account: string, calendarID: string, expiry: int)

  datatype Target = Target(account: string, calendarID: string)

  function KeyOf(t: Target): string {
    t.account + "|" + t.calendarID
  }

  /** The key identifies the calendar, account names being free of the separator. */
  lemma KeysIdentify(a: Target, b: Target)
    requires '|' !in a.account && '|' !in b.account
    ensures KeyOf(a) == KeyOf(b) <==> a == b
  {
    if KeyOf(a) == KeyOf(b) {
      var s := KeyOf(a);
      assert s[|a.account|] == '|' && s[|b.account|] == '|';
      assert s[..|a.account|] == a.account && s[..|b.account|] == b.account;
      assert s[|a.account| + 1..] == a.calendarID && s[|b.account| + 1..] == b.calendarID;
    }
  }

  predicate DistinctKeys(targets: seq<Target>) {
    forall i, j :: 0 <= i < j < |targets| ==> KeyOf(targets[i]) != KeyOf(targets[j])
  }

  /** What the provider was asked, in order: the calls of Watch, each under the
      manager's key with its time and the TTL asked for, that brought a channel or
      failed, and the channels passed to Stop. */
  datatype Call =
    | Watched(key: string, ch: Channel, at: int, ttl: int)
    | Failed(key: string, at: int, ttl: int)
    | Stopped(ch: Channel)

  /** The channels for the key that Watch returned and nobody passed to Stop. */
  function Open(log: seq<Call>, key: string): set<Channel> {
    if log == [] then {}
    else
      var front, last := Open(log[..|log| - 1], key), log[|log| - 1];
      if last.Stopped? then front - {last.ch}
      else if last.Watched? && last.key == key then front + {last.ch}
      else front
  }

  function EverWatched(log: seq<Call>, key: string): set<Channel> {
    if log == [] then {}
    else
      var front, last := EverWatched(log[..|log| - 1], key), log[|log| - 1];
      if last.Watched? && last.key == key then front + {last.ch} else front
  }

  /** From the first registration of the key on there was an un-stopped channel
      for it, after every single call. */
  predicate NeverUncovered(log: seq<Call>, key: string) {
    || log == []
    || (&& NeverUncovered(log[..|log| - 1], key)
        && (EverWatched(log, key) != {} ==> Open(log, key) != {}))
  }

  /** No key is ever uncovered. */
  ghost predicate Covered(log: seq<Call>) {
    forall k :: NeverUncovered(log, k)
  }

  function Skew(ttl: int): int {
    var skew := Div(ttl, 10);
    if skew < MINUTE then MINUTE else skew
  }

  /** Division truncating toward zero. */
  function Div(a: int, b: int): int
    requires b > 0
  {
    if a >= 0 then a / b else -((-a) / b)
  }

  /** The skew, by the TTL alone: a minute up to a TTL of ten, and above that the
      whole nanoseconds in a tenth of it. */
  lemma SkewByTtl(ttl: int)
    ensures ttl <= 600_000_000_000 ==> Skew(ttl) == 60_000_000_000
    ensures ttl >= 600_000_000_000 ==> 10 * Skew(ttl) <= ttl < 10 * Skew(ttl) + 10
  {
  }

  /** A channel lives to the next tick exactly when the TTL is a minute or more. */
  lemma TtlCoversSkew(ttl: int)
    ensures ttl >= Skew(ttl) <==> ttl >= MINUTE
    ensures Skew(ttl) >= MINUTE
  {
  }

  lemma Appended(log: seq<Call>, call: Call, key: string)
    ensures Open(log + [call], key) ==
            if call.Stopped? then Open(log, key) - {call.ch}
            else if call.Watched? && call.key == key then Open(log, key) + {call.ch}
            else Open(log, key)
    ensures EverWatched(log + [call], key) ==
            EverWatched(log, key) + if call.Watched? && call.key == key then {call.ch} else {}
    ensures NeverUncovered(log + [call], key) <==>
            NeverUncovered(log, key) && (EverWatched(log + [call], key) != {} ==> Open(log + [call], key) != {})
  {
    assert (log + [call])[..|log|] == log;
  }

  /** The books balance: the channels open are exactly those in the map, no two
      share an identifier, and identifiers are used in order. */
  ghost predicate Tidy(log: seq<Call>, channels: map<string, Channel>, next: nat) {
    && (forall k :: Open(log, k) == if k in channels then {channels[k]} else {})
    && (forall k, ch :: ch in EverWatched(log, k) ==> ch.id < next)
    && (forall k :: k in channels ==> channels[k].id < next)
    && (forall k, j :: k in channels && j in channels && channels[k].id == channels[j].id ==> k == j)
  }

  lemma {:induction false} OpenOrStopped(log: seq<Call>, key: string, ch: Channel)
    requires ch in EverWatched(log, key)
    ensures ch in Open(log, key) || Stopped(ch) in log
  {
    var front := log[..|log| - 1];
    if ch in EverWatched(front, key) {
      OpenOrStopped(front, key, ch);
    }
  }

  /** Every channel ever returned for a key is the one held for it or was passed
      to Stop, and the one held was not. */
  lemma NoneForgotten(log: seq<Call>, channels: map<string, Channel>, next: nat, key: string, ch: Channel)
    requires Tidy(log, channels, next) && ch in EverWatched(log, key)
    ensures (key in channels && channels[key] == ch) || Stopped(ch) in log
    ensures key in channels ==> channels[key] in Open(log, key)
  {
    OpenOrStopped(log, key, ch);
  }

  lemma TidyWatched(log: seq<Call>, channels: map<string, Channel>, next: nat, key: string, ch: Channel,
                    at: int, ttl: int)
    requires Tidy(log, channels, next) && ch.id == next && key !in channels
    ensures Tidy(log + [Watched(key, ch, at, ttl)], channels[key := ch], next + 1)
  {
    hide Open, EverWatched;
    forall k
      ensures Open(log + [Watched(key, ch, at, ttl)], k) == Open(log, k) + if k == key then {ch} else {}
      ensures EverWatched(log + [Watched(key, ch, at, ttl)], k) ==
              EverWatched(log, k) + if k == key then {ch} else {}
    {
      Appended(log, Watched(key, ch, at, ttl), k);
    }
  }

  /** Replacing a channel: the new one first, then the old one is stopped. */
  lemma TidyReplaced(log: seq<Call>, channels: map<string, Channel>, next: nat, key: string, ch: Channel,
                     at: int, ttl: int)
    requires Tidy(log, channels, next) && ch.id == next && key in channels
    ensures Tidy(log + [Watched(key, ch, at, ttl)] + [Stopped(channels[key])], channels[key := ch], next + 1)
  {
    hide Open, EverWatched;
    var log1, was := log + [Watched(key, ch, at, ttl)], channels[key];
    forall k
      ensures Open(log1 + [Stopped(was)], k) == (Open(log, k) + if k == key then {ch} else {}) - {was}
      ensures EverWatched(log1 + [Stopped(was)], k) == EverWatched(log, k) + if k == key then {ch} else {}
    {
      Appended(log, Watched(key, ch, at, ttl), k);
      Appended(log1, Stopped(was), k);
    }
  }

  lemma CoveredWatched(log: seq<Call>, key: string, ch: Channel, at: int, ttl: int, k: string)
    requires NeverUncovered(log, k)
    ensures NeverUncovered(log + [Watched(key, ch, at, ttl)], k)
  {
    Appended(log, Watched(key, ch, at, ttl), k);
    if k != key && log != [] {
      assert EverWatched(log, k) != {} ==> Open(log, k) != {};
    }
  }

  lemma CoveredReplaced(log: seq<Call>, channels: map<string, Channel>, next: nat, key: string, ch: Channel,
                        at: int, ttl: int, k: string)
    requires Tidy(log, channels, next) && ch.id == next && key in channels && NeverUncovered(log, k)
    ensures NeverUncovered(log + [Watched(key, ch, at, ttl)] + [Stopped(channels[key])], k)
  {
    var log1, was := log + [Watched(key, ch, at, ttl)], channels[key];
    CoveredWatched(log, key, ch, at, ttl, k);
    Appended(log, Watched(key, ch, at, ttl), k);
    Appended(log1, Stopped(was), k);
    if EverWatched(log1, k) != {} {
      if k == key {
        assert ch in Open(log1 + [Stopped(was)], k);
      } else {
        assert was !in Open(log, k);
        assert Open(log1 + [Stopped(was)], k) == Open(log1, k);
      }
    }
  }

  lemma Registered(log: seq<Call>, channels: map<string, Channel>, next: nat, key: string, ch: Channel,
                   at: int, ttl: int)
    requires Tidy(log, channels, next) && ch.id == next && Covered(log)
    ensures key !in channels ==>
      && Tidy(log + [Watched(key, ch, at, ttl)], channels[key := ch], next + 1)
      && Covered(log + [Watched(key, ch, at, ttl)])
    ensures key in channels ==>
      && Tidy(log + [Watched(key, ch, at, ttl)] + [Stopped(channels[key])], channels[key := ch], next + 1)
      && Covered(log + [Watched(key, ch, at, ttl)] + [Stopped(channels[key])])
  {
    hide Tidy, NeverUncovered;
    if key in channels {
      TidyReplaced(log, channels, next, key, ch, at, ttl);
      forall k
        ensures NeverUncovered(log + [Watched(key, ch, at, ttl)] + [Stopped(channels[key])], k)
      {
        CoveredReplaced(log, channels, next, key, ch, at, ttl, k);
      }
    } else {
      TidyWatched(log, channels, next, key, ch, at, ttl);
      forall k
        ensures NeverUncovered(log + [Watched(key, ch, at, ttl)], k)
      {
        CoveredWatched(log, key, ch, at, ttl, k);
      }
    }
  }

  lemma CoveredFailed(log: seq<Call>, key: string, at: int, ttl: int, k: string)
    requires NeverUncovered(log, k)
    ensures NeverUncovered(log + [Failed(key, at, ttl)], k)
  {
    Appended(log, Failed(key, at, ttl), k);
    if log != [] {
      assert EverWatched(log, k) != {} ==> Open(log, k) != {};
    }
  }

  /** A failed call leaves everything as it was. */
  lemma NotRegistered(log: seq<Call>, channels: map<string, Channel>, next: nat, key: string, at: int, ttl: int)
    requires Tidy(log, channels, next) && Covered(log)
    ensures Tidy(log + [Failed(key, at, ttl)], channels, next) && Covered(log + [Failed(key, at, ttl)])
  {
    hide Open, EverWatched;
    forall k
      ensures Open(log + [Failed(key, at, ttl)], k) == Open(log, k)
      ensures EverWatched(log + [Failed(key, at, ttl)], k) == EverWatched(log, k)
      ensures NeverUncovered(log + [Failed(key, at, ttl)], k)
    {
      Appended(log, Failed(key, at, ttl), k);
      CoveredFailed(log, key, at, ttl, k);
    }
  }

  /** Stopping everything that is open leaves nothing open. */
  lemma {:induction false} StopsClose(log: seq<Call>, chans: seq<Channel>, key: string)
    ensures Open(log + Stops(chans), key) == Open(log, key) - (set ch | ch in chans)
  {
    if chans == [] {
      assert log + Stops(chans) == log;
    } else {
      var n := |chans| - 1;
      StopsClose(log, chans[..n], key);
      Appended(log + Stops(chans[..n]), Stopped(chans[n]), key);
      assert log + Stops(chans) == log + Stops(chans[..n]) + [Stopped(chans[n])];
      assert chans == chans[..n] + [chans[n]];
    }
  }

  function Stops(chans: seq<Channel>): seq<Call> {
    seq(|chans|, i requires 0 <= i < |chans| => Stopped(chans[i]))
  }

  /** The provider. */
  class Watcher {
    var nextID: nat
    /** The time. Calls take none; it passes between the phases of a run. */
    var clock: int
    ghost var log: seq<Call>

    constructor (clock: int)
      ensures nextID == 0 && log == [] && this.clock == clock
    {
      nextID, log, this.clock := 0, [], clock;
    }

    /** Time passes until `at`. */
    method Wait(at: int)
      modifies this`clock
      ensures clock == at
    {
      clock := at;
    }

    /** A new channel with an expiry of the provider's choosing, or a failure. */
    method Watch(t: Target, ttl: int) returns (r: Result<Channel, string>)
      modifies this`nextID, this`log
      ensures r.Err? ==> log == old(log) + [Failed(KeyOf(t), clock, ttl)] && nextID == old(nextID)
      ensures r.Ok? ==> r.value.id == old(nextID) && nextID == old(nextID) + 1
      ensures r.Ok? ==> log == old(log) + [Watched(KeyOf(t), r.value, clock, ttl)]
    {
      var failed: bool := *;
      if failed {
        log := log + [Failed(KeyOf(t), clock, ttl)];
        return Err("watch failed");
      }
      var expiry: int := *;
      r := Ok(Channel(nextID, t.account, t.calendarID, expiry));
      nextID, log := nextID + 1, log + [Watched(KeyOf(t), r.value, clock, ttl)];
    }

    /** Best effort: the caller only learns whether it went well. */
    method Stop(ch: Channel) returns (failed: bool)
      modifies this`log
      ensures log == old(log) + [Stopped(ch)]
    {
      failed := *;
      log := log + [Stopped(ch)];
    }
  }

  /** No call for the key past the old log failed, and each brought a channel
      that lives to `until`. */
  predicate WentWell(before: seq<Call>, log: seq<Call>, key: string, until: int) {
    forall i :: |before| <= i < |log| && !log[i].Stopped? && log[i].key == key ==>
      log[i].Watched? && log[i].ch.expiry >= until
  }

  /** Every Watch call past the old log was made at this time, with this TTL. */
  predicate Stamped(before: seq<Call>, log: seq<Call>, time: int, ttl: int) {
    forall i :: |before| <= i < |log| && !log[i].Stopped? ==> log[i].at == time && log[i].ttl == ttl
  }

  /** No call for the key failed, and each brought a channel that lives so long
      from when it was returned. */
  predicate Lives(log: seq<Call>, key: string, lifetime: int) {
    forall i :: 0 <= i < |log| && !log[i].Stopped? && log[i].key == key ==>
      log[i].Watched? && log[i].ch.expiry >= log[i].at + lifetime
  }

  /** Every channel ever returned for the key was passed to Stop by then. */
  ghost predicate AllStopped(log: seq<Call>, key: string, after: seq<Call>) {
    forall ch :: ch in EverWatched(log, key) ==> Stopped(ch) in after
  }

  /** The channels held are exactly the open ones. */
  ghost predicate HeldAreOpen(log: seq<Call>, channels: map<string, Channel>) {
    forall k :: Open(log, k) == if k in channels then {channels[k]} else {}
  }

  /** The log before phase `i`, and the keys held before it. */
  function LogBefore(logs: seq<seq<Call>>, i: int): seq<Call> {
    if 0 < i <= |logs| then logs[i - 1] else []
  }

  function KeysBefore(held: seq<map<string, Channel>>, i: int): set<string> {
    if 0 < i <= |held| then held[i - 1].Keys else {}
  }

  predicate UnexpiredAt(channels: map<string, Channel>, key: string, u: int) {
    key in channels && u <= channels[key].expiry
  }

  /** Each target whose own calls went well is held until then, whatever became of
      the others. */
  predicate HeldUnlessFailed(before: seq<Call>, log: seq<Call>, channels: map<string, Channel>, targets: seq<Target>,
                             until: int)
  {
    forall t :: t in targets && WentWell(before, log, KeyOf(t), until) ==> UnexpiredAt(channels, KeyOf(t), until)
  }

  /** One phase: its calls were made at this time, what is held is open, a key
      once held stays held, and each target whose own calls went well in the phase
      is held for a skew. */
  ghost predicate Phase(targets: seq<Target>, time: int, ttl: int, before: seq<Call>, keys: set<string>,
                        log: seq<Call>, channels: map<string, Channel>)
  {
    && HeldAreOpen(log, channels) && before <= log && keys <= channels.Keys
    && Stamped(before, log, time, ttl)
    && HeldUnlessFailed(before, log, channels, targets, time + Skew(ttl))
  }

  /** The provider's log and the channels held, once each phase is done. */
  ghost predicate Phases(targets: seq<Target>, times: seq<int>, ttl: int, logs: seq<seq<Call>>,
                         held: seq<map<string, Channel>>)
  {
    && |logs| == |held| == |times|
    && forall i {:trigger held[i]} :: 0 <= i < |times| ==>
         Phase(targets, times[i], ttl, LogBefore(logs, i), KeysBefore(held, i), logs[i], held[i])
  }

  lemma HeldAreOpenIn(log: seq<Call>, channels: map<string, Channel>, next: nat)
    requires Tidy(log, channels, next)
    ensures HeldAreOpen(log, channels)
  {
  }

  lemma FirstPhase(targets: seq<Target>, times: seq<int>, ttl: int, log: seq<Call>, channels: map<string, Channel>)
    requires times != [] && Phase(targets, times[0], ttl, [], {}, log, channels)
    ensures Phases(targets, times[..1], ttl, [log], [channels])
  {
  }

  lemma PhasesNext(targets: seq<Target>, times: seq<int>, ttl: int, logs: seq<seq<Call>>,
                   held: seq<map<string, Channel>>, n: nat, log: seq<Call>, channels: map<string, Channel>)
    requires 0 < n < |times| && Phases(targets, times[..n], ttl, logs, held)
    requires Phase(targets, times[n], ttl, logs[n - 1], held[n - 1].Keys, log, channels)
    ensures Phases(targets, times[..n + 1], ttl, logs + [log], held + [channels])
  {
    var ts, ls, hs := times[..n + 1], logs + [log], held + [channels];
    forall i | 0 <= i < n + 1
      ensures Phase(targets, ts[i], ttl, LogBefore(ls, i), KeysBefore(hs, i), ls[i], hs[i])
    {
      if i < n {
        assert hs[i] == held[i] && ls[i] == logs[i] && ts[i] == times[..n][i];
        assert LogBefore(ls, i) == LogBefore(logs, i) && KeysBefore(hs, i) == KeysBefore(held, i);
      } else {
        assert LogBefore(ls, i) == logs[n - 1] && KeysBefore(hs, i) == held[n - 1].Keys;
      }
    }
  }

  /** One target's turn, the others' channels being kept. */
  lemma HeldNext(log0: seq<Call>, log: seq<Call>, log1: seq<Call>, was: map<string, Channel>,
                 channels: map<string, Channel>, targets: seq<Target>, i: nat, until: int)
    requires DistinctKeys(targets) && i < |targets| && log0 <= log <= log1 && was.Keys <= channels.Keys
    requires forall k :: k in was && k != KeyOf(targets[i]) ==> channels[k] == was[k]
    requires WentWell(log, log1, KeyOf(targets[i]), until) ==> UnexpiredAt(channels, KeyOf(targets[i]), until)
    requires HeldUnlessFailed(log0, log, was, targets[..i], until)
    ensures HeldUnlessFailed(log0, log1, channels, targets[..i + 1], until)
  {
    forall t | t in targets[..i + 1] && WentWell(log0, log1, KeyOf(t), until)
      ensures UnexpiredAt(channels, KeyOf(t), until)
    {
      if t in targets[..i] {
        var j :| 0 <= j < i && targets[j] == t;
        forall n | |log0| <= n < |log|
          ensures log[n] == log1[n]
        {
        }
        assert WentWell(log0, log, KeyOf(t), until);
      } else {
        assert t == targets[i];
      }
    }
  }

  lemma NoneHeld(log: seq<Call>, channels: map<string, Channel>, targets: seq<Target>, until: int)
    ensures HeldUnlessFailed(log, log, channels, targets[..0], until)
  {
  }

  lemma NewKey(targets: seq<Target>, i: nat, channels: map<string, Channel>)
    requires DistinctKeys(targets) && i < |targets|
    requires forall k :: k in channels ==> exists t :: t in targets[..i] && KeyOf(t) == k
    ensures KeyOf(targets[i]) !in channels
  {
  }

  /** What a call of Watch for the key, and the stop after it, come to. */
  lemma CallMeans(log: seq<Call>, call: Call, stops: seq<Call>, until: int)
    requires !call.Stopped? && (stops == [] || (|stops| == 1 && stops[0].Stopped?))
    ensures log <= log + [call] + stops && Stamped(log, log + [call] + stops, call.at, call.ttl)
    ensures WentWell(log, log + [call] + stops, call.key, until) <==> call.Watched? && call.ch.expiry >= until
  {
    assert (log + [call] + stops)[|log|] == call;
  }

  lemma StampedOn(log0: seq<Call>, log: seq<Call>, log1: seq<Call>, at: int, ttl: int)
    requires log0 <= log <= log1
    ensures Stamped(log, log, at, ttl)
    ensures Stamped(log0, log, at, ttl) && Stamped(log, log1, at, ttl) ==> Stamped(log0, log1, at, ttl)
  {
    forall i | |log0| <= i < |log|
      ensures log1[i] == log[i]
    {
    }
  }

  lemma LivesMeans(before: seq<Call>, log: seq<Call>, last: seq<Call>, key: string, at: int, ttl: int)
    requires before <= log <= last && Stamped(before, log, at, ttl) && Lives(last, key, Skew(ttl))
    ensures WentWell(before, log, key, at + Skew(ttl))
  {
    hide Skew;
    forall i | |before| <= i < |log|
      ensures log[i] == last[i]
    {
    }
  }

  lemma StoppedEach(log: seq<Call>, channels: map<string, Channel>, next: nat, held: seq<Channel>)
    requires Tidy(log, channels, next) && forall k :: k in channels ==> channels[k] in held
    ensures forall k :: Open(log + Stops(held), k) == {}
    ensures forall k :: AllStopped(log, k, log + Stops(held))
  {
    forall k
      ensures Open(log + Stops(held), k) == {}
    {
      StopsClose(log, held, k);
    }
    forall k
      ensures AllStopped(log, k, log + Stops(held))
    {
      forall ch | ch in EverWatched(log, k)
        ensures Stopped(ch) in log + Stops(held)
      {
        OpenOrStopped(log, k, ch);
        if ch in Open(log, k) {
          var i :| 0 <= i < |held| && held[i] == ch;
          assert Stops(held)[i] == Stopped(ch);
        }
      }
    }
  }

  class Manager {
    const ttl: int
    const renewSkew: int
    const watcher: Watcher
    var channels: map<string, Channel>

    constructor (watcher: Watcher, ttl: int)
      requires watcher.log == [] && watcher.nextID == 0
      ensures this.watcher == watcher && this.ttl == ttl && renewSkew == Skew(ttl)
      ensures ttl <= 600_000_000_000 ==> renewSkew == 60_000_000_000
      ensures ttl >= 600_000_000_000 ==> 10 * renewSkew <= ttl < 10 * renewSkew + 10
      ensures channels == map[] && Valid()
    {
      var skew := Div(ttl, 10);
      if skew < MINUTE {
        skew := MINUTE;
      }
      this.watcher, this.ttl, this.renewSkew, channels := watcher, ttl, skew, map[];
    }

    ghost predicate Valid()
      reads this, watcher
    {
      && Tidy(watcher.log, channels, watcher.nextID) && Covered(watcher.log)
      && renewSkew == Skew(ttl)
    }

    method Register(t: Target) returns (ok: bool)
      modifies this, watcher`nextID, watcher`log
      ensures !ok ==> channels == old(channels) && watcher.nextID == old(watcher.nextID)
      ensures !ok ==> watcher.log == old(watcher.log) + [Failed(KeyOf(t), watcher.clock, ttl)]
      ensures ok ==>
        && KeyOf(t) in channels && channels == old(channels)[KeyOf(t) := channels[KeyOf(t)]]
        && channels[KeyOf(t)].id == old(watcher.nextID) && watcher.nextID == old(watcher.nextID) + 1
        && watcher.log == old(watcher.log) + [Watched(KeyOf(t), channels[KeyOf(t)], watcher.clock, ttl)]
    {
      var r := watcher.Watch(t, ttl);
      if r.Err? {
        return false;
      }
      channels := channels[KeyOf(t) := r.value];
      ok := true;
    }

    /** The initial registrations; a failure is passed over. */
    method RegisterAll(targets: seq<Target>)
      requires Valid() && DistinctKeys(targets) && channels == map[]
      modifies this, watcher`nextID, watcher`log
      ensures Valid() && old(watcher.log) <= watcher.log && Stamped(old(watcher.log), watcher.log, watcher.clock, ttl)
      ensures HeldUnlessFailed(old(watcher.log), watcher.log, channels, targets, watcher.clock + renewSkew)
    {
      hide Tidy, Covered, Stamped, WentWell, HeldUnlessFailed, DistinctKeys, KeyOf, Skew;
      StampedOn(watcher.log, watcher.log, watcher.log, watcher.clock, ttl);
      NoneHeld(watcher.log, channels, targets, watcher.clock + renewSkew);
      for i := 0 to |targets|
        invariant Valid() && old(watcher.log) <= watcher.log
        invariant Stamped(old(watcher.log), watcher.log, watcher.clock, ttl)
        invariant forall k :: k in channels ==> exists t :: t in targets[..i] && KeyOf(t) == k
        invariant HeldUnlessFailed(old(watcher.log), watcher.log, channels, targets[..i], watcher.clock + renewSkew)
      {
        ghost var log, next, was := watcher.log, watcher.nextID, channels;
        var t := targets[i];
        NewKey(targets, i, channels);
        var ok := Register(t);
        if ok {
          Registered(log, was, next, KeyOf(t), channels[KeyOf(t)], watcher.clock, ttl);
        } else {
          NotRegistered(log, was, next, KeyOf(t), watcher.clock, ttl);
        }
        CallMeans(log, watcher.log[|log|], [], watcher.clock + renewSkew);
        assert watcher.log == log + [watcher.log[|log|]] + [];
        StampedOn(old(watcher.log), log, watcher.log, watcher.clock, ttl);
        assert targets[..i + 1] == targets[..i] + [t];
        HeldNext(old(watcher.log), log, watcher.log, was, channels, targets, i, watcher.clock + renewSkew);
      }
      assert targets[..|targets|] == targets;
    }

    /** The body of one renewal: the replacement first, then the old channel. */
    method Renew(t: Target, now: int)
      requires Valid()
      modifies this, watcher`nextID, watcher`log
      ensures Valid() && old(watcher.log) <= watcher.log && Stamped(old(watcher.log), watcher.log, watcher.clock, ttl)
      ensures old(channels.Keys) <= channels.Keys
      ensures forall k :: k in old(channels) && k != KeyOf(t) ==> channels[k] == old(channels)[k]
      // It is held past the next tick unless the call made for it failed, or
      // brought a channel that expires before.
      ensures WentWell(old(watcher.log), watcher.log, KeyOf(t), now + renewSkew) ==>
        UnexpiredAt(channels, KeyOf(t), now + renewSkew)
      // A channel that lives past the next tick is left alone.
      ensures UnexpiredAt(old(channels), KeyOf(t), now + renewSkew) ==>
        channels == old(channels) && watcher.log == old(watcher.log)
      // Otherwise there is one call of Watch: when it fails everything stays, and
      // when it does not the channel it replaces is stopped after it.
      ensures !UnexpiredAt(old(channels), KeyOf(t), now + renewSkew) ==>
        || (&& channels == old(channels)
            && watcher.log == old(watcher.log) + [Failed(KeyOf(t), watcher.clock, ttl)])
        || (&& KeyOf(t) in channels && channels == old(channels)[KeyOf(t) := channels[KeyOf(t)]]
            && watcher.log == old(watcher.log) + [Watched(KeyOf(t), channels[KeyOf(t)], watcher.clock, ttl)]
                              + if KeyOf(t) in old(channels) then [Stopped(old(channels)[KeyOf(t)])] else [])
    {
      hide Tidy, Covered, Stamped, WentWell, KeyOf, Skew;
      StampedOn(watcher.log, watcher.log, watcher.log, watcher.clock, ttl);
      var k := KeyOf(t);
      var known := k in channels;
      if known && !(now + renewSkew > channels[k].expiry) {
        return;
      }
      ghost var log, next, was := watcher.log, watcher.nextID, channels;
      var ch := if known then Some(channels[k]) else None;
      var ok := Register(t);
      if !ok {
        NotRegistered(log, was, next, k, watcher.clock, ttl);
        CallMeans(log, Failed(k, watcher.clock, ttl), [], now + renewSkew);
        assert watcher.log == log + [Failed(k, watcher.clock, ttl)] + [];
        return;
      }
      Registered(log, was, next, k, channels[k], watcher.clock, ttl);
      ghost var stops: seq<Call> := [];
      if ch.Some? {
        var failed := watcher.Stop(ch.value);
        stops := [Stopped(ch.value)];
      }
      CallMeans(log, Watched(k, channels[k], watcher.clock, ttl), stops, now + renewSkew);
      assert watcher.log == log + [Watched(k, channels[k], watcher.clock, ttl)] + stops;
    }

    /** One tick. */
    method RenewExpiring(targets: seq<Target>)
      requires Valid() && DistinctKeys(targets)
      modifies this, watcher`nextID, watcher`log
      ensures Valid() && old(watcher.log) <= watcher.log && Stamped(old(watcher.log), watcher.log, watcher.clock, ttl)
      ensures old(channels.Keys) <= channels.Keys
      ensures HeldUnlessFailed(old(watcher.log), watcher.log, channels, targets, watcher.clock + renewSkew)
    {
      hide Tidy, Covered, Stamped, WentWell, HeldUnlessFailed, UnexpiredAt, DistinctKeys, KeyOf, Skew;
      StampedOn(watcher.log, watcher.log, watcher.log, watcher.clock, ttl);
      NoneHeld(watcher.log, channels, targets, watcher.clock + renewSkew);
      var now := watcher.clock;
      for i := 0 to |targets|
        invariant Valid() && old(watcher.log) <= watcher.log
        invariant Stamped(old(watcher.log), watcher.log, watcher.clock, ttl)
        invariant old(channels.Keys) <= channels.Keys
        invariant HeldUnlessFailed(old(watcher.log), watcher.log, channels, targets[..i], now + renewSkew)
      {
        ghost var log, was := watcher.log, channels;
        Renew(targets[i], now);
        StampedOn(old(watcher.log), log, watcher.log, now, ttl);
        HeldNext(old(watcher.log), log, watcher.log, was, channels, targets, i, now + renewSkew);
      }
      assert targets[..|targets|] == targets;
    }

    /** Stops every channel held, and forgets them. */
    method StopAll() returns (ghost chans: seq<Channel>)
      requires Valid()
      modifies this, watcher`nextID, watcher`log
      ensures channels == map[] && watcher.log == old(watcher.log) + Stops(chans)
      ensures forall k :: Open(watcher.log, k) == {}
      ensures forall k :: AllStopped(old(watcher.log), k, watcher.log)
    {
      var held: seq<Channel> := [];
      var keys := channels.Keys;
      while keys != {}
        invariant keys <= channels.Keys
        invariant forall k :: k in channels.Keys - keys ==> channels[k] in held
        invariant channels == old(channels) && watcher.log == old(watcher.log) && watcher.nextID == old(watcher.nextID)
        decreases |keys|
      {
        var k :| k in keys;
        held, keys := held + [channels[k]], keys - {k};
      }
      ghost var log, was := watcher.log, channels;
      channels := map[];
      for i := 0 to |held|
        invariant watcher.log == log + Stops(held[..i]) && channels == map[]
      {
        var failed := watcher.Stop(held[i]);
        assert Stops(held[..i + 1]) == Stops(held[..i]) + [Stopped(held[i])];
      }
      assert held[..|held|] == held;
      chans := held;
      StoppedEach(log, was, old(watcher.nextID), held);
    }

    /** From first registration to shutdown. `times[0]` is when the targets were
        registered and the others are the ticks; `logs[i]` and `held[i]` are the
        provider's log and the channels held once phase `i` is done. */
    method Run(targets: seq<Target>, times: seq<int>)
      returns (ghost logs: seq<seq<Call>>, ghost held: seq<map<string, Channel>>, ghost last: seq<Call>)
      requires Valid() && watcher.log == [] && channels == map[] && DistinctKeys(targets) && times != []
      modifies this, watcher
      ensures Phases(targets, times, ttl, logs, held)
      ensures last == logs[|times| - 1] && last <= watcher.log
      // No gap in coverage before shutdown, and nothing left open after it.
      ensures Covered(last)
      ensures forall k :: Open(watcher.log, k) == {} && AllStopped(last, k, watcher.log)
    {
      hide Tidy, Covered, NeverUncovered, Stamped, WentWell, HeldUnlessFailed, DistinctKeys, KeyOf, Phases, Skew;
      watcher.Wait(times[0]);
      RegisterAll(targets);
      logs, held := [watcher.log], [channels];
      HeldAreOpenIn(watcher.log, channels, watcher.nextID);
      FirstPhase(targets, times, ttl, watcher.log, channels);
      for n := 1 to |times|
        invariant Valid() && |logs| == |held| == n && logs[n - 1] == watcher.log && held[n - 1] == channels
        invariant Phases(targets, times[..n], ttl, logs, held)
      {
        watcher.Wait(times[n]);
        RenewExpiring(targets);
        HeldAreOpenIn(watcher.log, channels, watcher.nextID);
        PhasesNext(targets, times, ttl, logs, held, n, watcher.log, channels);
        logs, held := logs + [watcher.log], held + [channels];
      }
      assert times[..|times|] == times;
      last := watcher.log;
      ghost var chans := StopAll();
    }
  }

  /** Between the first registration and one skew after the last tick, every
      instant lies within a skew of the phase before it. */
  lemma {:induction false} EveryInstantIsCovered(times: seq<int>, skew: int, u: int) returns (i: nat)
    requires times != [] && skew > 0
    requires forall n :: 0 <= n < |times| - 1 ==> times[n] < times[n + 1] <= times[n] + skew
    requires times[0] <= u <= times[|times| - 1] + skew
    ensures i < |times| && times[i] <= u <= times[i] + skew
    ensures i + 1 < |times| ==> u < times[i + 1]
  {
    var n := |times| - 1;
    if n == 0 || times[n] <= u {
      i := n;
    } else {
      i := EveryInstantIsCovered(times[..n], skew, u);
    }
  }

  /** Phase `i` is the last one at or before the instant. */
  predicate CurrentPhase(times: seq<int>, u: int, i: nat) {
    i < |times| && times[i] <= u && (i + 1 < |times| ==> u < times[i + 1])
  }

  lemma {:induction false} LogsGrow(targets: seq<Target>, times: seq<int>, ttl: int, logs: seq<seq<Call>>,
                                    held: seq<map<string, Channel>>, i: nat, n: nat)
    requires Phases(targets, times, ttl, logs, held) && i <= n < |times|
    ensures logs[i] <= logs[n]
  {
    if i < n {
      LogsGrow(targets, times, ttl, logs, held, i, n - 1);
      assert Phase(targets, times[n], ttl, LogBefore(logs, n), KeysBefore(held, n), logs[n], held[n]);
    }
  }

  /** No lapse: a target none of whose own registrations failed or brought a
      channel shorter than a skew has, with ticks at most a skew apart, an
      unexpired channel at every instant up to the next tick, whatever became of
      the other targets. `Run` provides the phases. */
  lemma NoLapse(targets: seq<Target>, times: seq<int>, ttl: int, logs: seq<seq<Call>>, held: seq<map<string, Channel>>,
                u: int, t: Target)
    requires times != [] && t in targets
    requires Phases(targets, times, ttl, logs, held) && Lives(logs[|times| - 1], KeyOf(t), Skew(ttl))
    requires forall n :: 0 <= n < |times| - 1 ==> times[n] < times[n + 1] <= times[n] + Skew(ttl)
    requires times[0] <= u <= times[|times| - 1] + Skew(ttl)
    ensures exists i: nat :: i < |times| && CurrentPhase(times, u, i) && UnexpiredAt(held[i], KeyOf(t), u)
  {
    hide Skew, Lives, WentWell, Stamped, HeldAreOpen;
    TtlCoversSkew(ttl);
    var i := EveryInstantIsCovered(times, Skew(ttl), u);
    LogsGrow(targets, times, ttl, logs, held, i, |times| - 1);
    assert Phase(targets, times[i], ttl, LogBefore(logs, i), KeysBefore(held, i), logs[i], held[i]);
    LivesMeans(LogBefore(logs, i), logs[i], logs[|times| - 1], KeyOf(t), times[i], ttl);
    assert CurrentPhase(times, u, i) && UnexpiredAt(held[i], KeyOf(t), u);
  }
}
