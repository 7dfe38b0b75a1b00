/**
 Classification of errors, backoff, and the retry loop.
 */
module Retry {
  import opened Basics

  /** Errors by what the program can tell about them. `Net(true)` covers any
      error reporting a timeout, an expired context included. `Join` is
      `errors.Join`; `AmbiguousInsert` deliberately hides the two errors it
      carries. */
  datatype Err =
    | Api(code: int)
    | Dns(temporary: bool, expired: bool)
    | Net(timeout: bool)
    | Canceled
    | NotOwned
    | Join(first: Err, second: Err)
    | AmbiguousInsert(insertErr: Err, findErr: Err)
    | Other(reason: string)

  /** The HTTP status of the first API error in the tree, if there is one. */
  function FirstApi(e: Err): Option<int> {
    match e
    case Api(code) => Some(code)
    case Join(a, b) => if FirstApi(a).Some? then FirstApi(a) else FirstApi(b)
    case _ => None
  }

  function FirstDns(e: Err): Option<bool> {
    match e
    case Dns(temporary, _) => Some(temporary)
    case Join(a, b) => if FirstDns(a).Some? then FirstDns(a) else FirstDns(b)
    case _ => None
  }

  function FirstNet(e: Err): Option<bool> {
    match e
    case Dns(_, expired) => Some(expired)
    case Net(timeout) => Some(timeout)
    case Join(a, b) => if FirstNet(a).Some? then FirstNet(a) else FirstNet(b)
    case _ => None
  }

  predicate IsTransient(e: Err) {
    if FirstApi(e).Some? then
      FirstApi(e).value == 429 || 500 <= FirstApi(e).value <= 599
    else
      FirstDns(e) == Some(true) || FirstNet(e) == Some(true)
  }

  predicate IsAmbiguous(e: Err) {
    && FirstApi(e).None?
    && (FirstDns(e) == Some(true) || FirstNet(e) == Some(true))
  }

  predicate IsGone(e: Err) {
    FirstApi(e) == Some(404) || FirstApi(e) == Some(410)
  }

  predicate IsPreconditionFailed(e: Err) {
    FirstApi(e) == Some(412)
  }

  /******* The classes, by the errors joined *******/

  /** The errors in the tree that join nothing, in the order they are looked at. */
  function Leaves(e: Err): seq<Err> {
    match e
    case Join(a, b) => Leaves(a) + Leaves(b)
    case _ => [e]
  }

  /** Leaf `i` is the first that answers the description. */
  ghost predicate First(leaves: seq<Err>, kind: Err -> bool, i: int) {
    0 <= i < |leaves| && kind(leaves[i]) && forall j :: 0 <= j < i ==> !kind(leaves[j])
  }

  ghost predicate Nowhere(leaves: seq<Err>, kind: Err -> bool) {
    forall i :: 0 <= i < |leaves| ==> !kind(leaves[i])
  }

  const ANSWERED := (e: Err) => e.Api?
  const LOOKUP := (e: Err) => e.Dns?
  const NETWORK := (e: Err) => e.Net? || e.Dns?

  lemma FirstOfJoin(a: seq<Err>, b: seq<Err>, kind: Err -> bool, i: int)
    requires First(a + b, kind, i)
    ensures i < |a| ==> First(a, kind, i)
    ensures i >= |a| ==> Nowhere(a, kind) && First(b, kind, i - |a|)
  {
    forall j | 0 <= j < i
      ensures !kind((a + b)[j])
    {
    }
    assert forall j :: 0 <= j < |a| ==> (a + b)[j] == a[j];
    assert forall j :: 0 <= j < |b| ==> (a + b)[|a| + j] == b[j];
  }

  /** What each search finds is the first leaf of its kind. */
  lemma {:induction false} FoundFirst(e: Err)
    ensures Nowhere(Leaves(e), ANSWERED) <==> FirstApi(e).None?
    ensures Nowhere(Leaves(e), LOOKUP) <==> FirstDns(e).None?
    ensures Nowhere(Leaves(e), NETWORK) <==> FirstNet(e).None?
    ensures forall i :: First(Leaves(e), ANSWERED, i) ==> FirstApi(e) == Some(Leaves(e)[i].code)
    ensures forall i :: First(Leaves(e), LOOKUP, i) ==> FirstDns(e) == Some(Leaves(e)[i].temporary)
    ensures forall i :: First(Leaves(e), NETWORK, i) ==> FirstNet(e) == Some(TimedOut(Leaves(e)[i]))
  {
    if e.Join? {
      FoundFirst(e.first);
      FoundFirst(e.second);
      var a, b := Leaves(e.first), Leaves(e.second);
      assert Leaves(e) == a + b;
      NowhereInJoin(a, b, ANSWERED);
      NowhereInJoin(a, b, LOOKUP);
      NowhereInJoin(a, b, NETWORK);
      forall i | First(a + b, ANSWERED, i)
        ensures FirstApi(e) == Some((a + b)[i].code)
      {
        FirstOfJoin(a, b, ANSWERED, i);
      }
      forall i | First(a + b, LOOKUP, i)
        ensures FirstDns(e) == Some((a + b)[i].temporary)
      {
        FirstOfJoin(a, b, LOOKUP, i);
      }
      forall i | First(a + b, NETWORK, i)
        ensures FirstNet(e) == Some(TimedOut((a + b)[i]))
      {
        FirstOfJoin(a, b, NETWORK, i);
      }
    } else {
      assert Leaves(e) == [e] && Leaves(e)[0] == e;
    }
  }

  lemma NowhereInJoin(a: seq<Err>, b: seq<Err>, kind: Err -> bool)
    ensures Nowhere(a + b, kind) <==> Nowhere(a, kind) && Nowhere(b, kind)
  {
    assert forall j :: 0 <= j < |a| ==> (a + b)[j] == a[j];
    assert forall j :: 0 <= j < |b| ==> (a + b)[|a| + j] == b[j];
  }

  predicate TimedOut(e: Err) {
    match e
    case Dns(_, expired) => expired
    case Net(timeout) => timeout
    case _ => false
  }

  /** An error with an HTTP answer in it goes by the first one: 429 and 5xx are
      worth retrying, 404 and 410 mean gone, 412 a failed precondition, and none
      of them leaves open whether the call took effect. Without one, a temporary
      name failure or a timeout is worth retrying and leaves it open. */
  lemma ClassesByLeaves(e: Err)
    ensures forall i :: First(Leaves(e), ANSWERED, i) ==>
      && (IsTransient(e) <==> Leaves(e)[i].code == 429 || 500 <= Leaves(e)[i].code <= 599)
      && (IsGone(e) <==> Leaves(e)[i].code == 404 || Leaves(e)[i].code == 410)
      && (IsPreconditionFailed(e) <==> Leaves(e)[i].code == 412)
      && !IsAmbiguous(e)
    ensures Nowhere(Leaves(e), ANSWERED) ==>
      && !IsGone(e) && !IsPreconditionFailed(e) && IsAmbiguous(e) == IsTransient(e)
      && (Nowhere(Leaves(e), NETWORK) ==> !IsTransient(e))
      && (forall i :: First(Leaves(e), LOOKUP, i) && Leaves(e)[i].temporary ==> IsTransient(e))
      && (forall i :: First(Leaves(e), NETWORK, i) && TimedOut(Leaves(e)[i]) ==> IsTransient(e))
      && (forall i, j :: (First(Leaves(e), NETWORK, i) && !TimedOut(Leaves(e)[i])
                          && First(Leaves(e), LOOKUP, j) && !Leaves(e)[j].temporary) ==> !IsTransient(e))
      && (forall i :: First(Leaves(e), NETWORK, i) && !TimedOut(Leaves(e)[i]) && Nowhere(Leaves(e), LOOKUP) ==>
            !IsTransient(e))
  {
    FoundFirst(e);
    NoLookupThen(Leaves(e));
  }

  lemma NoLookupThen(leaves: seq<Err>)
    ensures Nowhere(leaves, NETWORK) ==> Nowhere(leaves, LOOKUP)
  {
  }

  /** So for each single error, and an HTTP answer joined with anything after it. */
  lemma ClassesOfOne(code: int, temporary: bool, expired: bool, timeout: bool, e: Err, reason: string)
    ensures IsTransient(Api(code)) <==> code == 429 || 500 <= code <= 599
    ensures IsTransient(Dns(temporary, expired)) <==> temporary || expired
    ensures IsTransient(Net(timeout)) <==> timeout
    ensures !IsTransient(Canceled) && !IsTransient(NotOwned) && !IsTransient(Other(reason))
    ensures IsTransient(Join(Api(code), e)) == IsTransient(Api(code))
    ensures IsGone(Api(code)) <==> code == 404 || code == 410
    ensures IsPreconditionFailed(Api(code)) <==> code == 412
  {
  }

  /** Durations are whole nanoseconds. */
  datatype Policy = Policy(maxAttempts: int, baseBackoff: int, maxBackoff: int)

  const MILLISECOND := 1_000_000
  const SECOND := 1_000 * MILLISECOND

  function Attempts(p: Policy): (n: nat) {
    if p.maxAttempts < 1 then 1 else p.maxAttempts
  }

  function Pow2(n: int): (r: nat)
    ensures r >= 1
    decreases if n > 62 then 63 else n
  {
    if n <= 0 then 1
    else if n > 62 then Pow2(62)
    else 2 * Pow2(n - 1)
  }

  /** The exclusive upper limit of the wait before retry `attempt`. */
  function Ceiling(p: Policy, attempt: nat): (r: int)
    ensures r > 0
    ensures p.maxBackoff > 0 ==> r <= p.maxBackoff
  {
    var base := if p.baseBackoff <= 0 then 500 * MILLISECOND else p.baseBackoff;
    var maxb := if p.maxBackoff <= 0 then 30 * SECOND else p.maxBackoff;
    var grown := base * Pow2(attempt);
    assert grown >= base by { ScaledUp(base, Pow2(attempt)); }
    if grown > maxb then maxb else grown
  }

  /** The ceiling starts at the base and doubles up to the cap, each with its
      default where the policy gives none; past the 62nd retry it stays. */
  lemma CeilingDoubles(p: Policy, i: nat)
    ensures var base := if p.baseBackoff <= 0 then 500_000_000 else p.baseBackoff;
            var cap := if p.maxBackoff <= 0 then 30_000_000_000 else p.maxBackoff;
            && Ceiling(p, 0) == Lesser(base, cap)
            && Ceiling(p, i + 1) == if i < 62 then Lesser(2 * Ceiling(p, i), cap) else Ceiling(p, i)
  {
    var base := if p.baseBackoff <= 0 then 500_000_000 else p.baseBackoff;
    if i < 62 {
      assert Pow2(i + 1) == 2 * Pow2(i);
      assert base * Pow2(i + 1) == 2 * (base * Pow2(i));
    } else if i > 62 {
      assert Pow2(i + 1) == Pow2(62) == Pow2(i);
    }
  }

  function Lesser(a: int, b: int): int {
    if a < b then a else b
  }

  lemma ScaledUp(x: nat, k: nat)
    requires k >= 1
    ensures x * k >= x
  {
  }

  /** Full jitter: a uniform draw in [0, 1) of the ceiling, truncated. */
  function BackoffFor(p: Policy, attempt: nat, draw: real): (wait: int)
    requires 0.0 <= draw < 1.0
    ensures 0 <= wait < Ceiling(p, attempt)
    ensures wait as real <= draw * Ceiling(p, attempt) as real < wait as real + 1.0
  {
    Truncated(draw, Ceiling(p, attempt));
    (draw * Ceiling(p, attempt) as real).Floor
  }

  lemma Scaled(draw: real, k: real)
    requires 0.0 <= draw < 1.0 && k > 0.0
    ensures 0.0 <= draw * k < k
  {
    assert draw * k >= 0.0 * k;
    assert (1.0 - draw) * k > 0.0;
    assert (1.0 - draw) * k == k - draw * k;
  }

  lemma Truncated(draw: real, c: int)
    requires 0.0 <= draw < 1.0 && c > 0
    ensures 0 <= (draw * c as real).Floor < c
    ensures (draw * c as real).Floor as real <= draw * c as real < (draw * c as real).Floor as real + 1.0
  {
    var k := c as real;
    var x := draw * k;
    Scaled(draw, k);
    assert 0.0 <= x < k;
    assert x - 1.0 < x.Floor as real <= x;
  }

  function CeilingSum(p: Policy, retries: nat): (r: int)
    ensures r >= retries
  {
    if retries == 0 then 0 else CeilingSum(p, retries - 1) + Ceiling(p, retries - 1)
  }

  /** The waits before the first retries, by their draws. */
  ghost function WaitsSum(p: Policy, draw: nat -> real, retries: nat): int
    requires forall i: nat :: 0.0 <= draw(i) < 1.0
  {
    if retries == 0 then 0 else WaitsSum(p, draw, retries - 1) + BackoffFor(p, retries - 1, draw(retries - 1))
  }

  /** The error that stops the loop before another attempt, if the context is done. */
  function StopBefore(last: Option<Err>, ctx: Option<Err>): Option<Err> {
    if ctx.None? then None
    else if last.Some? then Some(Join(last.value, ctx.value))
    else ctx
  }

  /** The error that stops the loop after attempt `i` failed with `e`; `ctx` is
      the context's error during the wait. None means try again. */
  function StopAfter(p: Policy, i: nat, e: Err, ctx: Option<Err>): Option<Err> {
    if !IsTransient(e) then Some(e)
    else if i == Attempts(p) - 1 then Some(e)
    else if ctx.Some? then Some(Join(e, ctx.value))
    else None
  }

  predicate Again(outcome: Option<Err>) {
    outcome.Some? && IsTransient(outcome.value)
  }

  /** What the loop guarantees about the outcomes of the calls it made and the
      error it returns: every call but the last failed transiently; it succeeds
      exactly when its last call did; and a failure is the last call's, final or
      with no attempt left. Only if the context was found to be done, `halted`,
      may it stop sooner, before any call or with the last call's error joined. */
  predicate Retried(p: Policy, tries: seq<Option<Err>>, err: Option<Err>, halted: bool) {
    && |tries| <= Attempts(p)
    && (forall i :: 0 <= i < |tries| - 1 ==> Again(tries[i]))
    && (err.None? <==> tries != [] && tries[|tries| - 1].None?)
    && (tries == [] ==> halted)
    && (err.Some? && tries != [] ==> EndsWith(p, |tries|, tries[|tries| - 1], err.value, halted))
  }

  /** The replies given since are those of such a loop. */
  predicate Heeded(p: Policy, before: seq<Option<Err>>, now: seq<Option<Err>>, err: Option<Err>, halted: bool) {
    before <= now && Retried(p, now[|before|..], err, halted)
  }

  lemma HeededBy(p: Policy, before: seq<Option<Err>>, tries: seq<Option<Err>>, err: Option<Err>, halted: bool)
    requires Retried(p, tries, err, halted)
    ensures Heeded(p, before, before + tries, err, halted)
  {
    assert (before + tries)[|before|..] == tries;
  }

  predicate EndsWith(p: Policy, calls: nat, last: Option<Err>, err: Err, halted: bool) {
    && last.Some?
    && (if IsTransient(last.value) then
          (err == last.value && calls == Attempts(p)) || (halted && err.Join? && err.first == last.value)
        else err == last.value)
  }

  /** Every call so far failed transiently, the last one with `last`. */
  predicate Trying(tries: seq<Option<Err>>, last: Option<Err>) {
    && (forall i :: 0 <= i < |tries| ==> Again(tries[i]))
    && last == if tries == [] then None else tries[|tries| - 1]
  }

  lemma TryingBegins(p: Policy)
    ensures Trying([], None) && 0 < Attempts(p)
  {
  }

  lemma ErrOfMeans<T>(r: Result<T, Err>)
    ensures ErrOf(r) == if r.Ok? then None else Some(r.error)
  {
  }

  lemma StoppedBefore(p: Policy, tries: seq<Option<Err>>, last: Option<Err>, ctx: Option<Err>)
    requires Trying(tries, last) && |tries| < Attempts(p)
    ensures StopBefore(last, ctx).Some? ==> Retried(p, tries, StopBefore(last, ctx), true) && ctx.Some?
    ensures tries != [] ==> tries[|tries| - 1] == last && last.Some? && !IsGone(last.value)
  {
  }

  /** One more call: the loop ends with it, or goes on after a transient failure. */
  lemma CalledAgain(p: Policy, tries: seq<Option<Err>>, last: Option<Err>, outcome: Option<Err>, ctx: Option<Err>)
    requires Trying(tries, last) && |tries| < Attempts(p)
    ensures outcome.None? ==> Retried(p, tries + [outcome], None, false)
    ensures outcome.Some? && StopAfter(p, |tries|, outcome.value, ctx).Some? ==>
      Retried(p, tries + [outcome], StopAfter(p, |tries|, outcome.value, ctx), ctx.Some?)
    ensures outcome.Some? && StopAfter(p, |tries|, outcome.value, ctx).None? ==>
      Trying(tries + [outcome], outcome) && |tries| + 1 < Attempts(p) && IsTransient(outcome.value)
  {
  }

  function ErrOf<T>(r: Result<T, Err>): Option<Err> {
    if r.Ok? then None else Some(r.error)
  }

  /**
   The retry loop over arbitrary behaviour of the function it calls:
   `outcome(i)` is what the i-th call returns, `before(i)` the context's error
   just before that call, `during(i)` the context's error in the wait after it,
   `draw(i)` the random draw. `waits` counts waits begun and `waited` sums them.
   */
  method Run(p: Policy, outcome: nat -> Option<Err>, before: nat -> Option<Err>,
             during: nat -> Option<Err>, draw: nat -> real)
    returns (err: Option<Err>, calls: nat, waits: nat, waited: int)
    requires forall i: nat :: 0.0 <= draw(i) < 1.0
    // One call, or as many as the policy allows, and all of them when each
    // fails transiently with the context live.
    ensures calls <= 1 || calls <= p.maxAttempts
    ensures calls <= waits + 1 && waits <= calls
    ensures var limit := if p.maxAttempts > 1 then p.maxAttempts else 1;
      (forall i: nat :: i < limit ==>
         before(i).None? && during(i).None? && outcome(i).Some? && IsTransient(outcome(i).value))
      ==> calls == limit
    ensures Retried(p, seq(calls, i requires 0 <= i < calls => outcome(i)), err,
                    before(calls).Some? || (calls > 0 && during(calls - 1).Some?))
    // Another call is made only after a transient error with a live context.
    ensures forall i: nat :: i < calls ==> before(i).None?
    ensures forall i: nat :: i + 1 < calls ==>
      outcome(i).Some? && IsTransient(outcome(i).value) && during(i).None?
    // Success exactly when the last call succeeded.
    ensures err.None? <==> calls > 0 && outcome(calls - 1).None?
    // A failure is one of: context done first, final error, context done later.
    ensures err.Some? && calls == 0 ==> err == before(0)
    ensures err.Some? && calls > 0 && before(calls).None? && (waits < calls || during(calls - 1).None?) ==>
      err == outcome(calls - 1) && (!IsTransient(err.value) || calls == Attempts(p))
    ensures err.Some? && calls > 0 && err != outcome(calls - 1) ==>
      || (during(calls - 1).Some? && err == Some(Join(outcome(calls - 1).value, during(calls - 1).value)))
      || (before(calls).Some? && err == Some(Join(outcome(calls - 1).value, before(calls).value)))
    // The waits are those drawn, below the sum of the ceilings.
    ensures waited == WaitsSum(p, draw, waits)
    ensures 0 <= waited <= CeilingSum(p, waits) && (waits > 0 ==> waited < CeilingSum(p, waits))
  {
    var last := None;
    var i: nat := 0;
    calls, waits, waited := 0, 0, 0;
    while i < Attempts(p)
      invariant i == calls == waits <= Attempts(p)
      invariant forall j: nat :: j < i ==>
        before(j).None? && outcome(j).Some? && IsTransient(outcome(j).value) && during(j).None?
      invariant last == if i == 0 then None else outcome(i - 1)
      invariant i < Attempts(p)
      invariant waited == WaitsSum(p, draw, waits)
      invariant 0 <= waited <= CeilingSum(p, waits) && (waits > 0 ==> waited < CeilingSum(p, waits))
    {
      var stop := StopBefore(last, before(i));
      if stop.Some? {
        return stop, calls, waits, waited;
      }
      last := outcome(i);
      calls := i + 1;
      if last.None? {
        return None, calls, waits, waited;
      }
      stop := StopAfter(p, i, last.value, during(i));
      if IsTransient(last.value) && i != Attempts(p) - 1 {
        waited := waited + BackoffFor(p, i, draw(i));
        waits := waits + 1;
      }
      if stop.Some? {
        return stop, calls, waits, waited;
      }
      i := i + 1;
    }
    assert false;
  }

  /** What is retried is either unanswered, and so ambiguous, or an HTTP 429 or
      5xx; an ambiguous failure carries no HTTP answer. */
  lemma TransientIsAmbiguousOrAnswered(e: Err)
    ensures IsTransient(e) && !IsAmbiguous(e) ==>
            FirstApi(e).Some? && (FirstApi(e).value == 429 || 500 <= FirstApi(e).value <= 599)
    ensures IsAmbiguous(e) ==> IsTransient(e) && FirstApi(e).None?
    ensures IsGone(e) || IsPreconditionFailed(e) ==> !IsTransient(e)
    ensures forall a, b :: !IsTransient(AmbiguousInsert(a, b))
  {
  }
}
