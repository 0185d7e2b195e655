/** The client's retry policies as pure functions: the reconnect decision
    with its counter and user-disconnect flag, and the resend/reread decision;
    and what each policy does when driven by a sequence of driver outcomes. */
module RetryPolicy {
  import opened Kotlin
  import opened Client

  // ----- Reconnect ------------------------------------------------------------

  /** `drivingDisconnect` and `curReconnectCount`. */
  datatype Policy = Policy(driving: bool, cur: int)

  /** What the connect callback asks the client to do, in order. */
  datatype Effect =
    | PostState(state: ConnectState)   // callConnectState: post the state to the handler
    | Reissue                          // connect(...) again with the same arguments
    | ForceDisconnect                  // disconnect()

  datatype ReconnectDecision = ReconnectAgain(next: int) | GiveUp | Forward

  /** `checkReconnect`'s test on the counter. */
  function DecideReconnect(cur: int, max: int32): (d: ReconnectDecision)
    ensures d.ReconnectAgain? <==> 0 < max && cur < max as int
    ensures d.ReconnectAgain? ==> d.next == cur + 1
    ensures d == Forward <==> max <= 0
  {
    if max > 0 then (if cur < max as int then ReconnectAgain(cur + 1) else GiveUp)
    else Forward
  }

  /** `checkReconnect(..., state)` for a failed attempt reported as `state`. */
  function CheckReconnect(p: Policy, max: int32, state: ConnectState): (r: (Policy, seq<Effect>))
    ensures 0 < max && p.cur < max as int ==> r == (p.(cur := p.cur + 1), [PostState(Reconnect), Reissue])
    ensures 0 < max && p.cur >= max as int ==> r == (p, [PostState(state), ForceDisconnect])
    ensures max <= 0 ==> r == (p, [PostState(state)])
  {
    match DecideReconnect(p.cur, max)
    case ReconnectAgain(n) => (p.(cur := n), [PostState(Reconnect), Reissue])
    case GiveUp => (p, [PostState(state), ForceDisconnect])
    case Forward => (p, [PostState(state)])
  }

  /** The body of the state callback `connect` hands to the driver. */
  function OnConnectState(p: Policy, max: int32, state: ConnectState): (r: (Policy, seq<Effect>))
    ensures IsFailure(p, state) ==> r == CheckReconnect(p, max, state)
    ensures !IsFailure(p, state) ==> r.1 == [PostState(state)] && r.0 == (if state == Connected then Policy(false, 0) else p)
    ensures 1 <= |r.1| <= 2 && r.1[0].PostState? && forall i :: 1 <= i < |r.1| ==> !r.1[i].PostState?
  {
    if state == Disconnected && !p.driving then CheckReconnect(p, max, state)
    else if state == ConnectError || state == ConnectTimeout then CheckReconnect(p, max, state)
    else if state == Connected then (Policy(false, 0), [PostState(state)])
    else (p, [PostState(state)])
  }

  /** The flag `disconnect()` raises before tearing the driver down. */
  function AfterDisconnect(p: Policy): (r: Policy)
  {
    p.(driving := true)
  }

  /** A report the reconnect policy treats as a failed attempt. */
  predicate IsFailure(p: Policy, state: ConnectState)
  {
    state == ConnectError || state == ConnectTimeout || (state == Disconnected && !p.driving)
  }

  /** Zero reconnects: a failure is forwarded as it is, nothing else happens. */
  lemma NoBudgetForwards(p: Policy, max: int32, state: ConnectState)
    requires max <= 0 && IsFailure(p, state)
    ensures OnConnectState(p, max, state) == (p, [PostState(state)])
  {
  }

  /** A disconnect the user drove is forwarded and never reconnects. */
  lemma DrivenDisconnectForwards(p: Policy, max: int32)
    requires p.driving
    ensures OnConnectState(p, max, Disconnected) == (p, [PostState(Disconnected)])
  {
  }

  /** Only CONNECTED lowers the counter or clears the flag, and it resets both. */
  lemma OnlyConnectedResets(p: Policy, max: int32, state: ConnectState)
    ensures var q := OnConnectState(p, max, state).0;
      (q.cur < p.cur || (p.driving && !q.driving)) ==> state == Connected
    ensures state == Connected ==> OnConnectState(p, max, state).0 == Policy(false, 0)
  {
  }

  /** An exhausted counter (as left by an earlier connect) gives up at the
      first failure: no RECONNECT, the failure is posted, then disconnect. */
  lemma ExhaustedCounterGivesUp(p: Policy, max: int32, state: ConnectState)
    requires 0 < max && p.cur >= max as int && IsFailure(p, state)
    ensures OnConnectState(p, max, state) == (p, [PostState(state), ForceDisconnect])
  {
  }

  /** What a run of the policy posts and does. */
  datatype ReconnectTrace = ReconnectTrace(posts: seq<ConnectState>, reissues: nat, disconnects: nat, last: Policy)

  function Posts(effects: seq<Effect>): seq<ConnectState>
  {
    if |effects| == 0 then []
    else (if effects[0].PostState? then [effects[0].state] else []) + Posts(effects[1..])
  }

  function CountEffect(effects: seq<Effect>, e: Effect): nat
  {
    if |effects| == 0 then 0 else (if effects[0] == e then 1 else 0) + CountEffect(effects[1..], e)
  }

  /** The policy driven by the driver reports `reports`, one callback each; a
      forced disconnect raises the flag as `disconnect()` does. */
  function RunReconnect(p: Policy, max: int32, reports: seq<ConnectState>): (t: ReconnectTrace)
    decreases |reports|
  {
    if |reports| == 0 then ReconnectTrace([], 0, 0, p)
    else
      var (q, effects) := OnConnectState(p, max, reports[0]);
      var q' := if ForceDisconnect in effects then AfterDisconnect(q) else q;
      var rest := RunReconnect(q', max, reports[1..]);
      ReconnectTrace(Posts(effects) + rest.posts,
                     CountEffect(effects, Reissue) + rest.reissues,
                     CountEffect(effects, ForceDisconnect) + rest.disconnects,
                     rest.last)
  }

  function Repeat<T>(x: T, n: nat): (r: seq<T>)
    ensures |r| == n && forall i :: 0 <= i < n ==> r[i] == x
  {
    if n == 0 then [] else [x] + Repeat(x, n - 1)
  }

  /** One more copy in front of the rest. */
  lemma RepeatAfter<T>(xs: seq<T>, x: T, k: nat)
    requires k > 0
    ensures xs + [x] + Repeat(x, k - 1) == xs + Repeat(x, k)
  {
    assert Repeat(x, k) == [x] + Repeat(x, k - 1);
  }

  /** One more copy after the rest. */
  lemma {:induction false} RepeatBefore<T>(xs: seq<T>, x: T, k: nat)
    requires k > 0
    ensures xs + Repeat(x, k - 1) + [x] == xs + Repeat(x, k)
  {
    assert Repeat(x, k - 1) + [x] == Repeat(x, k);
  }

  /** What a pair of effects posts and how often it holds `e`. */
  lemma PairEffects(a: Effect, b: Effect, e: Effect)
    ensures Posts([a, b]) == (if a.PostState? then [a.state] else []) + (if b.PostState? then [b.state] else [])
    ensures CountEffect([a, b], e) == (if a == e then 1 else 0) + (if b == e then 1 else 0)
  {
    assert [a, b][1..] == [b] && [b][1..] == [];
    assert Posts([b]) == (if b.PostState? then [b.state] else []) + Posts([]);
    assert CountEffect([b], e) == (if b == e then 1 else 0) + CountEffect([], e);
  }

  /** One failure with budget left: RECONNECT is posted and connect re-issued. */
  lemma RetryStep(c: nat, max: int32, f: ConnectState, rest: seq<ConnectState>)
    requires c < max as int
    requires f == ConnectError || f == ConnectTimeout || f == Disconnected
    ensures var t := RunReconnect(Policy(false, c + 1), max, rest);
      RunReconnect(Policy(false, c), max, [f] + rest)
        == ReconnectTrace([Reconnect] + t.posts, 1 + t.reissues, t.disconnects, t.last)
  {
    var effects := [PostState(Reconnect), Reissue];
    assert OnConnectState(Policy(false, c), max, f) == (Policy(false, c + 1), effects);
    PairEffects(PostState(Reconnect), Reissue, Reissue);
    PairEffects(PostState(Reconnect), Reissue, ForceDisconnect);
    assert ([f] + rest)[1..] == rest;
  }

  /** One failure with the budget spent: the failure is posted, then disconnect. */
  lemma GiveUpStep(max: int32, f: ConnectState)
    requires 0 < max
    requires f == ConnectError || f == ConnectTimeout || f == Disconnected
    ensures RunReconnect(Policy(false, max as int), max, [f])
            == ReconnectTrace([f], 0, 1, Policy(true, max as int))
  {
    var effects := [PostState(f), ForceDisconnect];
    assert OnConnectState(Policy(false, max as int), max, f) == (Policy(false, max as int), effects);
    PairEffects(PostState(f), ForceDisconnect, Reissue);
    PairEffects(PostState(f), ForceDisconnect, ForceDisconnect);
    assert [f][1..] == [];
  }

  /** A driver that keeps failing with `f` against a budget of `max` from a
      counter of `c`: `max - c` RECONNECT posts and re-issued connects, then
      `f` itself is posted and the client disconnects once. */
  lemma {:induction false} FailingRunExhausts(c: nat, max: int32, f: ConnectState)
    requires 0 < max && c <= max as int
    requires f == ConnectError || f == ConnectTimeout || f == Disconnected
    ensures var t := RunReconnect(Policy(false, c), max, Repeat(f, max as int - c + 1));
      && t.posts == Repeat(Reconnect, max as int - c) + [f]
      && t.reissues == max as int - c
      && t.disconnects == 1
      && t.last == Policy(true, max as int)
    decreases max as int - c
  {
    if c == max as int {
      assert Repeat(f, 1) == [f];
      GiveUpStep(max, f);
    } else {
      var n := max as int - c;
      assert Repeat(f, n + 1) == [f] + Repeat(f, n);
      RetryStep(c, max, f, Repeat(f, n));
      FailingRunExhausts(c + 1, max, f);
      PrependRetry(RunReconnect(Policy(false, c + 1), max, Repeat(f, n)), n, f);
    }
  }

  /** One more RECONNECT and re-issue in front of a failing run. */
  lemma PrependRetry(t: ReconnectTrace, n: nat, f: ConnectState)
    requires n > 0 && t.posts == Repeat(Reconnect, n - 1) + [f] && t.reissues == n - 1
    ensures [Reconnect] + t.posts == Repeat(Reconnect, n) + [f] && 1 + t.reissues == n
  {
    assert Repeat(Reconnect, n) == [Reconnect] + Repeat(Reconnect, n - 1);
  }

  /** From a fresh counter, a budget of `N > 0` against a driver that always
      fails gives exactly `N` RECONNECTs and `N` re-issued connects before the
      failure is posted and the client disconnects. */
  lemma AlwaysFailingDriver(max: int32, f: ConnectState)
    requires 0 < max
    requires f == ConnectError || f == ConnectTimeout || f == Disconnected
    ensures var t := RunReconnect(Policy(false, 0), max, Repeat(f, max as int + 1));
      t.posts == Repeat(Reconnect, max as int) + [f] && t.reissues == max as int && t.disconnects == 1
  {
    FailingRunExhausts(0, max, f);
  }

  // ----- Resend / reread ------------------------------------------------------

  datatype RetryDecision = RetryAgain(next: int) | Fail

  /** `checkResend` / `checkReread` for the attempt numbered `attempt`. */
  function DecideRetry(attempt: int, max: int32): (d: RetryDecision)
    ensures d.RetryAgain? <==> 0 < max && attempt < max as int
    ensures d.RetryAgain? ==> d.next == attempt + 1
  {
    if max > 0 then (if attempt < max as int then RetryAgain(attempt + 1) else Fail)
    else Fail
  }

  /** The number of retries a budget allows: a budget of zero or less allows none. */
  function Budget(max: int32): nat
  {
    if max > 0 then max as int else 0
  }

  /** Where a send or read stands after the driver answered some attempts. */
  datatype RetryRun =
    | Finished(attempts: nat, success: bool)   // the caller's callback ran once with `success`
    | Waiting(attempts: nat)                   // the last attempt has no answer yet

  /** Attempt `attempt` and the retries after it, the driver answering attempt
      `k` with `outcomes[k]` (true for success). */
  function RunRetries(outcomes: seq<bool>, attempt: int, max: int32): (r: RetryRun)
    decreases |outcomes|
  {
    if |outcomes| == 0 then Waiting(1)
    else if outcomes[0] then Finished(1, true)
    else match DecideRetry(attempt, max)
      case Fail => Finished(1, false)
      case RetryAgain(n) =>
        match RunRetries(outcomes[1..], n, max)
        case Finished(k, ok) => Finished(k + 1, ok)
        case Waiting(k) => Waiting(k + 1)
  }

  /** Against a driver that always fails, attempt `a` and its retries make
      `Budget(max) - a + 1` driver calls and then report failure once. */
  lemma {:induction false} FailingRetriesFrom(outcomes: seq<bool>, a: nat, max: int32)
    requires a <= Budget(max) && |outcomes| > Budget(max) - a
    requires forall i :: 0 <= i < |outcomes| ==> !outcomes[i]
    ensures RunRetries(outcomes, a, max) == Finished(Budget(max) - a + 1, false)
    decreases Budget(max) - a
  {
    if a < Budget(max) {
      FailingRetriesFrom(outcomes[1..], a + 1, max);
    }
  }

  /** sendData/readData with budget `R` against an always-failing driver: `R + 1`
      attempts when `R > 0`, one attempt otherwise, then one failure callback. */
  lemma AlwaysFailingRetries(outcomes: seq<bool>, max: int32)
    requires |outcomes| > Budget(max)
    requires forall i :: 0 <= i < |outcomes| ==> !outcomes[i]
    ensures RunRetries(outcomes, 0, max) == Finished(Budget(max) + 1, false)
  {
    FailingRetriesFrom(outcomes, 0, max);
  }

  /** The first success within the budget ends the run with success, after
      exactly that many attempts. */
  lemma {:induction false} FirstSuccessStops(outcomes: seq<bool>, a: nat, max: int32, k: nat)
    requires a + k <= Budget(max) && k < |outcomes| && outcomes[k]
    requires forall i :: 0 <= i < k ==> !outcomes[i]
    ensures RunRetries(outcomes, a, max) == Finished(k + 1, true)
    decreases k
  {
    if k > 0 {
      FirstSuccessStops(outcomes[1..], a + 1, max, k - 1);
    }
  }

  /** Whatever the driver answers, a run never makes more than `Budget + 1`
      attempts; a finished run succeeds exactly when its last answer was a
      success, a failed run used the whole budget, and a run still waiting
      has one attempt more than answers. */
  lemma {:induction false} RetriesBounded(outcomes: seq<bool>, a: nat, max: int32)
    requires a <= Budget(max)
    ensures var r := RunRetries(outcomes, a, max);
      && 1 <= r.attempts <= Budget(max) - a + 1
      && (r.Finished? ==> r.attempts <= |outcomes|)
      && (r.Finished? ==> (r.success <==> outcomes[r.attempts - 1]))
      && (r.Finished? && !r.success ==> r.attempts == Budget(max) - a + 1)
      && (r.Waiting? ==> r.attempts == |outcomes| + 1)
      && (forall i :: 0 <= i < r.attempts - 1 && i < |outcomes| ==> !outcomes[i])
    decreases |outcomes|
  {
    if |outcomes| > 0 && !outcomes[0] && a < Budget(max) {
      RetriesBounded(outcomes[1..], a + 1, max);
    }
  }
}
