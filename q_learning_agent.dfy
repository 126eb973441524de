/**
 * The tabular Q-learning agent of the trainer service: discretisation of the
 * two temperatures into bins, epsilon-greedy action selection over a row of a
 * three-dimensional table, and the one-cell temporal-difference update with
 * its step counter, exploration decay and completion summary.
 *
 * Values are Dafny reals: the float32 table and float rounding are not modelled.
 */
module QLearning {
  import opened Wrappers

  /** Fixed value ranges used by `_state`. */
  const RoomMin: real := 10.0
  const RoomMax: real := 30.0
  const OutdoorMin: real := -10.0
  const OutdoorMax: real := 30.0

  /** Exploration floor and decay factor used by `learn`. */
  const EpsFloor: real := 0.01
  const EpsDecay: real := 0.995

  function Min(a: real, b: real): real { if a <= b then a else b }
  function Max(a: real, b: real): real { if a >= b then a else b }

  /** numpy's `clip(x, lo, hi)`, i.e. `minimum(maximum(x, lo), hi)`. */
  function Clip(x: real, lo: real, hi: real): real { Min(Max(x, lo), hi) }

  /** Python's `int(x)` on a float: truncation toward zero. */
  function Truncate(x: real): int {
    if x >= 0.0 then x.Floor else -((-x).Floor)
  }

  /** The position of `value` in `[vMin, vMax]`, scaled to `n` bins. */
  function Scaled(value: real, vMin: real, vMax: real, n: int): real
    requires vMin < vMax
  {
    (value - vMin) / (vMax - vMin) * n as real
  }

  lemma ScaledMonotone(v1: real, v2: real, vMin: real, vMax: real, n: int)
    requires vMin < vMax && 0 <= n && v1 <= v2
    ensures Scaled(v1, vMin, vMax, n) <= Scaled(v2, vMin, vMax, n)
  {
    var d := vMax - vMin;
    var f1, f2 := (v1 - vMin) / d, (v2 - vMin) / d;
    assert f2 - f1 == (v2 - v1) / d;
    assert f1 <= f2;
    assert f2 * n as real - f1 * n as real == (f2 - f1) * n as real;
  }

  lemma ScaledAtLeastBins(value: real, vMin: real, vMax: real, n: int)
    requires vMin < vMax && 0 <= n && vMax <= value
    ensures n as real <= Scaled(value, vMin, vMax, n)
  {
    var d := vMax - vMin;
    var f := (value - vMin) / d;
    assert f * d == value - vMin;
    assert 1.0 <= f;
    assert f * n as real - n as real == (f - 1.0) * n as real;
  }

  lemma ScaledInRange(value: real, vMin: real, vMax: real, n: int)
    requires vMin < vMax && 1 <= n && vMin <= value < vMax
    ensures 0.0 <= Scaled(value, vMin, vMax, n) < n as real
  {
    var d := vMax - vMin;
    var f := (value - vMin) / d;
    assert f * d == value - vMin;
    assert 0.0 <= f < 1.0;
    assert n as real - f * n as real == (1.0 - f) * n as real;
  }

  lemma ScaledAtMostZero(value: real, vMin: real, vMax: real, n: int)
    requires vMin < vMax && 0 <= n && value <= vMin
    ensures Scaled(value, vMin, vMax, n) <= 0.0
  {
    var d := vMax - vMin;
    var f := (value - vMin) / d;
    assert f * d == value - vMin;
    assert f <= 0.0;
  }

  lemma ScaledFacts(value: real, vMin: real, vMax: real, n: int)
    requires vMin < vMax && 1 <= n
    ensures value <= vMin ==> Scaled(value, vMin, vMax, n) <= 0.0
    ensures vMax <= value ==> n as real <= Scaled(value, vMin, vMax, n)
    ensures vMin <= value < vMax ==> 0.0 <= Scaled(value, vMin, vMax, n) < n as real
  {
    if value <= vMin { ScaledAtMostZero(value, vMin, vMax, n); }
    if vMax <= value { ScaledAtLeastBins(value, vMin, vMax, n); }
    if vMin <= value < vMax { ScaledInRange(value, vMin, vMax, n); }
  }

  /**
   * `_bin`: clip the scaled position to `[0, n-1]`, then truncate. The bin is
   * always in range, below-range values go to bin 0, above-range values to
   * bin n-1, and an in-range value lands in the bin whose unit interval holds
   * its scaled position.
   */
  function Bin(value: real, vMin: real, vMax: real, n: int): (b: int)
    requires 1 <= n
    requires vMin < vMax
    ensures 0 <= b <= n - 1
    ensures value <= vMin ==> b == 0
    ensures vMax <= value ==> b == n - 1
    ensures vMin <= value < vMax ==>
              b as real <= Scaled(value, vMin, vMax, n) < b as real + 1.0
  {
    ScaledFacts(value, vMin, vMax, n);
    Truncate(Clip(Scaled(value, vMin, vMax, n), 0.0, (n - 1) as real))
  }

  /** `_bin` is monotone non-decreasing in `value`. */
  lemma BinMonotone(v1: real, v2: real, vMin: real, vMax: real, n: int)
    requires 1 <= n && vMin < vMax
    requires v1 <= v2
    ensures Bin(v1, vMin, vMax, n) <= Bin(v2, vMin, vMax, n)
  {
    ScaledMonotone(v1, v2, vMin, vMax, n);
  }

  /** The largest entry of a non-empty row (numpy's `max`). */
  function MaxOf(s: seq<real>): (m: real)
    requires |s| > 0
    ensures m in s
    ensures forall j :: 0 <= j < |s| ==> s[j] <= m
  {
    if |s| == 1 then s[0]
    else
      var m' := MaxOf(s[..|s| - 1]);
      assert m' in s;
      if s[|s| - 1] > m' then s[|s| - 1] else m'
  }

  /** numpy's `argmax`: the lowest index holding a maximum of the row. */
  function FirstArgMax(s: seq<real>): (k: int)
    requires |s| > 0
    ensures 0 <= k < |s|
    ensures forall j :: 0 <= j < |s| ==> s[j] <= s[k]
    ensures forall j :: 0 <= j < k ==> s[j] < s[k]
  {
    if |s| == 1 then 0
    else
      var k' := FirstArgMax(s[..|s| - 1]);
      if s[|s| - 1] > s[k'] then |s| - 1 else k'
  }

  lemma UnitRatio(a: int, d: int)
    requires 0 <= a <= d && 0 < d
    ensures 0.0 <= a as real / d as real <= 1.0
  {
    var r := a as real / d as real;
    assert r * d as real == a as real;
  }

  /** The running total of a reward history. */
  function Sum(s: seq<real>): real {
    if s == [] then 0.0 else Sum(s[..|s| - 1]) + s[|s| - 1]
  }

  /** The completion test of `learn`, on the counter after the increment. */
  predicate IsDone(step: int, totalSteps: int) {
    step >= totalSteps - 1
  }

  /** The first counter value (after an increment, so at least 1) at which `learn` reports done. */
  function Horizon(totalSteps: int): int {
    if totalSteps - 1 >= 1 then totalSteps - 1 else 1
  }

  /** How many `learn` calls among the first `step` reported done. */
  function CompletedCount(step: int, totalSteps: int): int {
    if step >= Horizon(totalSteps) then step - Horizon(totalSteps) + 1 else 0
  }

  /** One entry of `returns` (`returnLog` here): `{total, avg, steps}`. */
  datatype Summary = Summary(total: real, avg: real, steps: int)

  /** The summary `learn` appends when it reports done after `k` rewards. */
  function SummaryAt(rewards: seq<real>, k: int): Summary
    requires 1 <= k <= |rewards|
  {
    Summary(Sum(rewards[..k]), Sum(rewards[..k]) / k as real, k)
  }

  /**
   * The summary log after the rewards `rewards`: one entry per `learn` call
   * that reported done, the i-th written after `Horizon(totalSteps) + i` rewards.
   */
  ghost predicate LogMatches(rewards: seq<real>, log: seq<Summary>, totalSteps: int) {
    && |log| == CompletedCount(|rewards|, totalSteps)
    && forall i :: 0 <= i < |log| ==>
         Horizon(totalSteps) + i <= |rewards| && log[i] == SummaryAt(rewards, Horizon(totalSteps) + i)
  }

  lemma SumSnoc(s: seq<real>, x: real)
    ensures Sum(s + [x]) == Sum(s) + x
  {
    assert (s + [x])[..|s|] == s;
  }

  /**
   * One more reward keeps the log in step with the history: the log grows by
   * the summary of the whole new history exactly when the new count is done.
   */
  lemma LogStep(rewards: seq<real>, log: seq<Summary>, totalSteps: int, reward: real)
    requires LogMatches(rewards, log, totalSteps)
    ensures IsDone(|rewards| + 1, totalSteps) ==>
              LogMatches(rewards + [reward], log + [SummaryAt(rewards + [reward], |rewards| + 1)], totalSteps)
    ensures !IsDone(|rewards| + 1, totalSteps) ==> LogMatches(rewards + [reward], log, totalSteps)
  {
    var next := rewards + [reward];
    forall k | 0 <= k <= |rewards|
      ensures next[..k] == rewards[..k]
    {
      assert next[..k] == rewards[..k];
    }
    forall i | 0 <= i < |log|
      ensures log[i] == SummaryAt(next, Horizon(totalSteps) + i)
    {
      assert next[..Horizon(totalSteps) + i] == rewards[..Horizon(totalSteps) + i];
    }
  }

  /**
   * When the reward count is done (and at least 1), the log is not empty and
   * its newest entry summarises the whole history.
   */
  lemma FinishedLog(rewards: seq<real>, log: seq<Summary>, totalSteps: int)
    ensures LogMatches(rewards, log, totalSteps) && IsDone(|rewards|, totalSteps) && 1 <= |rewards| ==>
              && |log| >= 1
              && log[|log| - 1] == Summary(Sum(rewards), Sum(rewards) / |rewards| as real, |rewards|)
  {
    if LogMatches(rewards, log, totalSteps) && IsDone(|rewards|, totalSteps) && 1 <= |rewards| {
      assert |log| >= 1;
      assert Horizon(totalSteps) + |log| - 1 == |rewards|;
      assert rewards[..|rewards|] == rewards;
    }
  }

  /** What `act` returns: `(pct, (room_bin, out_bin), action_bin)`. */
  datatype Action = Action(pct: real, state: (int, int), actionBin: int)

  class QLearningAgent {
    const nBins: int
    /** The `n_bins`^3 table, updated in place. */
    const q: array3<real>
    const lr: real
    const gamma: real
    const totalSteps: int
    var eps: real
    var globalStep: nat
    var episodeReturn: real
    var returnLog: seq<Summary>
    var lastTotal: Option<real>
    var lastAvg: Option<real>
    var lastSteps: Option<int>
    /** The rewards passed to `learn` so far, in order. */
    ghost var rewards: seq<real>

    /** The table has `nBins` cells along each axis, and `act` can divide by `nBins - 1`. */
    predicate Shaped() {
      2 <= nBins && q.Length0 == nBins && q.Length1 == nBins && q.Length2 == nBins
    }

    predicate InRange(s: (int, int)) {
      0 <= s.0 < nBins && 0 <= s.1 < nBins
    }

    /**
     * The step counter counts the rewards seen, `episodeReturn` is their sum,
     * `returnLog` holds one summary per `learn` call that reported done (the
     * i-th written after `Horizon(totalSteps) + i` rewards), and the `last_*`
     * fields repeat the newest summary.
     */
    ghost predicate Valid()
      reads this
    {
      && Shaped()
      && globalStep == |rewards|
      && episodeReturn == Sum(rewards)
      && LogMatches(rewards, returnLog, totalSteps)
      && (returnLog == [] ==> lastTotal == None && lastAvg == None && lastSteps == None)
      && (returnLog != [] ==>
            var last := returnLog[|returnLog| - 1];
            lastTotal == Some(last.total) && lastAvg == Some(last.avg) && lastSteps == Some(last.steps))
    }

    /** `__init__`: an all-zero table and a fresh counter and log. */
    constructor (nBins: int := 31, totalSteps: int := 10_000, lr: real := 0.3, gamma: real := 0.99, eps: real := 1.0)
      requires 2 <= nBins
      ensures Valid() && fresh(q)
      ensures this.nBins == nBins && this.totalSteps == totalSteps
      ensures this.lr == lr && this.gamma == gamma && this.eps == eps
      ensures globalStep == 0 && episodeReturn == 0.0 && rewards == []
      ensures returnLog == [] && lastTotal == None && lastAvg == None && lastSteps == None
      ensures forall i, j, k :: 0 <= i < nBins && 0 <= j < nBins && 0 <= k < nBins ==> q[i, j, k] == 0.0
    {
      this.nBins := nBins;
      q := new real[nBins, nBins, nBins]((i, j, k) => 0.0);
      this.lr := lr;
      this.gamma := gamma;
      this.eps := eps;
      globalStep := 0;
      this.totalSteps := totalSteps;
      episodeReturn := 0.0;
      returnLog := [];
      lastTotal, lastAvg, lastSteps := None, None, None;
      rewards := [];
    }

    /** `_state`: the room and outdoor bins, each in `[0, nBins-1]`. */
    function State(roomT: real, outT: real): (s: (int, int))
      requires 1 <= nBins
      ensures InRange(s)
      ensures roomT <= RoomMin ==> s.0 == 0
      ensures RoomMax <= roomT ==> s.0 == nBins - 1
      ensures outT <= OutdoorMin ==> s.1 == 0
      ensures OutdoorMax <= outT ==> s.1 == nBins - 1
    {
      (Bin(roomT, RoomMin, RoomMax, nBins), Bin(outT, OutdoorMin, OutdoorMax, nBins))
    }

    /** The row `q_table[s.0, s.1, ·]`. */
    function Row(s: (int, int)): (r: seq<real>)
      reads q
      requires Shaped() && InRange(s)
      ensures |r| == nBins
      ensures forall a :: 0 <= a < nBins ==> r[a] == q[s.0, s.1, a]
    {
      seq(nBins, a requires 0 <= a < nBins reads q => q[s.0, s.1, a])
    }

    /**
     * `act`: with `coin < eps` take the random bin `draw`, otherwise the
     * lowest index of a maximum of the row of the current state; `pct`
     * scales the bin to `[0, 1]`.
     */
    function Act(roomT: real, outT: real, coin: real, draw: int): (a: Action)
      reads this, q
      requires Shaped()
      requires 0 <= draw < nBins
      ensures a.state == State(roomT, outT)
      ensures 0 <= a.actionBin < nBins
      ensures a.pct == a.actionBin as real / (nBins - 1) as real
      ensures 0.0 <= a.pct <= 1.0
      ensures coin < eps ==> a.actionBin == draw
      ensures eps <= coin ==>
                (forall b :: 0 <= b < nBins ==> q[a.state.0, a.state.1, b] <= q[a.state.0, a.state.1, a.actionBin])
      ensures eps <= coin ==>
                (forall b :: 0 <= b < a.actionBin ==> q[a.state.0, a.state.1, b] < q[a.state.0, a.state.1, a.actionBin])
    {
      var s := State(roomT, outT);
      var actionBin := if coin < eps then draw else FirstArgMax(Row(s));
      UnitRatio(actionBin, nBins - 1);
      Action(actionBin as real / (nBins - 1) as real, s, actionBin)
    }

    /** The completion test on the current counter. */
    predicate Done()
      reads this
    {
      IsDone(globalStep, totalSteps)
    }

    /**
     * The table half of one `learn(state, actionBin, reward, nextState)`
     * call: the one cell moves toward the TD target computed on the old
     * table, and every other cell keeps its value.
     */
    twostate predicate TableLearned(state: (int, int), actionBin: int, reward: real, nextState: (int, int))
      reads q
      requires Shaped() && InRange(state) && InRange(nextState) && 0 <= actionBin < nBins
    {
      && q[state.0, state.1, actionBin] ==
           old(q[state.0, state.1, actionBin]) +
           lr * (reward + gamma * old(MaxOf(Row(nextState))) - old(q[state.0, state.1, actionBin]))
      && (forall i, j, k ::
            (0 <= i < nBins && 0 <= j < nBins && 0 <= k < nBins &&
             (i != state.0 || j != state.1 || k != actionBin)) ==> q[i, j, k] == old(q[i, j, k]))
    }

    /**
     * The bookkeeping half: the counter goes up by one, `eps` decays but
     * never below its floor, the reward is added to the return, and exactly
     * one summary is appended when (and only when) `done`.
     */
    twostate predicate CountersAdvanced(reward: real, done: bool)
      reads this
    {
      && globalStep == old(globalStep) + 1
      && eps == Max(EpsFloor, old(eps) * EpsDecay)
      && eps >= EpsFloor
      && episodeReturn == old(episodeReturn) + reward
      && rewards == old(rewards) + [reward]
      && (done <==> globalStep >= totalSteps - 1)
      && (done ==> 1 <= globalStep)
      && returnLog == (if done then old(returnLog) + [Summary(episodeReturn, episodeReturn / globalStep as real, globalStep)]
                     else old(returnLog))
      && (done ==> lastTotal == Some(episodeReturn) && lastAvg == Some(episodeReturn / globalStep as real)
                   && lastSteps == Some(globalStep))
      && (!done ==> lastTotal == old(lastTotal) && lastAvg == old(lastAvg) && lastSteps == old(lastSteps))
    }

    /** What one `learn(state, actionBin, reward, nextState)` call does, both halves. */
    twostate predicate Learned(state: (int, int), actionBin: int, reward: real, nextState: (int, int), done: bool)
      reads this, q
      requires Shaped() && InRange(state) && InRange(nextState) && 0 <= actionBin < nBins
    {
      TableLearned(state, actionBin, reward, nextState) && CountersAdvanced(reward, done)
    }

    /** Lines 53-57 of `learn`: the TD update of one cell, in place. */
    method UpdateCell(state: (int, int), actionBin: int, reward: real, nextState: (int, int))
      requires Shaped() && InRange(state) && InRange(nextState) && 0 <= actionBin < nBins
      modifies q
      ensures TableLearned(state, actionBin, reward, nextState)
    {
      var (sR, sO) := state;
      var (nsR, nsO) := nextState;
      var bestNext := MaxOf(Row(nextState));
      var current := q[sR, sO, actionBin];
      var tdError := reward + gamma * bestNext - current;
      var updated := current + lr * tdError;
      q[sR, sO, actionBin] := updated;
    }

    /** Lines 58-69 of `learn`: counter, exploration decay, return, completion summary. */
    method Advance(reward: real) returns (done: bool)
      requires Valid()
      modifies this
      ensures Valid()
      ensures CountersAdvanced(reward, done)
    {
      LogStep(rewards, returnLog, totalSteps, reward);
      SumSnoc(rewards, reward);
      globalStep := globalStep + 1;
      eps := Max(EpsFloor, eps * EpsDecay);
      episodeReturn := episodeReturn + reward;
      rewards := rewards + [reward];
      done := globalStep >= totalSteps - 1;
      if done {
        assert rewards[..globalStep] == rewards;
        var avg := episodeReturn / globalStep as real;
        returnLog := returnLog + [Summary(episodeReturn, avg, globalStep)];
        lastTotal := Some(episodeReturn);
        lastAvg := Some(avg);
        lastSteps := Some(globalStep);
      }
    }

    /** `learn`: the one-cell TD update, then the counter and the completion summary. */
    method Learn(state: (int, int), actionBin: int, reward: real, nextState: (int, int)) returns (done: bool)
      requires Valid()
      requires InRange(state) && InRange(nextState) && 0 <= actionBin < nBins
      modifies this, q
      ensures Valid()
      ensures Learned(state, actionBin, reward, nextState, done)
      ensures done == Done()
      ensures old(Done()) ==> done
    {
      UpdateCell(state, actionBin, reward, nextState);
      done := Advance(reward);
    }
  }
}
