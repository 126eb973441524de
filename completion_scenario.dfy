/**
 * A client of the registry: a three-iteration training run driven through
 * four `compute` calls, using only the handlers' contracts.
 */
module CompletionScenario {
  import opened Wrappers
  import opened QLearning
  import opened TrainerRouter

  /** One `compute` call, seen through the step counter, the pending flag and the log. */
  method Drive(registry: TrainerRegistry, simId: int, e: Entry, roomTemp: real, now: real, coin: real)
    returns (r: Result<real, Error>, p: Option<PersistRequest>)
    requires registry.Valid() && simId in registry.trainers && registry.trainers[simId] == e
    requires e.agent.nBins == TrainerBins
    modifies e.Footprint()
    ensures registry.Valid() && simId in registry.trainers && registry.trainers[simId] == e
    ensures r.Success? && 0.0 <= r.value <= 100.0
    ensures old(e.prevState).None? ==>
              && e.prevState.Some? && e.agent.globalStep == old(e.agent.globalStep)
              && e.agent.returnLog == old(e.agent.returnLog) && p == None
    ensures old(e.prevState).Some? ==> e.agent.globalStep == old(e.agent.globalStep) + 1 && e.prevState.Some?
    ensures old(e.prevState).Some? && e.agent.Done() ==>
              && r == Success(0.0) && e.agent.returnLog == old(e.agent.returnLog) + [e.agent.returnLog[|e.agent.returnLog| - 1]]
              && e.agent.returnLog[|e.agent.returnLog| - 1].steps == e.agent.globalStep
              && p.Some? && p.value.episodeLog == e.agent.returnLog
    ensures old(e.prevState).Some? && !e.agent.Done() ==> e.agent.returnLog == old(e.agent.returnLog) && p == None
  {
    r, p := registry.Compute(simId, roomTemp, 0.0, 21.0, now, coin, 0);
  }

  /**
   * With `iterations = 3` the first call only chooses an action, the second
   * learns once and chooses again, and the third learns, completes, replies 0
   * and hands the trainer to `persist_model`. Because completion removes
   * nothing, a fourth call still finds the trainer: it learns again, reports
   * done again, replies 0, persists again, and the log holds two summaries.
   */
  method ThreeIterationRun(simId: int, roomId: int, lr: real, gamma: real, eps: real,
                           temps: seq<real>, coins: seq<real>)
    returns (r1: Result<real, Error>, r2: Result<real, Error>, r3: Result<real, Error>,
             r4: Result<real, Error>, p3: Option<PersistRequest>, p4: Option<PersistRequest>)
    requires |temps| == 4 && |coins| == 4
    ensures r1.Success? && 0.0 <= r1.value <= 100.0
    ensures r2.Success? && 0.0 <= r2.value <= 100.0
    ensures r3 == Success(0.0) && r4 == Success(0.0)
    ensures p3.Some? && |p3.value.episodeLog| == 1 && p3.value.episodeLog[0].steps == 2
    ensures p4.Some? && |p4.value.episodeLog| == 2 && p4.value.episodeLog[1].steps == 3
  {
    var registry := new TrainerRegistry();
    var t := registry.Train(simId, roomId, 3, lr, gamma, eps, 0.0, "job");
    var e := registry.trainers[simId];
    assert e.prevState.None? && e.agent.globalStep == 0 && e.agent.returnLog == [];
    var p1, p2;
    r1, p1 := Drive(registry, simId, e, temps[0], 1.0, coins[0]);
    r2, p2 := Drive(registry, simId, e, temps[1], 2.0, coins[1]);
    r3, p3 := Drive(registry, simId, e, temps[2], 3.0, coins[2]);
    r4, p4 := Drive(registry, simId, e, temps[3], 4.0, coins[3]);
  }
}
