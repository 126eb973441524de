/**
 * The trainer registry of the service and its two request handlers: `train`
 * registers a fresh agent under a simulation id, and `compute` runs one step
 * of the one-step-lag protocol: the reward of the action chosen on the
 * previous call is resolved from this call's room temperature and fed to
 * `learn`, and a new action is chosen unless `learn` reported done.
 *
 * Each handler is one atomic step; the clock, the random draws of `act` and
 * the simulation id that the simulation API hands out are parameters.
 */
module TrainerRouter {
  import opened Wrappers
  import opened QLearning

  /** The bin count every trainer is created with. */
  const TrainerBins: int := 101
  /** The weight of the previous action's power in the reward. */
  const PowerPenalty: real := 0.04

  datatype Error =
    | Conflict  // HTTP 400: a trainer already exists for this simulation
    | NotFound  // HTTP 404: no trainer for this simulation

  datatype TrainReply = TrainReply(message: string, simulationId: int, jobId: string)

  /** The previous step's action, awaiting its reward. */
  datatype Pending = Pending(state: (int, int), actionBin: int, pct: real, setpoint: real)

  /** What `_finish_training` hands to `persist_model`, besides the table. */
  datatype PersistRequest = PersistRequest(
    simId: int, roomId: int, totalReturn: real, avgReturn: real,
    episodeLog: seq<Summary>, lr: real, gamma: real, eps: real)

  function Abs(x: real): real { if x < 0.0 then -x else x }

  /**
   * The reward of the previous action, observed on this call: minus the
   * distance of the room temperature from the previous setpoint, minus a
   * penalty proportional to the previous power. It is never positive for a
   * power in `[0, 1]`, zero exactly when the setpoint was met with no power,
   * and at least `-|error| - PowerPenalty`.
   */
  function Reward(prevSetpoint: real, roomTemp: real, prevPct: real): (r: real)
    ensures 0.0 <= prevPct ==> r <= 0.0
    ensures 0.0 <= prevPct ==> (r == 0.0 <==> prevSetpoint == roomTemp && prevPct == 0.0)
    ensures prevPct <= 1.0 ==> -Abs(prevSetpoint - roomTemp) - PowerPenalty <= r
    ensures r <= -Abs(prevSetpoint - roomTemp) + PowerPenalty * Abs(prevPct)
  {
    -Abs(prevSetpoint - roomTemp) - PowerPenalty * prevPct
  }

  /**
   * `_finish_training`: the request handed to `persist_model`, whose reply
   * is only logged: the last summary's total and average (0.0 while unset),
   * the whole summary log and the entry's hyperparameters. Once `learn` has
   * reported done, these are the current run's total and average, and the
   * log holds one summary per completed `learn` call, the newest for the
   * whole reward history. The final `entry.pop(sim_id, None)` pops from the
   * entry, whose keys are strings, so it removes nothing and the registry
   * keeps the trainer.
   */
  function FinishTraining(simId: int, entry: Entry): (request: PersistRequest)
    reads entry, entry.agent
    ensures request.simId == simId && request.roomId == entry.roomId
    ensures request.lr == entry.lr && request.gamma == entry.gamma && request.eps == entry.eps
    ensures request.episodeLog == entry.agent.returnLog
    ensures entry.agent.Valid() && entry.agent.returnLog == [] ==>
              request.totalReturn == 0.0 && request.avgReturn == 0.0
    ensures entry.agent.Valid() && entry.agent.Done() && 1 <= entry.agent.globalStep ==>
              var agent := entry.agent;
              && request.totalReturn == agent.episodeReturn
              && request.avgReturn == agent.episodeReturn / agent.globalStep as real
              && |request.episodeLog| == CompletedCount(agent.globalStep, agent.totalSteps)
              && request.episodeLog[|request.episodeLog| - 1] ==
                   Summary(agent.episodeReturn, agent.episodeReturn / agent.globalStep as real, agent.globalStep)
  {
    var agent := entry.agent;
    FinishedLog(agent.rewards, agent.returnLog, agent.totalSteps);
    PersistRequest(simId, entry.roomId, agent.lastTotal.GetOr(0.0), agent.lastAvg.GetOr(0.0),
                   agent.returnLog, entry.lr, entry.gamma, entry.eps)
  }

  /** One registry entry: the dict that `train` builds and `compute` updates in place. */
  class Entry {
    const agent: QLearningAgent
    const roomId: int
    const lr: real
    const gamma: real
    const eps: real
    var prevState: Option<(int, int)>
    var prevAction: Option<int>
    var prevPct: Option<real>
    var prevSetpoint: Option<real>
    var lastTouch: real

    /** The objects a step on this entry may change. */
    function Footprint(): set<object> {
      {this, agent, agent.q}
    }

    /** The four `prev_*` fields are all unset or all set. */
    ghost predicate AllOrNothing()
      reads this
    {
      || (prevState.None? && prevAction.None? && prevPct.None? && prevSetpoint.None?)
      || (prevState.Some? && prevAction.Some? && prevPct.Some? && prevSetpoint.Some?)
    }

    ghost predicate Valid()
      reads this, agent
    {
      && agent.Valid()
      && AllOrNothing()
      && (prevState.Some? ==>
            agent.InRange(prevState.value) && 0 <= prevAction.value < agent.nBins
            && 0.0 <= prevPct.value <= 1.0)
    }

    /** The four `prev_*` fields read as one bundle. */
    ghost function PendingBundle(): Option<Pending>
      reads this
      requires AllOrNothing()
    {
      if prevState.Some?
      then Some(Pending(prevState.value, prevAction.value, prevPct.value, prevSetpoint.value))
      else None
    }

    /** The entry `train` registers: a fresh 101-bin agent and no pending action. */
    ghost predicate IsInitial(roomId: int, iterations: int, lr: real, gamma: real, eps: real, now: real)
      reads this, agent, agent.q
    {
      && this.roomId == roomId && this.lr == lr && this.gamma == gamma && this.eps == eps
      && AllOrNothing() && PendingBundle() == None && lastTouch == now
      && agent.nBins == TrainerBins && agent.totalSteps == iterations
      && agent.lr == lr && agent.gamma == gamma && agent.eps == eps
      && agent.globalStep == 0 && agent.episodeReturn == 0.0 && agent.returnLog == []
      && agent.q.Length0 == TrainerBins && agent.q.Length1 == TrainerBins && agent.q.Length2 == TrainerBins
      && (forall i, j, k :: 0 <= i < TrainerBins && 0 <= j < TrainerBins && 0 <= k < TrainerBins ==>
            agent.q[i, j, k] == 0.0)
    }

    /** The pending bundle holds the action `act` chooses now, and `power` is its percentage. */
    ghost predicate Chose(roomTemp: real, outdoorTemp: real, setpointTemp: real, coin: real, draw: int, power: real)
      reads this, agent, agent.q
      requires AllOrNothing() && agent.Shaped() && 0 <= draw < agent.nBins
    {
      var a := agent.Act(roomTemp, outdoorTemp, coin, draw);
      PendingBundle() == Some(Pending(a.state, a.actionBin, a.pct, setpointTemp)) && power == a.pct * 100.0
    }

    /**
     * One `compute` step on this entry, with reply `power`: the touch time is
     * `now`; with no pending action nothing is learned and a new action is
     * chosen; with one, `learn` runs once on the pending bundle with the
     * reward observed now, and then either the agent reports done (reply 0,
     * bundle kept) or a new action is chosen.
     */
    twostate predicate Stepped(roomTemp: real, outdoorTemp: real, setpointTemp: real, now: real,
                               coin: real, draw: int, power: real)
      reads this, agent, agent.q
    {
      && old(Valid()) && Valid() && 0 <= draw < agent.nBins
      && lastTouch == now
      && 0.0 <= power <= 100.0
      && (old(prevState).None? ==>
            unchanged(agent, agent.q) && Chose(roomTemp, outdoorTemp, setpointTemp, coin, draw, power))
      && (old(prevState).Some? ==>
            var p := old(PendingBundle()).value;
            var reward := Reward(p.setpoint, roomTemp, p.pct);
            && reward <= 0.0
            && agent.Learned(p.state, p.actionBin, reward, agent.State(roomTemp, outdoorTemp), agent.Done())
            && (agent.Done() ==> power == 0.0 && PendingBundle() == old(PendingBundle()))
            && (!agent.Done() ==> Chose(roomTemp, outdoorTemp, setpointTemp, coin, draw, power)))
    }

    /**
     * The part of `compute` after the lookup: learn from the pending action
     * if there is one, choose the next action unless done, and touch. The
     * touch is written on each exit rather than first; nothing in between
     * reads it, so the handler's outcome is the same.
     */
    method Step(roomTemp: real, outdoorTemp: real, setpointTemp: real, now: real, coin: real, draw: int)
      returns (done: bool, power: real)
      requires Valid()
      requires 0 <= draw < agent.nBins
      modifies this, agent, agent.q
      ensures Stepped(roomTemp, outdoorTemp, setpointTemp, now, coin, draw, power)
      ensures done == (old(prevState).Some? && agent.Done())
    {
      var currentState := agent.State(roomTemp, outdoorTemp);
      if prevState.Some? {
        var reward := Reward(prevSetpoint.value, roomTemp, prevPct.value);
        done := agent.Learn(prevState.value, prevAction.value, reward, currentState);
        if done {
          var pct := 0.0;
          lastTouch := now;
          return done, pct * 100.0;
        }
      } else {
        done := false;
      }
      lastTouch := now;
      power := Choose(roomTemp, outdoorTemp, setpointTemp, coin, draw);
    }

    /** Lines 63-68 of `compute`: `act`, store its result as the pending bundle, reply with its power. */
    method Choose(roomTemp: real, outdoorTemp: real, setpointTemp: real, coin: real, draw: int)
      returns (power: real)
      requires agent.Valid()
      requires 0 <= draw < agent.nBins
      modifies this
      ensures Valid() && Chose(roomTemp, outdoorTemp, setpointTemp, coin, draw, power)
      ensures 0.0 <= power <= 100.0
      ensures lastTouch == old(lastTouch)
    {
      var action := agent.Act(roomTemp, outdoorTemp, coin, draw);
      prevState := Some(action.state);
      prevAction := Some(action.actionBin);
      prevPct := Some(action.pct);
      prevSetpoint := Some(setpointTemp);
      power := action.pct * 100.0;
    }

    /** The dict literal of `train`: the agent, the hyperparameters and no pending action. */
    constructor (agent: QLearningAgent, roomId: int, lr: real, gamma: real, eps: real, now: real)
      requires agent.Valid()
      ensures Valid()
      ensures this.agent == agent && this.roomId == roomId
      ensures this.lr == lr && this.gamma == gamma && this.eps == eps
      ensures prevState == None && prevAction == None && prevPct == None && prevSetpoint == None
      ensures lastTouch == now
    {
      this.agent := agent;
      this.roomId := roomId;
      this.lr := lr;
      this.gamma := gamma;
      this.eps := eps;
      prevState, prevAction, prevPct, prevSetpoint := None, None, None, None;
      lastTouch := now;
    }
  }

  /** The agent and the entry that `train` builds for a new simulation. */
  method NewEntry(roomId: int, iterations: int, lr: real, gamma: real, eps: real, now: real)
    returns (entry: Entry)
    ensures fresh(entry.Footprint())
    ensures entry.Valid()
    ensures entry.IsInitial(roomId, iterations, lr, gamma, eps, now)
  {
    var agent := new QLearningAgent(TrainerBins, iterations, lr, gamma, eps);
    entry := new Entry(agent, roomId, lr, gamma, eps, now);
  }

  /** `app.state.trainers`, with the two handlers that use it. */
  class TrainerRegistry {
    var trainers: map<int, Entry>
    /** The objects of all entries. */
    ghost var Repr: set<object>

    /** Every entry is valid and no two entries share an object. */
    ghost predicate Valid()
      reads this, Repr
    {
      && (forall id :: id in trainers ==> trainers[id].Footprint() <= Repr)
      && (forall id :: id in trainers ==> trainers[id].Valid())
      && (forall i, j :: i in trainers && j in trainers && i != j ==>
            trainers[i].Footprint() !! trainers[j].Footprint())
    }

    constructor ()
      ensures Valid()
      ensures trainers == map[]
    {
      trainers := map[];
      Repr := {};
    }

    /**
     * `train`, after the simulation API has returned `simId`: a duplicate id
     * is rejected with nothing changed; otherwise a fresh agent with 101 bins,
     * an all-zero table, a zero counter and an empty log is registered with no
     * pending action, and no other entry changes.
     */
    method Train(simId: int, roomId: int, iterations: int, lr: real, gamma: real, eps: real,
                 now: real, jobId: string)
      returns (r: Result<TrainReply, Error>)
      requires Valid()
      modifies this
      ensures Valid()
      ensures simId in old(trainers) ==>
                r == Failure(Conflict) && trainers == old(trainers) && Repr == old(Repr)
      ensures simId !in old(trainers) ==>
                && r == Success(TrainReply("Training initialized", simId, jobId))
                && trainers.Keys == old(trainers.Keys) + {simId}
                && (forall id :: id in old(trainers) ==> trainers[id] == old(trainers[id]))
                && fresh(trainers[simId].Footprint())
      ensures simId !in old(trainers) ==>
                trainers[simId].IsInitial(roomId, iterations, lr, gamma, eps, now)
    {
      if simId in trainers {
        return Failure(Conflict);
      }
      var entry := NewEntry(roomId, iterations, lr, gamma, eps, now);
      forall id | id in trainers
        ensures trainers[id].Valid() && trainers[id].Footprint() !! entry.Footprint()
      {
        var other := trainers[id];
        assert unchanged(other, other.agent);
        assert old(other.Valid());
      }
      ghost var before := trainers;
      trainers := trainers[simId := entry];
      Repr := Repr + entry.Footprint();
      forall i, j | i in trainers && j in trainers && i != j
        ensures trainers[i].Footprint() !! trainers[j].Footprint()
      {
        if i != simId && j != simId {
          assert before[i].Footprint() !! before[j].Footprint();
        }
      }
      r := Success(TrainReply("Training initialized", simId, jobId));
    }

    /**
     * `compute`: an unknown id is rejected with nothing changed. Otherwise the
     * entry takes one step, and `persist_model` is called (with the request
     * `persistCall`) exactly when that step reported done. Only that entry's
     * objects change: no entry is added, removed or replaced.
     */
    method Compute(simId: int, roomTemp: real, outdoorTemp: real, setpointTemp: real,
                   now: real, coin: real, draw: int)
      returns (r: Result<real, Error>, persistCall: Option<PersistRequest>)
      requires Valid()
      requires simId in trainers ==> 0 <= draw < trainers[simId].agent.nBins
      modifies if simId in trainers then trainers[simId].Footprint() else {}
      ensures Valid()
      ensures trainers == old(trainers) && Repr == old(Repr)
      ensures simId !in trainers ==> r == Failure(NotFound) && persistCall == None
      ensures simId in trainers ==>
                r.Success? && trainers[simId].Stepped(roomTemp, outdoorTemp, setpointTemp, now, coin, draw, r.value)
      ensures simId in trainers ==>
                var e := trainers[simId];
                persistCall == if old(e.prevState).Some? && e.agent.Done()
                               then Some(FinishTraining(simId, e))
                               else None
    {
      if simId !in trainers {
        return Failure(NotFound), None;
      }
      var entry := trainers[simId];
      assert forall id :: id in trainers && id != simId ==> trainers[id].Footprint() !! entry.Footprint();
      var done, power := entry.Step(roomTemp, outdoorTemp, setpointTemp, now, coin, draw);
      forall id | id in trainers && id != simId
        ensures trainers[id].Valid()
      {
        var other := trainers[id];
        assert unchanged(other, other.agent);
        assert old(other.Valid());
      }
      persistCall := None;
      if done {
        persistCall := Some(FinishTraining(simId, entry));
      }
      r := Success(power);
    }
  }
}
