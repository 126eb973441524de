# RL trainer service: Q-learning agent and trainer registry

This project models the sequential core of a small HVAC reinforcement-learning
trainer service:

- **The tabular Q-learning agent** (`QLearning`, file `q_learning_agent.dfy`).
  - The agent discretises the room and outdoor temperatures into bins.
  - It picks an action epsilon-greedily over one row of an `n_bins`³ table.
    The exploring branch takes a random bin. The greedy branch takes numpy's
    `argmax`, the lowest index of a maximum.
  - It updates one table cell by a temporal-difference step.
  - It counts steps, decays the exploration rate down to a floor, accumulates
    the episode return, and appends a summary `{total, avg, steps}` whenever
    the step counter reaches the horizon.
  - The agent is a class. Its table is an `array3<real>` updated in place.
    `learn` is a method whose contract describes the new table and the new
    counters through two two-state predicates, `TableLearned` and
    `CountersAdvanced`.
  - A ghost reward history underlies the class invariant `Valid`. `Valid`
    ties the counter, the return, the summary log and the `last_*` fields to
    that history.
- **The trainer registry and its two handlers** (`TrainerRouter`, file
  `trainer_router.dfy`).
  - The registry maps each simulation id to an `Entry` object. An entry holds
    the agent, the hyperparameters, the four `prev_*` fields of the pending
    action and the last touch time.
  - `train` registers a fresh 101-bin agent, or rejects a duplicate id.
  - `compute` runs one step of the one-step-lag protocol:
    1. the reward of the previous call's action is resolved from this call's
       room temperature;
    2. that reward is fed to `learn`;
    3. on completion the trainer is handed to `_finish_training` and the reply
       is 0;
    4. otherwise a new action is chosen and stored as the pending bundle.
  - The registry invariant says three things: every entry is valid, its four
    `prev_*` fields are all set or all unset, and no two entries share an
    object.
- **A client scenario** (`CompletionScenario`, file
  `completion_scenario.dfy`). A three-iteration run is driven through four
  `compute` calls using only the handlers' contracts. It shows that a
  completed trainer stays registered and completes again.

Inputs from outside the core become parameters:

- the uniform draw of `np.random.rand()` (`coin`);
- the index drawn by `np.random.randint` (`draw`);
- the event-loop clock (`now`);
- the simulation id returned by the simulation API.

`persist_model` is opaque. `FinishTraining` is the request handed to it, and
`Compute` returns that request as `persistCall` exactly when it calls
`persist_model`.

Behaviour of the code worth noting, modelled as written:

- `_bin` clips the scaled position first and then truncates it toward zero
  (`int(np.clip(...))`). No rounding takes place.
- `_finish_training` calls `entry.pop(sim_id, None)` on the entry dict, not on
  the registry. A completed trainer is therefore never removed. A later
  `compute` for the same simulation learns again, reports done again, appends
  another summary and calls `persist_model` again. `ThreeIterationRun` shows
  this.
- The code has no idle sweep. `TRAINER_TTL_SEC` is imported but never used.

## Model

| member | source | states |
|---|---|---|
| QLearning.Bin | app/models/q_learning_agent.py:27-29 | the bin lies in `[0, n-1]` for every value; at or below `v_min` it is 0, at or above `v_max` it is `n-1`; inside the range it is the truncation of the scaled position (`b <= scaled < b+1`) |
| QLearning.BinMonotone | app/models/q_learning_agent.py:29 | for fixed `v_min < v_max` and `n`, `_bin` is monotone non-decreasing in the value |
| QLearning.QLearningAgent.State | app/models/q_learning_agent.py:31-35 | `_state` returns two bins in `[0, n_bins-1]`; temperatures at or beyond the room range [10, 30] or the outdoor range [-10, 30] go to the end bins |
| QLearning.MaxOf | app/models/q_learning_agent.py:55 | numpy's `max` of a row is an element of the row and bounds every element |
| QLearning.FirstArgMax | app/models/q_learning_agent.py:42 | numpy's `argmax` is an index of the row holding a maximum, and every earlier entry is strictly smaller |
| QLearning.QLearningAgent.Act | app/models/q_learning_agent.py:37-44 | `act` returns the current state and an action bin in `[0, n_bins)` with `pct = action_bin/(n_bins-1)` in `[0, 1]`; when `coin < eps` the bin is the random draw, otherwise it is the lowest index of a maximum of `q_table[room_bin, out_bin, ·]` |
| QLearning.QLearningAgent.constructor | app/models/q_learning_agent.py:5-25 | `__init__` keeps the given bin count, horizon and hyperparameters, zeroes every table cell, and starts with a zero counter and return, an empty log and unset `last_*` fields, establishing `Valid` |
| QLearning.QLearningAgent.UpdateCell | app/models/q_learning_agent.py:53-57 | the cell `(s_r, s_o, action_bin)` becomes `old + lr*(reward + gamma*max(old row of next_state) - old)`, and every other cell keeps its value |
| QLearning.QLearningAgent.Advance | app/models/q_learning_agent.py:58-69 | the counter goes up by exactly 1; `eps` becomes `max(0.01, eps*0.995)`, so it stays at least 0.01; the reward is added to the return; done is reported iff the new counter is at least `total_steps - 1`; exactly one summary `{return, return/step, step}` is appended iff done, with the divisor at least 1; the `last_*` fields follow; `Valid` is kept |
| QLearning.QLearningAgent.Learn | app/models/q_learning_agent.py:46-70 | `learn` is both halves above; it keeps `Valid`; its result is the completion test on the new counter; once the agent is done, every later `learn` also reports done |
| QLearning.LogStep | app/models/q_learning_agent.py:58-69 | one more reward keeps the summary log in step with the reward history: the summary of the whole history is appended when the new count is done, and the log is kept otherwise |
| QLearning.SumSnoc | app/models/q_learning_agent.py:60 | the running return after one more reward is the old return plus that reward |
| TrainerRouter.Reward | app/routers/trainer_router.py:57 | the reward `-abs(prev_setpoint - room_temp) - 0.04*prev_pct` is never positive for a non-negative power; it is zero exactly when the setpoint was met with zero power; for a power in `[0, 1]` it is at least `-abs(error) - 0.04` |
| TrainerRouter.NewEntry | app/routers/trainer_router.py:23-41 | the agent and entry built by `train` are fresh and valid: 101 bins, the requested horizon and hyperparameters, an all-zero table, a zero counter, an empty log, no pending action, touch time `now` |
| TrainerRouter.Entry.constructor | app/routers/trainer_router.py:30-41 | the entry dict literal holds the agent, the room id and the hyperparameters, has all four `prev_*` fields unset, and is touched at `now` |
| TrainerRouter.TrainerRegistry.constructor | app/routers/trainer_router.py:21 | the registry starts empty and valid |
| TrainerRouter.TrainerRegistry.Train | app/routers/trainer_router.py:15-44 | a duplicate id fails with a conflict and changes no entry; otherwise the reply is `"Training initialized"` with the id and the job id, exactly that key is added, every other entry is kept, and the new entry is the initial one; the registry invariant is kept |
| TrainerRouter.Entry.Choose | app/routers/trainer_router.py:63-68 | the pending bundle becomes the `act` result with this call's setpoint, all four fields set; the reply is `pct*100` in `[0, 100]`; the touch time is kept |
| TrainerRouter.Entry.Step | app/routers/trainer_router.py:52-68 | the touch time becomes `now` on every path; with no pending action the agent and table are untouched and a new action is chosen; with one, `learn` runs exactly once with the non-positive reward of the pending bundle; if that reports done the reply is 0 and the bundle is kept, otherwise a new action is chosen; the all-or-nothing invariant is kept |
| TrainerRouter.FinishTraining | app/routers/trainer_router.py:70-85 | `persist_model` receives the id, the room id, the entry's hyperparameters and the whole summary log; before any completion the total and average are 0.0; once `learn` has reported done they are the current run's total return and its average per step, the log holds exactly one summary per completed `learn` call, and its newest entry summarises the whole run |
| QLearning.FinishedLog | app/models/q_learning_agent.py:61-69 | once the reward count has reached the completion test, the history-indexed summary log is non-empty and its newest entry is `{sum of all rewards, that sum / count, count}` |
| TrainerRouter.TrainerRegistry.Compute | app/routers/trainer_router.py:46-68 | an unknown id fails with not-found and changes nothing; otherwise the entry takes one `Step`, `persist_model` is called exactly when that step reported done, no key is added or removed, no other entry changes, and the registry invariant is kept |
| CompletionScenario.ThreeIterationRun | app/routers/trainer_router.py:56-85 | with `iterations = 3`, the first two calls reply with a power in `[0, 100]`; the third completes, replies 0 and persists one summary after 2 steps; because completion removes nothing, a fourth call replies 0 again and persists two summaries, the second after 3 steps |

## Left out

- HTTP routing, `HTTPException` and the request and reply schemas. Errors are the `Error` datatype: `Conflict` for the 400 reply and `NotFound` for the 404 reply.
- `create_simulation`, which posts to the simulation API. The simulation id it returns is an input of `Train`.
- `persist_model`: its call to the model store, its error fallback and its file writes. The model only states the request it is given (`FinishTraining`). Its reply, the model id, is only logged by the caller.
- The table passed to `persist_model`. The request `FinishTraining` returns leaves it out; the table is the entry's `agent.q`, unchanged by the call.
- Randomness. `np.random.rand()` and `np.random.randint(n_bins)` are the parameters `coin` and `draw` (`0 <= draw < n_bins`).
- The clock. `asyncio.get_event_loop().time()` is the parameter `now`.
- float32 and float rounding. Values are unbounded reals, so the update and the averages are exact.
- Concurrency. Each handler is one atomic step, and the await points of `train` and `compute` are not modelled.
- Idle-trainer sweep: not modelled, because the code has none.
- Logging, CORS, configuration and process startup.
- The job id. `uuid.uuid4()` becomes the `jobId` parameter of `Train`.
- QLearning.QLearningAgent.constructor: requires `n_bins >= 2`, because `act` divides by `n_bins - 1`. The router always uses 101.
- TrainerRouter.Entry.Step: writes the touch time on each exit instead of first. Nothing in between reads it, so the outcome is the same.
- Indices outside `[0, n_bins)`. numpy would wrap a negative index in `[-n_bins, -1]` and raise `IndexError` only outside `[-n_bins, n_bins)`. `Learn` and `Step` require the state and action to lie in `[0, n_bins)`. `compute` only ever passes bins produced by `_state` and `act`, and the entry invariant keeps them in range.
- The registry's creation. Nothing in the service assigns `app.state.trainers`: it is only read, in `train` and `compute`. As written, the first `train` or `compute` request would raise `AttributeError` on the application state. `TrainerRouter.TrainerRegistry.constructor` assumes the registry starts as an empty dict.
