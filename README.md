# Vacuum world, modelled in Dafny

A vacuum agent works on a row of rooms. Each room has a dirt level from 0
(clean) to 5. The agent has a position and an energy budget of 2.5 per room.
It counts its decision cycles (`steps`) and its cleans (`cleaned`), and it keeps
an append-only log of its actions. Cleaning a room costs its dirt level.
Moving one room left or right costs 2. After each decision cycle, every clean
room gets dirty again with probability 0.1. The simulation loop runs at most
`max_steps` ticks and records one snapshot of the dirt levels per tick. It
stops early when the agent can do nothing, or right after a tick that leaves
every room clean.

The project has three modules, one per source file:

- `rooms.dfy` (module `Rooms`, src/environment.py)
  - `Room` and `Environment` are classes whose methods update the dirt levels
    in place.
  - The functions `InitialLevel`, `Redirtied`, `InitialDirt` and `Reappeared`
    give those updates on values.
- `agents.dfy` (module `Agents`, src/agent.py)
  - A `World` is the agent's fields plus the dirt levels of the rooms.
  - Each action is a function on `World`s: `Sucked`, `MovedRight`, `MovedLeft`,
    `Moved` (a move with fallback) and `Acted` (one decision cycle).
  - Every `Agent` method is proved to change its fields and the shared rooms
    exactly as the matching function says. The invariant `Inv` and its lemmas
    are proved on those functions.
  - `BaselineAgent` and `HeuristicAgent` become a `Policy` tag on one `Agent`
    class.
- `simulation.dfy` (module `Simulation`, src/simulation.py)
  - `Run` is the loop on values. `Simulate` runs the loop on the objects and
    is proved to return `Run`'s history and final state.
  - The lemmas about `Simulated` state what the loop guarantees.

Randomness becomes explicit input:

- `RoomDraw(u, level)` stands for one `random.random()` and one
  `random.randint(1, 5)`. Building the environment uses one per room, and so
  does each reappearance pass.
- `TickDraws.direction` stands for the heuristic agent's direction draw.
- Energy is a `real`. Every energy value in the source is a multiple of 0.5, so
  the source's floating-point arithmetic on them is exact.

Two behaviours of the loop are worth spelling out:

- With one room at level 1 or 2, the first cycle cleans it. If the
  reappearance draw then misses, the all-clean check ends the loop after one
  tick (`Simulation.SingleDirtyRoomEndsClean`).
- An all-clean exit on the last allowed tick leaves a history of full length
  `max_steps`. The model names that exit `AllClean`, not `TimeLimit`.

## Model

| member | source | states |
|---|---|---|
| Rooms.InitialLevel | src/environment.py:23 | a room is created either clean or at a level in [1, 5], and it is dirty exactly when its draw falls below the dirt probability |
| Rooms.Redirtied | src/environment.py:14-16 | `maybe_get_dirty` leaves a dirty room unchanged; a clean room gets the level a fresh room would draw; the level never goes down and stays in [0, 5] |
| Rooms.Room.constructor | src/environment.py:4-6 | a new room holds the index and the dirt level it was given |
| Rooms.Room.IsDirty | src/environment.py:8-9 | for a room whose level is in [0, 5], dirty means not at the clean level 0 |
| Rooms.Room.Clean | src/environment.py:11-12 | cleaning sets the level to 0 whatever it was, so a second call changes nothing |
| Rooms.Room.MaybeGetDirty | src/environment.py:14-16 | the room's new level is `Redirtied` of its old level with the given draw |
| Rooms.AllZeroMeans | src/environment.py:26-27 | the recursive all-clean test on a row holds exactly when every level is 0 |
| Rooms.Environment.constructor | src/environment.py:20-24 | exactly `n_rooms` fresh rooms, room i has index i, and the levels are the initial levels for the given draws |
| Rooms.InitialDirt | src/environment.py:20-24 | a fresh row has one level per room draw; `InitialDirtLevels` gives the levels' range and when each is nonzero |
| Rooms.InitialDirtLevels | src/environment.py:20-24 | every initial level is 0 or in [1, 5], and it is nonzero exactly when its room's draw falls below the dirt probability |
| Rooms.Environment.Snapshot | src/simulation.py:33 | the snapshot has one entry per room, and entry i is room i's level |
| Rooms.Environment.AllClean | src/environment.py:26-27 | `all_clean` holds exactly when every room's level is 0 |
| Rooms.Environment.StepDirtReappearance | src/environment.py:29-31 | the pass keeps the rooms and their indices, and it applies `Redirtied` with probability 0.1 to each room's old level |
| Rooms.Reappeared | src/environment.py:29-31 | a reappearance pass keeps the number of rooms; `ReappearedNeverCleans` gives what it does to each level |
| Rooms.ReappearedNeverCleans | src/environment.py:15 | a reappearance pass never lowers a level, leaves every dirty room as it was, and keeps levels in [0, 5] |
| Rooms.ReappearedOnCleanIsInitial | src/environment.py:14-16 | on an all-clean row, a reappearance pass draws exactly as building the row with probability 0.1 would |
| Rooms.Environment.CleanedOne | src/agent.py:36-37 | after the current room is cleaned and no other room is touched, the snapshot is the old one with that room set to 0 |
| Agents.Sucked | src/agent.py:32-42 | `suck` succeeds exactly when the room is dirty and its level is affordable. On success the room becomes 0, energy drops by the old level, `cleaned` goes up by 1 and one `SuckAt(room, cost)` entry is logged. On failure nothing changes |
| Agents.MovedRight | src/agent.py:44-51 | `move_right` succeeds exactly when energy is at least 2 and the agent is not in the last room. On success the position goes up by 1, energy drops by 2 and one entry is logged. On failure nothing changes |
| Agents.MovedLeft | src/agent.py:53-60 | `move_left` succeeds exactly when energy is at least 2 and the agent is not in the first room. On success the position goes down by 1, energy drops by 2 and one entry is logged. On failure nothing changes |
| Agents.Moved | src/agent.py:73-76 | a move with fallback takes at most one move, keeps the agent in the row and touches no room; it changes nothing exactly when energy is below 2 or there is only one room |
| Agents.MovedTriesPreferredFirst | src/agent.py:73-76 | a move with fallback makes the preferred move when that move takes place, and the other one only when it does not; any move changes the position by one and logs that move |
| Agents.RightFirst | src/agent.py:73-95 | a cycle that does not clean tries right first always for the baseline policy, and for the heuristic policy exactly when its draw is below 0.5 |
| Agents.Acted | src/agent.py:66-97 | a decision cycle keeps the agent in the row and the number of rooms fixed, and it counts exactly one step |
| Agents.ActedOtherwiseMoves | src/agent.py:73-76 | a cycle that does not clean is a move with fallback in the policy's order (right first for the baseline policy and for a heuristic draw below 0.5), plus one counted step |
| Agents.ActedTakesAtMostOneAction | src/agent.py:66-97 | a cycle logs at most one entry and keeps the old entries; energy does not go up; a cycle that logs nothing changes only the step count |
| Agents.ActedCleansDirtyRoom | src/agent.py:70-72 | when the current room is dirty and affordable, the cycle cleans that room, pays its level and logs the clean |
| Agents.ActedMovesWhenItCan | src/agent.py:73-76 | a cycle that does not clean, in a row of two or more rooms and with energy at least 2, logs exactly one move, whatever the policy or draw |
| Agents.OneCycleCleansOnlyTheCurrentRoom | src/agent.py:70-72 | with rooms at [3, 2] and the baseline agent in room 0, one cycle leaves [0, 2]: only the current room is cleaned |
| Agents.TotalCostAppend | src/agent.py:38 | logging an action adds its cost to the logged total and counts it if it is a clean |
| Agents.TotalCostNonNegative | src/agent.py:38 | every logged action costs a positive amount, so the logged total is never negative |
| Agents.EnergyWithinBudget | src/agent.py:10-11 | under the invariant, energy lies between zero and the initial energy |
| Agents.StartKeepsInv | src/agent.py:5-12 | a fresh agent in a room of a bounded row satisfies the invariant |
| Agents.AppendKeepsInv | src/agent.py:32-60 | an action that logs a fitting entry and pays exactly its cost keeps the invariant |
| Agents.SuckedKeepsInv | src/agent.py:32-42 | `suck` keeps the agent in the row, levels in range, energy non-negative, and energy spent equal to the logged costs |
| Agents.MovedRightKeepsInv | src/agent.py:44-51 | `move_right` keeps the invariant |
| Agents.MovedLeftKeepsInv | src/agent.py:53-60 | `move_left` keeps the invariant |
| Agents.MovedKeepsInv | src/agent.py:73-76 | a move with fallback keeps the invariant |
| Agents.ActedKeepsInv | src/agent.py:66-97 | every decision cycle keeps the invariant: position in range, energy non-negative, energy spent equal to the logged costs, `cleaned` equal to the number of logged cleans |
| Agents.Agent.constructor | src/agent.py:5-12 | a fresh agent has energy 2.5 per room, zero `steps` and `cleaned`, and an empty log |
| Agents.Agent.Perceive | src/agent.py:14-22 | the percept gives the position, the room's level and the remaining energy; `is_dirty` holds exactly when the level is positive (src/environment.py:8-9) |
| Agents.Agent.CanSuck | src/agent.py:24-26 | holds exactly when energy covers the current room's level; it reads state and changes nothing |
| Agents.Agent.CanMove | src/agent.py:28-30 | holds exactly when energy is at least 2; it reads state and changes nothing |
| Agents.Agent.Suck | src/agent.py:32-42 | the result and the new fields and room levels are exactly those of `Sucked` |
| Agents.Agent.MoveRight | src/agent.py:44-51 | the result and the new fields are exactly those of `MovedRight` |
| Agents.Agent.MoveLeft | src/agent.py:53-60 | the result and the new fields are exactly those of `MovedLeft` |
| Agents.Agent.MoveWithFallback | src/agent.py:73-76 | the new fields are exactly those of `Moved` for the preferred direction |
| Agents.Agent.Act | src/agent.py:66-97 | the new fields and room levels are exactly those of `Acted` for the agent's policy and the direction draw |
| Simulation.CanAct | src/simulation.py:20 | when the agent cannot act, no clean and no move would take place; in a row of two or more rooms, an agent that can act has an action that takes place |
| Simulation.Tick | src/simulation.py:27-30 | a tick keeps the agent in the row and the number of rooms fixed, and it counts exactly one step |
| Simulation.Run | src/simulation.py:18-40 | the loop on values keeps the number of rooms and only appends to the history; it ends on all-clean only when every final room is clean and the last snapshot records them |
| Simulation.Simulated | src/simulation.py:5-42 | the whole simulation from a fresh environment and an agent in room 0 ends with one level per room |
| Simulation.RunStep | src/simulation.py:18-40 | a proof step for `Simulate`: one unfolding of `Run` for a tick the agent can take |
| Simulation.RunStops | src/simulation.py:18-24 | a proof step for `Simulate`: `Run` on its two exits before a tick, the time limit and lack of energy |
| Simulation.TickKeepsInv | src/simulation.py:27-30 | a tick keeps the agent invariant |
| Simulation.TickKeepsBounded | src/simulation.py:27-30 | a tick keeps every level in [0, 5] |
| Simulation.RunCounts | src/simulation.py:18-40 | from any point, the loop appends as many snapshots as the agent counts steps and never exceeds the budget; it uses the whole budget when it ends on the time limit |
| Simulation.RunKeepsInv | src/simulation.py:18-40 | the loop keeps the agent invariant and the number of rooms |
| Simulation.RunSnapshots | src/simulation.py:33 | every snapshot the loop appends has one level per room, each in [0, 5] |
| Simulation.RunOutOfEnergy | src/simulation.py:20-24 | the loop ends for lack of energy only when the final agent can neither clean a dirty current room nor move |
| Simulation.SimulatedHistory | src/simulation.py:18-42 | the history has at most `max_steps` snapshots, `steps` equals the history's length, and every snapshot has `n_rooms` levels in [0, 5] |
| Simulation.SimulatedExits | src/simulation.py:18-42 | a history shorter than `max_steps` means an out-of-energy or all-clean exit; an out-of-energy exit means the agent can do nothing; an all-clean exit means every final room is clean and the last snapshot records them; a time-limit exit means a full history |
| Simulation.SimulatedEnergy | src/simulation.py:5-42 | at the end the agent is in a room, energy lies between 0 and 2.5 per room, energy spent equals the cost of the logged actions, and `cleaned` counts the logged cleans |
| Simulation.SingleDirtyRoomEndsClean | src/simulation.py:37-40 | one room at level 1 or 2 is cleaned in the first cycle, and if it stays clean the loop ends after one tick with history [[0]] |
| Simulation.Cycle | src/simulation.py:27-30 | one loop body (a decision cycle, then a reappearance pass) changes the agent and the rooms exactly as `Tick` says |
| Simulation.Simulate | src/simulation.py:5-42 | the returned history and the final agent and rooms are exactly those of `Run` from a fresh environment and an agent in room 0 |

## Left out

- The random generator is not modelled. This covers seeding and the order in
  which the draw sites share one generator. Draws are inputs, and the model
  assumes only the generator's ranges: `u` in [0, 1) and `level` in [1, 5].
- src/main.py is not part of this model. That covers argument parsing, console
  reporting and its termination-reason text. The model names the exit reason
  in `Outcome.exit` instead.
- The `__main__` demo blocks are left out because they only print.
- The log entries are datatype values, not the human-readable strings the
  source appends.
- `Agent.act` raising `NotImplementedError` is left out. The two agent kinds
  are a `Policy` tag, so an agent without a policy cannot be built.
- Python's negative indices are left out. The agent constructor requires its
  start position to be a valid room, and the simulation always starts in
  room 0.
- The defaults `n_rooms = 5`, `max_steps = 100` and `dirt_prob = 0.5` are not
  default arguments. `Simulate` takes the room count and the budget, and it
  builds the environment with `DefaultDirtProb`. The environment constructor
  takes any probability.
- Energy is a `real`, not a floating-point number. This is exact for the
  values the source produces.
- Agents.Agent.Valid: the class invariant covers only the environment, the
  starting budget and the position. Energy, logged costs and levels in range
  are proved on values (`ActedKeepsInv`, `SimulatedEnergy`). Each method is
  proved equal to its value function, so these facts carry over.
- Simulation.Simulate: does not state the class invariant of the returned
  agent. It states that the agent equals `Run`'s final world, and the
  `Simulated` lemmas give that world's properties.
