/**
 * The simulation driver (src/simulation.py): a fresh environment and agent,
 * then at most `maxSteps` ticks of one decision cycle, one dirt-reappearance
 * pass and one snapshot of the dirt levels each.
 *
 * The loop leaves in one of three ways: before a tick, when the agent can
 * neither clean a dirty current room nor move; right after a tick that leaves
 * every room clean; or when the tick budget is used up. Run describes the loop
 * on values, Simulate runs it on the objects, and the lemmas state what the
 * loop guarantees about its history and the final agent.
 */
module Simulation {
  import opened Rooms
  import opened Agents

  /** The draws one tick consumes: the heuristic direction draw and one RoomDraw per room. */
  datatype TickDraws = TickDraws(direction: real, rooms: seq<RoomDraw>)

  /** Why the loop ended; the source does not record it, the model names it. */
  datatype Exit = OutOfEnergy | AllClean | TimeLimit

  datatype Outcome = Outcome(history: seq<seq<int>>, final: World, exit: Exit)

  /** There are draws for every tick the budget allows, one per room. */
  predicate TicksFit(ticks: seq<TickDraws>, maxSteps: int, n: int) {
    |ticks| >= maxSteps &&
    forall i :: 0 <= i < |ticks| ==> |ticks[i].rooms| == n && AreDraws(ticks[i].rooms)
  }

  /** The agent can still do something: clean a dirty current room it can afford, or pay for a move. */
  predicate CanAct(w: World): (b: bool)
    requires Placed(w)
    ensures !b ==> !Sucked(w).ok && !MovedRight(w).ok && !MovedLeft(w).ok
    ensures b && |w.dirt| >= 2 ==> Sucked(w).ok || MovedRight(w).ok || MovedLeft(w).ok
  {
    (CanSuckIn(w) && w.dirt[w.agent.position] > 0) || CanMoveIn(w.agent)
  }

  function Max0(k: int): nat {
    if k < 0 then 0 else k
  }

  /** One tick: a decision cycle, then a reappearance pass. */
  function Tick(policy: Policy, t: TickDraws, w: World): (r: World)
    requires Placed(w) && |t.rooms| == |w.dirt| && AreDraws(t.rooms)
    ensures Placed(r) && |r.dirt| == |w.dirt|
    ensures r.agent.steps == w.agent.steps + 1
  {
    var acted := Acted(policy, t.direction, w);
    acted.(dirt := Reappeared(acted.dirt, t.rooms))
  }

  /**
   * The loop from tick counter `step`, with the agent and rooms in `w` and
   * `history` recorded so far. It keeps the number of rooms, only appends to
   * the history, and leaves on all-clean only with every room clean and the
   * last snapshot recording them.
   */
  function Run(policy: Policy, maxSteps: int, ticks: seq<TickDraws>, step: nat, w: World,
               history: seq<seq<int>>): (r: Outcome)
    requires Placed(w) && TicksFit(ticks, maxSteps, |w.dirt|)
    ensures |r.final.dirt| == |w.dirt| && |history| <= |r.history|
    ensures r.exit == AllClean ==>
      AllZero(r.final.dirt) && |r.history| > |history| && r.history[|r.history| - 1] == r.final.dirt
    decreases maxSteps - step
  {
    if step >= maxSteps then
      Outcome(history, w, TimeLimit)
    else if !CanAct(w) then
      Outcome(history, w, OutOfEnergy)
    else
      var next := Tick(policy, ticks[step], w);
      var recorded := history + [next.dirt];
      if AllZero(next.dirt) then Outcome(recorded, next, AllClean)
      else Run(policy, maxSteps, ticks, step + 1, next, recorded)
  }

  /** The whole simulation: the environment built with the default dirt probability, the agent in room 0. */
  function Simulated(policy: Policy, nRooms: int, maxSteps: int, setup: seq<RoomDraw>,
                     ticks: seq<TickDraws>): (r: Outcome)
    requires nRooms >= 1 && |setup| == nRooms && AreDraws(setup) && TicksFit(ticks, maxSteps, nRooms)
    ensures |r.final.dirt| == nRooms
  {
    Run(policy, maxSteps, ticks, 0, Start(0, InitialDirt(DefaultDirtProb, setup)), [])
  }

  /** One unfolding of the loop: a tick the agent can take leads to the rest of the run. */
  lemma RunStep(policy: Policy, maxSteps: int, ticks: seq<TickDraws>, step: nat, w: World,
                history: seq<seq<int>>)
    requires Placed(w) && TicksFit(ticks, maxSteps, |w.dirt|) && step < maxSteps && CanAct(w)
    ensures var next := Tick(policy, ticks[step], w);
      Run(policy, maxSteps, ticks, step, w, history) ==
        if AllZero(next.dirt) then Outcome(history + [next.dirt], next, AllClean)
        else Run(policy, maxSteps, ticks, step + 1, next, history + [next.dirt])
  {
  }

  /** A loop that has used up its budget, or whose agent can do nothing, ends where it is. */
  lemma RunStops(policy: Policy, maxSteps: int, ticks: seq<TickDraws>, step: nat, w: World,
                 history: seq<seq<int>>)
    requires Placed(w) && TicksFit(ticks, maxSteps, |w.dirt|)
    ensures step >= maxSteps ==> Run(policy, maxSteps, ticks, step, w, history) == Outcome(history, w, TimeLimit)
    ensures step < maxSteps && !CanAct(w) ==>
      Run(policy, maxSteps, ticks, step, w, history) == Outcome(history, w, OutOfEnergy)
  {
  }

  lemma TickKeepsInv(e0: real, policy: Policy, t: TickDraws, w: World)
    requires Sane(w) && Accounted(e0, w) && LogFits(w.agent.log, |w.dirt|)
    requires |t.rooms| == |w.dirt| && AreDraws(t.rooms)
    ensures var r := Tick(policy, t, w);
      Sane(r) && Accounted(e0, r) && LogFits(r.agent.log, |r.dirt|)
  {
    ActedKeepsInv(e0, policy, t.direction, w);
  }

  /** A tick cleans at most the current room and dirties only clean rooms, so levels stay in range. */
  lemma TickKeepsBounded(policy: Policy, t: TickDraws, w: World)
    requires Placed(w) && Bounded(w.dirt) && |t.rooms| == |w.dirt| && AreDraws(t.rooms)
    ensures Bounded(Tick(policy, t, w).dirt)
  {
    var acted := Acted(policy, t.direction, w);
    assert Bounded(acted.dirt);
    ReappearedNeverCleans(acted.dirt, t.rooms);
  }

  /**
   * Each tick appends exactly one snapshot and counts exactly one step, so the
   * loop records as many snapshots as the agent counts steps, never more than
   * the budget allows, and exactly that many when it ends on the time limit.
   */
  lemma {:induction false} RunCounts(policy: Policy, maxSteps: int, ticks: seq<TickDraws>, step: nat,
                                     w: World, history: seq<seq<int>>)
    requires Placed(w) && TicksFit(ticks, maxSteps, |w.dirt|)
    ensures var r := Run(policy, maxSteps, ticks, step, w, history);
      && |history| <= |r.history|
      && r.history[..|history|] == history
      && r.final.agent.steps - w.agent.steps == |r.history| - |history|
      && |r.history| - |history| <= Max0(maxSteps - step)
      && (r.exit == TimeLimit ==> |r.history| - |history| == Max0(maxSteps - step))
    decreases maxSteps - step
  {
    if step < maxSteps && CanAct(w) {
      var next := Tick(policy, ticks[step], w);
      var recorded := history + [next.dirt];
      if !AllZero(next.dirt) {
        RunCounts(policy, maxSteps, ticks, step + 1, next, recorded);
        var r := Run(policy, maxSteps, ticks, step + 1, next, recorded);
        assert r.history[..|history|] == r.history[..|recorded|][..|history|];
      }
    }
  }

  /** The final agent still keeps the invariant of the agent's actions, in a row of the same length. */
  lemma {:induction false} RunKeepsInv(e0: real, policy: Policy, maxSteps: int, ticks: seq<TickDraws>,
                                       step: nat, w: World, history: seq<seq<int>>)
    requires Sane(w) && Accounted(e0, w) && LogFits(w.agent.log, |w.dirt|) && TicksFit(ticks, maxSteps, |w.dirt|)
    ensures var r := Run(policy, maxSteps, ticks, step, w, history);
      && Sane(r.final) && Accounted(e0, r.final) && LogFits(r.final.agent.log, |r.final.dirt|)
      && |r.final.dirt| == |w.dirt|
    decreases maxSteps - step
  {
    if step < maxSteps && CanAct(w) {
      var next := Tick(policy, ticks[step], w);
      TickKeepsInv(e0, policy, ticks[step], w);
      if !AllZero(next.dirt) {
        RunKeepsInv(e0, policy, maxSteps, ticks, step + 1, next, history + [next.dirt]);
      }
    }
  }

  /** Every snapshot the loop records has one level per room, each in range. */
  lemma {:induction false} RunSnapshots(policy: Policy, maxSteps: int, ticks: seq<TickDraws>,
                                        step: nat, w: World, history: seq<seq<int>>)
    requires Placed(w) && Bounded(w.dirt) && TicksFit(ticks, maxSteps, |w.dirt|)
    requires forall k :: 0 <= k < |history| ==> |history[k]| == |w.dirt| && Bounded(history[k])
    ensures var r := Run(policy, maxSteps, ticks, step, w, history);
      forall k :: 0 <= k < |r.history| ==> |r.history[k]| == |w.dirt| && Bounded(r.history[k])
    decreases maxSteps - step
  {
    if step < maxSteps && CanAct(w) {
      var next := Tick(policy, ticks[step], w);
      TickKeepsBounded(policy, ticks[step], w);
      var recorded := history + [next.dirt];
      assert recorded[|history|] == next.dirt;
      RunStep(policy, maxSteps, ticks, step, w, history);
      if !AllZero(next.dirt) {
        RunSnapshots(policy, maxSteps, ticks, step + 1, next, recorded);
      }
    }
  }

  /** The loop leaves for lack of energy only when the final agent can neither clean nor move. */
  lemma {:induction false} RunOutOfEnergy(policy: Policy, maxSteps: int, ticks: seq<TickDraws>, step: nat,
                                          w: World, history: seq<seq<int>>)
    requires Placed(w) && TicksFit(ticks, maxSteps, |w.dirt|)
    ensures var r := Run(policy, maxSteps, ticks, step, w, history);
      Placed(r.final) && (r.exit == OutOfEnergy ==> !CanAct(r.final))
    decreases maxSteps - step
  {
    if step < maxSteps && CanAct(w) {
      var next := Tick(policy, ticks[step], w);
      if !AllZero(next.dirt) {
        RunOutOfEnergy(policy, maxSteps, ticks, step + 1, next, history + [next.dirt]);
      }
    }
  }

  /**
   * The history has at most `maxSteps` snapshots and the agent counted one
   * step per snapshot; each snapshot has one level per room, each in [0, 5].
   */
  lemma SimulatedHistory(policy: Policy, nRooms: int, maxSteps: int, setup: seq<RoomDraw>,
                         ticks: seq<TickDraws>)
    requires nRooms >= 1 && |setup| == nRooms && AreDraws(setup) && TicksFit(ticks, maxSteps, nRooms)
    ensures var r := Simulated(policy, nRooms, maxSteps, setup, ticks);
      && |r.history| <= Max0(maxSteps)
      && r.final.agent.steps == |r.history|
      && forall k :: 0 <= k < |r.history| ==> |r.history[k]| == nRooms && Bounded(r.history[k])
  {
    var w := Start(0, InitialDirt(DefaultDirtProb, setup));
    RunCounts(policy, maxSteps, ticks, 0, w, []);
    InitialDirtLevels(DefaultDirtProb, setup);
    RunSnapshots(policy, maxSteps, ticks, 0, w, []);
  }

  /**
   * The three exits: the time limit only with a full history; a shorter
   * history only after running out of energy or cleaning every room; out of
   * energy only when the final agent can do nothing; all clean only when
   * every final room is clean and the last snapshot records them.
   */
  lemma SimulatedExits(policy: Policy, nRooms: int, maxSteps: int, setup: seq<RoomDraw>,
                       ticks: seq<TickDraws>)
    requires nRooms >= 1 && |setup| == nRooms && AreDraws(setup) && TicksFit(ticks, maxSteps, nRooms)
    ensures var r := Simulated(policy, nRooms, maxSteps, setup, ticks);
      && Placed(r.final)
      && (r.exit == TimeLimit ==> |r.history| == Max0(maxSteps))
      && (|r.history| < maxSteps ==> r.exit == OutOfEnergy || r.exit == AllClean)
      && (r.exit == OutOfEnergy ==> !CanAct(r.final))
      && (r.exit == AllClean ==>
            r.history != [] && r.history[|r.history| - 1] == r.final.dirt && AllZero(r.final.dirt))
  {
    var w := Start(0, InitialDirt(DefaultDirtProb, setup));
    RunCounts(policy, maxSteps, ticks, 0, w, []);
    RunOutOfEnergy(policy, maxSteps, ticks, 0, w, []);
  }

  /**
   * At the end the agent is still in a room, its energy lies between zero and
   * 2.5 per room, the energy it spent is the cost of its logged actions, and
   * `cleaned` counts the cleans in the log.
   */
  lemma SimulatedEnergy(policy: Policy, nRooms: int, maxSteps: int, setup: seq<RoomDraw>,
                        ticks: seq<TickDraws>)
    requires nRooms >= 1 && |setup| == nRooms && AreDraws(setup) && TicksFit(ticks, maxSteps, nRooms)
    ensures var r := Simulated(policy, nRooms, maxSteps, setup, ticks);
      var e0 := EnergyPerRoom * nRooms as real;
      && 0 <= r.final.agent.position < nRooms
      && 0.0 <= r.final.agent.energy <= e0
      && e0 - r.final.agent.energy == TotalCost(r.final.agent.log)
      && r.final.agent.cleaned == SuckCount(r.final.agent.log)
  {
    var e0 := EnergyPerRoom * nRooms as real;
    var w := Start(0, InitialDirt(DefaultDirtProb, setup));
    StartKeepsInv(0, w.dirt);
    RunKeepsInv(e0, policy, maxSteps, ticks, 0, w, []);
    EnergyWithinBudget(e0, Simulated(policy, nRooms, maxSteps, setup, ticks).final);
  }

  /**
   * A single room that starts at level 1 or 2: the first cycle cleans it and,
   * when the reappearance draw misses, the loop ends on the all-clean check
   * after one tick, with 2.5 - d energy left.
   */
  lemma SingleDirtyRoomEndsClean(policy: Policy, maxSteps: int, d: int, ticks: seq<TickDraws>)
    requires 1 <= d <= 2 && maxSteps >= 1 && TicksFit(ticks, maxSteps, 1)
    requires ticks[0].rooms[0].u >= ReappearProb
    ensures var r := Simulated(policy, 1, maxSteps, [RoomDraw(0.0, d)], ticks);
      && r.exit == AllClean && r.history == [[0]]
      && r.final.agent.cleaned == 1 && r.final.agent.energy == EnergyPerRoom - d as real
  {
    var w := Start(0, InitialDirt(DefaultDirtProb, [RoomDraw(0.0, d)]));
    assert w.dirt == [d];
    var next := Tick(policy, ticks[0], w);
    assert Acted(policy, ticks[0].direction, w).dirt == [0];
    assert next.dirt == [0];
    RunStep(policy, maxSteps, ticks, 0, w, []);
  }

  /** One pass of the loop body: the agent's decision cycle, then the environment's reappearance pass. */
  method Cycle(agent: Agent, t: TickDraws)
    requires agent.Valid() && |t.rooms| == |agent.env.rooms| && AreDraws(t.rooms)
    modifies agent, agent.env.rooms
    ensures agent.Valid()
    ensures agent.View() == Tick(agent.policy, t, old(agent.View()))
  {
    agent.Act(t.direction);
    ghost var acted := agent.View();
    agent.env.StepDirtReappearance(t.rooms);
    assert agent.View() == acted.(dirt := Reappeared(acted.dirt, t.rooms));
  }

  /** Runs the simulation on fresh objects; returns the history of snapshots and the agent. */
  method Simulate(policy: Policy, nRooms: int, maxSteps: int, setup: seq<RoomDraw>, ticks: seq<TickDraws>)
    returns (history: seq<seq<int>>, agent: Agent)
    requires nRooms >= 1 && |setup| == nRooms && AreDraws(setup) && TicksFit(ticks, maxSteps, nRooms)
    ensures fresh(agent) && agent.policy == policy && |agent.env.rooms| == nRooms
    ensures history == Simulated(policy, nRooms, maxSteps, setup, ticks).history
    ensures agent.View() == Simulated(policy, nRooms, maxSteps, setup, ticks).final
  {
    var env := new Environment(nRooms, DefaultDirtProb, setup);
    agent := new Agent(env, policy, 0);
    history := [];
    var step: nat := 0;
    ghost var outcome := Simulated(policy, nRooms, maxSteps, setup, ticks);
    while step < maxSteps
      invariant fresh(agent) && agent.env == env && agent.policy == policy && agent.Valid()
      invariant |env.rooms| == nRooms && forall i :: 0 <= i < |env.rooms| ==> fresh(env.rooms[i])
      invariant Run(policy, maxSteps, ticks, step, agent.View(), history) == outcome
      decreases maxSteps - step
    {
      ghost var w := agent.View();
      var canAct := (agent.CanSuck() && env.rooms[agent.position].IsDirty()) || agent.CanMove();
      if !canAct {
        RunStops(policy, maxSteps, ticks, step, w, history);
        break;
      }
      RunStep(policy, maxSteps, ticks, step, w, history);
      Cycle(agent, ticks[step]);
      history := history + [env.Snapshot()];
      step := step + 1;
      if env.AllClean() {
        assert outcome == Outcome(history, agent.View(), AllClean);
        break;
      }
    }
    RunStops(policy, maxSteps, ticks, step, agent.View(), history);
  }
}
