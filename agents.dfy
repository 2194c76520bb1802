/**
 * The vacuum agent (src/agent.py): a position in the row of rooms, an energy
 * budget, two counters and an append-only log of the actions it took.
 *
 * The first half of the module describes the agent's behaviour on values: a
 * World is the agent's mutable fields together with the dirt levels of the
 * rooms, and each action is a function from a World to the next. The class
 * Agent at the end updates its fields and the shared rooms in place, and each
 * of its methods is proved to follow the matching function.
 */
module Agents {
  import opened Rooms

  /** Energy a move costs, whatever its direction. */
  const MoveCost: real := 2.0
  /** Energy an agent starts with, per room of its environment. */
  const EnergyPerRoom: real := 2.5
  /** A heuristic direction draw below this value tries moving right first. */
  const RightFirstBelow: real := 0.5

  /** The two decision policies; they differ only in how one cycle is chosen. */
  datatype Policy = Baseline | Heuristic

  /** One entry of the action log. */
  datatype Action =
    | SuckAt(room: int, cost: int)
    | MoveRightTo(room: int)
    | MoveLeftTo(room: int)

  datatype AgentState = AgentState(position: int, energy: real, steps: nat, cleaned: nat, log: seq<Action>)

  /** The agent's fields together with the dirt level of every room. */
  datatype World = World(agent: AgentState, dirt: seq<int>)

  /** Whether an attempted action took place, and the world after it. */
  datatype Attempt = Attempt(ok: bool, world: World)

  /** What the agent perceives of its current room. */
  datatype Percept = Percept(roomIndex: int, isDirty: bool, dirtinessLevel: int, remainingEnergy: real)

  function Cost(a: Action): real {
    match a
    case SuckAt(_, cost) => cost as real
    case MoveRightTo(_) => MoveCost
    case MoveLeftTo(_) => MoveCost
  }

  /** Energy spent on the actions of a log. */
  function TotalCost(log: seq<Action>): real {
    if log == [] then 0.0 else TotalCost(log[..|log| - 1]) + Cost(log[|log| - 1])
  }

  /** Number of cleaning actions in a log. */
  function SuckCount(log: seq<Action>): nat {
    if log == [] then 0 else SuckCount(log[..|log| - 1]) + (if log[|log| - 1].SuckAt? then 1 else 0)
  }

  /** A log entry names a room of a row of `n` rooms and, for a clean, a dirt level it could have cost. */
  predicate EntryFits(a: Action, n: int) {
    match a
    case SuckAt(room, cost) => 0 <= room < n && 1 <= cost <= MaxDirt
    case MoveRightTo(room) => 0 < room < n
    case MoveLeftTo(room) => 0 <= room < n - 1
  }

  predicate LogFits(log: seq<Action>, n: int) {
    forall i :: 0 <= i < |log| ==> EntryFits(log[i], n)
  }

  predicate Placed(w: World) {
    0 <= w.agent.position < |w.dirt|
  }

  /**
   * What every action keeps, for an agent that started with energy `e0`: it
   * stands in a room, every level is in range, energy is not negative, the
   * energy spent is the cost of the logged actions, and `cleaned` counts the
   * cleans of the log.
   */
  ghost predicate Inv(e0: real, w: World) {
    Sane(w) && Accounted(e0, w) && LogFits(w.agent.log, |w.dirt|)
  }

  ghost predicate Sane(w: World) {
    Placed(w) && Bounded(w.dirt) && w.agent.energy >= 0.0
  }

  ghost predicate Accounted(e0: real, w: World) {
    e0 - w.agent.energy == TotalCost(w.agent.log) && w.agent.cleaned == SuckCount(w.agent.log)
  }

  /** A freshly constructed agent at `position` in a row with levels `dirt`. */
  function Start(position: int, dirt: seq<int>): World {
    World(AgentState(position, EnergyPerRoom * |dirt| as real, 0, 0, []), dirt)
  }

  predicate CanSuckIn(w: World)
    requires Placed(w)
  {
    w.agent.energy >= w.dirt[w.agent.position] as real
  }

  predicate CanMoveIn(a: AgentState) {
    a.energy >= MoveCost
  }

  /** Clean the current room, if it is dirty and the energy covers its level. */
  function Sucked(w: World): (r: Attempt)
    requires Placed(w)
    ensures r.ok <==> w.dirt[w.agent.position] > 0 && w.agent.energy >= w.dirt[w.agent.position] as real
    ensures r.ok ==>
      && r.world.dirt == w.dirt[w.agent.position := 0]
      && r.world.agent.energy == w.agent.energy - w.dirt[w.agent.position] as real
      && r.world.agent.cleaned == w.agent.cleaned + 1
      && r.world.agent.log == w.agent.log + [SuckAt(w.agent.position, w.dirt[w.agent.position])]
      && r.world.agent.position == w.agent.position
      && r.world.agent.steps == w.agent.steps
    ensures !r.ok ==> r.world == w
  {
    var a, p := w.agent, w.agent.position;
    var cost := w.dirt[p];
    if cost > 0 && CanSuckIn(w) then
      Attempt(true, World(a.(energy := a.energy - cost as real, cleaned := a.cleaned + 1,
                             log := a.log + [SuckAt(p, cost)]), w.dirt[p := 0]))
    else
      Attempt(false, w)
  }

  /** Move one room to the right, unless out of energy or already in the last room. */
  function MovedRight(w: World): (r: Attempt)
    ensures r.ok <==> w.agent.energy >= MoveCost && w.agent.position < |w.dirt| - 1
    ensures r.ok ==>
      && r.world.dirt == w.dirt
      && r.world.agent == w.agent.(position := w.agent.position + 1, energy := w.agent.energy - MoveCost,
                                   log := w.agent.log + [MoveRightTo(w.agent.position + 1)])
    ensures !r.ok ==> r.world == w
  {
    var a := w.agent;
    if CanMoveIn(a) && a.position < |w.dirt| - 1 then
      Attempt(true, w.(agent := a.(position := a.position + 1, energy := a.energy - MoveCost,
                                   log := a.log + [MoveRightTo(a.position + 1)])))
    else
      Attempt(false, w)
  }

  /** Move one room to the left, unless out of energy or already in the first room. */
  function MovedLeft(w: World): (r: Attempt)
    ensures r.ok <==> w.agent.energy >= MoveCost && w.agent.position > 0
    ensures r.ok ==>
      && r.world.dirt == w.dirt
      && r.world.agent == w.agent.(position := w.agent.position - 1, energy := w.agent.energy - MoveCost,
                                   log := w.agent.log + [MoveLeftTo(w.agent.position - 1)])
    ensures !r.ok ==> r.world == w
  {
    var a := w.agent;
    if CanMoveIn(a) && a.position > 0 then
      Attempt(true, w.(agent := a.(position := a.position - 1, energy := a.energy - MoveCost,
                                   log := a.log + [MoveLeftTo(a.position - 1)])))
    else
      Attempt(false, w)
  }

  /**
   * Whether a cycle that does not clean tries moving right before left: always
   * for the baseline policy, and for the heuristic one when its draw is below
   * one half.
   */
  function RightFirst(policy: Policy, direction: real): (r: bool)
    ensures r <==> policy == Baseline || direction < RightFirstBelow
  {
    match policy
    case Baseline => true
    case Heuristic => direction < RightFirstBelow
  }

  /**
   * Try a move in the preferred direction and, if it does not take place, the
   * other one: at most one move happens, it keeps the agent in the row and
   * touches no room, and if neither is possible nothing changes.
   */
  function Moved(rightFirst: bool, w: World): (r: World)
    requires Placed(w)
    ensures Placed(r) && r.dirt == w.dirt
    ensures r.agent.steps == w.agent.steps && r.agent.cleaned == w.agent.cleaned
    ensures r == w || (|r.agent.log| == |w.agent.log| + 1 && r.agent.log[..|w.agent.log|] == w.agent.log
                       && r.agent.energy == w.agent.energy - MoveCost)
    ensures r == w <==> !(CanMoveIn(w.agent) && |w.dirt| >= 2)
  {
    if rightFirst then
      var right := MovedRight(w);
      if right.ok then right.world else MovedLeft(w).world
    else
      var left := MovedLeft(w);
      if left.ok then left.world else MovedRight(w).world
  }

  /**
   * One decision cycle: clean the current room if it is dirty and affordable;
   * otherwise move, right first (the baseline policy, or a heuristic draw
   * below one half) or left first; count the cycle in any case.
   */
  function Acted(policy: Policy, direction: real, w: World): (r: World)
    requires Placed(w)
    ensures Placed(r) && |r.dirt| == |w.dirt|
    ensures r.agent.steps == w.agent.steps + 1
  {
    var p := w.agent.position;
    var next :=
      if w.dirt[p] > 0 && CanSuckIn(w) then Sucked(w).world
      else Moved(RightFirst(policy, direction), w);
    next.(agent := next.agent.(steps := next.agent.steps + 1))
  }

  /**
   * A move with fallback makes the preferred move when it can take place and
   * the other one only when it cannot; whichever happens moves the agent one
   * room and logs that move.
   */
  lemma MovedTriesPreferredFirst(rightFirst: bool, w: World)
    requires Placed(w)
    ensures rightFirst && MovedRight(w).ok ==> Moved(rightFirst, w) == MovedRight(w).world
    ensures rightFirst && !MovedRight(w).ok ==> Moved(rightFirst, w) == MovedLeft(w).world
    ensures !rightFirst && MovedLeft(w).ok ==> Moved(rightFirst, w) == MovedLeft(w).world
    ensures !rightFirst && !MovedLeft(w).ok ==> Moved(rightFirst, w) == MovedRight(w).world
    ensures var r := Moved(rightFirst, w);
      || r == w
      || (r.agent.position == w.agent.position + 1 && r.agent.log == w.agent.log + [MoveRightTo(r.agent.position)])
      || (r.agent.position == w.agent.position - 1 && r.agent.log == w.agent.log + [MoveLeftTo(r.agent.position)])
  {
  }

  /**
   * A cycle that does not clean is a move with fallback in the policy's order,
   * right first for the baseline policy and for a heuristic draw below one
   * half, left first otherwise; the cycle is counted either way.
   */
  lemma ActedOtherwiseMoves(policy: Policy, direction: real, w: World)
    requires Placed(w) && !(w.dirt[w.agent.position] > 0 && CanSuckIn(w))
    ensures var m := Moved(policy == Baseline || direction < RightFirstBelow, w);
      Acted(policy, direction, w) == m.(agent := m.agent.(steps := m.agent.steps + 1))
  {
  }

  /**
   * A cycle takes at most one action: the log grows by at most one entry and
   * keeps its old entries, energy does not go up, and when nothing is logged
   * nothing but the step count changes.
   */
  lemma ActedTakesAtMostOneAction(policy: Policy, direction: real, w: World)
    requires Placed(w)
    ensures var r := Acted(policy, direction, w);
      && r.agent.energy <= w.agent.energy
      && |w.agent.log| <= |r.agent.log| <= |w.agent.log| + 1
      && r.agent.log[..|w.agent.log|] == w.agent.log
      && (|r.agent.log| == |w.agent.log| ==> r == w.(agent := w.agent.(steps := w.agent.steps + 1)))
  {
    var r := Acted(policy, direction, w);
    assert r.agent.log[..|w.agent.log|] == w.agent.log;
  }

  /** When the current room is dirty and affordable, the cycle's action is cleaning that room. */
  lemma ActedCleansDirtyRoom(policy: Policy, direction: real, w: World)
    requires Placed(w) && w.dirt[w.agent.position] > 0 && CanSuckIn(w)
    ensures var r := Acted(policy, direction, w);
      && r.dirt == w.dirt[w.agent.position := 0]
      && r.agent.log == w.agent.log + [SuckAt(w.agent.position, w.dirt[w.agent.position])]
      && r.agent.energy == w.agent.energy - w.dirt[w.agent.position] as real
      && r.agent.position == w.agent.position
  {
  }

  lemma {:induction false} TotalCostAppend(log: seq<Action>, a: Action)
    ensures TotalCost(log + [a]) == TotalCost(log) + Cost(a)
    ensures SuckCount(log + [a]) == SuckCount(log) + (if a.SuckAt? then 1 else 0)
  {
    assert (log + [a])[..|log|] == log;
  }

  /** Every logged action costs something, so the energy spent is never negative. */
  lemma {:induction false} TotalCostNonNegative(log: seq<Action>, n: int)
    requires LogFits(log, n)
    ensures TotalCost(log) >= 0.0
  {
    if log != [] {
      var init := log[..|log| - 1];
      assert LogFits(init, n) by {
        forall i | 0 <= i < |init| ensures EntryFits(init[i], n) {
          assert init[i] == log[i];
        }
      }
      TotalCostNonNegative(init, n);
      assert EntryFits(log[|log| - 1], n);
    }
  }

  /** Under the invariant, energy stays between zero and the starting budget. */
  lemma EnergyWithinBudget(e0: real, w: World)
    requires Inv(e0, w)
    ensures 0.0 <= w.agent.energy <= e0
  {
    TotalCostNonNegative(w.agent.log, |w.dirt|);
  }

  lemma StartKeepsInv(position: int, dirt: seq<int>)
    requires 0 <= position < |dirt| && Bounded(dirt)
    ensures Inv(EnergyPerRoom * |dirt| as real, Start(position, dirt))
  {
  }

  /** An action that appends a fitting entry whose cost is exactly the energy it used keeps the invariant. */
  lemma AppendKeepsInv(e0: real, w: World, w': World, a: Action)
    requires Inv(e0, w)
    requires Placed(w') && Bounded(w'.dirt) && |w'.dirt| == |w.dirt| && w'.agent.energy >= 0.0
    requires EntryFits(a, |w.dirt|) && w'.agent.log == w.agent.log + [a]
    requires w'.agent.energy == w.agent.energy - Cost(a)
    requires w'.agent.cleaned == w.agent.cleaned + (if a.SuckAt? then 1 else 0)
    ensures Inv(e0, w')
  {
    TotalCostAppend(w.agent.log, a);
  }

  lemma SuckedKeepsInv(e0: real, w: World)
    requires Inv(e0, w)
    ensures Inv(e0, Sucked(w).world)
  {
    var r := Sucked(w);
    if r.ok {
      var p := w.agent.position;
      AppendKeepsInv(e0, w, r.world, SuckAt(p, w.dirt[p]));
    }
  }

  lemma MovedRightKeepsInv(e0: real, w: World)
    requires Inv(e0, w)
    ensures Inv(e0, MovedRight(w).world)
  {
    var r := MovedRight(w);
    if r.ok {
      AppendKeepsInv(e0, w, r.world, MoveRightTo(w.agent.position + 1));
    }
  }

  lemma MovedLeftKeepsInv(e0: real, w: World)
    requires Inv(e0, w)
    ensures Inv(e0, MovedLeft(w).world)
  {
    var r := MovedLeft(w);
    if r.ok {
      AppendKeepsInv(e0, w, r.world, MoveLeftTo(w.agent.position - 1));
    }
  }

  lemma MovedKeepsInv(e0: real, rightFirst: bool, w: World)
    requires Inv(e0, w)
    ensures Inv(e0, Moved(rightFirst, w))
  {
    if rightFirst {
      MovedRightKeepsInv(e0, w);
      MovedLeftKeepsInv(e0, w);
    } else {
      MovedLeftKeepsInv(e0, w);
      MovedRightKeepsInv(e0, w);
    }
  }

  /**
   * Every decision cycle keeps the agent in range and its energy non-negative,
   * and the energy spent stays equal to the cost of the logged actions.
   */
  lemma ActedKeepsInv(e0: real, policy: Policy, direction: real, w: World)
    requires Inv(e0, w)
    ensures Inv(e0, Acted(policy, direction, w))
  {
    var p := w.agent.position;
    if w.dirt[p] > 0 && CanSuckIn(w) {
      SuckedKeepsInv(e0, w);
    } else {
      MovedKeepsInv(e0, RightFirst(policy, direction), w);
    }
  }

  /**
   * When the cycle does not clean, an agent with energy for a move in a row of
   * at least two rooms always moves, whatever its policy or draw.
   */
  lemma ActedMovesWhenItCan(policy: Policy, direction: real, w: World)
    requires Placed(w) && |w.dirt| >= 2 && CanMoveIn(w.agent)
    requires !(w.dirt[w.agent.position] > 0 && CanSuckIn(w))
    ensures var r := Acted(policy, direction, w);
      |r.agent.log| == |w.agent.log| + 1 && !r.agent.log[|w.agent.log|].SuckAt?
  {
  }

  /**
   * Two rooms at levels [3, 2], a baseline agent in room 0 with energy at least
   * 3: one cycle cleans room 0 only, leaving [0, 2], one clean and 3 energy spent.
   */
  lemma OneCycleCleansOnlyTheCurrentRoom(energy: real)
    requires energy >= 3.0
    ensures var r := Acted(Baseline, 0.0, World(AgentState(0, energy, 0, 0, []), [3, 2]));
      r.dirt == [0, 2] && r.agent.cleaned == 1 && r.agent.energy == energy - 3.0
  {
  }

  class Agent {
    const env: Environment
    const policy: Policy
    const initialEnergy: real
    var position: int
    var energy: real
    var steps: nat
    var cleaned: nat
    var actions: seq<Action>

    function State(): AgentState
      reads this
    {
      AgentState(position, energy, steps, cleaned, actions)
    }

    /** The agent's fields together with the dirt levels of its environment. */
    function View(): World
      reads this, env.rooms
    {
      World(State(), env.Snapshot())
    }

    /**
     * The agent stands in a room of a valid environment and started with 2.5
     * energy per room. Everything else the agent keeps is stated on values
     * (Inv, ActedKeepsInv), which every method is proved to follow.
     */
    ghost predicate Valid()
      reads this, env.rooms
    {
      env.Valid() && initialEnergy == EnergyPerRoom * |env.rooms| as real && 0 <= position < |env.rooms|
    }

    constructor (env: Environment, policy: Policy, position: int)
      requires env.Valid() && 0 <= position < |env.rooms|
      ensures Valid() && this.env == env && this.policy == policy
      ensures View() == Start(position, env.Snapshot())
    {
      this.env := env;
      this.policy := policy;
      this.position := position;
      steps, cleaned := 0, 0;
      initialEnergy := EnergyPerRoom * |env.rooms| as real;
      energy := EnergyPerRoom * |env.rooms| as real;
      actions := [];
    }

    function Perceive(): (p: Percept)
      reads this, env.rooms
      requires 0 <= position < |env.rooms|
      ensures p.roomIndex == position && p.remainingEnergy == energy
      ensures p.dirtinessLevel == View().dirt[position]
      ensures p.isDirty <==> p.dirtinessLevel > 0
    {
      var room := env.rooms[position];
      Percept(position, room.IsDirty(), room.dirtiness, energy)
    }

    function CanSuck(): (b: bool)
      reads this, env.rooms
      requires 0 <= position < |env.rooms|
      ensures b == CanSuckIn(View())
    {
      energy >= env.rooms[position].dirtiness as real
    }

    function CanMove(): (b: bool)
      reads this
      ensures b == CanMoveIn(State())
    {
      energy >= MoveCost
    }

    method Suck() returns (ok: bool)
      requires Valid()
      modifies this, env.rooms[position]
      ensures Valid()
      ensures Attempt(ok, View()) == Sucked(old(View()))
    {
      ghost var before := View();
      var room := env.rooms[position];
      if room.IsDirty() && CanSuck() {
        var cost := room.dirtiness;
        room.Clean();
        energy := energy - cost as real;
        cleaned := cleaned + 1;
        actions := actions + [SuckAt(position, cost)];
        ok := true;
        env.CleanedOne(position);
        assert View() == Sucked(before).world;
      } else {
        ok := false;
      }
    }

    method MoveRight() returns (ok: bool)
      requires Valid()
      modifies this
      ensures Valid()
      ensures Attempt(ok, View()) == MovedRight(old(View()))
    {
      if CanMove() && position < |env.rooms| - 1 {
        position := position + 1;
        energy := energy - MoveCost;
        actions := actions + [MoveRightTo(position)];
        ok := true;
      } else {
        ok := false;
      }
    }

    method MoveLeft() returns (ok: bool)
      requires Valid()
      modifies this
      ensures Valid()
      ensures Attempt(ok, View()) == MovedLeft(old(View()))
    {
      if CanMove() && position > 0 {
        position := position - 1;
        energy := energy - MoveCost;
        actions := actions + [MoveLeftTo(position)];
        ok := true;
      } else {
        ok := false;
      }
    }

    /** Try a move in the preferred direction, then the other one if the first does not take place. */
    method MoveWithFallback(rightFirst: bool)
      requires Valid()
      modifies this
      ensures Valid()
      ensures View() == Moved(rightFirst, old(View()))
    {
      var ok;
      if rightFirst {
        ok := MoveRight();
        if !ok {
          ok := MoveLeft();
        }
      } else {
        ok := MoveLeft();
        if !ok {
          ok := MoveRight();
        }
      }
    }

    /** One decision cycle; `direction` is the heuristic policy's random draw. */
    method Act(direction: real)
      requires Valid()
      modifies this, env.rooms[position]
      ensures Valid()
      ensures View() == Acted(policy, direction, old(View()))
    {
      ghost var before := View();
      var percept := Perceive();
      ghost var acted: World;
      if percept.isDirty && CanSuck() {
        var ok := Suck();
        acted := Sucked(before).world;
      } else {
        match policy {
          case Baseline =>
            MoveWithFallback(true);
          case Heuristic =>
            MoveWithFallback(direction < RightFirstBelow);
        }
        acted := Moved(RightFirst(policy, direction), before);
      }
      assert View() == acted;
      ghost var dirt := env.Snapshot();
      steps := steps + 1;
      assert env.Snapshot() == dirt;
    }
  }
}
