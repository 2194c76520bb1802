/**
 * Rooms and the environment that holds them (src/environment.py).
 *
 * A room carries a dirt level between 0 (clean) and MaxDirt. The environment
 * is a fixed row of rooms, built once and never resized. Random draws are not
 * taken from a generator: every operation that draws receives the values it
 * would have drawn, as a RoomDraw.
 */
module Rooms {

  /** Highest dirt level; a dirt level is also the energy it costs to clean. */
  const MaxDirt := 5
  /** Probability with which a clean room gets dirty again in one tick. */
  const ReappearProb: real := 0.1
  /** Probability with which a room starts dirty, unless the caller says otherwise. */
  const DefaultDirtProb: real := 0.5

  /**
   * The two values one room may draw: `u` stands for a call of
   * random.random() and `level` for a call of random.randint(1, 5).
   */
  datatype RoomDraw = RoomDraw(u: real, level: int)

  /** What the generator guarantees of its two draws. */
  predicate IsDraw(d: RoomDraw) {
    0.0 <= d.u < 1.0 && 1 <= d.level <= MaxDirt
  }

  predicate AreDraws(ds: seq<RoomDraw>) {
    forall i :: 0 <= i < |ds| ==> IsDraw(ds[i])
  }

  predicate InRange(d: int) {
    0 <= d <= MaxDirt
  }

  /** Every dirt level of a row lies in [0, MaxDirt]. */
  predicate Bounded(dirt: seq<int>) {
    forall i :: 0 <= i < |dirt| ==> InRange(dirt[i])
  }

  /** Every room of the row is clean, checked from the first room on. */
  predicate AllZero(dirt: seq<int>) {
    dirt == [] || (dirt[0] == 0 && AllZero(dirt[1..]))
  }

  /** AllZero says exactly that every level of the row is 0. */
  lemma {:induction false} AllZeroMeans(dirt: seq<int>)
    ensures AllZero(dirt) <==> forall i :: 0 <= i < |dirt| ==> dirt[i] == 0
  {
    if dirt != [] {
      AllZeroMeans(dirt[1..]);
      assert forall i :: 1 <= i < |dirt| ==> dirt[i] == dirt[1..][i - 1];
    }
  }

  /** Dirt level a room is created with when it is dirty with probability `prob`. */
  function InitialLevel(prob: real, draw: RoomDraw): (r: int)
    requires IsDraw(draw)
    ensures r == 0 || 1 <= r <= MaxDirt
    ensures r != 0 <==> draw.u < prob
  {
    if draw.u < prob then draw.level else 0
  }

  /**
   * Dirt level after `maybe_get_dirty(prob)` on a room at level `d`: a dirty
   * room keeps its level, a clean room draws as it would at creation.
   */
  function Redirtied(d: int, prob: real, draw: RoomDraw): (r: int)
    requires IsDraw(draw)
    ensures d != 0 ==> r == d
    ensures d == 0 ==> r == InitialLevel(prob, draw)
    ensures r >= d
    ensures InRange(d) ==> InRange(r)
  {
    if d == 0 && draw.u < prob then draw.level else d
  }

  /** Dirt levels of a freshly built environment, one draw per room. */
  function InitialDirt(prob: real, draws: seq<RoomDraw>): (r: seq<int>)
    requires AreDraws(draws)
    ensures |r| == |draws|
  {
    seq(|draws|, i requires 0 <= i < |draws| => InitialLevel(prob, draws[i]))
  }

  /** A fresh room is clean or at a level in [1, 5], and dirty exactly when its draw falls below `prob`. */
  lemma InitialDirtLevels(prob: real, draws: seq<RoomDraw>)
    requires AreDraws(draws)
    ensures var r := InitialDirt(prob, draws);
      && Bounded(r)
      && forall i :: 0 <= i < |r| ==> (r[i] == 0 || 1 <= r[i] <= MaxDirt) && (r[i] != 0 <==> draws[i].u < prob)
  {
  }

  /** Dirt levels after one reappearance pass, one draw per room. */
  function Reappeared(dirt: seq<int>, draws: seq<RoomDraw>): (r: seq<int>)
    requires |draws| == |dirt| && AreDraws(draws)
    ensures |r| == |dirt|
  {
    seq(|dirt|, i requires 0 <= i < |dirt| => Redirtied(dirt[i], ReappearProb, draws[i]))
  }

  /**
   * A reappearance pass never lowers a level, leaves every dirty room as it
   * was, and keeps levels in range.
   */
  lemma ReappearedNeverCleans(dirt: seq<int>, draws: seq<RoomDraw>)
    requires |draws| == |dirt| && AreDraws(draws)
    ensures var r := Reappeared(dirt, draws);
      && (forall i :: 0 <= i < |r| ==> r[i] >= dirt[i])
      && (forall i :: 0 <= i < |r| && dirt[i] != 0 ==> r[i] == dirt[i])
      && (Bounded(dirt) ==> Bounded(r))
  {
  }

  /** A reappearance pass on an all-clean row yields exactly the levels of a fresh build. */
  lemma {:induction false} ReappearedOnCleanIsInitial(dirt: seq<int>, draws: seq<RoomDraw>)
    requires |draws| == |dirt| && AreDraws(draws) && AllZero(dirt)
    ensures Reappeared(dirt, draws) == InitialDirt(ReappearProb, draws)
  {
    var r, s := Reappeared(dirt, draws), InitialDirt(ReappearProb, draws);
    AllZeroMeans(dirt);
    forall i | 0 <= i < |dirt| ensures r[i] == s[i] {
      assert dirt[i] == 0;
    }
  }

  class Room {
    const index: int
    var dirtiness: int

    constructor (index: int, dirtiness: int)
      ensures this.index == index && this.dirtiness == dirtiness
    {
      this.index := index;
      this.dirtiness := dirtiness;
    }

    /** On a room whose level is in range, dirty means not at the clean level 0. */
    predicate IsDirty(): (b: bool)
      reads this
      ensures InRange(dirtiness) ==> (b <==> dirtiness != 0)
    {
      dirtiness > 0
    }

    /** Cleaning always succeeds; the new level does not depend on the old one, so a second call changes nothing. */
    method Clean()
      modifies this
      ensures dirtiness == 0
    {
      dirtiness := 0;
    }

    method MaybeGetDirty(prob: real, draw: RoomDraw)
      requires IsDraw(draw)
      modifies this
      ensures dirtiness == Redirtied(old(dirtiness), prob, draw)
    {
      if dirtiness == 0 && draw.u < prob {
        dirtiness := draw.level;
      }
    }
  }

  class Environment {
    const rooms: seq<Room>

    /** Room i sits at index i (so the rooms are distinct objects) and every level is in range. */
    ghost predicate Valid()
      reads rooms
    {
      forall i :: 0 <= i < |rooms| ==> rooms[i].index == i && InRange(rooms[i].dirtiness)
    }

    /** The dirt levels of the rooms, in room order. */
    function Snapshot(): (s: seq<int>)
      reads rooms
      ensures |s| == |rooms|
      ensures forall i :: 0 <= i < |rooms| ==> s[i] == rooms[i].dirtiness
    {
      seq(|rooms|, i requires 0 <= i < |rooms| reads rooms => rooms[i].dirtiness)
    }

    /**
     * After a change that zeroed room `i` and touched no other room object,
     * the snapshot is the old one with level `i` set to 0.
     */
    twostate lemma CleanedOne(i: int)
      requires old(Valid()) && 0 <= i < |rooms| && rooms[i].dirtiness == 0
      requires forall j :: 0 <= j < |rooms| && rooms[j] != rooms[i] ==> rooms[j].dirtiness == old(rooms[j].dirtiness)
      ensures Valid()
      ensures Snapshot() == old(Snapshot())[i := 0]
    {
      forall j | 0 <= j < |rooms| && j != i
        ensures rooms[j].dirtiness == old(rooms[j].dirtiness)
      {
        assert rooms[j].index != rooms[i].index;
      }
    }

    constructor (nRooms: nat, dirtProb: real, draws: seq<RoomDraw>)
      requires |draws| == nRooms && AreDraws(draws)
      ensures Valid() && |rooms| == nRooms
      ensures Snapshot() == InitialDirt(dirtProb, draws)
      ensures forall i :: 0 <= i < |rooms| ==> fresh(rooms[i])
    {
      var built: seq<Room> := [];
      for i := 0 to nRooms
        invariant |built| == i
        invariant forall j :: 0 <= j < i ==> fresh(built[j]) && built[j].index == j
        invariant forall j :: 0 <= j < i ==> built[j].dirtiness == InitialLevel(dirtProb, draws[j])
      {
        var dirt := if draws[i].u < dirtProb then draws[i].level else 0;
        var room := new Room(i, dirt);
        built := built + [room];
      }
      rooms := built;
    }

    function AllClean(): (b: bool)
      reads rooms
      ensures Valid() ==> (b <==> AllZero(Snapshot()))
    {
      AllZeroMeans(Snapshot());
      forall i :: 0 <= i < |rooms| ==> !rooms[i].IsDirty()
    }

    method StepDirtReappearance(draws: seq<RoomDraw>)
      requires Valid() && |draws| == |rooms| && AreDraws(draws)
      modifies rooms
      ensures Valid()
      ensures Snapshot() == Reappeared(old(Snapshot()), draws)
    {
      for i := 0 to |rooms|
        invariant forall j :: 0 <= j < i ==>
          rooms[j].dirtiness == Redirtied(old(rooms[j].dirtiness), ReappearProb, draws[j])
        invariant forall j :: i <= j < |rooms| ==> rooms[j].dirtiness == old(rooms[j].dirtiness)
      {
        rooms[i].MaybeGetDirty(ReappearProb, draws[i]);
      }
    }
  }
}
