/** The enemy formation: an ordered table of slots, each empty or holding
    one enemy, that sweeps left and right between the screen bounds and
    refills itself one slot at a time, one delayed call after another, once
    every slot is empty. */
module Formations {
  import opened Wrappers
  import opened Geometry

  const DefaultWidth: real := 10.0
  const DefaultSpeed: real := 5.0
  const DefaultSpawnDelay: real := 0.5

  /** Each call to `Instantiate` makes a new enemy; the model names it by a
      number that has not been used before. */
  type EnemyId = nat

  /** A slot: a child position of the formation with no child, or with the
      enemy parented to it. */
  type Slot = Option<EnemyId>

  // ---------------------------------------------------------------------
  // The slot table as a value
  // ---------------------------------------------------------------------

  /** The first empty slot in enumeration order, if there is one. */
  function FirstFree(s: seq<Slot>): (r: Option<nat>)
    ensures r.Some? ==> r.value < |s| && s[r.value].None?
    ensures r.Some? ==> forall j :: 0 <= j < r.value ==> s[j].Some?
    ensures r.None? ==> forall j :: 0 <= j < |s| ==> s[j].Some?
  {
    if s == [] then None
    else if s[0].None? then Some(0)
    else match FirstFree(s[1..])
      case None => None
      case Some(k) => Some(k + 1)
  }

  predicate HasFree(s: seq<Slot>)
  {
    exists i :: 0 <= i < |s| && s[i].None?
  }

  predicate AllEmpty(s: seq<Slot>)
  {
    forall i :: 0 <= i < |s| ==> s[i].None?
  }

  /** The number of occupied slots. */
  function Occupied(s: seq<Slot>): nat
  {
    if s == [] then 0 else (if s[0].Some? then 1 else 0) + Occupied(s[1..])
  }

  /** No enemy sits in two slots. */
  predicate DistinctMembers(s: seq<Slot>)
  {
    forall i, j :: 0 <= i < |s| && 0 <= j < |s| && i != j && s[i].Some? && s[j].Some? ==>
      s[i].value != s[j].value
  }

  /** Every enemy in the table was made before `next`. */
  predicate MembersBelow(s: seq<Slot>, next: EnemyId)
  {
    forall i :: 0 <= i < |s| && s[i].Some? ==> s[i].value < next
  }

  /** One step of `SpawnUntilFull`: a new enemy goes into the first free
      slot, if there is one. */
  function SpawnStep(s: seq<Slot>, id: EnemyId): (r: seq<Slot>)
    ensures |r| == |s|
    ensures forall i :: 0 <= i < |s| && s[i].Some? ==> r[i] == s[i]
    ensures forall i :: 0 <= i < |s| && r[i] != s[i] ==> s[i].None? && r[i] == Some(id)
  {
    match FirstFree(s)
    case None => s
    case Some(k) => s[k := Some(id)]
  }

  lemma FirstFreeIffHasFree(s: seq<Slot>)
    ensures FirstFree(s).Some? <==> HasFree(s)
  {
    if FirstFree(s).Some? {
      assert s[FirstFree(s).value].None?;
    }
  }

  /** Occupied count 0 means every slot is empty, and the count equals the
      number of slots exactly when no slot is free. */
  lemma {:induction false} OccupiedBounds(s: seq<Slot>)
    ensures Occupied(s) <= |s|
    ensures Occupied(s) == 0 <==> AllEmpty(s)
    ensures Occupied(s) == |s| <==> !HasFree(s)
  {
    if s != [] {
      OccupiedBounds(s[1..]);
      assert forall i :: 1 <= i < |s| ==> s[i] == s[1..][i - 1];
      if HasFree(s[1..]) {
        var i :| 0 <= i < |s[1..]| && s[1..][i].None?;
        assert s[i + 1].None?;
      }
      if !AllEmpty(s[1..]) {
        var i :| 0 <= i < |s[1..]| && s[1..][i].Some?;
        assert s[i + 1].Some?;
      }
    }
  }

  /** Filling one empty slot raises the occupied count by one. */
  lemma {:induction false} OccupiedFill(s: seq<Slot>, k: nat, id: EnemyId)
    requires k < |s| && s[k].None?
    ensures Occupied(s[k := Some(id)]) == Occupied(s) + 1
  {
    if k > 0 {
      OccupiedFill(s[1..], k - 1, id);
      assert s[k := Some(id)][1..] == s[1..][k - 1 := Some(id)];
    } else {
      assert s[k := Some(id)][1..] == s[1..];
    }
  }

  /** One spawn step fills exactly the first free slot, never overwrites an
      occupied slot, raises the count by one when a slot was free and
      otherwise changes nothing. */
  lemma SpawnStepFillsFirstFree(s: seq<Slot>, id: EnemyId)
    ensures var r := SpawnStep(s, id);
      && |r| == |s|
      && (forall i :: 0 <= i < |s| && s[i].Some? ==> r[i] == s[i])
      && (HasFree(s) ==> r[FirstFree(s).value] == Some(id) && Occupied(r) == Occupied(s) + 1)
      && (HasFree(s) ==> forall i :: 0 <= i < |s| && i != FirstFree(s).value ==> r[i] == s[i])
      && (!HasFree(s) ==> r == s)
  {
    FirstFreeIffHasFree(s);
    if HasFree(s) {
      OccupiedFill(s, FirstFree(s).value, id);
    }
  }

  /** A spawn step with a new enemy keeps every enemy in at most one slot. */
  lemma SpawnStepKeepsMembersDistinct(s: seq<Slot>, id: EnemyId)
    requires DistinctMembers(s) && MembersBelow(s, id)
    ensures DistinctMembers(SpawnStep(s, id)) && MembersBelow(SpawnStep(s, id), id + 1)
  {
  }

  /** A table of `n` empty slots. */
  function EmptySlots(n: nat): seq<Slot>
  {
    seq(n, i => None)
  }

  /** The table after `k` spawn steps, the i-th step spawning enemy
      `id + i`. */
  function Wave(s: seq<Slot>, id: EnemyId, k: nat): seq<Slot>
  {
    if k == 0 then s else SpawnStep(Wave(s, id, k - 1), id + k - 1)
  }

  /** Starting from `n` empty slots, step `k` has filled exactly the first
      `k` slots in order, so the count rises by one per step, a further
      step is requested after steps 1 to n-1, and step `n` fills the
      formation and requests nothing. */
  lemma {:induction false} WaveFillsInOrder(n: nat, id: EnemyId, k: nat)
    requires k <= n
    ensures var w := Wave(EmptySlots(n), id, k);
      && |w| == n
      && (forall i :: 0 <= i < n ==> w[i] == if i < k then Some(id + i) else None)
      && Occupied(w) == k
      && (HasFree(w) <==> k < n)
  {
    var w := Wave(EmptySlots(n), id, k);
    if k > 0 {
      WaveFillsInOrder(n, id, k - 1);
      var v := Wave(EmptySlots(n), id, k - 1);
      assert v[k - 1].None?;
      assert FirstFree(v) == Some(k - 1);
      SpawnStepFillsFirstFree(v, id + k - 1);
    } else {
      OccupiedBounds(w);
    }
    if k < n {
      assert w[k].None?;
    } else {
      OccupiedBounds(w);
    }
  }

  // ---------------------------------------------------------------------
  // The sweep
  // ---------------------------------------------------------------------

  /** The x displacement of one frame. */
  function Displacement(movingRight: bool, speed: real, deltaTime: real): real
  {
    if movingRight then speed * deltaTime else -(speed * deltaTime)
  }

  /** The heading after a frame, from the edges `centerX +- width/2`: left
      edge past `xMin` turns right; otherwise right edge past `xMax` turns
      left; otherwise the heading is kept. */
  function Heading(movingRight: bool, centerX: real, width: real, xMin: real, xMax: real): (r: bool)
    ensures centerX - 0.5 * width < xMin ==> r
    ensures xMin <= centerX - 0.5 * width && centerX + 0.5 * width > xMax ==> !r
    ensures r != movingRight ==>
      (r && centerX - 0.5 * width < xMin) || (!r && centerX + 0.5 * width > xMax)
    ensures width <= xMax - xMin ==>
      (r ==> centerX + 0.5 * width <= xMax) && (!r ==> xMin <= centerX - 0.5 * width)
  {
    var rightEdge := centerX + 0.5 * width;
    var leftEdge := centerX - 0.5 * width;
    if leftEdge < xMin then true
    else if rightEdge > xMax then false
    else movingRight
  }

  /** When the formation fits between the bounds, its two edges cannot
      both be out of bounds in the same frame. */
  lemma EdgesNotBothOut(centerX: real, width: real, xMin: real, xMax: real)
    requires width <= xMax - xMin
    ensures !(centerX - 0.5 * width < xMin && centerX + 0.5 * width > xMax)
  {
  }

  // ---------------------------------------------------------------------
  // The formation controller component
  // ---------------------------------------------------------------------

  class FormationController {
    /** The formation's child positions, in enumeration order. */
    const slots: array<Slot>
    const width: real
    const speed: real
    const spawnDelay: real
    var position: Vector3
    var movingRight: bool
    var xMin: real
    var xMax: real
    /** The next number `Instantiate` hands out. */
    var nextId: EnemyId
    /** Outstanding `Invoke("SpawnUntilFull", spawnDelay)` calls. */
    var pendingSpawns: nat

    ghost predicate Valid()
      reads this, slots
    {
      DistinctMembers(slots[..]) && MembersBelow(slots[..], nextId)
    }

    constructor (slotCount: nat, position: Vector3, width: real, speed: real, spawnDelay: real)
      ensures Valid() && fresh(slots)
      ensures slots[..] == EmptySlots(slotCount)
      ensures this.position == position && this.width == width
      ensures this.speed == speed && this.spawnDelay == spawnDelay
      ensures movingRight && xMin == 0.0 && xMax == 0.0
      ensures nextId == 0 && pendingSpawns == 0
    {
      slots := new Slot[slotCount](i => None);
      this.position := position;
      this.width := width;
      this.speed := speed;
      this.spawnDelay := spawnDelay;
      movingRight := true;
      xMin, xMax := 0.0, 0.0;
      nextId := 0;
      pendingSpawns := 0;
      new;
      assert slots[..] == EmptySlots(slotCount);
    }

    /** `NextFreePosition`: scans the slots in order and stops at the first
        empty one. */
    method NextFreePosition() returns (r: Option<nat>)
      ensures r == FirstFree(slots[..])
    {
      var i := 0;
      while i < slots.Length
        invariant 0 <= i <= slots.Length
        invariant forall j :: 0 <= j < i ==> slots[j].Some?
      {
        if slots[i].None? {
          return Some(i);
        }
        i := i + 1;
      }
      return None;
    }

    /** `AllMembersDead`: scans the slots in order and stops at the first
        occupied one. */
    method AllMembersDead() returns (dead: bool)
      ensures dead <==> AllEmpty(slots[..])
    {
      var i := 0;
      while i < slots.Length
        invariant 0 <= i <= slots.Length
        invariant forall j :: 0 <= j < i ==> slots[j].None?
      {
        if slots[i].Some? {
          return false;
        }
        i := i + 1;
      }
      return true;
    }

    /** `SpawnUntilFull`, one step: fills the first free slot with a new
        enemy and, when a slot is still free, schedules another step
        (`again`, recorded as a pending call). */
    method SpawnUntilFull() returns (again: bool)
      requires Valid()
      modifies this, slots
      ensures Valid()
      ensures slots[..] == SpawnStep(old(slots[..]), old(nextId))
      ensures nextId == old(nextId) + (if HasFree(old(slots[..])) then 1 else 0)
      ensures again <==> HasFree(slots[..])
      ensures pendingSpawns == old(pendingSpawns) + (if again then 1 else 0)
      ensures position == old(position) && movingRight == old(movingRight)
      ensures xMin == old(xMin) && xMax == old(xMax)
    {
      ghost var before := slots[..];
      var freePosition := NextFreePosition();
      FirstFreeIffHasFree(before);
      SpawnStepKeepsMembersDistinct(before, nextId);
      if freePosition.Some? {
        slots[freePosition.value] := Some(nextId);
        nextId := nextId + 1;
      }
      assert slots[..] == SpawnStep(before, old(nextId));
      var next := NextFreePosition();
      FirstFreeIffHasFree(slots[..]);
      again := next.Some?;
      if again {
        pendingSpawns := pendingSpawns + 1;
      }
    }

    /** `Start`: `leftBoundaryX` and `rightBoundaryX` are the x coordinates
        the camera gives for the viewport's edges; the first spawn step
        runs at once. */
    method Start(leftBoundaryX: real, rightBoundaryX: real) returns (again: bool)
      requires Valid()
      modifies this, slots
      ensures Valid()
      ensures xMin == leftBoundaryX && xMax == rightBoundaryX
      ensures slots[..] == SpawnStep(old(slots[..]), old(nextId))
      ensures nextId == old(nextId) + (if HasFree(old(slots[..])) then 1 else 0)
      ensures again <==> HasFree(slots[..])
      ensures pendingSpawns == old(pendingSpawns) + (if again then 1 else 0)
      ensures position == old(position) && movingRight == old(movingRight)
    {
      xMax := rightBoundaryX;
      xMin := leftBoundaryX;
      again := SpawnUntilFull();
    }

    /** The timer delivers one pending `SpawnUntilFull` call. */
    method OnSpawnTimer() returns (again: bool)
      requires Valid() && pendingSpawns > 0
      modifies this, slots
      ensures Valid()
      ensures slots[..] == SpawnStep(old(slots[..]), old(nextId))
      ensures nextId == old(nextId) + (if HasFree(old(slots[..])) then 1 else 0)
      ensures again <==> HasFree(slots[..])
      ensures pendingSpawns == old(pendingSpawns) - 1 + (if again then 1 else 0)
      ensures position == old(position) && movingRight == old(movingRight)
      ensures xMin == old(xMin) && xMax == old(xMax)
    {
      pendingSpawns := pendingSpawns - 1;
      again := SpawnUntilFull();
    }

    /** The engine removes a destroyed enemy from its slot. */
    method ReleaseSlot(k: nat)
      requires Valid() && k < slots.Length
      modifies slots
      ensures Valid()
      ensures slots[..] == old(slots[..])[k := None]
    {
      slots[k] := None;
    }

    /** `Update`: moves the anchor by `speed * deltaTime` in the current
        direction, recomputes the heading from the new edges and, when
        every slot is empty, runs a spawn step. */
    method Update(deltaTime: real) returns (respawned: bool, again: bool)
      requires Valid()
      modifies this, slots
      ensures Valid()
      ensures position == old(position).(x := old(position.x) + Displacement(old(movingRight), speed, deltaTime))
      ensures movingRight == Heading(old(movingRight), position.x, width, xMin, xMax)
      ensures respawned <==> AllEmpty(old(slots[..]))
      ensures respawned ==> slots[..] == SpawnStep(old(slots[..]), old(nextId))
      ensures respawned ==> (again <==> HasFree(slots[..]))
      ensures !respawned ==> slots[..] == old(slots[..]) && !again
      ensures pendingSpawns == old(pendingSpawns) + (if again then 1 else 0)
      ensures nextId == old(nextId) + (if respawned && HasFree(old(slots[..])) then 1 else 0)
      ensures xMin == old(xMin) && xMax == old(xMax)
    {
      if movingRight {
        position := position.(x := position.x + speed * deltaTime);
      } else {
        position := position.(x := position.x + -(speed * deltaTime));
      }
      var rightEdgeOfFormation := position.x + 0.5 * width;
      var leftEdgeOfFormation := position.x - 0.5 * width;
      if leftEdgeOfFormation < xMin {
        movingRight := true;
      } else if rightEdgeOfFormation > xMax {
        movingRight := false;
      }
      respawned := AllMembersDead();
      again := false;
      if respawned {
        again := SpawnUntilFull();
      }
    }
  }

  /** A three-slot formation: `Start` spawns one enemy, and each of the two
      delayed calls spawns one more; the third spawn leaves no slot free,
      so nothing further is scheduled. */
  method ThreeSlotWave() returns (afterStart: bool, afterSecond: bool, afterThird: bool, occupied: nat)
    ensures afterStart && afterSecond && !afterThird
    ensures occupied == 3
  {
    var f := new FormationController(3, Vector3(0.0, 0.0, 0.0), DefaultWidth, DefaultSpeed, DefaultSpawnDelay);
    ghost var empty := EmptySlots(3);
    WaveFillsInOrder(3, 0, 0);
    WaveFillsInOrder(3, 0, 1);
    afterStart := f.Start(-8.0, 8.0);
    assert f.slots[..] == Wave(empty, 0, 1) && f.nextId == 1;
    WaveFillsInOrder(3, 0, 2);
    afterSecond := f.OnSpawnTimer();
    assert f.slots[..] == Wave(empty, 0, 2) && f.nextId == 2;
    WaveFillsInOrder(3, 0, 3);
    afterThird := f.OnSpawnTimer();
    assert f.slots[..] == Wave(empty, 0, 3);
    occupied := Occupied(f.slots[..]);
  }

  /** Two spawn chains can be pending at once: when the only enemy spawned
      so far is destroyed before the delayed step runs, the next `Update`
      sees every slot empty and starts a second chain. */
  method OverlappingChains() returns (pending: nat)
    ensures pending == 2
  {
    var f := new FormationController(2, Vector3(0.0, 0.0, 0.0), DefaultWidth, DefaultSpeed, DefaultSpawnDelay);
    WaveFillsInOrder(2, 0, 0);
    WaveFillsInOrder(2, 0, 1);
    var again := f.Start(-8.0, 8.0);
    assert f.slots[..] == Wave(EmptySlots(2), 0, 1);
    assert again && f.pendingSpawns == 1;
    f.ReleaseSlot(0);
    assert f.slots[..] == EmptySlots(2);
    ghost var id := f.nextId;
    WaveFillsInOrder(2, id, 1);
    var respawned;
    respawned, again := f.Update(0.02);
    assert f.slots[..] == Wave(EmptySlots(2), id, 1);
    pending := f.pendingSpawns;
  }
}
