/**
 * The movement system as its tests pin it down (d2core/d2systems/movement_test.go): a system
 * subscribed to every entity with a Position and a Velocity which, on a world update of one
 * second, adds the velocity to the position once. The system's own source is not part of this
 * model; what is modelled is the contract the tests assert, together with the part of the akara
 * world that registers systems and runs them. The tests drive no other time delta, and the
 * model takes the step to be the same for every delta.
 */
module Movement {
  import opened Components
  import opened Ecs

  /** The movement subscription: a Position and a Velocity. */
  const Moving := Filter({Position, Velocity}, {}, {})

  /** The position one step on: the current position plus the velocity. */
  function Advanced(c: Components): (p: Payload)
    requires Position in c && Velocity in c
    ensures WellFormed(p) && KindOf(p) == Position
  {
    PositionP(c[Position].px + c[Velocity].vx, c[Position].py + c[Velocity].vy)
  }

  /** One movement step on one entity: the position advances by the velocity. */
  function Step(c: Components): Components {
    if Position in c && Velocity in c then Put(c, Advanced(c)) else c
  }

  /** The store after entity `e` has taken one step. */
  function StepAt(s: Store, e: EID): Store {
    if e in s then s[e := Step(s[e])] else s
  }

  /** The store after the entities in `targets` have each taken one step. */
  function Moved(s: Store, targets: set<EID>): Store {
    map e | e in s :: if e in targets then Step(s[e]) else s[e]
  }

  /** One movement update: every entity of the subscription takes one step. */
  function Tick(s: Store): Store {
    Moved(s, Members(s, Moving))
  }

  /** The store after `n` movement updates, each over the subscription as it is at that update. */
  function Ticks(s: Store, n: nat): Store {
    if n == 0 then s else Tick(Ticks(s, n - 1))
  }

  /** `n` steps of one entity. */
  function Repeat(c: Components, n: nat): Components {
    if n == 0 then c else Step(Repeat(c, n - 1))
  }

  /**
   * A step advances the position by the velocity when the entity has both, changes nothing
   * else, and otherwise leaves the entity as it is; the entity keeps its kinds either way.
   */
  lemma StepEffect(c: Components)
    ensures Step(c).Keys == c.Keys
    ensures PositionOf(c).None? || VelocityOf(c).None? ==> Step(c) == c
    ensures VelocityOf(Step(c)) == VelocityOf(c)
    ensures PositionOf(c).Some? && VelocityOf(c).Some? ==>
      PositionOf(Step(c)) == Some((PositionOf(c).value.0 + VelocityOf(c).value.0,
                                   PositionOf(c).value.1 + VelocityOf(c).value.1))
    ensures forall k | k in c && k != Position :: Step(c)[k] == c[k]
  {
  }

  /**
   * The subscription is exactly the set of entities a step changes, so one update steps every
   * entity of the store.
   */
  lemma TickSteps(s: Store)
    ensures Tick(s).Keys == s.Keys
    ensures forall e | e in s :: Tick(s)[e] == Step(s[e])
  {
    forall e | e in s
      ensures Tick(s)[e] == Step(s[e])
    {
      if e !in Members(s, Moving) {
        StepEffect(s[e]);
      }
    }
  }

  /** Moving entities changes no subscription, since no entity gains or loses a kind. */
  lemma MovedKeepsSubscriptions(s: Store, targets: set<EID>, f: Filter)
    ensures Moved(s, targets).Keys == s.Keys
    ensures Members(Moved(s, targets), f) == Members(s, f)
  {
    forall e | e in s
      ensures Moved(s, targets)[e].Keys == s[e].Keys
    {
      StepEffect(s[e]);
    }
  }

  /** After `n` updates every entity has taken `n` steps. */
  lemma {:induction false} TicksRepeat(s: Store, n: nat)
    ensures Ticks(s, n).Keys == s.Keys
    ensures forall e | e in s :: Ticks(s, n)[e] == Repeat(s[e], n)
  {
    if n > 0 {
      TicksRepeat(s, n - 1);
      TickSteps(Ticks(s, n - 1));
    }
  }

  /** A coordinate after `n` steps of velocity `v`. */
  function Displaced(x: int, v: int, n: nat): int {
    if n == 0 then x else Displaced(x, v, n - 1) + v
  }

  /** `n` steps of velocity `v` move a coordinate by `n * v`. */
  lemma {:induction false} DisplacedLinear(x: int, v: int, n: nat)
    ensures Displaced(x, v, n) == x + n * v
  {
    if n > 0 {
      DisplacedLinear(x, v, n - 1);
      assert n * v == (n - 1) * v + v;
    }
  }

  /** One step of an entity at (x, y) with velocity (vx, vy) puts it at (x + vx, y + vy). */
  lemma StepMoves(c: Components, x: int, y: int, vx: int, vy: int)
    requires PositionOf(c) == Some((x, y)) && VelocityOf(c) == Some((vx, vy))
    ensures PositionOf(Step(c)) == Some((x + vx, y + vy)) && VelocityOf(Step(c)) == Some((vx, vy))
  {
  }

  /** `n` steps move an entity with a position and a velocity `n` times by its velocity. */
  lemma {:induction false} RepeatMoves(c: Components, n: nat, x: int, y: int, vx: int, vy: int)
    requires PositionOf(c) == Some((x, y)) && VelocityOf(c) == Some((vx, vy))
    ensures PositionOf(Repeat(c, n)) == Some((Displaced(x, vx, n), Displaced(y, vy, n)))
    ensures VelocityOf(Repeat(c, n)) == Some((vx, vy))
  {
    if n > 0 {
      RepeatMoves(c, n - 1, x, y, vx, vy);
      var before := Repeat(c, n - 1);
      StepMoves(before, Displaced(x, vx, n - 1), Displaced(y, vy, n - 1), vx, vy);
      assert Repeat(c, n) == Step(before);
    }
  }

  /**
   * After `n` updates an entity at (x, y) with velocity (vx, vy) is at (x, y) displaced `n` times
   * by (vx, vy) (DisplacedLinear: at (x + n * vx, y + n * vy)) and keeps its velocity.
   */
  lemma TicksMove(s: Store, n: nat, e: EID, x: int, y: int, vx: int, vy: int)
    requires e in s && PositionOf(s[e]) == Some((x, y)) && VelocityOf(s[e]) == Some((vx, vy))
    ensures e in Ticks(s, n)
    ensures PositionOf(Ticks(s, n)[e]) == Some((Displaced(x, vx, n), Displaced(y, vy, n)))
    ensures VelocityOf(Ticks(s, n)[e]) == Some((vx, vy))
  {
    TicksRepeat(s, n);
    RepeatMoves(s[e], n, x, y, vx, vy);
  }

  /** Updates change no subscription: the same entities keep moving. */
  lemma {:induction false} TicksKeepSubscriptions(s: Store, n: nat, f: Filter)
    ensures Members(Ticks(s, n), f) == Members(s, f)
    ensures Ticks(s, n).Keys == s.Keys
  {
    if n > 0 {
      TicksKeepSubscriptions(s, n - 1, f);
      var t := Ticks(s, n - 1);
      MovedKeepsSubscriptions(t, Members(t, Moving), f);
    }
  }

  class MovementSystem {
    var world: World?
    var active: bool

    /** NewMovementSystem: not yet part of a world, and inactive. */
    constructor ()
      ensures world == null && !active
    {
      world, active := null, false;
    }

    function Active(): bool
      reads this
    {
      active
    }

    method SetActive(b: bool)
      modifies this`active
      ensures active == b
    {
      active := b;
    }

    /** Registration with a world: the world initialises the system and activates it. */
    method Init(w: World)
      modifies this`world, this`active
      ensures world == w && active
    {
      world := w;
      active := true;
    }

    /** AddPosition: a zero position for `e`. */
    method AddPosition(e: EID)
      requires world != null && world.Valid() && e < world.nextId
      modifies world`comps
      ensures world.Valid()
      ensures world.comps == AddTo(old(world.comps), e, PositionP(0, 0))
    {
      world.AddComponent(e, PositionP(0, 0));
    }

    /** AddVelocity: a zero velocity for `e`. */
    method AddVelocity(e: EID)
      requires world != null && world.Valid() && e < world.nextId
      modifies world`comps
      ensures world.Valid()
      ensures world.comps == AddTo(old(world.comps), e, VelocityP(0, 0))
    {
      world.AddComponent(e, VelocityP(0, 0));
    }

    function GetPosition(e: EID): Option<(int, int)>
      requires world != null
      reads this, world
    {
      if e in world.comps then PositionOf(world.comps[e]) else None
    }

    function GetVelocity(e: EID): Option<(int, int)>
      requires world != null
      reads this, world
    {
      if e in world.comps then VelocityOf(world.comps[e]) else None
    }

    /** Update: every subscribed entity's position advances by its velocity, once. */
    method Update()
      requires world != null && world.Valid()
      modifies world`comps
      ensures world.Valid()
      ensures world.comps == Tick(old(world.comps))
    {
      MoveSubscribed(world);
    }
  }

  /** The loop of MovementSystem.Update over the subscription of world `w`. */
  method MoveSubscribed(w: World)
    requires w.Valid()
    modifies w`comps
    ensures w.Valid()
    ensures w.comps == Tick(old(w.comps))
  {
    ghost var start := w.comps;
    var todo := w.Subscription(Moving);
    ghost var targets := todo;
    while todo != {}
      invariant w.Valid() && todo <= targets
      invariant MovedExcept(w.comps, start, targets, todo)
      decreases todo
    {
      var e :| e in todo;
      MovedOneMore(w.comps, start, targets, todo, e);
      MoveEntity(w, e);
      todo := todo - {e};
    }
    MovedAll(w.comps, start, targets);
  }

  /** `cur` is `start` with the entities of `targets` not in `todo` moved. */
  ghost predicate MovedExcept(cur: Store, start: Store, targets: set<EID>, todo: set<EID>) {
    && cur.Keys == start.Keys
    && forall e | e in start :: cur[e] == if e in targets && e !in todo then Step(start[e]) else start[e]
  }

  lemma MovedOneMore(cur: Store, start: Store, targets: set<EID>, todo: set<EID>, e: EID)
    requires MovedExcept(cur, start, targets, todo) && e in todo && todo <= targets
    ensures MovedExcept(StepAt(cur, e), start, targets, todo - {e})
  {
  }

  lemma MovedAll(cur: Store, start: Store, targets: set<EID>)
    requires MovedExcept(cur, start, targets, {})
    ensures cur == Moved(start, targets)
  {
  }

  /** One iteration of the loop: `e`'s position advances by its velocity, if it has both. */
  method MoveEntity(w: World, e: EID)
    requires w.Valid()
    modifies w`comps
    ensures w.Valid() && w.comps == StepAt(old(w.comps), e)
  {
    if e !in w.comps {
      return;
    }
    var c := w.comps[e];
    if Position !in c || Velocity !in c {
      return;
    }
    w.AddComponent(e, Advanced(c));
  }

  /** How many of `systems` are active. */
  function ActiveCount(systems: seq<MovementSystem>): nat
    reads set s | s in systems
  {
    if systems == [] then 0
    else ActiveCount(systems[..|systems| - 1]) + if systems[|systems| - 1].active then 1 else 0
  }

  /** Counting one more system adds one when it is active. */
  lemma ActiveCountGrows(systems: seq<MovementSystem>, i: nat)
    requires i < |systems|
    ensures ActiveCount(systems[..i + 1]) == ActiveCount(systems[..i]) + if systems[i].active then 1 else 0
  {
    assert systems[..i + 1][..i] == systems[..i];
  }

  /** The part of an akara world that holds the registered systems and runs them on each update. */
  class Scheduler {
    const world: World
    var systems: seq<MovementSystem>

    ghost predicate Valid()
      reads this, world, set s | s in systems
    {
      && world.Valid()
      && forall s | s in systems :: s.world == world
    }

    /** NewWorld: an empty store and no systems. */
    constructor ()
      ensures fresh(world) && Valid()
      ensures world.comps == map[] && world.nextId == 0 && systems == []
    {
      world := new World();
      systems := [];
    }

    /** Registers `s` (WorldConfig.With, then NewWorld): it is initialised and runs after the others. */
    method With(s: MovementSystem)
      requires Valid()
      modifies this`systems, s`world, s`active
      ensures Valid()
      ensures systems == old(systems) + [s] && s.world == world && s.active
    {
      s.Init(world);
      systems := systems + [s];
    }

    /** World.Update: records the time delta and runs every active system once, in order. */
    method Update(timeDelta: Duration)
      requires Valid()
      modifies world`comps, world`timeDelta
      ensures Valid() && world.timeDelta == timeDelta
      ensures world.comps == Ticks(old(world.comps), ActiveCount(systems))
    {
      world.timeDelta := timeDelta;
      ghost var start := world.comps;
      ghost var n := 0;
      for i := 0 to |systems|
        invariant Valid() && world.timeDelta == timeDelta
        invariant n == ActiveCount(systems[..i]) && world.comps == Ticks(start, n)
      {
        ActiveCountGrows(systems, i);
        var sys := systems[i];
        assert sys.world == world;
        if sys.Active() {
          sys.Update();
          n := n + 1;
        }
      }
      assert systems[..|systems|] == systems;
    }
  }

  /** TestMovementSystem_Init: a world configured with one system holds exactly one. */
  method RegisterOne() returns (registered: nat)
    ensures registered == 1
  {
    var scheduler, sys := OneSystemWorld();
    registered := |scheduler.systems|;
  }

  /** TestMovementSystem_Active and TestMovementSystem_SetActive: inactive at creation and after SetActive(false). */
  method ActivityAtCreation() returns (atCreation: bool, afterSetInactive: bool)
    ensures !atCreation && !afterSetInactive
  {
    var sys := new MovementSystem();
    atCreation := sys.Active();
    var other := new MovementSystem();
    other.SetActive(false);
    afterSetInactive := other.Active();
  }

  /** The components of an entity with position (px, py) and velocity (vx, vy). */
  function Fitted(px: int, py: int, vx: int, vy: int): Components {
    map[Position := PositionP(px, py), Velocity := VelocityP(vx, vy)]
  }

  /** Adding the zero components and then setting them gives the set values. */
  lemma AddThenSet(s0: Store, s1: Store, s2: Store, s3: Store, s4: Store, e: EID, px: int, py: int, vx: int, vy: int)
    requires s0 == map[e := map[]]
    requires s1 == AddTo(s0, e, PositionP(0, 0)) && s2 == AddTo(s1, e, VelocityP(0, 0))
    requires s3 == AddTo(s2, e, PositionP(px, py)) && s4 == AddTo(s3, e, VelocityP(vx, vy))
    ensures s4 == map[e := Fitted(px, py, vx, vy)]
  {
    var c1 := Put(map[], PositionP(0, 0));
    assert s1 == map[e := c1];
    var c2 := Put(c1, VelocityP(0, 0));
    assert s2 == map[e := c2];
    var c3 := Put(c2, PositionP(px, py));
    assert s3 == map[e := c3];
    var c4 := Put(c3, VelocityP(vx, vy));
    assert s4 == map[e := c4];
    assert c4.Keys == {Position, Velocity};
    assert c4 == Fitted(px, py, vx, vy);
  }

  /**
   * The set-up both tests share: a world with one movement system and one entity whose position
   * component was added and then set to (px, py), and whose velocity was added and set to (vx, vy).
   */
  method NewMovingWorld(px: int, py: int, vx: int, vy: int) returns (scheduler: Scheduler, sys: MovementSystem, e: EID)
    ensures fresh(scheduler) && fresh(scheduler.world) && fresh(sys)
    ensures scheduler.Valid() && scheduler.systems == [sys] && sys.world == scheduler.world && sys.active
    ensures scheduler.world.comps == map[e := Fitted(px, py, vx, vy)]
  {
    scheduler, sys := OneSystemWorld();
    e := AddMovingEntity(sys, px, py, vx, vy);
  }

  /** A new entity in an empty world, given a position and a velocity through the system. */
  method AddMovingEntity(sys: MovementSystem, px: int, py: int, vx: int, vy: int) returns (e: EID)
    requires sys.world != null && sys.world.comps == map[] && sys.world.nextId == 0
    modifies sys.world`comps, sys.world`nextId
    ensures sys.world.Valid() && sys.world.comps == map[e := Fitted(px, py, vx, vy)]
  {
    var world := sys.world;
    e := world.NewEntity();
    ghost var s0 := world.comps;
    sys.AddPosition(e);
    ghost var s1 := world.comps;
    sys.AddVelocity(e);
    ghost var s2 := world.comps;
    world.AddComponent(e, PositionP(px, py));
    ghost var s3 := world.comps;
    world.AddComponent(e, VelocityP(vx, vy));
    AddThenSet(s0, s1, s2, s3, world.comps, e, px, py, vx, vy);
  }

  /** A new world configured with one new movement system. */
  method OneSystemWorld() returns (scheduler: Scheduler, sys: MovementSystem)
    ensures fresh(scheduler) && fresh(scheduler.world) && fresh(sys)
    ensures scheduler.Valid() && scheduler.systems == [sys] && sys.world == scheduler.world && sys.active
    ensures scheduler.world.comps == map[] && scheduler.world.nextId == 0
  {
    scheduler := new Scheduler();
    sys := new MovementSystem();
    scheduler.With(sys);
  }

  /**
   * TestMovementSystem_EntityAdded: an entity given a position and a velocity is the one entity
   * of the subscription, and the values read back as set.
   */
  method EntityAdded(px: int, py: int, vx: int, vy: int)
    returns (subscribed: set<EID>, e: EID, position: Option<(int, int)>, velocity: Option<(int, int)>)
    ensures subscribed == {e}
    ensures position == Some((px, py)) && velocity == Some((vx, vy))
  {
    var scheduler, sys;
    scheduler, sys, e := NewMovingWorld(px, py, vx, vy);
    subscribed := scheduler.world.Subscription(Moving);
    assert Fitted(px, py, vx, vy).Keys == {Position, Velocity};
    position := sys.GetPosition(e);
    velocity := sys.GetVelocity(e);
  }

  /** time.Second, in nanoseconds. */
  const Second: Duration := 1_000_000_000

  /** TestMovementSystem_Update: one world update of one second moves the entity by its velocity. */
  method OneUpdate(px: int, py: int, vx: int, vy: int)
    returns (position: Option<(int, int)>)
    ensures position == Some((px + vx, py + vy))
  {
    var scheduler, sys, e := NewMovingWorld(px, py, vx, vy);
    ghost var before := scheduler.world.comps;
    assert ActiveCount(scheduler.systems) == 1 by {
      assert scheduler.systems[..0] == [];
    }
    scheduler.Update(Second);
    TicksMove(before, 1, e, px, py, vx, vy);
    position := sys.GetPosition(e);
  }
}
