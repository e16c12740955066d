/**
 * The entity/component store (the akara World) as the systems see it.
 *
 * The library itself is not part of this model; what it promises the systems is modelled:
 * entities are issued once, a component map holds at most one component per kind and entity,
 * and a subscription holds exactly the entities whose component kinds match its filter.
 */
module Ecs {
  import opened Components

  type EID = nat

  /** time.Duration: a signed 64-bit count of nanoseconds. */
  type Duration = x: int | -0x8000_0000_0000_0000 <= x < 0x8000_0000_0000_0000

  /** Require all of `require`, none of `forbid`, and (when it is non-empty) one of `requireOne`. */
  datatype Filter = Filter(require: set<Kind>, forbid: set<Kind>, requireOne: set<Kind>)

  predicate Matches(f: Filter, kinds: set<Kind>) {
    && f.require <= kinds
    && f.forbid !! kinds
    && (f.requireOne != {} ==> f.requireOne * kinds != {})
  }

  /** All component maps together: entity ID to the components it holds. */
  type Store = map<EID, Components>

  /** The entities a subscription with filter `f` holds. */
  function Members(s: Store, f: Filter): set<EID> {
    set e | e in s && Matches(f, s[e].Keys)
  }

  /** addComponent: inserts, or overwrites the component of the same kind. */
  function AddTo(s: Store, e: EID, p: Payload): Store
    requires WellFormed(p)
  {
    s[e := Put(if e in s then s[e] else map[], p)]
  }

  /** Adding two components of the same kind leaves the second. */
  lemma AddTwice(s: Store, e: EID, p: Payload, q: Payload)
    requires WellFormed(p) && WellFormed(q) && KindOf(p) == KindOf(q)
    ensures AddTo(AddTo(s, e, p), e, q) == AddTo(s, e, q)
  {
    var c: Components := if e in s then s[e] else map[];
    assert Put(Put(c, p), q) == Put(c, q);
  }

  /** Adding to an entity whose components were just set adds to those components. */
  lemma AddAfterSet(s: Store, e: EID, c: Components, p: Payload)
    requires WellFormed(p)
    ensures AddTo(s[e := c], e, p) == s[e := Put(c, p)]
  {
    var l := AddTo(s[e := c], e, p);
    var r := s[e := Put(c, p)];
    assert l.Keys == r.Keys;
    assert forall x | x in l :: l[x] == r[x];
  }

  /** removeEntity: the entity leaves every component map. */
  function Erase(s: Store, e: EID): Store {
    s - {e}
  }

  /**
   * Adding a component re-evaluates only the entity it is added to: that entity is a member
   * exactly when its old kinds plus the new kind match, and every other membership is unchanged.
   */
  lemma AddMembership(s: Store, e: EID, p: Payload, f: Filter)
    requires WellFormed(p)
    ensures var kinds := if e in s then s[e].Keys else {};
      e in Members(AddTo(s, e, p), f) <==> Matches(f, kinds + {KindOf(p)})
    ensures Members(AddTo(s, e, p), f) - {e} == Members(s, f) - {e}
  {
  }

  /** A removed entity is in no subscription, and every other membership stays. */
  lemma EraseMembership(s: Store, e: EID, f: Filter)
    ensures e !in Members(Erase(s, e), f)
    ensures Members(Erase(s, e), f) == Members(s, f) - {e}
  {
  }

  class World {
    var comps: Store
    var nextId: nat
    var timeDelta: Duration

    /** Every entity the store knows was issued by NewEntity. */
    ghost predicate Valid()
      reads this
    {
      forall e | e in comps :: e < nextId
    }

    constructor ()
      ensures Valid() && comps == map[] && nextId == 0 && timeDelta == 0
    {
      comps, nextId, timeDelta := map[], 0, 0;
    }

    function Subscription(f: Filter): set<EID>
      reads this
    {
      Members(comps, f)
    }

    /** Issues an ID never issued before; the new entity has no components. */
    method NewEntity() returns (e: EID)
      requires Valid()
      modifies this`comps, this`nextId
      ensures Valid()
      ensures e == old(nextId) && nextId == e + 1 && e !in old(comps)
      ensures comps == old(comps)[e := map[]]
    {
      e := nextId;
      comps := comps[e := map[]];
      nextId := nextId + 1;
    }

    method AddComponent(e: EID, p: Payload)
      requires Valid() && e < nextId && WellFormed(p)
      modifies this`comps
      ensures Valid()
      ensures comps == AddTo(old(comps), e, p)
    {
      comps := AddTo(comps, e, p);
    }

    method RemoveEntity(e: EID)
      requires Valid()
      modifies this`comps
      ensures Valid()
      ensures comps == Erase(old(comps), e)
    {
      comps := Erase(comps, e);
    }
  }
}
