/**
 * Keyed entities and the two-tier state that caches them (`BaseObject` and the state
 * operations it calls).
 *
 * A state maps normalised keys to live entities and keeps a second, recycle tier of
 * entities that were uncached, so that they can be revived. An entity moves itself
 * between the tiers: `Cache` asks the state to take it (the state's policy may refuse)
 * and, when taken, removes its key from the recycle tier; `Uncache` removes it from the
 * live tier and recycles it; `Delete` marks it deleted and then uncaches it.
 */
module Cache {
  import opened Wrappers
  import opened Values
  import Templates

  /** The kind-specific data of an entity kind that adds nothing to the base object. */
  datatype Plain = Plain

  /** The template reads attribute `id` from wire key `idKey`, and from no other key. */
  ghost predicate KeyedBy(t: Templates.Template, idKey: string)
  {
    && Templates.Field("id", idKey) in t.fields
    && forall f :: f in t.fields && f.attr == "id" ==> f.wireKey == idKey
  }

  /** An entity's mutable state taken as one value, so that "unchanged" is one equation. */
  datatype Snapshot<D> = Snapshot(attrs: Record, ext: D, cached: bool, deleted: bool,
                                  deletedAt: Option<Instant>)

  /** The ids a record names under `key`: its value there, or none. */
  function Ids(data: Record, key: string): (ids: set<Value>)
    ensures ids == (if key in data then {data[key]} else {})
  {
    if key in data then {data[key]} else {}
  }

  /** The ids a related value names under `key`: none unless it is a record. */
  function RecordIds(v: Value, key: string): (ids: set<Value>)
    ensures ids == (if v.PyDict? && key in v.entries then {v.entries[key]} else {})
  {
    if v.PyDict? then Ids(v.entries, key) else {}
  }

  /** The entities a live tier holds under the keys of `ids`: those a get-or-create of
      these ids may update in place. */
  ghost function HeldBy<D>(live: map<Value, Entity<D>>, keyOf: Value -> Value, ids: set<Value>): set<Entity<D>>
  {
    set id | id in ids && keyOf(id) in live :: live[keyOf(id)]
  }

  /** The live tier only gained keys, each holding an entity that was not among `repr0`. */
  ghost predicate Grows<D>(live0: map<Value, Entity<D>>, live1: map<Value, Entity<D>>, repr0: set<Entity<D>>)
  {
    && (forall k :: k in live0 ==> k in live1 && live1[k] == live0[k])
    && (forall k :: k in live1 && k !in live0 ==> live1[k] !in repr0)
  }

  /** Every entity of snapshot `s0` outside `held` is in `s1` with the same state. */
  ghost predicate SnapsAgree<D>(s0: map<Entity<D>, Snapshot<D>>, s1: map<Entity<D>, Snapshot<D>>,
                                held: set<Entity<D>>)
  {
    forall e :: e in s0 && e !in held ==> e in s1 && s1[e] == s0[e]
  }

  /** Growth composes. */
  lemma GrowsThen<D>(live0: map<Value, Entity<D>>, live1: map<Value, Entity<D>>, live2: map<Value, Entity<D>>,
                     repr0: set<Entity<D>>, repr1: set<Entity<D>>)
    requires Grows(live0, live1, repr0) && Grows(live1, live2, repr1) && repr0 <= repr1
    ensures Grows(live0, live2, repr0)
  {
  }

  /** A state none of whose objects changed shows the same snapshots. */
  twostate lemma SnapsKept<D>(s: State<D>)
    requires old(allocated(s)) && unchanged(s) && unchanged(old(s.Repr))
    ensures s.Snaps() == old(s.Snaps())
  {
  }

  /** Two get-or-creates in a row on one state: an entity that neither may update, judged
      by the live tier before the first, keeps its state. The second can reach only
      entities live before the first, or entities new to the state. */
  lemma AgreeThen<D>(s0: map<Entity<D>, Snapshot<D>>, s1: map<Entity<D>, Snapshot<D>>,
                     s2: map<Entity<D>, Snapshot<D>>, live0: map<Value, Entity<D>>,
                     live1: map<Value, Entity<D>>, keyOf: Value -> Value, a: set<Value>, b: set<Value>)
    requires Grows(live0, live1, s0.Keys)
    requires SnapsAgree(s0, s1, HeldBy(live0, keyOf, a))
    requires SnapsAgree(s1, s2, HeldBy(live1, keyOf, b))
    ensures SnapsAgree(s0, s2, HeldBy(live0, keyOf, a + b))
  {
  }

  class State<D> {
    /** The key transformer applied to every key before the maps are consulted. */
    const keyOf: Value -> Value
    /** Whether `set` accepts an entity under a (normalised) key, given whether a
        different entity occupies that key in the live tier. */
    const admits: (Value, bool) -> bool
    /** The template of the entities this state holds. */
    const template: Templates.Template
    /** The wire key a record's entity is looked up by. */
    const idKey: string

    var live: map<Value, Entity<D>>
    var recycled: map<Value, Entity<D>>
    /** Every entity this state has held in its live tier. */
    ghost var Repr: set<Entity<D>>

    /** The live tier holds only entities of this state, and the template gives each
        entity the id it is looked up by. */
    ghost predicate Valid()
      reads this
    {
      && live.Values <= Repr
      && (forall e | e in Repr :: e.state == this)
      && KeyedBy(template, idKey)
    }

    /** The state of every entity this state has held. */
    ghost function Snaps(): (m: map<Entity<D>, Snapshot<D>>)
      reads this, Repr
      ensures m.Keys == Repr
    {
      map e | e in Repr :: e.Snap()
    }

    /** A key is in at most one of the two tiers. */
    ghost predicate Tiered()
      reads this
    {
      live.Keys !! recycled.Keys
    }

    constructor(keyOf: Value -> Value, admits: (Value, bool) -> bool,
                template: Templates.Template, idKey: string)
      requires KeyedBy(template, idKey)
      ensures Valid() && Tiered()
      ensures this.keyOf == keyOf && this.admits == admits
      ensures this.template == template && this.idKey == idKey
      ensures live == map[] && recycled == map[] && Repr == {}
    {
      this.keyOf := keyOf;
      this.admits := admits;
      this.template := template;
      this.idKey := idKey;
      live := map[];
      recycled := map[];
      Repr := {};
    }

    /** `get(key)`: the live entity under the normalised key; recycled ones are invisible. */
    function Get(key: Value): (r: Option<Entity<D>>)
      reads this
      ensures r.Some? <==> keyOf(key) in live
      ensures r.Some? ==> r.value == live[keyOf(key)]
      ensures r.Some? ==> keyOf(key) !in recycled || !Tiered()
    {
      var k := keyOf(key);
      if k in live then Some(live[k]) else None
    }

    /** `set(key, e)`: puts `e` in the live tier when the policy accepts it, and says whether it did. */
    method Set(key: Value, e: Entity<D>) returns (ok: bool)
      requires Valid() && e.state == this
      modifies this
      ensures Valid()
      ensures var k := keyOf(key);
        && ok == admits(k, k in old(live) && old(live)[k] != e)
        && live == (if ok then old(live)[k := e] else old(live))
      ensures recycled == old(recycled)
      ensures Repr == old(Repr) + (if ok then {e} else {})
    {
      var k := keyOf(key);
      ok := admits(k, k in live && live[k] != e);
      if ok {
        live := live[k := e];
        Repr := Repr + {e};
      }
    }

    /** `pop(key, None)`: removes the key from the live tier and returns what it held. */
    method Pop(key: Value) returns (r: Option<Entity<D>>)
      requires Valid()
      modifies this
      ensures Valid() && Repr == old(Repr)
      ensures r == old(Get(key))
      ensures live == old(live) - {keyOf(key)}
      ensures recycled == old(recycled)
    {
      r := Get(key);
      live := live - {keyOf(key)};
    }

    /** `recycle(key, e)`: puts `e` in the recycle tier, replacing any previous occupant. */
    method Recycle(key: Value, e: Entity<D>)
      requires Valid()
      modifies this
      ensures Valid() && Repr == old(Repr)
      ensures recycled == old(recycled)[keyOf(key) := e]
      ensures live == old(live)
    {
      recycled := recycled[keyOf(key) := e];
    }

    /** `unrecycle(key, None)`: removes the key from the recycle tier and returns what it held. */
    method Unrecycle(key: Value) returns (r: Option<Entity<D>>)
      requires Valid()
      modifies this
      ensures Valid() && Repr == old(Repr)
      ensures var k := keyOf(key);
        r == if k in old(recycled) then Some(old(recycled)[k]) else None
      ensures recycled == old(recycled) - {keyOf(key)}
      ensures live == old(live)
    {
      var k := keyOf(key);
      r := if k in recycled then Some(recycled[k]) else None;
      recycled := recycled - {k};
    }

    /** The get-or-create of a kind whose `update` is the template's: an entity already
        live under the record's key is updated in place; otherwise a fresh one is decoded
        from the record and cached. A record without the key raises `KeyError` first. */
    method New(data: Record, blank: D) returns (r: Result<Entity<D>, Error>)
      requires Valid()
      modifies this, Repr
      ensures Valid() && fresh(Repr - old(Repr))
      ensures idKey !in data ==> r == Failure(KeyError) && live == old(live) && recycled == old(recycled)
      ensures idKey in data ==> r.Success? && r.value.state == this && r.value.Id() == data[idKey]
      ensures forall e :: e in old(Repr) && (r.Failure? || e != r.value) ==>
        && e.attrs == old(e.attrs) && e.ext == old(e.ext)
        && e.cached == old(e.cached) && e.deleted == old(e.deleted) && e.deletedAt == old(e.deletedAt)
      ensures idKey in data && keyOf(data[idKey]) in old(live) ==>
        && r.value == old(live[keyOf(data[idKey])])
        && r.value.attrs == Templates.Update(template, old(r.value.attrs), data)
        && r.value.ext == old(r.value.ext) && r.value.cached == old(r.value.cached)
        && r.value.deleted == old(r.value.deleted) && r.value.deletedAt == old(r.value.deletedAt)
        && live == old(live) && recycled == old(recycled)
      ensures idKey in data && keyOf(data[idKey]) !in old(live) ==>
        && fresh(r.value)
        && r.value.attrs == Templates.Unmarshal(template, data)
        && r.value.ext == blank && !r.value.deleted && r.value.deletedAt == None
        && FreshlyCached(old(live), old(recycled), r.value, keyOf(data[idKey]))
      ensures Grows(old(live), live, old(Repr))
      ensures SnapsAgree(old(Snaps()), Snaps(), HeldBy(old(live), keyOf, Ids(data, idKey)))
    {
      if idKey !in data {
        return Failure(KeyError);
      }
      var found := Get(data[idKey]);
      if found.Some? {
        var e := found.value;
        e.Update(data);
        Templates.UpdateReads(template, old(e.attrs), data, "id", idKey);
        r := Success(e);
      } else {
        var e := new Entity(this, blank);
        e.Update(data);
        Templates.UpdateReads(template, map[], data, "id", idKey);
        e.Cache();
        r := Success(e);
      }
    }

    /** What caching an entity that was not live under key `k` leaves behind: it is
        cached exactly when the policy admits it, and then it is live and not recycled. */
    ghost predicate FreshlyCached(live0: map<Value, Entity<D>>, recycled0: map<Value, Entity<D>>,
                                  e: Entity<D>, k: Value)
      reads this, e
    {
      && e.cached == admits(k, false)
      && live == (if e.cached then live0[k := e] else live0)
      && recycled == (if e.cached then recycled0 - {k} else recycled0)
    }
  }

  class Entity<D> {
    /** The owning state, fixed for the entity's lifetime. */
    const state: State<D>
    /** The template-held attributes, `id` among them. */
    var attrs: Record
    var cached: bool
    var deleted: bool
    var deletedAt: Option<Instant>
    /** The attributes particular to the entity's kind. */
    var ext: D

    /** A fresh object: no id, not cached, not deleted, bound to `state`. */
    constructor(state: State<D>, ext: D)
      ensures this.state == state && this.ext == ext
      ensures attrs == map[] && Id() == PyNone
      ensures !cached && !deleted && deletedAt == None
    {
      this.state := state;
      this.ext := ext;
      attrs := map[];
      cached := false;
      deleted := false;
      deletedAt := None;
    }

    /** Everything about the entity that an operation may change. */
    ghost function Snap(): Snapshot<D>
      reads this
    {
      Snapshot(attrs, ext, cached, deleted, deletedAt)
    }

    /** The `id` attribute; `None` while the object is partial. */
    function Id(): Value
      reads this`attrs
    {
      Get(attrs, "id")
    }

    /** `hash(obj)`: `PartialObjectError` while the id is `None`, otherwise the hash of the id. */
    function Hash(hash: Value -> int): (r: Result<int, Error>)
      reads this
      ensures r.Failure? <==> Id() == PyNone
      ensures r.Failure? ==> r.error == PartialObjectError
      ensures r.Success? ==> r.value == hash(Id())
    {
      if Id() == PyNone then Failure(PartialObjectError) else Success(hash(Id()))
    }

    /** The template's `update(data)`: overwrites the attributes whose wire keys `data` holds. */
    method Update(data: Record)
      modifies this`attrs
      ensures attrs == Templates.Update(state.template, old(attrs), data)
    {
      attrs := Templates.Update(state.template, attrs, data);
    }

    /** `cache()`: `cached` becomes whatever `set` answered; when it accepted, the key
        also leaves the recycle tier. Nothing but `cached` changes on the entity. */
    method Cache()
      requires state.Valid()
      modifies this`cached, state
      ensures state.Valid() && state.Repr == old(state.Repr) + (if cached then {this} else {})
      ensures var k := state.keyOf(Id());
        && cached == state.admits(k, k in old(state.live) && old(state.live)[k] != this)
        && state.live == (if cached then old(state.live)[k := this] else old(state.live))
        && state.recycled == (if cached then old(state.recycled) - {k} else old(state.recycled))
      ensures cached ==> state.Get(Id()) == Some(this) && state.keyOf(Id()) !in state.recycled
      ensures old(state.Tiered()) ==> state.Tiered()
      ensures attrs == old(attrs) && ext == old(ext) && deleted == old(deleted) && deletedAt == old(deletedAt)
    {
      cached := state.Set(Id(), this);
      if cached {
        var _ := state.Unrecycle(Id());
      }
    }

    /** `uncache()`: not cached, the key gone from the live tier, and this entity in the
        recycle tier under it. */
    method Uncache()
      requires state.Valid()
      modifies this`cached, state
      ensures state.Valid() && state.Repr == old(state.Repr)
      ensures !cached
      ensures state.live == old(state.live) - {state.keyOf(Id())}
      ensures state.recycled == old(state.recycled)[state.keyOf(Id()) := this]
      ensures state.Get(Id()) == None
      ensures old(state.Tiered()) ==> state.Tiered()
    {
      cached := false;
      var _ := state.Pop(Id());
      state.Recycle(Id(), this);
    }

    /** `_delete()`: marks the entity deleted at `now`, then uncaches it. */
    method Delete(now: Instant)
      requires state.Valid()
      modifies this`cached, this`deleted, this`deletedAt, state
      ensures state.Valid() && state.Repr == old(state.Repr)
      ensures deleted && deletedAt == Some(now) && !cached
      ensures state.live == old(state.live) - {state.keyOf(Id())}
      ensures state.recycled == old(state.recycled)[state.keyOf(Id()) := this]
      ensures old(state.Tiered()) ==> state.Tiered()
    {
      deleted := true;
      deletedAt := Some(now);
      Uncache();
    }
  }

  /** Deleting and then caching again under an accepting policy revives the entity in the
      live tier, but leaves it marked deleted: `cache()` never resets `deleted`. */
  method DeleteThenCache(e: Entity<Plain>, now: Instant)
    requires e.state.Valid()
    requires forall k, b :: e.state.admits(k, b)
    modifies e, e.state
    ensures e.cached && e.deleted && e.deletedAt == Some(now)
    ensures e.state.Get(e.Id()) == Some(e)
    ensures e.state.keyOf(e.Id()) !in e.state.recycled
  {
    e.Delete(now);
    e.Cache();
  }

  /** `state.append(v)`, the get-or-create of a related record: `TypeError` unless `v` is a
      record, `KeyError` unless it holds the state's id key, and otherwise `new` of the
      record: the entity live under that id (updated) or a fresh one. Only that entity
      changes. */
  method Append(s: State<Plain>, v: Value) returns (r: Result<Entity<Plain>, Error>)
    requires s.Valid()
    modifies s, s.Repr
    ensures s.Valid() && fresh(s.Repr - old(s.Repr))
    ensures !v.PyDict? ==> r == Failure(TypeError)
    ensures v.PyDict? && s.idKey !in v.entries ==> r == Failure(KeyError)
    ensures v.PyDict? && s.idKey in v.entries ==>
      r.Success? && r.value.state == s && r.value.Id() == v.entries[s.idKey]
    ensures v.PyDict? && s.idKey in v.entries && s.keyOf(v.entries[s.idKey]) in old(s.live) ==>
      && r.value == old(s.live[s.keyOf(v.entries[s.idKey])])
      && r.value.attrs == Templates.Update(s.template, old(r.value.attrs), v.entries)
      && r.value.ext == old(r.value.ext) && r.value.cached == old(r.value.cached)
      && r.value.deleted == old(r.value.deleted) && r.value.deletedAt == old(r.value.deletedAt)
      && s.live == old(s.live) && s.recycled == old(s.recycled)
    ensures v.PyDict? && s.idKey in v.entries && s.keyOf(v.entries[s.idKey]) !in old(s.live) ==>
      && fresh(r.value)
      && r.value.attrs == Templates.Unmarshal(s.template, v.entries)
      && r.value.ext == Plain && !r.value.deleted && r.value.deletedAt == None
      && s.FreshlyCached(old(s.live), old(s.recycled), r.value, s.keyOf(v.entries[s.idKey]))
    ensures Grows(old(s.live), s.live, old(s.Repr))
    ensures SnapsAgree(old(s.Snaps()), s.Snaps(), HeldBy(old(s.live), s.keyOf, RecordIds(v, s.idKey)))
  {
    var rec := AsRecord(v);
    if rec.Failure? {
      return Failure(rec.error);
    }
    r := s.New(rec.value, Plain);
  }
}
