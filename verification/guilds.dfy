/**
 * Guilds: the guild state's get-or-create, the guild's channel merge on update, guild
 * bans and their user rewiring, and the argument building of the guild requests
 * (bulk fetch, create, prune). Requests themselves are not made: a method that would
 * issue one returns the request it would send, and takes the reply as a parameter.
 */
module Guilds {
  import opened Wrappers
  import opened Values
  import Templates
  import opened Cache

  /** The channel state of one guild: a view onto the client's channel state that
      remembers the keys of the guild's channels. It lives inside its guild, which is
      the guild it belongs to. */
  datatype GuildChannelState = GuildChannelState(superstate: State<Plain>, keys: set<Value>)

  /** What a guild holds besides its template attributes. */
  datatype GuildData = GuildData(channels: GuildChannelState)

  /** `Guild(state=state)`: a fresh base object with a channel state of its own, bound to
      the client's channel state and holding no channel keys. */
  method NewGuild(state: State<GuildData>, channels: State<Plain>) returns (g: Entity<GuildData>)
    ensures fresh(g)
    ensures g.state == state && g.attrs == map[] && !g.cached && !g.deleted && g.deletedAt == None
    ensures g.ext.channels == GuildChannelState(channels, {})
    ensures state.Snaps() == old(state.Snaps()) && channels.Snaps() == old(channels.Snaps())
  {
    g := new Entity(state, GuildData(GuildChannelState(channels, {})));
  }

  /** Every item is a record holding wire key `key`. */
  predicate AllKeyed(items: seq<Value>, key: string)
  {
    forall i :: 0 <= i < |items| ==> items[i].PyDict? && key in items[i].entries
  }

  /** The ids that a list of channel records carries under `key`. */
  function WireIds(items: seq<Value>, key: string): (ids: set<Value>)
    requires AllKeyed(items, key)
    ensures forall i :: 0 <= i < |items| ==> items[i].entries[key] in ids
    ensures forall id :: id in ids ==> exists i :: 0 <= i < |items| && items[i].entries[key] == id
  {
    if items == [] then {}
    else
      var init := items[..|items| - 1];
      assert AllKeyed(init, key);
      var ids := WireIds(init, key) + {items[|items| - 1].entries[key]};
      assert forall i :: 0 <= i < |init| ==> init[i] == items[i];
      ids
  }

  /** The length of the longest prefix of `items` made of records holding `key`: the
      channels the loop of `Guild.update` merges before it stops. */
  function KeyedCount(items: seq<Value>, key: string): (n: nat)
    ensures n <= |items|
    ensures AllKeyed(items[..n], key)
    ensures n < |items| ==> !(items[n].PyDict? && key in items[n].entries)
  {
    if items == [] then 0
    else if items[0].PyDict? && key in items[0].entries then
      var m := KeyedCount(items[1..], key);
      assert items[..m + 1] == [items[0]] + items[1..][..m];
      m + 1
    else 0
  }

  /** A keyed prefix followed by an item that is not keyed, or by the end, is the one
      `KeyedCount` measures. */
  lemma KeyedCountAt(items: seq<Value>, key: string, i: nat)
    requires i <= |items| && AllKeyed(items[..i], key)
    requires i < |items| ==> !(items[i].PyDict? && key in items[i].entries)
    ensures KeyedCount(items, key) == i
  {
  }

  /** The exception the channel merge raises at an item that is not a keyed record:
      `TypeError` when it is not a record at all, and `KeyError` when it lacks the key. */
  function ItemError(item: Value): Error
  {
    if item.PyDict? then KeyError else TypeError
  }

  /** Whether `Guild.update` succeeds with `pending` as its `_channels` attribute: there is
      none, or it iterates to records that all hold the channel key. */
  predicate ChannelsMerge(pending: Value, key: string)
  {
    pending == PyNone || (Iterate(pending).Success? && AllKeyed(Iterate(pending).value, key))
  }

  /** The exception `Guild.update` raises otherwise: that of iterating `pending`, or else
      that of the first item that is not a keyed record. */
  function ChannelsError(pending: Value, key: string): (e: Error)
    requires !ChannelsMerge(pending, key)
    ensures Iterate(pending).Failure? ==> e == TypeError
    ensures Iterate(pending).Success? ==>
      var items := Iterate(pending).value;
      KeyedCount(items, key) < |items| && e == ItemError(items[KeyedCount(items, key)])
  {
    match Iterate(pending)
    case Failure(err) => err
    case Success(items) =>
      assert items[..|items|] == items;
      ItemError(items[KeyedCount(items, key)])
  }

  /** The guild's channel keys after the merge of `pending`: the ids of the channels
      merged before the loop stopped (none when `pending` cannot be iterated). */
  function MergedKeys(keys: set<Value>, pending: Value, key: string): set<Value>
  {
    match Iterate(pending)
    case Failure(_) => keys
    case Success(items) => keys + WireIds(items[..KeyedCount(items, key)], key)
  }

  /** A channel record has landed in the client's channel state: its key is live there,
      unless the state's policy refuses a key no other channel occupies. */
  ghost predicate Landed(channels: State<Plain>, live: map<Value, Entity<Plain>>, item: Value)
  {
    && item.PyDict? && channels.idKey in item.entries
    && var k := channels.keyOf(item.entries[channels.idKey]);
       k in live || !channels.admits(k, false)
  }

  /** One more keyed record extends the keyed prefix and adds its id. */
  lemma KeyedStep(items: seq<Value>, i: nat, key: string)
    requires i < |items| && AllKeyed(items[..i], key)
    requires items[i].PyDict? && key in items[i].entries
    ensures AllKeyed(items[..i + 1], key)
    ensures WireIds(items[..i + 1], key) == WireIds(items[..i], key) + {items[i].entries[key]}
  {
    var s := items[..i + 1];
    forall j | 0 <= j < |s|
      ensures s[j].PyDict? && key in s[j].entries
    {
      if j < i {
        assert s[j] == items[..i][j];
      }
    }
    assert s[..|s| - 1] == items[..i] && s[|s| - 1] == items[i];
  }

  /** Records that have landed stay landed while the live tier only gains keys. */
  lemma LandedStays(channels: State<Plain>, live0: map<Value, Entity<Plain>>,
                    live1: map<Value, Entity<Plain>>, items: seq<Value>, n: nat)
    requires live0.Keys <= live1.Keys && n < |items|
    requires forall j :: 0 <= j < n ==> Landed(channels, live0, items[j])
    requires Landed(channels, live1, items[n])
    ensures forall j :: 0 <= j < n + 1 ==> Landed(channels, live1, items[j])
  {
  }

  /** The attributes after a successful `Guild.update`: the template's update, without the
      pending `_channels` attribute once it has been consumed. */
  function GuildAttrs(t: Templates.Template, attrs: Record, data: Record): (r: Record)
    ensures "_channels" !in r || Get(r, "_channels") == PyNone
  {
    var a := Templates.Update(t, attrs, data);
    if Get(a, "_channels") != PyNone then a - {"_channels"} else a
  }

  /** One step of the loop of `Guild.update`: a channel record is appended to the
      client's channel state and its id added to the guild's channel keys. */
  method MergeChannel(keys: set<Value>, item: Value, channels: State<Plain>)
    returns (r: Outcome<Error>, keys': set<Value>)
    requires channels.Valid()
    modifies channels, channels.Repr
    ensures channels.Valid() && fresh(channels.Repr - old(channels.Repr))
    ensures old(channels.live).Keys <= channels.live.Keys
    ensures r.Pass? <==> item.PyDict? && channels.idKey in item.entries
    ensures r.Pass? ==> keys' == keys + {item.entries[channels.idKey]} && Landed(channels, channels.live, item)
    ensures r.Fail? ==> r.error == ItemError(item) && keys' == keys
    ensures Grows(old(channels.live), channels.live, old(channels.Repr))
    ensures SnapsAgree(old(channels.Snaps()), channels.Snaps(),
                       HeldBy(old(channels.live), channels.keyOf, RecordIds(item, channels.idKey)))
  {
    var ch := Append(channels, item);
    if ch.Failure? {
      return Fail(ch.error), keys;
    }
    return Pass, keys + {ch.value.Id()};
  }

  /** The loop of `Guild.update`: every channel record is merged, in order. An item that
      is not a record, or lacks the channel key, stops the loop with the channels before
      it already merged, and its exception propagates. */
  method MergeChannels(keys: set<Value>, items: seq<Value>, channels: State<Plain>)
    returns (r: Outcome<Error>, keys': set<Value>)
    requires channels.Valid()
    modifies channels, channels.Repr
    ensures channels.Valid() && fresh(channels.Repr - old(channels.Repr))
    ensures old(channels.live).Keys <= channels.live.Keys
    ensures r.Pass? <==> AllKeyed(items, channels.idKey)
    ensures var n := KeyedCount(items, channels.idKey);
      && (r.Pass? <==> n == |items|)
      && (r.Fail? ==> r.error == ItemError(items[n]))
      && keys' == keys + WireIds(items[..n], channels.idKey)
      && (forall i :: 0 <= i < n ==> Landed(channels, channels.live, items[i]))
      && SnapsAgree(old(channels.Snaps()), channels.Snaps(),
                    HeldBy(old(channels.live), channels.keyOf, WireIds(items[..n], channels.idKey)))
    ensures Grows(old(channels.live), channels.live, old(channels.Repr))
  {
    r, keys' := Pass, keys;
    var i := 0;
    assert items[..|items|] == items;
    while i < |items| && r.Pass?
      invariant 0 <= i <= |items| && fresh(channels.Repr - old(channels.Repr))
      invariant MergedUpTo(channels, old(channels.live), old(channels.Repr), old(channels.Snaps()), items, i)
      invariant keys' == keys + WireIds(items[..i], channels.idKey)
      invariant r.Fail? ==> i < |items| && !(items[i].PyDict? && channels.idKey in items[i].entries)
                            && r.error == ItemError(items[i])
      decreases |items| - i, if r.Pass? then 1 else 0
    {
      r, keys' := MergeNext(keys, keys', items, i, channels, old(channels.live), old(channels.Repr), old(channels.Snaps()));
      if r.Pass? {
        i := i + 1;
      }
    }
    KeyedCountAt(items, channels.idKey, i);
  }

  /** The state of that loop after the records before `i`, judged against the channel
      state `live0`/`repr0`/`snaps0` before it: each of them is keyed and has landed, the
      live tier only grew, and only the channels live under their ids may have changed. */
  ghost predicate MergedUpTo(channels: State<Plain>, live0: map<Value, Entity<Plain>>, repr0: set<Entity<Plain>>,
                             snaps0: map<Entity<Plain>, Snapshot<Plain>>, items: seq<Value>, i: nat)
    reads channels, channels.Repr
  {
    && i <= |items| && channels.Valid() && AllKeyed(items[..i], channels.idKey)
    && (forall j :: 0 <= j < i ==> Landed(channels, channels.live, items[j]))
    && live0.Keys <= channels.live.Keys && snaps0.Keys == repr0 && repr0 <= channels.Repr
    && Grows(live0, channels.live, repr0)
    && SnapsAgree(snaps0, channels.Snaps(), HeldBy(live0, channels.keyOf, WireIds(items[..i], channels.idKey)))
  }

  /** One turn of that loop: record `i` is merged, or the loop stops at it. */
  method MergeNext(keys: set<Value>, keys0: set<Value>, items: seq<Value>, i: nat, channels: State<Plain>,
                   ghost live0: map<Value, Entity<Plain>>, ghost repr0: set<Entity<Plain>>,
                   ghost snaps0: map<Entity<Plain>, Snapshot<Plain>>)
    returns (r: Outcome<Error>, keys': set<Value>)
    requires i < |items| && MergedUpTo(channels, live0, repr0, snaps0, items, i)
    requires keys0 == keys + WireIds(items[..i], channels.idKey)
    modifies channels, channels.Repr
    ensures fresh(channels.Repr - old(channels.Repr))
    ensures r.Pass? <==> items[i].PyDict? && channels.idKey in items[i].entries
    ensures r.Fail? ==>
      && r.error == ItemError(items[i]) && keys' == keys0
      && MergedUpTo(channels, live0, repr0, snaps0, items, i)
    ensures r.Pass? ==>
      && keys' == keys + WireIds(items[..i + 1], channels.idKey)
      && MergedUpTo(channels, live0, repr0, snaps0, items, i + 1)
  {
    ghost var live1, repr1, snaps1 := channels.live, channels.Repr, channels.Snaps();
    r, keys' := MergeChannel(keys0, items[i], channels);
    GrowsThen(live0, live1, channels.live, repr0, repr1);
    AgreeThen(snaps0, snaps1, channels.Snaps(), live0, live1, channels.keyOf,
              WireIds(items[..i], channels.idKey), RecordIds(items[i], channels.idKey));
    if r.Fail? {
      assert WireIds(items[..i], channels.idKey) + RecordIds(items[i], channels.idKey)
          == WireIds(items[..i], channels.idKey);
      return;
    }
    KeyedStep(items, i, channels.idKey);
    LandedStays(channels, live1, channels.live, items, i);
  }

  /** The channel step of `Guild.update`: nothing when `_channels` is `None`; otherwise
      `pending` is iterated and its records merged in order. */
  method MergePending(keys: set<Value>, pending: Value, channels: State<Plain>)
    returns (r: Outcome<Error>, keys': set<Value>)
    requires channels.Valid()
    modifies channels, channels.Repr
    ensures channels.Valid() && fresh(channels.Repr - old(channels.Repr))
    ensures old(channels.live).Keys <= channels.live.Keys
    ensures r.Pass? <==> ChannelsMerge(pending, channels.idKey)
    ensures r.Fail? ==> r.error == ChannelsError(pending, channels.idKey)
    ensures keys' == MergedKeys(keys, pending, channels.idKey)
    ensures pending == PyNone ==> channels.live == old(channels.live) && channels.recycled == old(channels.recycled)
    ensures Iterate(pending).Success? ==>
      var items := Iterate(pending).value;
      forall i :: 0 <= i < KeyedCount(items, channels.idKey) ==> Landed(channels, channels.live, items[i])
    ensures Grows(old(channels.live), channels.live, old(channels.Repr))
    ensures SnapsAgree(old(channels.Snaps()), channels.Snaps(),
                       HeldBy(old(channels.live), channels.keyOf, MergedKeys({}, pending, channels.idKey)))
  {
    if pending == PyNone {
      return Pass, keys;
    }
    var items := Iterate(pending);
    if items.Failure? {
      return Fail(items.error), keys;
    }
    r, keys' := MergeChannels(keys, items.value, channels);
    assert MergedKeys({}, pending, channels.idKey)
        == WireIds(items.value[..KeyedCount(items.value, channels.idKey)], channels.idKey);
  }

  /** `Guild.update(data)`: the template's update; then, when a `_channels` attribute is
      pending, its channels are merged and `_channels` is removed. When the merge fails,
      the template's update and the channels merged so far remain, and so does
      `_channels`. */
  method UpdateGuild(g: Entity<GuildData>, data: Record, channels: State<Plain>) returns (r: Outcome<Error>)
    requires channels.Valid()
    modifies g`attrs, g`ext, channels, channels.Repr
    ensures channels.Valid() && fresh(channels.Repr - old(channels.Repr))
    ensures old(channels.live).Keys <= channels.live.Keys
    ensures var a := Templates.Update(g.state.template, old(g.attrs), data);
      var pending := Get(a, "_channels");
      && (r.Pass? <==> ChannelsMerge(pending, channels.idKey))
      && (r.Fail? ==> r.error == ChannelsError(pending, channels.idKey) && g.attrs == a)
      && (r.Pass? ==> g.attrs == GuildAttrs(g.state.template, old(g.attrs), data))
      && g.ext.channels == old(g.ext.channels).(keys := MergedKeys(old(g.ext.channels.keys), pending, channels.idKey))
      && (pending == PyNone ==> channels.live == old(channels.live) && channels.recycled == old(channels.recycled))
      && (Iterate(pending).Success? ==>
            var items := Iterate(pending).value;
            forall i :: 0 <= i < KeyedCount(items, channels.idKey) ==> Landed(channels, channels.live, items[i]))
      && SnapsAgree(old(channels.Snaps()), channels.Snaps(),
                    HeldBy(old(channels.live), channels.keyOf, MergedKeys({}, pending, channels.idKey)))
    ensures Grows(old(channels.live), channels.live, old(channels.Repr))
    ensures unchanged(g.state) && SnapsAgree(old(g.state.Snaps()), g.state.Snaps(), {g})
  {
    g.Update(data);
    var pending := Get(g.attrs, "_channels");
    var keys;
    r, keys := MergePending(g.ext.channels.keys, pending, channels);
    g.ext := g.ext.(channels := g.ext.channels.(keys := keys));
    if r.Pass? && pending != PyNone {
      g.attrs := g.attrs - {"_channels"};
    }
  }

  /** The attributes `GuildState.new` updates: those of the guild live under the record's
      id, or none for a guild about to be constructed. */
  function BaseAttrs(state: State<GuildData>, data: Record): Record
    requires "id" in data
    reads state, state.live.Values
  {
    var found := state.Get(data["id"]);
    if found.Some? then found.value.attrs else map[]
  }

  /** The `_channels` attribute that the template's update in `GuildState.new` leaves
      pending. */
  function PendingChannels(state: State<GuildData>, data: Record): Value
    requires "id" in data
    reads state, state.live.Values
  {
    Get(Templates.Update(state.template, BaseAttrs(state, data), data), "_channels")
  }

  /** The ids of the channels that `GuildState.new(data)` merges into the channel state
      (none when the record has no `'id'`). */
  ghost function MergedIds(state: State<GuildData>, data: Record, key: string): set<Value>
    reads state, state.live.Values
  {
    if "id" in data then MergedKeys({}, PendingChannels(state, data), key) else {}
  }

  /** The found branch of `GuildState.new`: the live guild is updated in place. */
  method Refresh(state: State<GuildData>, g: Entity<GuildData>, data: Record, channels: State<Plain>)
    returns (r: Result<Entity<GuildData>, Error>)
    requires state.Valid() && state.idKey == "id" && channels.Valid() && g.state == state
    requires "id" in data
    modifies g`attrs, g`ext, channels, channels.Repr
    ensures channels.Valid() && fresh(channels.Repr - old(channels.Repr))
    ensures var pending := Get(Templates.Update(state.template, old(g.attrs), data), "_channels");
      && (r.Success? <==> ChannelsMerge(pending, channels.idKey))
      && (r.Failure? ==> r.error == ChannelsError(pending, channels.idKey))
      && g.ext.channels == old(g.ext.channels).(keys := MergedKeys(old(g.ext.channels.keys), pending, channels.idKey))
      && SnapsAgree(old(channels.Snaps()), channels.Snaps(),
                    HeldBy(old(channels.live), channels.keyOf, MergedKeys({}, pending, channels.idKey)))
    ensures Grows(old(channels.live), channels.live, old(channels.Repr))
    ensures SnapsAgree(old(state.Snaps()), state.Snaps(), {g})
    ensures r.Success? ==> r.value == g && g.attrs == GuildAttrs(state.template, old(g.attrs), data)
    ensures r.Success? ==> g.Id() == data["id"]
    ensures r.Failure? ==> g.attrs == Templates.Update(state.template, old(g.attrs), data)
  {
    var o := UpdateGuild(g, data, channels);
    if o.Fail? {
      return Failure(o.error);
    }
    GuildIdOnUpdate(state.template, old(g.attrs), data);
    r := Success(g);
  }

  /** The other branch of `GuildState.new`: a fresh guild is constructed, updated from
      the record and cached. When its update fails it is neither cached nor returned. */
  method Decode(state: State<GuildData>, data: Record, channels: State<Plain>)
    returns (r: Result<Entity<GuildData>, Error>)
    requires state.Valid() && state.idKey == "id" && channels.Valid() && "id" in data
    requires state.keyOf(data["id"]) !in state.live
    modifies state, channels, channels.Repr
    ensures state.Valid() && fresh(state.Repr - old(state.Repr))
    ensures channels.Valid() && fresh(channels.Repr - old(channels.Repr))
    ensures var pending := Get(Templates.Unmarshal(state.template, data), "_channels");
      && (r.Success? <==> ChannelsMerge(pending, channels.idKey))
      && (r.Failure? ==> r.error == ChannelsError(pending, channels.idKey))
      && (r.Success? ==> r.value.ext.channels == GuildChannelState(channels, MergedKeys({}, pending, channels.idKey)))
      && SnapsAgree(old(channels.Snaps()), channels.Snaps(),
                    HeldBy(old(channels.live), channels.keyOf, MergedKeys({}, pending, channels.idKey)))
    ensures Grows(old(channels.live), channels.live, old(channels.Repr))
    ensures Grows(old(state.live), state.live, old(state.Repr))
    ensures SnapsAgree(old(state.Snaps()), state.Snaps(), {})
    ensures r.Failure? ==>
      state.live == old(state.live) && state.recycled == old(state.recycled) && state.Repr == old(state.Repr)
    ensures r.Success? ==>
      && fresh(r.value) && r.value.state == state
      && r.value.attrs == GuildAttrs(state.template, map[], data)
      && r.value.Id() == data["id"] && !r.value.deleted && r.value.deletedAt == None
      && state.FreshlyCached(old(state.live), old(state.recycled), r.value, state.keyOf(data["id"]))
  {
    var g := NewGuild(state, channels);
    var o := UpdateGuild(g, data, channels);
    if o.Fail? {
      return Failure(o.error);
    }
    GuildIdOnUpdate(state.template, map[], data);
    CacheGuild(state, g, channels);
    r := Success(g);
  }

  /** Caching a freshly decoded guild changes nothing but the guild state and the
      guild's `cached`: no other guild of the state and no channel changes. */
  method CacheGuild(state: State<GuildData>, g: Entity<GuildData>, ghost channels: State<Plain>)
    requires state.Valid() && g.state == state && g !in state.Repr
    requires state.keyOf(g.Id()) !in state.live
    modifies g`cached, state
    ensures g.attrs == old(g.attrs) && g.ext == old(g.ext)
    ensures g.deleted == old(g.deleted) && g.deletedAt == old(g.deletedAt)
    ensures state.Valid() && state.Repr == old(state.Repr) + (if g.cached then {g} else {})
    ensures var k := state.keyOf(g.Id());
      && g.cached == state.admits(k, k in old(state.live) && old(state.live)[k] != g)
      && state.live == (if g.cached then old(state.live)[k := g] else old(state.live))
      && state.recycled == (if g.cached then old(state.recycled) - {k} else old(state.recycled))
    ensures Grows(old(state.live), state.live, old(state.Repr))
    ensures SnapsAgree(old(state.Snaps()), state.Snaps(), {})
    ensures unchanged(channels, channels.Repr)
  {
    g.Cache();
  }

  /** `GuildState.new(data)`: the guild live under `data['id']` is updated in place and
      returned, and nothing is constructed; otherwise a fresh guild is constructed, updated
      from `data` and cached. It succeeds exactly when the update does, that is when the
      pending `_channels` (if any) iterates to records holding the channel key. A record
      without `'id'` raises `KeyError` before anything changes. No other guild changes. */
  method New(state: State<GuildData>, data: Record, channels: State<Plain>)
    returns (r: Result<Entity<GuildData>, Error>)
    requires state.Valid() && state.idKey == "id" && channels.Valid()
    modifies state, state.Repr
    modifies channels, channels.Repr
    ensures state.Valid() && fresh(state.Repr - old(state.Repr))
    ensures channels.Valid() && fresh(channels.Repr - old(channels.Repr))
    ensures "id" !in data ==>
      && r == Failure(KeyError)
      && state.live == old(state.live) && state.recycled == old(state.recycled)
      && channels.live == old(channels.live)
    ensures "id" in data ==>
      && (r.Success? <==> old(ChannelsMerge(PendingChannels(state, data), channels.idKey)))
      && (r.Failure? ==> r.error == old(ChannelsError(PendingChannels(state, data), channels.idKey)))
      && (r.Success? ==>
            && r.value.state == state && r.value.Id() == data["id"]
            && r.value.attrs == GuildAttrs(state.template, old(BaseAttrs(state, data)), data))
    ensures Grows(old(state.live), state.live, old(state.Repr))
    ensures SnapsAgree(old(state.Snaps()), state.Snaps(), HeldBy(old(state.live), state.keyOf, Ids(data, "id")))
    ensures Grows(old(channels.live), channels.live, old(channels.Repr))
    ensures SnapsAgree(old(channels.Snaps()), channels.Snaps(),
                       HeldBy(old(channels.live), channels.keyOf, old(MergedIds(state, data, channels.idKey))))
    ensures "id" in data && state.keyOf(data["id"]) in old(state.live) ==>
      var g := old(state.live[state.keyOf(data["id"])]);
      && state.Repr == old(state.Repr)
      && state.live == old(state.live) && state.recycled == old(state.recycled)
      && (r.Success? ==> r.value == g)
      && (r.Failure? ==> g.attrs == Templates.Update(state.template, old(g.attrs), data))
      && g.cached == old(g.cached) && g.deleted == old(g.deleted) && g.deletedAt == old(g.deletedAt)
      && g.ext.channels == old(g.ext.channels).(keys := MergedKeys(old(g.ext.channels.keys),
                                                                   old(PendingChannels(state, data)), channels.idKey))
    ensures "id" in data && state.keyOf(data["id"]) !in old(state.live) ==>
      && (r.Failure? ==> state.live == old(state.live) && state.recycled == old(state.recycled))
      && (r.Success? ==>
            && fresh(r.value) && !r.value.deleted && r.value.deletedAt == None
            && r.value.ext.channels == GuildChannelState(channels, MergedKeys({}, old(PendingChannels(state, data)), channels.idKey))
            && state.FreshlyCached(old(state.live), old(state.recycled), r.value, state.keyOf(data["id"])))
  {
    if "id" !in data {
      return Failure(KeyError);
    }
    var found := state.Get(data["id"]);
    if found.Some? {
      r := Refresh(state, found.value, data, channels);
    } else {
      r := Decode(state, data, channels);
    }
  }

  // ---------------------------------------------------------------- requests

  /** The routes whose arguments are built here. */
  datatype Route = CreateGuild | GetUserClientGuilds | BeginGuildPrune | GetGuildPruneCount

  /** A request as it would be sent: its route and its JSON body or query parameters. */
  datatype Request = Request(route: Route, args: Record)

  /** The query parameters of `bulk_fetch`: exactly the arguments passed non-`None`,
      `before`/`after` through the key transformer and `limit` through `int()`. */
  method BulkFetchParams(keyOf: Value -> Value, before: Value, after: Value, limit: Value)
    returns (r: Result<Record, Error>)
    ensures r.Failure? <==> limit != PyNone && ToInt(limit).Failure?
    ensures r.Failure? ==> r.error == ToInt(limit).error
    ensures r.Success? ==>
      && ("before" in r.value <==> before != PyNone)
      && ("after" in r.value <==> after != PyNone)
      && ("limit" in r.value <==> limit != PyNone)
      && r.value.Keys <= {"before", "after", "limit"}
    ensures r.Success? && before != PyNone ==> r.value["before"] == keyOf(before)
    ensures r.Success? && after != PyNone ==> r.value["after"] == keyOf(after)
    ensures r.Success? && limit != PyNone ==> r.value["limit"] == PyInt(ToInt(limit).value)
  {
    var params: Record := map[];
    if before != PyNone {
      params := params["before" := keyOf(before)];
    }
    if after != PyNone {
      params := params["after" := keyOf(after)];
    }
    if limit != PyNone {
      var n := ToInt(limit);
      if n.Failure? {
        return Failure(n.error);
      }
      params := params["limit" := PyInt(n.value)];
    }
    return Success(params);
  }

  /** `GuildState.create(**kwargs)`: the keyword arguments are validated (`'name'` is
      required, and only the route's JSON keys are accepted) before any request; an
      invalid set raises and sends nothing. Otherwise the request carries the arguments
      unchanged and the reply goes through `new`. */
  method Create(state: State<GuildData>, kwargs: Record, accepted: set<string>, reply: Record,
                channels: State<Plain>)
    returns (r: Result<Entity<GuildData>, Error>, sent: Option<Request>)
    requires state.Valid() && state.idKey == "id" && channels.Valid()
    modifies state, state.Repr
    modifies channels, channels.Repr
    ensures state.Valid() && fresh(state.Repr - old(state.Repr))
    ensures channels.Valid() && fresh(channels.Repr - old(channels.Repr))
    ensures ValidateKeys(kwargs.Keys, {"name"}, accepted).Fail? ==>
      && sent == None && r == Failure(ValidateKeys(kwargs.Keys, {"name"}, accepted).error)
      && state.live == old(state.live) && state.recycled == old(state.recycled)
      && channels.live == old(channels.live)
      && state.Snaps() == old(state.Snaps()) && channels.Snaps() == old(channels.Snaps())
    ensures ValidateKeys(kwargs.Keys, {"name"}, accepted).Pass? ==>
      && sent == Some(Request(CreateGuild, kwargs))
      && ("id" !in reply ==> r == Failure(KeyError))
      && ("id" in reply ==> (r.Success? <==> old(ChannelsMerge(PendingChannels(state, reply), channels.idKey))))
      && ("id" in reply && r.Failure? ==> r.error == old(ChannelsError(PendingChannels(state, reply), channels.idKey)))
      && ("id" in reply && r.Success? ==> r.value.state == state && r.value.Id() == reply["id"])
      && SnapsAgree(old(state.Snaps()), state.Snaps(), HeldBy(old(state.live), state.keyOf, Ids(reply, "id")))
      && SnapsAgree(old(channels.Snaps()), channels.Snaps(),
                    HeldBy(old(channels.live), channels.keyOf, old(MergedIds(state, reply, channels.idKey))))
    ensures Grows(old(state.live), state.live, old(state.Repr))
    ensures Grows(old(channels.live), channels.live, old(channels.Repr))
  {
    var v := ValidateKeys(kwargs.Keys, {"name"}, accepted);
    if v.Fail? {
      return Failure(v.error), None;
    }
    sent := Some(Request(CreateGuild, kwargs));
    r := New(state, reply, channels);
  }

  /** Updating a guild from a record holding `'id'` sets the id to that value. */
  lemma GuildIdOnUpdate(t: Templates.Template, attrs: Record, data: Record)
    requires KeyedBy(t, "id") && "id" in data
    ensures "id" in GuildAttrs(t, attrs, data) && GuildAttrs(t, attrs, data)["id"] == data["id"]
  {
    Templates.UpdateReads(t, attrs, data, "id", "id");
  }

  /** A guild template object: the decoded attributes of a template, outside any cache. */
  datatype GuildTemplateObject = GuildTemplateObject(attrs: Record)

  /** `new_template(data)`: decodes a template; no state is read or written. Each
      attribute of the template object is present exactly when one of its fields has its
      wire key in `data`, and then holds the value under the last such key. */
  function NewTemplate(t: Templates.Template, data: Record): (r: GuildTemplateObject)
    ensures forall f :: f in t.fields && f.wireKey in data ==> f.attr in r.attrs
    ensures forall x :: x in r.attrs ==> exists f :: f in t.fields && f.attr == x && f.wireKey in data
    ensures forall x :: (x in r.attrs <==> Templates.Writer(t.fields, data, x).Some?)
    ensures forall x :: x in r.attrs ==>
      && Templates.Writer(t.fields, data, x).value in data
      && r.attrs[x] == data[Templates.Writer(t.fields, data, x).value]
  {
    var attrs := Templates.Unmarshal(t, data);
    Templates.UpdateKeys(t, map[], data);
    forall x
      ensures x in attrs <==> Templates.Writer(t.fields, data, x).Some?
      ensures x in attrs ==> Templates.Writer(t.fields, data, x).value in data
                             && attrs[x] == data[Templates.Writer(t.fields, data, x).value]
    {
      Templates.ApplyAt(t.fields, map[], data, x);
    }
    GuildTemplateObject(attrs)
  }

  /** `new_template_ex(values)`: one template per record, in the records' order. */
  function NewTemplateEx(t: Templates.Template, values: seq<Record>): (r: seq<GuildTemplateObject>)
    ensures |r| == |values|
    ensures forall i :: 0 <= i < |values| ==> r[i] == NewTemplate(t, values[i])
  {
    if values == [] then [] else [NewTemplate(t, values[0])] + NewTemplateEx(t, values[1..])
  }

  /** The decimal text of each role id, for the comma-joined query form. */
  function RoleStrings(roles: seq<int>): (r: seq<string>)
    ensures |r| == |roles|
    ensures forall i :: 0 <= i < |roles| ==> ToInt(PyStr(r[i])) == Success(roles[i])
  {
    if roles == [] then []
    else
      IntOfDecimalString(roles[0]);
      [DecimalString(roles[0])] + RoleStrings(roles[1..])
  }

  /** The keyword arguments `prune` sends: `remove` is popped (default `True`) and decides
      the form; with `roles` given, `include_roles` is set to the role ids as a tuple when
      removing and as their comma-joined decimal text when only counting. `roles` itself
      stays, and every other argument is passed on unchanged. */
  method PruneArguments(kwargs: Record, snowflakes: Value -> seq<int>)
    returns (remove: bool, args: Record)
    ensures remove == Truthy(if "remove" in kwargs then kwargs["remove"] else PyBool(true))
    ensures args.Keys == kwargs.Keys - {"remove"} + (if "roles" in kwargs then {"include_roles"} else {})
    ensures "roles" in kwargs && remove ==>
      args["include_roles"] == PyList(seq(|snowflakes(kwargs["roles"])|,
                                          i requires 0 <= i < |snowflakes(kwargs["roles"])| =>
                                            PyInt(snowflakes(kwargs["roles"])[i])))
    ensures "roles" in kwargs && !remove ==>
      args["include_roles"] == PyStr(Join(",", RoleStrings(snowflakes(kwargs["roles"]))))
    ensures forall k :: k in args && k != "include_roles" ==> args[k] == kwargs[k]
    ensures "include_roles" in args && "roles" !in kwargs ==> args["include_roles"] == kwargs["include_roles"]
  {
    args := kwargs;
    var flag := PyBool(true);
    if "remove" in args {
      flag := args["remove"];
      args := args - {"remove"};
    }
    remove := Truthy(flag);
    if "roles" in args {
      var roles := snowflakes(args["roles"]);
      if remove {
        args := args["include_roles" := PyList(seq(|roles|, i requires 0 <= i < |roles| => PyInt(roles[i])))];
      } else {
        args := args["include_roles" := PyStr(Join(",", RoleStrings(roles)))];
      }
    }
  }

  /** `Guild.prune(**kwargs)`: validates the prepared arguments against the keys of the
      chosen route before any request (a begin-prune with a JSON body when removing, a
      prune count with query parameters otherwise), and returns the reply's `'pruned'`. */
  method Prune(kwargs: Record, snowflakes: Value -> seq<int>, jsonKeys: set<string>,
               paramKeys: set<string>, reply: Record)
    returns (r: Result<Value, Error>, sent: Option<Request>)
    ensures var flag := if "remove" in kwargs then kwargs["remove"] else PyBool(true);
      var accepted := if Truthy(flag) then jsonKeys else paramKeys;
      var given := kwargs.Keys - {"remove"} + (if "roles" in kwargs then {"include_roles"} else {});
      && (!(given <= accepted) ==> sent == None && r == Failure(InvalidKeys(given - accepted)))
      && (given <= accepted ==>
            && sent.Some? && sent.value.args.Keys == given
            && (forall k :: k in given && k != "include_roles" ==> sent.value.args[k] == kwargs[k])
            && ("roles" in kwargs && Truthy(flag) ==>
                  var roles := snowflakes(kwargs["roles"]);
                  sent.value.args["include_roles"] == PyList(seq(|roles|, i requires 0 <= i < |roles| => PyInt(roles[i]))))
            && ("roles" in kwargs && !Truthy(flag) ==>
                  sent.value.args["include_roles"] == PyStr(Join(",", RoleStrings(snowflakes(kwargs["roles"])))))
            && ("roles" !in kwargs && "include_roles" in kwargs ==>
                  sent.value.args["include_roles"] == kwargs["include_roles"])
            && sent.value.route == (if Truthy(flag) then BeginGuildPrune else GetGuildPruneCount)
            && r == (if "pruned" in reply then Success(reply["pruned"]) else Failure(KeyError)))
  {
    var remove, args := PruneArguments(kwargs, snowflakes);
    var accepted := if remove then jsonKeys else paramKeys;
    var v := ValidateKeys(args.Keys, {}, accepted);
    if v.Fail? {
      var none: set<string> := {};
      assert none - args.Keys + (args.Keys - accepted) == args.Keys - accepted;
      return Failure(v.error), None;
    }
    sent := Some(Request(if remove then BeginGuildPrune else GetGuildPruneCount, args));
    r := if "pruned" in reply then Success(reply["pruned"]) else Failure(KeyError);
  }

  // ---------------------------------------------------------------- bans

  /** What a ban holds besides its template attributes. */
  datatype BanData = BanData(guild: Entity<GuildData>, user: Option<Entity<Plain>>)

  /** The state of one guild's bans: a base state that keeps the guild it was made for. */
  class GuildBanState {
    const bans: State<BanData>
    const guild: Entity<GuildData>

    constructor(bans: State<BanData>, guild: Entity<GuildData>)
      ensures this.bans == bans && this.guild == guild
    {
      this.bans := bans;
      this.guild := guild;
    }
  }

  /** Whether a call of the base object's initialiser binds its keyword-only `state`:
      it accepts no positional argument besides `self`. */
  function BaseInit(positional: nat, stateByKeyword: bool): (r: Outcome<Error>)
    ensures r.Pass? <==> positional == 0 && stateByKeyword
    ensures r.Fail? ==> r.error == TypeError
  {
    if positional == 0 && stateByKeyword then Pass else Fail(TypeError)
  }

  /** The ban initialiser as written: it passes `state` positionally to the base
      initialiser, which accepts it only by keyword. */
  method NewBanAsWritten(state: State<BanData>, guild: Entity<GuildData>)
    returns (r: Result<Entity<BanData>, Error>)
    ensures r == Failure(TypeError)
  {
    var o := BaseInit(1, false);
    if o.Fail? {
      return Failure(o.error);
    }
    var b := new Entity(state, BanData(guild, None));
    r := Success(b);
  }

  /** `GuildBan(state=state, guild=guild)` with `state` passed by keyword: a fresh base
      object that keeps the guild and has no user yet. */
  method NewBan(state: State<BanData>, guild: Entity<GuildData>) returns (b: Entity<BanData>)
    ensures fresh(b) && b.state == state && b.ext == BanData(guild, None)
    ensures b.Id() == PyNone && !b.cached && !b.deleted && b.deletedAt == None
  {
    var o := BaseInit(0, true);
    assert o.Pass?;
    b := new Entity(state, BanData(guild, None));
  }

  /** The user step of `GuildBan.update`: when a `_user` attribute is pending, the user
      record is appended to the client's user state, the ban takes that user and the
      user's id as its own, and `_user` is removed. Without `_user` nothing changes. */
  method TakeUser(b: Entity<BanData>, users: State<Plain>) returns (r: Outcome<Error>)
    requires users.Valid()
    modifies b`attrs, b`ext, users, users.Repr
    ensures users.Valid() && fresh(users.Repr - old(users.Repr))
    ensures b.ext.guild == old(b.ext.guild)
    ensures var pending := Get(old(b.attrs), "_user");
      && (pending == PyNone ==>
            r == Pass && b.attrs == old(b.attrs) && b.ext == old(b.ext) && users.live == old(users.live))
      && (pending != PyNone && !pending.PyDict? ==>
            r == Fail(TypeError) && b.attrs == old(b.attrs) && b.ext == old(b.ext))
      && (pending.PyDict? && users.idKey !in pending.entries ==>
            r == Fail(KeyError) && b.attrs == old(b.attrs) && b.ext == old(b.ext))
      && (pending.PyDict? && users.idKey in pending.entries ==>
            && r == Pass && b.ext.user.Some?
            && b.ext.user.value.state == users
            && b.ext.user.value.Id() == pending.entries[users.idKey]
            && b.attrs == old(b.attrs)["id" := pending.entries[users.idKey]] - {"_user"})
      && SnapsAgree(old(users.Snaps()), users.Snaps(), HeldBy(old(users.live), users.keyOf, RecordIds(pending, users.idKey)))
    ensures Grows(old(users.live), users.live, old(users.Repr))
  {
    var pending := Get(b.attrs, "_user");
    if pending == PyNone {
      return Pass;
    }
    var u := Append(users, pending);
    if u.Failure? {
      return Fail(u.error);
    }
    b.ext := b.ext.(user := Some(u.value));
    b.attrs := b.attrs["id" := u.value.Id()] - {"_user"};
    return Pass;
  }

  /** `GuildBan.update(data)`: the template's update, then the user step. Without `_user`
      the user is left as it was; when the user step fails, the template's update
      remains. */
  method UpdateBan(b: Entity<BanData>, data: Record, users: State<Plain>) returns (r: Outcome<Error>)
    requires users.Valid()
    modifies b`attrs, b`ext, users, users.Repr
    ensures users.Valid() && fresh(users.Repr - old(users.Repr))
    ensures b.ext.guild == old(b.ext.guild)
    ensures var a := Templates.Update(b.state.template, old(b.attrs), data);
      var pending := Get(a, "_user");
      && (pending == PyNone ==>
            r == Pass && b.attrs == a && b.ext == old(b.ext) && users.live == old(users.live))
      && (pending != PyNone && !pending.PyDict? ==> r == Fail(TypeError) && b.attrs == a && b.ext == old(b.ext))
      && (pending.PyDict? && users.idKey !in pending.entries ==>
            r == Fail(KeyError) && b.attrs == a && b.ext == old(b.ext))
      && (pending.PyDict? && users.idKey in pending.entries ==>
            && r == Pass && b.ext.user.Some?
            && b.ext.user.value.state == users
            && b.ext.user.value.Id() == pending.entries[users.idKey]
            && b.Id() == pending.entries[users.idKey]
            && b.attrs == a["id" := pending.entries[users.idKey]] - {"_user"})
      && SnapsAgree(old(users.Snaps()), users.Snaps(), HeldBy(old(users.live), users.keyOf, RecordIds(pending, users.idKey)))
    ensures Grows(old(users.live), users.live, old(users.Repr))
  {
    b.Update(data);
    r := TakeUser(b, users);
  }
}
