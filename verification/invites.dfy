/**
 * Invites: the invite template's key mapping, the invite's related-entity rewiring on
 * update, the invite state's get-or-create keyed by invite code, and a guild's vanity
 * URL, which resolves to an invite through the invite state.
 */
module Invites {
  import opened Wrappers
  import opened Values
  import Templates
  import opened Cache
  import Guilds

  /** The invite template: the id is read from `'code'`, and `created_at` is read from the
      same wire key as `temporary`. */
  const InviteTemplate := Templates.Template([
    Templates.Field("id", "code"),
    Templates.Field("target_type", "target_type"),
    Templates.Field("presence_count", "approximate_presence_count"),
    Templates.Field("member_count", "approximate_member_count"),
    Templates.Field("expires_at", "expires_at"),
    Templates.Field("uses", "uses"),
    Templates.Field("max_uses", "max_uses"),
    Templates.Field("max_age", "max_age"),
    Templates.Field("temporary", "temporary"),
    Templates.Field("created_at", "temporary")
  ])

  /** An invite's id comes from wire key `'code'` and from no other key. */
  lemma InviteKeyedByCode()
    ensures KeyedBy(InviteTemplate, "code")
  {
    var fs := InviteTemplate.fields;
    assert fs[0] == Templates.Field("id", "code");
    forall f | f in fs && f.attr == "id"
      ensures f.wireKey == "code"
    {
      var i :| 0 <= i < |fs| && fs[i] == f;
      assert |fs[i].attr| == 2;
      assert i == 0;
    }
  }

  /** `created_at` and `temporary` are decoded from the same key, so after any update they
      are both absent or both present and equal, whenever they were so before. */
  lemma CreatedAtIsTemporary(attrs: Record, data: Record)
    requires "created_at" in attrs <==> "temporary" in attrs
    requires "temporary" in attrs ==> attrs["created_at"] == attrs["temporary"]
    ensures var u := Templates.Update(InviteTemplate, attrs, data);
      && ("created_at" in u <==> "temporary" in u)
      && ("temporary" in u ==> u["created_at"] == u["temporary"])
  {
    var fs := InviteTemplate.fields;
    assert fs[8] == Templates.Field("temporary", "temporary");
    assert fs[9] == Templates.Field("created_at", "temporary");
    forall f | f in fs && (f.attr == "created_at" || f.attr == "temporary")
      ensures f.wireKey == "temporary"
    {
      var i :| 0 <= i < |fs| && fs[i] == f;
      assert i == 8 || i == 9;
    }
    Templates.SharedKey(InviteTemplate, attrs, data, "created_at", "temporary", "temporary");
  }

  /** A freshly decoded invite has equal `created_at` and `temporary`. */
  lemma DecodedCreatedAtIsTemporary(data: Record)
    ensures var u := Templates.Unmarshal(InviteTemplate, data);
      && ("created_at" in u <==> "temporary" in u)
      && ("temporary" in u ==> u["created_at"] == u["temporary"])
  {
    CreatedAtIsTemporary(map[], data);
  }

  /** What an invite holds besides its template attributes. */
  datatype InviteData = InviteData(
    guild: Option<Entity<Guilds.GuildData>>,
    channel: Option<Entity<Plain>>,
    inviter: Option<Entity<Plain>>,
    targetUser: Option<Entity<Plain>>,
    targetApplication: Option<Entity<Plain>>)

  const NoRelations := InviteData(None, None, None, None, None)

  /** A fresh invite: a base object with every related entity `None`. */
  method NewInvite(state: State<InviteData>, ghost data: Record, ghost via: Resolvers) returns (inv: Entity<InviteData>)
    ensures fresh(inv) && inv.state == state
    ensures via.guilds.Snaps() == old(via.guilds.Snaps()) && via.channels.Snaps() == old(via.channels.Snaps())
    ensures via.users.Snaps() == old(via.users.Snaps()) && state.Snaps() == old(state.Snaps())
    ensures ChannelIds(data, via) == old(ChannelIds(data, via)) && LinkedUserIds(data, via) == old(LinkedUserIds(data, via))
    ensures Linkable(data, via) == old(Linkable(data, via))
    ensures !Linkable(data, via) ==> LinkError(data, via) == old(LinkError(data, via))
    ensures inv.ext.guild == None && inv.ext.channel == None && inv.ext.inviter == None
    ensures inv.ext.targetUser == None && inv.ext.targetApplication == None
    ensures inv.attrs == map[] && inv.Id() == PyNone && !inv.cached && !inv.deleted && inv.deletedAt == None
  {
    inv := new Entity(state, NoRelations);
  }

  /** `invite.code`: the invite's id. */
  function InviteCode(inv: Entity<InviteData>): (r: Value)
    reads inv`attrs
    ensures r == Get(inv.attrs, "id")
  {
    inv.Id()
  }

  /** Once an invite state's template is the invite template, an invite decoded or
      updated from a record holding `'code'` has that code. */
  lemma CodeAfterUpdate(inv: Entity<InviteData>, attrs: Record, data: Record)
    requires inv.state.template == InviteTemplate && "code" in data
    requires inv.attrs == Templates.Update(InviteTemplate, attrs, data)
    ensures InviteCode(inv) == data["code"]
  {
    InviteKeyedByCode();
    Templates.UpdateReads(InviteTemplate, attrs, data, "id", "code");
  }

  /** A related guild record handed to the guild state's `new`: it succeeds exactly when
      the record holds `'id'` and the guild's update succeeds. */
  method ResolveGuild(guilds: State<Guilds.GuildData>, v: Value, channels: State<Plain>)
    returns (r: Result<Entity<Guilds.GuildData>, Error>)
    requires guilds.Valid() && guilds.idKey == "id" && channels.Valid()
    modifies guilds, guilds.Repr
    modifies channels, channels.Repr
    ensures guilds.Valid() && fresh(guilds.Repr - old(guilds.Repr))
    ensures channels.Valid() && fresh(channels.Repr - old(channels.Repr))
    ensures !v.PyDict? ==> r == Failure(TypeError)
    ensures v.PyDict? && "id" !in v.entries ==> r == Failure(KeyError)
    ensures v.PyDict? && "id" in v.entries ==>
      && (r.Success? <==> old(Guilds.ChannelsMerge(Guilds.PendingChannels(guilds, v.entries), channels.idKey)))
      && (r.Failure? ==> r.error == old(Guilds.ChannelsError(Guilds.PendingChannels(guilds, v.entries), channels.idKey)))
    ensures v.PyDict? && r.Success? ==> r.value.state == guilds && r.value.Id() == v.entries["id"]
    ensures Grows(old(guilds.live), guilds.live, old(guilds.Repr))
    ensures SnapsAgree(old(guilds.Snaps()), guilds.Snaps(), HeldBy(old(guilds.live), guilds.keyOf, RecordIds(v, "id")))
    ensures Grows(old(channels.live), channels.live, old(channels.Repr))
    ensures SnapsAgree(old(channels.Snaps()), channels.Snaps(),
                       HeldBy(old(channels.live), channels.keyOf, old(MergedBy(guilds, v, channels.idKey))))
  {
    var rec := AsRecord(v);
    if rec.Failure? {
      return Failure(rec.error);
    }
    r := Guilds.New(guilds, rec.value, channels);
  }

  /** The ids of the channels that resolving guild value `v` merges: those of its pending
      `_channels` when it is a record. */
  ghost function MergedBy(guilds: State<Guilds.GuildData>, v: Value, key: string): set<Value>
    reads guilds, guilds.live.Values
  {
    if v.PyDict? then Guilds.MergedIds(guilds, v.entries, key) else {}
  }

  /** The states a related entity of an invite is resolved through. */
  datatype Resolvers = Resolvers(guilds: State<Guilds.GuildData>, channels: State<Plain>,
                                 users: State<Plain>)
  {
    ghost predicate Valid()
      reads guilds, channels, users
    {
      guilds.Valid() && guilds.idKey == "id" && channels.Valid() && users.Valid()
      && channels != users
    }

    /** `s` is none of these states: the client keeps one state per kind. */
    predicate Apart(s: object)
    {
      s != guilds as object && s != channels as object && s != users as object
    }
  }

  /** The value under `key` names a related record: a record holding `idKey`. */
  predicate Names(data: Record, key: string, idKey: string)
  {
    Get(data, key).PyDict? && idKey in Get(data, key).entries
  }

  /** The step of `Invite.update` for a relation resolved by `append` succeeds: the value
      under `key` is `None`, or a record holding `idKey`. */
  predicate Resolvable(data: Record, key: string, idKey: string)
  {
    Get(data, key) == PyNone || Names(data, key, idKey)
  }

  /** The `guild` step of `Invite.update` succeeds: there is no guild, or a guild record
      holding `'id'` whose update in the guild state succeeds. */
  predicate GuildResolvable(data: Record, via: Resolvers)
    reads via.guilds, via.guilds.live.Values
  {
    || Get(data, "guild") == PyNone
    || (&& Names(data, "guild", "id")
        && Guilds.ChannelsMerge(Guilds.PendingChannels(via.guilds, Get(data, "guild").entries), via.channels.idKey))
  }

  /** The exception of a failing `guild` step. */
  function GuildError(data: Record, via: Resolvers): Error
    requires !GuildResolvable(data, via)
    reads via.guilds, via.guilds.live.Values
  {
    if !Names(data, "guild", "id") then Guilds.ItemError(Get(data, "guild"))
    else Guilds.ChannelsError(Guilds.PendingChannels(via.guilds, Get(data, "guild").entries), via.channels.idKey)
  }

  /** `Invite.update` succeeds: each of its four steps does. */
  predicate Linkable(data: Record, via: Resolvers)
    reads via.guilds, via.guilds.live.Values
  {
    && GuildResolvable(data, via)
    && Resolvable(data, "channel", via.channels.idKey)
    && Resolvable(data, "inviter", via.users.idKey)
    && Resolvable(data, "target_user", via.users.idKey)
  }

  /** The exception `Invite.update` raises otherwise: that of its first failing step. */
  function LinkError(data: Record, via: Resolvers): Error
    requires !Linkable(data, via)
    reads via.guilds, via.guilds.live.Values
  {
    if !GuildResolvable(data, via) then GuildError(data, via)
    else if !Resolvable(data, "channel", via.channels.idKey) then Guilds.ItemError(Get(data, "channel"))
    else if !Resolvable(data, "inviter", via.users.idKey) then Guilds.ItemError(Get(data, "inviter"))
    else Guilds.ItemError(Get(data, "target_user"))
  }

  /** The entity an optional relation refers to, if any. */
  function Objs<D>(o: Option<Entity<D>>): set<object>
  {
    if o.Some? then {o.value} else {}
  }

  /** The relation is the entity of state `s` whose id is the one the record under `key`
      holds under `idKey`. */
  predicate ResolvedTo<D>(o: Option<Entity<D>>, s: State<D>, data: Record, key: string, idKey: string)
    reads Objs(o)
  {
    && Names(data, key, idKey) && o.Some? && o.value.state == s
    && o.value.Id() == Get(data, key).entries[idKey]
  }

  /** Every relation but the guild that `data` names is resolved. An inviter that is also
      the target user carries the id of the later update, the target user's. */
  predicate OthersResolved(ext: InviteData, data: Record, via: Resolvers)
    reads Objs(ext.channel), Objs(ext.inviter), Objs(ext.targetUser)
  {
    && (Get(data, "channel") != PyNone ==>
          ResolvedTo(ext.channel, via.channels, data, "channel", via.channels.idKey))
    && (Get(data, "inviter") != PyNone ==>
          && Names(data, "inviter", via.users.idKey) && ext.inviter.Some? && ext.inviter.value.state == via.users
          && (ext.inviter.value.Id() == Get(data, "inviter").entries[via.users.idKey]
              || ext.inviter == ext.targetUser))
    && (Get(data, "target_user") != PyNone ==>
          ResolvedTo(ext.targetUser, via.users, data, "target_user", via.users.idKey))
  }

  /** Every relation that `data` names is resolved. */
  predicate Resolved(ext: InviteData, data: Record, via: Resolvers)
    reads Objs(ext.guild), Objs(ext.channel), Objs(ext.inviter), Objs(ext.targetUser)
  {
    && (Get(data, "guild") != PyNone ==> ResolvedTo(ext.guild, via.guilds, data, "guild", "id"))
    && OthersResolved(ext, data, via)
  }

  /** The relations but the guild that `data` does not name keep their entities, and
      `target_application` is never touched. */
  predicate OthersKept(ext0: InviteData, ext: InviteData, data: Record)
  {
    && ext.targetApplication == ext0.targetApplication
    && (Get(data, "channel") == PyNone ==> ext.channel == ext0.channel)
    && (Get(data, "inviter") == PyNone ==> ext.inviter == ext0.inviter)
    && (Get(data, "target_user") == PyNone ==> ext.targetUser == ext0.targetUser)
  }

  /** The relations that `data` does not name keep their entities. */
  predicate Kept(ext0: InviteData, ext: InviteData, data: Record)
  {
    && (Get(data, "guild") == PyNone ==> ext.guild == ext0.guild)
    && OthersKept(ext0, ext, data)
  }

  /** The ids of the channels `Invite.update(data)` hands to the channel state: those the
      guild step merges and, once that step succeeds, the `channel` record's. */
  ghost function ChannelIds(data: Record, via: Resolvers): set<Value>
    reads via.guilds, via.guilds.live.Values
  {
    MergedBy(via.guilds, Get(data, "guild"), via.channels.idKey)
    + (if GuildResolvable(data, via) then RecordIds(Get(data, "channel"), via.channels.idKey) else {})
  }

  /** The ids of the users the `inviter` and `target_user` steps hand to the user state;
      the second step runs only once the first succeeds. */
  function UserIds(data: Record, key: string): set<Value>
  {
    RecordIds(Get(data, "inviter"), key)
    + (if Resolvable(data, "inviter", key) then RecordIds(Get(data, "target_user"), key) else {})
  }

  /** The ids of the users `Invite.update(data)` hands to the user state: none unless the
      `guild` and `channel` steps succeed. */
  ghost function LinkedUserIds(data: Record, via: Resolvers): set<Value>
    reads via.guilds, via.guilds.live.Values
  {
    if GuildResolvable(data, via) && Resolvable(data, "channel", via.channels.idKey)
    then UserIds(data, via.users.idKey) else {}
  }

  /** Across `Invite.update(data)`: each resolver state only gains keys, a key it gains
      holds an entity it never held before, and of the entities it held only those live
      under an id the update hands to it (`LinkedUserIds`, `ChannelIds`, the guild
      record's id) may change. */
  twostate predicate Linked(data: Record, via: Resolvers)
    reads via.guilds, via.guilds.Repr, via.channels, via.channels.Repr, via.users, via.users.Repr
  {
    && Grows(old(via.guilds.live), via.guilds.live, old(via.guilds.Repr))
    && SnapsAgree(old(via.guilds.Snaps()), via.guilds.Snaps(),
                  HeldBy(old(via.guilds.live), via.guilds.keyOf, RecordIds(Get(data, "guild"), "id")))
    && Grows(old(via.channels.live), via.channels.live, old(via.channels.Repr))
    && SnapsAgree(old(via.channels.Snaps()), via.channels.Snaps(),
                  HeldBy(old(via.channels.live), via.channels.keyOf, old(ChannelIds(data, via))))
    && Grows(old(via.users.live), via.users.live, old(via.users.Repr))
    && SnapsAgree(old(via.users.Snaps()), via.users.Snaps(),
                  HeldBy(old(via.users.live), via.users.keyOf, old(LinkedUserIds(data, via))))
  }

  /** Resolver states none of whose objects changed link a record as before. */
  twostate lemma Unmoved(new data: Record, via: Resolvers)
    requires via.Valid()
    requires unchanged(via.guilds, via.channels, via.users)
    requires unchanged(old(via.guilds.Repr), old(via.channels.Repr), old(via.users.Repr))
    ensures via.Valid()
    ensures via.guilds.Snaps() == old(via.guilds.Snaps()) && via.channels.Snaps() == old(via.channels.Snaps())
    ensures via.users.Snaps() == old(via.users.Snaps())
    ensures ChannelIds(data, via) == old(ChannelIds(data, via)) && LinkedUserIds(data, via) == old(LinkedUserIds(data, via))
    ensures Linkable(data, via) == old(Linkable(data, via))
    ensures !Linkable(data, via) ==> LinkError(data, via) == old(LinkError(data, via))
  {
    SnapsKept(via.guilds);
    SnapsKept(via.channels);
    SnapsKept(via.users);
  }

  /** The `guild` step of `Invite.update`. */
  method LinkGuild(inv: Entity<InviteData>, data: Record, via: Resolvers) returns (r: Outcome<Error>)
    requires via.Valid()
    modifies inv`ext, via.guilds, via.guilds.Repr
    modifies via.channels, via.channels.Repr
    ensures via.Valid()
    ensures fresh(via.guilds.Repr - old(via.guilds.Repr))
    ensures fresh(via.channels.Repr - old(via.channels.Repr))
    ensures inv.ext.(guild := old(inv.ext.guild)) == old(inv.ext)
    ensures r.Pass? <==> old(GuildResolvable(data, via))
    ensures r.Fail? ==> r.error == old(GuildError(data, via)) && inv.ext == old(inv.ext)
    ensures Get(data, "guild") == PyNone ==> inv.ext == old(inv.ext)
    ensures r.Pass? && Get(data, "guild") != PyNone ==> ResolvedTo(inv.ext.guild, via.guilds, data, "guild", "id")
    ensures Grows(old(via.guilds.live), via.guilds.live, old(via.guilds.Repr))
    ensures SnapsAgree(old(via.guilds.Snaps()), via.guilds.Snaps(),
                       HeldBy(old(via.guilds.live), via.guilds.keyOf, RecordIds(Get(data, "guild"), "id")))
    ensures Grows(old(via.channels.live), via.channels.live, old(via.channels.Repr))
    ensures SnapsAgree(old(via.channels.Snaps()), via.channels.Snaps(),
                       HeldBy(old(via.channels.live), via.channels.keyOf,
                              old(MergedBy(via.guilds, Get(data, "guild"), via.channels.idKey))))
    ensures unchanged(via.users, via.users.Repr)
  {
    var guild := Get(data, "guild");
    if guild != PyNone {
      var g := ResolveGuild(via.guilds, guild, via.channels);
      if g.Failure? {
        return Fail(g.error);
      }
      label Resolved:
      inv.ext := inv.ext.(guild := Some(g.value));
      assert unchanged@Resolved(via.guilds, via.guilds.Repr, via.channels, via.channels.Repr);
    }
    return Pass;
  }

  /** The `channel` step of `Invite.update`: only the channel state and the invite's
      channel relation change. */
  method LinkChannel(inv: Entity<InviteData>, data: Record, via: Resolvers) returns (r: Outcome<Error>)
    requires via.Valid()
    modifies inv`ext, via.channels, via.channels.Repr
    ensures via.Valid() && fresh(via.channels.Repr - old(via.channels.Repr))
    ensures unchanged(via.guilds, via.guilds.Repr) && unchanged(via.users, via.users.Repr)
    ensures unchanged(Objs(old(inv.ext.guild)))
    ensures inv.ext.(channel := old(inv.ext.channel)) == old(inv.ext)
    ensures r.Pass? <==> Resolvable(data, "channel", via.channels.idKey)
    ensures r.Fail? ==> r.error == Guilds.ItemError(Get(data, "channel")) && inv.ext == old(inv.ext)
    ensures Get(data, "channel") == PyNone ==> inv.ext == old(inv.ext)
    ensures r.Pass? && Get(data, "channel") != PyNone ==>
      ResolvedTo(inv.ext.channel, via.channels, data, "channel", via.channels.idKey)
    ensures Grows(old(via.channels.live), via.channels.live, old(via.channels.Repr))
    ensures SnapsAgree(old(via.channels.Snaps()), via.channels.Snaps(),
                       HeldBy(old(via.channels.live), via.channels.keyOf, RecordIds(Get(data, "channel"), via.channels.idKey)))
  {
    var channel := Get(data, "channel");
    if channel != PyNone {
      var c := Append(via.channels, channel);
      if c.Failure? {
        return Fail(c.error);
      }
      label Appended:
      inv.ext := inv.ext.(channel := Some(c.value));
      assert unchanged@Appended(via.channels, via.channels.Repr);
    }
    return Pass;
  }

  /** The `inviter` step of `Invite.update`. */
  method LinkInviter(inv: Entity<InviteData>, data: Record, users: State<Plain>) returns (r: Outcome<Error>)
    requires users.Valid()
    modifies inv`ext, users, users.Repr
    ensures users.Valid() && fresh(users.Repr - old(users.Repr))
    ensures inv.ext.(inviter := old(inv.ext.inviter)) == old(inv.ext)
    ensures r.Pass? <==> Resolvable(data, "inviter", users.idKey)
    ensures r.Fail? ==> r.error == Guilds.ItemError(Get(data, "inviter")) && inv.ext == old(inv.ext)
    ensures Get(data, "inviter") == PyNone ==> inv.ext == old(inv.ext)
    ensures r.Pass? && Get(data, "inviter") != PyNone ==>
      ResolvedTo(inv.ext.inviter, users, data, "inviter", users.idKey)
    ensures Grows(old(users.live), users.live, old(users.Repr))
    ensures SnapsAgree(old(users.Snaps()), users.Snaps(),
                       HeldBy(old(users.live), users.keyOf, RecordIds(Get(data, "inviter"), users.idKey)))
  {
    var inviter := Get(data, "inviter");
    if inviter != PyNone {
      var u := Append(users, inviter);
      if u.Failure? {
        return Fail(u.error);
      }
      label Appended:
      inv.ext := inv.ext.(inviter := Some(u.value));
      assert unchanged@Appended(users, users.Repr);
    }
    return Pass;
  }

  /** The `target_user` step of `Invite.update`. */
  method LinkTargetUser(inv: Entity<InviteData>, data: Record, users: State<Plain>) returns (r: Outcome<Error>)
    requires users.Valid()
    modifies inv`ext, users, users.Repr
    ensures users.Valid() && fresh(users.Repr - old(users.Repr))
    ensures inv.ext.(targetUser := old(inv.ext.targetUser)) == old(inv.ext)
    ensures r.Pass? <==> Resolvable(data, "target_user", users.idKey)
    ensures r.Fail? ==> r.error == Guilds.ItemError(Get(data, "target_user")) && inv.ext == old(inv.ext)
    ensures Get(data, "target_user") == PyNone ==> inv.ext == old(inv.ext)
    ensures r.Pass? && Get(data, "target_user") != PyNone ==>
      ResolvedTo(inv.ext.targetUser, users, data, "target_user", users.idKey)
    ensures Grows(old(users.live), users.live, old(users.Repr))
    ensures SnapsAgree(old(users.Snaps()), users.Snaps(),
                       HeldBy(old(users.live), users.keyOf, RecordIds(Get(data, "target_user"), users.idKey)))
    ensures forall e :: e in old(users.Repr) && Some(e) != inv.ext.targetUser ==> e.attrs == old(e.attrs)
  {
    var targetUser := Get(data, "target_user");
    if targetUser != PyNone {
      var u := Append(users, targetUser);
      if u.Failure? {
        return Fail(u.error);
      }
      label Appended:
      inv.ext := inv.ext.(targetUser := Some(u.value));
      assert unchanged@Appended(users, users.Repr);
      forall e | e in old(users.Repr) && Some(e) != inv.ext.targetUser
        ensures e.attrs == old(e.attrs)
      {
        assert e !in HeldBy(old(users.live), users.keyOf, RecordIds(targetUser, users.idKey));
      }
    }
    return Pass;
  }

  /** The `guild` and `channel` steps of `Invite.update`. */
  method LinkPlaces(inv: Entity<InviteData>, data: Record, via: Resolvers) returns (r: Outcome<Error>)
    requires via.Valid()
    modifies inv`ext, via.guilds, via.guilds.Repr
    modifies via.channels, via.channels.Repr
    ensures via.Valid()
    ensures fresh(via.guilds.Repr - old(via.guilds.Repr))
    ensures fresh(via.channels.Repr - old(via.channels.Repr))
    ensures inv.ext.(guild := old(inv.ext.guild), channel := old(inv.ext.channel)) == old(inv.ext)
    ensures Get(data, "guild") == PyNone ==> inv.ext.guild == old(inv.ext.guild)
    ensures Get(data, "channel") == PyNone ==> inv.ext.channel == old(inv.ext.channel)
    ensures r.Pass? <==> old(GuildResolvable(data, via)) && Resolvable(data, "channel", via.channels.idKey)
    ensures r.Fail? ==>
      r.error == if !old(GuildResolvable(data, via)) then old(GuildError(data, via))
                 else Guilds.ItemError(Get(data, "channel"))
    ensures r.Pass? && Get(data, "guild") != PyNone ==> ResolvedTo(inv.ext.guild, via.guilds, data, "guild", "id")
    ensures r.Pass? && Get(data, "channel") != PyNone ==>
      ResolvedTo(inv.ext.channel, via.channels, data, "channel", via.channels.idKey)
    ensures Grows(old(via.guilds.live), via.guilds.live, old(via.guilds.Repr))
    ensures SnapsAgree(old(via.guilds.Snaps()), via.guilds.Snaps(),
                       HeldBy(old(via.guilds.live), via.guilds.keyOf, RecordIds(Get(data, "guild"), "id")))
    ensures Grows(old(via.channels.live), via.channels.live, old(via.channels.Repr))
    ensures SnapsAgree(old(via.channels.Snaps()), via.channels.Snaps(),
                       HeldBy(old(via.channels.live), via.channels.keyOf, old(ChannelIds(data, via))))
    ensures unchanged(via.users, via.users.Repr)
  {
    r := LinkGuild(inv, data, via);
    if r.Fail? {
      return;
    }
    ghost var live1, repr1, snaps1 := via.channels.live, via.channels.Repr, via.channels.Snaps();
    r := LinkChannel(inv, data, via);
    GrowsThen(old(via.channels.live), live1, via.channels.live, old(via.channels.Repr), repr1);
    AgreeThen(old(via.channels.Snaps()), snaps1, via.channels.Snaps(), old(via.channels.live), live1,
              via.channels.keyOf, old(MergedBy(via.guilds, Get(data, "guild"), via.channels.idKey)),
              RecordIds(Get(data, "channel"), via.channels.idKey));
  }

  /** The `inviter` and `target_user` steps of `Invite.update`. When both name the same
      user, the second update of that user decides its id. */
  method LinkUsers(inv: Entity<InviteData>, data: Record, via: Resolvers) returns (r: Outcome<Error>)
    requires via.Valid()
    modifies inv`ext, via.users, via.users.Repr
    ensures via.Valid() && fresh(via.users.Repr - old(via.users.Repr))
    ensures unchanged(via.guilds, via.guilds.Repr) && unchanged(via.channels, via.channels.Repr)
    ensures unchanged(Objs(old(inv.ext.guild)))
    ensures old(inv.ext.channel).Some? && old(inv.ext.channel).value.state == via.channels ==>
      unchanged(old(inv.ext.channel).value)
    ensures inv.ext.(inviter := old(inv.ext.inviter), targetUser := old(inv.ext.targetUser)) == old(inv.ext)
    ensures Get(data, "inviter") == PyNone ==> inv.ext.inviter == old(inv.ext.inviter)
    ensures Get(data, "target_user") == PyNone ==> inv.ext.targetUser == old(inv.ext.targetUser)
    ensures r.Pass? <==> Resolvable(data, "inviter", via.users.idKey) && Resolvable(data, "target_user", via.users.idKey)
    ensures r.Fail? ==>
      r.error == Guilds.ItemError(if !Resolvable(data, "inviter", via.users.idKey) then Get(data, "inviter")
                                  else Get(data, "target_user"))
    ensures r.Pass? && Get(data, "inviter") != PyNone ==>
      && Names(data, "inviter", via.users.idKey)
      && inv.ext.inviter.Some? && inv.ext.inviter.value.state == via.users
      && (inv.ext.inviter.value.Id() == Get(data, "inviter").entries[via.users.idKey]
          || inv.ext.inviter == inv.ext.targetUser)
    ensures r.Pass? && Get(data, "target_user") != PyNone ==>
      ResolvedTo(inv.ext.targetUser, via.users, data, "target_user", via.users.idKey)
    ensures Grows(old(via.users.live), via.users.live, old(via.users.Repr))
    ensures SnapsAgree(old(via.users.Snaps()), via.users.Snaps(), HeldBy(old(via.users.live), via.users.keyOf, UserIds(data, via.users.idKey)))
  {
    r := LinkInviter(inv, data, via.users);
    if r.Fail? {
      return;
    }
    ghost var live1, repr1, snaps1 := via.users.live, via.users.Repr, via.users.Snaps();
    r := LinkTargetUser(inv, data, via.users);
    GrowsThen(old(via.users.live), live1, via.users.live, old(via.users.Repr), repr1);
    AgreeThen(old(via.users.Snaps()), snaps1, via.users.Snaps(), old(via.users.live), live1, via.users.keyOf,
              RecordIds(Get(data, "inviter"), via.users.idKey), RecordIds(Get(data, "target_user"), via.users.idKey));
  }

  /** `Invite.update(data)`: the template's update; then each of `guild`, `channel`,
      `inviter` and `target_user` is resolved through its state's `new` exactly when
      `data` holds a value other than `None` under that key, in that order; the first
      failure propagates. `target_application` is never touched. The template's update
      is applied last here: the relations are resolved from `data` alone, and the
      attributes end up the same on every path, failures included. */
  method UpdateInvite(inv: Entity<InviteData>, data: Record, via: Resolvers) returns (r: Outcome<Error>)
    requires via.Valid()
    modifies inv`attrs, inv`ext
    modifies via.guilds, via.guilds.Repr
    modifies via.channels, via.channels.Repr, via.users, via.users.Repr
    ensures via.Valid()
    ensures inv.attrs == Templates.Update(inv.state.template, old(inv.attrs), data)
    ensures r.Pass? <==> old(Linkable(data, via))
    ensures r.Fail? ==> r.error == old(LinkError(data, via))
    ensures Kept(old(inv.ext), inv.ext, data)
    ensures r.Pass? ==> Resolved(inv.ext, data, via)
    ensures Linked(data, via)
    ensures inv.cached == old(inv.cached) && inv.deleted == old(inv.deleted) && inv.deletedAt == old(inv.deletedAt)
  {
    r := Link(inv, data, via);
    label Relinked:
    inv.Update(data);
    assert unchanged@Relinked(via.guilds, via.guilds.Repr, via.channels, via.channels.Repr,
                              via.users, via.users.Repr);
  }

  /** The relations of `Invite.update`: `guild`, `channel`, `inviter` and `target_user`,
      each resolved from `data` when it holds a value other than `None` under that key. */
  method Link(inv: Entity<InviteData>, data: Record, via: Resolvers) returns (r: Outcome<Error>)
    requires via.Valid()
    modifies inv`ext
    modifies via.guilds, via.guilds.Repr
    modifies via.channels, via.channels.Repr, via.users, via.users.Repr
    ensures via.Valid()
    ensures r.Pass? <==> old(Linkable(data, via))
    ensures r.Fail? ==> r.error == old(LinkError(data, via))
    ensures Kept(old(inv.ext), inv.ext, data)
    ensures r.Pass? ==> Resolved(inv.ext, data, via)
    ensures Grows(old(via.guilds.live), via.guilds.live, old(via.guilds.Repr))
    ensures SnapsAgree(old(via.guilds.Snaps()), via.guilds.Snaps(),
                       HeldBy(old(via.guilds.live), via.guilds.keyOf, RecordIds(Get(data, "guild"), "id")))
    ensures Grows(old(via.channels.live), via.channels.live, old(via.channels.Repr))
    ensures SnapsAgree(old(via.channels.Snaps()), via.channels.Snaps(),
                       HeldBy(old(via.channels.live), via.channels.keyOf, old(ChannelIds(data, via))))
    ensures Grows(old(via.users.live), via.users.live, old(via.users.Repr))
    ensures SnapsAgree(old(via.users.Snaps()), via.users.Snaps(),
                       HeldBy(old(via.users.live), via.users.keyOf, old(LinkedUserIds(data, via))))
  {
    r := LinkPlaces(inv, data, via);
    if r.Pass? {
      r := LinkUsers(inv, data, via);
    }
  }

  // ---------------------------------------------------------------- the invite state

  /** The invite state's `new`, found branch: the live invite is updated in place. */
  method RefreshInvite(invites: State<InviteData>, inv: Entity<InviteData>, data: Record, via: Resolvers)
    returns (r: Result<Entity<InviteData>, Error>)
    requires invites.Valid() && via.Valid() && via.Apart(invites) && inv.state == invites
    requires invites.idKey in data
    modifies inv`attrs, inv`ext
    modifies via.guilds, via.guilds.Repr
    modifies via.channels, via.channels.Repr, via.users, via.users.Repr
    ensures via.Valid() && invites.live == old(invites.live) && invites.recycled == old(invites.recycled)
    ensures invites.Repr == old(invites.Repr)
    ensures r.Success? <==> old(Linkable(data, via))
    ensures r.Failure? ==> r.error == old(LinkError(data, via))
    ensures r.Success? ==> r.value == inv && inv.Id() == data[invites.idKey] && Resolved(inv.ext, data, via)
    ensures inv.attrs == Templates.Update(invites.template, old(inv.attrs), data)
    ensures Kept(old(inv.ext), inv.ext, data)
    ensures inv.cached == old(inv.cached) && inv.deleted == old(inv.deleted) && inv.deletedAt == old(inv.deletedAt)
    ensures SnapsAgree(old(invites.Snaps()), invites.Snaps(), {inv})
    ensures Linked(data, via)
  {
    var o := UpdateInvite(inv, data, via);
    Templates.UpdateReads(invites.template, old(inv.attrs), data, "id", invites.idKey);
    if o.Fail? {
      return Failure(o.error);
    }
    r := Success(inv);
  }

  /** `Invite.unmarshal(data)`: a fresh invite, updated from the record. */
  method Unmarshal(invites: State<InviteData>, data: Record, via: Resolvers)
    returns (inv: Entity<InviteData>, r: Outcome<Error>)
    requires via.Valid()
    modifies via.guilds, via.guilds.Repr
    modifies via.channels, via.channels.Repr, via.users, via.users.Repr
    ensures via.Valid()
    ensures fresh(inv) && inv.state == invites && !inv.cached && !inv.deleted && inv.deletedAt == None
    ensures inv.attrs == Templates.Unmarshal(invites.template, data)
    ensures r.Pass? <==> old(Linkable(data, via))
    ensures r.Fail? ==> r.error == old(LinkError(data, via))
    ensures Kept(NoRelations, inv.ext, data)
    ensures r.Pass? ==> Resolved(inv.ext, data, via)
    ensures Linked(data, via)
    ensures unchanged(invites, invites.Repr)
  {
    inv := NewInvite(invites, data, via);
    r := UpdateInvite(inv, data, via);
  }

  /** The invite state's `new`, other branch: a fresh invite is constructed, updated from
      the record and cached. When its update fails it is neither cached nor returned. */
  method DecodeInvite(invites: State<InviteData>, data: Record, via: Resolvers)
    returns (r: Result<Entity<InviteData>, Error>)
    requires invites.Valid() && via.Valid() && via.Apart(invites) && invites.idKey in data
    requires invites.keyOf(data[invites.idKey]) !in invites.live
    modifies invites
    modifies via.guilds, via.guilds.Repr
    modifies via.channels, via.channels.Repr, via.users, via.users.Repr
    ensures invites.Valid() && fresh(invites.Repr - old(invites.Repr)) && via.Valid()
    ensures r.Success? <==> old(Linkable(data, via))
    ensures r.Failure? ==> r.error == old(LinkError(data, via))
    ensures r.Failure? ==>
      invites.live == old(invites.live) && invites.recycled == old(invites.recycled) && invites.Repr == old(invites.Repr)
    ensures r.Success? ==>
      && fresh(r.value) && r.value.state == invites
      && r.value.attrs == Templates.Unmarshal(invites.template, data)
      && r.value.Id() == data[invites.idKey]
      && !r.value.deleted && r.value.deletedAt == None
      && Kept(NoRelations, r.value.ext, data) && Resolved(r.value.ext, data, via)
      && invites.FreshlyCached(old(invites.live), old(invites.recycled), r.value,
                               invites.keyOf(data[invites.idKey]))
    ensures Grows(old(invites.live), invites.live, old(invites.Repr))
    ensures SnapsAgree(old(invites.Snaps()), invites.Snaps(), {})
    ensures Linked(data, via)
  {
    var inv, o := Unmarshal(invites, data, via);
    SnapsKept(invites);
    if o.Fail? {
      return Failure(o.error);
    }
    Templates.UpdateReads(invites.template, map[], data, "id", invites.idKey);
    CacheDecoded(invites, inv, data, via);
    r := Success(inv);
  }

  /** Caching a freshly decoded invite changes nothing but the invite state and the
      invite's `cached`. */
  method CacheDecoded(invites: State<InviteData>, inv: Entity<InviteData>, data: Record, via: Resolvers)
    requires invites.Valid() && inv.state == invites && via.Valid() && via.Apart(invites)
    requires Resolved(inv.ext, data, via)
    requires inv !in invites.Repr && invites.keyOf(inv.Id()) !in invites.live
    modifies inv`cached, invites
    ensures inv.attrs == old(inv.attrs) && inv.ext == old(inv.ext)
    ensures inv.deleted == old(inv.deleted) && inv.deletedAt == old(inv.deletedAt)
    ensures via.Valid()
    ensures invites.Valid() && invites.Repr == old(invites.Repr) + (if inv.cached then {inv} else {})
    ensures var k := invites.keyOf(inv.Id());
      && inv.cached == invites.admits(k, k in old(invites.live) && old(invites.live)[k] != inv)
      && invites.live == (if inv.cached then old(invites.live)[k := inv] else old(invites.live))
      && invites.recycled == (if inv.cached then old(invites.recycled) - {k} else old(invites.recycled))
    ensures Resolved(inv.ext, data, via)
    ensures unchanged(via.guilds, via.guilds.Repr, via.channels, via.channels.Repr, via.users, via.users.Repr)
    ensures Grows(old(invites.live), invites.live, old(invites.Repr))
    ensures SnapsAgree(old(invites.Snaps()), invites.Snaps(), {})
  {
    inv.Cache();
  }

  /** The invite state's `new(data)`: the get-or-create keyed by the invite code, whose
      update is `Invite.update`. A record without `'code'` raises `KeyError`; otherwise
      it succeeds exactly when the invite's update does. */
  method New(invites: State<InviteData>, data: Record, via: Resolvers)
    returns (r: Result<Entity<InviteData>, Error>)
    requires invites.Valid() && invites.template == InviteTemplate && invites.idKey == "code"
    requires via.Valid() && via.Apart(invites)
    modifies invites, invites.Repr
    modifies via.guilds, via.guilds.Repr
    modifies via.channels, via.channels.Repr, via.users, via.users.Repr
    ensures invites.Valid() && via.Valid()
    ensures "code" !in data ==>
      r == Failure(KeyError) && invites.live == old(invites.live) && invites.recycled == old(invites.recycled)
    ensures "code" in data ==>
      && (r.Success? <==> old(Linkable(data, via)))
      && (r.Failure? ==> r.error == old(LinkError(data, via)))
    ensures r.Success? ==>
      && r.value.state == invites && InviteCode(r.value) == data["code"] && Resolved(r.value.ext, data, via)
    ensures r.Success? && r.value.cached ==> invites.Get(data["code"]) == Some(r.value)
    ensures "code" in data && invites.keyOf(data["code"]) in old(invites.live) ==>
      var inv := old(invites.live[invites.keyOf(data["code"])]);
      && invites.live == old(invites.live) && invites.recycled == old(invites.recycled)
      && (r.Success? ==> r.value == inv)
      && inv.attrs == Templates.Update(InviteTemplate, old(inv.attrs), data)
      && Kept(old(inv.ext), inv.ext, data)
    ensures "code" in data && invites.keyOf(data["code"]) !in old(invites.live) && r.Success? ==>
      && fresh(r.value)
      && r.value.attrs == Templates.Unmarshal(InviteTemplate, data) && Kept(NoRelations, r.value.ext, data)
      && invites.FreshlyCached(old(invites.live), old(invites.recycled), r.value, invites.keyOf(data["code"]))
    ensures "code" in data && invites.keyOf(data["code"]) in old(invites.live) ==>
      var inv := old(invites.live[invites.keyOf(data["code"])]);
      inv.cached == old(inv.cached) && inv.deleted == old(inv.deleted) && inv.deletedAt == old(inv.deletedAt)
    ensures Grows(old(invites.live), invites.live, old(invites.Repr))
    ensures SnapsAgree(old(invites.Snaps()), invites.Snaps(),
                       HeldBy(old(invites.live), invites.keyOf, Ids(data, "code")))
    ensures Linked(data, via)
  {
    if "code" !in data {
      return Failure(KeyError);
    }
    r := NewCoded(invites, data, via);
  }

  /** The get-or-create once the record is known to hold a code. */
  method NewCoded(invites: State<InviteData>, data: Record, via: Resolvers)
    returns (r: Result<Entity<InviteData>, Error>)
    requires invites.Valid() && invites.template == InviteTemplate && invites.idKey == "code"
    requires via.Valid() && via.Apart(invites) && "code" in data
    modifies invites, invites.Repr
    modifies via.guilds, via.guilds.Repr
    modifies via.channels, via.channels.Repr, via.users, via.users.Repr
    ensures invites.Valid() && via.Valid()
    ensures r.Success? <==> old(Linkable(data, via))
    ensures r.Failure? ==> r.error == old(LinkError(data, via))
    ensures r.Success? ==>
      && r.value.state == invites && InviteCode(r.value) == data["code"] && Resolved(r.value.ext, data, via)
    ensures r.Success? && r.value.cached ==> invites.Get(data["code"]) == Some(r.value)
    ensures invites.keyOf(data["code"]) in old(invites.live) ==>
      var inv := old(invites.live[invites.keyOf(data["code"])]);
      && invites.live == old(invites.live) && invites.recycled == old(invites.recycled)
      && (r.Success? ==> r.value == inv)
      && inv.attrs == Templates.Update(InviteTemplate, old(inv.attrs), data)
      && Kept(old(inv.ext), inv.ext, data)
    ensures invites.keyOf(data["code"]) !in old(invites.live) && r.Success? ==>
      && fresh(r.value)
      && r.value.attrs == Templates.Unmarshal(InviteTemplate, data) && Kept(NoRelations, r.value.ext, data)
      && invites.FreshlyCached(old(invites.live), old(invites.recycled), r.value, invites.keyOf(data["code"]))
    ensures invites.keyOf(data["code"]) in old(invites.live) ==>
      var inv := old(invites.live[invites.keyOf(data["code"])]);
      inv.cached == old(inv.cached) && inv.deleted == old(inv.deleted) && inv.deletedAt == old(inv.deletedAt)
    ensures Grows(old(invites.live), invites.live, old(invites.Repr))
    ensures SnapsAgree(old(invites.Snaps()), invites.Snaps(),
                       HeldBy(old(invites.live), invites.keyOf, Ids(data, "code")))
    ensures Linked(data, via)
  {
    var found := invites.Get(data["code"]);
    if found.Some? {
      r := RefreshInvite(invites, found.value, data, via);
    } else {
      r := DecodeInvite(invites, data, via);
    }
  }

  // ---------------------------------------------------------------- vanity URLs

  const VanityTemplate := Templates.Template([Templates.Field("code", "code")])

  /** `invites.new(data)` followed by `invite.guild = guild`. */
  method NewOfGuild(invites: State<InviteData>, data: Record, via: Resolvers, guild: Entity<Guilds.GuildData>)
    returns (r: Result<Entity<InviteData>, Error>)
    requires invites.Valid() && invites.template == InviteTemplate && invites.idKey == "code"
    requires via.Valid() && via.Apart(invites)
    modifies invites, invites.Repr
    modifies via.guilds, via.guilds.Repr
    modifies via.channels, via.channels.Repr, via.users, via.users.Repr
    ensures invites.Valid() && via.Valid()
    ensures "code" !in data ==> r == Failure(KeyError)
    ensures "code" in data ==>
      && (r.Success? <==> old(Linkable(data, via)))
      && (r.Failure? ==> r.error == old(LinkError(data, via)))
    ensures r.Success? ==>
      && r.value.state == invites && r.value.ext.guild == Some(guild) && InviteCode(r.value) == data["code"]
      && OthersResolved(r.value.ext, data, via)
    ensures r.Success? && r.value.cached ==> invites.Get(data["code"]) == Some(r.value)
    ensures "code" in data && invites.keyOf(data["code"]) in old(invites.live) && r.Success? ==>
      var inv := old(invites.live[invites.keyOf(data["code"])]);
      && r.value == inv && inv.attrs == Templates.Update(InviteTemplate, old(inv.attrs), data)
      && OthersKept(old(inv.ext), inv.ext, data)
    ensures "code" in data && invites.keyOf(data["code"]) !in old(invites.live) && r.Success? ==>
      && fresh(r.value)
      && r.value.attrs == Templates.Unmarshal(InviteTemplate, data) && OthersKept(NoRelations, r.value.ext, data)
    ensures "code" in data && invites.keyOf(data["code"]) in old(invites.live) ==>
      var inv := old(invites.live[invites.keyOf(data["code"])]);
      inv.cached == old(inv.cached) && inv.deleted == old(inv.deleted) && inv.deletedAt == old(inv.deletedAt)
    ensures Grows(old(invites.live), invites.live, old(invites.Repr))
    ensures SnapsAgree(old(invites.Snaps()), invites.Snaps(),
                       HeldBy(old(invites.live), invites.keyOf, Ids(data, "code")))
    ensures Linked(data, via)
  {
    if "code" !in data {
      return Failure(KeyError);
    }
    r := NewCoded(invites, data, via);
    if r.Success? {
      label Created:
      AssignGuild(invites, r.value, guild, data, via, old(invites.Snaps()),
                  HeldBy(old(invites.live), invites.keyOf, Ids(data, "code")));
      assert unchanged@Created(invites, via.guilds, via.guilds.Repr, via.channels, via.channels.Repr, via.users, via.users.Repr);
    }
  }

  /** `invite.guild = guild`: only the guild relation changes. */
  method AssignGuild(invites: State<InviteData>, inv: Entity<InviteData>, guild: Entity<Guilds.GuildData>,
                     data: Record, via: Resolvers, ghost snaps0: map<Entity<InviteData>, Snapshot<InviteData>>,
                     ghost held: set<Entity<InviteData>>)
    requires invites.Valid() && via.Valid() && OthersResolved(inv.ext, data, via)
    requires SnapsAgree(snaps0, invites.Snaps(), held) && (inv in held || inv !in snaps0)
    modifies inv`ext
    ensures inv.ext == old(inv.ext).(guild := Some(guild))
    ensures inv.cached == old(inv.cached) && inv.attrs == old(inv.attrs)
    ensures inv.deleted == old(inv.deleted) && inv.deletedAt == old(inv.deletedAt)
    ensures invites.Valid() && via.Valid() && OthersResolved(inv.ext, data, via)
    ensures unchanged(invites) && SnapsAgree(snaps0, invites.Snaps(), held)
    ensures unchanged(via.guilds, via.guilds.Repr, via.channels, via.channels.Repr, via.users, via.users.Repr)
  {
    inv.ext := inv.ext.(guild := Some(guild));
  }

  /** A guild's vanity URL: a template-decoded object that belongs to a guild. */
  class GuildVanityUrl {
    const guild: Entity<Guilds.GuildData>
    var attrs: Record

    constructor(guild: Entity<Guilds.GuildData>)
      ensures this.guild == guild && attrs == map[]
    {
      this.guild := guild;
      attrs := map[];
    }

    function Code(): Value
      reads this`attrs
    {
      Get(attrs, "code")
    }

    /** `vanity_url.invite`: the live invite the invite state holds under the URL's code. */
    function Invite(invites: State<InviteData>): (r: Option<Entity<InviteData>>)
      reads this, invites
      ensures r.Some? <==> invites.keyOf(Code()) in invites.live
      ensures r.Some? ==> r.value == invites.live[invites.keyOf(Code())]
      ensures r.Some? && invites.Valid() ==> r.value.state == invites
    {
      invites.Get(Code())
    }

    /** `GuildVanityUrl.update(data)`: decodes the code, passes the same record to the
        invite state's `new`, and makes this URL's guild the resulting invite's guild.
        The invite `new` returns is given back, although the code discards it. */
    method Update(data: Record, invites: State<InviteData>, via: Resolvers)
      returns (r: Result<Entity<InviteData>, Error>)
      requires invites.Valid() && invites.template == InviteTemplate && invites.idKey == "code"
      requires via.Valid() && via.Apart(invites)
      modifies this`attrs, invites, invites.Repr
      modifies via.guilds, via.guilds.Repr
      modifies via.channels, via.channels.Repr, via.users, via.users.Repr
      ensures invites.Valid() && via.Valid()
      ensures attrs == Templates.Update(VanityTemplate, old(attrs), data)
      ensures "code" !in data ==> r == Failure(KeyError)
      ensures "code" in data ==>
        && (r.Success? <==> old(Linkable(data, via)))
        && (r.Failure? ==> r.error == old(LinkError(data, via)))
      ensures r.Success? ==>
        && r.value.ext.guild == Some(guild) && Code() == InviteCode(r.value)
        && OthersResolved(r.value.ext, data, via)
      ensures r.Success? && r.value.cached ==> Invite(invites) == Some(r.value)
      ensures "code" in data && invites.keyOf(data["code"]) in old(invites.live) ==>
        var inv := old(invites.live[invites.keyOf(data["code"])]);
        inv.cached == old(inv.cached) && inv.deleted == old(inv.deleted) && inv.deletedAt == old(inv.deletedAt)
      ensures Grows(old(invites.live), invites.live, old(invites.Repr))
      ensures SnapsAgree(old(invites.Snaps()), invites.Snaps(),
                         HeldBy(old(invites.live), invites.keyOf, Ids(data, "code")))
      ensures Linked(data, via)
    {
      ghost var found := if "code" in data then invites.Get(data["code"]) else None;
      SetAttrs(data, invites, via);
      assert found.Some? ==> unchanged(found.value);
      r := NewOfGuild(invites, data, via, guild);
    }

    /** The URL's own `_update(data)`: decodes the code through the vanity template;
        the invite state and the resolvers do not change. */
    method SetAttrs(data: Record, ghost invites: State<InviteData>, ghost via: Resolvers)
      requires invites.Valid() && via.Valid()
      modifies this`attrs
      ensures attrs == Templates.Update(VanityTemplate, old(attrs), data)
      ensures "code" in data ==> Code() == data["code"]
      ensures invites.Valid() && via.Valid()
      ensures unchanged(invites, invites.Repr) && invites.Snaps() == old(invites.Snaps())
      ensures unchanged(via.guilds, via.guilds.Repr, via.channels, via.channels.Repr, via.users, via.users.Repr)
      ensures via.guilds.Snaps() == old(via.guilds.Snaps()) && via.channels.Snaps() == old(via.channels.Snaps())
      ensures via.users.Snaps() == old(via.users.Snaps())
      ensures ChannelIds(data, via) == old(ChannelIds(data, via)) && LinkedUserIds(data, via) == old(LinkedUserIds(data, via))
      ensures Linkable(data, via) == old(Linkable(data, via))
      ensures !Linkable(data, via) ==> LinkError(data, via) == old(LinkError(data, via))
    {
      attrs := Templates.Update(VanityTemplate, attrs, data);
      if "code" in data {
        Templates.UpdateReads(VanityTemplate, old(attrs), data, "code", "code");
      }
      SnapsKept(invites);
      Unmoved(data, via);
    }
  }
}
