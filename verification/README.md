# snakecord / snekcord core, modelled in Dafny

This project models the object layer of a Discord client library: entities decoded from
wire records, kept in a two-tier cache and rewired to each other on update, together with
a validated builder for message embeds.

- **Cache lifecycle** (`cache.dfy`). An entity (`Cache.Entity`) carries its attributes,
  `cached`, `deleted`, `deletedAt` and its owning state. The state (`Cache.State`) has a
  live tier, a recycle tier, a key transformer and an accept policy for `set`. `cache()`,
  `uncache()` and `_delete()` move an entity between the tiers. `new`/`append` is the
  get-or-create keyed by a record's id.
- **Templates** (`templates.dfy`). A template is an ordered list of fields, each naming an
  attribute and the wire key it is read from. `update` overwrites the attributes whose
  wire keys the record holds, and an extending template's own fields win.
- **Guilds** (`guilds.dfy`). This covers:
  - `GuildState.new`, `create`, the parameters of `bulk_fetch`, and `new_template(_ex)`;
  - `Guild.update`, which merges a pending `_channels` list into the client's channel
    state and the guild's key set;
  - the argument preparation of `Guild.prune`;
  - `GuildBan` construction and update.
- **Invites** (`invites.dfy`). This covers:
  - the invite template, which reads both `temporary` and `created_at` from `'temporary'`;
  - `Invite.update`, which resolves `guild`, `channel`, `inviter` and `target_user`
    through the client's states;
  - the invite state's get-or-create keyed by `code`;
  - `GuildVanityUrl.update` and `invite`.
- **Emojis** (`emojis.dfy`). This covers:
  - the guild emoji template, `update` and `roles`;
  - the recursive construction of a built-in emoji and its diversity variants from a
    nested list;
  - `store`, which flattens the tree into a dictionary keyed by surrogates.
- **Embeds** (`embeds.dfy`). This covers:
  - every setter and clearer of `EmbedBuilder`, with the `_attachment` and `_field`
    validators;
  - the in-place operations on the shared `fields` list;
  - the builder's constructor and `from_embed`;
  - the `EmbedType` enumeration.

  The model keeps the code's own quirks. `set_footer` and `set_author` write to a
  misspelled `foooter` attribute, so `footer` and `author` never change. `set_video`
  builds an image object. Omitting `type` makes the constructor fail with `ValueError`
  (`Embeds.OmittedTypeFails`). A builder made by `from_embed` shares its list of fields
  with the original embed.

Python values are modelled by `Values.Value` and the exceptions raised by `Values.Error`;
an operation that may raise returns a `Result` or an `Outcome`. The client's other states
(channels, users, guilds, roles) are passed in as parameters; `datetime.now()` and the
ISO and POSIX timestamp parsers are parameters too.

Two behaviours of the code that are easy to miss:

- `cache()` after `_delete()` makes the entity live again with `deleted` still true
  (`Cache.DeleteThenCache`).
- `GuildState.new` looks the id up with the state's `get` (`snakecord/states/guildstate.py:16`). `get` is
  modelled as `Cache.State.Get`, which reads only the live tier (`basestate.py` is not part
  of this model). Under that model a recycled guild is not revived: a freshly decoded one
  replaces it.

Each operation that may change a state states its frame in two parts. `Cache.Grows` says
the live tier only gained keys, each holding an entity the state had never held.
`Cache.SnapsAgree` over `Cache.HeldBy` says that of the entities the state held, only
those live under the ids the operation hands it may change their attributes, relations,
`cached`, `deleted` or `deletedAt`. `Invites.Linked` bundles both for the guild, channel
and user states across `Invite.update`, naming the guild record's id, the channel ids
(`Invites.ChannelIds`) and the user ids (`Invites.LinkedUserIds`) the update hands them.

## Model

| member | source | states |
|---|---|---|
| Values.Iterate | snakecord/objects/guildobject.py:92 | Iterating a list gives its elements, and a string gives one one-character string per character, in order. Any other value raises `TypeError`. |
| Values.ValidateKeys | snakecord/states/guildstate.py:35-36 | Passes exactly when every required key is given and every given key is accepted. Otherwise the error names the missing and the unaccepted keys. |
| Values.ToInt | snakecord/states/guildstate.py:61-62 | `int(v)` keeps integers and maps booleans to 0/1. A float is truncated toward zero: the result is within 1 and on the same side of zero. A string succeeds exactly when it parses, giving the parsed integer, and otherwise raises `ValueError`. Anything else raises `TypeError`. |
| Values.DigitsRoundTrip | snakecord/objects/guildobject.py:59 | The decimal digits of a natural number parse back to it. |
| Values.DecimalRoundTrip | snakecord/objects/guildobject.py:59 | `int(str(n)) == n` for every integer, negatives included. |
| Values.IntOfDecimalString | snakecord/objects/guildobject.py:59 | `int()` of the decimal text of a role id succeeds with that id. |
| Values.InsertPosition | snekcord/objects/embedobject.py:323-324 | A negative index counts from the end, and an out-of-range index is clamped to the nearer end. |
| Values.Insert | snekcord/objects/embedobject.py:323-324 | The list grows by one, the new element sits at the insert position, and removing it gives back the old list. |
| Values.Pop | snekcord/objects/embedobject.py:320-321 | Succeeds exactly when the (possibly negative) index is in range. It returns the element at that position and the list without it; otherwise `IndexError`. |
| Values.PopUndoesInsert | snekcord/objects/embedobject.py:320-324 | Popping at the position an insert used gives back the original list and the inserted element. |
| Values.InsertAtEndAppends | snekcord/objects/embedobject.py:323-324 | Inserting at or past the end appends. |
| Values.PopLast | snekcord/objects/embedobject.py:320-321 | `pop(-1)` removes and returns the last element. |
| Templates.ApplyAt | snakecord/objects/inviteobject.py:42-43 | After an update, each attribute holds the value under the wire key of its last field that the record holds; with no such field it keeps its old value or stays absent. |
| Templates.UpdateKeys | snakecord/objects/inviteobject.py:42-43 | The attributes after an update are the old ones plus those of every field whose wire key the record holds. |
| Templates.UpdateWithEmptyRecord | snakecord/objects/inviteobject.py:42-43 | Updating from an empty record changes nothing. |
| Templates.UpdateKeepsUnwritten | snakecord/objects/inviteobject.py:42-43 | An attribute that no present wire key feeds is left exactly as it was. |
| Templates.UpdateIdempotent | snakecord/objects/inviteobject.py:42-43 | Updating twice from the same record is the same as updating once. |
| Templates.WriterOfConcat | snakecord/objects/emojiobject.py:25-33 | For concatenated field lists, the later list's writer of an attribute wins and the earlier list's is the fallback. |
| Templates.ExtendedWriter | snakecord/objects/emojiobject.py:25-33 | In an extending template, its own field for an attribute overrides the parent's, and a parent field it does not override stays in effect. |
| Templates.UpdateReads | snakecord/objects/inviteobject.py:8-20 | When every field for an attribute reads the same key and the record holds it, the attribute takes that value. |
| Templates.SharedKey | snakecord/objects/inviteobject.py:18-19 | Two attributes read from the same single key stay equal, or both absent, under every update. |
| Templates.UnmarshalIdentity | snekcord/objects/embedobject.py:22-71 | A template whose fields read same-named keys decodes a record of such keys into exactly that record. |
| Cache.State.constructor | snakecord/objects/baseobject.py:34-42 | A state starts with both tiers empty and the given key transformer, accept policy, template and id key. |
| Cache.State.Get | snakecord/states/guildstate.py:16 | `get` finds an entity exactly when the normalised key is live, and returns the live entity; recycled entities are invisible. |
| Cache.State.Set | snakecord/objects/baseobject.py:35 | `set` answers the accept policy for the normalised key (told whether another entity holds it). When it accepts, the entity becomes live there. The recycle tier is untouched. |
| Cache.State.Pop | snakecord/objects/baseobject.py:41 | `pop` removes the key from the live tier and returns what `get` would have; the recycle tier is untouched. |
| Cache.State.Recycle | snakecord/objects/baseobject.py:42 | `recycle` maps the key to the entity in the recycle tier and leaves the live tier alone. |
| Cache.State.Unrecycle | snakecord/objects/baseobject.py:36-37 | `unrecycle` removes the key from the recycle tier, returns what it held, and leaves the live tier alone. |
| Cache.State.New | snakecord/states/guildstate.py:15-23 | Get-or-create: a record without the id key raises `KeyError` and changes nothing. A live entity under the id is updated in place and returned, with the tiers unchanged. Otherwise a fresh entity is decoded and cached by the policy. Every other entity of the state keeps its attributes, relations, `cached`, `deleted` and `deletedAt`. |
| Cache.Entity.constructor | snakecord/objects/baseobject.py:11-16 | A fresh object has no id, is neither cached nor deleted, has no deletion time, and keeps its state. |
| Cache.Entity.Hash | snakecord/objects/baseobject.py:18-23 | Hashing raises `PartialObjectError` exactly when the id is `None`; otherwise it is the hash of the id, so equal ids hash equal. |
| Cache.Entity.Update | snakecord/objects/inviteobject.py:42-43 | The attributes become the template's update of the old ones by the record. |
| Cache.Entity.Cache | snakecord/objects/baseobject.py:34-37 | `cached` becomes exactly what `set` answered. On acceptance the entity is live under its key and the key is gone from the recycle tier; otherwise both tiers are unchanged. Disjoint tiers stay disjoint. |
| Cache.Entity.Uncache | snakecord/objects/baseobject.py:39-42 | Not cached, the key gone from the live tier, and the recycle tier mapping the key to this entity. |
| Cache.Entity.Delete | snakecord/objects/baseobject.py:29-32 | Deleted with the given time stamped, not cached, and moved from the live tier to the recycle tier. |
| Cache.DeleteThenCache | snakecord/objects/baseobject.py:29-37 | Under an accepting policy, caching a deleted entity makes it live again and removes it from the recycle tier, while `deleted` stays true. |
| Cache.Append | snakecord/objects/guildobject.py:93 | `append` of a non-record raises `TypeError`, and of a record without the id key `KeyError`. Otherwise it gives an entity of that state carrying the record's id: the live one under that id, updated in place with its relations, `cached`, `deleted` and `deletedAt` kept and the tiers unchanged, or a fresh one decoded and cached by the policy. The live tier only grows, and no other entity the state held changes (`Grows`, `SnapsAgree`). |
| Guilds.NewGuild | snakecord/objects/guildobject.py:11-15 | A fresh guild is a fresh base object with an empty channel view onto the client's channel state. No entity of the guild or channel state changes. |
| Guilds.WireIds | snakecord/objects/guildobject.py:92-94 | The set of ids carried by a list of channel records holds exactly the ids of its records. |
| Guilds.KeyedCount | snakecord/objects/guildobject.py:92-94 | The number of leading channel items that are records holding the id key. Every item before it is keyed, and the one at it (if any) is not. |
| Guilds.ChannelsError | snakecord/objects/guildobject.py:92-94 | The error of a failing merge: `TypeError` when `_channels` is not iterable. Otherwise it is the error of the first item that is not a keyed record: `KeyError` for a record without the id key, `TypeError` for a non-record. |
| Guilds.GuildAttrs | snakecord/objects/guildobject.py:87-96 | After `Guild.update`, no non-`None` `_channels` attribute is left. |
| Guilds.MergeChannel | snakecord/objects/guildobject.py:93-94 | One channel record is appended to the channel state and its id added to the guild's keys. A non-record raises `TypeError` and a record without the id `KeyError`; then no key is added. The live tier only grows, and of the channels it held only the one under the record's id may change. |
| Guilds.MergeChannels | snakecord/objects/guildobject.py:91-94 | The loop succeeds exactly when every item is a keyed record. Otherwise it raises the first unkeyed item's error. Either way the guild's keys gain exactly the ids of the keyed records before that point, and each of those records is live in the channel state. The live tier only grows, and of the channels it held only those under these ids may change. |
| Guilds.MergeNext | snakecord/objects/guildobject.py:92-94 | One turn of the loop: it succeeds exactly when item `i` is a keyed record, adding its id to the keys and keeping the loop's state (`MergedUpTo`) one item further; on failure it raises that item's error and the keys and the loop's state stay at `i`. |
| Guilds.MergePending | snakecord/objects/guildobject.py:90-94 | The channel step: success exactly when `ChannelsMerge`, else `ChannelsError`. The keys become `MergedKeys`, each keyed record before a failure is live, and a `None` `_channels` leaves the channel tiers alone. Only channels under the merged ids may change. |
| Guilds.UpdateGuild | snakecord/objects/guildobject.py:87-96 | Succeeds exactly when the pending `_channels` (after the template's update) is `None` or iterable with only keyed records; otherwise it raises `ChannelsError`, and the attributes are those of the template's update. On success `_channels` is gone (`GuildAttrs`). The guild's keys gain the ids merged before any failure. With no pending `_channels` the channel state does not change. The channel tier only grows, only channels under the merged ids may change, and no other guild changes. |
| Guilds.Refresh | snakecord/states/guildstate.py:16-18 | The found branch of `new`: it succeeds exactly when the guild's update does, with the same error, keys and attributes. On success the guild itself is returned and carries the record's id. No other guild changes, the channel tier only grows, and only channels under the merged ids may change. |
| Guilds.Decode | snakecord/states/guildstate.py:19-21 | The other branch: it succeeds exactly when the fresh guild's update does, with the same error. On success the guild is fresh and carries the record's id. Its attributes are those of decoding the record, and its channel keys are the merged ids. It is cached under the id by the policy. On failure the tiers are unchanged. No guild the state held changes, and only channels under the merged ids may change. |
| Guilds.CacheGuild | snakecord/states/guildstate.py:21 | Caching a freshly decoded guild sets its `cached` to the policy's answer and makes it live under its id when accepted; its other fields, every other guild and the channel state do not change. |
| Guilds.New | snakecord/states/guildstate.py:15-23 | `KeyError` without `'id'`, with nothing changed. Otherwise it succeeds exactly when the update of the guild under the id (live, or a fresh one) succeeds, with the same error and attributes. A live guild is updated in place and returned, with the tiers unchanged. Otherwise a fresh guild is decoded and cached. The found guild keeps `cached`, `deleted` and `deletedAt`. No other guild changes (`SnapsAgree` over the guild under the id), the live tiers only grow (`Grows`), and only channels under the merged ids may change. |
| Guilds.BulkFetchParams | snakecord/states/guildstate.py:52-62 | The query holds exactly the arguments passed non-`None`: ids normalised, `limit` through `int()`. A bad limit raises what `int()` raises. |
| Guilds.Create | snakecord/states/guildstate.py:31-41 | Invalid keyword arguments raise before any request is sent or any state changes (no entity of either state changes). Otherwise the request carries the arguments and its reply goes through `new`. With `'id'` in the reply, it succeeds exactly when that `new` does, with its error. Both tiers only grow; only the guild under the reply's id and the channels under the merged ids may change. |
| Guilds.GuildIdOnUpdate | snakecord/objects/guildobject.py:87-96 | Updating a guild from a record with `'id'` sets the id to that value. |
| Guilds.NewTemplate | snakecord/states/guildstate.py:25-26 | A decoded template has an attribute exactly for the fields whose keys the record holds. Each attribute's value is the record's value under the key of the last such field. No state is touched. |
| Guilds.NewTemplateEx | snakecord/states/guildstate.py:28-29 | One template per record, in order. |
| Guilds.RoleStrings | snakecord/objects/guildobject.py:59 | One decimal string per role id, in order, each reading back as its id. |
| Guilds.PruneArguments | snakecord/objects/guildobject.py:46-61 | `remove` is popped (default true). With `roles` given, `include_roles` is added: a tuple of the role ids when removing, their comma-joined decimal text otherwise. `roles` itself is kept, and every other argument passes unchanged. |
| Guilds.Prune | snakecord/objects/guildobject.py:45-77 | Unaccepted keys raise before any request. Otherwise the request's route is chosen by `remove` and its arguments are those of `PruneArguments`: `include_roles` as a tuple or as comma-joined text, a caller's own `include_roles` kept when `roles` is absent, and every other argument unchanged. The result is the reply's `pruned` (`KeyError` when absent). |
| Guilds.GuildBanState.constructor | snakecord/states/guildstate.py:91-93 | A ban state keeps its base state and the guild it was made for. |
| Guilds.BaseInit | snakecord/objects/baseobject.py:11 | The base initialiser binds `state` only by keyword; any positional argument raises `TypeError`. |
| Guilds.NewBanAsWritten | snakecord/objects/guildobject.py:102-104 | The ban initialiser as written always raises `TypeError`. |
| Guilds.NewBan | snakecord/objects/guildobject.py:102-104 | A corrected ban is a fresh base object of its state with the guild set and no user. |
| Guilds.TakeUser | snakecord/objects/guildobject.py:109-113 | The user step alone: without `_user` nothing changes; a non-record raises `TypeError` and a record without an id `KeyError`, both leaving the ban alone. Otherwise the ban takes the appended user and its id, and `_user` is removed. Only the user under the record's id may change. |
| Guilds.UpdateBan | snakecord/objects/guildobject.py:106-113 | The template's update. A pending `_user` record is appended to the users state; the ban's user and id become that user and its id, and `_user` is deleted. A non-record raises `TypeError` and a record without an id `KeyError`; then the attributes are the template's update and the relations are unchanged. The guild never changes. Only the user under the record's id may change, and the users tier only grows. |
| Invites.InviteKeyedByCode | snakecord/objects/inviteobject.py:8-9 | An invite's id is read from `'code'` and from no other key. |
| Invites.CreatedAtIsTemporary | snakecord/objects/inviteobject.py:18-19 | `created_at` and `temporary` stay equal (or both absent) under every update. |
| Invites.DecodedCreatedAtIsTemporary | snakecord/objects/inviteobject.py:18-19 | A freshly decoded invite has equal `created_at` and `temporary`. |
| Invites.NewInvite | snakecord/objects/inviteobject.py:27-33 | A fresh invite has every related entity `None` and is a fresh base object. No entity of the invite or resolver states changes, so `Linkable`, `LinkError` and the ids handed to the resolvers are as before. |
| Invites.InviteCode | snakecord/objects/inviteobject.py:35-37 | `code` is the invite's id. |
| Invites.CodeAfterUpdate | snakecord/objects/inviteobject.py:35-37 | After an update from a record with `'code'`, `code` is that value. |
| Invites.ResolveGuild | snakecord/objects/inviteobject.py:45-47 | A related guild value goes through the guild state's `new`. It succeeds exactly when the value is a record with `'id'` whose channels merge; then it gives a guild carrying that id. Otherwise `TypeError` for a non-record, `KeyError` without `'id'`, else the merge's error. Only the guild under that id and the channels it merges may change; both tiers only grow. |
| Invites.LinkGuild | snakecord/objects/inviteobject.py:45-47 | Succeeds exactly when `guild` is `None` or resolvable. A failure raises the resolving error and changes no relation. A resolved `guild` carries the record's id. `None` changes nothing, and nothing but `guild` changes. Only the guild under the record's id and the channels it merges may change; the user state does not change. |
| Invites.LinkChannel | snakecord/objects/inviteobject.py:49-51 | The same for `channel` through the channel state: success exactly when it is `None` or a record with the id key, else `TypeError`/`KeyError` with no relation changed. Only the channel under the record's id may change; the guild and user states do not change. |
| Invites.LinkInviter | snakecord/objects/inviteobject.py:53-55 | The same for `inviter` through the user state; only the user under the record's id may change. |
| Invites.LinkTargetUser | snakecord/objects/inviteobject.py:57-59 | The same for `target_user` through the user state; only the user under the record's id may change, and no other user's attributes change. |
| Invites.LinkPlaces | snakecord/objects/inviteobject.py:45-51 | The guild and channel steps in order: success exactly when both succeed, else the first failure's error. Only the guild under the record's id and the channels under `ChannelIds` may change; the user state does not change. |
| Invites.LinkUsers | snakecord/objects/inviteobject.py:53-59 | The inviter and target-user steps in order: success exactly when both succeed, else the first failure's error. The inviter carries its record's id unless it is the same object as the target user. Only the users under the two records' ids may change; the guild and channel states do not change. |
| Invites.UpdateInvite | snakecord/objects/inviteobject.py:42-59 | The template's update, and success exactly when all four relation steps succeed (`Linkable`), else the first failing step's error (`LinkError`). On success each present relation is resolved through its state and carries its record's id. Absent relations and `target_application` are unchanged, and so are `cached`, `deleted` and `deletedAt`. The resolver states change only as `Linked` allows. |
| Invites.Link | snakecord/objects/inviteobject.py:45-59 | The four relation steps of `Invite.update`: success exactly when `Linkable`, else `LinkError`, with the same promises as `UpdateInvite` about relations. The resolver states change only as `Linked` allows. |
| Invites.RefreshInvite | snakecord/objects/inviteobject.py:89 | The found branch of the invite state's `new`: the live invite is updated in place and the tiers are unchanged. It succeeds exactly when the update does, with its error. The invite keeps `cached`, `deleted` and `deletedAt`, no other invite changes, and the resolvers change only as `Linked` allows. |
| Invites.Unmarshal | snakecord/objects/inviteobject.py:27-33 | A fresh, uncached invite whose attributes are decoded from the record and whose relations start as `None`. Its update succeeds exactly when `Linkable`, else raises `LinkError`. The invite state does not change, and the resolvers change only as `Linked` allows. |
| Invites.DecodeInvite | snakecord/objects/inviteobject.py:89 | The other branch: it succeeds exactly when the fresh invite's update does, with its error, and then the invite keeps its code and is cached under it by the policy. On failure the tiers are unchanged. No invite the state held changes, and the resolvers change only as `Linked` allows. |
| Invites.CacheDecoded | snakecord/objects/baseobject.py:34-37 | Caching a freshly decoded invite changes the invite state and the invite's `cached` by `cache()`'s rules, and nothing else about the invite. No invite the state held changes, and the resolver states do not change. |
| Invites.New | snakecord/objects/inviteobject.py:89 | `KeyError` without `'code'`. Otherwise success exactly when `Linkable`, else `LinkError`. The result's `code` is the record's code, its relations are resolved, and a cached result is what `get` returns for it. A live invite is reused with the tiers unchanged and keeps `cached`, `deleted` and `deletedAt`; otherwise a fresh one is decoded and cached. No other invite changes, and the resolvers change only as `Linked` allows. |
| Invites.NewCoded | snakecord/objects/inviteobject.py:89 | The get-or-create once the record holds a code, with the same promises, frame included. |
| Invites.NewOfGuild | snakecord/objects/inviteobject.py:89-90 | `new` followed by setting the invite's guild. It succeeds exactly when `new` does, with its error. The result has that guild, the record's code and the other relations resolved. A live invite under the code keeps `cached`, `deleted` and `deletedAt`, no other invite changes, and the resolvers change only as `Linked` allows. |
| Invites.AssignGuild | snakecord/objects/inviteobject.py:90 | `invite.guild = guild`: only the guild relation changes; the invite state and the resolvers do not. |
| Invites.GuildVanityUrl.constructor | snakecord/objects/inviteobject.py:70-71 | A vanity URL keeps its guild and has no attributes yet. |
| Invites.GuildVanityUrl.Invite | snakecord/objects/inviteobject.py:73-75 | `invite` is the live invite under the URL's code, if any, and belongs to the invite state. |
| Invites.GuildVanityUrl.Update | snakecord/objects/inviteobject.py:86-90 | The URL's attributes are updated from the record. `KeyError` without `'code'`. Otherwise it succeeds exactly when `Linkable`, else `LinkError`. The invite `new` produced has the URL's guild and code and its other relations resolved; when cached, it is what `invite` returns. A live invite under the code keeps `cached`, `deleted` and `deletedAt`, no other invite changes, and the resolvers change only as `Linked` allows. |
| Invites.GuildVanityUrl.SetAttrs | snakecord/objects/inviteobject.py:87 | The URL's own update: its attributes are the vanity template's update, and `code` is the record's code when present. No entity of the invite state or the resolvers changes, so `Linkable` and `LinkError` are as before. |
| Emojis.EmojiKeyedAsBase | snakecord/objects/emojiobject.py:25-33 | The emoji template reads the id exactly as its base template does. |
| Emojis.NewGuildEmoji | snakecord/objects/emojiobject.py:39-42 | A fresh emoji of the given guild with no user. |
| Emojis.UpdateGuildEmoji | snakecord/objects/emojiobject.py:74-79 | The template's update. A `None` user changes nothing else. A user record is appended to the users state and becomes the emoji's user with that id; otherwise `TypeError`/`KeyError` with the user unchanged. The guild never changes. Only the user under the record's id may change, and the users tier only grows. |
| Emojis.Roles | snakecord/objects/emojiobject.py:44-46 | One entry per role id, in order; entry i is `get` of role id i. `AttributeError` before `role_ids` is set, and `TypeError` when it is not iterable. |
| Emojis.BuildShape | snakecord/objects/emojiobject.py:82-93 | A built emoji keeps its record's first three items and its category. It has one child per child record, each of the same category. |
| Emojis.ChildrenShape | snakecord/objects/emojiobject.py:90-93 | The first n children are built from the first n child records, in order. |
| Emojis.ChildFailureStops | snakecord/objects/emojiobject.py:91-93 | Once a child fails, construction fails with that child's error. |
| Emojis.NewBuiltinEmoji | snakecord/objects/emojiobject.py:82-93 | The constructor's loop builds exactly the specified tree, or raises its error. |
| Emojis.Preorder | snakecord/objects/emojiobject.py:95-99 | The pre-order of an emoji starts with the emoji itself. |
| Emojis.PutAllConcat | snakecord/objects/emojiobject.py:95-99 | Storing `a + b` is storing `a`, then `b`. |
| Emojis.EmojiCache.constructor | snakecord/objects/emojiobject.py:102 | The emoji dictionary starts empty. |
| Emojis.Store | snakecord/objects/emojiobject.py:95-99 | `store` puts the emoji, then each child's subtree in order, into the dictionary. It stops at the first emoji in pre-order whose surrogates cannot be hashed (a list or a dict), raising `TypeError` with the puts before it kept; it succeeds exactly when there is none. |
| Emojis.HashableCount | snakecord/objects/emojiobject.py:96 | The number of leading emojis whose surrogates hash: each before it hashes and the one at it (if any) does not. |
| Emojis.StoppedChild | snakecord/objects/emojiobject.py:98-99 | When a child's store raises, the emoji's store raises at the same emoji in pre-order, with the same puts kept. |
| Emojis.StoredChild | snakecord/objects/emojiobject.py:98-99 | When a child's store succeeds, every surrogates stored so far hashes and the stored prefix grows by the child's whole subtree. |
| Emojis.LaterWins | snakecord/objects/emojiobject.py:95-99 | An emoji whose surrogates no later emoji repeats ends up under its surrogates. |
| Emojis.Untouched | snakecord/objects/emojiobject.py:95-99 | A key that no stored emoji has as surrogates is unchanged. |
| Emojis.AllPresent | snakecord/objects/emojiobject.py:95-99 | Every stored emoji's surrogates are present afterwards. |
| Emojis.StoreOutcome | snakecord/objects/emojiobject.py:95-99 | After `store`, over the emojis it put (the whole subtree on success): each is present, the last put wins each key, and other keys are unchanged. |
| Embeds.FromWire | snekcord/objects/embedobject.py:13-19 | The embed type with a given wire value, or none when no type has it. |
| Embeds.LookupType | snekcord/objects/embedobject.py:13-19 | `EmbedType(v)` succeeds only for a member or one of the six wire values, and yields that type; anything else, `None` included, raises `ValueError`. |
| Embeds.WireValueInjective | snekcord/objects/embedobject.py:13-19 | The six wire values are distinct. |
| Embeds.TypeRoundTrip | snekcord/objects/embedobject.py:13-19 | Every type is found again from its wire value and from its member. |
| Embeds.SelfNamed | snekcord/objects/embedobject.py:22-71 | Every sub-object template reads each attribute from the key of the same name. |
| Embeds.Decode | snekcord/objects/embedobject.py:22-71 | A sub-object decoded from a record of its own keys has exactly that record as attributes. |
| Embeds.Attachment | snekcord/objects/embedobject.py:202-228 | Succeeds exactly when the URLs are strings or `None` and the sizes integers or `None`, giving a record of the four arguments; otherwise `TypeError`. |
| Embeds.FieldOf | snekcord/objects/embedobject.py:295-315 | Succeeds exactly when name and value are strings and `inline` a boolean or `None`, giving a field object of the three arguments; otherwise `TypeError`. |
| Embeds.Unpack | snekcord/objects/embedobject.py:326-328 | `add_field(*field)` takes a two- or three-element sequence as its arguments, `inline` defaulting to `None`. A value that cannot be unpacked, or an unpacked sequence of any other length (a string unpacks into its characters), raises `TypeError`. |
| Embeds.StrAttr | snekcord/objects/embedobject.py:111-117 | Only a string or `None` is stored; anything else raises `TypeError`. |
| Embeds.TimestampAttr | snekcord/objects/embedobject.py:150-161 | The stored timestamp is always `None` or a datetime. `None` and datetimes are kept. A string succeeds exactly when the ISO parser does, storing its instant or raising its error. An integer, boolean (as 0/1) or float succeeds exactly when the POSIX-time reader does, storing its instant or raising its error. Other types raise `TypeError`. |
| Embeds.ColorAttr | snekcord/objects/embedobject.py:166-172 | As intended: an integer or `None` is stored; anything else raises `TypeError`. |
| Embeds.ColorAttrAsWritten | snekcord/objects/embedobject.py:166-172 | As written: a rejected color raises `AttributeError`. |
| Embeds.ColorTypo | snekcord/objects/embedobject.py:166-172 | The two agree on accepted colors and differ in the exception for every rejected one, a string color among them. |
| Embeds.CreateSpec | snekcord/objects/embedobject.py:102-109 | Building an embed succeeds exactly when every argument is valid for its setter, and then has exactly the six attributes, the timestamp converted. Otherwise the first invalid argument, in setter order, gives the error: `TypeError` for title, description, url or color, `ValueError` for type, and the converter's error for the timestamp. |
| Embeds.OmittedTypeFails | snekcord/objects/embedobject.py:102-105 | Without `type` the constructor never succeeds, and with a valid title it raises `ValueError`. |
| Embeds.GoodCount | snekcord/objects/embedobject.py:326-328 | The number of leading fields that unpack: all before it unpack and the one at it does not. |
| Embeds.UnpackAll | snekcord/objects/embedobject.py:326-328 | The field objects of fields that all unpack, one per field, in order. |
| Embeds.ExtendedCharacterised | snekcord/objects/embedobject.py:326-328 | `extend_fields` appends, in order, the fields before the first bad one and keeps the earlier ones. It succeeds exactly when all fields unpack, and otherwise raises the first bad field's error. |
| Embeds.FieldList.constructor | snekcord/objects/embedobject.py:103 | A new list of fields is empty. |
| Embeds.Embed.constructor | snekcord/objects/embedobject.py:103 | A new embed has no attributes and a fresh, empty list of fields. |
| Embeds.Embed.Copy | snekcord/objects/embedobject.py:336 | A shallow copy has the same attributes and the same list object. |
| Embeds.Embed.ToBuilder | snekcord/objects/embedobject.py:97-98 | A builder over a fresh shallow copy of the embed. |
| Embeds.EmbedBuilder.Blank | snekcord/objects/embedobject.py:103 | A builder over a fresh embed with no attributes and no fields. |
| Embeds.EmbedBuilder.FromEmbed | snekcord/objects/embedobject.py:333-337 | A builder over a fresh embed with the original's attributes and its very list of fields. |
| Embeds.EmbedBuilder.Create | snekcord/objects/embedobject.py:102-109 | The constructor fails exactly when `CreateSpec` does, with its error. On success it gives fresh objects, the specified attributes and an empty list of fields. The color goes through the corrected `SetColor`. |
| Embeds.EmbedBuilder.SetTitle | snekcord/objects/embedobject.py:111-117 | A string or `None` becomes `title` and nothing else changes; anything else raises `TypeError` with the embed unchanged. |
| Embeds.EmbedBuilder.ClearTitle | snekcord/objects/embedobject.py:119-120 | Only `title` is set, to `None`. |
| Embeds.EmbedBuilder.SetType | snekcord/objects/embedobject.py:122-123 | Only a member or wire value of the six types is stored, as that type; anything else, `None` included, raises `ValueError` with the embed unchanged. |
| Embeds.EmbedBuilder.ClearType | snekcord/objects/embedobject.py:125-126 | Only `type` is set, to `None`. |
| Embeds.EmbedBuilder.SetDescription | snekcord/objects/embedobject.py:128-134 | A string or `None` becomes `description`; anything else raises `TypeError` with the embed unchanged. |
| Embeds.EmbedBuilder.ClearDescription | snekcord/objects/embedobject.py:136-137 | Only `description` is set, to `None`. |
| Embeds.EmbedBuilder.SetUrl | snekcord/objects/embedobject.py:139-145 | A string or `None` becomes `url`; anything else raises `TypeError` with the embed unchanged. |
| Embeds.EmbedBuilder.ClearUrl | snekcord/objects/embedobject.py:147-148 | Only `url` is set, to `None`. |
| Embeds.EmbedBuilder.SetTimestamp | snekcord/objects/embedobject.py:150-161 | The converted timestamp, always `None` or a datetime, becomes `timestamp`. A failure leaves the embed unchanged. |
| Embeds.EmbedBuilder.ClearTimestamp | snekcord/objects/embedobject.py:163-164 | Only `timestamp` is set, to `None`. |
| Embeds.EmbedBuilder.SetColorAsWritten | snekcord/objects/embedobject.py:166-172 | As written: an integer or `None` becomes `color`; anything else raises `AttributeError` with the embed unchanged. |
| Embeds.EmbedBuilder.SetColor | snekcord/objects/embedobject.py:166-172 | As intended: an integer or `None` becomes `color`; anything else raises `TypeError` with the embed unchanged. |
| Embeds.EmbedBuilder.ClearColor | snekcord/objects/embedobject.py:174-175 | Only `color` is set, to `None`. |
| Embeds.EmbedBuilder.SetFooter | snekcord/objects/embedobject.py:177-197 | With a string text and string-or-`None` URLs, a footer object of the three arguments is stored under `foooter`, so `footer` keeps its value. Otherwise `TypeError` with the embed unchanged. |
| Embeds.EmbedBuilder.ClearFooter | snekcord/objects/embedobject.py:199-200 | Only `footer` is set, to `None`. |
| Embeds.EmbedBuilder.SetImage | snekcord/objects/embedobject.py:230-232 | The validated attachment becomes an image object under `image`; otherwise `TypeError` with the embed unchanged. |
| Embeds.EmbedBuilder.ClearImage | snekcord/objects/embedobject.py:234-235 | Only `image` is set, to `None`. |
| Embeds.EmbedBuilder.SetThumbnail | snekcord/objects/embedobject.py:237-239 | The validated attachment becomes a thumbnail object under `thumbnail`; otherwise `TypeError` with the embed unchanged. |
| Embeds.EmbedBuilder.ClearThumbnail | snekcord/objects/embedobject.py:241-242 | Only `thumbnail` is set, to `None`. |
| Embeds.EmbedBuilder.SetVideo | snekcord/objects/embedobject.py:244-246 | The validated attachment becomes an image object (not a video object) under `video`; otherwise `TypeError` with the embed unchanged. |
| Embeds.EmbedBuilder.ClearVideo | snekcord/objects/embedobject.py:248-249 | Only `video` is set, to `None`. |
| Embeds.EmbedBuilder.SetProvider | snekcord/objects/embedobject.py:251-265 | With string-or-`None` name and URL, a provider object of the two is stored under `provider`; otherwise `TypeError` with the embed unchanged. |
| Embeds.EmbedBuilder.ClearProvider | snekcord/objects/embedobject.py:267-268 | Only `provider` is set, to `None`. |
| Embeds.EmbedBuilder.SetAuthor | snekcord/objects/embedobject.py:270-290 | With a string name and string-or-`None` URLs, an author object (with no `url`) is stored under `foooter`, so `author` keeps its value. Otherwise `TypeError` with the embed unchanged. |
| Embeds.EmbedBuilder.ClearAuthor | snekcord/objects/embedobject.py:292-293 | Only `author` is set, to `None`. |
| Embeds.EmbedBuilder.AddField | snekcord/objects/embedobject.py:317-318 | A valid field is appended after the existing ones; an invalid one raises `TypeError` with the list unchanged. |
| Embeds.EmbedBuilder.PopField | snekcord/objects/embedobject.py:320-321 | Removes and returns the field at the index, by list-pop semantics; an index out of range raises `IndexError` with the list unchanged. |
| Embeds.EmbedBuilder.InsertField | snekcord/objects/embedobject.py:323-324 | A valid field is inserted by list-insert semantics; an invalid one raises `TypeError` with the list unchanged. |
| Embeds.EmbedBuilder.ExtendFields | snekcord/objects/embedobject.py:326-328 | The outcome and final list are those of adding each field in turn and stopping at the first failure (characterised by `ExtendedCharacterised`). |
| Embeds.EmbedBuilder.ClearFields | snekcord/objects/embedobject.py:330-331 | The list of fields is empty. |
| Embeds.CopySharesFields | snekcord/objects/embedobject.py:333-337 | Through a builder made by `from_embed`, setting the title leaves the original's attributes alone, while an added field appears in the original's list. |

## Left out

- REST requests, the network and the asyncio loop are left out. The replies of `create`, `prune` and the fetches are parameters, and `create`/`prune` return the request they would send.
- `manager.py` (signal handling, the event loop, session construction) and the user client wrapper are not part of this model.
- `basestate.py` is not part of this model. The state is a class with `get`, `set`, `pop`, `recycle` and `unrecycle`; `set`'s accept policy and the key transformer are parameters. `new`/`append` of the states other than guilds are modelled as the same get-or-create as `GuildState.new`.
- The `utils` templates (`JsonTemplate`, `JsonField`, `JsonArray`, `JsonObject`) are modelled as "overwrite the attributes whose wire keys are present". Field decoders and encoders (`datetime.fromisoformat`, `attrgetter('value')`), defaults such as `EmbedType.RICH`, and serialisation back to records are left out.
- `Snowflake.try_snowflake` and `try_snowflake_set` are parameters.
- `datetime.now()`, `fromisoformat` and `fromtimestamp` are parameters: floating point, time zones and the clock are not modelled.
- The `sys.path`/`sys.modules` import manipulation, the `ALL_CATEGORIES` table and the module-level loop that fills `BUILTIN_EMOJIS` are external data. Only the emoji dictionary's starting state and `store` are modelled.
- `GuildEmoji.modify`/`delete`, `Guild.modify`/`delete`/`fetch_*`, `Invite.delete`, `GuildVanityUrl.fetch` and `GuildBanState.fetch`/`add`/`remove` are REST calls and are left out. So is `__repr__`.
- Guilds.NewGuild: the guild's channel view is a value (the client's channel state plus a key set); its object identity and its back-reference to the guild are not modelled.
- Emojis.Roles: `guild.roles` is passed as a parameter.
- Emojis.NewBuiltinEmoji: the tree is a value, so the identity of the emoji objects and of their children lists is not modelled.
- Values.Iterate: iterating a dict (which yields its keys) raises `TypeError` in the model. Affected callers are the `_channels` loop, `roles` and `add_field(*field)`.
- Values.ToInt: `int()` of a string accepts only an optional sign and decimal digits; surrounding whitespace and `_` separators are not modelled.
- Invites.LinkUsers: when `inviter` and `target_user` name the same user, the inviter's id is promised only up to that aliasing (the second `new` may rewrite the shared object).
- Invites.UpdateInvite: the template update is applied after the relations are resolved. The relations read only `data`, so the result is the same, but the order of the two steps is not that of the code.
- Invites.New: the freshness of the invite state's and the resolving states' footprints is not promised.
- Invites.GuildVanityUrl.Update: it returns the invite that `new` produced so the caller can see it.
- Values.ValidateKeys: `_validate_keys` is defined in `utils`, which is not part of this model. Its check (every required key given, every given key accepted) and the single error naming the offending keys are assumed from how `create` and `prune` call it.
- Guilds.NewGuild, Guilds.UpdateGuild and Guilds.UpdateBan: `guildobject.py` reaches the client's states through `self._state` (lines 14, 93 and 111), while `BaseObject` stores its state in the `state` slot. `JsonObject` is defined in `utils`, which is not part of this model, and the model assumes that `_state` is that same state. If `JsonObject` provides no `_state`, these lines raise `AttributeError`, and the model does not capture that.
- Guilds.NewBan: the corrected ban has no user yet. The model stores `None`, whereas the code leaves the `user` slot unset, so reading it before an update raises `AttributeError`.
- Embeds.EmbedBuilder.Create: the constructor's color goes through the corrected `SetColor`, so a non-integer color raises `TypeError`. The code as written raises `AttributeError` there (see Findings; `Embeds.EmbedBuilder.SetColorAsWritten` models that setter).
- Emojis.Store: the emoji dictionary is keyed by model values, which are equal only when structurally equal, so Python's `1 == True == 1.0` key collapsing does not apply; that matters only for surrogates that are numbers or booleans. `Values.Value` does not tell a tuple from a list, so every list-valued surrogates is treated as unhashable, whereas Python hashes a tuple of hashable items.
- Embeds.Embed.constructor: the embed's attributes are a map from name to value. The default-valued attributes the embed template would give a fresh embed are not modelled.

## Findings

| source | as written | input that shows it | evidently intended | confidence | as-written member | corrected member |
|---|---|---|---|---|---|---|
| snakecord/objects/guildobject.py:102-104 | `GuildBan.__init__` calls the base initialiser with `state` positionally, but the base takes `state` only by keyword | `GuildBan(state=s, guild=g)` raises `TypeError` | pass `state=state` by keyword | medium; not executed | Guilds.NewBanAsWritten | Guilds.NewBan |
| snekcord/objects/embedobject.py:166-172 | the `TypeError` message formats `__clas__`, an attribute no value has | `set_color("red")` raises `AttributeError` | raise `TypeError` for a non-integer color | high; not executed | Embeds.EmbedBuilder.SetColorAsWritten | Embeds.EmbedBuilder.SetColor |
