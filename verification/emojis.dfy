/**
 * Emojis: a guild's custom emoji (its template, its `user` relation and its `roles`
 * lookup), and the tree of built-in emojis with their diversity variants, flattened into
 * a dictionary keyed by surrogates.
 */
module Emojis {
  import opened Wrappers
  import opened Values
  import Templates
  import opened Cache
  import Guilds

  // ---------------------------------------------------------------- guild emojis

  /** The emoji's own fields; `role_ids` is read from `'roles'`. */
  const EmojiFields := [
    Templates.Field("name", "name"),
    Templates.Field("role_ids", "roles"),
    Templates.Field("required_colons", "required_colons"),
    Templates.Field("managed", "managed"),
    Templates.Field("animated", "animated"),
    Templates.Field("available", "available")
  ]

  /** The emoji template extends the base template `base` with the emoji's own fields. */
  function EmojiTemplate(base: Templates.Template): Templates.Template
  {
    Templates.Extend([base], EmojiFields)
  }

  /** The emoji fields add no reader of `id`, so an emoji is keyed exactly as its base. */
  lemma EmojiKeyedAsBase(base: Templates.Template, idKey: string)
    requires KeyedBy(base, idKey)
    ensures KeyedBy(EmojiTemplate(base), idKey)
  {
    var t := EmojiTemplate(base);
    assert Templates.Extend([base][1..], EmojiFields) == Templates.Template(EmojiFields);
    assert t.fields == base.fields + EmojiFields;
    forall f | f in t.fields && f.attr == "id"
      ensures f.wireKey == idKey
    {
      assert f !in EmojiFields;
    }
  }

  /** What a guild emoji holds besides its template attributes. */
  datatype EmojiData = EmojiData(guild: Entity<Guilds.GuildData>, user: Option<Entity<Plain>>)

  /** `GuildEmoji.__json_init__`: a base object bound to `state`, of guild `guild`, with no user. */
  method NewGuildEmoji(state: State<EmojiData>, guild: Entity<Guilds.GuildData>)
    returns (e: Entity<EmojiData>)
    ensures fresh(e) && e.state == state
    ensures e.ext.guild == guild && e.ext.user == None
    ensures e.attrs == map[] && e.Id() == PyNone && !e.cached && !e.deleted && e.deletedAt == None
  {
    e := new Entity(state, EmojiData(guild, None));
  }

  /** `GuildEmoji.update(data)`: the template's update; then a non-`None` `'user'` record
      is appended to the users state and becomes the emoji's user. */
  method UpdateGuildEmoji(e: Entity<EmojiData>, data: Record, users: State<Plain>)
    returns (r: Outcome<Error>)
    requires users.Valid()
    modifies e`attrs, e`ext, users, users.Repr
    ensures users.Valid() && fresh(users.Repr - old(users.Repr))
    ensures e.attrs == Templates.Update(e.state.template, old(e.attrs), data)
    ensures e.ext.guild == old(e.ext.guild)
    ensures var user := Get(data, "user");
      && (user == PyNone ==> r == Pass && e.ext == old(e.ext) && users.live == old(users.live))
      && (user != PyNone ==>
            && (r.Pass? <==> user.PyDict? && users.idKey in user.entries)
            && (r.Fail? ==> e.ext == old(e.ext) && r.error == (if user.PyDict? then KeyError else TypeError))
            && (r.Pass? ==>
                  && e.ext.user.Some? && e.ext.user.value.state == users
                  && e.ext.user.value.Id() == user.entries[users.idKey]))
      && SnapsAgree(old(users.Snaps()), users.Snaps(), HeldBy(old(users.live), users.keyOf, RecordIds(user, users.idKey)))
    ensures Grows(old(users.live), users.live, old(users.Repr))
  {
    e.Update(data);
    var user := Get(data, "user");
    if user == PyNone {
      return Pass;
    }
    var u := Append(users, user);
    if u.Failure? {
      return Fail(u.error);
    }
    e.ext := e.ext.(user := Some(u.value));
    r := Pass;
  }

  /** `GuildEmoji.roles`: the guild's role under each of the emoji's role ids, in order
      (`None` for an id the roles state does not hold). An emoji that never received
      `role_ids` has no such attribute, and one whose `role_ids` is not iterable fails. */
  function Roles(e: Entity<EmojiData>, roles: State<Plain>): (r: Result<seq<Option<Entity<Plain>>>, Error>)
    reads e, roles
    ensures "role_ids" !in e.attrs ==> r == Failure(AttributeError)
    ensures "role_ids" in e.attrs ==>
      var ids := Iterate(e.attrs["role_ids"]);
      && (r.Success? <==> ids.Success?)
      && (r.Failure? ==> r.error == TypeError)
      && (r.Success? ==>
            && |r.value| == |ids.value|
            && forall i :: 0 <= i < |ids.value| ==>
                 (r.value[i].Some? <==> roles.keyOf(ids.value[i]) in roles.live)
                 && (r.value[i].Some? ==> r.value[i].value == roles.live[roles.keyOf(ids.value[i])]))
  {
    if "role_ids" !in e.attrs then Failure(AttributeError)
    else
      var ids :- Iterate(e.attrs["role_ids"]);
      Success(seq(|ids|, i requires 0 <= i < |ids| reads roles => roles.Get(ids[i])))
  }

  // ---------------------------------------------------------------- built-in emojis

  /** A built-in emoji and its diversity variants, each of the parent's category. */
  datatype BuiltinEmoji = BuiltinEmoji(
    category: Value,
    surrogates: Value,
    names: Value,
    unicodeVersion: Value,
    children: seq<BuiltinEmoji>)

  /** The number of child records `data[3]` lists, when it is a list. */
  function ChildCount(data: Value): nat
  {
    if data.PyList? && |data.items| >= 4 && data.items[3].PyList? then |data.items[3].items| else 0
  }

  /** `BuiltinEmoji(category, data)`, as the emoji it builds or the error it raises.
      `data` is indexed at 0 to 3: a list shorter than four raises `IndexError`, a dict
      (whose keys are strings) `KeyError`, and any non-subscriptable value `TypeError`.
      A string always ends in `IndexError`: either it is shorter than four, or its fourth
      character is iterated into a one-character child string that has no index 1.
      The children are built from the elements of `data[3]` in order, and the first one
      that fails stops the construction. Iterating a non-empty string or dict yields
      strings, which fail as above. */
  function BuildSpec(category: Value, data: Value): Result<BuiltinEmoji, Error>
    decreases data, ChildCount(data) + 1
  {
    match data
    case PyList(items) =>
      if |items| < 4 then Failure(IndexError)
      else
        var kids :- match items[3]
          case PyList(_) => BuildChildren(category, data, ChildCount(data))
          case PyStr(s) => if s == "" then Success([]) else Failure(IndexError)
          case PyDict(m) => if m == map[] then Success([]) else Failure(IndexError)
          case _ => Failure(TypeError);
        Success(BuiltinEmoji(category, items[0], items[1], items[2], kids))
    case PyStr(_) => Failure(IndexError)
    case PyDict(_) => Failure(KeyError)
    case _ => Failure(TypeError)
  }

  /** The children built from the first `n` child records of `data[3]`. */
  function BuildChildren(category: Value, data: Value, n: nat): Result<seq<BuiltinEmoji>, Error>
    requires n <= ChildCount(data)
    decreases data, n
  {
    if n == 0 then Success([])
    else
      var kids :- BuildChildren(category, data, n - 1);
      var child := data.items[3].items[n - 1];
      assert child < data.items[3] < data;
      var k :- BuildSpec(category, child);
      Success(kids + [k])
  }

  /** A built emoji keeps its record's first three items and its category, and has one
      child per child record, in order, each of the same category and built from it. */
  lemma {:induction false} BuildShape(category: Value, data: Value)
    requires BuildSpec(category, data).Success?
    ensures var b := BuildSpec(category, data).value;
      && data.PyList? && |data.items| >= 4
      && b.category == category
      && b.surrogates == data.items[0] && b.names == data.items[1] && b.unicodeVersion == data.items[2]
      && |b.children| == ChildCount(data)
      && forall i :: 0 <= i < ChildCount(data) ==>
           BuildSpec(category, data.items[3].items[i]) == Success(b.children[i])
           && b.children[i].category == category
  {
    var b := BuildSpec(category, data).value;
    if data.items[3].PyList? {
      ChildrenShape(category, data, ChildCount(data));
    }
  }

  lemma {:induction false} ChildrenShape(category: Value, data: Value, n: nat)
    requires n <= ChildCount(data) && BuildChildren(category, data, n).Success?
    ensures var kids := BuildChildren(category, data, n).value;
      && |kids| == n
      && forall i :: 0 <= i < n ==>
           BuildSpec(category, data.items[3].items[i]) == Success(kids[i]) && kids[i].category == category
    decreases n
  {
    if n > 0 {
      ChildrenShape(category, data, n - 1);
    }
  }

  /** Once a child fails, so does every longer prefix of the children, with its error. */
  lemma {:induction false} ChildFailureStops(category: Value, data: Value, n: nat, m: nat)
    requires n <= m <= ChildCount(data) && BuildChildren(category, data, n).Failure?
    ensures BuildChildren(category, data, m) == BuildChildren(category, data, n)
    decreases m - n
  {
    if n < m {
      ChildFailureStops(category, data, n, m - 1);
    }
  }

  /** `BuiltinEmoji.__init__`: reads the first three items, then builds and appends one
      child per element of `data[3]`, in order. */
  method NewBuiltinEmoji(category: Value, data: Value) returns (r: Result<BuiltinEmoji, Error>)
    ensures r == BuildSpec(category, data)
    decreases data
  {
    if !data.PyList? {
      return if data.PyStr? then Failure(IndexError)
             else if data.PyDict? then Failure(KeyError)
             else Failure(TypeError);
    }
    var items := data.items;
    if |items| < 4 {
      return Failure(IndexError);
    }
    if !items[3].PyList? {
      var kids: Result<seq<BuiltinEmoji>, Error> := match items[3]
        case PyStr(s) => if s == "" then Success([]) else Failure(IndexError)
        case PyDict(m) => if m == map[] then Success([]) else Failure(IndexError)
        case _ => Failure(TypeError);
      if kids.Failure? {
        return Failure(kids.error);
      }
      return Success(BuiltinEmoji(category, items[0], items[1], items[2], []));
    }
    var records := items[3].items;
    var children: seq<BuiltinEmoji> := [];
    var i := 0;
    while i < |records|
      invariant 0 <= i <= |records|
      invariant BuildChildren(category, data, i) == Success(children)
    {
      assert records[i] < items[3] < data;
      var child := NewBuiltinEmoji(category, records[i]);
      if child.Failure? {
        ChildFailureStops(category, data, i + 1, |records|);
        return Failure(child.error);
      }
      children := children + [child.value];
      i := i + 1;
    }
    r := Success(BuiltinEmoji(category, items[0], items[1], items[2], children));
  }

  /** The emoji and all its variants, parent before children, children in order. */
  function Preorder(e: BuiltinEmoji): (s: seq<BuiltinEmoji>)
    ensures |s| >= 1 && s[0] == e
    decreases e, |e.children| + 1
  {
    [e] + Forest(e, |e.children|)
  }

  /** The pre-orders of the first `n` children of `e`, concatenated. */
  function Forest(e: BuiltinEmoji, n: nat): seq<BuiltinEmoji>
    requires n <= |e.children|
    decreases e, n
  {
    if n == 0 then [] else Forest(e, n - 1) + Preorder(e.children[n - 1])
  }

  /** The dictionary after `cache[x.surrogates] = x` for each emoji `x` of `s`, in order. */
  function PutAll(m: map<Value, BuiltinEmoji>, s: seq<BuiltinEmoji>): map<Value, BuiltinEmoji>
    decreases |s|
  {
    if s == [] then m else PutAll(m[s[0].surrogates := s[0]], s[1..])
  }

  lemma {:induction false} PutAllConcat(m: map<Value, BuiltinEmoji>, a: seq<BuiltinEmoji>, b: seq<BuiltinEmoji>)
    ensures PutAll(m, a + b) == PutAll(PutAll(m, a), b)
    decreases |a|
  {
    if a == [] {
      assert a + b == b;
    } else {
      assert (a + b)[1..] == a[1..] + b;
      PutAllConcat(m[a[0].surrogates := a[0]], a[1..], b);
    }
  }

  /** A dictionary the built-in emojis are stored into. */
  class EmojiCache {
    var entries: map<Value, BuiltinEmoji>

    constructor()
      ensures entries == map[]
    {
      entries := map[];
    }
  }

  /** Whether Python can hash `v`, so that it can key a dictionary: lists and dicts
      cannot. */
  predicate Hashable(v: Value)
  {
    !v.PyList? && !v.PyDict?
  }

  /** The number of leading emojis of `s` whose surrogates can key a dictionary. */
  function HashableCount(s: seq<BuiltinEmoji>): (n: nat)
    ensures n <= |s|
    ensures forall k :: 0 <= k < n ==> Hashable(s[k].surrogates)
    ensures n < |s| ==> !Hashable(s[n].surrogates)
    decreases |s|
  {
    if s == [] || !Hashable(s[0].surrogates) then 0 else 1 + HashableCount(s[1..])
  }

  /** Behind emojis that all hash, the count goes on into what follows. */
  lemma CountAfterHashable(a: seq<BuiltinEmoji>, b: seq<BuiltinEmoji>)
    requires HashableCount(a) == |a|
    ensures HashableCount(a + b) == |a| + HashableCount(b)
  {
    assert forall k :: 0 <= k < |a| ==> (a + b)[k] == a[k];
    assert forall k :: 0 <= k < |b| ==> (a + b)[|a| + k] == b[k];
  }

  /** A prefix that holds an emoji that does not hash decides the count of the whole. */
  lemma CountOfPrefix(p: seq<BuiltinEmoji>, s: seq<BuiltinEmoji>)
    requires |p| <= |s| && s[..|p|] == p && HashableCount(p) < |p|
    ensures HashableCount(s) == HashableCount(p)
  {
    assert forall k :: 0 <= k < |p| ==> s[k] == p[k];
  }

  /** The pre-orders of fewer children are a prefix of those of more. */
  lemma {:induction false} ForestPrefix(e: BuiltinEmoji, i: nat, n: nat)
    requires i <= n <= |e.children|
    ensures |Forest(e, i)| <= |Forest(e, n)| && Forest(e, n)[..|Forest(e, i)|] == Forest(e, i)
    decreases n
  {
    if i < n {
      ForestPrefix(e, i, n - 1);
      assert Forest(e, n) == Forest(e, n - 1) + Preorder(e.children[n - 1]);
    }
  }

  /** Puts that stop inside `c`, after the puts of `a`, which all hash, stop at the same
      emoji of any sequence that `a + c` opens. */
  lemma StopsInPrefix(m0: map<Value, BuiltinEmoji>, a: seq<BuiltinEmoji>, c: seq<BuiltinEmoji>,
                      s: seq<BuiltinEmoji>)
    requires HashableCount(a) == |a| && HashableCount(c) < |c|
    requires |a + c| <= |s| && s[..|a + c|] == a + c
    ensures HashableCount(s) == |a| + HashableCount(c)
    ensures PutAll(PutAll(m0, a), c[..HashableCount(c)]) == PutAll(m0, s[..HashableCount(s)])
  {
    var m := HashableCount(c);
    assert HashableCount(s) == |a| + m by {
      CountAfterHashable(a, c);
      CountOfPrefix(a + c, s);
    }
    assert s[..|a| + m] == a + c[..m] by {
      assert s[..|a| + m] == (a + c)[..|a| + m];
    }
    PutAllConcat(m0, a, c[..m]);
  }

  /** A child's store that stopped, after the emoji and the children before it, all of
      whose surrogates hash: the emoji's store stops at the same emoji, with the same
      puts. */
  lemma StoppedChild(m0: map<Value, BuiltinEmoji>, e: BuiltinEmoji, i: nat, entries: map<Value, BuiltinEmoji>)
    requires i < |e.children|
    requires HashableCount([e] + Forest(e, i)) == |[e] + Forest(e, i)|
    requires var c := Preorder(e.children[i]);
      && HashableCount(c) < |c|
      && entries == PutAll(PutAll(m0, [e] + Forest(e, i)), c[..HashableCount(c)])
    ensures var s := Preorder(e);
      HashableCount(s) < |s| && entries == PutAll(m0, s[..HashableCount(s)])
  {
    ChildPrefix(e, i);
    ForestStep(e, i);
    StopsInPrefix(m0, [e] + Forest(e, i), Preorder(e.children[i]), Preorder(e));
  }

  /** A prefix stays a prefix behind a common first element. */
  lemma ConsPrefix(x: BuiltinEmoji, f: seq<BuiltinEmoji>, g: seq<BuiltinEmoji>)
    requires |g| <= |f| && f[..|g|] == g
    ensures ([x] + f)[..|g| + 1] == [x] + g
  {
    assert forall k :: 0 <= k < |g| + 1 ==> ([x] + f)[k] == ([x] + g)[k];
  }

  /** The emoji and the subtrees of its first `i + 1` children open its pre-order. */
  lemma ChildPrefix(e: BuiltinEmoji, i: nat)
    requires i < |e.children|
    ensures var p := [e] + Forest(e, i + 1);
      |p| <= |Preorder(e)| && Preorder(e)[..|p|] == p
  {
    var f, g := Forest(e, |e.children|), Forest(e, i + 1);
    assert |g| <= |f| && f[..|g|] == g by {
      ForestPrefix(e, i + 1, |e.children|);
    }
    ConsPrefix(e, f, g);
  }

  /** One more child's subtree, regrouped behind the emoji. */
  lemma ForestStep(e: BuiltinEmoji, i: nat)
    requires i < |e.children|
    ensures [e] + Forest(e, i + 1) == ([e] + Forest(e, i)) + Preorder(e.children[i])
  {
  }

  /** A child's store that went through: the stored prefix grows by its subtree. */
  lemma StoredChild(m0: map<Value, BuiltinEmoji>, e: BuiltinEmoji, i: nat, entries: map<Value, BuiltinEmoji>)
    requires i < |e.children|
    requires HashableCount([e] + Forest(e, i)) == |[e] + Forest(e, i)|
    requires var c := Preorder(e.children[i]);
      && HashableCount(c) == |c|
      && entries == PutAll(PutAll(m0, [e] + Forest(e, i)), c[..HashableCount(c)])
    ensures HashableCount([e] + Forest(e, i + 1)) == |[e] + Forest(e, i + 1)|
    ensures entries == PutAll(m0, [e] + Forest(e, i + 1))
  {
    var a, c := [e] + Forest(e, i), Preorder(e.children[i]);
    assert c[..|c|] == c;
    PutAllConcat(m0, a, c);
    assert [e] + Forest(e, i + 1) == a + c;
    CountAfterHashable(a, c);
  }

  /** `BuiltinEmoji.store(cache)`: the emoji under its surrogates, then each child's
      subtree in order. Emojis are put in pre-order until one whose surrogates cannot be
      hashed, where `TypeError` propagates and the puts before it remain. */
  method Store(e: BuiltinEmoji, cache: EmojiCache) returns (r: Outcome<Error>)
    modifies cache
    ensures var s := Preorder(e);
      var n := HashableCount(s);
      && cache.entries == PutAll(old(cache.entries), s[..n])
      && (r.Pass? <==> n == |s|)
      && (r.Fail? ==> r.error == TypeError)
    decreases e
  {
    if !Hashable(e.surrogates) {
      return Fail(TypeError);
    }
    cache.entries := cache.entries[e.surrogates := e];
    var i := 0;
    while i < |e.children|
      invariant 0 <= i <= |e.children|
      invariant HashableCount([e] + Forest(e, i)) == |[e] + Forest(e, i)|
      invariant cache.entries == PutAll(old(cache.entries), [e] + Forest(e, i))
    {
      r := Store(e.children[i], cache);
      if r.Fail? {
        StoppedChild(old(cache.entries), e, i, cache.entries);
        return;
      }
      StoredChild(old(cache.entries), e, i, cache.entries);
      i := i + 1;
    }
    assert Preorder(e)[..|Preorder(e)|] == Preorder(e);
    r := Pass;
  }

  /** The last put for a key wins: an emoji that no later emoji of `s` shares its
      surrogates with is what the dictionary finally holds under them. */
  lemma {:induction false} LaterWins(m: map<Value, BuiltinEmoji>, s: seq<BuiltinEmoji>, j: nat)
    requires j < |s|
    requires forall k :: j < k < |s| ==> s[k].surrogates != s[j].surrogates
    ensures s[j].surrogates in PutAll(m, s) && PutAll(m, s)[s[j].surrogates] == s[j]
    decreases |s|
  {
    if j == 0 {
      Untouched(m[s[0].surrogates := s[0]], s[1..], s[0].surrogates);
    } else {
      LaterWins(m[s[0].surrogates := s[0]], s[1..], j - 1);
    }
  }

  /** A key that no emoji of `s` has as its surrogates is left as it was. */
  lemma {:induction false} Untouched(m: map<Value, BuiltinEmoji>, s: seq<BuiltinEmoji>, key: Value)
    requires forall k :: 0 <= k < |s| ==> s[k].surrogates != key
    ensures key in PutAll(m, s) <==> key in m
    ensures key in m ==> PutAll(m, s)[key] == m[key]
    decreases |s|
  {
    if s != [] {
      Untouched(m[s[0].surrogates := s[0]], s[1..], key);
    }
  }

  /** Every emoji of `s` has its surrogates present afterwards. */
  lemma {:induction false} AllPresent(m: map<Value, BuiltinEmoji>, s: seq<BuiltinEmoji>)
    ensures forall k :: 0 <= k < |s| ==> s[k].surrogates in PutAll(m, s)
    decreases |s|
  {
    if s != [] {
      AllPresent(m[s[0].surrogates := s[0]], s[1..]);
      forall k | 0 < k < |s|
        ensures s[k].surrogates in PutAll(m, s)
      {
        assert s[k] == s[1..][k - 1];
      }
      if s[0].surrogates !in PutAll(m, s) {
        Untouched(m[s[0].surrogates := s[0]], s[1..], s[0].surrogates);
      }
    }
  }

  /** After `store`, over the emojis it put (the whole subtree when it succeeds, those
      before the first unhashable surrogates when it raises): each is present under its
      own surrogates; the one put last among those sharing surrogates wins; and every
      other key of the dictionary is unchanged. */
  lemma StoreOutcome(m: map<Value, BuiltinEmoji>, e: BuiltinEmoji)
    ensures var s := Preorder(e)[..HashableCount(Preorder(e))];
      && (forall k :: 0 <= k < |s| ==> s[k].surrogates in PutAll(m, s))
      && (forall j :: 0 <= j < |s| && (forall k :: j < k < |s| ==> s[k].surrogates != s[j].surrogates) ==>
            PutAll(m, s)[s[j].surrogates] == s[j])
      && (forall key :: (forall k :: 0 <= k < |s| ==> s[k].surrogates != key) ==>
            (key in PutAll(m, s) <==> key in m) && (key in m ==> PutAll(m, s)[key] == m[key]))
  {
    var s := Preorder(e)[..HashableCount(Preorder(e))];
    AllPresent(m, s);
    forall j | 0 <= j < |s| && (forall k :: j < k < |s| ==> s[k].surrogates != s[j].surrogates)
      ensures PutAll(m, s)[s[j].surrogates] == s[j]
    {
      LaterWins(m, s, j);
    }
    forall key | (forall k :: 0 <= k < |s| ==> s[k].surrogates != key)
      ensures (key in PutAll(m, s) <==> key in m) && (key in m ==> PutAll(m, s)[key] == m[key])
    {
      Untouched(m, s, key);
    }
  }
}
