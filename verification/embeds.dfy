/**
 * The embed builder: a record of optional attributes, each set through a type-checked
 * setter or reset to `None` by a clearer, plus a list of fields edited in place.
 *
 * The builder holds an `Embed`, whose attributes are a map from attribute name to value
 * and whose `fields` is a list object of its own, so that a builder made from an existing
 * embed (a shallow copy) shares that list with the original. The sub-objects (footer,
 * image, thumbnail, video, provider, author, field) are decoded from records by their
 * templates; each is tagged with the template that built it.
 */
module Embeds {
  import opened Wrappers
  import opened Values
  import Templates

  // ---------------------------------------------------------------- the embed type

  /** The six embed types. */
  datatype EmbedType = Rich | Image | Video | Gifv | Article | Link

  /** The wire value of each embed type. */
  function WireValue(t: EmbedType): string
  {
    match t
    case Rich => "rich"
    case Image => "image"
    case Video => "video"
    case Gifv => "gifv"
    case Article => "article"
    case Link => "link"
  }

  /** The enumeration member for `t`, as a runtime value. */
  function Member(t: EmbedType): Value
  {
    PyEnum("EmbedType", PyStr(WireValue(t)))
  }

  /** The embed type whose wire value is `s`, if any. */
  function FromWire(s: string): (r: Option<EmbedType>)
    ensures r.Some? ==> WireValue(r.value) == s
    ensures r.None? ==> forall t :: WireValue(t) != s
  {
    if s == "rich" then Some(Rich)
    else if s == "image" then Some(Image)
    else if s == "video" then Some(Video)
    else if s == "gifv" then Some(Gifv)
    else if s == "article" then Some(Article)
    else if s == "link" then Some(Link)
    else None
  }

  /** `EmbedType(v)`: a member is itself, a wire value is its member, and anything else
      (`None` included) raises `ValueError`. */
  function LookupType(v: Value): (r: Result<EmbedType, Error>)
    ensures r.Success? ==> v == PyStr(WireValue(r.value)) || v == Member(r.value)
    ensures r.Failure? ==> r.error == ValueError
    ensures r.Failure? ==> forall t :: v != PyStr(WireValue(t)) && v != Member(t)
  {
    match v
    case PyStr(s) =>
      if FromWire(s).Some? then Success(FromWire(s).value) else Failure(ValueError)
    case PyEnum(cls, w) =>
      if cls == "EmbedType" && w.PyStr? && FromWire(w.s).Some? then Success(FromWire(w.s).value)
      else Failure(ValueError)
    case _ => Failure(ValueError)
  }

  /** Distinct embed types have distinct wire values. */
  lemma WireValueInjective(t: EmbedType, u: EmbedType)
    ensures WireValue(t) == WireValue(u) ==> t == u
  {
  }

  /** Every embed type is found again from its wire value and from its member. */
  lemma TypeRoundTrip(t: EmbedType)
    ensures LookupType(PyStr(WireValue(t))) == Success(t)
    ensures LookupType(Member(t)) == Success(t)
  {
    WireValueInjective(t, LookupType(PyStr(WireValue(t))).value);
    WireValueInjective(t, LookupType(Member(t)).value);
  }

  // ---------------------------------------------------------------- sub-objects

  /** Which template built a sub-object. */
  datatype Kind = FooterKind | ImageKind | ThumbnailKind | VideoKind | ProviderKind | AuthorKind | FieldKind

  /** A sub-object: the template that decoded it, and its attributes. */
  datatype JsonObj = JsonObj(kind: Kind, attrs: Record)

  const MediaFields: seq<Templates.Field> :=
    [Templates.Field("url", "url"), Templates.Field("proxy_url", "proxy_url"),
     Templates.Field("height", "height"), Templates.Field("width", "width")]

  /** The template of each kind of sub-object; image, thumbnail and video share one layout. */
  function TemplateOf(k: Kind): Templates.Template
  {
    match k
    case FooterKind =>
      Templates.Template([Templates.Field("text", "text"), Templates.Field("icon_url", "icon_url"),
                          Templates.Field("proxy_icon_url", "proxy_icon_url")])
    case ImageKind => Templates.Template(MediaFields)
    case ThumbnailKind => Templates.Template(MediaFields)
    case VideoKind => Templates.Template(MediaFields)
    case ProviderKind =>
      Templates.Template([Templates.Field("name", "name"), Templates.Field("url", "url")])
    case AuthorKind =>
      Templates.Template([Templates.Field("name", "name"), Templates.Field("url", "url"),
                          Templates.Field("icon_url", "icon_url"),
                          Templates.Field("proxy_icon_url", "proxy_icon_url")])
    case FieldKind =>
      Templates.Template([Templates.Field("name", "name"), Templates.Field("value", "value"),
                          Templates.Field("inline", "inline")])
  }

  /** Every sub-object template reads each attribute from the wire key of the same name. */
  lemma SelfNamed(k: Kind)
    ensures forall f :: f in TemplateOf(k).fields ==> f.attr == f.wireKey
  {
  }

  /** `<Template>.unmarshal(data)` for a record holding only keys the template reads: the
      sub-object's attributes are exactly that record. */
  function Decode(k: Kind, data: Record): (o: JsonObj)
    requires forall key :: key in data ==> Templates.Field(key, key) in TemplateOf(k).fields
    ensures o.kind == k && o.attrs == data
  {
    SelfNamed(k);
    Templates.UnmarshalIdentity(TemplateOf(k), data);
    JsonObj(k, Templates.Unmarshal(TemplateOf(k), data))
  }

  /** `_attachment`: the record of an image, thumbnail or video, after checking that the
      URLs are strings or `None` and the sizes integers or `None`. */
  function Attachment(url: Value, proxyUrl: Value, height: Value, width: Value): (r: Result<Record, Error>)
    ensures r.Success? <==> StrOrNone(url) && StrOrNone(proxyUrl) && IntOrNone(height) && IntOrNone(width)
    ensures r.Failure? ==> r.error == TypeError
    ensures r.Success? ==> r.value.Keys == {"url", "proxy_url", "height", "width"}
    ensures r.Success? ==> (r.value["url"] == url && r.value["proxy_url"] == proxyUrl
                            && r.value["height"] == height && r.value["width"] == width)
  {
    if !StrOrNone(url) then Failure(TypeError)
    else if !StrOrNone(proxyUrl) then Failure(TypeError)
    else if !IntOrNone(height) then Failure(TypeError)
    else if !IntOrNone(width) then Failure(TypeError)
    else Success(map["url" := url, "proxy_url" := proxyUrl, "height" := height, "width" := width])
  }

  /** `_field`: a field object, after checking that the name and value are strings and
      `inline` a boolean or `None`. */
  function FieldOf(name: Value, value: Value, inline: Value): (r: Result<JsonObj, Error>)
    ensures r.Success? <==> IsStr(name) && IsStr(value) && BoolOrNone(inline)
    ensures r.Failure? ==> r.error == TypeError
    ensures r.Success? ==> r.value.kind == FieldKind
    ensures r.Success? ==> r.value.attrs == map["name" := name, "value" := value, "inline" := inline]
  {
    if !IsStr(name) then Failure(TypeError)
    else if !IsStr(value) then Failure(TypeError)
    else if !BoolOrNone(inline) then Failure(TypeError)
    else Success(Decode(FieldKind, map["name" := name, "value" := value, "inline" := inline]))
  }

  /** `add_field(*field)`: the field's elements are the positional arguments, so two or
      three of them are accepted (`inline` defaults to `None`); a value that cannot be
      unpacked, or the wrong number of elements, raises `TypeError`. */
  function Unpack(field: Value): (r: Result<JsonObj, Error>)
    ensures r.Failure? ==> r.error == TypeError
    ensures r.Success? ==> r.value.kind == FieldKind
    ensures Iterate(field).Failure? ==> r.Failure?
    ensures Iterate(field).Success? ==>
      var args := Iterate(field).value;
      && (|args| == 2 ==> r == FieldOf(args[0], args[1], PyNone))
      && (|args| == 3 ==> r == FieldOf(args[0], args[1], args[2]))
      && (|args| != 2 && |args| != 3 ==> r == Failure(TypeError))
  {
    match Iterate(field)
    case Failure(e) => Failure(TypeError)
    case Success(args) =>
      if |args| == 2 then FieldOf(args[0], args[1], PyNone)
      else if |args| == 3 then FieldOf(args[0], args[1], args[2])
      else Failure(TypeError)
  }

  // ---------------------------------------------------------------- attribute values

  /** The value of an embed attribute: a plain value (`None` included), an embed type, or
      a sub-object. */
  datatype Attr = Val(v: Value) | Typ(t: EmbedType) | Obj(o: JsonObj)

  /** The attribute stored by `set_title`, `set_description` and `set_url`. */
  function StrAttr(v: Value): (r: Result<Attr, Error>)
    ensures r.Success? <==> StrOrNone(v)
    ensures r.Success? ==> r.value == Val(v)
    ensures r.Failure? ==> r.error == TypeError
  {
    if StrOrNone(v) then Success(Val(v)) else Failure(TypeError)
  }

  /** The attribute stored by `set_timestamp`: a string is parsed as an ISO date, a number
      (a boolean included) read as a POSIX timestamp, `None` and a datetime are kept, and
      anything else raises `TypeError`. The parsers are parameters and may fail. */
  function TimestampAttr(v: Value, fromIso: string -> Result<Instant, Error>, fromStamp: real -> Result<Instant, Error>)
    : (r: Result<Attr, Error>)
    ensures r.Success? ==> r.value.Val? && (r.value.v.PyNone? || r.value.v.PyDateTime?)
    ensures v.PyNone? || v.PyDateTime? ==> r == Success(Val(v))
    ensures v.PyStr? ==> (r.Success? <==> fromIso(v.s).Success?)
    ensures v.PyStr? && r.Success? ==> r.value == Val(PyDateTime(fromIso(v.s).value))
    ensures v.PyStr? && r.Failure? ==> r.error == fromIso(v.s).error
    ensures IsInt(v) || v.PyFloat? ==>
      var stamp := if v.PyInt? then v.i as real else if v.PyFloat? then v.f else if v.b then 1.0 else 0.0;
      && (r.Success? <==> fromStamp(stamp).Success?)
      && (r.Success? ==> r.value == Val(PyDateTime(fromStamp(stamp).value)))
      && (r.Failure? ==> r.error == fromStamp(stamp).error)
    ensures (v.PyList? || v.PyDict? || v.PyEnum? || v.PyObject?) ==> r == Failure(TypeError)
  {
    match v
    case PyStr(s) => (match fromIso(s) case Success(t) => Success(Val(PyDateTime(t))) case Failure(e) => Failure(e))
    case PyInt(i) => (match fromStamp(i as real) case Success(t) => Success(Val(PyDateTime(t))) case Failure(e) => Failure(e))
    case PyBool(b) =>
      (match fromStamp(if b then 1.0 else 0.0) case Success(t) => Success(Val(PyDateTime(t))) case Failure(e) => Failure(e))
    case PyFloat(f) => (match fromStamp(f) case Success(t) => Success(Val(PyDateTime(t))) case Failure(e) => Failure(e))
    case PyNone => Success(Val(v))
    case PyDateTime(_) => Success(Val(v))
    case _ => Failure(TypeError)
  }

  /** The attribute stored by `set_color` as evidently intended: an integer or `None`, and
      `TypeError` otherwise. */
  function ColorAttr(v: Value): (r: Result<Attr, Error>)
    ensures r.Success? <==> IntOrNone(v)
    ensures r.Success? ==> r.value == Val(v)
    ensures r.Failure? ==> r.error == TypeError
  {
    if IntOrNone(v) then Success(Val(v)) else Failure(TypeError)
  }

  /** `set_color` as written: building the `TypeError` message reads a misspelled attribute
      of the value, so a rejected color raises `AttributeError` instead. */
  function ColorAttrAsWritten(v: Value): (r: Result<Attr, Error>)
    ensures r.Success? <==> IntOrNone(v)
    ensures r.Success? ==> r.value == Val(v)
    ensures r.Failure? ==> r.error == AttributeError
  {
    if IntOrNone(v) then Success(Val(v)) else Failure(AttributeError)
  }

  /** The two `set_color`s agree on every accepted value and differ in the exception of
      every rejected one; a string color shows the difference. */
  lemma ColorTypo(v: Value)
    ensures IntOrNone(v) ==> ColorAttrAsWritten(v) == ColorAttr(v)
    ensures !IntOrNone(v) ==> ColorAttrAsWritten(v) == Failure(AttributeError) && ColorAttr(v) == Failure(TypeError)
    ensures ColorAttrAsWritten(PyStr("red")).error != ColorAttr(PyStr("red")).error
  {
  }

  /** The attributes the builder's constructor sets from its keyword arguments, in order:
      title, type, description, url, timestamp and color; the first failure is raised. */
  function CreateSpec(kwargs: Record, fromIso: string -> Result<Instant, Error>, fromStamp: real -> Result<Instant, Error>)
    : (r: Result<map<string, Attr>, Error>)
    ensures r.Success? ==> r.value.Keys == {"title", "type", "description", "url", "timestamp", "color"}
    ensures r.Success? ==> r.value["title"] == Val(Get(kwargs, "title")) && StrOrNone(Get(kwargs, "title"))
    ensures r.Success? ==> r.value["type"].Typ? && LookupType(Get(kwargs, "type")) == Success(r.value["type"].t)
    ensures r.Success? ==> (r.value["description"] == Val(Get(kwargs, "description"))
                            && StrOrNone(Get(kwargs, "description")))
    ensures r.Success? ==> r.value["url"] == Val(Get(kwargs, "url")) && StrOrNone(Get(kwargs, "url"))
    ensures r.Success? ==> (r.value["timestamp"].Val?
                            && (r.value["timestamp"].v.PyNone? || r.value["timestamp"].v.PyDateTime?))
    ensures r.Success? ==> r.value["color"] == Val(Get(kwargs, "color")) && IntOrNone(Get(kwargs, "color"))
    ensures r.Success? <==>
      && StrOrNone(Get(kwargs, "title")) && LookupType(Get(kwargs, "type")).Success?
      && StrOrNone(Get(kwargs, "description")) && StrOrNone(Get(kwargs, "url"))
      && TimestampAttr(Get(kwargs, "timestamp"), fromIso, fromStamp).Success? && IntOrNone(Get(kwargs, "color"))
    ensures r.Failure? ==>
      r.error == (if !StrOrNone(Get(kwargs, "title")) then TypeError
                  else if LookupType(Get(kwargs, "type")).Failure? then ValueError
                  else if !StrOrNone(Get(kwargs, "description")) || !StrOrNone(Get(kwargs, "url")) then TypeError
                  else if TimestampAttr(Get(kwargs, "timestamp"), fromIso, fromStamp).Failure?
                  then TimestampAttr(Get(kwargs, "timestamp"), fromIso, fromStamp).error
                  else TypeError)
    ensures r.Success? ==> r.value["timestamp"] == TimestampAttr(Get(kwargs, "timestamp"), fromIso, fromStamp).value
    ensures !StrOrNone(Get(kwargs, "title")) ==> r == Failure(TypeError)
  {
    var title :- StrAttr(Get(kwargs, "title"));
    var kind :- LookupType(Get(kwargs, "type"));
    var description :- StrAttr(Get(kwargs, "description"));
    var url :- StrAttr(Get(kwargs, "url"));
    var timestamp :- TimestampAttr(Get(kwargs, "timestamp"), fromIso, fromStamp);
    var color :- ColorAttr(Get(kwargs, "color"));
    Success(map["title" := title, "type" := Typ(kind), "description" := description, "url" := url,
                "timestamp" := timestamp, "color" := color])
  }

  /** `type` has no `None` branch: a builder made without a type never succeeds, and one
      with a valid title fails with `ValueError`. */
  lemma OmittedTypeFails(kwargs: Record, fromIso: string -> Result<Instant, Error>, fromStamp: real -> Result<Instant, Error>)
    requires "type" !in kwargs
    ensures CreateSpec(kwargs, fromIso, fromStamp).Failure?
    ensures StrOrNone(Get(kwargs, "title")) ==> CreateSpec(kwargs, fromIso, fromStamp) == Failure(ValueError)
  {
    assert LookupType(PyNone) == Failure(ValueError);
  }

  // ---------------------------------------------------------------- the fields list

  /** The list of fields of an embed, edited in place. */
  class FieldList {
    var items: seq<JsonObj>

    constructor ()
      ensures items == []
    {
      items := [];
    }
  }

  /** `extend_fields(*fields)` from the list `items`: the outcome and the final list. Each
      field is unpacked and appended in turn; the first that fails stops the extension. */
  function Extended(items: seq<JsonObj>, fields: seq<Value>): (Outcome<Error>, seq<JsonObj>)
    decreases |fields|
  {
    if fields == [] then (Pass, items)
    else match Unpack(fields[0])
      case Failure(e) => (Fail(e), items)
      case Success(f) => Extended(items + [f], fields[1..])
  }

  /** How many leading fields unpack. */
  function GoodCount(fields: seq<Value>): (n: nat)
    ensures n <= |fields|
    ensures forall j :: 0 <= j < n ==> Unpack(fields[j]).Success?
    ensures n < |fields| ==> Unpack(fields[n]).Failure?
    decreases |fields|
  {
    if fields == [] || Unpack(fields[0]).Failure? then 0 else 1 + GoodCount(fields[1..])
  }

  /** The field objects of fields that all unpack, in order. */
  function UnpackAll(fields: seq<Value>): (r: seq<JsonObj>)
    requires forall j :: 0 <= j < |fields| ==> Unpack(fields[j]).Success?
    ensures |r| == |fields|
    ensures forall j :: 0 <= j < |fields| ==> r[j] == Unpack(fields[j]).value
    decreases |fields|
  {
    if fields == [] then [] else [Unpack(fields[0]).value] + UnpackAll(fields[1..])
  }

  /** `extend_fields` adds the fields before the first one that fails, in order, keeps what
      was there, and succeeds exactly when every field unpacks; a failure is that of the
      first bad field. */
  lemma {:induction false} ExtendedCharacterised(items: seq<JsonObj>, fields: seq<Value>)
    ensures Extended(items, fields).0.Pass? <==> GoodCount(fields) == |fields|
    ensures GoodCount(fields) < |fields|
        ==> Extended(items, fields).0 == Fail(Unpack(fields[GoodCount(fields)]).error)
    ensures Extended(items, fields).1 == items + UnpackAll(fields[..GoodCount(fields)])
    decreases |fields|
  {
    var n := GoodCount(fields);
    if fields == [] || Unpack(fields[0]).Failure? {
      assert n == 0 && fields[..n] == [];
    } else {
      var f := Unpack(fields[0]).value;
      var rest := fields[1..];
      assert n == 1 + GoodCount(rest);
      assert Extended(items, fields) == Extended(items + [f], rest);
      ExtendedCharacterised(items + [f], rest);
      var front := fields[..n];
      assert front[0] == fields[0];
      assert front[1..] == rest[..n - 1];
      assert UnpackAll(front) == [f] + UnpackAll(front[1..]);
      assert items + [f] + UnpackAll(rest[..n - 1]) == items + UnpackAll(front);
    }
  }

  // ---------------------------------------------------------------- embeds and the builder

  /** An embed: its attributes by name, and its list of fields. */
  class Embed {
    var attrs: map<string, Attr>
    var fields: FieldList

    /** `Embed.unmarshal({'fields': []})`: no attributes yet and an empty list of fields. */
    constructor ()
      ensures attrs == map[] && fresh(fields) && fields.items == []
    {
      attrs := map[];
      fields := new FieldList();
    }

    /** `copy.copy(e)`: the same attributes and the same list object. */
    constructor Copy(e: Embed)
      ensures attrs == e.attrs && fields == e.fields
    {
      attrs := e.attrs;
      fields := e.fields;
    }

    /** `to_builder`: a builder over a shallow copy of this embed. */
    method ToBuilder() returns (b: EmbedBuilder)
      ensures fresh(b) && fresh(b.embed) && b.embed.attrs == attrs && b.embed.fields == fields
    {
      b := new EmbedBuilder.FromEmbed(this);
    }
  }

  class EmbedBuilder {
    var embed: Embed

    /** A builder over a new embed with no attributes and no fields. */
    constructor Blank()
      ensures fresh(embed) && fresh(embed.fields) && embed.attrs == map[] && embed.fields.items == []
    {
      embed := new Embed();
    }

    /** `from_embed`: a builder over a shallow copy of `e`, sharing its list of fields. */
    constructor FromEmbed(e: Embed)
      ensures fresh(embed) && embed.attrs == e.attrs && embed.fields == e.fields
    {
      embed := new Embed.Copy(e);
    }

    /** `__init__(**kwargs)`: a blank builder, then the six setters in order; the first
        exception ends construction. */
    static method Create(kwargs: Record, fromIso: string -> Result<Instant, Error>, fromStamp: real -> Result<Instant, Error>)
      returns (r: Result<EmbedBuilder, Error>)
      ensures r.Success? <==> CreateSpec(kwargs, fromIso, fromStamp).Success?
      ensures r.Failure? ==> r.error == CreateSpec(kwargs, fromIso, fromStamp).error
      ensures r.Success? ==> fresh(r.value) && fresh(r.value.embed) && fresh(r.value.embed.fields)
      ensures r.Success? ==> (r.value.embed.attrs == CreateSpec(kwargs, fromIso, fromStamp).value
                              && r.value.embed.fields.items == [])
    {
      var b := new EmbedBuilder.Blank();
      var o := b.SetTitle(Get(kwargs, "title"));
      if o.Fail? { return Failure(o.error); }
      o := b.SetType(Get(kwargs, "type"));
      if o.Fail? { return Failure(o.error); }
      o := b.SetDescription(Get(kwargs, "description"));
      if o.Fail? { return Failure(o.error); }
      o := b.SetUrl(Get(kwargs, "url"));
      if o.Fail? { return Failure(o.error); }
      o := b.SetTimestamp(Get(kwargs, "timestamp"), fromIso, fromStamp);
      if o.Fail? { return Failure(o.error); }
      o := b.SetColor(Get(kwargs, "color"));
      if o.Fail? { return Failure(o.error); }
      r := Success(b);
    }

    /** Sets one attribute of the embed and nothing else. */
    method Assign(attr: string, a: Attr)
      modifies embed
      ensures embed.attrs == old(embed.attrs)[attr := a] && embed.fields == old(embed.fields)
    {
      embed.attrs := embed.attrs[attr := a];
    }

    method SetTitle(title: Value) returns (r: Outcome<Error>)
      modifies embed
      ensures r.Pass? <==> StrOrNone(title)
      ensures r.Pass? ==> embed.attrs == old(embed.attrs)["title" := Val(title)]
      ensures r.Fail? ==> r.error == TypeError && embed.attrs == old(embed.attrs)
      ensures embed.fields == old(embed.fields)
    {
      var a := StrAttr(title);
      if a.Failure? { return Fail(a.error); }
      Assign("title", a.value);
      r := Pass;
    }

    method ClearTitle()
      modifies embed
      ensures embed.attrs == old(embed.attrs)["title" := Val(PyNone)] && embed.fields == old(embed.fields)
    {
      Assign("title", Val(PyNone));
    }

    /** `set_type`: only one of the six types, given as a member or a wire value. */
    method SetType(kind: Value) returns (r: Outcome<Error>)
      modifies embed
      ensures r.Pass? <==> exists t :: LookupType(kind) == Success(t)
      ensures r.Pass? ==> embed.attrs == old(embed.attrs)["type" := Typ(LookupType(kind).value)]
      ensures r.Fail? ==> r.error == ValueError && embed.attrs == old(embed.attrs)
      ensures embed.fields == old(embed.fields)
    {
      var t := LookupType(kind);
      if t.Failure? { return Fail(t.error); }
      Assign("type", Typ(t.value));
      r := Pass;
    }

    method ClearType()
      modifies embed
      ensures embed.attrs == old(embed.attrs)["type" := Val(PyNone)] && embed.fields == old(embed.fields)
    {
      Assign("type", Val(PyNone));
    }

    method SetDescription(description: Value) returns (r: Outcome<Error>)
      modifies embed
      ensures r.Pass? <==> StrOrNone(description)
      ensures r.Pass? ==> embed.attrs == old(embed.attrs)["description" := Val(description)]
      ensures r.Fail? ==> r.error == TypeError && embed.attrs == old(embed.attrs)
      ensures embed.fields == old(embed.fields)
    {
      var a := StrAttr(description);
      if a.Failure? { return Fail(a.error); }
      Assign("description", a.value);
      r := Pass;
    }

    method ClearDescription()
      modifies embed
      ensures embed.attrs == old(embed.attrs)["description" := Val(PyNone)] && embed.fields == old(embed.fields)
    {
      Assign("description", Val(PyNone));
    }

    method SetUrl(url: Value) returns (r: Outcome<Error>)
      modifies embed
      ensures r.Pass? <==> StrOrNone(url)
      ensures r.Pass? ==> embed.attrs == old(embed.attrs)["url" := Val(url)]
      ensures r.Fail? ==> r.error == TypeError && embed.attrs == old(embed.attrs)
      ensures embed.fields == old(embed.fields)
    {
      var a := StrAttr(url);
      if a.Failure? { return Fail(a.error); }
      Assign("url", a.value);
      r := Pass;
    }

    method ClearUrl()
      modifies embed
      ensures embed.attrs == old(embed.attrs)["url" := Val(PyNone)] && embed.fields == old(embed.fields)
    {
      Assign("url", Val(PyNone));
    }

    method SetTimestamp(timestamp: Value, fromIso: string -> Result<Instant, Error>, fromStamp: real -> Result<Instant, Error>)
      returns (r: Outcome<Error>)
      modifies embed
      ensures r.Pass? <==> TimestampAttr(timestamp, fromIso, fromStamp).Success?
      ensures r.Pass? ==> embed.attrs == old(embed.attrs)["timestamp" := TimestampAttr(timestamp, fromIso, fromStamp).value]
      ensures r.Pass? ==> (embed.attrs["timestamp"].Val?
                           && (embed.attrs["timestamp"].v.PyNone? || embed.attrs["timestamp"].v.PyDateTime?))
      ensures r.Fail? ==> r.error == TimestampAttr(timestamp, fromIso, fromStamp).error && embed.attrs == old(embed.attrs)
      ensures embed.fields == old(embed.fields)
    {
      var a := TimestampAttr(timestamp, fromIso, fromStamp);
      if a.Failure? { return Fail(a.error); }
      Assign("timestamp", a.value);
      r := Pass;
    }

    method ClearTimestamp()
      modifies embed
      ensures embed.attrs == old(embed.attrs)["timestamp" := Val(PyNone)] && embed.fields == old(embed.fields)
    {
      Assign("timestamp", Val(PyNone));
    }

    /** `set_color` as written: a rejected color raises `AttributeError`. */
    method SetColorAsWritten(color: Value) returns (r: Outcome<Error>)
      modifies embed
      ensures r.Pass? <==> IntOrNone(color)
      ensures r.Pass? ==> embed.attrs == old(embed.attrs)["color" := Val(color)]
      ensures r.Fail? ==> r.error == AttributeError && embed.attrs == old(embed.attrs)
      ensures embed.fields == old(embed.fields)
    {
      var a := ColorAttrAsWritten(color);
      if a.Failure? { return Fail(a.error); }
      Assign("color", a.value);
      r := Pass;
    }

    /** `set_color` as evidently intended: a rejected color raises `TypeError`. */
    method SetColor(color: Value) returns (r: Outcome<Error>)
      modifies embed
      ensures r.Pass? <==> IntOrNone(color)
      ensures r.Pass? ==> embed.attrs == old(embed.attrs)["color" := Val(color)]
      ensures r.Fail? ==> r.error == TypeError && embed.attrs == old(embed.attrs)
      ensures embed.fields == old(embed.fields)
    {
      var a := ColorAttr(color);
      if a.Failure? { return Fail(a.error); }
      Assign("color", a.value);
      r := Pass;
    }

    method ClearColor()
      modifies embed
      ensures embed.attrs == old(embed.attrs)["color" := Val(PyNone)] && embed.fields == old(embed.fields)
    {
      Assign("color", Val(PyNone));
    }

    /** `set_footer`: the footer object is stored under the misspelled `foooter`, so the
        `footer` attribute keeps whatever it had. */
    method SetFooter(text: Value, iconUrl: Value, proxyIconUrl: Value) returns (r: Outcome<Error>)
      modifies embed
      ensures r.Pass? <==> IsStr(text) && StrOrNone(iconUrl) && StrOrNone(proxyIconUrl)
      ensures r.Pass? ==> embed.attrs == old(embed.attrs)["foooter" := Obj(JsonObj(FooterKind,
                map["text" := text, "icon_url" := iconUrl, "proxy_icon_url" := proxyIconUrl]))]
      ensures r.Fail? ==> r.error == TypeError && embed.attrs == old(embed.attrs)
      ensures ("footer" in embed.attrs <==> "footer" in old(embed.attrs))
           && ("footer" in embed.attrs ==> embed.attrs["footer"] == old(embed.attrs)["footer"])
      ensures embed.fields == old(embed.fields)
    {
      if !IsStr(text) || !StrOrNone(iconUrl) || !StrOrNone(proxyIconUrl) {
        return Fail(TypeError);
      }
      var o := Decode(FooterKind, map["text" := text, "icon_url" := iconUrl, "proxy_icon_url" := proxyIconUrl]);
      Assign("foooter", Obj(o));
      r := Pass;
    }

    method ClearFooter()
      modifies embed
      ensures embed.attrs == old(embed.attrs)["footer" := Val(PyNone)] && embed.fields == old(embed.fields)
    {
      Assign("footer", Val(PyNone));
    }

    method SetImage(url: Value, proxyUrl: Value, height: Value, width: Value) returns (r: Outcome<Error>)
      modifies embed
      ensures r.Pass? <==> Attachment(url, proxyUrl, height, width).Success?
      ensures r.Pass? ==> embed.attrs == old(embed.attrs)["image" := Obj(JsonObj(ImageKind, Attachment(url, proxyUrl, height, width).value))]
      ensures r.Fail? ==> r.error == TypeError && embed.attrs == old(embed.attrs)
      ensures embed.fields == old(embed.fields)
    {
      var a := Attachment(url, proxyUrl, height, width);
      if a.Failure? { return Fail(a.error); }
      Assign("image", Obj(Decode(ImageKind, a.value)));
      r := Pass;
    }

    method ClearImage()
      modifies embed
      ensures embed.attrs == old(embed.attrs)["image" := Val(PyNone)] && embed.fields == old(embed.fields)
    {
      Assign("image", Val(PyNone));
    }

    method SetThumbnail(url: Value, proxyUrl: Value, height: Value, width: Value) returns (r: Outcome<Error>)
      modifies embed
      ensures r.Pass? <==> Attachment(url, proxyUrl, height, width).Success?
      ensures r.Pass? ==> embed.attrs == old(embed.attrs)["thumbnail" := Obj(JsonObj(ThumbnailKind, Attachment(url, proxyUrl, height, width).value))]
      ensures r.Fail? ==> r.error == TypeError && embed.attrs == old(embed.attrs)
      ensures embed.fields == old(embed.fields)
    {
      var a := Attachment(url, proxyUrl, height, width);
      if a.Failure? { return Fail(a.error); }
      Assign("thumbnail", Obj(Decode(ThumbnailKind, a.value)));
      r := Pass;
    }

    method ClearThumbnail()
      modifies embed
      ensures embed.attrs == old(embed.attrs)["thumbnail" := Val(PyNone)] && embed.fields == old(embed.fields)
    {
      Assign("thumbnail", Val(PyNone));
    }

    /** `set_video`: the video is decoded with the image template, so it is an image object. */
    method SetVideo(url: Value, proxyUrl: Value, height: Value, width: Value) returns (r: Outcome<Error>)
      modifies embed
      ensures r.Pass? <==> Attachment(url, proxyUrl, height, width).Success?
      ensures r.Pass? ==> embed.attrs == old(embed.attrs)["video" := Obj(JsonObj(ImageKind, Attachment(url, proxyUrl, height, width).value))]
      ensures r.Fail? ==> r.error == TypeError && embed.attrs == old(embed.attrs)
      ensures embed.fields == old(embed.fields)
    {
      var a := Attachment(url, proxyUrl, height, width);
      if a.Failure? { return Fail(a.error); }
      Assign("video", Obj(Decode(ImageKind, a.value)));
      r := Pass;
    }

    method ClearVideo()
      modifies embed
      ensures embed.attrs == old(embed.attrs)["video" := Val(PyNone)] && embed.fields == old(embed.fields)
    {
      Assign("video", Val(PyNone));
    }

    method SetProvider(name: Value, url: Value) returns (r: Outcome<Error>)
      modifies embed
      ensures r.Pass? <==> StrOrNone(name) && StrOrNone(url)
      ensures r.Pass? ==> embed.attrs == old(embed.attrs)["provider" := Obj(JsonObj(ProviderKind, map["name" := name, "url" := url]))]
      ensures r.Fail? ==> r.error == TypeError && embed.attrs == old(embed.attrs)
      ensures embed.fields == old(embed.fields)
    {
      if !StrOrNone(name) || !StrOrNone(url) {
        return Fail(TypeError);
      }
      Assign("provider", Obj(Decode(ProviderKind, map["name" := name, "url" := url])));
      r := Pass;
    }

    method ClearProvider()
      modifies embed
      ensures embed.attrs == old(embed.attrs)["provider" := Val(PyNone)] && embed.fields == old(embed.fields)
    {
      Assign("provider", Val(PyNone));
    }

    /** `set_author`: the author object (which has no `url`) is stored under the misspelled
        `foooter`, so neither `author` nor `footer` changes. */
    method SetAuthor(name: Value, iconUrl: Value, proxyIconUrl: Value) returns (r: Outcome<Error>)
      modifies embed
      ensures r.Pass? <==> IsStr(name) && StrOrNone(iconUrl) && StrOrNone(proxyIconUrl)
      ensures r.Pass? ==> embed.attrs == old(embed.attrs)["foooter" := Obj(JsonObj(AuthorKind,
                map["name" := name, "icon_url" := iconUrl, "proxy_icon_url" := proxyIconUrl]))]
      ensures r.Fail? ==> r.error == TypeError && embed.attrs == old(embed.attrs)
      ensures ("author" in embed.attrs <==> "author" in old(embed.attrs))
           && ("author" in embed.attrs ==> embed.attrs["author"] == old(embed.attrs)["author"])
      ensures embed.fields == old(embed.fields)
    {
      if !IsStr(name) || !StrOrNone(iconUrl) || !StrOrNone(proxyIconUrl) {
        return Fail(TypeError);
      }
      var o := Decode(AuthorKind, map["name" := name, "icon_url" := iconUrl, "proxy_icon_url" := proxyIconUrl]);
      Assign("foooter", Obj(o));
      r := Pass;
    }

    method ClearAuthor()
      modifies embed
      ensures embed.attrs == old(embed.attrs)["author" := Val(PyNone)] && embed.fields == old(embed.fields)
    {
      Assign("author", Val(PyNone));
    }

    /** `add_field`: one new field at the end, or nothing changed when it is rejected. */
    method AddField(name: Value, value: Value, inline: Value) returns (r: Outcome<Error>)
      modifies embed.fields
      ensures r.Pass? <==> FieldOf(name, value, inline).Success?
      ensures r.Pass? ==> embed.fields.items == old(embed.fields.items) + [FieldOf(name, value, inline).value]
      ensures r.Fail? ==> r.error == TypeError && embed.fields.items == old(embed.fields.items)
    {
      var f := FieldOf(name, value, inline);
      if f.Failure? { return Fail(f.error); }
      embed.fields.items := embed.fields.items + [f.value];
      r := Pass;
    }

    /** `pop_field`: the field at `index` (negative counts from the end) is removed and
        returned; an index out of range raises `IndexError` and changes nothing. */
    method PopField(index: int) returns (r: Result<JsonObj, Error>)
      modifies embed.fields
      ensures r.Success? <==> -|old(embed.fields.items)| <= index < |old(embed.fields.items)|
      ensures r.Success? ==> Pop(old(embed.fields.items), index) == Success((embed.fields.items, r.value))
      ensures r.Failure? ==> r.error == IndexError && embed.fields.items == old(embed.fields.items)
    {
      var p := Pop(embed.fields.items, index);
      if p.Failure? { return Failure(p.error); }
      embed.fields.items := p.value.0;
      r := Success(p.value.1);
    }

    /** `insert_field`: the new field at the list-insert position of `index`. */
    method InsertField(index: int, name: Value, value: Value, inline: Value) returns (r: Outcome<Error>)
      modifies embed.fields
      ensures r.Pass? <==> FieldOf(name, value, inline).Success?
      ensures r.Pass? ==> embed.fields.items == Insert(old(embed.fields.items), index, FieldOf(name, value, inline).value)
      ensures r.Fail? ==> r.error == TypeError && embed.fields.items == old(embed.fields.items)
    {
      var f := FieldOf(name, value, inline);
      if f.Failure? { return Fail(f.error); }
      embed.fields.items := Insert(embed.fields.items, index, f.value);
      r := Pass;
    }

    /** `extend_fields`: `add_field(*field)` for each field in turn, stopping at the first
        exception with the fields before it kept. */
    method ExtendFields(fields: seq<Value>) returns (r: Outcome<Error>)
      modifies embed.fields
      ensures (r, embed.fields.items) == Extended(old(embed.fields.items), fields)
    {
      var i := 0;
      while i < |fields|
        invariant 0 <= i <= |fields|
        invariant Extended(old(embed.fields.items), fields) == Extended(embed.fields.items, fields[i..])
      {
        assert fields[i..][1..] == fields[i + 1..];
        var f := Unpack(fields[i]);
        if f.Failure? { return Fail(f.error); }
        embed.fields.items := embed.fields.items + [f.value];
        i := i + 1;
      }
      r := Pass;
    }

    method ClearFields()
      modifies embed.fields
      ensures embed.fields.items == []
    {
      embed.fields.items := [];
    }
  }

  /** A builder made from an existing one's embed is a shallow copy: attributes set through
      the copy leave the original alone, while a field added through the copy appears in
      the original, whose list is the same object. */
  method CopySharesFields(b: EmbedBuilder, title: Value, name: Value, value: Value) returns (copy: EmbedBuilder)
    modifies b.embed.fields
    ensures fresh(copy) && copy.embed != b.embed && copy.embed.fields == b.embed.fields
    ensures b.embed.attrs == old(b.embed.attrs)
    ensures StrOrNone(title) ==> copy.embed.attrs == old(b.embed.attrs)["title" := Val(title)]
    ensures IsStr(name) && IsStr(value)
        ==> b.embed.fields.items == old(b.embed.fields.items) + [JsonObj(FieldKind, map["name" := name, "value" := value, "inline" := PyNone])]
  {
    copy := b.embed.ToBuilder();
    var _ := copy.SetTitle(title);
    var _ := copy.AddField(name, value, PyNone);
  }
}
