/**
 * The declarative templates that map wire keys to object attributes.
 *
 * A template is an ordered list of fields, each naming an attribute and the wire key it
 * is read from. Updating an object from a record overwrites, field by field and in
 * order, the attribute of every field whose wire key the record holds, and leaves every
 * other attribute as it was. A template that extends others lists their fields before
 * its own, so that its own fields win.
 */
module Templates {
  import opened Wrappers
  import opened Values

  datatype Field = Field(attr: string, wireKey: string)

  datatype Template = Template(fields: seq<Field>)

  /** The attributes after one field has been read from `data`. */
  function Step(f: Field, attrs: Record, data: Record): Record
  {
    if f.wireKey in data then attrs[f.attr := data[f.wireKey]] else attrs
  }

  /** The attributes after every field, in order, has been read from `data`. */
  function ApplyFields(fields: seq<Field>, attrs: Record, data: Record): Record
    decreases |fields|
  {
    if fields == [] then attrs else ApplyFields(fields[1..], Step(fields[0], attrs, data), data)
  }

  /** `update(data)` of an object whose attributes are `attrs`. */
  function Update(t: Template, attrs: Record, data: Record): Record
  {
    ApplyFields(t.fields, attrs, data)
  }

  /** The attributes of a fresh object decoded from `data`. */
  function Unmarshal(t: Template, data: Record): Record
  {
    Update(t, map[], data)
  }

  /** `__extends__`: the parents' fields, left to right, then the template's own. */
  function Extend(parents: seq<Template>, own: seq<Field>): Template
  {
    if parents == [] then Template(own)
    else Template(parents[0].fields + Extend(parents[1..], own).fields)
  }

  /** The wire key that attribute `x` is finally read from: that of the last field for `x`
      whose wire key `data` holds, if any. */
  function Writer(fields: seq<Field>, data: Record, x: string): Option<string>
    decreases |fields|
  {
    if fields == [] then None
    else
      var later := Writer(fields[1..], data, x);
      if later.Some? then later
      else if fields[0].attr == x && fields[0].wireKey in data then Some(fields[0].wireKey)
      else None
  }

  lemma {:induction false} WriterIsPresent(fields: seq<Field>, data: Record, x: string)
    ensures Writer(fields, data, x).Some? ==> Writer(fields, data, x).value in data
    decreases |fields|
  {
    if fields != [] { WriterIsPresent(fields[1..], data, x); }
  }

  /** What an update does to one attribute: it takes the value under its writer's wire key,
      or keeps its old value (or absence) when no field for it has a key in `data`. */
  lemma {:induction false} ApplyAt(fields: seq<Field>, attrs: Record, data: Record, x: string)
    ensures var r := ApplyFields(fields, attrs, data);
      match Writer(fields, data, x)
      case Some(w) => w in data && x in r && r[x] == data[w]
      case None => (x in r <==> x in attrs) && (x in attrs ==> r[x] == attrs[x])
    decreases |fields|
  {
    WriterIsPresent(fields, data, x);
    if fields != [] {
      ApplyAt(fields[1..], Step(fields[0], attrs, data), data, x);
    }
  }

  /** An update only ever adds attributes: the keys are the old ones and the written ones. */
  lemma UpdateKeys(t: Template, attrs: Record, data: Record)
    ensures Update(t, attrs, data).Keys
         == attrs.Keys + (set f | f in t.fields && f.wireKey in data :: f.attr)
  {
    var r := Update(t, attrs, data);
    forall x ensures x in r <==> x in attrs || x in (set f | f in t.fields && f.wireKey in data :: f.attr) {
      ApplyAt(t.fields, attrs, data, x);
      WriterSome(t.fields, data, x);
    }
  }

  /** There is a writer for `x` exactly when some field for `x` has its wire key in `data`. */
  lemma {:induction false} WriterSome(fields: seq<Field>, data: Record, x: string)
    ensures Writer(fields, data, x).Some? <==> exists f :: f in fields && f.attr == x && f.wireKey in data
    decreases |fields|
  {
    if fields != [] {
      WriterSome(fields[1..], data, x);
      if Writer(fields[1..], data, x).Some? {
        var f :| f in fields[1..] && f.attr == x && f.wireKey in data;
        assert f in fields;
      }
      forall f | f in fields && f.attr == x && f.wireKey in data && f != fields[0]
        ensures f in fields[1..]
      {
      }
    }
  }

  /** Partial update: a record with no keys changes nothing. */
  lemma {:induction false} UpdateWithEmptyRecord(fields: seq<Field>, attrs: Record)
    ensures ApplyFields(fields, attrs, map[]) == attrs
    decreases |fields|
  {
    if fields != [] { UpdateWithEmptyRecord(fields[1..], attrs); }
  }

  /** An attribute that no field reads from a key of `data` is left exactly as it was. */
  lemma UpdateKeepsUnwritten(t: Template, attrs: Record, data: Record, x: string)
    requires forall f :: f in t.fields && f.attr == x ==> f.wireKey !in data
    ensures x in Update(t, attrs, data) <==> x in attrs
    ensures x in attrs ==> Update(t, attrs, data)[x] == attrs[x]
  {
    WriterSome(t.fields, data, x);
    ApplyAt(t.fields, attrs, data, x);
  }

  /** Idempotence: updating twice with the same record is updating once. */
  lemma UpdateIdempotent(t: Template, attrs: Record, data: Record)
    ensures Update(t, Update(t, attrs, data), data) == Update(t, attrs, data)
  {
    var once := Update(t, attrs, data);
    var twice := Update(t, once, data);
    forall x ensures (x in twice <==> x in once) && (x in once ==> twice[x] == once[x]) {
      ApplyAt(t.fields, attrs, data, x);
      ApplyAt(t.fields, once, data, x);
    }
    assert twice.Keys == once.Keys;
  }

  /** The fields of `a + b` for one attribute: `b`'s writer wins, `a`'s is the fallback. */
  lemma {:induction false} WriterOfConcat(a: seq<Field>, b: seq<Field>, data: Record, x: string)
    ensures Writer(a + b, data, x)
         == if Writer(b, data, x).Some? then Writer(b, data, x) else Writer(a, data, x)
    decreases |a|
  {
    if a == [] {
      assert a + b == b;
    } else {
      assert (a + b)[1..] == a[1..] + b;
      WriterOfConcat(a[1..], b, data, x);
    }
  }

  /** Composition: a field of the extending template overrides every parent field for the
      same attribute, and a parent field the template does not override stays visible. */
  lemma ExtendedWriter(parent: Template, own: seq<Field>, data: Record, x: string)
    ensures Writer(Extend([parent], own).fields, data, x)
         == if Writer(own, data, x).Some? then Writer(own, data, x) else Writer(parent.fields, data, x)
  {
    WriterOfConcat(parent.fields, own, data, x);
  }

  /** When every field for `x` reads the same wire key `k` and at least one field does,
      an update with `k` present sets `x` to the value under `k`. */
  lemma UpdateReads(t: Template, attrs: Record, data: Record, x: string, k: string)
    requires Field(x, k) in t.fields
    requires forall f :: f in t.fields && f.attr == x ==> f.wireKey == k
    requires k in data
    ensures x in Update(t, attrs, data) && Update(t, attrs, data)[x] == data[k]
  {
    WriterSome(t.fields, data, x);
    WriterIsPresent(t.fields, data, x);
    WriterFrom(t.fields, data, x);
    ApplyAt(t.fields, attrs, data, x);
  }

  /** A writer for `x` is the wire key of some field for `x`. */
  lemma {:induction false} WriterFrom(fields: seq<Field>, data: Record, x: string)
    ensures Writer(fields, data, x).Some? ==> Field(x, Writer(fields, data, x).value) in fields
    decreases |fields|
  {
    if fields != [] { WriterFrom(fields[1..], data, x); }
  }

  /** Two attributes read from the same single wire key stay equal under every update:
      both absent or both present with the same value, if they were so before. */
  lemma SharedKey(t: Template, attrs: Record, data: Record, x: string, y: string, k: string)
    requires Field(x, k) in t.fields && Field(y, k) in t.fields
    requires forall f :: f in t.fields && (f.attr == x || f.attr == y) ==> f.wireKey == k
    requires (x in attrs <==> y in attrs) && (x in attrs ==> attrs[x] == attrs[y])
    ensures var u := Update(t, attrs, data);
      (x in u <==> y in u) && (x in u ==> u[x] == u[y])
  {
    if k in data {
      UpdateReads(t, attrs, data, x, k);
      UpdateReads(t, attrs, data, y, k);
    } else {
      UpdateKeepsUnwritten(t, attrs, data, x);
      UpdateKeepsUnwritten(t, attrs, data, y);
    }
  }

  /** A template whose every field reads the attribute of the same name decodes a record
      holding only such keys into exactly that record. */
  lemma UnmarshalIdentity(t: Template, data: Record)
    requires forall f :: f in t.fields ==> f.attr == f.wireKey
    requires forall k :: k in data ==> Field(k, k) in t.fields
    ensures Unmarshal(t, data) == data
  {
    var r := Unmarshal(t, data);
    forall x ensures (x in r <==> x in data) && (x in r ==> r[x] == data[x]) {
      ApplyAt(t.fields, map[], data, x);
      WriterFrom(t.fields, data, x);
      WriterSome(t.fields, data, x);
      if x in data {
        assert Field(x, x) in t.fields;
      }
    }
    assert r.Keys == data.Keys;
  }
}
