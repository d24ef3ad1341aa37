/**
 * Removal of the server-assigned `metadata.creationTimestamp` from a document
 * before it is submitted, at the top level and in every document nested in it.
 */
module Sanitizer {
  import opened Wrappers
  import opened Unstructured

  const Metadata := "metadata"
  const CreationTimestamp := "creationTimestamp"

  /** Same constructor at the root, same scalar, same list length, same map keys. */
  predicate SameShape(a: Value, b: Value)
  {
    match a
    case List(xs) => b.List? && |b.items| == |xs|
    case Obj(m) => b.Obj? && b.fields.Keys == m.Keys
    case _ => a == b
  }

  /** The sanitized form of any node: maps are sanitized, every list element is sanitized, scalars are kept. */
  function Sanitize(v: Value): (r: Value)
    ensures SameShape(v, r)
    decreases v, 1
  {
    match v
    case Obj(m) => Obj(SanitizeFields(m))
    case List(xs) => List(seq(|xs|, i requires 0 <= i < |xs| => Sanitize(xs[i])))
    case _ => v
  }

  /**
   * The sanitized form of one map: `creationTimestamp` is deleted from its
   * `metadata` map when that is a map, and every value is sanitized in turn.
   * Deleting before or after walking `metadata` gives the same map.
   */
  function SanitizeFields(m: map<string, Value>): (r: map<string, Value>)
    ensures r.Keys == m.Keys
    decreases Obj(m), 0
  {
    map k | k in m ::
      if k == Metadata && m[k].Obj? then Obj(SanitizeFields(m[k].fields) - {CreationTimestamp})
      else Sanitize(m[k])
  }

  /** The path `p.metadata.creationTimestamp` exists in `v`. */
  predicate HasTimestamp(v: Value, p: seq<Step>)
  {
    At(v, p + [Key(Metadata), Key(CreationTimestamp)]).Some?
  }

  /** No map anywhere in `v` has a `metadata` map holding `creationTimestamp`. */
  ghost predicate Clean(v: Value)
  {
    forall p :: !HasTimestamp(v, p)
  }

  /** `p` steps from a `metadata` key straight into `creationTimestamp` somewhere. */
  predicate CrossesTimestamp(p: seq<Step>)
    decreases |p|
  {
    |p| >= 2 &&
    ((p[0] == Key(Metadata) && p[1] == Key(CreationTimestamp)) || CrossesTimestamp(p[1..]))
  }

  // ---------------------------------------------------------------------------
  // Helpers about removing one key

  /** The timestamp at the root of `v`: a `metadata` map holding `creationTimestamp`. */
  lemma RootTimestamp(v: Value)
    ensures HasTimestamp(v, []) <==>
      v.Obj? && Metadata in v.fields && v.fields[Metadata].Obj? &&
      CreationTimestamp in v.fields[Metadata].fields
  {
    var tail := [Key(Metadata), Key(CreationTimestamp)];
    assert [] + tail == tail && tail[1..] == [Key(CreationTimestamp)] && tail[1..][1..] == [];
    if v.Obj? && Metadata in v.fields {
      var md := v.fields[Metadata];
      assert At(v, tail) == At(md, [Key(CreationTimestamp)]);
      if md.Obj? && CreationTimestamp in md.fields {
        assert At(md, [Key(CreationTimestamp)]) == At(md.fields[CreationTimestamp], []);
      }
    }
  }

  lemma SanitizeFieldsWithout(m: map<string, Value>, k: string)
    requires k != Metadata
    ensures SanitizeFields(m - {k}) == SanitizeFields(m) - {k}
  {
    assert SanitizeFields(m - {k}).Keys == (SanitizeFields(m) - {k}).Keys;
  }

  lemma AtWithout(m: map<string, Value>, k: string, p: seq<Step>)
    requires p != [] && p[0] != Key(k)
    ensures At(Obj(m - {k}), p) == At(Obj(m), p)
  {
  }

  /** The child a sanitized map stores under `k` is the sanitized form of a value of the input. */
  lemma SanitizedChild(m: map<string, Value>, k: string) returns (c: Value)
    requires k in m
    ensures SanitizeFields(m)[k] == Sanitize(c)
    ensures c == m[k] || (k == Metadata && m[k].Obj? && c == Obj(m[k].fields - {CreationTimestamp}))
  {
    if k == Metadata && m[k].Obj? {
      c := Obj(m[k].fields - {CreationTimestamp});
      SanitizeFieldsWithout(m[k].fields, CreationTimestamp);
    } else {
      c := m[k];
    }
  }

  // ---------------------------------------------------------------------------
  // Sanitizing removes every creation timestamp

  lemma {:induction false} SanitizeRemovesAt(v: Value, p: seq<Step>)
    ensures !HasTimestamp(Sanitize(v), p)
    decreases |p|
  {
    var tail := [Key(Metadata), Key(CreationTimestamp)];
    if p == [] {
      assert p + tail == tail;
      if v.Obj? && Metadata in v.fields {
        var c := SanitizeFields(v.fields)[Metadata];
        assert At(Sanitize(v), tail) == At(c, [Key(CreationTimestamp)]);
      }
    } else {
      assert (p + tail)[0] == p[0] && (p + tail)[1..] == p[1..] + tail;
      match p[0]
      case Key(k) =>
        if v.Obj? && k in v.fields {
          var c := SanitizedChild(v.fields, k);
          SanitizeRemovesAt(c, p[1..]);
        }
      case Index(i) =>
        if v.List? && i < |v.items| {
          SanitizeRemovesAt(v.items[i], p[1..]);
        }
    }
  }

  lemma SanitizeIsClean(v: Value)
    ensures Clean(Sanitize(v))
  {
    forall p: seq<Step> ensures !HasTimestamp(Sanitize(v), p) {
      SanitizeRemovesAt(v, p);
    }
  }

  // ---------------------------------------------------------------------------
  // Sanitizing changes nothing else

  lemma CleanChild(m: map<string, Value>, k: string)
    requires Clean(Obj(m)) && k in m
    ensures Clean(m[k])
  {
    var tail := [Key(Metadata), Key(CreationTimestamp)];
    forall p: seq<Step> ensures !HasTimestamp(m[k], p) {
      assert !HasTimestamp(Obj(m), [Key(k)] + p);
      assert ([Key(k)] + p + tail)[1..] == p + tail;
    }
  }

  lemma CleanItem(xs: seq<Value>, i: nat)
    requires Clean(List(xs)) && i < |xs|
    ensures Clean(xs[i])
  {
    var tail := [Key(Metadata), Key(CreationTimestamp)];
    forall p: seq<Step> ensures !HasTimestamp(xs[i], p) {
      assert !HasTimestamp(List(xs), [Index(i)] + p);
      assert ([Index(i)] + p + tail)[1..] == p + tail;
    }
  }

  /** A document that carries no creation timestamp is left exactly as it is. */
  lemma {:induction false} SanitizeCleanIsIdentity(v: Value)
    requires Clean(v)
    ensures Sanitize(v) == v
    decreases v
  {
    match v
    case Obj(m) =>
      forall k | k in m ensures SanitizeFields(m)[k] == m[k] {
        CleanChild(m, k);
        SanitizeCleanIsIdentity(m[k]);
        if k == Metadata && m[k].Obj? {
          var tail := [Key(Metadata), Key(CreationTimestamp)];
          RootTimestamp(v);
          assert CreationTimestamp !in m[k].fields;
          assert m[k].fields - {CreationTimestamp} == m[k].fields;
        }
      }
      assert SanitizeFields(m) == m;
    case List(xs) =>
      forall i | 0 <= i < |xs| ensures Sanitize(xs[i]) == xs[i] {
        CleanItem(xs, i);
        SanitizeCleanIsIdentity(xs[i]);
      }
      assert Sanitize(v).items == xs;
    case _ =>
  }

  /** Sanitizing twice is sanitizing once. */
  lemma SanitizeIdempotent(v: Value)
    ensures Sanitize(Sanitize(v)) == Sanitize(v)
  {
    SanitizeIsClean(v);
    SanitizeCleanIsIdentity(Sanitize(v));
  }

  /**
   * Lookup commutes with sanitizing along every path that neither passes through
   * `metadata.creationTimestamp` nor stops at a `metadata` map (whose own
   * timestamp is the one removed).
   */
  lemma {:induction false} SanitizeCommutesWithAt(v: Value, p: seq<Step>)
    requires !CrossesTimestamp(p)
    requires p == [] || p[|p| - 1] != Key(Metadata)
    ensures At(Sanitize(v), p) == (if At(v, p).Some? then Some(Sanitize(At(v, p).value)) else None)
    decreases |p|
  {
    if p != [] {
      var rest := p[1..];
      assert rest != [] ==> rest[|rest| - 1] == p[|p| - 1];
      match p[0]
      case Key(k) =>
        if v.Obj? && k in v.fields {
          var m := v.fields;
          if k == Metadata && m[k].Obj? {
            var mm := m[k].fields;
            assert rest != [] && rest[0] != Key(CreationTimestamp);
            AtWithout(SanitizeFields(mm), CreationTimestamp, rest);
            SanitizeCommutesWithAt(m[k], rest);
          } else {
            SanitizeCommutesWithAt(m[k], rest);
          }
        }
      case Index(i) =>
        if v.List? && i < |v.items| {
          SanitizeCommutesWithAt(v.items[i], rest);
        }
    }
  }

  // ---------------------------------------------------------------------------
  // What the field accessors report after sanitizing

  lemma FieldOfWithout(m: map<string, Value>, k: string, fields: seq<string>)
    requires fields != [] && fields[0] != k
    ensures FieldOf(Obj(m - {k}), fields) == FieldOf(Obj(m), fields)
  {
  }

  /**
   * Wherever the input holds a `metadata` map at `keys.metadata`, the accessor on
   * the sanitized map reports `keys.metadata.creationTimestamp` as not found,
   * without an accessor error.
   */
  lemma {:induction false} SanitizedMetadataAbsent(obj: map<string, Value>, keys: seq<string>)
    requires FieldOf(Obj(obj), keys + [Metadata]).Found?
    requires FieldOf(Obj(obj), keys + [Metadata]).value.Obj?
    ensures NestedField(SanitizeFields(obj), keys + [Metadata, CreationTimestamp]) == Absent
    decreases |keys|
  {
    if keys == [] {
      assert keys + [Metadata] == [Metadata] && [Metadata][1..] == [];
      assert keys + [Metadata, CreationTimestamp] == [Metadata, CreationTimestamp];
      assert [Metadata, CreationTimestamp][1..] == [CreationTimestamp];
      assert obj[Metadata].Obj?;
      var c := SanitizeFields(obj)[Metadata];
      assert c == Obj(SanitizeFields(obj[Metadata].fields) - {CreationTimestamp});
      assert NestedField(SanitizeFields(obj), [Metadata, CreationTimestamp]) == FieldOf(c, [CreationTimestamp]);
    } else {
      var k, rest := keys[0], keys[1..];
      assert (keys + [Metadata])[0] == k && (keys + [Metadata])[1..] == rest + [Metadata];
      assert (keys + [Metadata, CreationTimestamp])[0] == k;
      assert (keys + [Metadata, CreationTimestamp])[1..] == rest + [Metadata, CreationTimestamp];
      var m2 := obj[k].fields;
      if k == Metadata {
        assert SanitizeFields(obj)[k] == Obj(SanitizeFields(m2) - {CreationTimestamp});
        if rest != [] && rest[0] == CreationTimestamp {
          assert (rest + [Metadata, CreationTimestamp])[0] == CreationTimestamp;
          assert FieldOf(Obj(SanitizeFields(m2) - {CreationTimestamp}), rest + [Metadata, CreationTimestamp]) == Absent;
        } else {
          assert (rest + [Metadata, CreationTimestamp])[0] != CreationTimestamp;
          FieldOfWithout(SanitizeFields(m2), CreationTimestamp, rest + [Metadata, CreationTimestamp]);
          SanitizedMetadataAbsent(m2, rest);
        }
      } else {
        SanitizedMetadataAbsent(m2, rest);
      }
    }
  }

  // ---------------------------------------------------------------------------
  // Building documents that stay clean

  /** Replacing one child of a clean map by a clean value keeps it clean, unless the new `metadata` brings a timestamp. */
  lemma CleanUpdate(m: map<string, Value>, k: string, c: Value)
    requires Clean(Obj(m)) && Clean(c)
    requires k == Metadata && c.Obj? ==> CreationTimestamp !in c.fields
    ensures Clean(Obj(m[k := c]))
  {
    var tail := [Key(Metadata), Key(CreationTimestamp)];
    var u := Obj(m[k := c]);
    forall p: seq<Step> ensures !HasTimestamp(u, p) {
      if p == [] {
        assert p + tail == tail && tail[1..] == [Key(CreationTimestamp)];
        RootTimestamp(Obj(m));
        RootTimestamp(u);
      } else {
        assert (p + tail)[0] == p[0] && (p + tail)[1..] == p[1..] + tail;
        if p[0] == Key(k) {
          assert !HasTimestamp(c, p[1..]);
          assert At(u, p + tail) == At(c, p[1..] + tail);
        } else {
          assert !HasTimestamp(Obj(m), p);
          assert At(u, p + tail) == At(Obj(m), p + tail);
        }
      }
    }
  }

  /** A list of clean values is clean. */
  lemma CleanList(xs: seq<Value>)
    requires forall i :: 0 <= i < |xs| ==> Clean(xs[i])
    ensures Clean(List(xs))
  {
    var tail := [Key(Metadata), Key(CreationTimestamp)];
    forall p: seq<Step> ensures !HasTimestamp(List(xs), p) {
      if p != [] {
        assert (p + tail)[0] == p[0] && (p + tail)[1..] == p[1..] + tail;
        if p[0].Index? && p[0].index < |xs| {
          assert !HasTimestamp(xs[p[0].index], p[1..]);
        }
      } else {
        assert p + tail == tail;
      }
    }
  }

  lemma AtScalar(v: Value, q: seq<Step>)
    requires q != [] && !v.Obj? && !v.List?
    ensures At(v, q) == None
  {
  }

  /** A map of scalars is clean. */
  lemma CleanScalars(m: map<string, Value>)
    requires forall k :: k in m ==> !m[k].Obj? && !m[k].List?
    ensures Clean(Obj(m))
  {
    var tail := [Key(Metadata), Key(CreationTimestamp)];
    forall p: seq<Step> ensures !HasTimestamp(Obj(m), p) {
      if p == [] {
        assert p + tail == tail && tail[1..] == [Key(CreationTimestamp)];
        if Metadata in m {
          AtScalar(m[Metadata], [Key(CreationTimestamp)]);
        }
      } else {
        assert (p + tail)[0] == p[0] && (p + tail)[1..] == p[1..] + tail;
        if p[0].Key? && p[0].key in m {
          AtScalar(m[p[0].key], p[1..] + tail);
        }
      }
    }
  }

  // ---------------------------------------------------------------------------
  // The caller's document, sanitized in place

  /** A document whose top-level map the sanitizer rewrites in place. */
  class Document {
    var Object: map<string, Value>

    constructor (init: map<string, Value>)
      ensures Object == init
    {
      Object := init;
    }

    /**
     * Deletes `metadata.creationTimestamp`, then visits every top-level value and
     * replaces it with its sanitized form.
     */
    method RemoveCreationTimeFromMetadata()
      modifies this
      ensures Object == SanitizeFields(old(Object))
      ensures Clean(Obj(Object))
    {
      if Metadata in Object && Object[Metadata].Obj? {
        Object := Object[Metadata := Obj(Object[Metadata].fields - {CreationTimestamp})];
      }
      ghost var stripped := Object;
      var pending := Object.Keys;
      while pending != {}
        invariant pending <= stripped.Keys && Object.Keys == stripped.Keys
        invariant forall k :: k in Object && k !in pending ==> Object[k] == Sanitize(stripped[k])
        invariant forall k :: k in pending ==> Object[k] == stripped[k]
        decreases pending
      {
        var k :| k in pending;
        Object := Object[k := Sanitize(Object[k])];
        pending := pending - {k};
      }
      forall k | k in Object ensures Object[k] == SanitizeFields(old(Object))[k] {
        var c := SanitizedChild(old(Object), k);
      }
      assert Object == SanitizeFields(old(Object));
      SanitizeIsClean(Obj(old(Object)));
    }
  }
}
