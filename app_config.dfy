/**
 * The deep merge of the application's JSON configuration: a user config is
 * laid over the default one, object by object; a `null` in the user config
 * deletes the key, and anything that is not an object on both sides is
 * replaced by the user's value.
 */
module AppConfig {
  import opened Wrappers

  /** A JSON value; object keys are unordered, as a map. */
  datatype Json =
    | Null
    | Bool(b: bool)
    | Number(n: real)
    | Str(s: string)
    | Array(items: seq<Json>)
    | Object(fields: map<string, Json>)

  /** The value under `k` in an object, `Null` when absent: what `entry(k).or_insert(Null)` yields. */
  function Slot(fields: map<string, Json>, k: string): Json
  {
    if k in fields then fields[k] else Null
  }

  /** The keys of `b` whose value is `null`. */
  function NullKeys(b: map<string, Json>): set<string>
  {
    set k | k in b && b[k].Null?
  }

  /** The keys of `b` whose value is not `null`. */
  function NonNullKeys(b: map<string, Json>): set<string>
  {
    set k | k in b && !b[k].Null?
  }

  /** `merge(a, b)`: the value `a` holds once `b` is merged into it. */
  function MergeSpec(a: Json, b: Json): (r: Json)
    ensures !(a.Object? && b.Object?) ==> r == b
    ensures a.Object? && b.Object? ==> r.Object?
    decreases b
  {
    if a.Object? && b.Object? then
      Object(Overlay(a.fields, b.fields, b.fields.Keys))
    else b
  }

  /** The fields of `a` once the keys `done` of `b` are merged in. */
  function Overlay(a: map<string, Json>, b: map<string, Json>, done: set<string>): map<string, Json>
    requires done <= b.Keys
    decreases Object(b), 0
  {
    map k | k in (a.Keys + done) && !(k in done && b[k].Null?) ::
      if k in done then MergeSpec(Slot(a, k), b[k]) else a[k]
  }

  /** Merged fields: the keys of both sides, less those `b` sets to `null`. */
  lemma MergeKeys(a: map<string, Json>, b: map<string, Json>)
    ensures MergeSpec(Object(a), Object(b)).fields.Keys == (a.Keys + NonNullKeys(b)) - NullKeys(b)
  {
  }

  /**
   * Each key of a merged object: deleted when `b` says `null`, the merge of
   * both values when `b` names it, and `a`'s value untouched otherwise.
   */
  lemma MergeFields(a: map<string, Json>, b: map<string, Json>, k: string)
    ensures var r := MergeSpec(Object(a), Object(b)).fields;
      && (k in b && b[k].Null? ==> k !in r)
      && (k in b && !b[k].Null? ==> k in r && r[k] == MergeSpec(Slot(a, k), b[k]))
      && (k !in b && k in a ==> k in r && r[k] == a[k])
      && (k !in b && k !in a ==> k !in r)
  {
  }

  /** A key missing from the base gets the user's value verbatim, nested `null`s included. */
  lemma MergeIntoNull(v: Json)
    ensures MergeSpec(Null, v) == v
  {
  }

  /** Merging an object with no keys changes nothing. */
  lemma MergeEmpty(a: Json)
    requires a.Object?
    ensures MergeSpec(a, Object(map[])) == a
  {
    assert Overlay(a.fields, map[], {}) == a.fields;
  }

  /**
   * A user value that is neither `null` nor an object wins wherever it
   * sits: following `path` through the user config's objects, the merged
   * config holds the same value at the same path.
   */
  lemma {:induction false} UserLeafWins(a: Json, b: Json, path: seq<string>)
    requires Lookup(b, path).Some? && !Lookup(b, path).value.Null? && !Lookup(b, path).value.Object?
    ensures Lookup(MergeSpec(a, b), path) == Lookup(b, path)
    decreases path
  {
    if path != [] {
      var k := path[0];
      var bk := b.fields[k];
      assert Lookup(b, path) == Lookup(bk, path[1..]);
      assert !bk.Null?;
      if a.Object? {
        MergeFields(a.fields, b.fields, k);
        UserLeafWins(Slot(a.fields, k), bk, path[1..]);
      }
    }
  }

  /** The value at `path`, following object keys. */
  function Lookup(j: Json, path: seq<string>): Option<Json>
    decreases path
  {
    if path == [] then Some(j)
    else if j.Object? && path[0] in j.fields then Lookup(j.fields[path[0]], path[1..])
    else None
  }

  /** Merging one more key of `b` into the overlay: it is deleted or set, and no other key moves. */
  lemma OverlayStep(a: map<string, Json>, b: map<string, Json>, done: set<string>, k: string)
    requires done <= b.Keys && k in b && k !in done
    ensures Slot(Overlay(a, b, done), k) == Slot(a, k)
    ensures Overlay(a, b, done + {k}) ==
      if b[k].Null? then Overlay(a, b, done) - {k}
      else Overlay(a, b, done)[k := MergeSpec(Slot(a, k), b[k])]
  {
  }

  /** `merge`: `a` is updated in place, key by key of `b`. */
  method Merge(a: Json, b: Json) returns (r: Json)
    ensures r == MergeSpec(a, b)
    decreases b
  {
    if a.Object? && b.Object? {
      var fields := a.fields;
      var pending := b.fields.Keys;
      while pending != {}
        invariant pending <= b.fields.Keys
        invariant fields == Overlay(a.fields, b.fields, b.fields.Keys - pending)
        decreases pending
      {
        var k :| k in pending;
        var v := b.fields[k];
        OverlayStep(a.fields, b.fields, b.fields.Keys - pending, k);
        if v.Null? {
          fields := fields - {k};
        } else {
          var merged := Merge(Slot(fields, k), v);
          fields := fields[k := merged];
        }
        assert (b.fields.Keys - pending) + {k} == b.fields.Keys - (pending - {k});
        pending := pending - {k};
      }
      return Object(fields);
    }
    r := b;
  }

  /**
   * `merge_configs`: the default config is the base and the user config is
   * merged into it. Either text may fail to parse, the default first.
   */
  function MergeConfigs(defaultConfig: Result<Json, string>, userConfig: Result<Json, string>): (r: Result<Json, string>)
    ensures defaultConfig.Err? ==> r == Err(defaultConfig.error)
    ensures defaultConfig.Ok? && userConfig.Err? ==> r == Err(userConfig.error)
    ensures defaultConfig.Ok? && userConfig.Ok? ==> r == Ok(MergeSpec(defaultConfig.value, userConfig.value))
  {
    match defaultConfig
    case Err(e) => Err(e)
    case Ok(base) =>
      match userConfig
      case Err(e) => Err(e)
      case Ok(user) => Ok(MergeSpec(base, user))
  }
}
