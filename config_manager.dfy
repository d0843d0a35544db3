/**
 * ConfigManager: a nested configuration tree read and written by dotted
 * keys ("ui.theme.color" is the path ["ui", "theme", "color"]).
 *
 * get walks the path with `value = value[k]` and answers the default on a
 * KeyError or TypeError; set walks all but the last segment with
 * setdefault(k, {}) and then assigns the leaf. The tree is a Value; the
 * in-place update of nested dicts is rendered as storing each updated dict
 * back into its parent, bottom up (Wrap).
 */
module Config {
  import opened Wrappers
  import opened Values
  import Text
  import Dicts

  /** key.split('.'). */
  function Path(key: string): (keys: seq<string>)
    ensures |keys| >= 1
  {
    Text.Split(key, '.')
  }

  /** The value at `keys` below `v`, or None when some `value[k]` raises. */
  function PathGet(v: Value, keys: seq<string>): (r: Option<Value>)
    ensures keys == [] ==> r == Some(v)
    ensures keys != [] && r.Some? ==> v.Dict? && keys[0] in Dicts.Keys(v.entries)
    decreases |keys|
  {
    if keys == [] then Some(v)
    else
      match Index(v, keys[0])
      case Err(_) => None
      case Ok(child) => PathGet(child, keys[1..])
  }

  /** The AttributeError of `v.setdefault(...)` on a value that is not a dict. */
  function SetdefaultError(v: Value): string {
    "'" + TypeName(v) + "' object has no attribute 'setdefault'"
  }

  /** The TypeError of `v[k] = x` on a value that is not a dict. */
  function AssignError(v: Value): string {
    if v.List? then "list indices must be integers or slices, not str"
    else "'" + TypeName(v) + "' object does not support item assignment"
  }

  /**
   * The tree after set(keys, x), or the exception it raises when an existing
   * value on the path is not a dict.
   */
  function PathSet(v: Value, keys: seq<string>, x: Value): (r: Result<Value>)
    requires |keys| >= 1
    ensures r.Ok? ==> v.Dict? && r.value.Dict?
    ensures !v.Dict? ==> r.Err?
    decreases |keys|
  {
    if !v.Dict? then
      Err(if |keys| == 1 then AssignError(v) else SetdefaultError(v))
    else if |keys| == 1 then
      Ok(Dict(Dicts.Put(v.entries, keys[0], x)))
    else
      match PathSet(Dicts.Lookup(v.entries, keys[0]).GetOr(Dict([])), keys[1..], x)
      case Err(e) => Err(e)
      case Ok(child) => Ok(Dict(Dicts.Put(v.entries, keys[0], child)))
  }

  /** Every value already on the path, above the leaf, is a dict. */
  function DictPath(v: Value, keys: seq<string>): (r: bool)
    requires |keys| >= 1
    ensures r ==> v.Dict?
    ensures |keys| == 1 ==> (r <==> v.Dict?)
    decreases |keys|
  {
    v.Dict? &&
    (|keys| > 1 && keys[0] in Dicts.Keys(v.entries) ==>
      DictPath(Dicts.Lookup(v.entries, keys[0]).value, keys[1..]))
  }

  /** set succeeds exactly when every existing value on the path is a dict. */
  lemma {:induction false} SetSucceedsIff(v: Value, keys: seq<string>, x: Value)
    requires |keys| >= 1
    ensures PathSet(v, keys, x).Ok? <==> DictPath(v, keys)
    decreases |keys|
  {
    if v.Dict? && |keys| > 1 {
      var child := Dicts.Lookup(v.entries, keys[0]);
      if child.Some? {
        SetSucceedsIff(child.value, keys[1..], x);
      } else {
        SetSucceedsIff(Dict([]), keys[1..], x);
        EmptyIsDictPath(keys[1..]);
      }
    }
  }

  /** A fresh {} is a dict path for any key: it has nothing on any path. */
  lemma EmptyIsDictPath(keys: seq<string>)
    requires |keys| >= 1
    ensures DictPath(Dict([]), keys)
  {
  }

  /** After set(k, x) succeeds, get(k) is x. */
  lemma {:induction false} GetAfterSet(v: Value, keys: seq<string>, x: Value)
    requires |keys| >= 1 && PathSet(v, keys, x).Ok?
    ensures PathGet(PathSet(v, keys, x).value, keys) == Some(x)
    decreases |keys|
  {
    var es := v.entries;
    if |keys| == 1 {
      Dicts.LookupPutSame(es, keys[0], x);
    } else {
      var child := Dicts.Lookup(es, keys[0]).GetOr(Dict([]));
      GetAfterSet(child, keys[1..], x);
      Dicts.LookupPutSame(es, keys[0], PathSet(child, keys[1..], x).value);
    }
  }

  /**
   * set(k, x) changes nothing off its path: a path that leaves k's path at
   * some segment reads what it read before, and so does every other
   * top-level key.
   */
  lemma {:induction false} SetLeavesOthers(v: Value, keys: seq<string>, x: Value, other: seq<string>, d: nat)
    requires |keys| >= 1 && PathSet(v, keys, x).Ok?
    requires d < |keys| && d < |other| && other[..d] == keys[..d] && other[d] != keys[d]
    ensures PathGet(PathSet(v, keys, x).value, other) == PathGet(v, other)
    decreases d
  {
    var es := v.entries;
    var child := Dicts.Lookup(es, keys[0]).GetOr(Dict([]));
    var child' := if |keys| == 1 then x else PathSet(child, keys[1..], x).value;
    assert PathSet(v, keys, x).value == Dict(Dicts.Put(es, keys[0], child'));
    PathGetStep(PathSet(v, keys, x).value, other);
    PathGetStep(v, other);
    if d == 0 {
      Dicts.LookupPutOther(es, keys[0], child', other[0]);
    } else {
      assert other[0] == keys[0] by { assert other[..d][0] == keys[..d][0]; }
      Dicts.LookupPutSame(es, keys[0], child');
      assert other[1..][..d - 1] == keys[1..][..d - 1] by {
        assert other[1..][..d - 1] == other[..d][1..];
        assert keys[1..][..d - 1] == keys[..d][1..];
      }
      SetLeavesOthers(child, keys[1..], x, other[1..], d - 1);
      if keys[0] !in Dicts.Keys(es) {
        AbsentPath(other[1..]);
      }
    }
  }

  /** One step of get: a dict with the first segment descends, anything else fails. */
  lemma PathGetStep(v: Value, p: seq<string>)
    requires |p| >= 1
    ensures PathGet(v, p) ==
      if v.Dict? && p[0] in Dicts.Keys(v.entries) then PathGet(Dicts.Lookup(v.entries, p[0]).value, p[1..]) else None
  {
  }

  /** Below a fresh {}, nothing but the path itself can be read. */
  lemma AbsentPath(p: seq<string>)
    requires |p| >= 1
    ensures PathGet(Dict([]), p) == None
  {
  }

  /** When every existing value on the path is a dict, set succeeds and get reads back x. */
  lemma SetOnDicts(v: Value, keys: seq<string>, x: Value)
    requires |keys| >= 1 && DictPath(v, keys)
    ensures PathSet(v, keys, x).Ok?
    ensures PathGet(PathSet(v, keys, x).value, keys) == Some(x)
  {
    SetSucceedsIff(v, keys, x);
    GetAfterSet(v, keys, x);
  }

  /** A key without '.' is one segment: set and get address the top level. */
  lemma {:induction false} SingleSegment(key: string, v: Value, x: Value)
    requires '.' !in key && v.Dict?
    ensures Path(key) == [key]
    ensures PathSet(v, Path(key), x) == Ok(Dict(Dicts.Put(v.entries, key, x)))
    ensures PathGet(v, Path(key)) == Dicts.Lookup(v.entries, key)
  {
    Text.CountAbsent(key, '.');
    Text.SplitLength(key, '.');
    Text.JoinSplit(key, '.');
  }

  /** Setting the same key to the same value twice is setting it once. */
  lemma {:induction false} SetIdempotent(v: Value, keys: seq<string>, x: Value)
    requires |keys| >= 1 && PathSet(v, keys, x).Ok?
    ensures PathSet(PathSet(v, keys, x).value, keys, x) == PathSet(v, keys, x)
    decreases |keys|
  {
    var es := v.entries;
    if |keys| == 1 {
      Dicts.LookupPutSame(es, keys[0], x);
      PutPut(es, keys[0], x, x);
    } else {
      var child := Dicts.Lookup(es, keys[0]).GetOr(Dict([]));
      var child' := PathSet(child, keys[1..], x).value;
      Dicts.LookupPutSame(es, keys[0], child');
      SetIdempotent(child, keys[1..], x);
      PutPut(es, keys[0], child', child');
    }
  }

  /** A second assignment to the same key overwrites the first. */
  lemma {:induction false} PutPut<V>(d: seq<(string, V)>, k: string, a: V, b: V)
    ensures Dicts.Put(Dicts.Put(d, k, a), k, b) == Dicts.Put(d, k, b)
  {
    if d != [] && d[0].0 != k {
      PutPut(d[1..], k, a, b);
    }
  }

  /**
   * The dicts passed on the way down, each with the result below it stored
   * under its key: the nested in-place assignment, bottom up.
   */
  function Wrap(trail: seq<seq<(string, Value)>>, keys: seq<string>, inner: Result<Value>): (r: Result<Value>)
    requires |trail| == |keys|
    ensures inner.Err? ==> r == inner
    ensures inner.Ok? ==> r.Ok? && (trail != [] ==> r.value.Dict?)
    decreases |trail|
  {
    if trail == [] || inner.Err? then inner
    else
      match Wrap(trail[1..], keys[1..], inner)
      case Err(e) => Err(e)
      case Ok(c) => Ok(Dict(Dicts.Put(trail[0], keys[0], c)))
  }

  /** Wrapping one more dict at the bottom of the trail. */
  lemma {:induction false} WrapSnoc(trail: seq<seq<(string, Value)>>, keys: seq<string>, es: seq<(string, Value)>, k: string, inner: Result<Value>)
    requires |trail| == |keys|
    ensures Wrap(trail + [es], keys + [k], inner) ==
      Wrap(trail, keys, match inner case Err(e) => Err(e) case Ok(c) => Ok(Dict(Dicts.Put(es, k, c))))
    decreases |trail|
  {
    if trail == [] {
      assert ([] + [es])[1..] == [] && ([] + [k])[1..] == [];
    } else if inner.Ok? {
      assert (trail + [es])[1..] == trail[1..] + [es];
      assert (keys + [k])[1..] == keys[1..] + [k];
      WrapSnoc(trail[1..], keys[1..], es, k, inner);
    }
  }

  class ConfigManager {
    var config: Value

    /** The tree yaml.safe_load produced; loading the file is not part of this model. */
    constructor (loaded: Value)
      ensures config == loaded
    {
      config := loaded;
    }

    /** get(key, default): the value at the dotted path, or `default` when reading it raises. */
    method Get(key: string, default: Value) returns (r: Value)
      ensures PathGet(config, Path(key)).Some? ==> r == PathGet(config, Path(key)).value
      ensures PathGet(config, Path(key)).None? ==> r == default
    {
      var keys := Text.Split(key, '.');
      var value := config;
      var i := 0;
      while i < |keys|
        invariant i <= |keys|
        invariant PathGet(value, keys[i..]) == PathGet(config, keys)
      {
        match Index(value, keys[i])
        case Err(_) => {
          return default;
        }
        case Ok(child) => {
          assert keys[i..][1..] == keys[i + 1..];
          value := child;
        }
        i := i + 1;
      }
      r := value;
    }

    /**
     * set(key, x): on success the tree is the one PathSet describes; the
     * exception leaves the tree unchanged.
     */
    method Set(key: string, x: Value) returns (error: Option<string>)
      modifies this
      ensures PathSet(old(config), Path(key), x).Ok? ==>
        error == None && config == PathSet(old(config), Path(key), x).value
      ensures PathSet(old(config), Path(key), x).Err? ==>
        error == Some(PathSet(old(config), Path(key), x).error) && config == old(config)
    {
      var keys := Text.Split(key, '.');
      ghost var target := PathSet(config, keys, x);
      var cur := config;
      var trail: seq<seq<(string, Value)>> := [];
      var i := 0;
      while i < |keys| - 1
        invariant i <= |keys| - 1 && |trail| == i
        invariant config == old(config)
        invariant Wrap(trail, keys[..i], PathSet(cur, keys[i..], x)) == target
      {
        if !cur.Dict? {
          return Some(SetdefaultError(cur));
        }
        var child := Dicts.Lookup(cur.entries, keys[i]).GetOr(Dict([]));
        WrapSnoc(trail, keys[..i], cur.entries, keys[i], PathSet(child, keys[i + 1..], x));
        assert keys[i..][1..] == keys[i + 1..];
        assert keys[..i + 1] == keys[..i] + [keys[i]];
        trail := trail + [cur.entries];
        cur := child;
        i := i + 1;
      }
      assert keys[i..] == [keys[i]];
      if !cur.Dict? {
        return Some(AssignError(cur));
      }
      var leaf := Dict(Dicts.Put(cur.entries, keys[i], x));
      assert PathSet(cur, keys[i..], x) == Ok(leaf);
      config := Wrap(trail, keys[..i], Ok(leaf)).value;
      error := None;
    }
  }
}
