/** JSON values as the adapter exchanges them, and the few Python `dict`
    operations the adapter applies to them.

    An object is an ordered list of fields standing for a Python `dict`:
    insertion order is kept (it is the order keys go on the wire), a lookup
    finds the first field with the key, an insert replaces the value in place
    when the key is already there and appends otherwise. Floats are carried as
    `real`s: the adapter only forwards them. */
module Json {
  import opened Wrappers

  datatype Json =
    | JNull
    | JBool(b: bool)
    | JInt(i: int)
    | JFloat(x: real)
    | JStr(s: string)
    | JArr(items: seq<Json>)
    | JObj(fields: seq<Field>)

  datatype Field = Field(key: string, value: Json)

  /** The Python runtime errors a dict-shaped reading of untrusted JSON can
      raise: `.get` on something that is not a dict (AttributeError) and a
      `for` loop over something that is not iterable (TypeError). */
  datatype TypeFault = NotADict(found: Json) | NotIterable(found: Json)

  /** The keys an object holds. */
  function KeySet(fs: seq<Field>): set<string> {
    set i | 0 <= i < |fs| :: fs[i].key
  }

  /** No key occurs twice: the shape of every Python dict. */
  predicate UniqueKeys(fs: seq<Field>) {
    forall i, j | 0 <= i < j < |fs| :: fs[i].key != fs[j].key
  }

  /** Position of the first field with key `k`. */
  function IndexOf(fs: seq<Field>, k: string): (r: Option<nat>)
    ensures r.None? <==> k !in KeySet(fs)
    ensures r.Some? ==> r.value < |fs| && fs[r.value].key == k
    ensures r.Some? ==> forall j | 0 <= j < r.value :: fs[j].key != k
    decreases |fs|
  {
    if |fs| == 0 then None
    else if fs[0].key == k then Some(0)
    else
      match IndexOf(fs[1..], k)
      case None => None
      case Some(i) => Some(i + 1)
  }

  /** `d[k]` when present: the value of the first field with key `k`. */
  function Get(fs: seq<Field>, k: string): (r: Option<Json>)
    ensures r.None? <==> k !in KeySet(fs)
    ensures r.Some? ==> Field(k, r.value) in fs
  {
    match IndexOf(fs, k)
    case None => None
    case Some(i) => Some(fs[i].value)
  }

  /** In a dict every field is the one a lookup of its key finds. */
  lemma GetUnique(fs: seq<Field>, i: nat)
    requires UniqueKeys(fs)
    requires i < |fs|
    ensures Get(fs, fs[i].key) == Some(fs[i].value)
  {
    var p := IndexOf(fs, fs[i].key);
    assert p.Some?;
  }

  /** A position holding `k` with no `k` before it is the one `IndexOf` finds. */
  lemma IndexOfFirst(fs: seq<Field>, k: string, p: nat)
    requires p < |fs| && fs[p].key == k
    requires forall j | 0 <= j < p :: fs[j].key != k
    ensures IndexOf(fs, k) == Some(p)
  {
    assert k in KeySet(fs);
  }

  /** `d.get(k, default)` on a dict. */
  function GetOr(fs: seq<Field>, k: string, default: Json): (r: Json)
    ensures k !in KeySet(fs) ==> r == default
    ensures k in KeySet(fs) ==> Some(r) == Get(fs, k)
  {
    Get(fs, k).GetOr(default)
  }

  /** Objects with the same keys at the same positions find a key at the
      same position. */
  lemma {:induction false} SameKeysIndexOf(a: seq<Field>, b: seq<Field>, k: string)
    requires |a| == |b|
    requires forall j | 0 <= j < |a| :: a[j].key == b[j].key
    ensures IndexOf(a, k) == IndexOf(b, k)
    decreases |a|
  {
    if |a| > 0 {
      SameKeysIndexOf(a[1..], b[1..], k);
    }
  }

  /** Replacing the value of the first field with key `k`. */
  lemma PutReplace(fs: seq<Field>, i: nat, k: string, v: Json)
    requires IndexOf(fs, k) == Some(i)
    ensures Get(fs[i := Field(k, v)], k) == Some(v)
    ensures forall k' | k' != k :: Get(fs[i := Field(k, v)], k') == Get(fs, k')
  {
    var r := fs[i := Field(k, v)];
    forall k' ensures IndexOf(r, k') == IndexOf(fs, k') {
      SameKeysIndexOf(r, fs, k');
    }
  }

  /** Appending a field with a key not yet present. */
  lemma PutAppend(fs: seq<Field>, k: string, v: Json)
    requires IndexOf(fs, k).None?
    ensures Get(fs + [Field(k, v)], k) == Some(v)
    ensures forall k' | k' != k :: Get(fs + [Field(k, v)], k') == Get(fs, k')
  {
    var r := fs + [Field(k, v)];
    KeySetConcat(fs, [Field(k, v)]);
    IndexOfFirst(r, k, |fs|);
    forall k' | k' != k ensures IndexOf(r, k') == IndexOf(fs, k') {
      if k' in KeySet(fs) {
        IndexOfFirst(r, k', IndexOf(fs, k').value);
      } else {
        assert k' !in KeySet([Field(k, v)]);
      }
    }
  }

  /** `d[k] = v`: replaces the value of an existing key in place, or appends a
      new field at the end. */
  function Put(fs: seq<Field>, k: string, v: Json): (r: seq<Field>)
    ensures Get(r, k) == Some(v)
    ensures forall k' | k' != k :: Get(r, k') == Get(fs, k')
  {
    match IndexOf(fs, k)
    case Some(i) =>
      PutReplace(fs, i, k, v);
      fs[i := Field(k, v)]
    case None =>
      PutAppend(fs, k, v);
      fs + [Field(k, v)]
  }

  /** An insert keeps a dict a dict, and existing keys keep their positions:
      a new key only ever goes at the end. */
  lemma PutShape(fs: seq<Field>, k: string, v: Json)
    ensures KeySet(Put(fs, k, v)) == KeySet(fs) + {k}
    ensures UniqueKeys(fs) ==> UniqueKeys(Put(fs, k, v))
    ensures |fs| <= |Put(fs, k, v)| <= |fs| + 1
    ensures forall i | 0 <= i < |fs| :: Put(fs, k, v)[i].key == fs[i].key
  {
    var r := Put(fs, k, v);
    match IndexOf(fs, k)
    case None =>
      assert r == fs + [Field(k, v)];
      KeySetConcat(fs, [Field(k, v)]);
      assert KeySet([Field(k, v)]) == {k};
    case Some(i) =>
      assert r == fs[i := Field(k, v)];
      assert forall j | 0 <= j < |fs| :: r[j].key == fs[j].key;
      assert KeySet(r) == KeySet(fs);
  }

  /** The keys of a non-empty object: those before its last field, and the
      last field's. */
  lemma KeySetLast(fs: seq<Field>)
    requires |fs| > 0
    ensures KeySet(fs) == KeySet(fs[..|fs| - 1]) + {fs[|fs| - 1].key}
  {
    KeySetConcat(fs[..|fs| - 1], [fs[|fs| - 1]]);
    assert fs == fs[..|fs| - 1] + [fs[|fs| - 1]];
    assert KeySet([fs[|fs| - 1]]) == {fs[|fs| - 1].key};
  }

  lemma KeySetConcat(a: seq<Field>, b: seq<Field>)
    ensures KeySet(a + b) == KeySet(a) + KeySet(b)
  {
    forall x | x in KeySet(a + b) ensures x in KeySet(a) + KeySet(b) {
      var i :| 0 <= i < |a + b| && (a + b)[i].key == x;
      if i >= |a| { assert b[i - |a|].key == x; }
    }
    forall x | x in KeySet(a) ensures x in KeySet(a + b) {
      var i :| 0 <= i < |a| && a[i].key == x;
      assert (a + b)[i].key == x;
    }
    forall x | x in KeySet(b) ensures x in KeySet(a + b) {
      var i :| 0 <= i < |b| && b[i].key == x;
      assert (a + b)[i + |a|].key == x;
    }
  }

  /** `if o is not None: d[k] = o`. */
  function PutIfPresent(fs: seq<Field>, k: string, o: Option<Json>): (r: seq<Field>)
    ensures Get(r, k) == (if o.Some? then o else Get(fs, k))
    ensures forall k' | k' != k :: Get(r, k') == Get(fs, k')
  {
    if o.Some? then Put(fs, k, o.value) else fs
  }

  lemma PutIfPresentShape(fs: seq<Field>, k: string, o: Option<Json>)
    ensures KeySet(PutIfPresent(fs, k, o)) == KeySet(fs) + (if o.Some? then {k} else {})
    ensures UniqueKeys(fs) ==> UniqueKeys(PutIfPresent(fs, k, o))
    ensures |fs| <= |PutIfPresent(fs, k, o)|
    ensures forall i | 0 <= i < |fs| :: PutIfPresent(fs, k, o)[i].key == fs[i].key
  {
    if o.Some? {
      PutShape(fs, k, o.value);
    }
  }

  /** An optional insertion sets its key when it has a value and changes no
      other key. */
  lemma PutIfPresentGet(fs: seq<Field>, k: string, o: Option<Json>, k': string)
    ensures Get(PutIfPresent(fs, k, o), k') == (if k' == k && o.Some? then o else Get(fs, k'))
  {
  }

  /** An optional insertion: `if value is not None: d[key] = value`. */
  datatype Entry = Entry(key: string, value: Option<Json>)

  predicate DistinctKeys(es: seq<Entry>) {
    forall i, j | 0 <= i < j < |es| :: es[i].key != es[j].key
  }

  /** A run of optional insertions, in order. */
  function PutEach(fs: seq<Field>, es: seq<Entry>): seq<Field>
    decreases |es|
  {
    if |es| == 0 then fs else PutEach(PutIfPresent(fs, es[0].key, es[0].value), es[1..])
  }

  /** A key none of the insertions names keeps its value. */
  lemma {:induction false} PutEachOther(fs: seq<Field>, es: seq<Entry>, k: string)
    requires forall i | 0 <= i < |es| :: es[i].key != k
    ensures Get(PutEach(fs, es), k) == Get(fs, k)
    decreases |es|
  {
    if |es| > 0 {
      PutEachOther(PutIfPresent(fs, es[0].key, es[0].value), es[1..], k);
    }
  }

  /** With distinct keys, each insertion's key ends up holding its value when
      there is one, and its earlier value otherwise. */
  lemma {:induction false} PutEachGet(fs: seq<Field>, es: seq<Entry>, i: nat)
    requires DistinctKeys(es)
    requires i < |es|
    ensures Get(PutEach(fs, es), es[i].key) == (if es[i].value.Some? then es[i].value else Get(fs, es[i].key))
    decreases |es|
  {
    var next := PutIfPresent(fs, es[0].key, es[0].value);
    var rest := es[1..];
    assert PutEach(fs, es) == PutEach(next, rest);
    if i == 0 {
      forall j | 0 <= j < |rest| ensures rest[j].key != es[0].key {
        assert rest[j] == es[j + 1];
      }
      PutIfPresentGet(fs, es[0].key, es[0].value, es[0].key);
      PutEachOther(next, rest, es[0].key);
    } else {
      assert rest[i - 1] == es[i];
      assert es[0].key != es[i].key;
      PutIfPresentGet(fs, es[0].key, es[0].value, es[i].key);
      forall a, b | 0 <= a < b < |rest| ensures rest[a].key != rest[b].key {
        assert rest[a] == es[a + 1] && rest[b] == es[b + 1];
      }
      PutEachGet(next, rest, i - 1);
    }
  }

  /** A run of insertions keeps a dict a dict and only ever appends keys. */
  lemma {:induction false} PutEachShape(fs: seq<Field>, es: seq<Entry>)
    ensures UniqueKeys(fs) ==> UniqueKeys(PutEach(fs, es))
    ensures |fs| <= |PutEach(fs, es)|
    ensures forall i | 0 <= i < |fs| :: PutEach(fs, es)[i].key == fs[i].key
    decreases |es|
  {
    if |es| > 0 {
      var next := PutIfPresent(fs, es[0].key, es[0].value);
      PutIfPresentShape(fs, es[0].key, es[0].value);
      PutEachShape(next, es[1..]);
    }
  }

  /** The value of the LAST field with key `k`: what a run of inserts in
      field order leaves behind. */
  function LastGet(fs: seq<Field>, k: string): (r: Option<Json>)
    ensures r.None? <==> k !in KeySet(fs)
    decreases |fs|
  {
    if |fs| == 0 then None
    else if fs[|fs| - 1].key == k then Some(fs[|fs| - 1].value)
    else
      KeySetLast(fs);
      LastGet(fs[..|fs| - 1], k)
  }

  /** In a dict the last field with a key is also the first. */
  lemma {:induction false} LastGetUnique(fs: seq<Field>, k: string)
    requires UniqueKeys(fs)
    ensures LastGet(fs, k) == Get(fs, k)
    decreases |fs|
  {
    if |fs| > 0 {
      var init := fs[..|fs| - 1];
      if fs[|fs| - 1].key == k {
        GetUnique(fs, |fs| - 1);
      } else {
        LastGetUnique(init, k);
        match IndexOf(init, k)
        case None =>
          assert k !in KeySet(fs);
        case Some(p) =>
          IndexOfFirst(fs, k, p);
      }
    }
  }

  /** `d.update(args)`: every field of `args` is inserted in order. */
  function Merge(fs: seq<Field>, args: seq<Field>): (r: seq<Field>)
    decreases |args|
  {
    if |args| == 0 then fs
    else
      var last := args[|args| - 1];
      Put(Merge(fs, args[..|args| - 1]), last.key, last.value)
  }

  /** After `d.update(args)` a key of `args` holds its last value there and
      every other key keeps its earlier value. */
  lemma {:induction false} MergeGet(fs: seq<Field>, args: seq<Field>, k: string)
    ensures Get(Merge(fs, args), k) == (if k in KeySet(args) then LastGet(args, k) else Get(fs, k))
    decreases |args|
  {
    if |args| > 0 {
      var init := args[..|args| - 1];
      var last := args[|args| - 1];
      MergeGet(fs, init, k);
      KeySetLast(args);
    }
  }

  /** `d.update(args)` neither loses nor invents a key. */
  lemma {:induction false} MergeKeys(fs: seq<Field>, args: seq<Field>)
    ensures KeySet(Merge(fs, args)) == KeySet(fs) + KeySet(args)
    decreases |args|
  {
    if |args| > 0 {
      var init := args[..|args| - 1];
      var last := args[|args| - 1];
      MergeKeys(fs, init);
      PutShape(Merge(fs, init), last.key, last.value);
      KeySetLast(args);
    }
  }

  /** `d.update(args)` keeps a dict a dict and leaves earlier keys where
      they were: new keys only ever go at the end. */
  lemma {:induction false} MergeShape(fs: seq<Field>, args: seq<Field>)
    ensures UniqueKeys(fs) ==> UniqueKeys(Merge(fs, args))
    ensures |fs| <= |Merge(fs, args)|
    ensures forall i | 0 <= i < |fs| :: Merge(fs, args)[i].key == fs[i].key
    decreases |args|
  {
    if |args| > 0 {
      var last := args[|args| - 1];
      MergeShape(fs, args[..|args| - 1]);
      PutShape(Merge(fs, args[..|args| - 1]), last.key, last.value);
    }
  }

  /** Python truthiness, `bool(j)`. */
  predicate Truthy(j: Json) {
    match j
    case JNull => false
    case JBool(b) => b
    case JInt(i) => i != 0
    case JFloat(x) => x != 0.0
    case JStr(s) => |s| > 0
    case JArr(items) => |items| > 0
    case JObj(fields) => |fields| > 0
  }

  /** The elements a Python `for` loop visits: a list's items, a string's
      characters, a dict's keys; anything else is not iterable. */
  function Iterate(j: Json): (r: Result<seq<Json>, TypeFault>)
    ensures r.Success? <==> j.JArr? || j.JStr? || j.JObj?
    ensures r.Failure? ==> r.error == NotIterable(j)
    ensures j.JArr? ==> r.value == j.items
    ensures j.JStr? ==> |r.value| == |j.s| && forall i | 0 <= i < |j.s| :: r.value[i] == JStr([j.s[i]])
    ensures j.JObj? ==> |r.value| == |j.fields| && forall i | 0 <= i < |j.fields| :: r.value[i] == JStr(j.fields[i].key)
  {
    match j
    case JArr(items) => Success(items)
    case JStr(s) => Success(seq(|s|, i requires 0 <= i < |s| => JStr([s[i]])))
    case JObj(fields) => Success(seq(|fields|, i requires 0 <= i < |fields| => JStr(fields[i].key)))
    case _ => Failure(NotIterable(j))
  }
}
