/**
 * The flat <-> nested parameter mapping of the weather catalog's base model
 * (`BaseModel._unflatten_params` and `BaseModel._flatten_params_dict`).
 *
 * A nested parameter dictionary maps keys to either an opaque leaf value `P` (an
 * airflow `Param`, or a user-supplied value) or another dictionary. Python dict
 * equality ignores insertion order, so a nested dictionary is a `map`. The flat
 * dictionary handed to `_unflatten_params` is an ordered list of entries, because
 * the result of unflattening depends on the entry order when keys conflict.
 */
module NestedParams {
  import opened Wrappers
  import opened DottedKeys

  datatype Value<P> = Leaf(param: P) | Node(children: map<string, Value<P>>)

  type Dict<P> = map<string, Value<P>>

  /** An ordered flat parameter dictionary: its items in iteration order. */
  type Entries<P> = seq<(string, P)>

  /** The error `_unflatten_params` raises when a dotted key walks through a non-dictionary value. */
  datatype UnflattenError = NotADictionary(subkey: string)

  // ---------------------------------------------------------------- shapes

  /** No value of `d` is a dictionary, i.e. `d` is already flat. */
  predicate NoNodes<P>(d: Dict<P>)
  {
    forall k :: k in d ==> d[k].Leaf?
  }

  /**
   * The dictionaries `_flatten_params_dict` flattens without key collisions: a dictionary that
   * holds a nested dictionary has dot-free keys (field names), and its nested dictionaries are
   * flattenable in turn. A dictionary with no nested dictionary is returned as it is, so its keys
   * may contain dots.
   */
  predicate Flattenable<P>(d: Dict<P>)
    decreases Node(d)
  {
    NoNodes(d) ||
    ((forall k :: k in d ==> '.' !in k) &&
     (forall k :: k in d && d[k].Node? ==> Flattenable(d[k].children)))
  }

  /** No key at any depth contains a dot. */
  predicate WellKeyed<P>(d: Dict<P>)
    decreases Node(d)
  {
    forall k :: k in d ==> '.' !in k && (d[k].Node? ==> WellKeyed(d[k].children))
  }

  /** No nested dictionary at any depth is empty. */
  predicate NoEmptyNodes<P>(d: Dict<P>)
    decreases Node(d)
  {
    forall k :: k in d && d[k].Node? ==> d[k].children != map[] && NoEmptyNodes(d[k].children)
  }

  lemma {:induction false} WellKeyedFlattenable<P>(d: Dict<P>)
    requires WellKeyed(d)
    ensures Flattenable(d)
    decreases Node(d)
  {
    forall k | k in d && d[k].Node? ensures Flattenable(d[k].children) {
      WellKeyedFlattenable(d[k].children);
    }
  }

  /** Following `path` from `d` ends at the leaf value `v`. */
  ghost predicate LeafAt<P>(d: Dict<P>, path: seq<string>, v: P)
    decreases |path|
  {
    |path| > 0 && path[0] in d &&
    if |path| == 1 then d[path[0]] == Leaf(v)
    else d[path[0]].Node? && LeafAt(d[path[0]].children, path[1..], v)
  }

  /** The dictionary denoted by ordered entries: a later entry overwrites an earlier one with the same key. */
  function ToDict<P>(es: Entries<P>): (d: Dict<P>)
    ensures NoNodes(d)
  {
    if es == [] then map[] else ToDict(es[..|es| - 1])[es[|es| - 1].0 := Leaf(es[|es| - 1].1)]
  }

  predicate DistinctKeys<P>(es: Entries<P>)
  {
    forall i, j :: 0 <= i < j < |es| ==> es[i].0 != es[j].0
  }

  /** No entry's split key is a prefix of (or equal to) another entry's split key. */
  predicate PrefixFree<P>(es: Entries<P>)
  {
    forall i, j :: 0 <= i < |es| && 0 <= j < |es| && i != j ==> !(Split(es[i].0) <= Split(es[j].0))
  }

  // -------------------------------------------------------------- flatten

  /**
   * `_flatten_params_dict`: a dictionary with no nested dictionary is returned unchanged;
   * otherwise each leaf entry keeps its key and each nested dictionary `k -> sub` contributes
   * `k + "." + s -> w` for every entry `s -> w` of the flattened `sub`.
   */
  function Flatten<P>(d: Dict<P>): (r: Dict<P>)
    requires Flattenable(d)
    ensures NoNodes(r)
    decreases Node(d)
  {
    if NoNodes(d) then d
    else
      var nestedKeys := set k, s | k in d && d[k].Node? && s in Flatten(d[k].children) :: k + "." + s;
      HeadTailOfDottedAll();
      (map k | k in d && d[k].Leaf? :: d[k]) +
      (map key | key in nestedKeys :: Flatten(d[Head(key)].children)[Tail(key)])
  }

  /** `{f"{k}.{s}": w for s, w in sub.items()}`. */
  function Prefixed<P>(k: string, sub: Dict<P>): (r: Dict<P>)
    ensures forall s :: s in sub ==> k + "." + s in r && r[k + "." + s] == sub[s]
    ensures forall key :: key in r ==> exists s :: s in sub && key == k + "." + s
  {
    PrefixInjective(k);
    map s | s in sub :: k + "." + s := sub[s]
  }

  lemma PrefixInjective(k: string)
    ensures forall s1: string, s2: string {:trigger k + "." + s1, k + "." + s2} ::
      k + "." + s1 == k + "." + s2 ==> s1 == s2
  {
    forall s1: string, s2: string | k + "." + s1 == k + "." + s2 ensures s1 == s2 {
      assert s1 == (k + "." + s1)[|k| + 1..];
      assert s2 == (k + "." + s2)[|k| + 1..];
    }
  }

  /** The entries of `Flatten(d)` that come from the top-level keys in `done`. */
  ghost function FlattenedFrom<P>(d: Dict<P>, done: set<string>): Dict<P>
    requires Flattenable(d)
  {
    var f := Flatten(d);
    map key | key in f && Head(key) in done :: f[key]
  }

  /** The entries contributed by one top-level key of a dictionary that holds a nested dictionary. */
  lemma FlattenedFromStep<P>(d: Dict<P>, done: set<string>, k: string, contribution: Dict<P>)
    requires Flattenable(d) && !NoNodes(d)
    requires k in d && k !in done
    requires d[k].Leaf? ==> contribution == map[k := d[k]]
    requires d[k].Node? ==> contribution == Prefixed(k, Flatten(d[k].children))
    ensures FlattenedFrom(d, done + {k}) == FlattenedFrom(d, done) + contribution
  {
    var f := Flatten(d);
    var lhs := FlattenedFrom(d, done + {k});
    var rhs := FlattenedFrom(d, done) + contribution;
    forall key | key in contribution ensures key in f && Head(key) == k && f[key] == contribution[key] {
      ContributionKey(d, k, contribution, key);
    }
    forall key | key in lhs ensures key in rhs && lhs[key] == rhs[key] {
      if Head(key) == k {
        FlattenedKeyContributed(d, k, contribution, key);
      }
    }
    assert lhs == rhs;
  }

  /** A key one top-level key contributes is a key of the flattened dictionary, with the same value. */
  lemma ContributionKey<P>(d: Dict<P>, k: string, contribution: Dict<P>, key: string)
    requires Flattenable(d) && !NoNodes(d) && k in d
    requires d[k].Leaf? ==> contribution == map[k := d[k]]
    requires d[k].Node? ==> contribution == Prefixed(k, Flatten(d[k].children))
    requires key in contribution
    ensures key in Flatten(d) && Head(key) == k && Flatten(d)[key] == contribution[key]
  {
    if d[k].Node? {
      var s :| s in Flatten(d[k].children) && key == k + "." + s;
      FlattenNestedKey(d, k, s);
      HeadTailOfDotted(k, s);
    } else {
      FlattenEntries(d);
    }
  }

  /** A flattened key whose head is `k` is one that `k` contributes. */
  lemma FlattenedKeyContributed<P>(d: Dict<P>, k: string, contribution: Dict<P>, key: string)
    requires Flattenable(d) && !NoNodes(d) && k in d
    requires d[k].Leaf? ==> contribution == map[k := d[k]]
    requires d[k].Node? ==> contribution == Prefixed(k, Flatten(d[k].children))
    requires key in Flatten(d) && Head(key) == k
    ensures key in contribution && contribution[key] == Flatten(d)[key]
  {
    if key in d && d[key].Leaf? {
      FlattenEntries(d);
    } else {
      FlattenKeyOrigin(d, key);
      DottedIsHeadTail(key);
    }
  }

  /** Every key of a flattened dictionary with a nested value starts with one of its own keys. */
  lemma FlattenedFromAll<P>(d: Dict<P>)
    requires Flattenable(d) && !NoNodes(d)
    ensures FlattenedFrom(d, d.Keys) == Flatten(d)
  {
    var f := Flatten(d);
    FlattenKeysOrigin(d);
    forall key | key in f ensures Head(key) in d {
      if key in d && d[key].Leaf? {
        assert '.' !in key;
      }
    }
  }

  /**
   * `_flatten_params_dict` as the source writes it: return a dictionary without nested
   * dictionaries as it is, otherwise walk its items, recursively flatten each nested dictionary,
   * prefix its keys with the item's key and a dot, and merge the result into the accumulator.
   */
  method FlattenParams<P>(d: Dict<P>) returns (r: Dict<P>)
    requires Flattenable(d)
    ensures r == Flatten(d)
    ensures NoNodes(r)
    ensures NoNodes(d) ==> r == d
    decreases Node(d)
  {
    if NoNodes(d) {
      return d;
    }
    r := map[];
    var todo := d.Keys;
    while todo != {}
      invariant todo <= d.Keys
      invariant r == FlattenedFrom(d, d.Keys - todo)
      decreases |todo|
    {
      var key :| key in todo;
      var contribution;
      match d[key] {
        case Node(children) =>
          var sub := FlattenParams(children);
          contribution := Prefixed(key, sub);
        case Leaf(_) =>
          contribution := map[key := d[key]];
      }
      FlattenedFromStep(d, d.Keys - todo, key, contribution);
      assert d.Keys - (todo - {key}) == (d.Keys - todo) + {key};
      r := r + contribution;
      todo := todo - {key};
    }
    FlattenedFromAll(d);
  }

  /** One level of `Flatten`: which keys it produces and where their values come from. */
  lemma FlattenEntries<P>(d: Dict<P>)
    requires Flattenable(d) && !NoNodes(d)
    ensures forall k :: k in d && d[k].Leaf? ==> k in Flatten(d) && Flatten(d)[k] == d[k]
    ensures forall k, s :: k in d && d[k].Node? && s in Flatten(d[k].children) ==>
      k + "." + s in Flatten(d) && Flatten(d)[k + "." + s] == Flatten(d[k].children)[s]
    ensures forall key :: key in Flatten(d) ==>
      (key in d && d[key].Leaf?) ||
      ('.' in key && Head(key) in d && d[Head(key)].Node? && Tail(key) in Flatten(d[Head(key)].children) &&
       Flatten(d)[key] == Flatten(d[Head(key)].children)[Tail(key)])
  {
    FlattenNestedEntries(d);
    FlattenKeysOrigin(d);
  }

  /** Each entry of a nested dictionary reappears under its prefixed key. */
  lemma FlattenNestedEntries<P>(d: Dict<P>)
    requires Flattenable(d) && !NoNodes(d)
    ensures forall k, s :: k in d && d[k].Node? && s in Flatten(d[k].children) ==>
      k + "." + s in Flatten(d) && Flatten(d)[k + "." + s] == Flatten(d[k].children)[s]
  {
    forall k, s | k in d && d[k].Node? && s in Flatten(d[k].children)
      ensures k + "." + s in Flatten(d) && Flatten(d)[k + "." + s] == Flatten(d[k].children)[s]
    {
      FlattenNestedKey(d, k, s);
    }
  }

  lemma FlattenNestedKey<P>(d: Dict<P>, k: string, s: string)
    requires Flattenable(d) && !NoNodes(d)
    requires k in d && d[k].Node? && s in Flatten(d[k].children)
    ensures k + "." + s in Flatten(d) && Flatten(d)[k + "." + s] == Flatten(d[k].children)[s]
  {
    HeadTailOfDotted(k, s);
  }

  /** Every flattened key is a leaf key of `d` or a prefixed key of one of its nested dictionaries. */
  lemma FlattenKeysOrigin<P>(d: Dict<P>)
    requires Flattenable(d) && !NoNodes(d)
    ensures forall key :: key in Flatten(d) ==>
      (key in d && d[key].Leaf?) ||
      ('.' in key && Head(key) in d && d[Head(key)].Node? && Tail(key) in Flatten(d[Head(key)].children) &&
       Flatten(d)[key] == Flatten(d[Head(key)].children)[Tail(key)])
  {
    forall key | key in Flatten(d) && !(key in d && d[key].Leaf?)
      ensures '.' in key && Head(key) in d && d[Head(key)].Node? && Tail(key) in Flatten(d[Head(key)].children) &&
        Flatten(d)[key] == Flatten(d[Head(key)].children)[Tail(key)]
    {
      FlattenKeyOrigin(d, key);
    }
  }

  lemma FlattenKeyOrigin<P>(d: Dict<P>, key: string)
    requires Flattenable(d) && !NoNodes(d)
    requires key in Flatten(d) && !(key in d && d[key].Leaf?)
    ensures '.' in key && Head(key) in d && d[Head(key)].Node? && Tail(key) in Flatten(d[Head(key)].children)
    ensures Flatten(d)[key] == Flatten(d[Head(key)].children)[Tail(key)]
  {
    var k, s :| k in d && d[k].Node? && s in Flatten(d[k].children) && key == k + "." + s;
    HeadTailOfDotted(k, s);
  }

  /**
   * Flattening a dictionary whose keys are dot-free at every depth puts the leaf found at path
   * `p` under the key `Join(p)`, and nothing else: a flat key holds leaf `v` exactly when following
   * its dot-separated pieces through the nested dictionary reaches `v`.
   */
  lemma {:induction false} FlattenLeafAt<P>(d: Dict<P>, key: string, v: P)
    requires WellKeyed(d)
    ensures Flattenable(d)
    ensures key in Flatten(d) && Flatten(d)[key] == Leaf(v) <==> LeafAt(d, Split(key), v)
    decreases Node(d)
  {
    WellKeyedFlattenable(d);
    var f := Flatten(d);
    if '.' !in key {
      assert Split(key) == [key];
      if !NoNodes(d) {
        FlattenEntries(d);
        assert key in f <==> key in d && d[key].Leaf?;
      }
    } else {
      assert key !in d;
      var h, t := Head(key), Tail(key);
      assert Split(key) == [h] + Split(t);
      assert LeafAt(d, Split(key), v) <==> h in d && d[h].Node? && LeafAt(d[h].children, Split(t), v);
      if NoNodes(d) {
        assert !LeafAt(d, Split(key), v);
      } else {
        FlattenEntries(d);
        if h in d && d[h].Node? {
          var c := d[h].children;
          FlattenLeafAt(c, t, v);
          DottedIsHeadTail(key);
          assert t in Flatten(c) ==> key in f && f[key] == Flatten(c)[t];
        } else {
          assert key !in f;
        }
      }
    }
  }

  lemma {:induction false} LeafAtDotFree<P>(d: Dict<P>, p: seq<string>, v: P)
    requires WellKeyed(d) && LeafAt(d, p, v)
    ensures DotFree(p)
    decreases |p|
  {
    if |p| > 1 {
      LeafAtDotFree(d[p[0]].children, p[1..], v);
    }
  }

  /** No leaf path of a dictionary extends another one: a leaf has nothing below it. */
  lemma {:induction false} LeafPathsPrefixFree<P>(d: Dict<P>, p: seq<string>, v: P, q: seq<string>, w: P)
    requires LeafAt(d, p, v) && LeafAt(d, q, w) && p <= q
    ensures p == q && v == w
    decreases |p|
  {
    if |p| > 1 {
      LeafPathsPrefixFree(d[p[0]].children, p[1..], v, q[1..], w);
    }
  }

  /** A dictionary with no empty nested dictionary and at least one entry has a leaf. */
  lemma {:induction false} SomeLeaf<P>(d: Dict<P>) returns (q: seq<string>, w: P)
    requires NoEmptyNodes(d) && d != map[]
    ensures LeafAt(d, q, w)
    decreases Node(d)
  {
    var k :| k in d;
    match d[k] {
      case Leaf(x) =>
        q, w := [k], x;
      case Node(c) =>
        var q', w' := SomeLeaf(c);
        q, w := [k] + q', w';
        assert q[1..] == q';
    }
  }

  /** Two dictionaries without empty nested dictionaries are equal when they have the same leaves. */
  lemma {:induction false} LeafAtExtensional<P>(a: Dict<P>, b: Dict<P>)
    requires NoEmptyNodes(a) && NoEmptyNodes(b)
    requires forall q, w :: LeafAt(a, q, w) <==> LeafAt(b, q, w)
    ensures a == b
    decreases Node(a)
  {
    forall k | k in a ensures k in b && a[k] == b[k] {
      match a[k] {
        case Leaf(x) =>
          assert LeafAt(a, [k], x);
        case Node(c) =>
          var q, w := SomeLeaf(c);
          assert LeafAt(a, [k] + q, w) by { assert ([k] + q)[1..] == q; }
          assert k in b && b[k].Node?;
          var c' := b[k].children;
          forall q', w' ensures LeafAt(c, q', w') <==> LeafAt(c', q', w') {
            assert ([k] + q')[1..] == q';
            assert LeafAt(a, [k] + q', w') <==> LeafAt(c, q', w');
            assert LeafAt(b, [k] + q', w') <==> LeafAt(c', q', w');
          }
          LeafAtExtensional(c, c');
      }
    }
    forall k | k in b ensures k in a {
      match b[k] {
        case Leaf(x) =>
          assert LeafAt(b, [k], x);
        case Node(c) =>
          var q, w := SomeLeaf(c);
          assert LeafAt(b, [k] + q, w) by { assert ([k] + q)[1..] == q; }
      }
    }
  }

  // ------------------------------------------------------------ unflatten

  /** A proper prefix of `path` reaches a value that is not a dictionary. */
  ghost predicate Blocked<P>(d: Dict<P>, path: seq<string>)
    decreases |path|
  {
    |path| > 1 && path[0] in d &&
    (d[path[0]].Leaf? || Blocked(d[path[0]].children, path[1..]))
  }

  /**
   * The inner walk of `_unflatten_params` for one dotted key: descend along all but the last
   * piece, creating each missing intermediate dictionary and reusing an existing one, then store
   * the value under the last piece. Walking into a value that is not a dictionary fails.
   */
  function InsertPath<P>(d: Dict<P>, path: seq<string>, v: P): (r: Result<Dict<P>, UnflattenError>)
    requires |path| > 0
    ensures r.Err? <==> Blocked(d, path)
    ensures r.Ok? ==> LeafAt(r.value, path, v)
    ensures r.Ok? ==> r.value.Keys == d.Keys + {path[0]}
    ensures r.Ok? ==> forall k :: k in d && k != path[0] ==> r.value[k] == d[k]
    ensures r.Err? ==> r.error.subkey in path[..|path| - 1]
    decreases |path|
  {
    var head := path[0];
    if |path| == 1 then Ok(d[head := Leaf(v)])
    else if head !in d then
      Ok(d[head := Node(InsertPath(map[], path[1..], v).value)])
    else
      match d[head]
      case Leaf(_) => Err(NotADictionary(head))
      case Node(children) =>
        var sub :- InsertPath(children, path[1..], v);
        Ok(d[head := Node(sub)])
  }

  /** One item of `_unflatten_params`: a key without a dot is stored at the top level as it is. */
  function UnflattenStep<P>(acc: Dict<P>, key: string, v: P): (r: Result<Dict<P>, UnflattenError>)
    ensures r.Err? <==> Blocked(acc, Split(key))
    ensures r.Ok? ==> LeafAt(r.value, Split(key), v) && r.value.Keys == acc.Keys + {Split(key)[0]}
    ensures r.Ok? ==> forall k :: k in acc && k != Split(key)[0] ==> r.value[k] == acc[k]
    ensures r.Err? ==> r.error.subkey in Split(key)
  {
    if '.' in key then InsertPath(acc, Split(key), v) else Ok(acc[key := Leaf(v)])
  }

  /** `_unflatten_params` on the items in order; the first failing item's error is the result. */
  function Unflatten<P>(es: Entries<P>): Result<Dict<P>, UnflattenError>
  {
    if es == [] then Ok(map[])
    else
      var acc :- Unflatten(es[..|es| - 1]);
      UnflattenStep(acc, es[|es| - 1].0, es[|es| - 1].1)
  }

  /**
   * The top-level keys of the nested dictionary are exactly the first pieces of the item keys,
   * and a failure names a piece of some item's key.
   */
  lemma {:induction false} UnflattenTopKeys<P>(es: Entries<P>)
    ensures Unflatten(es).Ok? ==> Unflatten(es).value.Keys == set i | 0 <= i < |es| :: Split(es[i].0)[0]
    ensures Unflatten(es).Err? ==> exists i :: 0 <= i < |es| && Unflatten(es).error.subkey in Split(es[i].0)
  {
    if es != [] {
      var init, last := es[..|es| - 1], es[|es| - 1];
      UnflattenTopKeys(init);
      if Unflatten(init).Ok? {
        var step := UnflattenStep(Unflatten(init).value, last.0, last.1);
        assert Unflatten(es) == step;
        if step.Ok? {
          var heads := set i | 0 <= i < |init| :: Split(init[i].0)[0];
          assert step.value.Keys == heads + {Split(last.0)[0]};
          TopKeysSnoc(init, es);
        } else {
          assert step.error.subkey in Split(es[|es| - 1].0);
        }
      } else {
        assert Unflatten(es) == Err(Unflatten(init).error);
        var i :| 0 <= i < |init| && Unflatten(init).error.subkey in Split(init[i].0);
        assert init[i] == es[i];
      }
    }
  }

  lemma TopKeysSnoc<P>(init: Entries<P>, es: Entries<P>)
    requires |es| == |init| + 1 && init == es[..|init|]
    ensures (set i | 0 <= i < |es| :: Split(es[i].0)[0]) ==
            (set i | 0 <= i < |init| :: Split(init[i].0)[0]) + {Split(es[|init|].0)[0]}
  {
    forall i | 0 <= i < |init| ensures init[i] == es[i] { }
  }

  /** `_unflatten_params`: the loop over the flat items, accumulating the nested dictionary. */
  method UnflattenParams<P>(params: Entries<P>) returns (res: Result<Dict<P>, UnflattenError>)
    ensures res == Unflatten(params)
  {
    var acc: Dict<P> := map[];
    for i := 0 to |params|
      invariant Unflatten(params[..i]) == Ok(acc)
    {
      assert params[..i + 1][..i] == params[..i];
      var (key, value) := params[i];
      if '.' in key {
        var subkeys := Split(key);
        var next := InsertPath(acc, subkeys, value);
        if next.Err? {
          UnflattenFailureSticks(params, i + 1);
          return Err(next.error);
        }
        acc := next.value;
      } else {
        acc := acc[key := Leaf(value)];
      }
    }
    assert params[..|params|] == params;
    return Ok(acc);
  }

  /** Once an item fails, unflattening fails with that item's error whatever follows. */
  lemma {:induction false} UnflattenFailureSticks<P>(es: Entries<P>, n: nat)
    requires n <= |es| && Unflatten(es[..n]).Err?
    ensures Unflatten(es) == Unflatten(es[..n])
    decreases |es| - n
  {
    if n < |es| {
      assert es[..n + 1][..n] == es[..n];
      UnflattenFailureSticks(es, n + 1);
    } else {
      assert es[..n] == es;
    }
  }

  /** A key without a dot stores its value at the top level: `UnflattenStep` is `InsertPath` on its one piece. */
  lemma UnflattenStepIsInsert<P>(acc: Dict<P>, key: string, v: P)
    ensures UnflattenStep(acc, key, v) == InsertPath(acc, Split(key), v)
  {
  }

  /** Storing under a key changes only the leaves below that key. */
  lemma LeafAtUnderKey<P>(d: Dict<P>, k: string, x: Value<P>, q: seq<string>, w: P)
    requires |q| > 0 && q[0] != k
    ensures LeafAt(d[k := x], q, w) <==> LeafAt(d, q, w)
  {
  }

  lemma LeafAtBelow<P>(d: Dict<P>, k: string, c: Dict<P>, q: seq<string>, w: P)
    requires k in d && d[k] == Node(c)
    ensures LeafAt(d, [k] + q, w) <==> LeafAt(c, q, w)
  {
    assert ([k] + q)[0] == k;
    assert ([k] + q)[1..] == q;
  }

  /**
   * Inserting a path that neither extends nor is extended by an existing leaf path succeeds,
   * adds exactly that leaf and keeps every other leaf.
   */
  lemma {:induction false} InsertPathLeaves<P>(d: Dict<P>, path: seq<string>, v: P)
    requires |path| > 0 && NoEmptyNodes(d)
    requires forall q, w :: LeafAt(d, q, w) ==> !(q <= path) && !(path <= q)
    ensures InsertPath(d, path, v).Ok?
    ensures NoEmptyNodes(InsertPath(d, path, v).value)
    ensures WellKeyed(d) && DotFree(path) ==> WellKeyed(InsertPath(d, path, v).value)
    ensures forall q, w :: LeafAt(InsertPath(d, path, v).value, q, w) <==> LeafAt(d, q, w) || (q == path && w == v)
    decreases |path|
  {
    var head := path[0];
    if |path| == 1 {
      StoreLeafLeaves(d, head, v);
    } else {
      var rest := path[1..];
      assert path == [head] + rest;
      var c := if head in d && d[head].Node? then d[head].children else map[];
      assert head in d && d[head].Leaf? ==> LeafAt(d, [head], d[head].param);
      forall q, w | LeafAt(c, q, w) ensures !(q <= rest) && !(rest <= q) {
        LeafAtBelow(d, head, c, q, w);
      }
      InsertPathLeaves(c, rest, v);
      var s := InsertPath(c, rest, v).value;
      assert InsertPath(d, path, v).value == d[head := Node(s)];
      StoreNodeLeaves(d, head, c, s, rest, v);
    }
  }

  /** Storing a leaf under a key that has no leaf at or below it adds exactly that leaf. */
  lemma StoreLeafLeaves<P>(d: Dict<P>, head: string, v: P)
    requires forall q, w :: LeafAt(d, q, w) ==> !([head] <= q)
    ensures forall q, w :: LeafAt(d[head := Leaf(v)], q, w) <==> LeafAt(d, q, w) || (q == [head] && w == v)
  {
    forall q, w ensures LeafAt(d[head := Leaf(v)], q, w) <==> LeafAt(d, q, w) || (q == [head] && w == v) {
      if |q| > 0 && q[0] != head {
        LeafAtUnderKey(d, head, Leaf(v), q, w);
      }
    }
  }

  /**
   * Replacing the dictionary under `head` (or the missing entry) by one that has the same leaves
   * plus `rest -> v` adds exactly the leaf `[head] + rest -> v`.
   */
  lemma StoreNodeLeaves<P>(d: Dict<P>, head: string, c: Dict<P>, s: Dict<P>, rest: seq<string>, v: P)
    requires head in d ==> d[head] == Node(c)
    requires head !in d ==> c == map[]
    requires forall q, w :: LeafAt(s, q, w) <==> LeafAt(c, q, w) || (q == rest && w == v)
    ensures forall q, w :: LeafAt(d[head := Node(s)], q, w) <==> LeafAt(d, q, w) || (q == [head] + rest && w == v)
  {
    var t := d[head := Node(s)];
    forall q, w ensures LeafAt(t, q, w) <==> LeafAt(d, q, w) || (q == [head] + rest && w == v) {
      if |q| > 0 && q[0] != head {
        LeafAtUnderKey(d, head, Node(s), q, w);
      } else if |q| > 0 {
        assert q == [head] + q[1..];
        LeafAtBelow(t, head, s, q[1..], w);
        if head in d {
          LeafAtBelow(d, head, c, q[1..], w);
        }
      }
    }
  }

  /**
   * Unflattening prefix-free items succeeds, and its result holds exactly the items' values,
   * each at the path given by its key's dot-separated pieces. In particular a key without a dot
   * stays at the top level, `a.b.c` lands at `result[a][b][c]`, and `baz.qux`, `baz.quz` become
   * siblings under one `baz` dictionary.
   */
  lemma {:induction false} UnflattenLeaves<P>(es: Entries<P>)
    requires PrefixFree(es)
    ensures Unflatten(es).Ok?
    ensures WellKeyed(Unflatten(es).value) && NoEmptyNodes(Unflatten(es).value)
    ensures forall q, w :: LeafAt(Unflatten(es).value, q, w) <==>
      exists i :: 0 <= i < |es| && Split(es[i].0) == q && es[i].1 == w
  {
    if es != [] {
      var init := es[..|es| - 1];
      var (k, v) := es[|es| - 1];
      assert forall i :: 0 <= i < |init| ==> init[i] == es[i];
      UnflattenLeaves(init);
      var t := Unflatten(init).value;
      NewKeyClear(init, es, t, k, v);
      InsertPathLeaves(t, Split(k), v);
      UnflattenStepIsInsert(t, k, v);
      assert Unflatten(es).value == InsertPath(t, Split(k), v).value;
      assert es == init + [(k, v)];
      UnflattenLeavesStep(init, es, t, Unflatten(es).value, k, v);
    }
  }

  /** In prefix-free items, the last key's path is clear of the leaves the earlier items made. */
  lemma NewKeyClear<P>(init: Entries<P>, es: Entries<P>, t: Dict<P>, k: string, v: P)
    requires PrefixFree(es) && es != [] && init == es[..|es| - 1] && es[|es| - 1] == (k, v)
    requires forall q, w :: LeafAt(t, q, w) <==> exists i :: 0 <= i < |init| && Split(init[i].0) == q && init[i].1 == w
    ensures forall q, w :: LeafAt(t, q, w) ==> !(q <= Split(k)) && !(Split(k) <= q)
  {
    forall q, w | LeafAt(t, q, w) ensures !(q <= Split(k)) && !(Split(k) <= q) {
      var i :| 0 <= i < |init| && Split(init[i].0) == q && init[i].1 == w;
      assert es[i] == init[i];
    }
  }

  /** The leaves after one more item are those before it plus the item's own. */
  lemma UnflattenLeavesStep<P>(init: Entries<P>, es: Entries<P>, t: Dict<P>, t': Dict<P>, k: string, v: P)
    requires es == init + [(k, v)]
    requires forall q, w :: LeafAt(t, q, w) <==> exists i :: 0 <= i < |init| && Split(init[i].0) == q && init[i].1 == w
    requires forall q, w :: LeafAt(t', q, w) <==> LeafAt(t, q, w) || (q == Split(k) && w == v)
    ensures forall q, w :: LeafAt(t', q, w) <==> exists i :: 0 <= i < |es| && Split(es[i].0) == q && es[i].1 == w
  {
    forall q, w ensures LeafAt(t', q, w) <==> exists i :: 0 <= i < |es| && Split(es[i].0) == q && es[i].1 == w {
      if LeafAt(t', q, w) {
        if LeafAt(t, q, w) {
          var i :| 0 <= i < |init| && Split(init[i].0) == q && init[i].1 == w;
          assert es[i] == init[i];
        } else {
          assert es[|es| - 1] == (k, v);
        }
      }
      if exists i :: 0 <= i < |es| && Split(es[i].0) == q && es[i].1 == w {
        var i :| 0 <= i < |es| && Split(es[i].0) == q && es[i].1 == w;
        if i < |es| - 1 {
          assert init[i] == es[i];
        }
      }
    }
  }

  /** With distinct keys, the dictionary of the items holds exactly the items. */
  lemma {:induction false} ToDictEntries<P>(es: Entries<P>)
    requires DistinctKeys(es)
    ensures forall i :: 0 <= i < |es| ==> es[i].0 in ToDict(es) && ToDict(es)[es[i].0] == Leaf(es[i].1)
    ensures forall key :: key in ToDict(es) ==>
      exists i :: 0 <= i < |es| && es[i].0 == key && ToDict(es)[key] == Leaf(es[i].1)
  {
    if es != [] {
      var init := es[..|es| - 1];
      assert forall i :: 0 <= i < |init| ==> init[i] == es[i];
      ToDictEntries(init);
      var last := |es| - 1;
      assert ToDict(es) == ToDict(init)[es[last].0 := Leaf(es[last].1)];
      forall key | key in ToDict(es)
        ensures exists i :: 0 <= i < |es| && es[i].0 == key && ToDict(es)[key] == Leaf(es[i].1)
      {
        if key != es[last].0 {
          var i :| 0 <= i < |init| && init[i].0 == key && ToDict(init)[key] == Leaf(init[i].1);
          assert es[i] == init[i];
        }
      }
    }
  }

  /**
   * Round trip: unflattening the flattened form of a nested dictionary (keys without dots at
   * every depth, no empty nested dictionary) gives it back, whatever order the flat items come in.
   */
  lemma UnflattenFlatten<P>(d: Dict<P>, es: Entries<P>)
    requires WellKeyed(d) && NoEmptyNodes(d) && Flattenable(d)
    requires DistinctKeys(es) && ToDict(es) == Flatten(d)
    ensures Unflatten(es) == Ok(d)
  {
    ToDictEntries(es);
    forall i | 0 <= i < |es| ensures LeafAt(d, Split(es[i].0), es[i].1) {
      FlattenLeafAt(d, es[i].0, es[i].1);
    }
    forall i, j | 0 <= i < |es| && 0 <= j < |es| && i != j ensures !(Split(es[i].0) <= Split(es[j].0)) {
      if Split(es[i].0) <= Split(es[j].0) {
        LeafPathsPrefixFree(d, Split(es[i].0), es[i].1, Split(es[j].0), es[j].1);
        SplitInjective(es[i].0, es[j].0);
      }
    }
    UnflattenLeaves(es);
    var t := Unflatten(es).value;
    forall q, w ensures LeafAt(t, q, w) <==> LeafAt(d, q, w) {
      if LeafAt(d, q, w) {
        LeafAtDotFree(d, q, w);
        SplitJoin(q);
        FlattenLeafAt(d, Join(q), w);
        var i :| 0 <= i < |es| && es[i].0 == Join(q) && ToDict(es)[Join(q)] == Leaf(es[i].1);
      }
    }
    LeafAtExtensional(t, d);
  }

  lemma PrefixFreeDistinct<P>(es: Entries<P>)
    requires PrefixFree(es)
    ensures DistinctKeys(es)
  {
    forall i, j | 0 <= i < j < |es| ensures es[i].0 != es[j].0 {
      assert !(Split(es[i].0) <= Split(es[j].0));
    }
  }

  /**
   * Round trip the other way: flattening the result of unflattening prefix-free items gives back
   * the dictionary of those items.
   */
  lemma FlattenUnflatten<P>(es: Entries<P>)
    requires PrefixFree(es)
    ensures Unflatten(es).Ok? && Flattenable(Unflatten(es).value)
    ensures Flatten(Unflatten(es).value) == ToDict(es)
  {
    UnflattenLeaves(es);
    PrefixFreeDistinct(es);
    var t := Unflatten(es).value;
    forall i | 0 <= i < |es| ensures LeafAt(t, Split(es[i].0), es[i].1) {
      assert exists j :: 0 <= j < |es| && Split(es[j].0) == Split(es[i].0) && es[j].1 == es[i].1;
    }
    FlattenLeaves(t, es);
  }

  /** A nested dictionary whose leaves are exactly the entries (split at the dots) flattens to the entries' dictionary. */
  lemma FlattenLeaves<P>(t: Dict<P>, es: Entries<P>)
    requires WellKeyed(t) && DistinctKeys(es)
    requires forall i :: 0 <= i < |es| ==> LeafAt(t, Split(es[i].0), es[i].1)
    requires forall q, w :: LeafAt(t, q, w) ==> exists i :: 0 <= i < |es| && Split(es[i].0) == q && es[i].1 == w
    ensures Flattenable(t) && Flatten(t) == ToDict(es)
  {
    WellKeyedFlattenable(t);
    var f, g := Flatten(t), ToDict(es);
    forall key | key in f ensures key in g && f[key] == g[key] {
      FlatKeyIsEntry(t, es, key);
    }
    forall key | key in g ensures key in f {
      EntryIsFlatKey(t, es, key);
    }
  }

  lemma FlatKeyIsEntry<P>(t: Dict<P>, es: Entries<P>, key: string)
    requires WellKeyed(t) && Flattenable(t) && DistinctKeys(es)
    requires forall q, w :: LeafAt(t, q, w) ==> exists i :: 0 <= i < |es| && Split(es[i].0) == q && es[i].1 == w
    requires key in Flatten(t)
    ensures key in ToDict(es) && Flatten(t)[key] == ToDict(es)[key]
  {
    var f := Flatten(t);
    assert f[key].Leaf?;
    var w := f[key].param;
    FlattenLeafAt(t, key, w);
    assert LeafAt(t, Split(key), w);
    var i :| 0 <= i < |es| && Split(es[i].0) == Split(key) && es[i].1 == w;
    SplitInjective(es[i].0, key);
    ToDictEntries(es);
    assert ToDict(es)[key] == Leaf(w);
  }

  lemma EntryIsFlatKey<P>(t: Dict<P>, es: Entries<P>, key: string)
    requires WellKeyed(t) && Flattenable(t) && DistinctKeys(es)
    requires forall i :: 0 <= i < |es| ==> LeafAt(t, Split(es[i].0), es[i].1)
    requires key in ToDict(es)
    ensures key in Flatten(t)
  {
    ToDictEntries(es);
    var i :| 0 <= i < |es| && es[i].0 == key && ToDict(es)[key] == Leaf(es[i].1);
    FlattenLeafAt(t, key, es[i].1);
  }
}
