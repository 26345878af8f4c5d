/**
 * Dotted parameter keys: `key.split(".")` and the `f"{key}.{subkey}"` join used by the
 * flat/nested parameter mapping of the weather catalog's base model.
 */
module DottedKeys {

  /** Position of the first '.' in `s`. */
  function FirstDot(s: string): (i: nat)
    requires '.' in s
    ensures i < |s| && s[i] == '.' && '.' !in s[..i]
  {
    if s[0] == '.' then 0
    else
      var j := FirstDot(s[1..]);
      assert s[..j + 1] == [s[0]] + s[1..][..j];
      j + 1
  }

  /** The text before the first '.', or the whole key when it has none. */
  function Head(s: string): (h: string)
    ensures '.' !in h
  {
    if '.' in s then s[..FirstDot(s)] else s
  }

  /** The text after the first '.'. */
  function Tail(s: string): (t: string)
    requires '.' in s
    ensures |t| < |s|
  {
    s[FirstDot(s) + 1..]
  }

  /** `s.split(".")`: the dot-free pieces between the dots, in order. */
  function Split(s: string): (parts: seq<string>)
    ensures |parts| > 0
    ensures forall i :: 0 <= i < |parts| ==> '.' !in parts[i]
    ensures '.' !in s ==> parts == [s]
    decreases |s|
  {
    if '.' in s then [Head(s)] + Split(Tail(s)) else [s]
  }

  /** `".".join(parts)`. */
  function Join(parts: seq<string>): string
    requires |parts| > 0
  {
    if |parts| == 1 then parts[0] else parts[0] + "." + Join(parts[1..])
  }

  /** Every component of a path is free of dots. */
  predicate DotFree(parts: seq<string>)
  {
    forall i :: 0 <= i < |parts| ==> '.' !in parts[i]
  }

  /** A key prefixed by a dot-free key and a dot splits back into the two halves. */
  lemma HeadTailOfDotted(k: string, s: string)
    requires '.' !in k
    ensures '.' in k + "." + s
    ensures Head(k + "." + s) == k && Tail(k + "." + s) == s
  {
    var key := k + "." + s;
    assert key[|k|] == '.';
    assert key[..|k|] == k;
    assert key[|k| + 1..] == s;
  }

  /** `HeadTailOfDotted` for every pair at once. */
  lemma HeadTailOfDottedAll()
    ensures forall k: string, s: string {:trigger k + "." + s} :: '.' !in k ==>
      '.' in k + "." + s && Head(k + "." + s) == k && Tail(k + "." + s) == s
  {
    forall k: string, s: string | '.' !in k
      ensures '.' in k + "." + s && Head(k + "." + s) == k && Tail(k + "." + s) == s
    {
      HeadTailOfDotted(k, s);
    }
  }

  /** A dotted key is its head, a dot and its tail. */
  lemma DottedIsHeadTail(s: string)
    requires '.' in s
    ensures s == Head(s) + "." + Tail(s)
  {
    var i := FirstDot(s);
    assert s == s[..i] + [s[i]] + s[i + 1..];
  }

  lemma {:induction false} SplitOfDotted(k: string, s: string)
    requires '.' !in k
    ensures Split(k + "." + s) == [k] + Split(s)
  {
    HeadTailOfDotted(k, s);
  }

  /** Joining the pieces of a split gives the key back, so `Split` is injective. */
  lemma {:induction false} JoinSplit(s: string)
    ensures Join(Split(s)) == s
    decreases |s|
  {
    if '.' in s {
      JoinSplit(Tail(s));
      DottedIsHeadTail(s);
    }
  }

  lemma SplitInjective(s: string, t: string)
    requires Split(s) == Split(t)
    ensures s == t
  {
    JoinSplit(s);
    JoinSplit(t);
  }

  /** Splitting the join of dot-free pieces gives the pieces back. */
  lemma {:induction false} SplitJoin(parts: seq<string>)
    requires |parts| > 0 && DotFree(parts)
    ensures Split(Join(parts)) == parts
  {
    if |parts| > 1 {
      SplitJoin(parts[1..]);
      SplitOfDotted(parts[0], Join(parts[1..]));
    }
  }
}
