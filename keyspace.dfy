/** Shared by the generators: the indices of a block that a skip test lets
    through, and the energy label at the head of a submitter key
    `{label}_{number}`. */
module Keyspace {
  /** The indices lo .. hi - 1 that `skip` does not reject, in ascending
      order: the iterations of a `for` loop that do not `continue`. */
  function Kept(skip: int -> bool, lo: int, hi: int): seq<int>
    decreases hi - lo
  {
    if hi <= lo then [] else Kept(skip, lo, hi - 1) + (if skip(hi - 1) then [] else [hi - 1])
  }

  /** An index is kept exactly when it lies in the block and is not skipped. */
  lemma {:induction false} KeptMeaning(skip: int -> bool, lo: int, hi: int)
    ensures forall p :: p in Kept(skip, lo, hi) <==> lo <= p < hi && !skip(p)
    decreases hi - lo
  {
    if hi > lo {
      KeptMeaning(skip, lo, hi - 1);
    }
  }

  /** The kept indices come out strictly ascending. */
  lemma {:induction false} KeptIncreasing(skip: int -> bool, lo: int, hi: int)
    ensures forall i, j :: 0 <= i < j < |Kept(skip, lo, hi)| ==> Kept(skip, lo, hi)[i] < Kept(skip, lo, hi)[j]
    decreases hi - lo
  {
    if hi > lo {
      KeptIncreasing(skip, lo, hi - 1);
      KeptMeaning(skip, lo, hi - 1);
      var ps := Kept(skip, lo, hi - 1);
      var all := Kept(skip, lo, hi);
      assert all == ps + (if skip(hi - 1) then [] else [hi - 1]);
      forall i, j | 0 <= i < j < |all| ensures all[i] < all[j] {
        assert all[i] == ps[i] && ps[i] in ps;
        if j < |ps| {
          assert all[j] == ps[j];
        } else {
          assert all[j] == hi - 1;
        }
      }
    }
  }

  /** With nothing skipped, every index of the block is kept. */
  lemma {:induction false} KeptAll(skip: int -> bool, lo: int, hi: int)
    requires forall p :: lo <= p < hi ==> !skip(p)
    ensures |Kept(skip, lo, hi)| == if hi <= lo then 0 else hi - lo
    decreases hi - lo
  {
    if hi > lo {
      KeptAll(skip, lo, hi - 1);
    }
  }

  /** The length of the text before the first underscore. */
  function LabelLength(k: string): (n: nat)
    ensures n <= |k|
  {
    if k == [] || k[0] == '_' then 0 else 1 + LabelLength(k[1..])
  }

  /** The label of a key: its text before the first underscore. */
  function Label(k: string): string
  {
    k[..LabelLength(k)]
  }

  lemma {:induction false} LabelLengthOfKey(a: string, rest: string)
    requires '_' !in a
    ensures LabelLength(a + "_" + rest) == |a|
  {
    if a != [] {
      assert (a + "_" + rest)[1..] == a[1..] + "_" + rest;
      LabelLengthOfKey(a[1..], rest);
    }
  }

  /** An underscore-free label reads back from the key it heads. */
  lemma KeyLabel(a: string, rest: string)
    requires '_' !in a
    ensures Label(a + "_" + rest) == a
  {
    LabelLengthOfKey(a, rest);
    assert (a + "_" + rest)[..|a|] == a;
  }

  /** The items of the blocks, block after block: what a generator whose
      outer loop walks the blocks yields. */
  function Concat<T>(blocks: seq<seq<T>>): seq<T>
  {
    if blocks == [] then [] else Concat(blocks[..|blocks| - 1]) + blocks[|blocks| - 1]
  }

  /** No two items share a key. */
  predicate UniqueBy<T>(s: seq<T>, key: T -> string)
  {
    forall i, j :: 0 <= i < j < |s| ==> key(s[i]) != key(s[j])
  }

  /** Every item's key carries one of the given labels. */
  predicate LabelledBy<T>(s: seq<T>, key: T -> string, labels: set<string>)
  {
    forall i :: 0 <= i < |s| ==> Label(key(s[i])) in labels
  }

  /** When every block has distinct keys that all carry the block's own
      label, and the labels of the blocks differ, no two items of all the
      blocks share a key, and every key carries one of the labels. */
  lemma {:induction false} ConcatUnique<T>(blocks: seq<seq<T>>, key: T -> string, names: seq<string>)
    requires |names| == |blocks|
    requires forall k :: 0 <= k < |blocks| ==> UniqueBy(blocks[k], key) && LabelledBy(blocks[k], key, {names[k]})
    requires forall k, l :: 0 <= k < l < |names| ==> names[k] != names[l]
    ensures UniqueBy(Concat(blocks), key)
    ensures LabelledBy(Concat(blocks), key, set k | 0 <= k < |names| :: names[k])
  {
    if blocks != [] {
      var n := |blocks|;
      var front, fnames := blocks[..n - 1], names[..n - 1];
      ConcatUnique(front, key, fnames);
      var a, b := Concat(front), blocks[n - 1];
      var labels := set k | 0 <= k < n - 1 :: fnames[k];
      var all := set k | 0 <= k < n :: names[k];
      assert Concat(blocks) == a + b;
      assert UniqueBy(b, key) && LabelledBy(b, key, {names[n - 1]});
      assert names[n - 1] !in labels;
      forall i, j | 0 <= i < j < |a + b| ensures key((a + b)[i]) != key((a + b)[j]) {
        if i < |a| <= j {
          assert Label(key(a[i])) in labels && Label(key(b[j - |a|])) == names[n - 1];
        }
      }
      forall i | 0 <= i < |a + b| ensures Label(key((a + b)[i])) in all {
        if i < |a| {
          assert Label(key(a[i])) in labels;
        } else {
          assert Label(key(b[i - |a|])) == names[n - 1];
        }
      }
    }
  }
}
