/** Small facts about sequences without repeats and the dicts built from them. */
module Collections {

  /** No element occurs twice. */
  predicate Distinct<T(==)>(s: seq<T>) {
    forall a, b :: 0 <= a < b < |s| ==> s[a] != s[b]
  }

  /** The first position of `x` in `s`. */
  function IndexOf<T(==)>(s: seq<T>, x: T): (k: nat)
    requires x in s
    ensures k < |s| && s[k] == x
    ensures forall a :: 0 <= a < k ==> s[a] != x
  {
    if s[0] == x then 0 else 1 + IndexOf(s[1..], x)
  }

  /** In a sequence without repeats, an element's only position. */
  lemma IndexOfDistinct<T>(s: seq<T>, k: nat)
    requires Distinct(s) && k < |s|
    ensures IndexOf(s, s[k]) == k
  {
  }

  lemma {:induction false} IndexOfPrefix<T>(s: seq<T>, tail: seq<T>, x: T)
    requires x in s
    ensures IndexOf(s + tail, x) == IndexOf(s, x)
  {
    if s[0] != x {
      assert (s + tail)[1..] == s[1..] + tail;
      IndexOfPrefix(s[1..], tail, x);
    }
  }

  /** `dict(zip(keys, values))`: a later key overrides an earlier equal one. */
  function Dict(keys: seq<string>, values: seq<string>): (m: map<string, string>)
    requires |keys| == |values|
    ensures m.Keys == set k | k in keys
  {
    if |keys| == 0 then map[]
    else Dict(keys[..|keys| - 1], values[..|keys| - 1])[keys[|keys| - 1] := values[|keys| - 1]]
  }

  /** With distinct keys, each key maps to the value at its own position. */
  lemma {:induction false} DictAt(keys: seq<string>, values: seq<string>, j: nat)
    requires |keys| == |values| && j < |keys|
    requires Distinct(keys)
    ensures Dict(keys, values)[keys[j]] == values[j]
  {
    var n := |keys|;
    var front, frontValues := keys[..n - 1], values[..n - 1];
    if j < n - 1 {
      assert Distinct(front) by {
        forall a, b | 0 <= a < b < |front| ensures front[a] != front[b] {
          assert front[a] == keys[a] && front[b] == keys[b];
        }
      }
      DictAt(front, frontValues, j);
      assert front[j] == keys[j] && frontValues[j] == values[j];
      assert keys[j] != keys[n - 1];
    }
  }

  /** A sequence without repeats has as many distinct elements as positions. */
  lemma {:induction false} DistinctCard(s: seq<string>)
    requires Distinct(s)
    ensures |set x | x in s| == |s|
  {
    if |s| > 0 {
      var front := s[..|s| - 1];
      DistinctCard(front);
      assert (set x | x in s) == (set x | x in front) + {s[|s| - 1]};
      assert s[|s| - 1] !in front;
    }
  }
}
