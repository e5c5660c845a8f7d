/**
 * The two string operations the normaliser relies on: Python's `sep.join(words)`
 * for a one-character separator, and `s.split(sep)`, which is its inverse as long
 * as no word contains the separator.
 */
module Text {

  /** True when `c` occurs nowhere in `s`. */
  predicate Free(s: string, c: char) {
    forall k :: 0 <= k < |s| ==> s[k] != c
  }

  /** `sep.join(words)`: the words in order, one `sep` between neighbours. */
  function Join(sep: char, words: seq<string>): (r: string)
    ensures |words| == 0 ==> r == ""
    ensures |words| >= 1 ==> words[0] <= r
  {
    if |words| == 0 then ""
    else if |words| == 1 then words[0]
    else words[0] + [sep] + Join(sep, words[1..])
  }

  /** `s.split(sep)`: the maximal separator-free pieces of `s`, always at least one. */
  function Split(s: string, sep: char): (pieces: seq<string>)
    ensures |pieces| >= 1
    ensures forall k :: 0 <= k < |pieces| ==> Free(pieces[k], sep)
  {
    if |s| == 0 then [""]
    else
      var rest := Split(s[1..], sep);
      if s[0] == sep then [""] + rest
      else [[s[0]] + rest[0]] + rest[1..]
  }

  /** The number of occurrences of `c` in `s`. */
  function Count(s: string, c: char): nat
  {
    if |s| == 0 then 0
    else (if s[0] == c then 1 else 0) + Count(s[1..], c)
  }

  lemma {:induction false} CountConcat(a: string, b: string, c: char)
    ensures Count(a + b, c) == Count(a, c) + Count(b, c)
  {
    if |a| == 0 {
      assert a + b == b;
    } else {
      assert (a + b)[1..] == a[1..] + b;
      CountConcat(a[1..], b, c);
    }
  }

  lemma {:induction false} CountFree(s: string, c: char)
    requires Free(s, c)
    ensures Count(s, c) == 0
  {
    if |s| > 0 {
      CountFree(s[1..], c);
    }
  }

  /** A separator-free string splits into itself alone. */
  lemma {:induction false} SplitFree(w: string, sep: char)
    requires Free(w, sep)
    ensures Split(w, sep) == [w]
  {
    if |w| > 0 {
      SplitFree(w[1..], sep);
      assert [w[0]] + w[1..] == w;
    }
  }

  /** Splitting cuts a separator-free first piece off at the first separator. */
  lemma {:induction false} SplitPiece(w: string, sep: char, rest: string)
    requires Free(w, sep)
    ensures Split(w + [sep] + rest, sep) == [w] + Split(rest, sep)
  {
    if |w| == 0 {
      assert w + [sep] + rest == [sep] + rest;
      assert ([sep] + rest)[1..] == rest;
    } else {
      var s := w + [sep] + rest;
      assert s[1..] == w[1..] + [sep] + rest;
      SplitPiece(w[1..], sep, rest);
      assert [w[0]] + w[1..] == w;
    }
  }

  /**
   * Round trip: when no word contains the separator, splitting the joined text
   * gives back the words, so line `k` of the text is word `k`.
   */
  lemma {:induction false} SplitJoin(sep: char, words: seq<string>)
    requires |words| >= 1
    requires forall k :: 0 <= k < |words| ==> Free(words[k], sep)
    ensures Split(Join(sep, words), sep) == words
  {
    if |words| == 1 {
      SplitFree(words[0], sep);
    } else {
      SplitJoin(sep, words[1..]);
      SplitPiece(words[0], sep, Join(sep, words[1..]));
      assert [words[0]] + words[1..] == words;
    }
  }

  /** Joining `n` separator-free words puts exactly `n - 1` separators in the text. */
  lemma {:induction false} JoinSeparatorCount(sep: char, words: seq<string>)
    requires |words| >= 1
    requires forall k :: 0 <= k < |words| ==> Free(words[k], sep)
    ensures Count(Join(sep, words), sep) == |words| - 1
  {
    CountFree(words[0], sep);
    if |words| > 1 {
      JoinSeparatorCount(sep, words[1..]);
      CountConcat(words[0] + [sep], Join(sep, words[1..]), sep);
      CountConcat(words[0], [sep], sep);
      assert Count([sep], sep) == 1 by {
        assert [sep][1..] == [];
      }
    }
  }
}
