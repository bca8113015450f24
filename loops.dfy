/** A loop over a list that stops at the first element failing a test
    succeeds exactly when every element passes; the models of such loops
    reduce their success to All, which is stated here once. */
module Loops {
  /** Every element, the last one last, passes the test. */
  predicate All<T>(test: T -> bool, s: seq<T>) {
    |s| == 0 || (All(test, s[..|s| - 1]) && test(s[|s| - 1]))
  }

  lemma {:induction false} AllEvery<T>(test: T -> bool, s: seq<T>)
    ensures All(test, s) <==> forall i :: 0 <= i < |s| ==> test(s[i])
  {
    if |s| > 0 {
      var init := s[..|s| - 1];
      AllEvery(test, init);
      if All(test, s) {
        forall i | 0 <= i < |s| ensures test(s[i]) {
          if i < |init| {
            assert init[i] == s[i];
          }
        }
      } else if !All(test, init) {
        var i :| 0 <= i < |init| && !test(init[i]);
        assert init[i] == s[i];
      }
    }
  }

  /** Two values per element, in element order. */
  function Pairs<T, U>(f: T -> (U, U), s: seq<T>): seq<U> {
    if |s| == 0 then [] else [f(s[0]).0, f(s[0]).1] + Pairs(f, s[1..])
  }

  lemma {:induction false} PairsIndex<T, U>(f: T -> (U, U), s: seq<T>)
    ensures |Pairs(f, s)| == 2 * |s|
    ensures forall i :: 0 <= i < |s| ==> Pairs(f, s)[2 * i] == f(s[i]).0 && Pairs(f, s)[2 * i + 1] == f(s[i]).1
  {
    if |s| > 0 {
      var t := Pairs(f, s[1..]);
      PairsIndex(f, s[1..]);
      forall i | 0 <= i < |s| ensures Pairs(f, s)[2 * i] == f(s[i]).0 && Pairs(f, s)[2 * i + 1] == f(s[i]).1 {
        if i > 0 {
          assert s[i] == s[1..][i - 1];
          assert Pairs(f, s)[2 * i] == t[2 * (i - 1)];
          assert Pairs(f, s)[2 * i + 1] == t[2 * (i - 1) + 1];
        }
      }
    }
  }
}
