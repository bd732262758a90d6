/** Removing repetitions from a list while keeping its order. */
module Dedup {
  /** Each value once, where it first occurs. */
  function FirstOccurrences<T(==)>(xs: seq<T>): (ys: seq<T>)
    ensures |ys| <= |xs|
  {
    if xs == [] then []
    else
      var init, last := xs[..|xs| - 1], xs[|xs| - 1];
      FirstOccurrences(init) + (if last in init then [] else [last])
  }

  lemma FirstOccurrencesSnoc<T>(xs: seq<T>, x: T)
    ensures FirstOccurrences(xs + [x]) == FirstOccurrences(xs) + (if x in xs then [] else [x])
  {
    assert (xs + [x])[..|xs|] == xs;
  }

  lemma {:induction false} NothingLost<T>(xs: seq<T>)
    ensures forall x :: x in FirstOccurrences(xs) <==> x in xs
    ensures FirstOccurrences(xs) == [] <==> xs == []
  {
    if xs != [] {
      var init, last := xs[..|xs| - 1], xs[|xs| - 1];
      NothingLost(init);
      assert xs == init + [last];
    }
  }

  lemma {:induction false} NothingTwice<T>(xs: seq<T>)
    ensures var ys := FirstOccurrences(xs); forall i, j :: 0 <= i < j < |ys| ==> ys[i] != ys[j]
  {
    if xs != [] {
      var init := xs[..|xs| - 1];
      NothingTwice(init);
      NothingLost(init);
    }
  }

  /** A list without repetitions is its own list of first occurrences. */
  lemma {:induction false} FirstOccurrencesFixed<T>(xs: seq<T>)
    requires forall i, j :: 0 <= i < j < |xs| ==> xs[i] != xs[j]
    ensures FirstOccurrences(xs) == xs
  {
    if xs != [] {
      var init, last := xs[..|xs| - 1], xs[|xs| - 1];
      FirstOccurrencesFixed(init);
      assert last !in init;
      assert init + [last] == xs;
    }
  }

  /** Removing repetitions on the left first changes nothing. */
  lemma {:induction false} FirstOccurrencesLeft<T>(xs: seq<T>, ys: seq<T>)
    ensures FirstOccurrences(FirstOccurrences(xs) + ys) == FirstOccurrences(xs + ys)
  {
    if ys == [] {
      assert xs + ys == xs && FirstOccurrences(xs) + ys == FirstOccurrences(xs);
      NothingTwice(xs);
      FirstOccurrencesFixed(FirstOccurrences(xs));
    } else {
      var init, last := ys[..|ys| - 1], ys[|ys| - 1];
      FirstOccurrencesLeft(xs, init);
      NothingLost(xs);
      assert (xs + ys)[..|xs + ys| - 1] == xs + init;
      var fs := FirstOccurrences(xs);
      assert (fs + ys)[..|fs + ys| - 1] == fs + init;
    }
  }

  /** Removing repetitions on the right first changes nothing either. */
  lemma {:induction false} FirstOccurrencesRight<T>(xs: seq<T>, ys: seq<T>)
    ensures FirstOccurrences(xs + FirstOccurrences(ys)) == FirstOccurrences(xs + ys)
  {
    if ys != [] {
      var init, last := ys[..|ys| - 1], ys[|ys| - 1];
      FirstOccurrencesRight(xs, init);
      NothingLost(init);
      assert (xs + ys)[..|xs + ys| - 1] == xs + init;
      var fs := FirstOccurrences(init);
      if last in init {
        assert fs + [] == fs;
      } else {
        assert (xs + (fs + [last]))[..|xs + (fs + [last])| - 1] == xs + fs;
      }
    }
  }

  /** Values already there add nothing. */
  lemma {:induction false} AddKnown<T>(xs: seq<T>, ys: seq<T>)
    requires forall y <- ys :: y in xs
    ensures FirstOccurrences(xs + ys) == FirstOccurrences(xs)
  {
    if ys == [] {
      assert xs + ys == xs;
    } else {
      var init := ys[..|ys| - 1];
      AddKnown(xs, init);
      assert (xs + ys)[..|xs + ys| - 1] == xs + init;
    }
  }
}
