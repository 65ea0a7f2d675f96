/** Operations on ordered lists of language codes: the view keeps the
    selected languages as an array and edits it with `push`, `_.indexOf`
    and `_.without`. */
module LanguageLists {

  /** A language code such as `en`; the view compares codes as strings. */
  type Code = string

  /** No element occurs twice. */
  predicate NoDup(xs: seq<Code>) {
    forall i, j :: 0 <= i < j < |xs| ==> xs[i] != xs[j]
  }

  lemma NoDupCons(a: Code, t: seq<Code>)
    ensures NoDup([a] + t) <==> a !in t && NoDup(t)
  {
    var xs := [a] + t;
    if a !in t && NoDup(t) {
      forall i, j | 0 <= i < j < |xs|
        ensures xs[i] != xs[j]
      {
        if i == 0 {
          assert xs[j] == t[j - 1];
        } else {
          assert xs[i] == t[i - 1] && xs[j] == t[j - 1];
        }
      }
    }
    if NoDup(xs) {
      forall i, j | 0 <= i < j < |t|
        ensures t[i] != t[j]
      {
        assert t[i] == xs[i + 1] && t[j] == xs[j + 1];
      }
      forall k | 0 <= k < |t|
        ensures t[k] != a
      {
        assert xs[0] == a && xs[k + 1] == t[k];
      }
    }
  }

  lemma NoDupSnoc(s: seq<Code>, a: Code)
    requires NoDup(s) && a !in s
    ensures NoDup(s + [a])
  {
    var xs := s + [a];
    forall i, j | 0 <= i < j < |xs|
      ensures xs[i] != xs[j]
    {
      assert xs[i] == s[i];
      if j < |s| {
        assert xs[j] == s[j];
      }
    }
  }

  /** Underscore's `_.without(xs, c)`: every occurrence of `c` removed,
      the rest in their original order. */
  function Without(xs: seq<Code>, c: Code): (r: seq<Code>)
    ensures multiset(r) == multiset(xs)[c := 0]
    ensures forall x :: x in r <==> x in xs && x != c
    ensures |r| <= |xs|
  {
    if xs == [] then []
    else
      assert xs == [xs[0]] + xs[1..];
      if xs[0] == c then Without(xs[1..], c)
      else [xs[0]] + Without(xs[1..], c)
  }

  /** Elements of `xs` that do not occur in `ys`, in their order in `xs`. */
  function Minus(xs: seq<Code>, ys: seq<Code>): (r: seq<Code>)
    ensures forall x :: x in r <==> x in xs && x !in ys
  {
    if xs == [] then []
    else
      assert xs == [xs[0]] + xs[1..];
      (if xs[0] in ys then [] else [xs[0]]) + Minus(xs[1..], ys)
  }

  /** The first occurrence of each element of `xs`, in order. */
  function Dedup(xs: seq<Code>): (r: seq<Code>)
    ensures NoDup(r)
    ensures forall x :: x in r <==> x in xs
    decreases |xs|
  {
    if xs == [] then []
    else
      var rest := Dedup(Without(xs[1..], xs[0]));
      assert xs == [xs[0]] + xs[1..];
      NoDupCons(xs[0], rest);
      [xs[0]] + rest
  }

  /** The loop of `renderLanguages`: each active code not yet in the
      selected list is pushed onto it, in the order the active list gives. */
  function MergeActive(selected: seq<Code>, active: seq<Code>): (r: seq<Code>)
    ensures |selected| <= |r| && r[..|selected|] == selected
    ensures forall x :: x in r <==> x in selected || x in active
    decreases |active|
  {
    if active == [] then selected
    else
      var next := if active[0] in selected then selected else selected + [active[0]];
      var r := MergeActive(next, active[1..]);
      assert active == [active[0]] + active[1..];
      assert r[..|selected|] == next[..|selected|];
      r
  }

  /** Removal distributes over concatenation, so it keeps the relative
      order of the codes it does not remove. */
  lemma {:induction false} WithoutConcat(a: seq<Code>, b: seq<Code>, c: Code)
    ensures Without(a + b, c) == Without(a, c) + Without(b, c)
    decreases |a|
  {
    if a == [] {
      assert a + b == b;
    } else {
      assert (a + b)[0] == a[0];
      assert (a + b)[1..] == a[1..] + b;
      WithoutConcat(a[1..], b, c);
    }
  }

  /** Removing an element that is absent changes nothing. */
  lemma {:induction false} WithoutAbsent(xs: seq<Code>, c: Code)
    requires c !in xs
    ensures Without(xs, c) == xs
    decreases |xs|
  {
    if xs != [] {
      WithoutAbsent(xs[1..], c);
      assert xs == [xs[0]] + xs[1..];
    }
  }

  /** Removal keeps a duplicate-free list duplicate-free. */
  lemma {:induction false} WithoutKeepsNoDup(xs: seq<Code>, c: Code)
    requires NoDup(xs)
    ensures NoDup(Without(xs, c))
    decreases |xs|
  {
    if xs != [] {
      assert xs == [xs[0]] + xs[1..];
      NoDupCons(xs[0], xs[1..]);
      WithoutKeepsNoDup(xs[1..], c);
      if xs[0] != c {
        NoDupCons(xs[0], Without(xs[1..], c));
      }
    }
  }

  /** Excluding one more element is the same as removing it afterwards. */
  lemma {:induction false} MinusSnoc(xs: seq<Code>, ys: seq<Code>, a: Code)
    ensures Minus(xs, ys + [a]) == Without(Minus(xs, ys), a)
    decreases |xs|
  {
    if xs != [] {
      var head := if xs[0] in ys then [] else [xs[0]];
      MinusSnoc(xs[1..], ys, a);
      WithoutConcat(head, Minus(xs[1..], ys), a);
    }
  }

  /** Nothing is excluded by an empty list. */
  lemma {:induction false} MinusNothing(xs: seq<Code>)
    ensures Minus(xs, []) == xs
    decreases |xs|
  {
    if xs != [] {
      MinusNothing(xs[1..]);
      assert xs == [xs[0]] + xs[1..];
    }
  }

  /** Reference definition of the merge: the selected list followed by
      the first occurrence of every active code it lacks, in active order. */
  lemma {:induction false} MergeActiveAppendsNewCodes(selected: seq<Code>, active: seq<Code>)
    ensures MergeActive(selected, active) == selected + Dedup(Minus(active, selected))
    decreases |active|
  {
    if active != [] {
      var a, rest := active[0], active[1..];
      var m := Minus(rest, selected);
      if a in selected {
        assert Minus(active, selected) == m;
        MergeActiveAppendsNewCodes(selected, rest);
      } else {
        assert Minus(active, selected) == [a] + m;
        assert MergeActive(selected, active) == MergeActive(selected + [a], rest);
        MergeActiveAppendsNewCodes(selected + [a], rest);
        MinusSnoc(rest, selected, a);
        assert ([a] + m)[1..] == m;
        assert Dedup([a] + m) == [a] + Dedup(Without(m, a));
      }
    }
  }

  /** Merging codes that are all already selected leaves the list as it is. */
  lemma MergeActiveNoNewCodes(selected: seq<Code>, active: seq<Code>)
    requires forall x :: x in active ==> x in selected
    ensures MergeActive(selected, active) == selected
  {
    MergeActiveAppendsNewCodes(selected, active);
  }

  /** The merge keeps a duplicate-free list duplicate-free. */
  lemma {:induction false} MergeActiveKeepsNoDup(selected: seq<Code>, active: seq<Code>)
    requires NoDup(selected)
    ensures NoDup(MergeActive(selected, active))
    decreases |active|
  {
    if active != [] {
      if active[0] in selected {
        MergeActiveKeepsNoDup(selected, active[1..]);
      } else {
        NoDupSnoc(selected, active[0]);
        MergeActiveKeepsNoDup(selected + [active[0]], active[1..]);
      }
    }
  }
}
