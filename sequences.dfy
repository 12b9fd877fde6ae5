/**
 * Order-preserving filtering of sequences: the semantics of Rust's
 * `Vec::retain` and of collecting the items of an iterator that pass a test.
 */
module Sequences {

  /** The elements of `s` that satisfy `keep`, in their original order. */
  function Keep<T>(s: seq<T>, keep: T -> bool): (r: seq<T>)
    ensures |r| <= |s|
  {
    if s == [] then []
    else Keep(s[..|s| - 1], keep) + (if keep(s[|s| - 1]) then [s[|s| - 1]] else [])
  }

  /** An element survives exactly when it was there and passes the test. */
  lemma {:induction false} KeepMember<T>(s: seq<T>, keep: T -> bool, x: T)
    ensures x in Keep(s, keep) <==> x in s && keep(x)
  {
    if s != [] {
      var init, last := s[..|s| - 1], s[|s| - 1];
      assert s == init + [last];
      KeepMember(init, keep, x);
    }
  }

  /** Filtering distributes over concatenation: relative order is kept. */
  lemma {:induction false} KeepConcat<T>(a: seq<T>, b: seq<T>, keep: T -> bool)
    ensures Keep(a + b, keep) == Keep(a, keep) + Keep(b, keep)
  {
    if b == [] {
      assert a + b == a;
    } else {
      var init, last := b[..|b| - 1], b[|b| - 1];
      assert (a + b)[..|a + b| - 1] == a + init;
      assert (a + b)[|a + b| - 1] == last;
      KeepConcat(a, init, keep);
    }
  }

  /** When every element passes, nothing is removed. */
  lemma {:induction false} KeepAll<T>(s: seq<T>, keep: T -> bool)
    requires forall i :: 0 <= i < |s| ==> keep(s[i])
    ensures Keep(s, keep) == s
  {
    if s != [] {
      KeepAll(s[..|s| - 1], keep);
      assert s[..|s| - 1] + [s[|s| - 1]] == s;
    }
  }

  /** When no element passes, everything is removed. */
  lemma {:induction false} KeepNone<T>(s: seq<T>, keep: T -> bool)
    requires forall i :: 0 <= i < |s| ==> !keep(s[i])
    ensures Keep(s, keep) == []
  {
    if s != [] {
      KeepNone(s[..|s| - 1], keep);
    }
  }

  /** Something is removed exactly when some element fails the test. */
  lemma KeepIdentityIff<T>(s: seq<T>, keep: T -> bool)
    ensures Keep(s, keep) == s <==> forall i :: 0 <= i < |s| ==> keep(s[i])
  {
    if forall i :: 0 <= i < |s| ==> keep(s[i]) {
      KeepAll(s, keep);
    } else {
      var i :| 0 <= i < |s| && !keep(s[i]);
      KeepCount(s, keep, i);
    }
  }

  /** Removing an element makes the result strictly shorter. */
  lemma {:induction false} KeepCount<T>(s: seq<T>, keep: T -> bool, i: int)
    requires 0 <= i < |s| && !keep(s[i])
    ensures |Keep(s, keep)| < |s|
  {
    var init, last := s[..|s| - 1], s[|s| - 1];
    if i < |s| - 1 {
      KeepCount(init, keep, i);
    }
  }

  /**
   * A prefix in which every element passes is left in place: its elements
   * keep their indices in the result.
   */
  lemma {:induction false} KeepPrefix<T>(s: seq<T>, keep: T -> bool, k: nat)
    requires k <= |s|
    requires forall i :: 0 <= i < k ==> keep(s[i])
    ensures k <= |Keep(s, keep)| && Keep(s, keep)[..k] == s[..k]
  {
    assert s == s[..k] + s[k..];
    KeepConcat(s[..k], s[k..], keep);
    KeepAll(s[..k], keep);
  }

  /** Two filters can be applied in either order. */
  lemma {:induction false} KeepCommute<T>(s: seq<T>, p: T -> bool, q: T -> bool)
    ensures Keep(Keep(s, p), q) == Keep(Keep(s, q), p)
  {
    if s != [] {
      var init, last := s[..|s| - 1], s[|s| - 1];
      KeepCommute(init, p, q);
      KeepConcat(Keep(init, p), if p(last) then [last] else [], q);
      KeepConcat(Keep(init, q), if q(last) then [last] else [], p);
    }
  }

  /** Filtering by a stronger test after a weaker one equals filtering by the stronger test alone. */
  lemma {:induction false} KeepRefine<T>(s: seq<T>, strong: T -> bool, weak: T -> bool)
    requires forall x :: strong(x) ==> weak(x)
    ensures Keep(Keep(s, weak), strong) == Keep(s, strong)
  {
    if s != [] {
      var init, last := s[..|s| - 1], s[|s| - 1];
      KeepRefine(init, strong, weak);
      KeepConcat(Keep(init, weak), if weak(last) then [last] else [], strong);
    }
  }

  /** Sequences that agree on which positions pass keep the same number of elements. */
  lemma {:induction false} KeepLengthAgree<T>(s: seq<T>, t: seq<T>, keep: T -> bool)
    requires |s| == |t|
    requires forall i :: 0 <= i < |s| ==> keep(s[i]) == keep(t[i])
    ensures |Keep(s, keep)| == |Keep(t, keep)|
  {
    if s != [] {
      KeepLengthAgree(s[..|s| - 1], t[..|t| - 1], keep);
    }
  }

  /** Tests that agree on every element of `s` keep the same elements. */
  lemma {:induction false} KeepAgree<T>(s: seq<T>, p: T -> bool, q: T -> bool)
    requires forall i :: 0 <= i < |s| ==> p(s[i]) == q(s[i])
    ensures Keep(s, p) == Keep(s, q)
  {
    if s != [] {
      KeepAgree(s[..|s| - 1], p, q);
    }
  }

  /**
   * `Vec::retain`: walks `s` once, front to back, keeping the elements that
   * pass; `removedAny` reports whether the test rejected some element (the
   * side effect a retain closure can record).
   */
  method Retain<T>(s: seq<T>, keep: T -> bool) returns (kept: seq<T>, removedAny: bool)
    ensures kept == Keep(s, keep)
    ensures removedAny <==> exists i :: 0 <= i < |s| && !keep(s[i])
  {
    kept, removedAny := [], false;
    var i := 0;
    while i < |s|
      invariant 0 <= i <= |s|
      invariant kept == Keep(s[..i], keep)
      invariant removedAny <==> exists j :: 0 <= j < i && !keep(s[j])
    {
      assert s[..i + 1][..i] == s[..i];
      if keep(s[i]) {
        kept := kept + [s[i]];
      } else {
        removedAny := true;
      }
      i := i + 1;
    }
    assert s[..i] == s;
  }
}
