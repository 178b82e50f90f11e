/**
 * The two ways the parser turns a list of lines into a result: collecting
 * the values the lines that parse produce, in order (the timing point and
 * hit object loops), and filling a dictionary in which a later line
 * overwrites an earlier one (the key/value sections). Every line is read
 * on its own, and a line that does not parse contributes nothing.
 */
module Folds {
  import opened Wrappers

  /** The values of the elements `f` accepts, in order. */
  function Collect<A, T>(xs: seq<A>, f: A -> Option<T>): seq<T>
  {
    if |xs| == 0 then []
    else Collect(xs[..|xs| - 1], f) + (match f(xs[|xs| - 1]) case Some(v) => [v] case None => [])
  }

  /** The parsing loop: appends the value of every element `f` accepts. */
  method CollectAll<A, T>(xs: seq<A>, f: A -> Option<T>) returns (values: seq<T>)
    ensures values == Collect(xs, f)
  {
    values := [];
    for n := 0 to |xs|
      invariant values == Collect(xs[..n], f)
    {
      assert xs[..n + 1][..n] == xs[..n];
      var v := f(xs[n]);
      if v.Some? {
        values := values + [v.value];
      }
    }
    assert xs[..|xs|] == xs;
  }

  /** Elements are read independently: `xs + ys` yields the values of `xs`, then those of `ys`. */
  lemma {:induction false} CollectConcat<A, T>(xs: seq<A>, ys: seq<A>, f: A -> Option<T>)
    ensures Collect(xs + ys, f) == Collect(xs, f) + Collect(ys, f)
  {
    if |ys| == 0 {
      assert xs + ys == xs;
    } else {
      var n := |ys| - 1;
      CollectConcat(xs, ys[..n], f);
      assert (xs + ys)[..|xs + ys| - 1] == xs + ys[..n];
      assert (xs + ys)[|xs + ys| - 1] == ys[n];
    }
  }

  /** Every collected value is the value of some element. */
  lemma {:induction false} CollectFrom<A, T>(xs: seq<A>, f: A -> Option<T>, k: nat)
    requires k < |Collect(xs, f)|
    ensures exists i :: 0 <= i < |xs| && f(xs[i]) == Some(Collect(xs, f)[k])
  {
    var n := |xs| - 1;
    var prefix := Collect(xs[..n], f);
    if k < |prefix| {
      CollectFrom(xs[..n], f, k);
      var i :| 0 <= i < n && f(xs[..n][i]) == Some(prefix[k]);
      assert xs[..n][i] == xs[i];
    } else {
      assert f(xs[n]) == Some(Collect(xs, f)[k]);
    }
  }

  /** Every element that `f` accepts contributes its value. */
  lemma {:induction false} CollectKeeps<A, T>(xs: seq<A>, f: A -> Option<T>, i: nat)
    requires i < |xs| && f(xs[i]).Some?
    ensures f(xs[i]).value in Collect(xs, f)
  {
    var n := |xs| - 1;
    if i < n {
      CollectKeeps(xs[..n], f, i);
      assert xs[..n][i] == xs[i];
    }
  }

  /** The dictionary of the pairs `f` yields, a later pair overwriting an earlier one with the same key. */
  function Assign<A, K, V>(xs: seq<A>, f: A -> Option<(K, V)>): map<K, V>
  {
    if |xs| == 0 then map[]
    else
      var m := Assign(xs[..|xs| - 1], f);
      match f(xs[|xs| - 1])
      case None => m
      case Some((k, v)) => m[k := v]
  }

  /** The dictionary loop: stores every pair `f` yields, overwriting earlier values. */
  method AssignAll<A, K, V>(xs: seq<A>, f: A -> Option<(K, V)>) returns (m: map<K, V>)
    ensures m == Assign(xs, f)
  {
    m := map[];
    for n := 0 to |xs|
      invariant m == Assign(xs[..n], f)
    {
      assert xs[..n + 1][..n] == xs[..n];
      var pair := f(xs[n]);
      if pair.Some? {
        m := m[pair.value.0 := pair.value.1];
      }
    }
    assert xs[..|xs|] == xs;
  }

  /** The last element that defines a key decides its value. */
  lemma {:induction false} AssignLastWins<A, K, V>(xs: seq<A>, f: A -> Option<(K, V)>, i: nat, k: K, v: V)
    requires i < |xs| && f(xs[i]) == Some((k, v))
    requires forall j :: i < j < |xs| ==> f(xs[j]).None? || f(xs[j]).value.0 != k
    ensures k in Assign(xs, f) && Assign(xs, f)[k] == v
  {
    var n := |xs| - 1;
    if i < n {
      var prefix := xs[..n];
      forall j | i < j < |prefix| ensures f(prefix[j]).None? || f(prefix[j]).value.0 != k {
        assert prefix[j] == xs[j];
      }
      AssignLastWins(prefix, f, i, k, v);
    }
  }

  /** Every key comes from some element that defines it with that value. */
  lemma {:induction false} AssignFrom<A, K, V>(xs: seq<A>, f: A -> Option<(K, V)>, k: K)
    requires k in Assign(xs, f)
    ensures exists i :: 0 <= i < |xs| && f(xs[i]) == Some((k, Assign(xs, f)[k]))
  {
    var n := |xs| - 1;
    var last := f(xs[n]);
    if last.Some? && last.value.0 == k {
      assert f(xs[n]) == Some((k, Assign(xs, f)[k]));
    } else {
      var prefix := xs[..n];
      AssignFrom(prefix, f, k);
      var i :| 0 <= i < |prefix| && f(prefix[i]) == Some((k, Assign(prefix, f)[k]));
      assert xs[i] == prefix[i];
    }
  }
}
