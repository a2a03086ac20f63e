/**
 * Two list folds shared by the chain compilers: joining blocks in order, and collecting
 * per-item results (a replacement and some appended items) with the first error winning.
 */
module SeqFolds {
  import opened Wrappers

  /** The blocks joined in order. */
  function Concat<T>(blocks: seq<seq<T>>): seq<T> {
    if blocks == [] then [] else Concat(blocks[..|blocks| - 1]) + blocks[|blocks| - 1]
  }

  /** Joining a prefix of the blocks gives a prefix of the joined blocks. */
  lemma {:induction false} ConcatPrefix<T>(blocks: seq<seq<T>>, k: nat)
    requires k <= |blocks|
    ensures |Concat(blocks[..k])| <= |Concat(blocks)| && Concat(blocks)[..|Concat(blocks[..k])|] == Concat(blocks[..k])
  {
    if k < |blocks| {
      var pre := blocks[..|blocks| - 1];
      assert pre[..k] == blocks[..k];
      ConcatPrefix(pre, k);
      assert Concat(blocks)[..|Concat(pre)|] == Concat(pre);
    } else {
      assert blocks[..k] == blocks;
    }
  }

  /** Block `k` sits in the joined blocks right after the blocks before it. */
  lemma ConcatBlock<T>(blocks: seq<seq<T>>, k: nat)
    requires k < |blocks|
    ensures var at := |Concat(blocks[..k])|;
      at + |blocks[k]| <= |Concat(blocks)| && Concat(blocks)[at..at + |blocks[k]|] == blocks[k]
  {
    ConcatPrefix(blocks, k + 1);
    var pre := blocks[..k + 1];
    assert pre[..k] == blocks[..k];
    assert Concat(pre) == Concat(blocks[..k]) + blocks[k];
    var at := |Concat(blocks[..k])|;
    assert Concat(blocks)[at..at + |blocks[k]|] == Concat(pre)[at..];
  }

  /** The replacements and appended items of the first `n` results, or the first error. */
  function Collect<T>(rs: seq<Result<(T, seq<T>)>>, n: nat): (r: Result<(seq<T>, seq<T>)>)
    requires n <= |rs|
    ensures r.Ok? ==> |r.value.0| == n
  {
    if n == 0 then Ok(([], []))
    else
      match Collect(rs, n - 1)
      case Err(e) => Err(e)
      case Ok((hs, xs)) =>
        match rs[n - 1]
        case Err(e) => Err(e)
        case Ok((t, x)) => Ok((hs + [t], xs + x))
  }

  /** Collecting succeeds exactly when every result does, and keeps each replacement in place. */
  lemma {:induction false} CollectAt<T>(rs: seq<Result<(T, seq<T>)>>, n: nat)
    requires n <= |rs|
    ensures Collect(rs, n).Ok? <==> forall k :: 0 <= k < n ==> rs[k].Ok?
    ensures Collect(rs, n).Ok? ==> forall k :: 0 <= k < n ==> Collect(rs, n).value.0[k] == rs[k].value.0
  {
    if n > 0 {
      CollectAt(rs, n - 1);
    }
  }

  /** A property of every appended item of every result holds of every collected appended item. */
  lemma {:induction false} CollectExtras<T>(rs: seq<Result<(T, seq<T>)>>, n: nat, p: T -> bool)
    requires n <= |rs| && Collect(rs, n).Ok?
    requires forall k, j :: 0 <= k < n && rs[k].Ok? && 0 <= j < |rs[k].value.1| ==> p(rs[k].value.1[j])
    ensures forall m :: 0 <= m < |Collect(rs, n).value.1| ==> p(Collect(rs, n).value.1[m])
  {
    if n > 0 {
      CollectExtras(rs, n - 1, p);
      var xs := Collect(rs, n - 1).value.1;
      var x := rs[n - 1].value.1;
      forall m | 0 <= m < |xs + x| ensures p((xs + x)[m]) {
        if m >= |xs| { assert (xs + x)[m] == x[m - |xs|]; }
      }
    }
  }

  /** `f` applied to every item. */
  function Results<T>(xs: seq<T>, f: T -> Result<(T, seq<T>)>): (r: seq<Result<(T, seq<T>)>>)
    ensures |r| == |xs| && forall k :: 0 <= k < |xs| ==> r[k] == f(xs[k])
  {
    seq(|xs|, k requires 0 <= k < |xs| => f(xs[k]))
  }

  /** One pass of a loop body that writes `f`'s replacement at `i` and appends `f`'s extra items. */
  function StepAt<T>(xs: seq<T>, f: T -> Result<(T, seq<T>)>, i: nat): (r: Result<seq<T>>)
    requires i < |xs|
    ensures r.Ok? ==> |r.value| >= |xs|
  {
    match f(xs[i])
    case Err(e) => Err(e)
    case Ok((t, x)) => Ok(xs[i := t] + x)
  }

  /** That loop over the first `n` positions of the list, which grows as it goes. */
  function StepAll<T>(xs: seq<T>, f: T -> Result<(T, seq<T>)>, n: nat): (r: Result<seq<T>>)
    requires n <= |xs|
    ensures r.Ok? ==> |r.value| >= |xs|
  {
    if n == 0 then Ok(xs)
    else
      match StepAll(xs, f, n - 1)
      case Err(e) => Err(e)
      case Ok(m) => StepAt(m, f, n - 1)
  }

  /**
   * After `n` positions the list is the `n` replacements, the untouched rest of the list,
   * and everything appended so far.
   */
  lemma {:induction false} StepAllIs<T>(xs: seq<T>, f: T -> Result<(T, seq<T>)>, n: nat)
    requires n <= |xs|
    ensures var res := Collect(Results(xs, f), n);
      StepAll(xs, f, n).Ok? == res.Ok?
      && (res.Ok? ==> StepAll(xs, f, n).value == res.value.0 + xs[n..] + res.value.1)
  {
    if n == 0 {
      assert xs[0..] == xs;
    } else {
      StepAllIs(xs, f, n - 1);
      var prev := Collect(Results(xs, f), n - 1);
      if prev.Ok? {
        var hs, ys := prev.value.0, prev.value.1;
        assert xs[n - 1..] == [xs[n - 1]] + xs[n..];
        var m := StepAll(xs, f, n - 1).value;
        assert m == hs + ([xs[n - 1]] + xs[n..]) + ys;
        match f(xs[n - 1])
        case Err(e) =>
        case Ok((t, x)) =>
          assert m[n - 1 := t] == hs + [t] + xs[n..] + ys;
          assert hs + [t] + xs[n..] + ys + x == hs + [t] + xs[n..] + (ys + x);
      }
    }
  }

  /**
   * The whole loop equals applying `f` to every original item: it fails exactly when `f`
   * fails on some item, puts each item's replacement in its place and appends all the
   * extra items in order.
   */
  lemma StepAllAt<T>(xs: seq<T>, f: T -> Result<(T, seq<T>)>)
    ensures var r := StepAll(xs, f, |xs|);
      (r.Ok? <==> forall k :: 0 <= k < |xs| ==> f(xs[k]).Ok?)
      && (r.Ok? ==>
            Collect(Results(xs, f), |xs|).Ok?
            && |r.value| >= |xs|
            && (forall k :: 0 <= k < |xs| ==> r.value[k] == f(xs[k]).value.0)
            && r.value[|xs|..] == Collect(Results(xs, f), |xs|).value.1)
  {
    var rs := Results(xs, f);
    StepAllIs(xs, f, |xs|);
    CollectAt(rs, |xs|);
    assert xs[|xs|..] == [];
    if Collect(rs, |xs|).Ok? {
      var res := Collect(rs, |xs|).value;
      assert res.0 + xs[|xs|..] + res.1 == res.0 + res.1;
    }
  }

  /**
   * When every extra item satisfies `p` and `f` keeps every item satisfying `p` as it is,
   * running the loop body on an appended position changes nothing.
   */
  lemma StepAllKept<T>(xs: seq<T>, f: T -> Result<(T, seq<T>)>, p: T -> bool)
    requires forall k, j :: 0 <= k < |xs| && f(xs[k]).Ok? && 0 <= j < |f(xs[k]).value.1| ==> p(f(xs[k]).value.1[j])
    requires forall t :: p(t) ==> f(t) == Ok((t, []))
    requires StepAll(xs, f, |xs|).Ok?
    ensures var r := StepAll(xs, f, |xs|).value;
      forall k :: |xs| <= k < |r| ==> StepAt(r, f, k) == Ok(r)
  {
    var rs := Results(xs, f);
    StepAllAt(xs, f);
    CollectExtras(rs, |xs|, p);
    var r := StepAll(xs, f, |xs|).value;
    var ys := Collect(rs, |xs|).value.1;
    forall k | |xs| <= k < |r| ensures StepAt(r, f, k) == Ok(r) {
      assert r[k] == ys[k - |xs|];
      var t := r[k];
      assert p(t);
      KeepOne(f, p, t);
      assert r[k := t] + [] == r;
    }
  }

  lemma KeepOne<T>(f: T -> Result<(T, seq<T>)>, p: T -> bool, x: T)
    requires forall t :: p(t) ==> f(t) == Ok((t, []))
    requires p(x)
    ensures f(x) == Ok((x, []))
  {
  }

  /** Once the loop has failed it stays failed, with the same error. */
  lemma {:induction false} StepAllErr<T>(xs: seq<T>, f: T -> Result<(T, seq<T>)>, m: nat, n: nat)
    requires m <= n <= |xs| && StepAll(xs, f, m).Err?
    ensures StepAll(xs, f, n) == StepAll(xs, f, m)
  {
    if m < n {
      StepAllErr(xs, f, m, n - 1);
    }
  }

  /**
   * The loop itself: position by position over the items the list had when it started,
   * writing each replacement in place and appending the extra items; the first error
   * ends it.
   */
  method StepLoop<T>(xs: seq<T>, f: T -> Result<(T, seq<T>)>) returns (r: Result<seq<T>>)
    ensures r == StepAll(xs, f, |xs|)
  {
    var cur := xs;
    var i := 0;
    while i < |xs|
      invariant i <= |xs| && StepAll(xs, f, i) == Ok(cur)
    {
      match f(cur[i])
      case Err(e) =>
        StepAllErr(xs, f, i + 1, |xs|);
        return Err(e);
      case Ok((t, extra)) =>
        cur := cur[i := t] + extra;
      i := i + 1;
    }
    return Ok(cur);
  }

  /** The blocks before `k + 1` are the blocks before `k` followed by block `k`. */
  lemma ConcatSnoc<T>(blocks: seq<seq<T>>, k: nat)
    requires k < |blocks|
    ensures Concat(blocks[..k + 1]) == Concat(blocks[..k]) + blocks[k]
  {
    assert blocks[..k + 1][..k] == blocks[..k];
  }

  /** Joining the blocks by extending one list with each block in turn. */
  method ConcatLoop<T>(init: seq<T>, blocks: seq<seq<T>>) returns (r: seq<T>)
    ensures r == init + Concat(blocks)
  {
    r := init;
    var i := 0;
    assert blocks[..0] == [];
    while i < |blocks|
      invariant i <= |blocks| && r == init + Concat(blocks[..i])
    {
      ConcatSnoc(blocks, i);
      r := r + blocks[i];
      i := i + 1;
    }
    assert blocks[..i] == blocks;
  }
}
