/** Sequence operations the specifications are written with. */
module Lists {

  /** The elements that satisfy `p`, in order. */
  function Filter<A>(p: A -> bool, xs: seq<A>): seq<A> {
    if xs == [] then []
    else
      var last := xs[|xs| - 1];
      Filter(p, xs[..|xs| - 1]) + if p(last) then [last] else []
  }

  /** The shortest prefix with `max` elements that satisfy `p`, or everything. */
  function UpTo<A>(p: A -> bool, xs: seq<A>, max: nat): seq<A> {
    if xs == [] || max == 0 then []
    else [xs[0]] + UpTo(p, xs[1..], if p(xs[0]) then max - 1 else max)
  }

  /** The first elements of `base`, each rewritten by the item at its position. */
  function Overlay<A, B>(f: (A, B) -> B, base: seq<B>, items: seq<A>): (r: seq<B>)
    ensures |r| == |base|
    ensures forall k :: 0 <= k < |base| ==> r[k] == if k < |items| then f(items[k], base[k]) else base[k]
  {
    seq(|base|, k requires 0 <= k < |base| => if k < |items| then f(items[k], base[k]) else base[k])
  }

  function Flatten<A>(xss: seq<seq<A>>): seq<A> {
    if xss == [] then [] else Flatten(xss[..|xss| - 1]) + xss[|xss| - 1]
  }

  /** `xs` can be had from `ys` by leaving elements out. */
  predicate Subsequence<A(==)>(xs: seq<A>, ys: seq<A>) {
    if xs == [] then true
    else if ys == [] then false
    else
      || (xs[|xs| - 1] == ys[|ys| - 1] && Subsequence(xs[..|xs| - 1], ys[..|ys| - 1]))
      || Subsequence(xs, ys[..|ys| - 1])
  }

  function Sum(ns: seq<nat>): nat {
    if ns == [] then 0 else Sum(ns[..|ns| - 1]) + ns[|ns| - 1]
  }

  lemma NothingBefore<A>(xs: seq<A>)
    ensures [] + xs == xs
  {
  }

  lemma NothingAfter<A>(xs: seq<A>)
    ensures xs + [] == xs
  {
  }

  lemma Regroup<A>(xs: seq<A>, ys: seq<A>)
    requires ys != []
    ensures xs + ys == xs + [ys[0]] + ys[1..]
  {
  }

  lemma Associate<A>(xs: seq<A>, ys: seq<A>, zs: seq<A>)
    ensures xs + (ys + zs) == (xs + ys) + zs
  {
  }

  lemma ConsInjective<A>(x: A, xs: seq<A>, y: A, ys: seq<A>)
    requires [x] + xs == [y] + ys
    ensures x == y && xs == ys
  {
    Uncons(x, xs);
    Uncons(y, ys);
  }

  lemma DropOne<A>(xs: seq<A>, i: nat)
    requires i < |xs|
    ensures xs[i..] == [xs[i]] + xs[i + 1..] && xs[i..][1..] == xs[i + 1..]
  {
  }

  lemma PushTwo<A>(xs: seq<A>, x: A, y: A)
    ensures xs + [x] + [y] == xs + [x, y]
  {
  }

  lemma PrefixSlice<A>(xs: seq<A>, ys: seq<A>, i: nat, j: nat)
    requires i <= j <= |xs|
    ensures (xs + ys)[i..j] == xs[i..j]
  {
  }

  lemma SuffixSlice<A>(xs: seq<A>, ys: seq<A>, i: nat, j: nat)
    requires i <= j <= |ys|
    ensures (xs + ys)[|xs| + i..|xs| + j] == ys[i..j]
  {
  }

  lemma SnocAssociate<A>(xs: seq<A>, ys: seq<A>)
    requires ys != []
    ensures xs + ys == (xs + ys[..|ys| - 1]) + [ys[|ys| - 1]]
  {
  }

  lemma Snoc<A>(xs: seq<A>)
    requires xs != []
    ensures xs == xs[..|xs| - 1] + [xs[|xs| - 1]]
    ensures forall x :: x in xs <==> x in xs[..|xs| - 1] || x == xs[|xs| - 1]
  {
  }

  lemma TakeOneMore<A>(xs: seq<A>, i: nat)
    requires i < |xs|
    ensures xs[..i + 1] == xs[..i] + [xs[i]] && xs[..i + 1][..i] == xs[..i]
    ensures i + 1 == |xs| ==> xs[..i + 1] == xs
  {
  }

  lemma Uncons<A>(x: A, xs: seq<A>)
    ensures ([x] + xs)[0] == x && ([x] + xs)[1..] == xs
  {
  }

  lemma Unsnoc<A>(xs: seq<A>, x: A)
    ensures (xs + [x])[..|xs|] == xs && (xs + [x])[|xs|] == x
  {
  }

  lemma FilterSnoc<A>(p: A -> bool, xs: seq<A>, x: A)
    ensures Filter(p, xs + [x]) == Filter(p, xs) + if p(x) then [x] else []
  {
    assert (xs + [x])[..|xs|] == xs;
  }

  lemma {:induction false} FilterConcat<A>(p: A -> bool, xs: seq<A>, ys: seq<A>)
    ensures Filter(p, xs + ys) == Filter(p, xs) + Filter(p, ys)
  {
    if ys == [] {
      assert xs + ys == xs;
    } else {
      var init, y := ys[..|ys| - 1], ys[|ys| - 1];
      FilterConcat(p, xs, init);
      FilterSnoc(p, xs + init, y);
      assert xs + ys == xs + init + [y];
    }
  }

  lemma FilterCons<A>(p: A -> bool, x: A, xs: seq<A>)
    ensures Filter(p, [x] + xs) == (if p(x) then [x] else []) + Filter(p, xs)
  {
    FilterConcat(p, [x], xs);
    FilterSnoc(p, [], x);
    assert [] + [x] == [x];
  }

  lemma {:induction false} FilterHolds<A>(p: A -> bool, xs: seq<A>, k: nat)
    requires k < |Filter(p, xs)|
    ensures p(Filter(p, xs)[k])
  {
    var init := xs[..|xs| - 1];
    if k < |Filter(p, init)| { FilterHolds(p, init, k); }
  }

  lemma {:induction false} FilterAll<A>(p: A -> bool, xs: seq<A>)
    requires forall x :: x in xs ==> p(x)
    ensures Filter(p, xs) == xs
  {
    if xs != [] {
      assert xs[|xs| - 1] in xs;
      FilterAll(p, xs[..|xs| - 1]);
      assert xs == xs[..|xs| - 1] + [xs[|xs| - 1]];
    }
  }

  lemma {:induction false} FilterNone<A>(p: A -> bool, xs: seq<A>)
    requires forall x :: x in xs ==> !p(x)
    ensures Filter(p, xs) == []
  {
    if xs != [] {
      assert xs[|xs| - 1] in xs;
      FilterNone(p, xs[..|xs| - 1]);
    }
  }

  /** If each element satisfies exactly one of three predicates, the three counts add up. */
  lemma {:induction false} Partition<A>(p: A -> bool, q: A -> bool, r: A -> bool, xs: seq<A>)
    requires forall x :: x in xs ==> (p(x) && !q(x) && !r(x)) || (!p(x) && q(x) && !r(x)) || (!p(x) && !q(x) && r(x))
    ensures |xs| == |Filter(p, xs)| + |Filter(q, xs)| + |Filter(r, xs)|
  {
    if xs != [] {
      assert xs[|xs| - 1] in xs;
      Partition(p, q, r, xs[..|xs| - 1]);
    }
  }

  lemma UpToCons<A>(p: A -> bool, x: A, xs: seq<A>, max: nat)
    requires max > 0
    ensures UpTo(p, [x] + xs, max) == [x] + UpTo(p, xs, if p(x) then max - 1 else max)
  {
    assert ([x] + xs)[1..] == xs;
  }

  lemma {:induction false} UpToAll<A>(p: A -> bool, xs: seq<A>, max: nat)
    ensures UpTo(p, xs, max) <= xs
    ensures |Filter(p, xs)| < max ==> UpTo(p, xs, max) == xs
    ensures UpTo(p, xs, max) == xs || max == 0 || p(UpTo(p, xs, max)[|UpTo(p, xs, max)| - 1])
  {
    if xs != [] && max != 0 {
      var more := UpTo(p, xs[1..], if p(xs[0]) then max - 1 else max);
      UpToAll(p, xs[1..], if p(xs[0]) then max - 1 else max);
      assert more != [] ==> UpTo(p, xs, max)[|more|] == more[|more| - 1];
      Cons(xs);
      FilterCons(p, xs[0], xs[1..]);
    }
  }

  /** Stopping at the cap cuts the filtered list at the cap, and nothing else. */
  lemma {:induction false} UpToFilter<A>(p: A -> bool, xs: seq<A>, max: nat)
    ensures Filter(p, UpTo(p, xs, max)) == if |Filter(p, xs)| <= max then Filter(p, xs) else Filter(p, xs)[..max]
  {
    if xs == [] || max == 0 {
    } else {
      var x, rest := xs[0], xs[1..];
      var m := if p(x) then max - 1 else max;
      UpToFilter(p, rest, m);
      Cons(xs);
      FilterCons(p, x, rest);
      FilterCons(p, x, UpTo(p, rest, m));
      if p(x) && |Filter(p, rest)| > m { ConsTake(x, Filter(p, rest), m); }
      NothingBefore(Filter(p, rest));
      NothingBefore(Filter(p, UpTo(p, rest, m)));
    }
  }

  lemma ConsTake<A>(x: A, xs: seq<A>, n: nat)
    requires n <= |xs|
    ensures ([x] + xs)[..n + 1] == [x] + xs[..n]
  {
  }

  lemma Cons<A>(xs: seq<A>)
    requires xs != []
    ensures xs == [xs[0]] + xs[1..]
  {
  }

  lemma OverlaySnoc<A, B>(f: (A, B) -> B, base: seq<B>, items: seq<A>, item: A)
    ensures Overlay(f, base, items + [item]) ==
      if |items| < |base| then Overlay(f, base, items)[|items| := f(item, base[|items|])] else Overlay(f, base, items)
  {
  }

  lemma {:induction false} SubsequenceLonger<A>(xs: seq<A>, ys: seq<A>, y: A)
    requires Subsequence(xs, ys)
    ensures Subsequence(xs, ys + [y]) && Subsequence(xs + [y], ys + [y])
  {
    assert (ys + [y])[..|ys|] == ys && (xs + [y])[..|xs|] == xs;
  }

  lemma FlattenSnoc<A>(xss: seq<seq<A>>, xs: seq<A>)
    ensures Flatten(xss + [xs]) == Flatten(xss) + xs
  {
    assert (xss + [xs])[..|xss|] == xss;
  }

  lemma {:induction false} SumUpdate(ns: seq<nat>, i: nat, n: nat)
    requires i < |ns|
    ensures Sum(ns[i := n]) == Sum(ns) - ns[i] + n
  {
    var last := |ns| - 1;
    if i == last {
      assert ns[i := n][..last] == ns[..last];
    } else {
      SumUpdate(ns[..last], i, n);
      assert ns[i := n][..last] == ns[..last][i := n];
    }
  }

  lemma DropNone<A>(xs: seq<A>)
    ensures xs[0..] == xs
  {
  }

  lemma FlattenNone<A>(xss: seq<seq<A>>)
    ensures Flatten(xss + [[]]) == Flatten(xss)
  {
    FlattenSnoc(xss, []);
  }

  lemma UpdateLast<A>(xs: seq<A>, x: A)
    requires xs != []
    ensures var last := |xs| - 1;
      xs[last := x][..last] == xs[..last] && xs[last := x][last] == x
  {
  }

  lemma FlattenLast<A>(xss: seq<seq<A>>, x: A)
    requires xss != []
    ensures var last := |xss| - 1;
      Flatten(xss[last := xss[last] + [x]]) == Flatten(xss) + [x]
  {
    var last := |xss| - 1;
    UpdateLast(xss, xss[last] + [x]);
    Associate(Flatten(xss[..last]), xss[last], [x]);
  }

  lemma DropSnoc<A>(xs: seq<A>, x: A, i: nat)
    requires i <= |xs|
    ensures (xs + [x])[i..] == xs[i..] + [x]
  {
  }

  lemma PrefixRest<A>(xs: seq<A>, ys: seq<A>)
    requires xs <= ys
    ensures ys == xs + ys[|xs|..]
  {
  }

  lemma SliceOfJoin<A>(xs: seq<A>, part: seq<A>, ys: seq<A>, i: nat)
    requires part <= ys && i <= |xs|
    ensures xs[i..] + part <= (xs + ys)[i..]
  {
    assert (xs + ys)[i..] == xs[i..] + ys;
  }

  lemma {:induction false} SubsequenceWiden<A>(xs: seq<A>, ys: seq<A>, zs: seq<A>)
    requires Subsequence(xs, ys) && ys <= zs
    ensures Subsequence(xs, zs)
  {
    if ys == zs {
    } else {
      var init := zs[..|zs| - 1];
      SubsequenceWiden(xs, ys, init);
    }
  }

  lemma {:induction false} SubsequenceLength<A>(xs: seq<A>, ys: seq<A>)
    requires Subsequence(xs, ys)
    ensures |xs| <= |ys|
  {
    if xs != [] && ys != [] {
      var xs', ys' := xs[..|xs| - 1], ys[..|ys| - 1];
      if Subsequence(xs, ys') { SubsequenceLength(xs, ys'); } else { SubsequenceLength(xs', ys'); }
    }
  }

  /** A subsequence as long as the whole is the whole. */
  lemma {:induction false} SubsequenceWhole<A>(xs: seq<A>, ys: seq<A>)
    requires Subsequence(xs, ys) && |xs| == |ys|
    ensures xs == ys
  {
    if xs != [] {
      var xs', ys' := xs[..|xs| - 1], ys[..|ys| - 1];
      if Subsequence(xs, ys') {
        SubsequenceLength(xs, ys');
        assert false;
      } else {
        SubsequenceWhole(xs', ys');
        Snoc(xs);
        Snoc(ys);
      }
    }
  }

  lemma OneMoreTimes(n: nat, k: nat)
    ensures n * (k + 1) == n * k + n
  {
  }

  lemma {:induction false} SumOfThree(xs: seq<nat>, ys: seq<nat>, zs: seq<nat>, n: nat)
    requires |xs| == |ys| == |zs|
    requires forall j :: 0 <= j < |xs| ==> xs[j] + ys[j] + zs[j] == n
    ensures n * |xs| == Sum(xs) + Sum(ys) + Sum(zs)
  {
    if xs != [] {
      var last := |xs| - 1;
      SumOfThree(xs[..last], ys[..last], zs[..last], n);
      OneMoreTimes(n, last);
    }
  }

  lemma {:induction false} SumZeros(ns: seq<nat>)
    requires forall j :: 0 <= j < |ns| ==> ns[j] == 0
    ensures Sum(ns) == 0
  {
    if ns != [] { SumZeros(ns[..|ns| - 1]); }
  }

  lemma {:induction false} PartOfSum(ns: seq<nat>, j: nat)
    requires j < |ns|
    ensures ns[j] <= Sum(ns)
  {
    if j < |ns| - 1 { PartOfSum(ns[..|ns| - 1], j); }
  }

  lemma {:induction false} FlattenSplit<A>(xss: seq<seq<A>>, n: nat)
    requires n <= |xss|
    ensures Flatten(xss) == Flatten(xss[..n]) + Flatten(xss[n..])
  {
    if n == |xss| {
      assert xss[..n] == xss && xss[n..] == [];
    } else {
      var last := |xss| - 1;
      FlattenSplit(xss[..last], n);
      assert xss[..last][..n] == xss[..n] && xss[..last][n..] == xss[n..][..last - n];
    }
  }

  lemma TakeDrop<A>(xs: seq<A>, n: nat)
    requires n <= |xs|
    ensures xs == xs[..n] + xs[n..]
  {
  }

  lemma UpdateTwice<A>(xs: seq<A>, i: nat, x: A, y: A)
    requires i < |xs|
    ensures xs[i := x][i := y] == xs[i := y]
  {
  }

  lemma TakeAll<A>(xs: seq<A>)
    ensures xs[..|xs|] == xs
  {
  }

  /** Each state of a run is followed, by the action of that place, by the next. */
  ghost predicate Chain<S, A>(step: (S, A, S) -> bool, run: seq<S>, acts: seq<A>) {
    |run| == |acts| + 1 && forall i :: 0 <= i < |acts| ==> step(run[i], acts[i], run[i + 1])
  }

  lemma ChainJoin<S, A>(step: (S, A, S) -> bool, run: seq<S>, acts: seq<A>, run': seq<S>, acts': seq<A>)
    requires Chain(step, run, acts) && Chain(step, run', acts') && run[|acts|] == run'[0]
    ensures Chain(step, run + run'[1..], acts + acts')
    ensures (run + run'[1..])[0] == run[0] && (run + run'[1..])[|acts + acts'|] == run'[|acts'|]
  {
    var whole, all := run + run'[1..], acts + acts';
    forall i | 0 <= i < |all| ensures step(whole[i], all[i], whole[i + 1]) {
      if i < |acts| {
        assert step(run[i], acts[i], run[i + 1]);
      } else {
        var k := i - |acts|;
        assert step(run'[k], acts'[k], run'[k + 1]);
      }
    }
  }

  lemma ChainWeaken<S(!new), A(!new)>(step: (S, A, S) -> bool, weaker: (S, A, S) -> bool, run: seq<S>, acts: seq<A>)
    requires Chain(step, run, acts) && forall s, a, s' :: step(s, a, s') ==> weaker(s, a, s')
    ensures Chain(weaker, run, acts)
  {
  }

  /** What every step keeps holds along a chain. */
  lemma {:induction false} ChainKeeps<S(!new), A(!new)>(step: (S, A, S) -> bool, inv: S -> bool, run: seq<S>,
                                                        acts: seq<A>, i: nat)
    requires Chain(step, run, acts) && inv(run[0]) && i <= |acts|
    requires forall s, a, s' :: inv(s) && step(s, a, s') ==> inv(s')
    ensures inv(run[i])
  {
    if i > 0 {
      ChainKeeps(step, inv, run, acts, i - 1);
      assert step(run[i - 1], acts[i - 1], run[i - 1 + 1]);
    }
  }
}
