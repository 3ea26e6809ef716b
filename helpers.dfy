/**
 * The helpers of index.js: flip, compose and pipe derived from the folds,
 * the bridges listToArray and arrayToList between cons chains and arrays,
 * and the recursive chain builders rangeList and mapList, with the native
 * array map that mapList is measured against.
 */
module Helpers {
  import opened Combinators
  import opened Generators
  import opened Lists

  /** flip is the Cardinal. */
  function Flip<X, Y, Z>(): (X -> Y -> Z) -> Y -> X -> Z
  {
    C()
  }

  /** flip(I): given an accumulator and a function, applies the function to it. */
  function FlipI<A>(): A -> (A -> A) -> A
  {
    Flip<A -> A, A, A>()(I())
  }

  /** compose = foldr(flip(I)): applies the functions from the last to the first. */
  function Compose<A>(fns: seq<A -> A>): A -> A
  {
    x => Foldr(FlipI(), fns, x)
  }

  /** pipe = foldl(flip(I)): applies the functions from the first to the last. */
  function Pipe<A>(fns: seq<A -> A>): A -> A
  {
    x => Foldl(FlipI(), fns, x)
  }

  /** listToArray: walks the chain from its head to null, pushing each head. */
  method ListToArray<T>(p: List<T>) returns (result: seq<T>)
    ensures result == Elements(p)
  {
    result := [];
    var q := p;
    while q != Nil
      invariant result + Elements(q) == Elements(p)
      decreases q
    {
      result := result + [Head(q)];
      q := Tail(q);
    }
  }

  /** arrayToList: prepends the elements of reverse(iter) one by one, so the first element ends up at the head. */
  method ArrayToList<T>(iter: seq<T>) returns (result: List<T>)
    ensures Elements(result) == iter
    ensures iter == [] ==> result == Nil
    ensures iter != [] ==> result.Pair? && Head(result) == iter[0]
  {
    result := Nil;
    var reversed := Reverse(iter);
    for k := 0 to |reversed|
      invariant Elements(result) == iter[|iter| - k..]
    {
      result := Pair(reversed[k], result);
    }
  }

  /** rangeList(low)(high): null when low > high, otherwise pair(low)(rangeList(low + 1)(high)). */
  function RangeList(low: int, high: int): (r: List<int>)
    ensures r == Nil <==> low > high
    ensures |Elements(r)| == if low > high then 0 else high - low + 1
    ensures forall i :: 0 <= i < |Elements(r)| ==> Elements(r)[i] == low + i
    decreases high - low
  {
    if low > high then Nil else Pair(low, RangeList(low + 1, high))
  }

  /** map: the host's `arr.map(f)`. */
  function Map<A, B>(f: A -> B, arr: seq<A>): seq<B>
  {
    seq(|arr|, i requires 0 <= i < |arr| => f(arr[i]))
  }

  /** mapList(f): null to null, otherwise a cell of f(head) and mapList(f)(tail). */
  function MapList<A, B>(f: A -> B, p: List<A>): (r: List<B>)
    ensures r == Nil <==> p == Nil
    ensures Elements(r) == Map(f, Elements(p))
  {
    if p == Nil then Nil else Pair(f(Head(p)), MapList(f, Tail(p)))
  }

  // ----- Laws -----

  /** `listToArray(arrayToList(s))` is s. */
  method ArrayRoundTrip<T>(s: seq<T>) returns (t: seq<T>)
    ensures t == s
  {
    var p := ArrayToList(s);
    t := ListToArray(p);
  }

  /** `arrayToList(listToArray(p))` rebuilds the same chain. */
  method ListRoundTrip<T>(p: List<T>) returns (q: List<T>)
    ensures q == p
  {
    var s := ListToArray(p);
    q := ArrayToList(s);
    ElementsInjective(q, p);
  }

  /** `listToArray(rangeList(low)(high))` is low, low + 1, ..., high; `rangeList(3)(1)` is null. */
  method RangeListToArray(low: int, high: int) returns (s: seq<int>)
    ensures low > high ==> s == []
    ensures low <= high ==> |s| == high - low + 1 && s[0] == low && s[|s| - 1] == high
    ensures forall i :: 0 <= i < |s| ==> s[i] == low + i
  {
    s := ListToArray(RangeList(low, high));
  }

  /** `listToArray(mapList(f)(p))` is `map(f)(listToArray(p))`. */
  method MapListToArray<A, B>(f: A -> B, p: List<A>) returns (s: seq<B>, t: seq<B>)
    ensures s == Map(f, Elements(p))
    ensures t == s
  {
    s := ListToArray(MapList(f, p));
    var elements := ListToArray(p);
    t := Map(f, elements);
  }

  /** flip(I) applies its second argument to its first. */
  lemma FlipIApplies<A>(x: A, g: A -> A)
    ensures FlipI()(x)(g) == g(x)
  {
  }

  /**
   * compose runs the later functions first: composing fs ++ gs is running
   * gs and then fs, and composing nothing is the identity.
   */
  lemma ComposeRightToLeft<A>(fs: seq<A -> A>, gs: seq<A -> A>, x: A)
    ensures Compose([])(x) == x
    ensures Compose(fs + gs)(x) == Compose(fs)(Compose(gs)(x))
  {
    ReduceRightAppend(Apply2(FlipI()), fs, gs, x);
  }

  /** pipe runs the earlier functions first: piping fs ++ gs is running fs and then gs. */
  lemma PipeLeftToRight<A>(fs: seq<A -> A>, gs: seq<A -> A>, x: A)
    ensures Pipe([])(x) == x
    ensures Pipe(fs + gs)(x) == Pipe(gs)(Pipe(fs)(x))
  {
    ReduceAppend(Apply2(FlipI()), fs, gs, x);
  }

  /** `compose(f, g)(x)` is `f(g(x))` and `pipe(f, g)(x)` is `g(f(x))`. */
  lemma ComposeAndPipeOfTwo<A>(f: A -> A, g: A -> A, x: A)
    ensures Compose([f, g])(x) == f(g(x))
    ensures Pipe([f, g])(x) == g(f(x))
  {
    ComposeRightToLeft([f], [g], x);
    PipeLeftToRight([f], [g], x);
    assert [f] + [g] == [f, g];
    assert [g] + [] == [g] && [f] + [] == [f];
    FoldrRightToLeft(FlipI(), g, [], x);
    FoldrRightToLeft(FlipI(), f, [], g(x));
    assert [] + [f] == [f] && [] + [g] == [g];
    FoldlLeftToRight(FlipI(), [], f, x);
    FoldlLeftToRight(FlipI(), [], g, f(x));
  }

  /** foldr is foldl over the reversed list. */
  lemma {:induction false} FoldrIsFoldlOfReverse<E, B>(fn: B -> E -> B, xs: seq<E>, v: B)
    ensures Foldr(fn, xs, v) == Foldl(fn, Reverse(xs), v)
    decreases |xs|
  {
    if xs != [] {
      var n := |xs|;
      var init := xs[..n - 1];
      assert Reverse(xs) == [xs[n - 1]] + Reverse(init);
      assert Reverse(xs)[1..] == Reverse(init);
      FoldrIsFoldlOfReverse(fn, init, fn(v)(xs[n - 1]));
    }
  }

  /** compose is pipe over the reversed functions. */
  lemma ComposeIsPipeReversed<A>(fns: seq<A -> A>, x: A)
    ensures Compose(fns)(x) == Pipe(Reverse(fns))(x)
  {
    FoldrIsFoldlOfReverse(FlipI(), fns, x);
  }
}
