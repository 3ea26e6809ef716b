/**
 * The list part of index.js: cons cells built with pair, read with head and
 * tail and ended by null; and the two folds foldl and foldr, which run the
 * host's Array reduce and reduceRight over an element list that argsToArr
 * takes either from a leading array argument or from the positional ones.
 */
module Lists {

  /** A cons chain: `Pair` is a `{first, second}` cell made by pair, `Nil` is null. */
  datatype List<T> = Nil | Pair(first: T, second: List<T>)

  /** head: the first field of a cell (on null the library fails with a TypeError). */
  function Head<T>(p: List<T>): T
    requires p.Pair?
  {
    p.first
  }

  /** tail: the second field of a cell. */
  function Tail<T>(p: List<T>): List<T>
    requires p.Pair?
  {
    p.second
  }

  /** The elements of a chain from its head to null. */
  function Elements<T>(p: List<T>): seq<T>
  {
    match p
    case Nil => []
    case Pair(x, rest) => [x] + Elements(rest)
  }

  /** apply2$: turns a curried two-argument function into a binary one. */
  function Apply2<X, Y, Z>(a: X -> Y -> Z): (X, Y) -> Z
  {
    (b, c) => a(b)(c)
  }

  /** The host's Array.prototype.reduce with an initial value: callbacks from first to last. */
  function Reduce<E, B>(f: (B, E) -> B, list: seq<E>, initial: B): B
    decreases |list|
  {
    if list == [] then initial else Reduce(f, list[1..], f(initial, list[0]))
  }

  /** The host's Array.prototype.reduceRight with an initial value: callbacks from last to first. */
  function ReduceRight<E, B>(f: (B, E) -> B, list: seq<E>, initial: B): B
    decreases |list|
  {
    if list == [] then initial else ReduceRight(f, list[..|list| - 1], f(initial, list[|list| - 1]))
  }

  /** A positional argument of foldl or foldr: an array, or any other value. */
  datatype Arg<E> = Scalar(value: E) | Array(items: seq<E>)

  function Scalars<E>(xs: seq<E>): seq<Arg<E>>
  {
    seq(|xs|, i requires 0 <= i < |xs| => Scalar(xs[i]))
  }

  /** The host's `args.flat()`: each array argument is spliced in, any other argument kept. */
  function Flat<E>(args: seq<Arg<E>>): (r: seq<Arg<E>>)
    ensures forall i :: 0 <= i < |r| ==> r[i].Scalar?
  {
    if args == [] then []
    else
      var first := match args[0]
        case Scalar(x) => [Scalar(x)]
        case Array(xs) => Scalars(xs);
      first + Flat(args[1..])
  }

  /** argsToArr: the flattened arguments when the first one is an array, the arguments as given otherwise. */
  function ArgsToArr<E>(args: seq<Arg<E>>): seq<Arg<E>>
  {
    if |args| > 0 && args[0].Array? then Flat(args) else args
  }

  /** foldl(fn) on the list argsToArr hands it: `list.reduce(apply2$(fn), value)`. */
  function Foldl<E, B>(fn: B -> E -> B, list: seq<E>, value: B): B
  {
    Reduce(Apply2(fn), list, value)
  }

  /** foldr(fn) on the list argsToArr hands it: `list.reduceRight(apply2$(fn), value)`. */
  function Foldr<E, B>(fn: B -> E -> B, list: seq<E>, value: B): B
  {
    ReduceRight(Apply2(fn), list, value)
  }

  /** `foldl(fn)(...args)(value)`. */
  function FoldlArgs<E, B>(fn: B -> Arg<E> -> B, args: seq<Arg<E>>, value: B): B
  {
    Foldl(fn, ArgsToArr(args), value)
  }

  /** `foldr(fn)(...args)(value)`. */
  function FoldrArgs<E, B>(fn: B -> Arg<E> -> B, args: seq<Arg<E>>, value: B): B
  {
    Foldr(fn, ArgsToArr(args), value)
  }

  // ----- Laws -----

  /** head and tail take apart what pair puts together, and a cell is the pair of its head and tail. */
  lemma PairHeadTail<T>(x: T, rest: List<T>, p: List<T>)
    requires p.Pair?
    ensures Head(Pair(x, rest)) == x && Tail(Pair(x, rest)) == rest
    ensures Pair(Head(p), Tail(p)) == p
  {
  }

  /** Two chains with the same elements are the same chain. */
  lemma {:induction false} ElementsInjective<T>(p: List<T>, q: List<T>)
    requires Elements(p) == Elements(q)
    ensures p == q
  {
    match p
    case Nil =>
    case Pair(x, rest) =>
      assert q.Pair? by {
        assert |Elements(p)| > 0;
      }
      assert Elements(rest) == Elements(p)[1..] == Elements(q)[1..] == Elements(q.second);
      ElementsInjective(rest, q.second);
  }

  /** reduce over a concatenation: the second part continues from the result of the first. */
  lemma {:induction false} ReduceAppend<E, B>(f: (B, E) -> B, xs: seq<E>, ys: seq<E>, v: B)
    ensures Reduce(f, xs + ys, v) == Reduce(f, ys, Reduce(f, xs, v))
    decreases |xs|
  {
    if xs != [] {
      assert (xs + ys)[1..] == xs[1..] + ys;
      ReduceAppend(f, xs[1..], ys, f(v, xs[0]));
    } else {
      assert xs + ys == ys;
    }
  }

  /** reduceRight over a concatenation: the first part continues from the result of the second. */
  lemma {:induction false} ReduceRightAppend<E, B>(f: (B, E) -> B, xs: seq<E>, ys: seq<E>, v: B)
    ensures ReduceRight(f, xs + ys, v) == ReduceRight(f, xs, ReduceRight(f, ys, v))
    decreases |ys|
  {
    if ys != [] {
      var zs := xs + ys;
      assert zs[..|zs| - 1] == xs + ys[..|ys| - 1];
      assert zs[|zs| - 1] == ys[|ys| - 1];
      ReduceRightAppend(f, xs, ys[..|ys| - 1], f(v, ys[|ys| - 1]));
    } else {
      assert xs + ys == xs;
    }
  }

  /**
   * foldl applies fn from the left: the empty list gives back the initial
   * value, and one more element at the end is one more application outside,
   * so `foldl(fn)(x0, ..., xn)(v)` is `fn(...fn(fn(v)(x0))(x1)...)(xn)`.
   */
  lemma FoldlLeftToRight<E, B>(fn: B -> E -> B, xs: seq<E>, x: E, v: B)
    ensures Foldl(fn, [], v) == v
    ensures Foldl(fn, xs + [x], v) == fn(Foldl(fn, xs, v))(x)
  {
    ReduceAppend(Apply2(fn), xs, [x], v);
  }

  /**
   * foldr applies fn from the right: one more element at the front is one
   * more application outside, so `foldr(fn)(x0, ..., xn)(v)` is
   * `fn(...fn(fn(v)(xn))(xn-1)...)(x0)`.
   */
  lemma FoldrRightToLeft<E, B>(fn: B -> E -> B, x: E, xs: seq<E>, v: B)
    ensures Foldr(fn, [], v) == v
    ensures Foldr(fn, [x] + xs, v) == fn(Foldr(fn, xs, v))(x)
  {
    ReduceRightAppend(Apply2(fn), [x], xs, v);
  }

  /** `flat()` keeps a non-array argument and replaces an array argument by its elements, in order. */
  lemma FlatSingletons<E>(x: E, xs: seq<E>)
    ensures Flat([Scalar(x)]) == [Scalar(x)]
    ensures Flat([Array(xs)]) == Scalars(xs)
  {
    assert Flat([Array(xs)]) == Scalars(xs) + Flat([]);
  }

  /** `flat()` processes the arguments from first to last, so it distributes over concatenation. */
  lemma {:induction false} FlatAppend<E>(a: seq<Arg<E>>, b: seq<Arg<E>>)
    ensures Flat(a + b) == Flat(a) + Flat(b)
    decreases |a|
  {
    if a == [] {
      assert a + b == b;
    } else {
      assert (a + b)[0] == a[0];
      assert (a + b)[1..] == a[1..] + b;
      FlatAppend(a[1..], b);
    }
  }

  /** Flattening spliced-in scalars gives them back. */
  lemma {:induction false} FlatScalars<E>(xs: seq<E>)
    ensures Flat(Scalars(xs)) == Scalars(xs)
    decreases |xs|
  {
    if xs != [] {
      assert Scalars(xs)[1..] == Scalars(xs[1..]);
      FlatScalars(xs[1..]);
      assert Scalars(xs) == [Scalar(xs[0])] + Scalars(xs[1..]);
    }
  }

  /**
   * The two calling conventions agree: a call whose first argument is an
   * array folds over the same elements as the spread call with the
   * flattened arguments, so `foldl(fn)([1, 2, 3])(v)` is `foldl(fn)(1, 2, 3)(v)`.
   */
  lemma ArrayCallIsSpreadCall<E, B>(fn: B -> Arg<E> -> B, args: seq<Arg<E>>, v: B)
    requires |args| > 0 && args[0].Array?
    ensures ArgsToArr(Flat(args)) == ArgsToArr(args)
    ensures FoldlArgs(fn, args, v) == FoldlArgs(fn, Flat(args), v)
    ensures FoldrArgs(fn, args, v) == FoldrArgs(fn, Flat(args), v)
  {
  }

  /** A single array argument folds exactly as its elements given one by one. */
  lemma SingleArrayIsSpread<E, B>(fn: B -> Arg<E> -> B, xs: seq<E>, v: B)
    ensures ArgsToArr([Array(xs)]) == ArgsToArr(Scalars(xs)) == Scalars(xs)
    ensures FoldlArgs(fn, [Array(xs)], v) == FoldlArgs(fn, Scalars(xs), v)
    ensures FoldrArgs(fn, [Array(xs)], v) == FoldrArgs(fn, Scalars(xs), v)
  {
    assert Flat([Array(xs)]) == Scalars(xs) + Flat([]);
  }
}
