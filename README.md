# functional-combinators in Dafny

A Dafny model of `index.js` from the functional-combinators library. The
library has four parts, and each is a module here:

- `Combinators` (combinators.dfy). The combinators I, K, KI = K(I) and C.
  The Church booleans T = K and F = KI. The operators not, and, or and
  beq/eq. toBoolean and partial. Each combinator is a curried function value.
  `K()(a)(b)` is the library's `K(a)(b)`. A Church boolean at carrier type A
  is `Bool<A> = A -> A -> A`. In `and = a => b => a(b)(a)`, `a` is applied to
  booleans and is also passed as a boolean, so it is used at two types. Dafny
  functions cannot be polymorphic values, so such an argument is given as a
  `Canonical` (`Truth` for T, `Lie` for F). `At<A>` instantiates it at each
  type the body needs. Function values cannot be compared, so the laws are
  stated by applying both sides to arbitrary arguments and through toBoolean.
  A nested operator expression such as `and(not(p))(q)` is not written
  directly: its inner part is first reduced to a canonical boolean through
  the truth-table lemmas (`NotSwaps` turns `not(p)` into the opposite
  canonical boolean, which `AndTruthTable` then takes).
- `Lists` (lists.dfy). Cons cells are the datatype `List`. `Pair` is a
  `{first, second}` cell and `Nil` is `null`. head and tail are here, along
  with apply2$, argsToArr and its `args.flat()`, and foldl/foldr. The host's
  Array `reduce` and `reduceRight` with an initial value are modelled as
  `Reduce` and `ReduceRight`. A positional fold argument is an `Arg`: an array
  (`Array`) or any other value (`Scalar`). `FoldlArgs`/`FoldrArgs` are the
  library's `foldl(fn)(...args)(value)`. `Foldl`/`Foldr` are the functions
  that argsToArr wraps.
- `Helpers` (helpers.dfy). flip = C. compose = foldr(flip(I)) and
  pipe = foldl(flip(I)). listToArray is a `while` loop and arrayToList a `for`
  loop over `reverse(iter)`. rangeList and mapList are recursive. map is the
  host's `arr.map(f)`.
- `Generators` (generators.dfy). reverse, range, take$/take, fibo and
  naturalNumbers. reverse spreads its whole input before it yields anything,
  so it is the function `Reverse` over finite sequences, whose result is what
  spreading the generator gives. The other generators are classes, and
  `Next()` is one call of the generator's `next()`, returning `Yield(v)` or
  `Done`. The fields of NaturalNumbers are the body's local `number`; those of
  Fibo and Range are the body's local variables plus the point where the
  body is suspended. A ghost count of
  calls ties each of them to a position-indexed function, its stream:
  `NaturalAt`, `Fib` or `RangeAt`. Take holds take$'s `quantity` and
  `counter`, its input stream (`nat -> Step<T>`), the number of elements
  pulled from that input and its resume point. Its ghost `Output` is what it
  has yielded so far, which ties it to its input. An array's for-of iteration
  is the stream `ArrayAt`. `SpreadTake` is `[...take$(n, iter)]`.

Numbers are unbounded integers. `range` accepts any step. With `step <= 0`
and `low < high` the loop never ends, so that range is an infinite
generator; `Generators.RangeIsFinite` covers `step > 0`.

## Model

| member | source | states |
|---|---|---|
| `Combinators.I` | index.js:2 | the identity; stated by `Combinators.IdentityAndKestrel`, and through `Combinators.KiteKeepsSecond` (KI = K(I)) and `Helpers.FlipIApplies` (flip(I)) |
| `Combinators.K` | index.js:4 | the Kestrel, returning its first argument of two of any types; stated by `Combinators.IdentityAndKestrel` |
| `Combinators.KI` | index.js:5 | the Kite K(I), returning its second argument; stated by `Combinators.KiteKeepsSecond` |
| `Combinators.C` | index.js:9 | the Cardinal; stated by `Combinators.CardinalSwaps` and `Combinators.CardinalNegates` |
| `Combinators.T` | index.js:6 | the truth, equal to K; stated by `Combinators.IdentityAndKestrel`, `Combinators.ToBooleanCanonical` and the truth-table lemmas |
| `Combinators.F` | index.js:7 | the lie, equal to KI; stated by `Combinators.KiteKeepsSecond` and `Combinators.ToBooleanCanonical` |
| `Combinators.ToBoolean` | index.js:12 | applies a Church boolean to true and false; stated by `Combinators.ToBooleanCanonical` |
| `Combinators.Not` | index.js:8 | a(F)(T); stated by `Combinators.NotSwaps` and `Combinators.NotNot` |
| `Combinators.And` | index.js:10 | a(b)(a); stated by `Combinators.AndTruthTable` |
| `Combinators.Or` | index.js:11 | a(a)(b); stated by `Combinators.OrTruthTable` |
| `Combinators.Beq` | index.js:13-14 | a(b)(not(b)), also exported as eq; stated by `Combinators.BeqTruthTable` |
| `Combinators.Partial` | index.js:15 | binds the first argument of a curried function; stated by `Combinators.PartialApplies` |
| `Combinators.IdentityAndKestrel` | index.js:2-8 | I(a) is a and K(a)(b) is a for arguments of any two types; the documented I(5), K(1)(0), T(1)(0), F(1)(0), not(F)(1)(0), not(T)(1)(0) and toBoolean(a => b => b) give 5, 1, 1, 0, 1, 0 and false |
| `Combinators.KiteKeepsSecond` | index.js:5-7 | KI, although built as K(I), returns its second argument of any type, and F, which is KI, does the same at every carrier type |
| `Combinators.CardinalSwaps` | index.js:9 | C(a)(b)(c) is a(c)(b) for every a, b, c |
| `Combinators.CardinalNegates` | index.js:162-172 | C applied to T or F behaves as the opposite boolean; C(F)(1)(0) is 1 and C(T)(1)(0) is 0 |
| `Combinators.ToBooleanCanonical` | index.js:265-275 | toBoolean(T) is true, toBoolean(F) is false, and toBoolean tells the two canonical booleans apart |
| `Combinators.NotSwaps` | index.js:196-207 | not(T) behaves as F and not(F) as T at every carrier type, and toBoolean(not(p)) is the negation of p |
| `Combinators.NotNot` | index.js:8 | not(not(p)) behaves as p for both booleans, under application and under toBoolean |
| `Combinators.AndTruthTable` | index.js:209-220 | and(p)(q) behaves as T exactly when p and q are both T, and as F otherwise |
| `Combinators.OrTruthTable` | index.js:222-233 | or(p)(q) behaves as F exactly when p and q are both F, and as T otherwise |
| `Combinators.BeqTruthTable` | index.js:235-263 | beq(p)(q) (eq) behaves as T exactly when p and q are the same boolean, and as F otherwise |
| `Combinators.PartialApplies` | index.js:277-288 | partial(fn)(arg)(otherArg) is fn(arg)(otherArg); partial(add)(3)(2) is 5 |
| `Lists.Head` | index.js:23 | the first field of a cell; stated by `Lists.PairHeadTail` |
| `Lists.Tail` | index.js:24 | the second field of a cell; stated by `Lists.PairHeadTail` |
| `Lists.Apply2` | index.js:26 | turns a curried function into a binary one; the folds' laws `Lists.FoldlLeftToRight` and `Lists.FoldrRightToLeft` state what the folds compute through it |
| `Lists.Reduce` | index.js:30 | the host's reduce; stated by `Lists.ReduceAppend` |
| `Lists.ReduceRight` | index.js:31 | the host's reduceRight; stated by `Lists.ReduceRightAppend` |
| `Lists.ArgsToArr` | index.js:28 | the flattened arguments when the first is an array, the arguments otherwise; stated by `Lists.ArrayCallIsSpreadCall` and `Lists.SingleArrayIsSpread` |
| `Lists.Foldl` | index.js:30 | reduce with apply2$(fn); stated by `Lists.FoldlLeftToRight` |
| `Lists.Foldr` | index.js:31 | reduceRight with apply2$(fn); stated by `Lists.FoldrRightToLeft` and `Helpers.FoldrIsFoldlOfReverse` |
| `Lists.FoldlArgs` | index.js:28-30 | foldl(fn)(...args)(value); stated by `Lists.ArrayCallIsSpreadCall` and `Lists.SingleArrayIsSpread` |
| `Lists.FoldrArgs` | index.js:28-31 | foldr(fn)(...args)(value); stated by `Lists.ArrayCallIsSpreadCall` and `Lists.SingleArrayIsSpread` |
| `Lists.PairHeadTail` | index.js:19-24 | head and tail return the two fields pair stored, and a cell is the pair of its head and tail |
| `Lists.ElementsInjective` | index.js:19 | two cons chains with the same elements from head to null are the same chain |
| `Lists.Flat` | index.js:28 | args.flat() leaves no array among the elements; which elements come out, and in what order, is stated by `Lists.FlatSingletons` and `Lists.FlatAppend` |
| `Lists.FlatSingletons` | index.js:28 | args.flat() keeps a non-array argument and replaces an array argument by its elements in order |
| `Lists.FlatAppend` | index.js:28 | args.flat() of two argument lists joined is the two flattened lists joined: arguments are processed first to last |
| `Lists.FlatScalars` | index.js:28 | args.flat() on arguments that are not arrays returns them unchanged |
| `Lists.ReduceAppend` | index.js:30 | reduce over xs ++ ys continues over ys from the result over xs |
| `Lists.ReduceRightAppend` | index.js:31 | reduceRight over xs ++ ys continues over xs from the result over ys |
| `Lists.FoldlLeftToRight` | index.js:30 | foldl of no elements is the initial value, and an element added at the end is applied last: foldl(fn)(x0, ..., xn)(v) is fn(...fn(v)(x0)...)(xn) |
| `Lists.FoldrRightToLeft` | index.js:31 | foldr of no elements is the initial value, and an element added at the front is applied last: the elements are consumed right to left |
| `Lists.ArrayCallIsSpreadCall` | index.js:28-31 | when the first argument is an array of plain (non-array) elements, foldl and foldr fold over the same elements as the spread call with the flattened arguments |
| `Lists.SingleArrayIsSpread` | index.js:28-31 | for elements x0, ..., xn that are not arrays, foldl(fn)([x0, ..., xn])(v) equals foldl(fn)(x0, ..., xn)(v), and the same for foldr |
| `Helpers.Flip` | index.js:34 | flip is C; stated through `Helpers.FlipIApplies` and `Combinators.CardinalSwaps` |
| `Helpers.FlipI` | index.js:36-37 | flip(I), the step compose and pipe fold with; stated by `Helpers.FlipIApplies` |
| `Helpers.Compose` | index.js:36 | foldr(flip(I)); stated by `Helpers.ComposeRightToLeft`, `Helpers.ComposeAndPipeOfTwo` and `Helpers.ComposeIsPipeReversed` |
| `Helpers.Pipe` | index.js:37 | foldl(flip(I)); stated by `Helpers.PipeLeftToRight` and `Helpers.ComposeAndPipeOfTwo` |
| `Helpers.Map` | index.js:69 | the host's arr.map(f); `Helpers.MapList` and `Helpers.MapListToArray` state mapList against it |
| `Helpers.ListToArray` | index.js:39-49 | the loop returns the chain's elements from head to null, in order |
| `Helpers.ArrayToList` | index.js:51-59 | the loop over reverse(iter) builds a chain whose elements are iter in order; empty input gives null; the first element is the head |
| `Helpers.ArrayRoundTrip` | index.js:39-59 | listToArray(arrayToList(s)) is s for every finite s |
| `Helpers.ListRoundTrip` | index.js:39-59 | arrayToList(listToArray(p)) rebuilds the same chain p |
| `Helpers.RangeList` | index.js:61-63 | rangeList(low)(high) is null exactly when low > high; otherwise its elements are low, low+1, ..., high, high - low + 1 of them |
| `Helpers.RangeListToArray` | index.js:61-63 | listToArray(rangeList(low)(high)) is empty when low > high and otherwise runs from low to high in steps of one |
| `Helpers.MapList` | index.js:65-69 | mapList(f) maps null to null, and its elements are map(f) of the input's elements: same length, same order, f applied to each |
| `Helpers.MapListToArray` | index.js:65-69 | listToArray(mapList(f)(p)) is map(f) of the chain's elements in order, and equals map(f)(listToArray(p)) |
| `Helpers.FlipIApplies` | index.js:34-37 | flip(I)(x)(g) is g(x), the step both compose and pipe fold with |
| `Helpers.ComposeRightToLeft` | index.js:36 | compose of no functions is the identity, and compose(fs ++ gs) runs gs first and then fs |
| `Helpers.PipeLeftToRight` | index.js:37 | pipe of no functions is the identity, and pipe(fs ++ gs) runs fs first and then gs |
| `Helpers.ComposeAndPipeOfTwo` | index.js:36-37 | compose(f, g)(x) is f(g(x)) and pipe(f, g)(x) is g(f(x)) |
| `Helpers.FoldrIsFoldlOfReverse` | index.js:30-31 | foldr over a list equals foldl over the reversed list |
| `Helpers.ComposeIsPipeReversed` | index.js:36-37 | compose of a list of functions is pipe of the reversed list |
| `Generators.Reverse` | index.js:78-80 | reverse yields the input's elements last to first, as many as there are |
| `Generators.ReverseReverse` | index.js:78-80 | reversing twice gives back the input |
| `Generators.NaturalNumbers.Next` | index.js:111-115 | the k-th call yields k + 1 and the generator never finishes |
| `Generators.Fibo.Next` | index.js:95-109 | the k-th call yields the k-th Fibonacci number (1, 1, then each the sum of the two before), and at the loop head val1 and val2 are consecutive Fibonacci numbers with val1 <= val2 |
| `Generators.FibPositive` | index.js:95-109 | every value fibo yields is at least 1 |
| `Generators.FibMonotone` | index.js:95-109 | the values fibo yields never decrease |
| `Generators.NaturalNumbers.constructor` | index.js:111-112 | naturalNumbers() starts suspended before its first yield, with number = 1 and no call made |
| `Generators.Fibo.constructor` | index.js:95-97 | fibo() starts suspended at the start of its body, with val1 = val2 = 1 and no call made |
| `Generators.Range.constructor` | index.js:72 | range's defaults are low = 0, high = 0, step = 1 |
| `Generators.Range.Next` | index.js:72-76 | the k-th call yields low + k * step while every value so far is below high, and finishes for good at the first one that is not |
| `Generators.RangeStaysDone` | index.js:72-76 | once range has finished it stays finished, whatever the sign of step |
| `Generators.RangeValues` | index.js:72-76 | with step > 0 the values are low + j * step, all below high, and the next one would not be |
| `Generators.RangeIsFinite` | index.js:72-76 | with step > 0 range yields exactly the values of RangeValues in increasing order and then finishes |
| `Generators.RangeEmptyUnlessLowBelowHigh` | index.js:72-76 | range yields nothing when low >= high, whatever the step, and so range() with its defaults (0, 0, 1) yields nothing |
| `Generators.Take.constructor` | index.js:93 | take$(n, iter) and take(n)(iter) start with nothing yielded and nothing pulled |
| `Generators.Take.Next` | index.js:82-91 | a call yields the next input element exactly when fewer than quantity have been yielded and the input has one; each call before the end pulls one element; no more than max(quantity, 0) + 1 are ever pulled |
| `Generators.SpreadTake` | index.js:82-91 | [...take$(n, iter)] is the first min(n, length of iter) elements of iter in order (none when n <= 0), and exactly one element more is pulled, so an infinite input is fine |
| `Generators.TakeFromArray` | index.js:82-91 | take$ over an array yields its prefix of length min(max(n, 0), length) |
| `Generators.TakeThreeOfFive` | index.js:331-346 | [...take$(3, elements)] and [...take(3)(elements)] with elements [1, 2, 3, 4, 5] are [1, 2, 3] |
| `Generators.TakeThreeNaturals` | index.js:111-115 | [...take(3)(naturalNumbers())] is [1, 2, 3] |
| `Generators.TakeFiveFibo` | index.js:95-109 | [...take(5)(fibo())] is [1, 1, 2, 3, 5] |
| `Generators.TakeTenOfRange` | index.js:360-363 | [...take(10)(range(0, 3, 1))] is [0, 1, 2]: fewer than asked for, without error |

## Left out

- `M` (the Mockingbird, `a => a(a)`): self-application has no type in Dafny. Its documented behaviour, `M(M)` exhausting the call stack, is a host failure and not a result.
- `partial$`: variadic spreading over untyped functions.
- `vector2` and `vector2$`: bare `{x, y}` record constructors with no behaviour.
- The `module.exports` table and its documentation. The examples it documents for the modelled operations appear as lemmas and example methods above; `I(x => y => x)` returning its function argument is covered by the general clause of `Combinators.IdentityAndKestrel`.
- `eq` is another name for `beq`, and `Combinators.Beq` models both.
- `take(quantity)(iter)` builds the same object as `take$(quantity, iter)`. The constructor of `Generators.Take` models both; the currying is not modelled separately.
- Combinators.NotSwaps: stated for the two canonical booleans T and F only. The library leaves the operators unspecified on other functions.
- Combinators.NotNot: stated for the two canonical booleans T and F only. The library leaves the operators unspecified on other functions.
- Combinators.AndTruthTable: stated for the two canonical booleans T and F only. The library leaves the operators unspecified on other functions.
- Combinators.OrTruthTable: stated for the two canonical booleans T and F only. The library leaves the operators unspecified on other functions.
- Combinators.BeqTruthTable: stated for the two canonical booleans T and F only. The library leaves the operators unspecified on other functions.
- Helpers.Compose and Helpers.Pipe: every function in the chain has the one type `A -> A`. The library composes chains whose types change from link to link (`g: X -> Y` then `f: Y -> Z`), which a Dafny sequence cannot hold. They take the list of functions that argsToArr produces. `Lists.SingleArrayIsSpread` shows both calling conventions give the same list. A non-function element, which makes the library throw a TypeError, cannot be expressed.
- Lists.Head, Lists.Tail: require a cell. On `null` the library throws a TypeError, and no caller in the library does that.
- Lists.SingleArrayIsSpread, Lists.ArrayCallIsSpreadCall: the two calling conventions agree only when the first element of the flattened list is not itself an array. `foldl(fn)([[1, 2], 3])(v)` folds over the two elements `[1, 2]` and `3`, while `foldl(fn)([1, 2], 3)(v)` folds over `1, 2, 3`; arrays inside array arguments are not modelled, so the lemmas do not cover that case.
- Lists.Flat: array arguments hold plain elements. An array nested inside an array argument, which one level of `flat()` would keep whole, is not modelled.
- `pair(x)(y)` as a plain two-field record: `Lists.List` types `second` as a chain, so a cell whose second field is not a chain or null is not modelled.
- Helpers.Map: `f` is a one-argument function. The host's `arr.map` also passes each element's index and the array, so for an `f` that reads a second parameter (`parseInt` on `['1', '2', '3']` gives `[1, NaN, NaN]`) the library's map and mapList differ there, which `Helpers.MapListToArray` does not capture.
- `listToArray` stops at `Nil`. The library's `while (p)` also stops at other falsy values, and cyclic chains never end; neither is modelled.
- The generators and `rangeList` run on unbounded integers. JavaScript numbers are IEEE doubles, and the following are not modelled: non-integer `low`/`step` in `range`; a non-integer `low` in `rangeList` (`rangeList(0.5)(2)` gives 0.5, 1.5); a non-integer or infinite quantity in `take$` (`take$(2.5, xs)` yields three elements and `take$(Infinity, xs)` yields all of them); `fibo`/`naturalNumbers` past 2^53, where precision is lost.
- The generator classes set their first locals (`let number = 1`, `let val1 = 1`) in the constructor, not on the first `next()`. The difference cannot be observed.
- Generators.Take: its input is a position-indexed stream, not a generator object. No two iterators share state, and the classes for range, fibo and naturalNumbers are each tied to their stream separately. `return()`, which a for-of loop calls on the input when take$ stops early, is not modelled.
- `reverse` on an infinite input does not terminate; `Generators.Reverse` takes finite sequences only. It is a function giving the whole reversed sequence, not a generator object yielding one element per `next()`.
- JavaScript generator suspension is modelled as an explicit resume point in each class, not as coroutines.
