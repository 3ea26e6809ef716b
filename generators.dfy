/**
 * The generators of index.js: range, reverse, take$/take, fibo and
 * naturalNumbers.
 *
 * A JavaScript generator object is a pull-based iterator: each call of its
 * next() resumes the generator's body until the next `yield` (giving
 * `{value, done: false}`) or until the body returns (giving `{done: true}`,
 * and from then on always that). reverse spreads its whole input before it
 * yields, so it is the function Reverse over finite sequences. Each other
 * generator is a class whose fields are the body's local variables (and, for
 * fibo, range and take$, the point where the body is suspended), and whose
 * method Next() is one resumption. NaturalNumbers, Fibo and Range keep a ghost
 * count of the calls made so far and are proved to answer their k-th call
 * with the k-th entry of a position-indexed function (NaturalAt, Fib,
 * RangeAt), their Stream. The input of take$ is given as such a stream, and
 * Take keeps the ghost Output it has yielded so far.
 */
module Generators {

  /** What one call of an iterator's next() returns. */
  datatype Step<T> = Yield(value: T) | Done

  /** An iterator seen from outside: what its k-th call of next() returns. */
  type Stream<T> = nat -> Step<T>

  /** Where a generator body whose only yield sits inside a loop is suspended. */
  datatype Resume = Fresh | Paused | Finished

  function Max0(n: int): nat
  {
    if n > 0 then n else 0
  }

  function Min(a: int, b: int): int
  {
    if a < b then a else b
  }

  // ----- Reference streams -----

  /** Iterating over an array (for-of) yields its elements in order, then stops. */
  function ArrayAt<T>(s: seq<T>, k: nat): Step<T>
  {
    if k < |s| then Yield(s[k]) else Done
  }

  /** naturalNumbers yields k + 1 at position k and never stops. */
  function NaturalAt(k: nat): Step<int>
  {
    Yield(k + 1)
  }

  /** The Fibonacci numbers as fibo yields them: 1, 1, 2, 3, 5, ... */
  function Fib(k: nat): nat
  {
    if k < 2 then 1 else Fib(k - 2) + Fib(k - 1)
  }

  /**
   * range(low, high, step) yields low + k * step at position k as long as
   * this and every value before it is below high. The values move in one
   * direction, so it is enough to test the first one and the k-th one.
   */
  function RangeAt(low: int, high: int, step: int, k: nat): Step<int>
  {
    if low < high && low + k * step < high then Yield(low + k * step) else Done
  }

  /** The values a range with a positive step yields, as a finite sequence. */
  function RangeValues(low: int, high: int, step: int): (r: seq<int>)
    requires step > 0
    ensures forall j :: 0 <= j < |r| ==> r[j] == low + j * step && r[j] < high
    ensures low + |r| * step >= high
    decreases high - low
  {
    if low < high then
      var rest := RangeValues(low + step, high, step);
      assert forall j :: 0 < j <= |rest| ==> low + step + (j - 1) * step == low + j * step;
      [low] + rest
    else
      []
  }

  /** reverse: the finite input, materialised and yielded back last to first. */
  function Reverse<T>(s: seq<T>): (r: seq<T>)
    ensures |r| == |s|
    ensures forall i :: 0 <= i < |s| ==> r[i] == s[|s| - 1 - i]
  {
    if s == [] then [] else Reverse(s[1..]) + [s[0]]
  }

  // ----- Generators -----

  /** naturalNumbers: `let number = 1; while (true) yield number++;` */
  class NaturalNumbers {
    var number: int
    ghost var count: nat

    ghost predicate Valid()
      reads this
    {
      number == count + 1
    }

    /** The body's `let number = 1` runs on the first resumption; running it here is not observable. */
    constructor ()
      ensures Valid() && count == 0 && number == 1
    {
      number := 1;
      count := 0;
    }

    method Next() returns (r: Step<int>)
      requires Valid()
      modifies this
      ensures Valid() && count == old(count) + 1
      ensures r == NaturalAt(old(count))
    {
      r := Yield(number);
      number := number + 1;
      count := count + 1;
    }
  }

  /** The four points where the body of fibo can be suspended. */
  datatype FiboPoint =
    | Start       // not yet run
    | AfterFirst  // at `yield val1` before the loop
    | LoopHead    // at `yield val2`, before the loop or at the end of an iteration
    | MidLoop     // at `yield val1` inside the loop

  /** fibo: yields val1 and val2, then forever adds val2 into val1 and val1 into val2, yielding each sum. */
  class Fibo {
    var val1: int
    var val2: int
    var point: FiboPoint
    ghost var count: nat

    /** At the loop head val1 and val2 are consecutive Fibonacci numbers, val1 <= val2. */
    ghost predicate Valid()
      reads this
    {
      match point
      case Start => count == 0 && val1 == 1 && val2 == 1
      case AfterFirst => count == 1 && val1 == 1 && val2 == 1
      case LoopHead => count >= 2 && val1 == Fib(count - 2) && val2 == Fib(count - 1) && val1 <= val2
      case MidLoop => count >= 3 && val1 == Fib(count - 1) && val2 == Fib(count - 2)
    }

    constructor ()
      ensures Valid() && count == 0 && point == Start && val1 == 1 && val2 == 1
    {
      val1, val2 := 1, 1;
      point := Start;
      count := 0;
    }

    method Next() returns (r: Step<int>)
      requires Valid()
      modifies this
      ensures Valid() && count == old(count) + 1
      ensures r == Yield(Fib(old(count)))
    {
      match point {
      case Start =>
        r := Yield(val1);
        point := AfterFirst;
      case AfterFirst =>
        r := Yield(val2);
        point := LoopHead;
      case LoopHead =>
        val1 := val1 + val2;
        r := Yield(val1);
        point := MidLoop;
      case MidLoop =>
        val2 := val2 + val1;
        r := Yield(val2);
        point := LoopHead;
        FibMonotone(count - 1, count);
      }
      count := count + 1;
    }
  }

  /** range: `for (let i = low; i < high; i += step) yield i;`, with the library's defaults. */
  class Range {
    const low: int
    const high: int
    const step: int
    var i: int
    var state: Resume
    ghost var count: nat

    ghost predicate Valid()
      reads this
    {
      && (state == Fresh ==> count == 0)
      && (state == Paused ==> count >= 1 && RangeAt(low, high, step, count - 1) == Yield(i))
      && (state == Finished ==> count >= 1 && RangeAt(low, high, step, count - 1).Done?)
    }

    constructor (low: int := 0, high: int := 0, step: int := 1)
      ensures Valid() && count == 0
      ensures this.low == low && this.high == high && this.step == step
    {
      this.low, this.high, this.step := low, high, step;
      state := Fresh;
      count := 0;
    }

    method Next() returns (r: Step<int>)
      requires Valid()
      modifies this
      ensures Valid() && count == old(count) + 1
      ensures r == RangeAt(low, high, step, old(count))
    {
      if state == Finished {
        RangeStaysDone(low, high, step, count - 1);
        r := Done;
      } else {
        if state == Fresh {
          i := low;
        } else {
          assert low + count * step == low + (count - 1) * step + step;
          i := i + step;
        }
        if i < high {
          r := Yield(i);
          state := Paused;
        } else {
          r := Done;
          state := Finished;
        }
      }
      count := count + 1;
    }
  }

  /**
   * take$(quantity, iter): yields the elements of iter while fewer than
   * quantity have been yielded. Its for-of loop pulls an element before it
   * tests the counter, so it stops after pulling one element past the last
   * one it yields.
   */
  class Take<T> {
    const quantity: int
    const source: Stream<T>
    var counter: int
    var pulled: nat
    var state: Resume
    ghost var Output: seq<T>

    ghost predicate Valid()
      reads this
    {
      && |Output| <= Max0(quantity)
      && (forall i :: 0 <= i < |Output| ==> source(i) == Yield(Output[i]))
      && (state == Fresh ==> Output == [])
      && (state == Paused ==> |Output| >= 1)
      && counter == |Output| - (if state == Paused then 1 else 0)
      && pulled == |Output| + (if state == Finished then 1 else 0)
      && (state == Finished ==> source(|Output|).Done? || |Output| >= quantity)
    }

    /** take(quantity)(iter) builds the same object. */
    constructor (quantity: int, source: Stream<T>)
      ensures Valid() && this.quantity == quantity && this.source == source
      ensures state == Fresh && Output == [] && pulled == 0
    {
      this.quantity, this.source := quantity, source;
      counter, pulled := 0, 0;
      state := Fresh;
      Output := [];
    }

    method Next() returns (r: Step<T>)
      requires Valid()
      modifies this
      ensures Valid()
      ensures r.Yield? <==> old(state) != Finished && |old(Output)| < quantity && source(|old(Output)|).Yield?
      ensures r.Yield? ==> r == source(|old(Output)|) && Output == old(Output) + [r.value] && state == Paused
      ensures r.Done? ==> Output == old(Output) && state == Finished
      ensures pulled == old(pulled) + (if old(state) == Finished then 0 else 1)
      ensures pulled <= Max0(quantity) + 1
    {
      if state == Finished {
        return Done;
      }
      if state == Paused {
        counter := counter + 1;
      }
      var el := source(pulled);
      pulled := pulled + 1;
      if el.Done? {
        state := Finished;
        return Done;
      }
      if counter < quantity {
        state := Paused;
        Output := Output + [el.value];
        return el;
      }
      state := Finished;
      return Done;
    }
  }

  /**
   * `[...take$(quantity, iter)]`: the elements yielded are the first
   * min(quantity, length of iter) elements of iter, in order, and exactly
   * one element more than those is pulled from iter.
   */
  method SpreadTake<T>(quantity: int, source: Stream<T>) returns (out: seq<T>, pulled: nat)
    ensures |out| <= Max0(quantity)
    ensures forall i :: 0 <= i < |out| ==> source(i) == Yield(out[i])
    ensures |out| < quantity ==> source(|out|).Done?
    ensures pulled == |out| + 1
  {
    var t := new Take(quantity, source);
    out := [];
    var done := false;
    while !done
      invariant t.Valid() && t.quantity == quantity && t.source == source
      invariant out == t.Output
      invariant done <==> t.state == Finished
      decreases Max0(quantity) + 1 - t.pulled + (if done then 0 else 1)
    {
      var r := t.Next();
      match r
      case Yield(v) => out := out + [v];
      case Done => done := true;
    }
    pulled := t.pulled;
  }

  /** take$ over an array yields its first min(quantity, length) elements. */
  method TakeFromArray<T>(quantity: int, elements: seq<T>) returns (out: seq<T>)
    ensures out == elements[..Min(Max0(quantity), |elements|)]
  {
    var pulled;
    out, pulled := SpreadTake(quantity, k => ArrayAt(elements, k));
    if |out| > 0 {
      assert ArrayAt(elements, |out| - 1) == Yield(out[|out| - 1]);
    }
  }

  // ----- Laws of the reference streams -----

  /** Each Fibonacci number is at least 1. */
  lemma {:induction false} FibPositive(k: nat)
    ensures Fib(k) >= 1
  {
    if k >= 2 {
      FibPositive(k - 2);
      FibPositive(k - 1);
    }
  }

  /** The Fibonacci numbers never decrease. */
  lemma {:induction false} FibMonotone(i: nat, j: nat)
    requires i <= j
    ensures Fib(i) <= Fib(j)
  {
    if i < j {
      FibMonotone(i, j - 1);
      if j >= 2 {
        assert Fib(j) == Fib(j - 2) + Fib(j - 1);
      }
    }
  }

  /** Once a range has stopped it stays stopped. */
  lemma RangeStaysDone(low: int, high: int, step: int, k: nat)
    requires RangeAt(low, high, step, k).Done?
    ensures RangeAt(low, high, step, k + 1).Done?
  {
    if low < high {
      assert k * step > 0;
      assert step > 0;
      assert low + (k + 1) * step == low + k * step + step;
    }
  }

  /**
   * With a positive step, range yields exactly the values of RangeValues:
   * low, low + step, ... while below high, increasing, and then stops.
   */
  lemma RangeIsFinite(low: int, high: int, step: int, k: nat)
    requires step > 0
    ensures var r := RangeValues(low, high, step);
      RangeAt(low, high, step, k) == if k < |r| then Yield(r[k]) else Done
  {
    var r := RangeValues(low, high, step);
    if k < |r| {
      assert r[0] == low && low < high;
    } else {
      assert (k - |r|) * step >= 0;
      assert low + k * step == low + |r| * step + (k - |r|) * step;
    }
  }

  /** A range with low >= high yields nothing, whatever its step; so does the default range (0, 0, 1). */
  lemma RangeEmptyUnlessLowBelowHigh(low: int, high: int, step: int, k: nat)
    requires low >= high
    ensures RangeAt(low, high, step, k) == Done
    ensures RangeAt(0, 0, 1, k) == Done && RangeValues(0, 0, 1) == []
  {
  }

  /** Reversing twice gives back the input. */
  lemma ReverseReverse<T>(s: seq<T>)
    ensures Reverse(Reverse(s)) == s
  {
  }

  // ----- The documented examples -----

  /** `[...take$(3, elements)]` and `[...take(3)(elements)]` with `elements = [1, 2, 3, 4, 5]` are `[1, 2, 3]`. */
  method TakeThreeOfFive() returns (out: seq<int>)
    ensures out == [1, 2, 3]
  {
    out := TakeFromArray(3, [1, 2, 3, 4, 5]);
  }

  /** `[...take(3)(naturalNumbers())]` is `[1, 2, 3]`. */
  method TakeThreeNaturals() returns (out: seq<int>)
    ensures out == [1, 2, 3]
  {
    var pulled;
    out, pulled := SpreadTake(3, k => NaturalAt(k));
    assert |out| == 3;
    assert out[0] == 1 && out[1] == 2 && out[2] == 3;
  }

  /** `[...take(5)(fibo())]` is `[1, 1, 2, 3, 5]`. */
  method TakeFiveFibo() returns (out: seq<int>)
    ensures out == [1, 1, 2, 3, 5]
  {
    var pulled;
    out, pulled := SpreadTake(5, k => Yield(Fib(k)));
    assert |out| == 5;
    assert Fib(2) == 2 && Fib(3) == 3 && Fib(4) == 5;
    assert out[0] == 1 && out[1] == 1 && out[2] == 2 && out[3] == 3 && out[4] == 5;
  }

  /** `[...take(10)(range(0, 3, 1))]` is `[0, 1, 2]`: fewer than asked, and no error. */
  method TakeTenOfRange() returns (out: seq<int>)
    ensures out == [0, 1, 2]
  {
    var pulled;
    out, pulled := SpreadTake(10, k => RangeAt(0, 3, 1, k));
    if |out| > 0 {
      assert RangeAt(0, 3, 1, |out| - 1) == Yield(out[|out| - 1]);
    }
    assert RangeAt(0, 3, 1, |out|).Done?;
    assert out[0] == 0 && out[1] == 1 && out[2] == 2;
  }
}
