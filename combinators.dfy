/**
 * The combinator algebra of index.js: the pure combinators I, K, KI and C,
 * the Church booleans T and F built from them, the boolean operators and the
 * bridge toBoolean, and partial application.
 *
 * Every combinator of the library is a curried function value, and so it is
 * here: each is a generic function of no arguments that returns a curried
 * lambda, so that `K()(a)(b)` reads as `K(a)(b)` does in the library.
 */
module Combinators {

  /** A Church boolean used at carrier type A: a curried selector of one of two A's. */
  type Bool<!A> = A -> A -> A

  /** I, the identity. */
  function I<A>(): A -> A
  {
    a => a
  }

  /** K, the Kestrel: keeps its first argument and drops the second. */
  function K<A, B>(): A -> B -> A
  {
    a => b => a
  }

  /** KI, the Kite, defined as the library does: K applied to I. */
  function KI<A, B>(): A -> B -> B
  {
    K<B -> B, A>()(I())
  }

  /** C, the Cardinal: calls its first argument with the next two swapped. */
  function C<X, Y, Z>(): (X -> Y -> Z) -> Y -> X -> Z
  {
    (a: X -> Y -> Z) => (b: Y) => (c: X) => a(c)(b)
  }

  /** T, the truth, is the Kestrel itself. */
  function T<A>(): Bool<A>
  {
    K()
  }

  /** F, the lie, is the Kite itself. */
  function F<A>(): Bool<A>
  {
    KI()
  }

  /**
   * The two canonical Church booleans as the values they are in the library,
   * independent of the carrier type: a JavaScript Church boolean may be applied
   * at several types in one expression (`and = a => b => a(b)(a)` applies `a`
   * to booleans and also passes it as a boolean). `At` gives the instance of a
   * canonical boolean at one carrier type.
   */
  datatype Canonical = Truth | Lie

  function At<A>(c: Canonical): Bool<A>
  {
    match c
    case Truth => T()
    case Lie => F()
  }

  /** The host truth value a canonical boolean stands for. */
  predicate Holds(c: Canonical)
  {
    c == Truth
  }

  /** The canonical boolean standing for a host truth value. */
  function FromBool(b: bool): (c: Canonical)
    ensures Holds(c) == b
  {
    if b then Truth else Lie
  }

  /** toBoolean: applies a Church boolean to the host's true and false. */
  function ToBoolean(p: Bool<bool>): bool
  {
    p(true)(false)
  }

  /** not: selects between F and T. */
  function Not<A>(a: Bool<Bool<A>>): Bool<A>
  {
    a(F())(T())
  }

  /** and: `a(b)(a)`, with `a` used both as a selector of booleans and as a boolean. */
  function And<A>(a: Canonical, b: Bool<A>): Bool<A>
  {
    At<Bool<A>>(a)(b)(At<A>(a))
  }

  /** or: `a(a)(b)`. */
  function Or<A>(a: Canonical, b: Bool<A>): Bool<A>
  {
    At<Bool<A>>(a)(At<A>(a))(b)
  }

  /** beq (also exported as eq): `a(b)(not(b))`, with `b` used as a boolean and negated. */
  function Beq<A>(a: Bool<Bool<A>>, b: Canonical): Bool<A>
  {
    a(At<A>(b))(Not(At<Bool<A>>(b)))
  }

  /** partial: binds the first argument of a curried two-argument function. */
  function Partial<X, Y, Z>(fn: X -> Y -> Z): X -> Y -> Z
  {
    arg => otherArg => fn(arg)(otherArg)
  }

  // ----- Laws of the combinators -----

  /**
   * I returns its argument and K its first of two arguments of any two types.
   * The documented examples: `K(1)(0)` and `T(1)(0)` are 1, `F(1)(0)` is 0,
   * `not(F)(1)(0)` is 1, `not(T)(1)(0)` is 0 and `toBoolean(a => b => b)` is false.
   */
  lemma IdentityAndKestrel<A, B>(a: A, b: B)
    ensures I<A>()(a) == a && K<A, B>()(a)(b) == a
    ensures I<int>()(5) == 5
    ensures K<int, int>()(1)(0) == 1 && T<int>()(1)(0) == 1 && F<int>()(1)(0) == 0
    ensures Not<int>(F())(1)(0) == 1 && Not<int>(T())(1)(0) == 0
    ensures !ToBoolean((x: bool) => (y: bool) => y)
  {
  }

  /** KI is the Kite although it is built from K and I: it keeps its second argument, and so does F. */
  lemma KiteKeepsSecond<A, B>(a: A, b: B, x: A, y: A)
    ensures KI<A, B>()(a)(b) == b
    ensures F<A>()(x)(y) == KI<A, A>()(x)(y) == y
  {
  }

  /** C swaps the arguments of the function it is given. */
  lemma CardinalSwaps<X, Y, Z>(f: X -> Y -> Z, b: Y, c: X)
    ensures C()(f)(b)(c) == f(c)(b)
  {
  }

  /** On a canonical boolean C acts as negation: `C(F)(1)(0)` is 1 and `C(T)(1)(0)` is 0. */
  lemma CardinalNegates<A>(c: Canonical, x: A, y: A)
    ensures C()(At<A>(c))(x)(y) == At<A>(FromBool(!Holds(c)))(x)(y)
    ensures C()(F<int>())(1)(0) == 1 && C()(T<int>())(1)(0) == 0
  {
  }

  /** T selects its first argument and F its second; toBoolean tells them apart. */
  lemma ToBooleanCanonical(c: Canonical)
    ensures ToBoolean(At(c)) == Holds(c)
    ensures ToBoolean(T()) && !ToBoolean(F())
  {
  }

  /** not swaps T and F, at every carrier type. */
  lemma NotSwaps<A>(c: Canonical, x: A, y: A)
    ensures Not<A>(At(c))(x)(y) == At<A>(FromBool(!Holds(c)))(x)(y)
    ensures ToBoolean(Not(At(c))) == !Holds(c)
  {
  }

  /** not applied twice gives back the boolean it started from. */
  lemma NotNot<A>(c: Canonical, x: A, y: A)
    ensures Not<A>(Not(At(c)))(x)(y) == At<A>(c)(x)(y)
    ensures ToBoolean(Not(Not(At(c)))) == Holds(c)
  {
  }

  /** and(p)(q) is T exactly when both p and q are T, and F otherwise. */
  lemma AndTruthTable<A>(p: Canonical, q: Canonical, x: A, y: A)
    ensures And<A>(p, At(q))(x)(y) == At<A>(FromBool(Holds(p) && Holds(q)))(x)(y)
    ensures ToBoolean(And(p, At(q))) <==> Holds(p) && Holds(q)
  {
  }

  /** or(p)(q) is F exactly when both p and q are F, and T otherwise. */
  lemma OrTruthTable<A>(p: Canonical, q: Canonical, x: A, y: A)
    ensures Or<A>(p, At(q))(x)(y) == At<A>(FromBool(Holds(p) || Holds(q)))(x)(y)
    ensures !ToBoolean(Or(p, At(q))) <==> !Holds(p) && !Holds(q)
  {
  }

  /** beq(p)(q) is T exactly when p and q are the same canonical boolean. */
  lemma BeqTruthTable<A>(p: Canonical, q: Canonical, x: A, y: A)
    ensures Beq<A>(At(p), q)(x)(y) == At<A>(FromBool(p == q))(x)(y)
    ensures ToBoolean(Beq(At(p), q)) <==> p == q
  {
  }

  /** partial(fn)(arg) behaves as fn(arg): `partial(add)(3)(2)` is 5. */
  lemma PartialApplies<X, Y, Z>(fn: X -> Y -> Z, arg: X, otherArg: Y)
    ensures Partial(fn)(arg)(otherArg) == fn(arg)(otherArg)
    ensures Partial((a: int) => (b: int) => a + b)(3)(2) == 5
  {
  }
}
