/** Untyped lambda terms with de Bruijn indices, beta reduction, and Church arithmetic. */
module Lambda {
  datatype Term = V(index: nat) | L(body: Term) | A(fun: Term, arg: Term)

  /** Raises every index from `c` on by `d`. */
  function Shift(t: Term, c: nat, d: nat): Term {
    match t
    case V(i) => if i < c then t else V(i + d)
    case L(b) => L(Shift(b, c + 1, d))
    case A(f, g) => A(Shift(f, c, d), Shift(g, c, d))
  }

  /** Replaces index `k` by `u` and lowers the indices above it. */
  function Sub(t: Term, k: nat, u: Term): Term {
    match t
    case V(i) => if i < k then t else if i == k then Shift(u, 0, k) else V(i - 1)
    case L(b) => L(Sub(b, k + 1, u))
    case A(f, g) => A(Sub(f, k, u), Sub(g, k, u))
  }

  /** One beta step anywhere in the term. */
  predicate Step(t: Term, u: Term) {
    match t
    case V(_) => false
    case L(b) => u.L? && Step(b, u.body)
    case A(f, g) =>
      || (f.L? && u == Sub(f.body, 0, g))
      || (u.A? && Step(f, u.fun) && u.arg == g)
      || (u.A? && u.fun == f && Step(g, u.arg))
  }

  ghost predicate ReducesIn(t: Term, u: Term, k: nat)
    decreases k
  {
    if k == 0 then t == u else exists v :: Step(t, v) && ReducesIn(v, u, k - 1)
  }

  ghost predicate Reduces(t: Term, u: Term) {
    exists k: nat :: ReducesIn(t, u, k)
  }

  ghost predicate Normal(t: Term) {
    forall u :: !Step(t, u)
  }

  // ------------------------------------------------------------ reduction is a congruence

  lemma Stay(t: Term)
    ensures Reduces(t, t)
  {
    assert ReducesIn(t, t, 0);
  }

  lemma Single(t: Term, u: Term)
    requires Step(t, u)
    ensures Reduces(t, u)
  {
    assert ReducesIn(u, u, 0);
    assert ReducesIn(t, u, 1);
  }

  lemma {:induction false} ChainIn(t: Term, u: Term, v: Term, j: nat, k: nat)
    requires ReducesIn(t, u, j) && ReducesIn(u, v, k)
    ensures ReducesIn(t, v, j + k)
    decreases j
  {
    if j > 0 {
      var s :| Step(t, s) && ReducesIn(s, u, j - 1);
      ChainIn(s, u, v, j - 1, k);
    }
  }

  lemma Chain(t: Term, u: Term, v: Term)
    requires Reduces(t, u) && Reduces(u, v)
    ensures Reduces(t, v)
  {
    var j: nat :| ReducesIn(t, u, j);
    var k: nat :| ReducesIn(u, v, k);
    ChainIn(t, u, v, j, k);
  }

  lemma {:induction false} UnderIn(t: Term, u: Term, k: nat)
    requires ReducesIn(t, u, k)
    ensures ReducesIn(L(t), L(u), k)
    decreases k
  {
    if k > 0 {
      var s :| Step(t, s) && ReducesIn(s, u, k - 1);
      UnderIn(s, u, k - 1);
      assert Step(L(t), L(s));
    }
  }

  lemma Under(t: Term, u: Term)
    requires Reduces(t, u)
    ensures Reduces(L(t), L(u))
  {
    var k: nat :| ReducesIn(t, u, k);
    UnderIn(t, u, k);
  }

  lemma {:induction false} LeftIn(t: Term, u: Term, g: Term, k: nat)
    requires ReducesIn(t, u, k)
    ensures ReducesIn(A(t, g), A(u, g), k)
    decreases k
  {
    if k > 0 {
      var s :| Step(t, s) && ReducesIn(s, u, k - 1);
      LeftIn(s, u, g, k - 1);
      assert Step(A(t, g), A(s, g));
    }
  }

  lemma {:induction false} RightIn(t: Term, u: Term, f: Term, k: nat)
    requires ReducesIn(t, u, k)
    ensures ReducesIn(A(f, t), A(f, u), k)
    decreases k
  {
    if k > 0 {
      var s :| Step(t, s) && ReducesIn(s, u, k - 1);
      RightIn(s, u, f, k - 1);
      assert Step(A(f, t), A(f, s));
    }
  }

  lemma Both(f: Term, f': Term, g: Term, g': Term)
    requires Reduces(f, f') && Reduces(g, g')
    ensures Reduces(A(f, g), A(f', g'))
  {
    var j: nat :| ReducesIn(f, f', j);
    var k: nat :| ReducesIn(g, g', k);
    LeftIn(f, f', g, j);
    RightIn(g, g', f', k);
    ChainIn(A(f, g), A(f', g), A(f', g'), j, k);
  }

  // ------------------------------------------------------------------- substitution

  lemma {:induction false} ShiftNone(t: Term, c: nat)
    ensures Shift(t, c, 0) == t
  {
    match t
    case V(_) =>
    case L(b) => ShiftNone(b, c + 1);
    case A(f, g) => ShiftNone(f, c); ShiftNone(g, c);
  }

  lemma {:induction false} SubShifted(t: Term, c: nat, u: Term)
    ensures Sub(Shift(t, c, 1), c, u) == t
  {
    match t
    case V(_) =>
    case L(b) => SubShifted(b, c + 1, u);
    case A(f, g) => SubShifted(f, c, u); SubShifted(g, c, u);
  }

  // ----------------------------------------------------------------- Church numerals

  /** `f (f (... z))`, `n` times. */
  function Iter(f: Term, n: nat, z: Term): Term {
    if n == 0 then z else A(f, Iter(f, n - 1, z))
  }

  /** `\\f. \\x. f (f (... x))` */
  function Church(n: nat): Term {
    L(L(Iter(V(1), n, V(0))))
  }

  lemma {:induction false} IterSub(f: Term, n: nat, z: Term, k: nat, u: Term)
    ensures Sub(Iter(f, n, z), k, u) == Iter(Sub(f, k, u), n, Sub(z, k, u))
  {
    if n > 0 { IterSub(f, n - 1, z, k, u); }
  }

  lemma {:induction false} IterShift(f: Term, n: nat, z: Term, c: nat, d: nat)
    ensures Shift(Iter(f, n, z), c, d) == Iter(Shift(f, c, d), n, Shift(z, c, d))
  {
    if n > 0 { IterShift(f, n - 1, z, c, d); }
  }

  lemma {:induction false} IterSum(f: Term, a: nat, b: nat, z: Term)
    ensures Iter(f, a, Iter(f, b, z)) == Iter(f, a + b, z)
  {
    if a > 0 { IterSum(f, a - 1, b, z); }
  }

  /** A numeral is closed. */
  lemma ChurchClosed(n: nat, c: nat, d: nat, u: Term)
    ensures Shift(Church(n), c, d) == Church(n) && Sub(Church(n), c, u) == Church(n)
  {
    IterShift(V(1), n, V(0), c + 2, d);
    IterSub(V(1), n, V(0), c + 2, u);
  }

  lemma {:induction false} IterNormal(n: nat, u: Term)
    ensures !Step(Iter(V(1), n, V(0)), u)
  {
    if n > 0 && u.A? { IterNormal(n - 1, u.arg); }
  }

  lemma ChurchNormal(n: nat)
    ensures Normal(Church(n))
  {
    forall u ensures !Step(Church(n), u) {
      if u.L? && u.body.L? { IterNormal(n, u.body.body); }
    }
  }

  /** A numeral applied to a function is that function, iterated. */
  lemma ChurchFun(n: nat, f: Term)
    ensures Reduces(A(Church(n), f), L(Iter(Shift(f, 0, 1), n, V(0))))
  {
    IterSub(V(1), n, V(0), 1, f);
    Single(A(Church(n), f), L(Iter(Shift(f, 0, 1), n, V(0))));
  }

  /** `n f z` reduces to `f (f (... z))`. */
  lemma ChurchApply(n: nat, f: Term, z: Term)
    ensures Reduces(A(A(Church(n), f), z), Iter(f, n, z))
  {
    var body := Iter(Shift(f, 0, 1), n, V(0));
    ChurchFun(n, f);
    Stay(z);
    Both(A(Church(n), f), L(body), z, z);
    IterSub(Shift(f, 0, 1), n, V(0), 0, z);
    SubShifted(f, 0, z);
    ShiftNone(z, 0);
    Single(A(L(body), z), Iter(f, n, z));
    Chain(A(A(Church(n), f), z), A(L(body), z), Iter(f, n, z));
  }

  // --------------------------------------------------------------------- arithmetic

  /** `\m. \n. \f. \x. m f (n f x)` */
  const ADD: Term := L(L(L(L(A(A(V(3), V(1)), A(A(V(2), V(1)), V(0)))))))

  /** `\m. \n. \f. m (n f)` */
  const MUL: Term := L(L(L(A(V(2), A(V(1), V(0))))))

  /** `\m. \n. n m` */
  const EXP: Term := L(L(A(V(0), V(1))))

  function Binary(op: Term, m: Term, n: Term): Term {
    A(A(op, m), n)
  }

  /** An operator of two parameters takes its two numerals in two steps. */
  lemma TwoArguments(op: Term, a: nat, b: nat, mid: Term, end: Term)
    requires op.L? && Sub(op.body, 0, Church(a)) == L(mid) && Sub(mid, 0, Church(b)) == end
    ensures Reduces(Binary(op, Church(a), Church(b)), end)
  {
    Single(A(op, Church(a)), L(mid));
    Stay(Church(b));
    Both(A(op, Church(a)), L(mid), Church(b), Church(b));
    Single(A(L(mid), Church(b)), end);
    Chain(Binary(op, Church(a), Church(b)), A(L(mid), Church(b)), end);
  }

  lemma AddOpens(a: nat, b: nat)
    ensures Reduces(Binary(ADD, Church(a), Church(b)),
                    L(L(A(A(Church(a), V(1)), A(A(Church(b), V(1)), V(0))))))
  {
    ChurchClosed(a, 0, 3, V(0));
    ChurchClosed(a, 2, 0, Church(b));
    ChurchClosed(b, 0, 2, V(0));
    var c, d := Church(a), Church(b);
    assert Sub(V(3), 3, c) == c && Sub(V(2), 2, d) == d;
    var rest := A(A(V(2), V(1)), V(0));
    assert Sub(A(A(V(3), V(1)), rest), 3, c) == A(A(c, V(1)), rest) by {
      assert Sub(A(V(2), V(1)), 3, c) == A(V(2), V(1));
      assert Sub(A(V(3), V(1)), 3, c) == A(c, V(1));
      assert Sub(rest, 3, c) == rest;
    }
    assert Sub(L(A(A(V(3), V(1)), rest)), 2, c) == L(A(A(c, V(1)), rest));
    assert Sub(rest, 2, d) == A(A(d, V(1)), V(0)) by { assert Sub(A(V(2), V(1)), 2, d) == A(d, V(1)); }
    assert Sub(A(A(c, V(1)), rest), 2, d) == A(A(c, V(1)), A(A(d, V(1)), V(0))) by {
      assert Sub(A(c, V(1)), 2, d) == A(c, V(1));
    }
    assert Sub(L(A(A(c, V(1)), rest)), 1, d) == L(A(A(c, V(1)), A(A(d, V(1)), V(0))));
    TwoArguments(ADD, a, b, L(L(A(A(Church(a), V(1)), A(A(V(2), V(1)), V(0))))),
                 L(L(A(A(Church(a), V(1)), A(A(Church(b), V(1)), V(0))))));
  }

  /** The add combinator adds. */
  lemma AddReduces(a: nat, b: nat)
    ensures Reduces(Binary(ADD, Church(a), Church(b)), Church(a + b))
  {
    AddOpens(a, b);
    var inner, outer := A(A(Church(b), V(1)), V(0)), A(Church(a), V(1));
    var mid := Iter(V(1), b, V(0));
    ChurchApply(b, V(1), V(0));
    Stay(outer);
    Both(outer, outer, inner, mid);
    ChurchApply(a, V(1), mid);
    Chain(A(outer, inner), A(outer, mid), Iter(V(1), a, mid));
    IterSum(V(1), a, b, V(0));
    Under(A(outer, inner), Iter(V(1), a + b, V(0)));
    Under(L(A(outer, inner)), L(Iter(V(1), a + b, V(0))));
    Chain(Binary(ADD, Church(a), Church(b)), L(L(A(outer, inner))), Church(a + b));
  }

  lemma MulOpens(a: nat, b: nat)
    ensures Reduces(Binary(MUL, Church(a), Church(b)), L(A(Church(a), A(Church(b), V(0)))))
  {
    ChurchClosed(a, 0, 2, V(0));
    ChurchClosed(a, 1, 0, Church(b));
    ChurchClosed(b, 0, 1, V(0));
    var c, d := Church(a), Church(b);
    assert Sub(V(2), 2, c) == c && Sub(V(1), 1, d) == d;
    assert Sub(A(V(2), A(V(1), V(0))), 2, c) == A(c, A(V(1), V(0))) by {
      assert Sub(A(V(1), V(0)), 2, c) == A(V(1), V(0));
    }
    assert Sub(A(c, A(V(1), V(0))), 1, d) == A(c, A(d, V(0))) by { assert Sub(A(V(1), V(0)), 1, d) == A(d, V(0)); }
    assert Sub(L(A(V(2), A(V(1), V(0)))), 1, c) == L(A(c, A(V(1), V(0))));
    TwoArguments(MUL, a, b, L(A(Church(a), A(V(1), V(0)))), L(A(Church(a), A(Church(b), V(0)))));
  }

  /** Iterating a term that acts like `f` iterated `b` times. */
  lemma {:induction false} IterOf(step: Term, a: nat, b: nat)
    requires forall z :: Reduces(A(step, z), Iter(V(1), b, z))
    ensures Reduces(Iter(step, a, V(0)), Iter(V(1), a * b, V(0)))
  {
    if a == 0 {
      Stay(V(0));
    } else {
      var rest, done := Iter(step, a - 1, V(0)), Iter(V(1), (a - 1) * b, V(0));
      IterOf(step, a - 1, b);
      Stay(step);
      Both(step, step, rest, done);
      Chain(A(step, rest), A(step, done), Iter(V(1), b, done));
      IterSum(V(1), b, (a - 1) * b, V(0));
      assert b + (a - 1) * b == a * b;
    }
  }

  lemma MulInner(a: nat, b: nat)
    ensures Reduces(A(Church(a), A(Church(b), V(0))), L(Iter(V(1), a * b, V(0))))
  {
    hide Reduces;
    var step := A(Church(b), V(1));
    assert Shift(A(Church(b), V(0)), 0, 1) == step by { ChurchClosed(b, 0, 1, V(0)); }
    hide Church, Shift, Iter;
    ChurchFun(a, A(Church(b), V(0)));
    forall z ensures Reduces(A(step, z), Iter(V(1), b, z)) { ChurchApply(b, V(1), z); }
    IterOf(step, a, b);
    Under(Iter(step, a, V(0)), Iter(V(1), a * b, V(0)));
    Chain(A(Church(a), A(Church(b), V(0))), L(Iter(step, a, V(0))), L(Iter(V(1), a * b, V(0))));
  }

  /** The mul combinator multiplies. */
  lemma MulReduces(a: nat, b: nat)
    ensures Reduces(Binary(MUL, Church(a), Church(b)), Church(a * b))
  {
    hide Reduces, Iter, Binary;
    MulOpens(a, b);
    MulInner(a, b);
    var start := A(Church(a), A(Church(b), V(0)));
    Under(start, L(Iter(V(1), a * b, V(0))));
    Chain(Binary(MUL, Church(a), Church(b)), L(start), Church(a * b));
  }

  function Product(a: nat, b: nat): nat {
    a * b
  }

  lemma ProductReduces(a: nat, b: nat)
    ensures Reduces(Binary(MUL, Church(a), Church(b)), Church(Product(a, b)))
  {
    hide Reduces, Church, Binary;
    MulReduces(a, b);
  }

  function Power(base: nat, exp: nat): nat {
    if exp == 0 then 1 else base * Power(base, exp - 1)
  }

  lemma ExpOpens(base: nat, exp: nat)
    ensures Reduces(Binary(EXP, Church(base), Church(exp)), L(Iter(Church(base), exp, V(0))))
  {
    ChurchClosed(base, 0, 1, V(0));
    ChurchClosed(base, 0, 0, Church(exp));
    ShiftNone(Church(exp), 0);
    assert Sub(A(V(0), V(1)), 1, Church(base)) == A(V(0), Church(base)) by {
      assert Sub(V(1), 1, Church(base)) == Church(base);
    }
    TwoArguments(EXP, base, exp, A(V(0), Church(base)), A(Church(exp), Church(base)));
    ChurchFun(exp, Church(base));
    Chain(Binary(EXP, Church(base), Church(exp)), A(Church(exp), Church(base)), L(Iter(Church(base), exp, V(0))));
  }

  /** Numerals iterated on a variable build powers. */
  lemma {:induction false} IterPower(base: nat, exp: nat)
    requires exp >= 1
    ensures Reduces(Iter(Church(base), exp, V(0)), L(Iter(V(1), Power(base, exp), V(0))))
  {
    var m := Church(base);
    if exp == 1 {
      ChurchFun(base, V(0));
      assert Power(base, 1) == base * Power(base, 0) == base;
      assert Iter(m, 1, V(0)) == A(m, V(0)) by { assert Iter(m, 0, V(0)) == V(0); }
    } else {
      var k := Power(base, exp - 1);
      var p := L(Iter(V(1), k, V(0)));
      IterPower(base, exp - 1);
      Stay(m);
      Both(m, m, Iter(m, exp - 1, V(0)), p);
      ChurchFun(base, p);
      IterShift(V(1), k, V(0), 1, 1);
      var step := L(Iter(V(2), k, V(0)));
      forall z ensures Reduces(A(step, z), Iter(V(1), k, z)) {
        IterSub(V(2), k, V(0), 0, z);
        ShiftNone(z, 0);
        Single(A(step, z), Iter(V(1), k, z));
      }
      IterOf(step, base, k);
      Under(Iter(step, base, V(0)), Iter(V(1), base * k, V(0)));
      Chain(A(m, p), L(Iter(step, base, V(0))), L(Iter(V(1), base * k, V(0))));
      Chain(Iter(m, exp, V(0)), A(m, p), L(Iter(V(1), base * k, V(0))));
    }
  }

  /** The exp combinator computes powers for positive exponents. */
  lemma ExpReduces(base: nat, exp: nat)
    requires exp >= 1
    ensures Reduces(Binary(EXP, Church(base), Church(exp)), Church(Power(base, exp)))
  {
    ExpOpens(base, exp);
    IterPower(base, exp);
    Under(Iter(Church(base), exp, V(0)), L(Iter(V(1), Power(base, exp), V(0))));
    Chain(Binary(EXP, Church(base), Church(exp)), L(Iter(Church(base), exp, V(0))), Church(Power(base, exp)));
  }

  /** With exponent zero the combinator ends in the identity, a normal form that is no numeral. */
  lemma ExpOfZero(base: nat)
    ensures Reduces(Binary(EXP, Church(base), Church(0)), L(V(0))) && Normal(L(V(0)))
    ensures forall n :: Church(n) != L(V(0))
  {
    ExpOpens(base, 0);
    assert Iter(Church(base), 0, V(0)) == V(0);
  }

  // ----------------------------------------------------------------- sum of squares

  function Sq(i: nat): nat {
    i * i
  }

  function SumOfSquares(n: nat): nat {
    if n == 0 then 0 else SumOfSquares(n - 1) + Sq(n)
  }

  lemma {:induction false} SumOfSquaresClosed(n: nat)
    ensures 6 * SumOfSquares(n) == n * (n + 1) * (2 * n + 1)
  {
    if n > 0 { SumOfSquaresClosed(n - 1); }
  }

  /** `add i^2 (add (i+1)^2 (... n^2))` */
  function SquaresFrom(i: nat, n: nat): Term
    requires i <= n
    decreases n - i
  {
    if i == n then Church(Sq(n)) else Binary(ADD, Church(Sq(i)), SquaresFrom(i + 1, n))
  }

  function SumFrom(i: nat, n: nat): nat
    requires i <= n
    decreases n - i
  {
    if i == n then Sq(n) else Sq(i) + SumFrom(i + 1, n)
  }

  lemma {:induction false} SumFromSplit(i: nat, n: nat)
    requires i <= n
    ensures SumOfSquares(i) + SumFrom(i, n) == SumOfSquares(n) + Sq(i)
    decreases n - i
  {
    if i < n { SumFromSplit(i + 1, n); }
  }

  /** The chain of additions reduces to the sum. */
  lemma {:induction false} SquaresReduce(i: nat, n: nat)
    requires i <= n
    ensures Reduces(SquaresFrom(i, n), Church(SumFrom(i, n)))
    decreases n - i
  {
    hide Reduces, Church, Sq;
    if i == n {
      Stay(Church(Sq(n)));
    } else {
      SquaresReduce(i + 1, n);
      var head, rest := A(ADD, Church(Sq(i))), SumFrom(i + 1, n);
      Stay(head);
      Both(head, head, SquaresFrom(i + 1, n), Church(rest));
      AddReduces(Sq(i), rest);
      Chain(SquaresFrom(i, n), A(head, Church(rest)), Church(Sq(i) + rest));
    }
  }

  lemma SumOfSquaresReduces(n: nat)
    requires n >= 1
    ensures Reduces(SquaresFrom(1, n), Church(n * (n + 1) * (2 * n + 1) / 6))
  {
    SquaresReduce(1, n);
    SumFromSplit(1, n);
    assert SumOfSquares(1) == 1 by { assert SumOfSquares(0) == 0; }
    SumOfSquaresClosed(n);
  }
}
