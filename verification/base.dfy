/** Option and Result datatypes shared by every module of the model. A Python
    `None` return becomes `None`; a raised exception becomes `Err`. */
module Base {

  datatype Option<+T> = None | Some(value: T) {

    /** The value held in `Some`, or `default` for `None` (Python's `x or default`
        when the only falsy value is `None`). */
    function GetOr(default: T): T {
      match this
      case Some(v) => v
      case None => default
    }
  }

  datatype Result<+T> = Ok(value: T) | Err(message: string) {

    predicate IsFailure() {
      Err?
    }

    function PropagateFailure<U>(): Result<U>
      requires Err?
    {
      Err(message)
    }

    function Extract(): T
      requires Ok?
    {
      value
    }
  }

  function Min(a: int, b: int): int { if a <= b then a else b }

  function Max(a: int, b: int): int { if a <= b then b else a }

  /** Python's `s[:n]` for `n >= 0`. */
  function Take<T>(s: seq<T>, n: nat): (r: seq<T>)
    ensures |r| == Min(n, |s|)
    ensures r == s[..|r|]
  {
    if n >= |s| then s else s[..n]
  }

  /** `max(lo, min(hi, x))`, the clamp the score formulas use. */
  function Clamp(lo: int, hi: int, x: int): (r: int)
    requires lo <= hi
    ensures lo <= r <= hi
    ensures lo <= x <= hi ==> r == x
  {
    Max(lo, Min(hi, x))
  }

  /** Whether `n` is a multiple of `d`, by repeated subtraction; for a positive
      `d` this is Python's `n % d == 0` (see `MultipleOfIff`). */
  predicate MultipleOf(n: int, d: int)
    requires d > 0
    decreases if n < 0 then -n else n
  {
    if n == 0 then true
    else if -d < n < d then false
    else if n > 0 then MultipleOf(n - d, d)
    else MultipleOf(n + d, d)
  }

  /** Subtracting the divisor keeps the remainder. */
  lemma ShiftMod(n: int, d: int)
    requires d > 0
    ensures (n - d) % d == n % d
  {
    var q := n / d;
    var r := n % d;
    assert n == q * d + r;
    assert n - d == (q - 1) * d + r;
    DivModUnique(n - d, d, q - 1, r);
  }

  /** A non-zero multiple of `d` is at least `d` away from zero. */
  lemma {:induction false} MulSign(x: int, d: int)
    requires d > 0
    ensures x >= 1 ==> x * d >= d
    ensures x <= -1 ==> x * d <= -d
    decreases if x < 0 then -x else x
  {
    if x > 1 {
      MulSign(x - 1, d);
    } else if x < -1 {
      MulSign(x + 1, d);
    }
  }

  /** The quotient and remainder of Euclidean division are unique. */
  lemma DivModUnique(a: int, d: int, q: int, r: int)
    requires d > 0 && 0 <= r < d && a == q * d + r
    ensures a % d == r
  {
    var q' := a / d;
    assert (q - q') * d == a % d - r;
    MulSign(q - q', d);
  }

  /** A non-zero number strictly between `-d` and `d` is not a multiple of `d`. */
  lemma SmallNotMultiple(n: int, d: int)
    requires d > 0 && -d < n < d && n != 0
    ensures n % d != 0
  {
    if n > 0 {
      DivModUnique(n, d, 0, n);
    } else {
      DivModUnique(n, d, -1, n + d);
    }
  }

  /** One subtraction step keeps the agreement of the two tests. */
  lemma MultipleOfStep(n: int, d: int)
    requires d > 0 && (n >= d || n <= -d)
    requires n >= d ==> (MultipleOf(n - d, d) <==> (n - d) % d == 0)
    requires n <= -d ==> (MultipleOf(n + d, d) <==> (n + d) % d == 0)
    ensures MultipleOf(n, d) <==> n % d == 0
  {
    if n >= d {
      ShiftMod(n, d);
    } else {
      ShiftMod(n + d, d);
    }
  }

  /** The subtraction test agrees with the remainder test. */
  lemma {:induction false} MultipleOfIff(n: int, d: int)
    requires d > 0
    ensures MultipleOf(n, d) <==> n % d == 0
    decreases if n < 0 then -n else n
  {
    if n == 0 {
    } else if -d < n < d {
      SmallNotMultiple(n, d);
    } else if n > 0 {
      MultipleOfIff(n - d, d);
      MultipleOfStep(n, d);
    } else {
      MultipleOfIff(n + d, d);
      MultipleOfStep(n, d);
    }
  }
}
