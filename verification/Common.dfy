/** Vocabulary shared by the models: optional values, outcomes that may raise, and
    whole-number reals (NSE quantities are share counts held in floats). */
module Common {

  datatype Option<+T> = None | Some(value: T)

  datatype Result<+T, +E> = Ok(value: T) | Err(error: E)

  function Min(a: real, b: real): real { if a <= b then a else b }

  function Max(a: real, b: real): real { if a >= b then a else b }

  function Abs(a: real): real { if a < 0.0 then -a else a }

  predicate Whole(x: real) { x.Floor as real == x }

  lemma WholeArithmetic(a: real, b: real)
    requires Whole(a) && Whole(b)
    ensures Whole(a + b) && Whole(a - b)
  {
    WholeInt(a.Floor + b.Floor, a + b);
    WholeInt(a.Floor - b.Floor, a - b);
  }

  lemma WholeInt(n: int, x: real)
    requires x == n as real
    ensures Whole(x)
  {}

  lemma WholeFromOne(a: real)
    requires Whole(a) && a > 0.0
    ensures a >= 1.0
  {
    assert a.Floor >= 1;
  }

  /** Multiplication by a non-negative factor keeps order. */
  lemma ScaleOrder(k: real, a: real, b: real)
    requires k >= 0.0 && a <= b
    ensures k * a <= k * b
  {}
}
