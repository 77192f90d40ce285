/** Lot identifiers as the engine prints them: "{symbol}-Cycle{c}-Lot{n}". */
module LotNames {

  function Digit(n: nat): char
    requires n < 10
  {
    ['0', '1', '2', '3', '4', '5', '6', '7', '8', '9'][n]
  }

  function Decimal(n: nat): string {
    if n < 10 then [Digit(n)] else Decimal(n / 10) + [Digit(n % 10)]
  }

  function LotName(symbol: string, cycle: nat, number: nat): string {
    symbol + "-Cycle" + Decimal(cycle) + "-Lot" + Decimal(number)
  }

  lemma {:induction false} DecimalShape(n: nat)
    ensures |Decimal(n)| >= 1 && '-' !in Decimal(n)
    ensures n < 10 <==> |Decimal(n)| == 1
  {
    if n >= 10 { DecimalShape(n / 10); }
  }

  lemma {:induction false} DecimalInjective(a: nat, b: nat)
    requires Decimal(a) == Decimal(b)
    ensures a == b
  {
    DecimalShape(a);
    DecimalShape(b);
    if a >= 10 {
      var x, y := Decimal(a), Decimal(b);
      assert x[..|x| - 1] == Decimal(a / 10) && y[..|y| - 1] == Decimal(b / 10);
      assert x[|x| - 1] == Digit(a % 10) && y[|y| - 1] == Digit(b % 10);
      DecimalInjective(a / 10, b / 10);
    }
  }

  /** Text before the first occurrence of a separator determines itself. */
  lemma SplitAtSeparator(a: string, b: string, s: string, t: string, c: char)
    requires c !in a && c !in b
    requires a + [c] + s == b + [c] + t
    ensures a == b && s == t
  {
    var whole := a + [c] + s;
    assert whole[|a|] == c && whole[|b|] == c;
    assert forall i :: 0 <= i < |a| ==> whole[i] == a[i];
    assert forall i :: 0 <= i < |b| ==> whole[i] == b[i];
    assert |a| == |b|;
    assert a == whole[..|a|] == b;
    assert s == whole[|a| + 1..] == t;
  }

  /** Within one symbol the printed name determines cycle and lot number. */
  lemma LotNameInjective(symbol: string, c: nat, n: nat, c': nat, n': nat)
    requires LotName(symbol, c, n) == LotName(symbol, c', n')
    ensures c == c' && n == n'
  {
    var head := symbol + "-Cycle";
    var x, y := Decimal(c) + ['-'] + ("Lot" + Decimal(n)), Decimal(c') + ['-'] + ("Lot" + Decimal(n'));
    assert LotName(symbol, c, n) == head + x && LotName(symbol, c', n') == head + y;
    assert x == (head + x)[|head|..] == (head + y)[|head|..] == y;
    DecimalShape(c);
    DecimalShape(c');
    SplitAtSeparator(Decimal(c), Decimal(c'), "Lot" + Decimal(n), "Lot" + Decimal(n'), '-');
    assert Decimal(n) == ("Lot" + Decimal(n))[3..] == ("Lot" + Decimal(n'))[3..] == Decimal(n');
    DecimalInjective(c, c');
    DecimalInjective(n, n');
  }
}
