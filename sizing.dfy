/** Position sizing: how many shares one entry order asks for. */
module Sizing {

  /**
   * Python's `round(x, 0)`: the nearest integer, with a tie going to the
   * even neighbour.
   */
  function RoundHalfEven(x: real): (q: int)
    ensures -0.5 <= q as real - x <= 0.5
    ensures (q as real - x == 0.5 || x - q as real == 0.5) ==> q % 2 == 0
  {
    var f := x.Floor;
    var d := x - f as real;
    if d < 0.5 then f
    else if d > 0.5 then f + 1
    else if f % 2 == 0 then f
    else f + 1
  }

  /** The two properties of RoundHalfEven determine its result. */
  lemma RoundHalfEvenUnique(x: real, q: int)
    requires -0.5 <= q as real - x <= 0.5
    requires (q as real - x == 0.5 || x - q as real == 0.5) ==> q % 2 == 0
    ensures q == RoundHalfEven(x)
  {
  }

  /** Result of `position_sizing`: the cash it read and the share quantity. */
  datatype Sizing = Sizing(cash: real, quantity: int)

  /** `position_sizing`: the cash read from the account and the share count to order. */
  function PositionSizing(cash: real, cashAtRisk: real, lastPrice: real): (s: Sizing)
  {
    if lastPrice <= 0.0 then Sizing(0.0, 0)
    else Sizing(cash, RoundHalfEven(cash * cashAtRisk / lastPrice))
  }

  /**
   * A non-positive price yields (0, 0) whatever the cash and risk fraction;
   * otherwise the cash is returned unchanged with the share count
   * `cash * cashAtRisk / price` rounded to the nearest integer, a tie going
   * to the even one.
   */
  lemma SizingRule(cash: real, cashAtRisk: real, lastPrice: real)
    ensures var s := PositionSizing(cash, cashAtRisk, lastPrice);
      && (lastPrice <= 0.0 ==> s == Sizing(0.0, 0))
      && (lastPrice > 0.0 ==>
           && s.cash == cash
           && -0.5 <= s.quantity as real - cash * cashAtRisk / lastPrice <= 0.5
           && ((s.quantity as real - cash * cashAtRisk / lastPrice == 0.5
                || cash * cashAtRisk / lastPrice - s.quantity as real == 0.5) ==> s.quantity % 2 == 0))
  {
  }

  /** With non-negative cash and risk fraction the quantity is never negative. */
  lemma SizingNonNegative(cash: real, cashAtRisk: real, lastPrice: real)
    requires cash >= 0.0 && cashAtRisk >= 0.0
    ensures PositionSizing(cash, cashAtRisk, lastPrice).quantity >= 0
  {
    if lastPrice > 0.0 {
      var x := cash * cashAtRisk / lastPrice;
      assert cash * cashAtRisk >= 0.0;
      assert x >= 0.0;
    }
  }

  /**
   * The cost of the sized order differs from the cash put at risk by at most
   * half a share's price (rounding may go up as well as down).
   */
  lemma SizingWithinHalfShare(cash: real, cashAtRisk: real, lastPrice: real)
    requires lastPrice > 0.0
    ensures var q := PositionSizing(cash, cashAtRisk, lastPrice).quantity;
      -lastPrice / 2.0 <= q as real * lastPrice - cash * cashAtRisk <= lastPrice / 2.0
  {
    var x := cash * cashAtRisk / lastPrice;
    var q := PositionSizing(cash, cashAtRisk, lastPrice).quantity;
    var e := q as real - x;
    assert -0.5 <= e <= 0.5;
    assert x * lastPrice == cash * cashAtRisk;
    assert q as real * lastPrice - cash * cashAtRisk == e * lastPrice;
    assert e * lastPrice <= 0.5 * lastPrice by {
      assert (0.5 - e) * lastPrice >= 0.0;
    }
    assert -0.5 * lastPrice <= e * lastPrice by {
      assert (e + 0.5) * lastPrice >= 0.0;
    }
  }
}
