/** The cost strategy (Functions/Cost.java): mean squared error and its derivative, and the
    factory that is meant to hand it out. */
module Costs {
  import opened Errors
  import opened Sums

  datatype CostFunctionType = MeanSquaredError

  /** The implementations of the cost interface; the source has exactly one. */
  datatype CostFunction = MeanSquaredErrorCost

  /** The factory as written: every branch of its switch returns null. */
  function GetCostFunctionAsWritten(t: CostFunctionType): (r: Option<CostFunction>)
    ensures r.None?
  {
    None
  }

  /** The factory as evidently intended: the requested type is bound to its implementation. */
  function GetCostFunction(t: CostFunctionType): CostFunction
  {
    match t
    case MeanSquaredError => MeanSquaredErrorCost
  }

  function Square(x: real): real
  {
    x * x
  }

  /** The squared errors of the first `|p|` outputs. */
  function SquaredErrors(p: seq<real>, e: seq<real>): (r: seq<real>)
    requires |p| <= |e|
    ensures |r| == |p|
    ensures forall i :: 0 <= i < |p| ==> r[i] == Square(p[i] - e[i])
    ensures NonNegative(r)
  {
    var r := seq(|p|, i requires 0 <= i < |p| => Square(p[i] - e[i]));
    assert NonNegative(r) by {
      forall i | 0 <= i < |p|
        ensures r[i] >= 0.0
      {
        SquareSign(p[i] - e[i]);
      }
    }
    r
  }

  /** Half the total squared error; the loop runs over the predictions and reads the expected
      value at the same index, so a shorter expected vector is an index fault. */
  function Cost(p: seq<real>, e: seq<real>): (r: Result<real>)
    ensures r.Ok? <==> |p| <= |e|
    ensures r.Err? ==> r.fault == IndexOutOfBounds
    ensures r.Ok? ==> r.value >= 0.0
    ensures r.Ok? ==> (r.value == 0.0 <==> p == e[..|p|])
  {
    if |e| < |p| then
      Err(IndexOutOfBounds)
    else
      var sq := SquaredErrors(p, e);
      SumNonNegative(sq);
      SumZeroIff(sq);
      assert (forall i :: 0 <= i < |sq| ==> sq[i] == 0.0) <==> p == e[..|p|] by {
        if forall i :: 0 <= i < |sq| ==> sq[i] == 0.0 {
          forall i | 0 <= i < |p|
            ensures p[i] == e[..|p|][i]
          {
            SquareSign(p[i] - e[i]);
          }
          assert p == e[..|p|];
        }
        if p == e[..|p|] {
          forall i | 0 <= i < |sq|
            ensures sq[i] == 0.0
          {
            assert p[i] == e[i];
            SquareSign(p[i] - e[i]);
          }
        }
      }
      Ok(0.5 * Sum(sq))
  }

  /** A square is never negative, and it is zero exactly at zero. */
  lemma SquareSign(x: real)
    ensures Square(x) >= 0.0
    ensures x != 0.0 ==> Square(x) > 0.0
    ensures x == 0.0 ==> Square(x) == 0.0
  {
    var z := Square(x);
    if x > 0.0 {
      PositiveProduct(x, x, z);
    } else if x < 0.0 {
      assert z == (-x) * (-x);
      PositiveProduct(-x, -x, z);
    }
  }

  /** The derivative of one output's cost with respect to the prediction. */
  function CostDerivative(predicted: real, expected: real): (r: real)
    ensures r == 0.0 <==> predicted == expected
    ensures r > 0.0 <==> predicted > expected
  {
    predicted - expected
  }

  /** A call of `costDerivative` through a possibly-null cost-function reference. */
  function CallCostDerivative(f: Option<CostFunction>, predicted: real, expected: real): (r: Result<real>)
    ensures r.Ok? <==> f.Some?
    ensures r.Err? ==> r.fault == NullPointer
  {
    match f
    case None => Err(NullPointer)
    case Some(MeanSquaredErrorCost) => Ok(CostDerivative(predicted, expected))
  }

  /** As written, every backpropagation step that asks the layer's cost function for a
      derivative dereferences null. */
  lemma AsWrittenCostCallFails(t: CostFunctionType, predicted: real, expected: real)
    ensures CallCostDerivative(GetCostFunctionAsWritten(t), predicted, expected) == Err(NullPointer)
  {
  }

  /** The derivative is the exact partial derivative of the cost: moving prediction `i` by `h`
      changes the cost by `h * CostDerivative(p[i], e[i]) + h*h/2`. */
  lemma {:induction false} CostDerivativeIsPartial(p: seq<real>, e: seq<real>, i: nat, h: real)
    requires |p| <= |e| && i < |p|
    ensures Cost(p[i := p[i] + h], e).Ok? && Cost(p, e).Ok?
    ensures Cost(p[i := p[i] + h], e).value
         == Cost(p, e).value + h * CostDerivative(p[i], e[i]) + h * h / 2.0
  {
    var q := p[i := p[i] + h];
    var before := SquaredErrors(p, e);
    var after := SquaredErrors(q, e);
    var d := p[i] - e[i];
    forall j | 0 <= j < |p|
      ensures after[j] == before[i := Square(d + h)][j]
    {
      if j == i {
        assert q[j] - e[j] == d + h;
      }
    }
    assert after == before[i := Square(d + h)];
    SumUpdate(before, i, Square(d + h));
    var was, now, hd, hh := Square(d), Square(d + h), h * d, h * h;
    SquareShift(d, h);
    assert now == was + 2.0 * hd + hh;
    assert before[i] == was;
    assert Sum(after) == Sum(before) - was + now;
    assert Cost(q, e).value == 0.5 * Sum(after);
    assert Cost(p, e).value == 0.5 * Sum(before);
    assert CostDerivative(p[i], e[i]) == d;
    ScaleEqual(h, d, CostDerivative(p[i], e[i]));
    HalfShift(Cost(q, e).value, Cost(p, e).value, Sum(before), Sum(after), was, now,
              h, CostDerivative(p[i], e[i]), hd, hh);
  }

  lemma SquareShift(d: real, h: real)
    ensures Square(d + h) == Square(d) + 2.0 * (h * d) + h * h
  {
  }

  /** Equal factors give equal products; stated apart so the solver does not expand them. */
  lemma ScaleEqual(h: real, x: real, y: real)
    requires x == y
    ensures h * x == h * y
  {
  }

  /** The linear step of `CostDerivativeIsPartial`, with every product named. */
  lemma HalfShift(costAfter: real, costBefore: real, total: real, updated: real, was: real, now: real,
                  h: real, d: real, hd: real, hh: real)
    requires costAfter == 0.5 * updated && costBefore == 0.5 * total
    requires updated == total - was + now && now == was + 2.0 * hd + hh
    requires hd == h * d && hh == h * h
    ensures costAfter == costBefore + h * d + h * h / 2.0
  {
  }

  /** The factory as corrected hands out a cost function whose derivative call succeeds and
      is the partial derivative of its cost. */
  lemma BoundCostIsConsistent(t: CostFunctionType, p: seq<real>, e: seq<real>, i: nat, h: real)
    requires |p| <= |e| && i < |p|
    ensures CallCostDerivative(Some(GetCostFunction(t)), p[i], e[i]).Ok?
    ensures Cost(p[i := p[i] + h], e).Ok? && Cost(p, e).Ok?
    ensures Cost(p[i := p[i] + h], e).value
         == Cost(p, e).value + h * CallCostDerivative(Some(GetCostFunction(t)), p[i], e[i]).value + h * h / 2.0
  {
    CostDerivativeIsPartial(p, e, i, h);
  }
}
