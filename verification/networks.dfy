/** The network (Network.java, and its boxed copy Network/Network.java, which computes the
    same values): construction from a list of layer sizes, forward propagation, the
    per-example loss, the batch cost and classification. Training lives in NetworkTraining. */
module Networks {
  import opened Errors
  import opened Sums
  import opened Activations
  import opened Layers
  import Costs
  import DataPoints

  /** The per-example scratch of every layer, in layer order (`NetworkData`). */
  type NetworkData = seq<LayerData>

  /** The layers, and the pool of per-example scratch records `learn` keeps between calls
      (`None` until the first call). */
  datatype Network = Network(layers: seq<Layer>, pool: Option<seq<NetworkData>>)

  predicate AllValid(layers: seq<Layer>)
  {
    forall i :: 0 <= i < |layers| ==> Valid(layers[i])
  }

  /** Each layer has as many inputs as the previous one has outputs. */
  predicate Chained(layers: seq<Layer>)
  {
    forall i :: 0 <= i < |layers| - 1 ==> layers[i].outNodes == layers[i + 1].inNodes
  }

  predicate WellFormed(layers: seq<Layer>)
  {
    AllValid(layers) && Chained(layers)
  }

  // ---------------------------------------------------------------------------------------
  // Construction

  /** Layer `i` of the constructor's loop can be built: its initializer arguments exist and
      the layer constructor accepts its sizes. */
  predicate Buildable(sizes: seq<int>, initVals: seq<seq<real>>, i: nat)
    requires i + 1 < |sizes|
  {
    i < |initVals| && Constructible(sizes[i], sizes[i + 1], initVals[i])
  }

  /** What building layer `i` throws: reading a missing row of initializer arguments comes
      first, then whatever the layer constructor throws. */
  function BuildFault(sizes: seq<int>, initVals: seq<seq<real>>, i: nat): Fault
    requires i + 1 < |sizes|
  {
    if i >= |initVals| then IndexOutOfBounds
    else if sizes[i] * sizes[i + 1] < 0 || sizes[i + 1] < 0 then NegativeArraySize
    else IndexOutOfBounds
  }

  /** Layer `i`, among the first `n`, is the first the constructor's loop cannot build. */
  predicate FirstUnbuildable(sizes: seq<int>, initVals: seq<seq<real>>, i: nat, n: nat)
    requires n < |sizes|
  {
    && i < n
    && !Buildable(sizes, initVals, i)
    && forall j :: 0 <= j < i ==> Buildable(sizes, initVals, j)
  }

  /** The constructor's loop over its first `n` layers; `draw(i, a, b)` is the initializer's
      value for input `a` and output `b` of layer `i`. */
  function BuildLayers(scheme: Addressing, sizes: seq<int>, initVals: seq<seq<real>>,
                       draw: (nat, nat, nat) -> real, n: nat): (r: Result<seq<Layer>>)
    requires n < |sizes|
    ensures r.Ok? <==> forall i :: 0 <= i < n ==> Buildable(sizes, initVals, i)
    ensures r.Err? ==> exists i :: FirstUnbuildable(sizes, initVals, i, n) && r.fault == BuildFault(sizes, initVals, i)
    ensures r.Ok? ==> |r.value| == n && AllValid(r.value)
    ensures r.Ok? ==> forall i :: 0 <= i < n ==>
      && r.value[i].scheme == scheme
      && r.value[i].outNodes == sizes[i + 1]
      && (sizes[i] >= 0 ==> r.value[i].inNodes == sizes[i])
  {
    if n == 0 then
      Ok([])
    else
      var prefix :- BuildLayers(scheme, sizes, initVals, draw, n - 1);
      if n - 1 >= |initVals| then
        assert FirstUnbuildable(sizes, initVals, n - 1, n);
        Err(IndexOutOfBounds)
      else
        var layer := NewLayer(scheme, sizes[n - 1], sizes[n], initVals[n - 1], (a: nat, b: nat) => draw(n - 1, a, b));
        if layer.Err? then
          assert FirstUnbuildable(sizes, initVals, n - 1, n);
          Err(layer.fault)
        else
          var r := prefix + [layer.value];
          assert r[n - 1] == layer.value;
          assert forall i :: 0 <= i < n - 1 ==> r[i] == prefix[i];
          Ok(r)
  }

  /** The constructor: one layer per consecutive pair of sizes, the input layer not being a
      layer of its own. An empty size list throws when the layer array is allocated. */
  function NewNetwork(scheme: Addressing, sizes: seq<int>, initVals: seq<seq<real>>,
                      draw: (nat, nat, nat) -> real): (r: Result<Network>)
    ensures |sizes| == 0 ==> r == Err(NegativeArraySize)
    ensures r.Ok? <==> |sizes| > 0 && forall i :: 0 <= i < |sizes| - 1 ==> Buildable(sizes, initVals, i)
    ensures r.Ok? ==> WellFormed(r.value.layers) && |r.value.layers| == |sizes| - 1 && r.value.pool.None?
    ensures r.Ok? ==> forall i :: 0 <= i < |sizes| - 1 ==>
      r.value.layers[i].outNodes == sizes[i + 1] && (sizes[i] >= 0 ==> r.value.layers[i].inNodes == sizes[i])
  {
    if |sizes| == 0 then
      Err(NegativeArraySize)
    else
      var layers :- BuildLayers(scheme, sizes, initVals, draw, |sizes| - 1);
      assert Chained(layers) by {
        forall i | 0 <= i < |layers| - 1
          ensures layers[i].outNodes == layers[i + 1].inNodes
        {
          assert Buildable(sizes, initVals, i);
        }
      }
      Ok(Network(layers, None))
  }

  /** The static `initializeWeights` helper: row `i` holds the sizes of layer `i`'s two ends,
      the fan-in and fan-out the Xavier initializer scales by. */
  function InitializeWeightsTable(sizes: seq<int>): (r: Result<seq<seq<real>>>)
    ensures |sizes| == 0 ==> r == Err(NegativeArraySize)
    ensures |sizes| > 0 ==> r.Ok? && |r.value| == |sizes| - 1
    ensures r.Ok? ==> forall i :: 0 <= i < |r.value| ==> r.value[i] == [sizes[i] as real, sizes[i + 1] as real]
  {
    if |sizes| == 0 then
      Err(NegativeArraySize)
    else
      Ok(seq(|sizes| - 1, i requires 0 <= i < |sizes| - 1 => [sizes[i] as real, sizes[i + 1] as real]))
  }

  /** The helper's table always satisfies the constructor: with it, building succeeds when
      every size is non-negative. */
  lemma TableBuildsNetwork(scheme: Addressing, sizes: seq<int>, draw: (nat, nat, nat) -> real)
    requires |sizes| > 0 && forall i :: 0 <= i < |sizes| ==> sizes[i] >= 0
    ensures NewNetwork(scheme, sizes, InitializeWeightsTable(sizes).value, draw).Ok?
  {
    var table := InitializeWeightsTable(sizes).value;
    forall i | 0 <= i < |sizes| - 1
      ensures Buildable(sizes, table, i)
    {
      assert |table[i]| == 2;
    }
  }

  // ---------------------------------------------------------------------------------------
  // Forward propagation

  /** `forwardPropogation`: feed the input through every layer in order. A layer whose
      input is too short throws when it reads past the end. */
  function Forward(layers: seq<Layer>, act: Activation, x: seq<real>): (r: Result<seq<real>>)
    requires AllValid(layers)
    ensures r.Err? ==> r.fault == IndexOutOfBounds
    ensures |layers| == 0 ==> r == Ok(x)
    ensures r.Ok? && |layers| > 0 ==> |r.value| == layers[|layers| - 1].outNodes
    decreases |layers|
  {
    if |layers| == 0 then
      Ok(x)
    else if !Accepts(layers[0], x) then
      Err(IndexOutOfBounds)
    else
      Forward(layers[1..], act, Outputs(layers[0], act, x))
  }

  /** In a chained network only the first layer can reject its input: every later layer gets
      exactly as many values as it has inputs. */
  lemma {:induction false} ForwardFailsOnlyAtInput(layers: seq<Layer>, act: Activation, x: seq<real>)
    requires WellFormed(layers) && |layers| > 0
    ensures Forward(layers, act, x).Ok? <==> Accepts(layers[0], x)
    decreases |layers|
  {
    if |layers| > 1 && Accepts(layers[0], x) {
      var rest := layers[1..];
      assert WellFormed(rest) by {
        forall i | 0 <= i < |rest| - 1
          ensures rest[i].outNodes == rest[i + 1].inNodes
        {
          assert layers[i + 1].outNodes == layers[i + 2].inNodes;
        }
      }
      var y := Outputs(layers[0], act, x);
      assert Accepts(rest[0], y);
      ForwardFailsOnlyAtInput(rest, act, y);
    }
  }

  // ---------------------------------------------------------------------------------------
  // Loss and cost

  /** `outCost`: the squared error of one output. */
  function OutCost(actual: real, expected: real): (r: real)
    ensures r >= 0.0
    ensures r == 0.0 <==> actual == expected
  {
    Costs.SquareSign(actual - expected);
    Costs.Square(actual - expected)
  }

  /** The summed squared errors of an output vector against an expected vector at least as
      long. */
  function SquaredError(outputs: seq<real>, expected: seq<real>): (r: real)
    requires |outputs| <= |expected|
    ensures r >= 0.0
    ensures r == 0.0 <==> outputs == expected[..|outputs|]
  {
    var terms := seq(|outputs|, i requires 0 <= i < |outputs| => OutCost(outputs[i], expected[i]));
    assert NonNegative(terms);
    SumNonNegative(terms);
    SumZeroIff(terms);
    assert (forall i :: 0 <= i < |terms| ==> terms[i] == 0.0) <==> outputs == expected[..|outputs|] by {
      if forall i :: 0 <= i < |terms| ==> terms[i] == 0.0 {
        forall i | 0 <= i < |outputs|
          ensures outputs[i] == expected[..|outputs|][i]
        {
          assert terms[i] == 0.0;
        }
      }
    }
    Sum(terms)
  }

  /** The network's loss sums the full squared error, twice what the cost function reports:
      the cost function halves it. */
  lemma SquaredErrorIsTwiceCost(outputs: seq<real>, expected: seq<real>)
    requires |outputs| <= |expected|
    ensures SquaredError(outputs, expected) == 2.0 * Costs.Cost(outputs, expected).value
  {
    var terms := seq(|outputs|, i requires 0 <= i < |outputs| => OutCost(outputs[i], expected[i]));
    assert terms == Costs.SquaredErrors(outputs, expected);
  }

  /** `loss`: the squared error of the network's output for one input. Reading an expected
      value past the end throws. */
  function Loss(net: Network, act: Activation, x: seq<real>, expected: seq<real>): (r: Result<real>)
    requires AllValid(net.layers)
    ensures r.Ok? <==> Forward(net.layers, act, x).Ok? && |Forward(net.layers, act, x).value| <= |expected|
    ensures r.Err? ==> r.fault == IndexOutOfBounds
    ensures r.Ok? ==> r.value >= 0.0
    ensures r.Ok? ==> (r.value == 0.0 <==> Forward(net.layers, act, x).value == expected[..|Forward(net.layers, act, x).value|])
    ensures r.Ok? ==> r.value == SquaredError(Forward(net.layers, act, x).value, expected)
    ensures r.Ok? ==> r.value == 2.0 * Costs.Cost(Forward(net.layers, act, x).value, expected).value
  {
    var outputs :- Forward(net.layers, act, x);
    if |outputs| > |expected| then
      Err(IndexOutOfBounds)
    else
      SquaredErrorIsTwiceCost(outputs, expected);
      Ok(SquaredError(outputs, expected))
  }

  /** The losses of the first `n` examples, in order; the first example that throws decides
      the outcome. */
  function Losses(net: Network, act: Activation, inputs: seq<seq<real>>, expected: seq<seq<real>>, n: nat): (r: Result<seq<real>>)
    requires AllValid(net.layers) && n <= |inputs|
    ensures r.Ok? <==> n <= |expected| && forall i :: 0 <= i < n ==> Loss(net, act, inputs[i], expected[i]).Ok?
    ensures r.Ok? ==> |r.value| == n && NonNegative(r.value)
    ensures r.Ok? ==> forall i :: 0 <= i < n ==> r.value[i] == Loss(net, act, inputs[i], expected[i]).value
  {
    if n == 0 then
      Ok([])
    else
      var prefix :- Losses(net, act, inputs, expected, n - 1);
      if n - 1 >= |expected| then
        Err(IndexOutOfBounds)
      else
        var loss :- Loss(net, act, inputs[n - 1], expected[n - 1]);
        Ok(prefix + [loss])
  }

  /** `cost`: the mean loss over a batch. An empty batch divides zero by zero, which yields no
      number. */
  function Cost(net: Network, act: Activation, inputs: seq<seq<real>>, expected: seq<seq<real>>): (r: Result<real>)
    requires AllValid(net.layers)
    ensures |inputs| == 0 ==> r == Err(NotFinite)
    ensures r.Ok? <==> |inputs| > 0 && Losses(net, act, inputs, expected, |inputs|).Ok?
    ensures r.Ok? ==> r.value >= 0.0
    ensures r.Ok? ==> (r.value == 0.0 <==> forall i :: 0 <= i < |inputs| ==> Loss(net, act, inputs[i], expected[i]).value == 0.0)
    ensures r.Ok? ==> r.value == Sum(Losses(net, act, inputs, expected, |inputs|).value) / (|inputs| as real)
  {
    var losses :- Losses(net, act, inputs, expected, |inputs|);
    if |inputs| == 0 then
      Err(NotFinite)
    else
      var total := Sum(losses);
      SumNonNegative(losses);
      SumZeroIff(losses);
      MeanSign(total, |inputs|);
      Ok(total / (|inputs| as real))
  }

  lemma MeanSign(total: real, count: nat)
    requires total >= 0.0 && count > 0
    ensures total / (count as real) >= 0.0
    ensures total / (count as real) == 0.0 <==> total == 0.0
    ensures (total / (count as real)) * (count as real) == total
  {
    var mean := total / (count as real);
    assert total == mean * (count as real);
    assert mean < 0.0 ==> (-mean) * (count as real) > 0.0;
  }

  // ---------------------------------------------------------------------------------------
  // Classification

  /** `m` is the first position of a maximum of `s`. */
  predicate IsFirstMax(s: seq<real>, m: nat)
  {
    && m < |s|
    && (forall j :: 0 <= j < |s| ==> s[j] <= s[m])
    && (forall j :: 0 <= j < m ==> s[j] < s[m])
  }

  /** The first maximum is unique. */
  lemma FirstMaxUnique(s: seq<real>, m1: nat, m2: nat)
    requires IsFirstMax(s, m1) && IsFirstMax(s, m2)
    ensures m1 == m2
  {
    assert s[m1] == s[m2];
  }

  /** `arrayMax`: scan left to right, moving only on a strictly larger value, so ties keep
      the first position; an empty array yields 0. */
  method ArrayMax(s: seq<real>) returns (m: nat)
    ensures |s| > 0 ==> IsFirstMax(s, m)
    ensures |s| == 0 ==> m == 0
  {
    m := 0;
    var i := 0;
    while i < |s|
      invariant 0 <= i <= |s|
      invariant |s| > 0 ==> m < |s| && m <= i
      invariant |s| == 0 ==> m == 0
      invariant forall j :: 0 <= j < i ==> s[j] <= s[m]
      invariant forall j :: 0 <= j < m ==> s[j] < s[m]
    {
      if s[i] > s[m] {
        m := i;
      }
      i := i + 1;
    }
  }

  /** `classify`: the index of the first largest output, together with the outputs. */
  method Classify(net: Network, act: Activation, x: seq<real>) returns (r: Result<(nat, seq<real>)>)
    requires AllValid(net.layers)
    ensures r.Ok? <==> Forward(net.layers, act, x).Ok?
    ensures r.Err? ==> r.fault == IndexOutOfBounds
    ensures r.Ok? ==> r.value.1 == Forward(net.layers, act, x).value
    ensures r.Ok? && |r.value.1| > 0 ==> IsFirstMax(r.value.1, r.value.0)
    ensures r.Ok? && |r.value.1| == 0 ==> r.value.0 == 0
  {
    var outputs := Forward(net.layers, act, x);
    if outputs.Err? {
      return Err(outputs.fault);
    }
    var id := ArrayMax(outputs.value);
    return Ok((id, outputs.value));
  }

  /** Classifying an example's own one-hot vector recovers its label. */
  lemma OneHotArgMaxIsLabel(labelIndex: int, numLabels: int, m: nat)
    requires 0 <= labelIndex < numLabels
    requires IsFirstMax(DataPoints.CreateOneHot(labelIndex, numLabels).value, m)
    ensures m == labelIndex
  {
    var v := DataPoints.CreateOneHot(labelIndex, numLabels).value;
    assert IsFirstMax(v, labelIndex) by {
      forall j | 0 <= j < |v|
        ensures v[j] <= v[labelIndex]
      {
        assert v[j] == 1.0 || v[j] == 0.0;
      }
    }
    FirstMaxUnique(v, m, labelIndex);
  }
}
