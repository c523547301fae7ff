/** The packaged copy of the layer (Network/Layer.java), whose arrays hold boxed `Double`s.
    Its arithmetic is that of Layer.java, but `new Double[n]` fills an array with nulls,
    not zeros, and the constructor only ever writes weights: the biases, both gradient
    arrays and both velocity arrays stay null, so the first bias `outputs` reads, and the
    first velocity `gradient` reads, throw. */
module BoxedLayers {
  import opened Errors
  import opened Activations
  import Layers
  import Networks
  import BoxedDataPoints

  datatype BoxedLayer = BoxedLayer(
    scheme: Layers.Addressing,
    inNodes: nat,
    outNodes: nat,
    weights: seq<Option<real>>,
    weightGradient: seq<Option<real>>,
    weightVelocities: seq<Option<real>>,
    biases: seq<Option<real>>,
    biasesGradient: seq<Option<real>>,
    biasesVelocities: seq<Option<real>>)

  /** The arrays have the lengths the constructor allocates. */
  predicate BoxedValid(b: BoxedLayer)
  {
    && |b.weights| == b.inNodes * b.outNodes
    && |b.weightGradient| == |b.weights|
    && |b.weightVelocities| == |b.weights|
    && |b.biases| == b.outNodes
    && |b.biasesGradient| == b.outNodes
    && |b.biasesVelocities| == b.outNodes
  }

  /** No entry of `s` is null. */
  predicate AllSome(s: seq<Option<real>>)
  {
    forall k :: 0 <= k < |s| ==> s[k].Some?
  }

  /** Every array of the layer is free of nulls. */
  predicate Present(b: BoxedLayer)
  {
    && AllSome(b.weights) && AllSome(b.weightGradient) && AllSome(b.weightVelocities)
    && AllSome(b.biases) && AllSome(b.biasesGradient) && AllSome(b.biasesVelocities)
  }

  // ---------------------------------------------------------------------------------------
  // Boxing

  function BoxAll(s: seq<real>): (r: seq<Option<real>>)
    ensures |r| == |s| && AllSome(r)
    ensures forall k :: 0 <= k < |s| ==> r[k].value == s[k]
  {
    seq(|s|, k requires 0 <= k < |s| => Some(s[k]))
  }

  /** The entry as a `double`, reading a null as 0.0. Only used to name the numbers of a
      boxed layer; the boxed operations never read a null this way. */
  function OrZero(o: Option<real>): real
  {
    if o.Some? then o.value else 0.0
  }

  function OrZeros(s: seq<Option<real>>): (r: seq<real>)
    ensures |r| == |s|
    ensures forall k :: 0 <= k < |s| ==> r[k] == OrZero(s[k])
  {
    seq(|s|, k requires 0 <= k < |s| => OrZero(s[k]))
  }

  /** Unboxing a whole array, front to back: the first null throws. */
  function UnboxAll(s: seq<Option<real>>): (r: Result<seq<real>>)
    ensures r.Ok? <==> AllSome(s)
    ensures r.Err? ==> r.fault == NullPointer
    ensures r.Ok? ==> |r.value| == |s| && forall k :: 0 <= k < |s| ==> s[k] == Some(r.value[k])
  {
    if |s| == 0 then
      Ok([])
    else
      var front :- UnboxAll(s[..|s| - 1]);
      var v :- BoxedDataPoints.Unbox(s[|s| - 1]);
      assert forall k :: 0 <= k < |s| - 1 ==> s[k] == s[..|s| - 1][k];
      Ok(front + [v])
  }

  lemma UnboxAllBoxAll(s: seq<real>)
    ensures UnboxAll(BoxAll(s)) == Ok(s)
  {
    var r := UnboxAll(BoxAll(s));
    assert r.Ok?;
    assert forall k :: 0 <= k < |s| ==> r.value[k] == s[k];
    assert r.value == s;
  }

  lemma OrZerosBoxAll(s: seq<real>)
    ensures OrZeros(BoxAll(s)) == s
  {
  }

  /** The boxed copy of a primitive layer. */
  function Box(l: Layers.Layer): (b: BoxedLayer)
    ensures Present(b)
    ensures Layers.Valid(l) ==> BoxedValid(b)
  {
    BoxedLayer(l.scheme, l.inNodes, l.outNodes, BoxAll(l.weights), BoxAll(l.weightGradient),
               BoxAll(l.weightVelocities), BoxAll(l.biases), BoxAll(l.biasesGradient), BoxAll(l.biasesVelocities))
  }

  /** The primitive layer holding a boxed layer's numbers. */
  function Primitive(b: BoxedLayer): (l: Layers.Layer)
    ensures BoxedValid(b) ==> Layers.Valid(l)
    ensures l.scheme == b.scheme && l.inNodes == b.inNodes && l.outNodes == b.outNodes
  {
    Layers.Layer(b.scheme, b.inNodes, b.outNodes, OrZeros(b.weights), OrZeros(b.weightGradient),
                 OrZeros(b.weightVelocities), OrZeros(b.biases), OrZeros(b.biasesGradient), OrZeros(b.biasesVelocities))
  }

  /** Boxing and reading back are inverse on layers without nulls. */
  lemma BoxPrimitiveRoundTrip(l: Layers.Layer, b: BoxedLayer)
    requires Present(b)
    ensures Primitive(Box(l)) == l
    ensures Box(Primitive(b)) == b
  {
    OrZerosBoxAll(l.weights);
    OrZerosBoxAll(l.weightGradient);
    OrZerosBoxAll(l.weightVelocities);
    OrZerosBoxAll(l.biases);
    OrZerosBoxAll(l.biasesGradient);
    OrZerosBoxAll(l.biasesVelocities);
    assert BoxAll(OrZeros(b.weights)) == b.weights;
    assert BoxAll(OrZeros(b.weightGradient)) == b.weightGradient;
    assert BoxAll(OrZeros(b.weightVelocities)) == b.weightVelocities;
    assert BoxAll(OrZeros(b.biases)) == b.biases;
    assert BoxAll(OrZeros(b.biasesGradient)) == b.biasesGradient;
    assert BoxAll(OrZeros(b.biasesVelocities)) == b.biasesVelocities;
  }

  /** The slot `getWeight`/`setWeight` use: the same addressing as the primitive layer. */
  function Slot(b: BoxedLayer, input: nat, output: nat): (k: nat)
    requires input < b.inNodes && output < b.outNodes
    ensures k < b.inNodes * b.outNodes
    ensures k == Layers.WeightSlot(Primitive(b), input, output)
  {
    Layers.WeightSlot(Primitive(b), input, output)
  }

  // ---------------------------------------------------------------------------------------
  // Construction

  /** The slots `initializeWeights` writes through `setWeight`: one per connection. */
  function WrittenSlots(l: Layers.Layer): set<nat>
  {
    set i: nat, j: nat | i < l.inNodes && j < l.outNodes :: Layers.WeightSlot(l, i, j)
  }

  function Nulls(n: nat): (r: seq<Option<real>>)
    ensures |r| == n && forall k :: 0 <= k < n ==> r[k].None?
  {
    seq(n, _ => None)
  }

  /** The constructor as written: the same sizes, faults and weight values as the primitive
      constructor, but arrays allocated full of nulls; only the weight slots `setWeight`
      writes are filled. */
  function NewBoxedLayer(scheme: Layers.Addressing, inputNodes: int, outputNodes: int, initVals: seq<real>,
                         draw: (nat, nat) -> real): (r: Result<BoxedLayer>)
    ensures r.Ok? <==> Layers.Constructible(inputNodes, outputNodes, initVals)
    ensures r.Err? ==> r.fault == Layers.NewLayer(scheme, inputNodes, outputNodes, initVals, draw).fault
    ensures r.Ok? ==> BoxedValid(r.value) && r.value.scheme == scheme && r.value.outNodes == outputNodes
    ensures r.Ok? && inputNodes >= 0 ==> r.value.inNodes == inputNodes
    ensures r.Ok? ==> forall o :: 0 <= o < r.value.outNodes ==>
      r.value.biases[o].None? && r.value.biasesGradient[o].None? && r.value.biasesVelocities[o].None?
    ensures r.Ok? ==> forall k :: 0 <= k < |r.value.weights| ==>
      r.value.weightGradient[k].None? && r.value.weightVelocities[k].None?
    ensures r.Ok? ==> forall i, j :: 0 <= i < r.value.inNodes && 0 <= j < r.value.outNodes ==>
      r.value.weights[Slot(r.value, i, j)] == Some(Layers.NewLayer(scheme, inputNodes, outputNodes, initVals, draw).value.weights[Slot(r.value, i, j)])
  {
    var l :- Layers.NewLayer(scheme, inputNodes, outputNodes, initVals, draw);
    var n := |l.weights|;
    var written := WrittenSlots(l);
    var w := seq(n, k requires 0 <= k < n => if k in written then Some(l.weights[k]) else None);
    var b := BoxedLayer(l.scheme, l.inNodes, l.outNodes, w, Nulls(n), Nulls(n),
                        Nulls(l.outNodes), Nulls(l.outNodes), Nulls(l.outNodes));
    assert forall i, j :: 0 <= i < l.inNodes && 0 <= j < l.outNodes ==> Slot(b, i, j) in written by {
      forall i, j | 0 <= i < l.inNodes && 0 <= j < l.outNodes
        ensures Slot(b, i, j) in written
      {
        assert Slot(b, i, j) == Layers.WeightSlot(l, i, j);
      }
    }
    Ok(b)
  }

  /** The constructor as evidently intended: the boxed copy of the primitive layer, every
      array filled. */
  function NewBoxedLayerFilled(scheme: Layers.Addressing, inputNodes: int, outputNodes: int, initVals: seq<real>,
                               draw: (nat, nat) -> real): (r: Result<BoxedLayer>)
    ensures r.Ok? <==> Layers.Constructible(inputNodes, outputNodes, initVals)
    ensures r.Ok? ==> BoxedValid(r.value) && Present(r.value)
    ensures r.Ok? ==> Primitive(r.value) == Layers.NewLayer(scheme, inputNodes, outputNodes, initVals, draw).value
  {
    var l :- Layers.NewLayer(scheme, inputNodes, outputNodes, initVals, draw);
    BoxPrimitiveRoundTrip(l, Box(l));
    Ok(Box(l))
  }

  // ---------------------------------------------------------------------------------------
  // Forward pass

  /** The bias of `output` plus the first `n` terms of the loop over inputs, unboxing as the
      source does: the bias first, then for each input its index, the input and the weight. */
  function BoxedPartial(b: BoxedLayer, x: seq<Option<real>>, output: nat, n: nat): (r: Result<real>)
    requires BoxedValid(b) && output < b.outNodes && n <= b.inNodes
    ensures r.Ok? <==>
      && b.biases[output].Some? && n <= |x|
      && forall k :: 0 <= k < n ==> x[k].Some? && b.weights[Slot(b, k, output)].Some?
    ensures r.Err? ==> r.fault == NullPointer || r.fault == IndexOutOfBounds
    ensures r.Err? && n <= |x| ==> r.fault == NullPointer
    ensures b.biases[output].None? ==> r == Err(NullPointer)
    ensures r.Ok? && b.inNodes <= |x| ==>
      r.value == Layers.PartialWeightedInput(Primitive(b), OrZeros(x), output, n)
  {
    if n == 0 then
      BoxedDataPoints.Unbox(b.biases[output])
    else
      var acc :- BoxedPartial(b, x, output, n - 1);
      if n - 1 >= |x| then
        Err(IndexOutOfBounds)
      else
        var xi :- BoxedDataPoints.Unbox(x[n - 1]);
        var w :- BoxedDataPoints.Unbox(b.weights[Slot(b, n - 1, output)]);
        Ok(acc + xi * w)
  }

  /** Output `o`'s whole weighted sum can be read: its bias, and for every input the input
      and the weight. */
  predicate ReadsCleanly(b: BoxedLayer, x: seq<Option<real>>, o: nat)
    requires BoxedValid(b) && o < b.outNodes
  {
    b.biases[o].Some? && b.inNodes <= |x| &&
    forall k :: 0 <= k < b.inNodes ==> x[k].Some? && b.weights[Slot(b, k, o)].Some?
  }

  /** The loop over outputs `0 .. m-1`, each over every input. */
  function BoxedSums(b: BoxedLayer, x: seq<Option<real>>, m: nat): (r: Result<seq<real>>)
    requires BoxedValid(b) && m <= b.outNodes
    ensures r.Ok? <==> forall o :: 0 <= o < m ==> ReadsCleanly(b, x, o)
    ensures r.Err? ==> r.fault == NullPointer || r.fault == IndexOutOfBounds
    ensures m > 0 && b.biases[0].None? ==> r == Err(NullPointer)
    ensures r.Ok? ==> |r.value| == m
    ensures r.Ok? && b.inNodes <= |x| ==> forall o :: 0 <= o < m ==>
      r.value[o] == Layers.PartialWeightedInput(Primitive(b), OrZeros(x), o, b.inNodes)
  {
    if m == 0 then
      Ok([])
    else
      var prev :- BoxedSums(b, x, m - 1);
      var z := BoxedPartial(b, x, m - 1, b.inNodes);
      if z.Err? then
        assert !ReadsCleanly(b, x, m - 1);
        Err(z.fault)
      else
        assert ReadsCleanly(b, x, m - 1);
        Ok(prev + [z.value])
  }

  /** `outputs(inputs)` of the boxed layer: the weighted sums, then the activation loop
      writing back into the same array; the result is an array of boxed values. It throws
      exactly when a bias, an input or a weight it reads is null (or the input is short). */
  function BoxedOutputs(b: BoxedLayer, act: Activation, x: seq<Option<real>>): (r: Result<seq<Option<real>>>)
    requires BoxedValid(b)
    ensures r.Ok? <==> forall o :: 0 <= o < b.outNodes ==> ReadsCleanly(b, x, o)
    ensures r.Err? ==> r.fault == NullPointer || r.fault == IndexOutOfBounds
    ensures b.outNodes > 0 && b.biases[0].None? ==> r == Err(NullPointer)
    ensures r.Ok? ==>
      && Layers.Accepts(Primitive(b), OrZeros(x))
      && r.value == BoxAll(Layers.Outputs(Primitive(b), act, OrZeros(x)))
  {
    var z :- BoxedSums(b, x, b.outNodes);
    var l := Primitive(b);
    assert b.outNodes > 0 ==> ReadsCleanly(b, x, 0);
    assert z == Layers.WeightedInputs(l, OrZeros(x)) by {
      if b.outNodes > 0 {
        forall o | 0 <= o < b.outNodes
          ensures z[o] == Layers.WeightedInputs(l, OrZeros(x))[o]
        {
          Layers.PartialWeightedInputIsSum(l, OrZeros(x), o, l.inNodes);
          assert Layers.WeightedTerms(l, OrZeros(x), o)[..l.inNodes] == Layers.WeightedTerms(l, OrZeros(x), o);
        }
      }
    }
    Ok(BoxAll(Layers.ActivateInPlace(act, z, 0)))
  }

  /** A layer fresh from the constructor as written cannot compute: with an output to
      compute, `outputs` throws on the null first bias, whatever the input. */
  lemma FreshBoxedLayerThrows(scheme: Layers.Addressing, inputNodes: int, outputNodes: int, initVals: seq<real>,
                              draw: (nat, nat) -> real, act: Activation, x: seq<Option<real>>,
                              learnRate: real, regularization: real, momentum: real)
    requires NewBoxedLayer(scheme, inputNodes, outputNodes, initVals, draw).Ok? && outputNodes >= 1
    ensures BoxedOutputs(NewBoxedLayer(scheme, inputNodes, outputNodes, initVals, draw).value, act, x) == Err(NullPointer)
    ensures BoxedGradient(NewBoxedLayer(scheme, inputNodes, outputNodes, initVals, draw).value,
                          learnRate, regularization, momentum) == Err(NullPointer)
  {
    var b := NewBoxedLayer(scheme, inputNodes, outputNodes, initVals, draw).value;
    assert b.biases[0].None?;
    assert !AllSome(b.biases);
  }

  /** The constructor as evidently intended computes what the primitive layer computes. */
  lemma FilledBoxedLayerComputes(scheme: Layers.Addressing, inputNodes: int, outputNodes: int, initVals: seq<real>,
                                 draw: (nat, nat) -> real, act: Activation, x: seq<real>)
    requires NewBoxedLayerFilled(scheme, inputNodes, outputNodes, initVals, draw).Ok?
    requires Layers.Accepts(Layers.NewLayer(scheme, inputNodes, outputNodes, initVals, draw).value, x)
    ensures BoxedOutputs(NewBoxedLayerFilled(scheme, inputNodes, outputNodes, initVals, draw).value, act, BoxAll(x))
         == Ok(BoxAll(Layers.Outputs(Layers.NewLayer(scheme, inputNodes, outputNodes, initVals, draw).value, act, x)))
  {
    var l := Layers.NewLayer(scheme, inputNodes, outputNodes, initVals, draw).value;
    BoxedOutputsOfBoxed(l, act, x);
  }

  /** On a boxed copy of a primitive layer and a boxed input, the boxed `outputs` returns
      the boxed primitive outputs. */
  lemma BoxedOutputsOfBoxed(l: Layers.Layer, act: Activation, x: seq<real>)
    requires Layers.Valid(l) && Layers.Accepts(l, x)
    ensures BoxedOutputs(Box(l), act, BoxAll(x)) == Ok(BoxAll(Layers.Outputs(l, act, x)))
  {
    var b := Box(l);
    BoxPrimitiveRoundTrip(l, b);
    OrZerosBoxAll(x);
    forall o | 0 <= o < b.outNodes
      ensures ReadsCleanly(b, BoxAll(x), o)
    {
    }
  }

  // ---------------------------------------------------------------------------------------
  // The update step

  /** `gradient(learnRate, regularization, momentum)` of the boxed layer: the primitive
      update, reading every weight, velocity and gradient and every bias, bias velocity and
      bias gradient. Every fault on the way is a null being unboxed, so where the first one
      occurs does not change the outcome. */
  function BoxedGradient(b: BoxedLayer, learnRate: real, regularization: real, momentum: real): (r: Result<BoxedLayer>)
    requires BoxedValid(b)
    ensures r.Ok? <==> Present(b)
    ensures r.Err? ==> r.fault == NullPointer
    ensures r.Ok? ==> BoxedValid(r.value) && Present(r.value)
    ensures r.Ok? ==> Primitive(r.value) == Layers.Gradient(Primitive(b), learnRate, regularization, momentum)
  {
    var w :- UnboxAll(b.weights);
    var wv :- UnboxAll(b.weightVelocities);
    var wg :- UnboxAll(b.weightGradient);
    var bs :- UnboxAll(b.biases);
    var bv :- UnboxAll(b.biasesVelocities);
    var bg :- UnboxAll(b.biasesGradient);
    var l := Layers.Layer(b.scheme, b.inNodes, b.outNodes, w, wg, wv, bs, bg, bv);
    assert l == Primitive(b) by {
      BoxPrimitiveRoundTrip(l, b);
      assert w == OrZeros(b.weights) && wv == OrZeros(b.weightVelocities) && wg == OrZeros(b.weightGradient);
      assert bs == OrZeros(b.biases) && bv == OrZeros(b.biasesVelocities) && bg == OrZeros(b.biasesGradient);
    }
    var g := Layers.Gradient(l, learnRate, regularization, momentum);
    BoxPrimitiveRoundTrip(g, Box(g));
    Ok(Box(g))
  }

  // ---------------------------------------------------------------------------------------
  // The boxed network's forward pass

  /** `forwardPropogation` of the boxed network: each layer's boxed outputs feed the next. */
  function BoxedForward(layers: seq<BoxedLayer>, act: Activation, x: seq<Option<real>>): (r: Result<seq<Option<real>>>)
    requires forall i :: 0 <= i < |layers| ==> BoxedValid(layers[i])
    ensures |layers| == 0 ==> r == Ok(x)
    ensures r.Err? ==> r.fault == NullPointer || r.fault == IndexOutOfBounds
    ensures |layers| > 0 && BoxedValid(layers[0]) && layers[0].outNodes > 0 && layers[0].biases[0].None? ==>
      r == Err(NullPointer)
    decreases |layers|
  {
    if |layers| == 0 then
      Ok(x)
    else
      var y :- BoxedOutputs(layers[0], act, x);
      BoxedForward(layers[1..], act, y)
  }

  /** The boxed copies of a stack of layers. */
  function BoxLayers(layers: seq<Layers.Layer>): (r: seq<BoxedLayer>)
    requires Networks.AllValid(layers)
    ensures |r| == |layers|
    ensures forall i :: 0 <= i < |layers| ==> r[i] == Box(layers[i]) && BoxedValid(r[i])
  {
    seq(|layers|, i requires 0 <= i < |layers| => Box(layers[i]))
  }

  /** On boxed copies of primitive layers the boxed forward pass is the primitive one. */
  lemma {:induction false} BoxedForwardOfBoxed(layers: seq<Layers.Layer>, act: Activation, x: seq<real>)
    requires Networks.AllValid(layers)
    ensures var r := BoxedForward(BoxLayers(layers), act, BoxAll(x));
      && (r.Ok? <==> Networks.Forward(layers, act, x).Ok?)
      && (r.Ok? ==> r.value == BoxAll(Networks.Forward(layers, act, x).value))
    decreases |layers|
  {
    if |layers| > 0 {
      var b := Box(layers[0]);
      if Layers.Accepts(layers[0], x) {
        BoxedOutputsOfBoxed(layers[0], act, x);
        var y := Layers.Outputs(layers[0], act, x);
        BoxedForwardOfBoxed(layers[1..], act, y);
        assert BoxLayers(layers)[1..] == BoxLayers(layers[1..]);
      } else {
        BoxPrimitiveRoundTrip(layers[0], b);
        assert !ReadsCleanly(b, BoxAll(x), 0);
      }
    }
  }
}
