/** Training (`learn` and `updateGradients` of Network.java and Network/Network.java): the
    scratch pool, the forward pass that records every layer's inputs, sums and activations,
    backpropagation from the output layer down, and the batch update. The source starts one
    thread per example and does not wait for them; the model runs the examples one after the
    other, in batch order, before the update. */
module NetworkTraining {
  import opened Errors
  import opened Activations
  import opened Layers
  import opened Networks
  import opened Sums
  import DataPoints

  /** A scratch record as `new LayerData(layer)` allocates it; the inputs are attached by
      the forward pass. */
  function FreshLayerData(l: Layer): (d: LayerData)
    ensures Shaped(l, d)
    ensures forall o :: 0 <= o < l.outNodes ==> d.weightedInputs[o] == 0.0 && d.activations[o] == 0.0 && d.nodeValues[o] == 0.0
  {
    LayerData([], Zeros(l.outNodes), Zeros(l.outNodes), Zeros(l.outNodes))
  }

  /** One scratch record per layer, each shaped for its layer. */
  predicate ShapedData(layers: seq<Layer>, nd: NetworkData)
  {
    |nd| == |layers| && forall i :: 0 <= i < |layers| ==> Shaped(layers[i], nd[i])
  }

  /** Every record's inputs are long enough for its layer to read. */
  predicate Fed(layers: seq<Layer>, nd: NetworkData)
    requires |nd| == |layers|
  {
    forall i :: 0 <= i < |layers| ==> Accepts(layers[i], nd[i].inputs)
  }

  predicate PoolShaped(layers: seq<Layer>, pool: seq<NetworkData>)
  {
    forall k :: 0 <= k < |pool| ==> ShapedData(layers, pool[k])
  }

  /** `new NetworkData(layers)`. */
  function FreshNetworkData(layers: seq<Layer>): (nd: NetworkData)
    ensures ShapedData(layers, nd)
    ensures forall i :: 0 <= i < |layers| ==> nd[i] == FreshLayerData(layers[i])
  {
    seq(|layers|, i requires 0 <= i < |layers| => FreshLayerData(layers[i]))
  }

  /** The pool `learn` hands out: reused when one of the right size exists, otherwise
      replaced by fresh records, one per example. */
  function PreparePool(layers: seq<Layer>, pool: Option<seq<NetworkData>>, n: nat): (r: seq<NetworkData>)
    requires pool.Some? ==> PoolShaped(layers, pool.value)
    ensures |r| == n && PoolShaped(layers, r)
    ensures pool.Some? && |pool.value| == n ==> r == pool.value
    ensures pool.None? || |pool.value| != n ==> forall k :: 0 <= k < n ==> r[k] == FreshNetworkData(layers)
  {
    if pool.None? || |pool.value| != n then seq(n, _ => FreshNetworkData(layers)) else pool.value
  }

  // ---------------------------------------------------------------------------------------
  // Forward pass with recording

  /** The training forward pass: every layer runs the recording overload of `outputs` on its
      own scratch record, and each record's activations are the next record's inputs. It
      fails exactly where the plain forward pass fails. */
  function ForwardScratch(layers: seq<Layer>, act: Activation, x: seq<real>, nd: NetworkData): (r: Result<(NetworkData, seq<real>)>)
    requires AllValid(layers) && ShapedData(layers, nd)
    ensures r.Ok? <==> Forward(layers, act, x).Ok?
    ensures r.Err? ==> r.fault == IndexOutOfBounds
    ensures r.Ok? ==> ShapedData(layers, r.value.0) && Fed(layers, r.value.0)
    ensures r.Ok? && |layers| == 0 ==> r.value.1 == x
    ensures r.Ok? && |layers| > 0 ==> r.value.0[0].inputs == x && r.value.1 == r.value.0[|layers| - 1].activations
    ensures r.Ok? ==> forall i, j {:trigger r.value.0[i], r.value.0[j]} :: 0 <= i < |layers| - 1 && j == i + 1 ==>
      r.value.0[j].inputs == r.value.0[i].activations
    decreases |layers|
  {
    if |layers| == 0 then
      Ok(([], x))
    else if !Accepts(layers[0], x) then
      Err(IndexOutOfBounds)
    else
      var step := OutputsTraining(layers[0], act, x, nd[0]);
      ForwardOkDependsOnLength(layers[1..], act, step.1, Outputs(layers[0], act, x));
      var rest :- ForwardScratch(layers[1..], act, step.1, nd[1..]);
      var r := [step.0] + rest.0;
      assert forall i :: 1 <= i < |layers| ==> r[i] == rest.0[i - 1];
      assert ShapedData(layers, r) && Fed(layers, r) by {
        forall i | 1 <= i < |layers|
          ensures Shaped(layers[i], r[i]) && Accepts(layers[i], r[i].inputs)
        {
          assert layers[i] == layers[1..][i - 1];
        }
      }
      Ok((r, rest.1))
  }

  /** What the forward pass writes into each record: its sums and activations, computed from
      the inputs it was given; the node values are left as they were. */
  lemma {:induction false} ForwardScratchRecords(layers: seq<Layer>, act: Activation, x: seq<real>, nd: NetworkData)
    requires AllValid(layers) && ShapedData(layers, nd) && ForwardScratch(layers, act, x, nd).Ok?
    ensures var out := ForwardScratch(layers, act, x, nd).value.0;
      forall i :: 0 <= i < |layers| ==>
        && out[i].nodeValues == nd[i].nodeValues
        && out[i].weightedInputs == WeightedInputs(layers[i], out[i].inputs)
        && out[i].activations == Activate(act, out[i].weightedInputs)
    decreases |layers|
  {
    if |layers| > 0 {
      var step := OutputsTraining(layers[0], act, x, nd[0]);
      var rest := ForwardScratch(layers[1..], act, step.1, nd[1..]);
      ForwardScratchRecords(layers[1..], act, step.1, nd[1..]);
      var out := ForwardScratch(layers, act, x, nd).value.0;
      assert out == [step.0] + rest.value.0;
      forall i | 1 <= i < |layers|
        ensures out[i] == rest.value.0[i - 1] && layers[i] == layers[1..][i - 1] && nd[i] == nd[1..][i - 1]
      {
      }
    }
  }

  /** Whether the forward pass gets through depends on the input's length alone. */
  lemma {:induction false} ForwardOkDependsOnLength(layers: seq<Layer>, act: Activation, x1: seq<real>, x2: seq<real>)
    requires AllValid(layers) && |x1| == |x2|
    ensures Forward(layers, act, x1).Ok? == Forward(layers, act, x2).Ok?
    decreases |layers|
  {
    if |layers| > 0 && Accepts(layers[0], x1) {
      ForwardOkDependsOnLength(layers[1..], act, Outputs(layers[0], act, x1), Outputs(layers[0], act, x2));
    }
  }

  /** With a pointwise activation the recording forward pass returns what the plain one
      returns. */
  lemma {:induction false} ForwardScratchAgrees(layers: seq<Layer>, act: Activation, x: seq<real>, nd: NetworkData)
    requires AllValid(layers) && ShapedData(layers, nd) && Pointwise(act)
    ensures var r := ForwardScratch(layers, act, x, nd);
      r.Ok? ==> r.value.1 == Forward(layers, act, x).value
    decreases |layers|
  {
    if |layers| > 0 && Accepts(layers[0], x) {
      OutputsOverloadsAgree(layers[0], act, x, nd[0]);
      ForwardScratchAgrees(layers[1..], act, OutputsTraining(layers[0], act, x, nd[0]).1, nd[1..]);
    }
  }

  // ---------------------------------------------------------------------------------------
  // Backpropagation

  /** `after` is `before` with nothing but its gradient arrays changed. */
  predicate GradientsOnly(before: Layer, after: Layer)
  {
    SameShape(before, after) && after == before.(weightGradient := after.weightGradient, biasesGradient := after.biasesGradient)
  }

  /** Two stacks of layers, the second differing from the first only in gradients. */
  predicate SameBut(before: seq<Layer>, after: seq<Layer>)
  {
    |before| == |after| && forall i :: 0 <= i < |before| ==> GradientsOnly(before[i], after[i])
  }

  /** Changing nothing but gradients keeps a stack well formed and keeps every scratch
      record fitting it. */
  lemma SameButKeepsShape(before: seq<Layer>, after: seq<Layer>, pool: seq<NetworkData>)
    requires SameBut(before, after) && WellFormed(before) && PoolShaped(before, pool)
    ensures WellFormed(after) && PoolShaped(after, pool)
  {
    forall i | 0 <= i < |after| - 1
      ensures after[i].outNodes == after[i + 1].inNodes
    {
      assert before[i].outNodes == before[i + 1].inNodes;
      assert GradientsOnly(before[i], after[i]) && GradientsOnly(before[i + 1], after[i + 1]);
    }
    forall k, i | 0 <= k < |pool| && 0 <= i < |after|
      ensures Shaped(after[i], pool[k][i])
    {
      assert Shaped(before[i], pool[k][i]) && GradientsOnly(before[i], after[i]);
    }
  }

  /** Gradient-only changes compose. */
  lemma SameButCompose(a: seq<Layer>, b: seq<Layer>, c: seq<Layer>)
    requires SameBut(a, b) && SameBut(b, c)
    ensures SameBut(a, c)
  {
    forall i | 0 <= i < |a|
      ensures GradientsOnly(a[i], c[i])
    {
      assert GradientsOnly(a[i], b[i]) && GradientsOnly(b[i], c[i]);
    }
  }

  /** A record fits a layer exactly when it fits that layer with other gradients. */
  lemma SameButShapedData(a: seq<Layer>, b: seq<Layer>, nd: NetworkData)
    requires SameBut(a, b)
    ensures ShapedData(a, nd) == ShapedData(b, nd)
  {
    if |nd| == |a| {
      forall i | 0 <= i < |a|
        ensures Shaped(a[i], nd[i]) == Shaped(b[i], nd[i])
      {
        assert GradientsOnly(a[i], b[i]);
      }
    }
  }

  /** The loop over hidden layers `k-1` down to `0`: each record takes its node values from
      the record above, through the weights of the layer above. Records from `k` up are left
      as they are. The source accumulates each layer's gradients before the layer below reads
      its weights; `HiddenNodeValuesReadOnlyWeights` and `UpdateGradients`' frame show the
      order makes no difference, so the accumulation is done afterwards in `Backprop`. */
  function HiddenBackward(layers: seq<Layer>, act: Activation, nd: NetworkData, k: nat): (r: NetworkData)
    requires WellFormed(layers) && ShapedData(layers, nd) && k < |layers|
    ensures ShapedData(layers, r)
    ensures forall i :: 0 <= i < |layers| ==> r[i] == nd[i].(nodeValues := r[i].nodeValues)
    ensures forall i :: k <= i < |layers| ==> r[i] == nd[i]
    ensures forall i, j {:trigger r[i], r[j]} :: 0 <= i < k && j == i + 1 ==>
      r[i] == HiddenNodeValues(layers[i], act, nd[i], layers[j], r[j].nodeValues)
    decreases k
  {
    if k == 0 then
      nd
    else
      var d := HiddenNodeValues(layers[k - 1], act, nd[k - 1], layers[k], nd[k].nodeValues);
      HiddenBackward(layers, act, nd[k - 1 := d], k - 1)
  }

  /** The backward half of `updateGradients`, on records the forward pass has filled: the
      output layer's node values from the expected outputs, every hidden layer's from the one
      above, and every layer's gradients accumulated from its own record. */
  function Backprop(layers: seq<Layer>, act: Activation, nd: NetworkData, expected: seq<real>): (r: (seq<Layer>, NetworkData))
    requires WellFormed(layers) && ShapedData(layers, nd) && Fed(layers, nd)
    requires |layers| > 0 && layers[|layers| - 1].outNodes <= |expected|
    ensures |r.0| == |layers| && ShapedData(layers, r.1) && Fed(layers, r.1)
    ensures forall i :: 0 <= i < |layers| ==> r.1[i] == nd[i].(nodeValues := r.1[i].nodeValues)
    ensures var last := |layers| - 1;
      r.1[last] == OutputNodeValues(layers[last], act, nd[last], expected)
    ensures forall i, j {:trigger r.1[i], r.1[j]} :: 0 <= i < |layers| - 1 && j == i + 1 ==>
      r.1[i] == HiddenNodeValues(layers[i], act, nd[i], layers[j], r.1[j].nodeValues)
    ensures forall i :: 0 <= i < |layers| ==> r.0[i] == UpdateGradients(layers[i], r.1[i])
  {
    var last := |layers| - 1;
    var top := nd[last := OutputNodeValues(layers[last], act, nd[last], expected)];
    var rec := HiddenBackward(layers, act, top, last);
    assert Fed(layers, rec) by {
      forall i | 0 <= i < |layers|
        ensures Accepts(layers[i], rec[i].inputs)
      {
        assert rec[i].inputs == top[i].inputs == nd[i].inputs;
      }
    }
    (seq(|layers|, i requires 0 <= i < |layers| => UpdateGradients(layers[i], rec[i])), rec)
  }

  /** `updateGradients(data, learnData)` for one example: the recording forward pass, then
      backpropagation. No layers at all, an input too short for the first layer and an
      expected vector shorter than the output layer are the ways it throws, all before any
      gradient is touched. */
  function TrainExample(layers: seq<Layer>, act: Activation, data: DataPoints.DataPoint, nd: NetworkData): (r: Result<(seq<Layer>, NetworkData)>)
    requires WellFormed(layers) && ShapedData(layers, nd)
    ensures r.Ok? <==> |layers| > 0 && Accepts(layers[0], data.inputs) &&
                       layers[|layers| - 1].outNodes <= |data.expectedOutputs|
    ensures r.Err? ==> r.fault == IndexOutOfBounds
    ensures r.Ok? ==> SameBut(layers, r.value.0) && ShapedData(layers, r.value.1)
  {
    if |layers| == 0 then
      Err(IndexOutOfBounds)
    else
      ForwardFailsOnlyAtInput(layers, act, data.inputs);
      var fwd :- ForwardScratch(layers, act, data.inputs, nd);
      if |data.expectedOutputs| < layers[|layers| - 1].outNodes then
        Err(IndexOutOfBounds)
      else
        var r := Backprop(layers, act, fwd.0, data.expectedOutputs);
        assert SameBut(layers, r.0) by {
          forall i | 0 <= i < |layers|
            ensures GradientsOnly(layers[i], r.0[i])
          {
            assert r.0[i] == UpdateGradients(layers[i], r.1[i]);
          }
        }
        Ok(r)
  }

  /** What one example leaves in its scratch records after the forward pass: the record
      chain of the forward pass, each record holding the raw sums and activations of its own
      inputs. Backpropagation changes only node values, so these survive it. */
  lemma TrainExampleRecords(layers: seq<Layer>, act: Activation, data: DataPoints.DataPoint, nd: NetworkData)
    requires WellFormed(layers) && ShapedData(layers, nd)
    requires |layers| > 0 && Accepts(layers[0], data.inputs)
    requires layers[|layers| - 1].outNodes <= |data.expectedOutputs|
    ensures var r := TrainExample(layers, act, data, nd).value;
      && Fed(layers, r.1)
      && r.1[0].inputs == data.inputs
      && (forall i, j {:trigger r.1[i], r.1[j]} :: 0 <= i < |layers| - 1 && j == i + 1 ==>
            r.1[j].inputs == r.1[i].activations)
      && (forall i :: 0 <= i < |layers| ==>
            && r.1[i].weightedInputs == WeightedInputs(layers[i], r.1[i].inputs)
            && r.1[i].activations == Activate(act, r.1[i].weightedInputs))
  {
    ForwardFailsOnlyAtInput(layers, act, data.inputs);
    var fwd := ForwardScratch(layers, act, data.inputs, nd).value;
    ForwardScratchRecords(layers, act, data.inputs, nd);
    var r := TrainExample(layers, act, data, nd).value;
    assert r == Backprop(layers, act, fwd.0, data.expectedOutputs);
    forall i | 0 <= i < |layers|
      ensures r.1[i].inputs == fwd.0[i].inputs && r.1[i].weightedInputs == fwd.0[i].weightedInputs
      ensures r.1[i].activations == fwd.0[i].activations
    {
      assert r.1[i] == fwd.0[i].(nodeValues := r.1[i].nodeValues);
    }
  }

  /** What backpropagation leaves after one example: the output layer's node values from the
      expected outputs, every hidden layer's from the one above, and every layer's gradients
      accumulated from its own record. */
  lemma TrainExampleNodeValues(layers: seq<Layer>, act: Activation, data: DataPoints.DataPoint, nd: NetworkData)
    requires WellFormed(layers) && ShapedData(layers, nd)
    requires |layers| > 0 && Accepts(layers[0], data.inputs)
    requires layers[|layers| - 1].outNodes <= |data.expectedOutputs|
    ensures var r := TrainExample(layers, act, data, nd).value;
      && r.1[|layers| - 1] == OutputNodeValues(layers[|layers| - 1], act, r.1[|layers| - 1], data.expectedOutputs)
      && (forall i, j {:trigger r.1[i], r.1[j]} :: 0 <= i < |layers| - 1 && j == i + 1 ==>
            r.1[i] == HiddenNodeValues(layers[i], act, r.1[i], layers[j], r.1[j].nodeValues))
      && (forall i :: 0 <= i < |layers| ==> r.0[i] == UpdateGradients(layers[i], r.1[i]))
  {
    assert TrainExample(layers, act, data, nd).Ok?;
  }

  // ---------------------------------------------------------------------------------------
  // What an example's records depend on

  /** A layer's weights are read through the same slots whatever gradients it holds. */
  lemma GetWeightIgnoresGradients(l1: Layer, l2: Layer, input: nat, output: nat)
    requires GradientsOnly(l1, l2) && input < l1.inNodes && output < l1.outNodes
    ensures GetWeight(l1, input, output) == GetWeight(l2, input, output)
  {
    assert l1.weights == l2.weights && WeightSlot(l1, input, output) == WeightSlot(l2, input, output);
  }

  lemma WeightedTermsIgnoreGradients(l1: Layer, l2: Layer, x: seq<real>, output: nat)
    requires GradientsOnly(l1, l2) && output < l1.outNodes && l1.inNodes <= |x|
    ensures WeightedTerms(l1, x, output) == WeightedTerms(l2, x, output)
  {
    forall i | 0 <= i < l1.inNodes
      ensures WeightedTerms(l1, x, output)[i] == WeightedTerms(l2, x, output)[i]
    {
      GetWeightIgnoresGradients(l1, l2, i, output);
    }
  }

  /** The raw sums read a layer's weights and biases, never its gradients. */
  lemma WeightedInputsIgnoreGradients(l1: Layer, l2: Layer, x: seq<real>)
    requires GradientsOnly(l1, l2) && Accepts(l1, x)
    ensures WeightedInputs(l1, x) == WeightedInputs(l2, x)
  {
    forall o | 0 <= o < l1.outNodes
      ensures WeightedInputs(l1, x)[o] == WeightedInputs(l2, x)[o]
    {
      WeightedTermsIgnoreGradients(l1, l2, x, o);
    }
  }

  /** The recording forward pass reads the layers' weights and biases, never their
      gradients: every record it writes, and its output, are the same on both stacks. */
  lemma {:induction false} ForwardScratchIgnoresGradients(layers1: seq<Layer>, layers2: seq<Layer>, act: Activation,
                                                          x: seq<real>, nd: NetworkData)
    requires AllValid(layers1) && SameBut(layers1, layers2) && ShapedData(layers1, nd)
    ensures AllValid(layers2) && ShapedData(layers2, nd)
    ensures ForwardScratch(layers1, act, x, nd) == ForwardScratch(layers2, act, x, nd)
    decreases |layers1|
  {
    SameButShapedData(layers1, layers2, nd);
    assert AllValid(layers2) by {
      forall i | 0 <= i < |layers2|
        ensures Valid(layers2[i])
      {
        assert GradientsOnly(layers1[i], layers2[i]);
      }
    }
    if |layers1| > 0 && Accepts(layers1[0], x) {
      assert GradientsOnly(layers1[0], layers2[0]);
      WeightedInputsIgnoreGradients(layers1[0], layers2[0], x);
      var step := OutputsTraining(layers1[0], act, x, nd[0]);
      assert step == OutputsTraining(layers2[0], act, x, nd[0]);
      assert SameBut(layers1[1..], layers2[1..]) by {
        forall i | 0 <= i < |layers1| - 1
          ensures GradientsOnly(layers1[1..][i], layers2[1..][i])
        {
          assert GradientsOnly(layers1[i + 1], layers2[i + 1]);
        }
      }
      ForwardScratchIgnoresGradients(layers1[1..], layers2[1..], act, step.1, nd[1..]);
    }
  }

  /** A layer's node values read the weights of the layer above and the size of their own
      layer, never gradients. */
  lemma NodeValuesIgnoreGradients(l1: Layer, l2: Layer, act: Activation, d: LayerData,
                                  next1: Layer, next2: Layer, nextNodeValues: seq<real>, expected: seq<real>)
    requires GradientsOnly(l1, l2) && GradientsOnly(next1, next2) && Shaped(l1, d)
    ensures l1.outNodes <= |expected| ==>
      OutputNodeValues(l1, act, d, expected) == OutputNodeValues(l2, act, d, expected)
    ensures l1.outNodes <= next1.inNodes && |nextNodeValues| <= next1.outNodes ==>
      HiddenNodeValues(l1, act, d, next1, nextNodeValues) == HiddenNodeValues(l2, act, d, next2, nextNodeValues)
  {
    if l1.outNodes <= |expected| {
      assert OutputNodeValues(l1, act, d, expected).nodeValues == OutputNodeValues(l2, act, d, expected).nodeValues;
    }
    if l1.outNodes <= next1.inNodes && |nextNodeValues| <= next1.outNodes {
      HiddenNodeValuesReadOnlyWeights(l1, act, d, next1, next2, nextNodeValues);
      assert HiddenNodeValues(l1, act, d, next2, nextNodeValues).nodeValues
          == HiddenNodeValues(l2, act, d, next2, nextNodeValues).nodeValues;
    }
  }

  /** What the hidden loop from `k` leaves in `r`: records from `k` up as they were, and each
      record below taking its node values from the one above. */
  predicate BackwardFrom(layers: seq<Layer>, act: Activation, nd: NetworkData, k: nat, r: NetworkData)
    requires WellFormed(layers) && ShapedData(layers, nd) && k < |layers|
  {
    && ShapedData(layers, r)
    && (forall i :: k <= i < |layers| ==> r[i] == nd[i])
    && (forall i, j {:trigger r[i], r[j]} :: 0 <= i < k && j == i + 1 ==>
          r[i] == HiddenNodeValues(layers[i], act, nd[i], layers[j], r[j].nodeValues))
  }

  /** Two stacks that differ only in gradients leave the same records from `i` up. */
  lemma {:induction false} BackwardAgree(layers1: seq<Layer>, layers2: seq<Layer>, act: Activation, nd: NetworkData,
                                         k: nat, r1: NetworkData, r2: NetworkData, i: nat)
    requires WellFormed(layers1) && WellFormed(layers2) && SameBut(layers1, layers2) && k < |layers1|
    requires ShapedData(layers1, nd) && ShapedData(layers2, nd)
    requires BackwardFrom(layers1, act, nd, k, r1) && BackwardFrom(layers2, act, nd, k, r2)
    requires i <= |layers1|
    ensures forall j :: i <= j < |layers1| ==> r1[j] == r2[j]
    decreases |layers1| - i
  {
    if i < |layers1| {
      BackwardAgree(layers1, layers2, act, nd, k, r1, r2, i + 1);
      if i < k {
        assert GradientsOnly(layers1[i], layers2[i]) && GradientsOnly(layers1[i + 1], layers2[i + 1]);
        assert r1[i + 1] == r2[i + 1];
        NodeValuesIgnoreGradients(layers1[i], layers2[i], act, nd[i], layers1[i + 1], layers2[i + 1], r1[i + 1].nodeValues, []);
      }
    }
  }

  /** The hidden loop of backpropagation computes the same records on both stacks. */
  lemma HiddenBackwardIgnoresGradients(layers1: seq<Layer>, layers2: seq<Layer>, act: Activation, nd: NetworkData, k: nat)
    requires WellFormed(layers1) && SameBut(layers1, layers2) && ShapedData(layers1, nd) && k < |layers1|
    ensures WellFormed(layers2) && ShapedData(layers2, nd)
    ensures HiddenBackward(layers1, act, nd, k) == HiddenBackward(layers2, act, nd, k)
  {
    SameButKeepsShape(layers1, layers2, [nd]);
    assert PoolShaped(layers2, [nd]);
    var r1 := HiddenBackward(layers1, act, nd, k);
    var r2 := HiddenBackward(layers2, act, nd, k);
    BackwardAgree(layers1, layers2, act, nd, k, r1, r2, 0);
    assert r1 == r2;
  }

  /** The records backpropagation leaves are the hidden loop's, run from the output
      layer's node values. */
  lemma BackpropRecordsUnfold(layers: seq<Layer>, act: Activation, nd: NetworkData, expected: seq<real>)
    requires WellFormed(layers) && ShapedData(layers, nd) && Fed(layers, nd)
    requires |layers| > 0 && layers[|layers| - 1].outNodes <= |expected|
    ensures Backprop(layers, act, nd, expected).1
         == HiddenBackward(layers, act, nd[|layers| - 1 := OutputNodeValues(layers[|layers| - 1], act, nd[|layers| - 1], expected)],
                           |layers| - 1)
  {
  }

  /** Backpropagation writes the same records on both stacks. */
  lemma BackpropIgnoresGradients(layers1: seq<Layer>, layers2: seq<Layer>, act: Activation, nd: NetworkData, expected: seq<real>)
    requires WellFormed(layers1) && SameBut(layers1, layers2) && ShapedData(layers1, nd) && Fed(layers1, nd)
    requires |layers1| > 0 && layers1[|layers1| - 1].outNodes <= |expected|
    ensures WellFormed(layers2) && ShapedData(layers2, nd) && Fed(layers2, nd)
    ensures Backprop(layers1, act, nd, expected).1 == Backprop(layers2, act, nd, expected).1
  {
    SameButKeepsShape(layers1, layers2, [nd]);
    assert PoolShaped(layers2, [nd]);
    assert Fed(layers2, nd) by {
      forall i | 0 <= i < |layers2|
        ensures Accepts(layers2[i], nd[i].inputs)
      {
        assert GradientsOnly(layers1[i], layers2[i]);
      }
    }
    BackwardIgnoresGradients(layers1, layers2, act, nd, expected);
    BackpropRecordsUnfold(layers1, act, nd, expected);
    BackpropRecordsUnfold(layers2, act, nd, expected);
  }

  /** The output layer's node values, then the hidden loop, give the same records on both
      stacks. */
  lemma BackwardIgnoresGradients(layers1: seq<Layer>, layers2: seq<Layer>, act: Activation, nd: NetworkData, expected: seq<real>)
    requires WellFormed(layers1) && SameBut(layers1, layers2) && ShapedData(layers1, nd)
    requires |layers1| > 0 && layers1[|layers1| - 1].outNodes <= |expected|
    ensures WellFormed(layers2) && ShapedData(layers2, nd) && |layers2| == |layers1|
    ensures HiddenBackward(layers1, act, nd[|layers1| - 1 := OutputNodeValues(layers1[|layers1| - 1], act, nd[|layers1| - 1], expected)],
                           |layers1| - 1)
         == HiddenBackward(layers2, act, nd[|layers2| - 1 := OutputNodeValues(layers2[|layers2| - 1], act, nd[|layers2| - 1], expected)],
                           |layers2| - 1)
  {
    SameButKeepsShape(layers1, layers2, [nd]);
    assert PoolShaped(layers2, [nd]);
    var last := |layers1| - 1;
    assert GradientsOnly(layers1[last], layers2[last]);
    NodeValuesIgnoreGradients(layers1[last], layers2[last], act, nd[last], layers1[last], layers2[last], [], expected);
    var top := nd[last := OutputNodeValues(layers1[last], act, nd[last], expected)];
    HiddenBackwardIgnoresGradients(layers1, layers2, act, top, last);
  }

  /** Whether one example gets through, and the records it leaves, do not depend on the
      gradients the layers hold: an example of the batch leaves the records it would leave
      running alone on the layers the batch started from. */
  lemma TrainExampleIgnoresGradients(layers1: seq<Layer>, layers2: seq<Layer>, act: Activation,
                                     data: DataPoints.DataPoint, nd: NetworkData)
    requires WellFormed(layers1) && SameBut(layers1, layers2) && ShapedData(layers1, nd)
    ensures WellFormed(layers2) && ShapedData(layers2, nd)
    ensures TrainExample(layers1, act, data, nd).Ok? == TrainExample(layers2, act, data, nd).Ok?
    ensures TrainExample(layers1, act, data, nd).Ok? ==>
      TrainExample(layers1, act, data, nd).value.1 == TrainExample(layers2, act, data, nd).value.1
  {
    SameButKeepsShape(layers1, layers2, [nd]);
    assert PoolShaped(layers2, [nd]);
    TrainsOnSameBut(layers1, layers2, data);
    if Trains(layers1, data) {
      ForwardFailsOnlyAtInput(layers1, act, data.inputs);
      ForwardScratchIgnoresGradients(layers1, layers2, act, data.inputs, nd);
      var fwd := ForwardScratch(layers1, act, data.inputs, nd).value;
      BackpropIgnoresGradients(layers1, layers2, act, fwd.0, data.expectedOutputs);
    }
  }

  /** The record example `data` leaves in scratch record `nd` when it runs alone on these
      layers: what `updateGradients` wrote, or `nd` as it was when the example throws. */
  function ExampleRecord(layers: seq<Layer>, act: Activation, data: DataPoints.DataPoint, nd: NetworkData): (r: NetworkData)
    requires WellFormed(layers) && ShapedData(layers, nd)
    ensures ShapedData(layers, r)
  {
    var t := TrainExample(layers, act, data, nd);
    if t.Ok? then t.value.1 else nd
  }

  /** The record an example that gets through leaves holds its own forward pass and
      backpropagation on `layers`: the chain of inputs from the example's input, each layer's
      raw sums and activations, the output layer's node values from the expected outputs and
      each hidden layer's from the layer above. */
  lemma ExampleRecordContents(layers: seq<Layer>, act: Activation, data: DataPoints.DataPoint, nd: NetworkData)
    requires WellFormed(layers) && ShapedData(layers, nd) && Trains(layers, data)
    ensures var rec := ExampleRecord(layers, act, data, nd);
      && Fed(layers, rec)
      && rec[0].inputs == data.inputs
      && (forall i, j {:trigger rec[i], rec[j]} :: 0 <= i < |layers| - 1 && j == i + 1 ==>
            rec[j].inputs == rec[i].activations
            && rec[i] == HiddenNodeValues(layers[i], act, rec[i], layers[j], rec[j].nodeValues))
      && (forall i :: 0 <= i < |layers| ==>
            && rec[i].weightedInputs == WeightedInputs(layers[i], rec[i].inputs)
            && rec[i].activations == Activate(act, rec[i].weightedInputs))
      && rec[|layers| - 1] == OutputNodeValues(layers[|layers| - 1], act, rec[|layers| - 1], data.expectedOutputs)
  {
    TrainExampleRecords(layers, act, data, nd);
    TrainExampleNodeValues(layers, act, data, nd);
  }

  /** The records the examples of a batch leave, each running alone on `layers` from its own
      pool record. */
  function ExampleRecords(layers: seq<Layer>, act: Activation, batch: seq<DataPoints.DataPoint>, pool: seq<NetworkData>): (r: seq<NetworkData>)
    requires WellFormed(layers) && |pool| == |batch| && PoolShaped(layers, pool)
    ensures |r| == |batch|
    ensures forall k :: 0 <= k < |batch| ==> r[k] == ExampleRecord(layers, act, batch[k], pool[k])
  {
    seq(|batch|, k requires 0 <= k < |batch| => ExampleRecord(layers, act, batch[k], pool[k]))
  }

  // ---------------------------------------------------------------------------------------
  // The batch

  /** Where an example of the batch starts: the layers the earlier examples left, which
      differ from the originals in gradients only, and a scratch record `k` of its own. */
  predicate StepReady(layers: seq<Layer>, state: (seq<Layer>, seq<NetworkData>), k: nat)
  {
    WellFormed(layers) && SameBut(layers, state.0) && PoolShaped(layers, state.1) && k < |state.1|
  }

  /** A batch whose first `n` examples run, one scratch record per example. */
  predicate BatchReady(layers: seq<Layer>, batch: seq<DataPoints.DataPoint>, pool: seq<NetworkData>, n: nat)
  {
    WellFormed(layers) && n <= |batch| == |pool| && PoolShaped(layers, pool)
  }

  /** One example of the batch, on scratch record `k`, applied to the layers the earlier
      examples left. An example that throws ends its own thread and leaves the layers and the
      records as they were. */
  function BatchStep(layers: seq<Layer>, act: Activation, data: DataPoints.DataPoint,
                     state: (seq<Layer>, seq<NetworkData>), k: nat): (r: (seq<Layer>, seq<NetworkData>))
    requires StepReady(layers, state, k)
    ensures SameBut(layers, r.0) && |r.1| == |state.1| && PoolShaped(layers, r.1)
  {
    SameButKeepsShape(layers, state.0, state.1);
    var t := TrainExample(state.0, act, data, state.1[k]);
    if t.Err? then
      state
    else
      SameButCompose(layers, state.0, t.value.0);
      SameButShapedData(layers, state.0, t.value.1);
      (t.value.0, state.1[k := t.value.1])
  }

  /** The examples `0 .. n-1` in order, each on its own scratch record. */
  function RunBatch(layers: seq<Layer>, act: Activation, batch: seq<DataPoints.DataPoint>, pool: seq<NetworkData>, n: nat): (r: (seq<Layer>, seq<NetworkData>))
    requires BatchReady(layers, batch, pool, n)
    ensures SameBut(layers, r.0) && |r.1| == |pool| && PoolShaped(layers, r.1)
  {
    if n == 0 then
      (layers, pool)
    else
      BatchStep(layers, act, batch[n - 1], RunBatch(layers, act, batch, pool, n - 1), n - 1)
  }

  /** An example that gets through `updateGradients` on these layers: the three conditions
      `TrainExample` fails on are absent. They depend only on the layers' shapes. */
  predicate Trains(layers: seq<Layer>, data: DataPoints.DataPoint)
  {
    |layers| > 0 && Accepts(layers[0], data.inputs) && layers[|layers| - 1].outNodes <= |data.expectedOutputs|
  }

  /** What an example adds to the gradient of connection (`input`, `output`) of layer `i`,
      read from the record it left: `inputs[input] * nodeValues[output]`, or nothing when it
      threw. */
  function WeightContribution(layers: seq<Layer>, data: DataPoints.DataPoint, rec: NetworkData,
                              i: nat, input: nat, output: nat): (r: real)
    ensures !Trains(layers, data) ==> r == 0.0
    ensures i < |rec| && input < |rec[i].inputs| ==>
      r == rec[i].inputs[input] * BiasContribution(layers, data, rec, i, output)
  {
    if Trains(layers, data) && i < |rec| && input < |rec[i].inputs| && output < |rec[i].nodeValues|
    then rec[i].inputs[input] * rec[i].nodeValues[output]
    else 0.0
  }

  /** What an example adds to the gradient of bias `output` of layer `i`: its node value, or
      nothing when it threw. */
  function BiasContribution(layers: seq<Layer>, data: DataPoints.DataPoint, rec: NetworkData, i: nat, output: nat): (r: real)
    ensures r != 0.0 ==> Trains(layers, data) && i < |rec| && output < |rec[i].nodeValues|
  {
    if Trains(layers, data) && i < |rec| && output < |rec[i].nodeValues| then rec[i].nodeValues[output] else 0.0
  }

  /** The contributions of examples `0 .. n-1` to one weight gradient. */
  function WeightContributions(layers: seq<Layer>, batch: seq<DataPoints.DataPoint>, recs: seq<NetworkData>,
                               n: nat, i: nat, input: nat, output: nat): seq<real>
    requires n <= |batch| && n <= |recs|
  {
    seq(n, k requires 0 <= k < n => WeightContribution(layers, batch[k], recs[k], i, input, output))
  }

  /** The contributions of examples `0 .. n-1` to one bias gradient. */
  function BiasContributions(layers: seq<Layer>, batch: seq<DataPoints.DataPoint>, recs: seq<NetworkData>,
                             n: nat, i: nat, output: nat): seq<real>
    requires n <= |batch| && n <= |recs|
  {
    seq(n, k requires 0 <= k < n => BiasContribution(layers, batch[k], recs[k], i, output))
  }

  /** Extending the batch by example `n - 1`, whose record alone may have changed, adds that
      example's contribution to the total. */
  lemma WeightContributionsStep(layers: seq<Layer>, batch: seq<DataPoints.DataPoint>, recs: seq<NetworkData>,
                                prevRecs: seq<NetworkData>, n: nat, i: nat, input: nat, output: nat)
    requires 0 < n <= |batch| && n <= |recs| && n - 1 <= |prevRecs|
    requires forall k :: 0 <= k < n - 1 ==> recs[k] == prevRecs[k]
    ensures Sum(WeightContributions(layers, batch, recs, n, i, input, output))
         == Sum(WeightContributions(layers, batch, prevRecs, n - 1, i, input, output))
            + WeightContribution(layers, batch[n - 1], recs[n - 1], i, input, output)
  {
    var s := WeightContributions(layers, batch, recs, n, i, input, output);
    assert s[..n - 1] == WeightContributions(layers, batch, prevRecs, n - 1, i, input, output);
  }

  lemma BiasContributionsStep(layers: seq<Layer>, batch: seq<DataPoints.DataPoint>, recs: seq<NetworkData>,
                              prevRecs: seq<NetworkData>, n: nat, i: nat, output: nat)
    requires 0 < n <= |batch| && n <= |recs| && n - 1 <= |prevRecs|
    requires forall k :: 0 <= k < n - 1 ==> recs[k] == prevRecs[k]
    ensures Sum(BiasContributions(layers, batch, recs, n, i, output))
         == Sum(BiasContributions(layers, batch, prevRecs, n - 1, i, output))
            + BiasContribution(layers, batch[n - 1], recs[n - 1], i, output)
  {
    var s := BiasContributions(layers, batch, recs, n, i, output);
    assert s[..n - 1] == BiasContributions(layers, batch, prevRecs, n - 1, i, output);
  }

  /** Whether an example gets through depends only on the shapes, which the earlier
      examples did not change. */
  lemma TrainsOnSameBut(layers: seq<Layer>, after: seq<Layer>, data: DataPoints.DataPoint)
    requires SameBut(layers, after)
    ensures Trains(layers, data) == Trains(after, data)
  {
    if |layers| > 0 {
      assert GradientsOnly(layers[0], after[0]);
      assert GradientsOnly(layers[|layers| - 1], after[|layers| - 1]);
    }
  }

  /** An example that throws leaves the batch state as it was. */
  lemma BatchStepSkips(layers: seq<Layer>, act: Activation, data: DataPoints.DataPoint,
                       state: (seq<Layer>, seq<NetworkData>), k: nat)
    requires StepReady(layers, state, k)
    requires !Trains(layers, data)
    ensures BatchStep(layers, act, data, state, k) == state
  {
    TrainsOnSameBut(layers, state.0, data);
    SameButKeepsShape(layers, state.0, state.1);
  }

  /** An example that gets through keeps the earlier examples' records, leaves in its own
      one a record its layers accept (`BatchStepRecord` says which), and layer `i`'s gradients
      take that record's contribution. */
  lemma BatchStepTrains(layers: seq<Layer>, act: Activation, data: DataPoints.DataPoint,
                        state: (seq<Layer>, seq<NetworkData>), k: nat, i: nat)
    requires StepReady(layers, state, k)
    requires Trains(layers, data) && i < |layers|
    ensures var r := BatchStep(layers, act, data, state, k);
      && (forall j :: 0 <= j < k ==> r.1[j] == state.1[j])
      && |r.1[k]| == |layers| && Shaped(layers[i], r.1[k][i])
      && Accepts(layers[i], r.1[k][i].inputs)
      && r.0[i] == UpdateGradients(state.0[i], r.1[k][i])
  {
    TrainsOnSameBut(layers, state.0, data);
    SameButKeepsShape(layers, state.0, state.1);
    TrainExampleRecords(state.0, act, data, state.1[k]);
    TrainExampleNodeValues(state.0, act, data, state.1[k]);
    var rec := TrainExample(state.0, act, data, state.1[k]).value.1;
    assert GradientsOnly(layers[i], state.0[i]);
    assert Accepts(state.0[i], rec[i].inputs) && Shaped(state.0[i], rec[i]);
  }

  /** A layer that took an example's record through `updateGradients` gained that
      example's contribution at every weight gradient. */
  lemma TrainedWeightAt(layers: seq<Layer>, data: DataPoints.DataPoint, before: Layer, after: Layer,
                        rec: NetworkData, i: nat, input: nat, output: nat)
    requires Trains(layers, data) && i < |layers| && i < |rec|
    requires input < layers[i].inNodes && output < layers[i].outNodes
    requires GradientsOnly(layers[i], before) && Shaped(layers[i], rec[i]) && Accepts(layers[i], rec[i].inputs)
    requires after == UpdateGradients(before, rec[i])
    ensures after.weightGradient[GetIndex(layers[i], input, output)]
         == before.weightGradient[GetIndex(layers[i], input, output)] + WeightContribution(layers, data, rec, i, input, output)
  {
    UpdateGradientsAt(before, rec[i], input, output);
  }

  /** The same for a bias gradient. */
  lemma TrainedBiasAt(layers: seq<Layer>, data: DataPoints.DataPoint, before: Layer, after: Layer,
                      rec: NetworkData, i: nat, output: nat)
    requires Trains(layers, data) && i < |layers| && i < |rec| && output < layers[i].outNodes
    requires GradientsOnly(layers[i], before) && Shaped(layers[i], rec[i]) && Accepts(layers[i], rec[i].inputs)
    requires after == UpdateGradients(before, rec[i])
    ensures after.biasesGradient[output] == before.biasesGradient[output] + BiasContribution(layers, data, rec, i, output)
  {
  }

  /** Example `m` of the batch, taking the batch state from `before` to `after`, added its
      contribution to the gradient of connection (`input`, `output`) of layer `i`, and
      rewrote none of the earlier examples' records. */
  predicate WeightGrows(layers: seq<Layer>, batch: seq<DataPoints.DataPoint>,
                        before: (seq<Layer>, seq<NetworkData>), after: (seq<Layer>, seq<NetworkData>),
                        m: nat, i: nat, input: nat, output: nat)
  {
    && m < |batch| && m <= |before.1| && m < |after.1|
    && i < |layers| && i < |before.0| && i < |after.0|
    && GetIndex(layers[i], input, output) < |before.0[i].weightGradient|
    && GetIndex(layers[i], input, output) < |after.0[i].weightGradient|
    && (forall j :: 0 <= j < m ==> after.1[j] == before.1[j])
    && after.0[i].weightGradient[GetIndex(layers[i], input, output)]
       == before.0[i].weightGradient[GetIndex(layers[i], input, output)]
          + WeightContribution(layers, batch[m], after.1[m], i, input, output)
  }

  /** The same for the gradient of bias `output` of layer `i`. */
  predicate BiasGrows(layers: seq<Layer>, batch: seq<DataPoints.DataPoint>,
                      before: (seq<Layer>, seq<NetworkData>), after: (seq<Layer>, seq<NetworkData>),
                      m: nat, i: nat, output: nat)
  {
    && m < |batch| && m <= |before.1| && m < |after.1|
    && i < |before.0| && i < |after.0|
    && output < |before.0[i].biasesGradient| && output < |after.0[i].biasesGradient|
    && (forall j :: 0 <= j < m ==> after.1[j] == before.1[j])
    && after.0[i].biasesGradient[output]
       == before.0[i].biasesGradient[output] + BiasContribution(layers, batch[m], after.1[m], i, output)
  }

  /** One example adds to a weight gradient exactly its contribution. */
  lemma BatchStepWeightAt(layers: seq<Layer>, act: Activation, batch: seq<DataPoints.DataPoint>,
                          state: (seq<Layer>, seq<NetworkData>), k: nat, i: nat, input: nat, output: nat)
    requires StepReady(layers, state, k) && k < |batch|
    requires i < |layers| && input < layers[i].inNodes && output < layers[i].outNodes
    ensures WeightGrows(layers, batch, state, BatchStep(layers, act, batch[k], state, k), k, i, input, output)
  {
    var r := BatchStep(layers, act, batch[k], state, k);
    if Trains(layers, batch[k]) {
      BatchStepTrains(layers, act, batch[k], state, k, i);
      TrainedWeightAt(layers, batch[k], state.0[i], r.0[i], r.1[k], i, input, output);
    } else {
      BatchStepSkips(layers, act, batch[k], state, k);
    }
  }

  /** One example adds to a bias gradient exactly its contribution. */
  lemma BatchStepBiasAt(layers: seq<Layer>, act: Activation, batch: seq<DataPoints.DataPoint>,
                        state: (seq<Layer>, seq<NetworkData>), k: nat, i: nat, output: nat)
    requires StepReady(layers, state, k) && k < |batch|
    requires i < |layers| && output < layers[i].outNodes
    ensures BiasGrows(layers, batch, state, BatchStep(layers, act, batch[k], state, k), k, i, output)
  {
    var r := BatchStep(layers, act, batch[k], state, k);
    if Trains(layers, batch[k]) {
      BatchStepTrains(layers, act, batch[k], state, k, i);
      TrainedBiasAt(layers, batch[k], state.0[i], r.0[i], r.1[k], i, output);
    } else {
      BatchStepSkips(layers, act, batch[k], state, k);
    }
  }

  /** Along a run of batch states in which each example adds its contribution, a weight
      gradient ends as its starting value plus the sum of the contributions. */
  lemma {:induction false} WeightChain(layers: seq<Layer>, batch: seq<DataPoints.DataPoint>,
                                       states: seq<(seq<Layer>, seq<NetworkData>)>, n: nat, i: nat, input: nat, output: nat)
    requires n < |states| && n <= |batch| && n <= |states[n].1|
    requires i < |layers| && i < |states[0].0| && GetIndex(layers[i], input, output) < |states[0].0[i].weightGradient|
    requires forall m :: 0 <= m < n ==> WeightGrows(layers, batch, states[m], states[m + 1], m, i, input, output)
    ensures i < |states[n].0| && GetIndex(layers[i], input, output) < |states[n].0[i].weightGradient|
    ensures var slot := GetIndex(layers[i], input, output);
      states[n].0[i].weightGradient[slot]
        == states[0].0[i].weightGradient[slot] + Sum(WeightContributions(layers, batch, states[n].1, n, i, input, output))
  {
    if n > 0 {
      assert WeightGrows(layers, batch, states[n - 1], states[n], n - 1, i, input, output);
      WeightChain(layers, batch, states, n - 1, i, input, output);
      WeightContributionsStep(layers, batch, states[n].1, states[n - 1].1, n, i, input, output);
    } else {
      assert WeightContributions(layers, batch, states[0].1, 0, i, input, output) == [];
    }
  }

  /** The same for a bias gradient. */
  lemma {:induction false} BiasChain(layers: seq<Layer>, batch: seq<DataPoints.DataPoint>,
                                     states: seq<(seq<Layer>, seq<NetworkData>)>, n: nat, i: nat, output: nat)
    requires n < |states| && n <= |batch| && n <= |states[n].1|
    requires i < |states[0].0| && output < |states[0].0[i].biasesGradient|
    requires forall m :: 0 <= m < n ==> BiasGrows(layers, batch, states[m], states[m + 1], m, i, output)
    ensures i < |states[n].0| && output < |states[n].0[i].biasesGradient|
    ensures states[n].0[i].biasesGradient[output]
         == states[0].0[i].biasesGradient[output] + Sum(BiasContributions(layers, batch, states[n].1, n, i, output))
  {
    if n > 0 {
      assert BiasGrows(layers, batch, states[n - 1], states[n], n - 1, i, output);
      BiasChain(layers, batch, states, n - 1, i, output);
      BiasContributionsStep(layers, batch, states[n].1, states[n - 1].1, n, i, output);
    } else {
      assert BiasContributions(layers, batch, states[0].1, 0, i, output) == [];
    }
  }

  /** Example `m` of the batch adds its contribution to what the examples before it left. */
  lemma RunBatchWeightGrows(layers: seq<Layer>, act: Activation, batch: seq<DataPoints.DataPoint>,
                            pool: seq<NetworkData>, m: nat, i: nat, input: nat, output: nat)
    requires BatchReady(layers, batch, pool, m + 1)
    requires i < |layers| && input < layers[i].inNodes && output < layers[i].outNodes
    ensures WeightGrows(layers, batch, RunBatch(layers, act, batch, pool, m), RunBatch(layers, act, batch, pool, m + 1),
                        m, i, input, output)
  {
    BatchStepWeightAt(layers, act, batch, RunBatch(layers, act, batch, pool, m), m, i, input, output);
  }

  lemma RunBatchBiasGrows(layers: seq<Layer>, act: Activation, batch: seq<DataPoints.DataPoint>,
                          pool: seq<NetworkData>, m: nat, i: nat, output: nat)
    requires BatchReady(layers, batch, pool, m + 1)
    requires i < |layers| && output < layers[i].outNodes
    ensures BiasGrows(layers, batch, RunBatch(layers, act, batch, pool, m), RunBatch(layers, act, batch, pool, m + 1),
                      m, i, output)
  {
    BatchStepBiasAt(layers, act, batch, RunBatch(layers, act, batch, pool, m), m, i, output);
  }

  /** Every example of the first `n` adds its contribution. */
  lemma RunBatchWeightGrowsAll(layers: seq<Layer>, act: Activation, batch: seq<DataPoints.DataPoint>,
                               pool: seq<NetworkData>, n: nat, i: nat, input: nat, output: nat)
    requires BatchReady(layers, batch, pool, n)
    requires i < |layers| && input < layers[i].inNodes && output < layers[i].outNodes
    ensures forall m :: 0 <= m < n ==>
      WeightGrows(layers, batch, RunBatch(layers, act, batch, pool, m), RunBatch(layers, act, batch, pool, m + 1),
                  m, i, input, output)
  {
    forall m | 0 <= m < n
      ensures WeightGrows(layers, batch, RunBatch(layers, act, batch, pool, m), RunBatch(layers, act, batch, pool, m + 1),
                          m, i, input, output)
    {
      RunBatchWeightGrows(layers, act, batch, pool, m, i, input, output);
    }
  }

  lemma RunBatchBiasGrowsAll(layers: seq<Layer>, act: Activation, batch: seq<DataPoints.DataPoint>,
                             pool: seq<NetworkData>, n: nat, i: nat, output: nat)
    requires BatchReady(layers, batch, pool, n)
    requires i < |layers| && output < layers[i].outNodes
    ensures forall m :: 0 <= m < n ==>
      BiasGrows(layers, batch, RunBatch(layers, act, batch, pool, m), RunBatch(layers, act, batch, pool, m + 1), m, i, output)
  {
    forall m | 0 <= m < n
      ensures BiasGrows(layers, batch, RunBatch(layers, act, batch, pool, m), RunBatch(layers, act, batch, pool, m + 1),
                        m, i, output)
    {
      RunBatchBiasGrows(layers, act, batch, pool, m, i, output);
    }
  }

  /** After the first `n` examples, a weight gradient is its starting value plus the
      contributions of the examples that got through, read from the records they left. */
  lemma RunBatchAccumulatesAt(layers: seq<Layer>, act: Activation, batch: seq<DataPoints.DataPoint>,
                              pool: seq<NetworkData>, n: nat, i: nat, input: nat, output: nat)
    requires BatchReady(layers, batch, pool, n)
    requires i < |layers| && input < layers[i].inNodes && output < layers[i].outNodes
    ensures var r := RunBatch(layers, act, batch, pool, n);
      var slot := GetIndex(layers[i], input, output);
      r.0[i].weightGradient[slot]
        == layers[i].weightGradient[slot] + Sum(WeightContributions(layers, batch, r.1, n, i, input, output))
  {
    var states := seq(n + 1, m requires 0 <= m <= n => RunBatch(layers, act, batch, pool, m));
    RunBatchWeightGrowsAll(layers, act, batch, pool, n, i, input, output);
    WeightChain(layers, batch, states, n, i, input, output);
  }

  /** The same for the bias gradients: each is its starting value plus the node values of
      the examples that got through. */
  lemma RunBatchAccumulatesBiasAt(layers: seq<Layer>, act: Activation, batch: seq<DataPoints.DataPoint>,
                                  pool: seq<NetworkData>, n: nat, i: nat, output: nat)
    requires BatchReady(layers, batch, pool, n)
    requires i < |layers| && output < layers[i].outNodes
    ensures var r := RunBatch(layers, act, batch, pool, n);
      r.0[i].biasesGradient[output]
        == layers[i].biasesGradient[output] + Sum(BiasContributions(layers, batch, r.1, n, i, output))
  {
    var states := seq(n + 1, m requires 0 <= m <= n => RunBatch(layers, act, batch, pool, m));
    RunBatchBiasGrowsAll(layers, act, batch, pool, n, i, output);
    BiasChain(layers, batch, states, n, i, output);
  }

  /** One example rewrites its own scratch record and no other, with the record it would
      leave running alone on the layers the batch started from. */
  lemma BatchStepRecord(layers: seq<Layer>, act: Activation, data: DataPoints.DataPoint,
                        state: (seq<Layer>, seq<NetworkData>), k: nat)
    requires StepReady(layers, state, k)
    ensures BatchStep(layers, act, data, state, k).1 == state.1[k := ExampleRecord(layers, act, data, state.1[k])]
  {
    SameButKeepsShape(layers, state.0, state.1);
    TrainExampleIgnoresGradients(layers, state.0, act, data, state.1[k]);
  }

  /** Example `m` takes the batch state from `before` to `after` by rewriting record `m`, and
      no other, with the record it leaves running alone on `layers`. */
  predicate RecordStep(layers: seq<Layer>, act: Activation, batch: seq<DataPoints.DataPoint>,
                       before: (seq<Layer>, seq<NetworkData>), after: (seq<Layer>, seq<NetworkData>), m: nat)
  {
    && WellFormed(layers) && m < |batch| && m < |before.1| && ShapedData(layers, before.1[m])
    && after.1 == before.1[m := ExampleRecord(layers, act, batch[m], before.1[m])]
  }

  /** Along a run of batch states in which each example rewrites its own record, the first
      `n` records end as each example's own record, computed from the record it started
      with, and the others are untouched. */
  lemma {:induction false} RecordChain(layers: seq<Layer>, act: Activation, batch: seq<DataPoints.DataPoint>,
                                       states: seq<(seq<Layer>, seq<NetworkData>)>, n: nat)
    requires n < |states|
    requires forall m :: 0 <= m < n ==> RecordStep(layers, act, batch, states[m], states[m + 1], m)
    ensures |states[n].1| == |states[0].1|
    ensures forall k :: n <= k < |states[0].1| ==> states[n].1[k] == states[0].1[k]
    ensures forall k :: 0 <= k < n ==>
      && WellFormed(layers) && k < |batch| && k < |states[0].1| && ShapedData(layers, states[0].1[k])
      && states[n].1[k] == ExampleRecord(layers, act, batch[k], states[0].1[k])
  {
    if n > 0 {
      assert RecordStep(layers, act, batch, states[n - 1], states[n], n - 1);
      RecordChain(layers, act, batch, states, n - 1);
    }
  }

  /** Example `m` of the batch rewrites only its own record. */
  lemma RunBatchRecordStep(layers: seq<Layer>, act: Activation, batch: seq<DataPoints.DataPoint>, pool: seq<NetworkData>, m: nat)
    requires BatchReady(layers, batch, pool, m + 1)
    ensures RecordStep(layers, act, batch, RunBatch(layers, act, batch, pool, m), RunBatch(layers, act, batch, pool, m + 1), m)
  {
    BatchStepRecord(layers, act, batch[m], RunBatch(layers, act, batch, pool, m), m);
  }

  lemma RunBatchRecordStepAll(layers: seq<Layer>, act: Activation, batch: seq<DataPoints.DataPoint>, pool: seq<NetworkData>, n: nat)
    requires BatchReady(layers, batch, pool, n)
    ensures forall m :: 0 <= m < n ==>
      RecordStep(layers, act, batch, RunBatch(layers, act, batch, pool, m), RunBatch(layers, act, batch, pool, m + 1), m)
  {
    forall m | 0 <= m < n
      ensures RecordStep(layers, act, batch, RunBatch(layers, act, batch, pool, m), RunBatch(layers, act, batch, pool, m + 1), m)
    {
      RunBatchRecordStep(layers, act, batch, pool, m);
    }
  }

  /** After the first `n` examples, record `k` of the pool holds what example `k` leaves
      running alone on the layers the batch started from, beginning with its pool record: the
      other examples' gradients and records do not reach it. Records past `n` are untouched. */
  lemma RunBatchRecords(layers: seq<Layer>, act: Activation, batch: seq<DataPoints.DataPoint>, pool: seq<NetworkData>, n: nat)
    requires BatchReady(layers, batch, pool, n)
    ensures var r := RunBatch(layers, act, batch, pool, n);
      && (forall k :: 0 <= k < n ==> r.1[k] == ExampleRecord(layers, act, batch[k], pool[k]))
      && (forall k :: n <= k < |pool| ==> r.1[k] == pool[k])
  {
    var states := seq(n + 1, m requires 0 <= m <= n => RunBatch(layers, act, batch, pool, m));
    RunBatchRecordStepAll(layers, act, batch, pool, n);
    RecordChain(layers, act, batch, states, n);
  }

  /** What `learn`'s threads leave behind: every example of the batch run on its own scratch
      record from the pool. */
  function BatchRun(net: Network, act: Activation, batch: seq<DataPoints.DataPoint>): (r: (seq<Layer>, seq<NetworkData>))
    requires WellFormed(net.layers) && (net.pool.Some? ==> PoolShaped(net.layers, net.pool.value))
    ensures SameBut(net.layers, r.0) && |r.1| == |batch| && PoolShaped(net.layers, r.1)
  {
    RunBatch(net.layers, act, batch, PreparePool(net.layers, net.pool, |batch|), |batch|)
  }

  /** Every thread of `learn` leaves in its scratch record what its example leaves running
      alone on the network's layers, from its record of the prepared pool. */
  lemma BatchRunRecords(net: Network, act: Activation, batch: seq<DataPoints.DataPoint>)
    requires WellFormed(net.layers) && (net.pool.Some? ==> PoolShaped(net.layers, net.pool.value))
    ensures BatchRun(net, act, batch).1 == ExampleRecords(net.layers, act, batch, PreparePool(net.layers, net.pool, |batch|))
  {
    RunBatchRecords(net.layers, act, batch, PreparePool(net.layers, net.pool, |batch|), |batch|);
  }

  /** What `learn`'s threads leave in a weight gradient: its value before the batch plus
      the contribution of every example of the batch that got through, read from the record
      that example leaves running alone on the network's layers. */
  lemma BatchRunAccumulatesAt(net: Network, act: Activation, batch: seq<DataPoints.DataPoint>, i: nat, input: nat, output: nat)
    requires WellFormed(net.layers) && (net.pool.Some? ==> PoolShaped(net.layers, net.pool.value))
    requires i < |net.layers| && input < net.layers[i].inNodes && output < net.layers[i].outNodes
    ensures var r := BatchRun(net, act, batch);
      var slot := GetIndex(net.layers[i], input, output);
      r.0[i].weightGradient[slot]
        == net.layers[i].weightGradient[slot] + Sum(WeightContributions(net.layers, batch, r.1, |batch|, i, input, output))
    ensures var slot := GetIndex(net.layers[i], input, output);
      BatchRun(net, act, batch).0[i].weightGradient[slot]
        == net.layers[i].weightGradient[slot]
           + Sum(WeightContributions(net.layers, batch, ExampleRecords(net.layers, act, batch, PreparePool(net.layers, net.pool, |batch|)),
                                     |batch|, i, input, output))
  {
    var pool := PreparePool(net.layers, net.pool, |batch|);
    RunBatchAccumulatesAt(net.layers, act, batch, pool, |batch|, i, input, output);
    BatchRunRecords(net, act, batch);
  }

  /** The same for a bias gradient. */
  lemma BatchRunAccumulatesBiasAt(net: Network, act: Activation, batch: seq<DataPoints.DataPoint>, i: nat, output: nat)
    requires WellFormed(net.layers) && (net.pool.Some? ==> PoolShaped(net.layers, net.pool.value))
    requires i < |net.layers| && output < net.layers[i].outNodes
    ensures var r := BatchRun(net, act, batch);
      r.0[i].biasesGradient[output]
        == net.layers[i].biasesGradient[output] + Sum(BiasContributions(net.layers, batch, r.1, |batch|, i, output))
    ensures BatchRun(net, act, batch).0[i].biasesGradient[output]
         == net.layers[i].biasesGradient[output]
            + Sum(BiasContributions(net.layers, batch, ExampleRecords(net.layers, act, batch, PreparePool(net.layers, net.pool, |batch|)),
                                    |batch|, i, output))
  {
    var pool := PreparePool(net.layers, net.pool, |batch|);
    RunBatchAccumulatesBiasAt(net.layers, act, batch, pool, |batch|, i, output);
    BatchRunRecords(net, act, batch);
  }

  /** The update loop of `learn`: every layer takes one step with the same learning rate,
      regularization and momentum. */
  function StepAll(layers: seq<Layer>, learnRate: real, regularization: real, momentum: real): (r: seq<Layer>)
    requires AllValid(layers)
    ensures |r| == |layers|
    ensures forall i :: 0 <= i < |layers| ==> r[i] == Gradient(layers[i], learnRate, regularization, momentum)
  {
    seq(|layers|, i requires 0 <= i < |layers| => Gradient(layers[i], learnRate, regularization, momentum))
  }

  /** Stepping layers that differ from `before` only in their gradients leaves the stack in
      the shape `before` had, and the pool still fits it. */
  lemma StepAllKeepsShape(before: seq<Layer>, acc: seq<Layer>, pool: seq<NetworkData>,
                          learnRate: real, regularization: real, momentum: real)
    requires SameBut(before, acc) && WellFormed(before) && PoolShaped(before, pool)
    ensures AllValid(acc)
    ensures var r := StepAll(acc, learnRate, regularization, momentum);
      && WellFormed(r) && PoolShaped(r, pool)
      && forall i :: 0 <= i < |before| ==> SameShape(before[i], r[i])
  {
    SameButKeepsShape(before, acc, pool);
    var r := StepAll(acc, learnRate, regularization, momentum);
    forall i | 0 <= i < |before|
      ensures SameShape(before[i], r[i])
    {
      assert GradientsOnly(before[i], acc[i]);
    }
    forall i | 0 <= i < |r| - 1
      ensures r[i].outNodes == r[i + 1].inNodes
    {
      assert before[i].outNodes == before[i + 1].inNodes;
      assert SameShape(before[i], r[i]) && SameShape(before[i + 1], r[i + 1]);
    }
    forall k, i | 0 <= k < |pool| && 0 <= i < |r|
      ensures Shaped(r[i], pool[k][i])
    {
      assert Shaped(before[i], pool[k][i]) && SameShape(before[i], r[i]);
    }
  }

  /** `learn`: run the batch, then apply one update to every layer with the learning rate
      divided by the batch size. An empty batch divides by zero, which leaves no number to
      update with; the division sits inside the loop over layers, so a network with no
      layers never makes it and returns with an empty pool. */
  function Learn(net: Network, act: Activation, batch: seq<DataPoints.DataPoint>,
                 learnRate: real, regularization: real, momentum: real): (r: Result<Network>)
    requires WellFormed(net.layers) && (net.pool.Some? ==> PoolShaped(net.layers, net.pool.value))
    ensures r.Ok? <==> |batch| > 0 || |net.layers| == 0
    ensures r.Err? ==> r.fault == NotFinite
    ensures r.Ok? ==> WellFormed(r.value.layers) && |r.value.layers| == |net.layers|
    ensures r.Ok? ==> r.value.pool.Some? && |r.value.pool.value| == |batch| && PoolShaped(r.value.layers, r.value.pool.value)
    ensures r.Ok? ==> forall i :: 0 <= i < |net.layers| ==> SameShape(net.layers[i], r.value.layers[i])
    ensures r.Ok? && |batch| > 0 ==>
      r.value.layers == StepAll(BatchRun(net, act, batch).0, learnRate / (|batch| as real), regularization, momentum)
    ensures r.Ok? ==> forall i, k :: 0 <= i < |net.layers| && 0 <= k < |r.value.layers[i].weightGradient| ==>
      r.value.layers[i].weightGradient[k] == 0.0
    ensures r.Ok? ==> forall i, o :: 0 <= i < |net.layers| && 0 <= o < r.value.layers[i].outNodes ==>
      r.value.layers[i].biasesGradient[o] == 0.0
  {
    if |batch| == 0 && |net.layers| == 0 then
      Ok(Network([], Some([])))
    else if |batch| == 0 then
      Err(NotFinite)
    else
      var run := BatchRun(net, act, batch);
      var rate := learnRate / (|batch| as real);
      StepAllKeepsShape(net.layers, run.0, run.1, rate, regularization, momentum);
      Ok(Network(StepAll(run.0, rate, regularization, momentum), Some(run.1)))
  }

  /** Without momentum and regularization, the update `learn` applies after its batch is
      one step of batch gradient descent: every weight moves against the gradient the whole
      batch accumulated for it, by the learning rate over the batch size. */
  lemma LearnIsBatchDescent(before: seq<Layer>, acc: seq<Layer>, learnRate: real, n: nat, i: nat, k: nat)
    requires SameBut(before, acc) && AllValid(before) && n > 0 && i < |before| && k < |before[i].weights|
    ensures StepAll(acc, learnRate / (n as real), 0.0, 0.0)[i].weights[k]
      == before[i].weights[k] - (learnRate / (n as real)) * acc[i].weightGradient[k]
  {
    assert GradientsOnly(before[i], acc[i]);
    PlainGradientStepAt(acc[i], learnRate / (n as real), k);
  }

  /** One weight after `learn` without momentum and regularization, in terms of the gradient
      the batch left in it. */
  lemma LearnWeightAt(net: Network, act: Activation, batch: seq<DataPoints.DataPoint>, learnRate: real, i: nat, k: nat)
    requires WellFormed(net.layers) && (net.pool.Some? ==> PoolShaped(net.layers, net.pool.value)) && |batch| > 0
    requires i < |net.layers| && k < |net.layers[i].weights|
    ensures var r := Learn(net, act, batch, learnRate, 0.0, 0.0);
      && r.Ok? && k < |r.value.layers[i].weights| && k < |BatchRun(net, act, batch).0[i].weightGradient|
      && r.value.layers[i].weights[k]
         == net.layers[i].weights[k] - (learnRate / (|batch| as real)) * BatchRun(net, act, batch).0[i].weightGradient[k]
  {
    var run := BatchRun(net, act, batch);
    assert GradientsOnly(net.layers[i], run.0[i]);
    LearnIsBatchDescent(net.layers, run.0, learnRate, |batch|, i, k);
    assert Learn(net, act, batch, learnRate, 0.0, 0.0).value.layers == StepAll(run.0, learnRate / (|batch| as real), 0.0, 0.0);
  }
}
