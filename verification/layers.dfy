/** One fully-connected layer (Layer.java, and its boxed copy Network/Layer.java, whose
    arithmetic is the same): the flat weight storage and its addressing, the forward
    weighted sum, the backpropagated node values, gradient accumulation and the
    momentum/weight-decay update. */
module Layers {
  import opened Errors
  import opened Activations
  import opened Sums
  import Costs

  /** How `getWeight`/`setWeight` turn a connection (input, output) into a slot of the flat
      weight array. `Product` is the source's `input * output`; `Affine` is
      `output * inNodes + input`, the addressing `getIndex` uses for the gradients. */
  datatype Addressing = Product | Affine

  datatype Layer = Layer(
    scheme: Addressing,
    inNodes: nat,
    outNodes: nat,
    weights: seq<real>,
    weightGradient: seq<real>,
    weightVelocities: seq<real>,
    biases: seq<real>,
    biasesGradient: seq<real>,
    biasesVelocities: seq<real>)

  /** The per-example scratch record of one layer (LayerData.java). */
  datatype LayerData = LayerData(
    inputs: seq<real>,
    weightedInputs: seq<real>,
    activations: seq<real>,
    nodeValues: seq<real>)

  /** The arrays have the lengths the constructor allocates. */
  predicate Valid(l: Layer)
  {
    && |l.weights| == l.inNodes * l.outNodes
    && |l.weightGradient| == |l.weights|
    && |l.weightVelocities| == |l.weights|
    && |l.biases| == l.outNodes
    && |l.biasesGradient| == l.outNodes
    && |l.biasesVelocities| == l.outNodes
  }

  /** The scratch record's per-node arrays have the lengths its constructor allocates. */
  predicate Shaped(l: Layer, d: LayerData)
  {
    |d.weightedInputs| == l.outNodes && |d.activations| == l.outNodes && |d.nodeValues| == l.outNodes
  }

  /** Every input index the layer reads exists: the loops over inputs all run inside a loop
      over outputs, so a layer without outputs reads no input at all. */
  predicate Accepts(l: Layer, x: seq<real>)
  {
    l.outNodes == 0 || l.inNodes <= |x|
  }

  /** Same addressing and dimensions, both well formed. */
  predicate SameShape(a: Layer, b: Layer)
  {
    Valid(a) && Valid(b) && a.scheme == b.scheme && a.inNodes == b.inNodes && a.outNodes == b.outNodes
  }

  /** A freshly allocated `double[n]`. */
  function Zeros(n: nat): (r: seq<real>)
    ensures |r| == n
    ensures forall i :: 0 <= i < n ==> r[i] == 0.0
  {
    seq(n, _ => 0.0)
  }

  // ---------------------------------------------------------------------------------------
  // Addressing

  lemma RowBefore(a: nat, b: nat, c: nat)
    requires a < b
    ensures a * c + c <= b * c
  {
    var d := b - a - 1;
    assert b * c == a * c + c + d * c;
  }

  lemma ProductBelow(i: nat, j: nat, m: nat, n: nat)
    requires i < m && j < n
    ensures i * j < m * n
  {
    RowBefore(i, m, j);
    RowBefore(j, n, m);
  }

  /** The gradient slot of a connection: `output * inNodes + input`. */
  function GetIndex(l: Layer, input: nat, output: nat): (k: nat)
    ensures input < l.inNodes && output < l.outNodes ==> k < l.inNodes * l.outNodes
  {
    TimesIsProduct(output, l.inNodes);
    assert input < l.inNodes && output < l.outNodes ==> output * l.inNodes + input < l.inNodes * l.outNodes by {
      if input < l.inNodes && output < l.outNodes {
        RowBefore(output, l.outNodes, l.inNodes);
      }
    }
    Times(output, l.inNodes) + input
  }

  /** `a * b` as repeated addition. Slot arithmetic goes through it so that the solver
      unfolds the product only where `TimesIsProduct` is invoked. */
  function Times(a: nat, b: nat): nat
  {
    if a == 0 then 0 else b + Times(a - 1, b)
  }

  lemma {:induction false} TimesIsProduct(a: nat, b: nat)
    ensures Times(a, b) == a * b
  {
    if a > 0 {
      TimesIsProduct(a - 1, b);
    }
  }

  /** Distinct connections have distinct gradient slots. */
  lemma GetIndexInjective(l: Layer, i1: nat, o1: nat, i2: nat, o2: nat)
    requires i1 < l.inNodes && i2 < l.inNodes
    ensures GetIndex(l, i1, o1) == GetIndex(l, i2, o2) ==> i1 == i2 && o1 == o2
  {
    TimesIsProduct(o1, l.inNodes);
    TimesIsProduct(o2, l.inNodes);
    if o1 < o2 {
      RowBefore(o1, o2, l.inNodes);
    } else if o2 < o1 {
      RowBefore(o2, o1, l.inNodes);
    }
  }

  /** Every slot of the flat array is the gradient slot of some connection. */
  lemma GetIndexOnto(l: Layer, k: nat)
    requires k < l.inNodes * l.outNodes
    ensures k % l.inNodes < l.inNodes && k / l.inNodes < l.outNodes
    ensures GetIndex(l, k % l.inNodes, k / l.inNodes) == k
  {
    var q, r := k / l.inNodes, k % l.inNodes;
    TimesIsProduct(q, l.inNodes);
    assert k == q * l.inNodes + r;
    MulMonotone(l.outNodes, q, l.inNodes);
  }

  lemma MulMonotone(a: nat, b: nat, c: nat)
    ensures a <= b ==> a * c <= b * c
  {
    if a <= b {
      var d: nat := b - a;
      assert b * c == a * c + d * c;
    }
  }

  /** The largest slot `input * output` can reach. */
  lemma ProductAtMost(i: nat, j: nat, m: nat, n: nat)
    requires i < m && j < n
    ensures i * j <= (m - 1) * (n - 1)
  {
    MulMonotone(i, m - 1, j);
    MulMonotone(j, n - 1, m - 1);
  }

  /** The slot `getWeight`/`setWeight` use for a connection. */
  function WeightSlot(l: Layer, input: nat, output: nat): (k: nat)
    requires input < l.inNodes && output < l.outNodes
    ensures k < l.inNodes * l.outNodes
  {
    match l.scheme
    case Product =>
      ProductBelow(input, output, l.inNodes, l.outNodes);
      input * output
    case Affine => GetIndex(l, input, output)
  }

  function GetWeight(l: Layer, input: nat, output: nat): real
    requires Valid(l) && input < l.inNodes && output < l.outNodes
  {
    l.weights[WeightSlot(l, input, output)]
  }

  function SetWeight(l: Layer, input: nat, output: nat, v: real): (r: Layer)
    requires Valid(l) && input < l.inNodes && output < l.outNodes
    ensures Valid(r) && r == l.(weights := r.weights)
    ensures r.weights[WeightSlot(l, input, output)] == v
    ensures forall k :: 0 <= k < |l.weights| && k != WeightSlot(l, input, output) ==> r.weights[k] == l.weights[k]
  {
    l.(weights := l.weights[WeightSlot(l, input, output) := v])
  }

  // ---------------------------------------------------------------------------------------
  // Construction

  /** The inner loop of `initializeWeights` for input `i`: outputs `0 .. n-1` get their drawn
      value through `setWeight`. Under the affine scheme each lands in its own connection's
      slot and no other input's slots move. */
  function InitializeRow(l: Layer, draw: (nat, nat) -> real, i: nat, n: nat): (r: Layer)
    requires Valid(l) && i < l.inNodes && n <= l.outNodes
    ensures Valid(r) && r == l.(weights := r.weights)
    ensures l.scheme == Affine ==> forall j :: 0 <= j < n ==> r.weights[GetIndex(l, i, j)] == draw(i, j)
    ensures l.scheme == Affine ==> forall i', j :: 0 <= i' < l.inNodes && i' != i && 0 <= j < l.outNodes ==>
      r.weights[GetIndex(l, i', j)] == l.weights[GetIndex(l, i', j)]
  {
    if n == 0 then
      l
    else
      var prev := InitializeRow(l, draw, i, n - 1);
      var slot := WeightSlot(prev, i, n - 1);
      var r := SetWeight(prev, i, n - 1, draw(i, n - 1));
      assert l.scheme == Affine ==> slot == GetIndex(l, i, n - 1);
      assert l.scheme == Affine ==> forall j :: 0 <= j < n - 1 ==> GetIndex(l, i, j) != slot by {
        forall j | 0 <= j < n - 1 {
          GetIndexInjective(l, i, j, i, n - 1);
        }
      }
      assert l.scheme == Affine ==> forall i', j :: 0 <= i' < l.inNodes && i' != i && 0 <= j < l.outNodes ==>
        GetIndex(l, i', j) != slot by {
        forall i', j | 0 <= i' < l.inNodes && i' != i && 0 <= j < l.outNodes {
          GetIndexInjective(l, i', j, i, n - 1);
        }
      }
      r
  }

  /** The outer loop of `initializeWeights`: inputs `0 .. m-1`, each over every output. */
  function InitializeRows(l: Layer, draw: (nat, nat) -> real, m: nat): (r: Layer)
    requires Valid(l) && m <= l.inNodes
    ensures Valid(r) && r == l.(weights := r.weights)
    ensures l.scheme == Affine ==> forall i, j :: 0 <= i < m && 0 <= j < l.outNodes ==>
      r.weights[GetIndex(l, i, j)] == draw(i, j)
    ensures l.scheme == Affine ==> forall i, j :: m <= i < l.inNodes && 0 <= j < l.outNodes ==>
      r.weights[GetIndex(l, i, j)] == l.weights[GetIndex(l, i, j)]
  {
    if m == 0 then
      l
    else
      var prev := InitializeRows(l, draw, m - 1);
      var r := InitializeRow(prev, draw, m - 1, l.outNodes);
      assert forall i, j :: 0 <= i < l.inNodes && 0 <= j < l.outNodes ==> GetIndex(prev, i, j) == GetIndex(l, i, j);
      r
  }

  /** Under the product scheme the initializer writes slot `input * output`, never above
      `(inNodes - 1) * (outNodes - 1)`: the slots past that keep their value. */
  lemma {:induction false} InitializeRowProductFrame(l: Layer, draw: (nat, nat) -> real, i: nat, n: nat, k: nat)
    requires Valid(l) && i < l.inNodes && n <= l.outNodes && l.scheme == Product
    requires (l.inNodes - 1) * (l.outNodes - 1) < k < |l.weights|
    ensures InitializeRow(l, draw, i, n).weights[k] == l.weights[k]
  {
    if n > 0 {
      InitializeRowProductFrame(l, draw, i, n - 1, k);
      ProductAtMost(i, n - 1, l.inNodes, l.outNodes);
    }
  }

  lemma {:induction false} InitializeRowsProductFrame(l: Layer, draw: (nat, nat) -> real, m: nat, k: nat)
    requires Valid(l) && m <= l.inNodes && l.scheme == Product
    requires (l.inNodes - 1) * (l.outNodes - 1) < k < |l.weights|
    ensures InitializeRows(l, draw, m).weights[k] == l.weights[k]
  {
    if m > 0 {
      InitializeRowsProductFrame(l, draw, m - 1, k);
      InitializeRowProductFrame(InitializeRows(l, draw, m - 1), draw, m - 1, l.outNodes, k);
    }
  }

  /** The sizes and initializer arguments the constructor accepts without throwing. */
  predicate Constructible(inputNodes: int, outputNodes: int, initVals: seq<real>)
  {
    && inputNodes * outputNodes >= 0 && outputNodes >= 0
    && !(inputNodes > 0 && outputNodes > 0 && |initVals| < 2)
  }

  /** The constructor: allocate zeroed arrays (a negative length throws), then fill the
      weights with one drawn value per connection. The Xavier initializer reads the first two
      entries of `initVals` on every draw, so a shorter array throws as soon as there is a
      connection to draw for; `draw(i, j)` stands for the random value it returns for input `i`
      and output `j`. A negative input count is accepted when there are no outputs; it is
      kept as 0, which no loop can tell apart. */
  function NewLayer(scheme: Addressing, inputNodes: int, outputNodes: int, initVals: seq<real>,
                    draw: (nat, nat) -> real): (r: Result<Layer>)
    ensures r.Ok? <==> Constructible(inputNodes, outputNodes, initVals)
    ensures r.Err? && (inputNodes * outputNodes < 0 || outputNodes < 0) ==> r.fault == NegativeArraySize
    ensures r.Err? && inputNodes * outputNodes >= 0 && outputNodes >= 0 ==> r.fault == IndexOutOfBounds
    ensures r.Ok? ==> Valid(r.value) && r.value.scheme == scheme && r.value.outNodes == outputNodes
    ensures r.Ok? && inputNodes >= 0 ==> r.value.inNodes == inputNodes
    ensures r.Ok? && inputNodes < 0 ==> r.value.inNodes == 0 && r.value.outNodes == 0
    ensures r.Ok? ==> forall k :: 0 <= k < |r.value.weights| ==>
      r.value.weightGradient[k] == 0.0 && r.value.weightVelocities[k] == 0.0
    ensures r.Ok? ==> forall o :: 0 <= o < r.value.outNodes ==>
      r.value.biases[o] == 0.0 && r.value.biasesGradient[o] == 0.0 && r.value.biasesVelocities[o] == 0.0
    ensures r.Ok? && scheme == Affine ==> forall i, j :: 0 <= i < r.value.inNodes && 0 <= j < r.value.outNodes ==>
      r.value.weights[GetIndex(r.value, i, j)] == draw(i, j)
  {
    if inputNodes * outputNodes < 0 || outputNodes < 0 then
      Err(NegativeArraySize)
    else if inputNodes > 0 && outputNodes > 0 && |initVals| < 2 then
      Err(IndexOutOfBounds)
    else
      var inN: nat := if inputNodes < 0 then 0 else inputNodes;
      Ok(InitializeRows(Blank(scheme, inN, outputNodes), draw, inN))
  }

  /** A layer of the given shape with every array zero-filled, as `new double[...]` leaves it. */
  function Blank(scheme: Addressing, inN: nat, outN: nat): (l: Layer)
    ensures Valid(l) && l.scheme == scheme && l.inNodes == inN && l.outNodes == outN
    ensures forall k :: 0 <= k < |l.weights| ==> l.weights[k] == 0.0 && l.weightGradient[k] == 0.0 && l.weightVelocities[k] == 0.0
    ensures forall o :: 0 <= o < outN ==> l.biases[o] == 0.0 && l.biasesGradient[o] == 0.0 && l.biasesVelocities[o] == 0.0
  {
    var n := inN * outN;
    Layer(scheme, inN, outN, Zeros(n), Zeros(n), Zeros(n), Zeros(outN), Zeros(outN), Zeros(outN))
  }

  // ---------------------------------------------------------------------------------------
  // Forward pass

  /** The bias of `output` plus the first `n` terms of the loop over inputs. */
  function PartialWeightedInput(l: Layer, x: seq<real>, output: nat, n: nat): real
    requires Valid(l) && output < l.outNodes && n <= l.inNodes && l.inNodes <= |x|
  {
    if n == 0 then
      l.biases[output]
    else
      PartialWeightedInput(l, x, output, n - 1) + x[n - 1] * GetWeight(l, n - 1, output)
  }

  /** The terms `x[in] * getWeight(in, output)` of one weighted sum. */
  function WeightedTerms(l: Layer, x: seq<real>, output: nat): (t: seq<real>)
    requires Valid(l) && output < l.outNodes && l.inNodes <= |x|
    ensures |t| == l.inNodes
    ensures forall i :: 0 <= i < l.inNodes ==> t[i] == x[i] * GetWeight(l, i, output)
  {
    seq(l.inNodes, i requires 0 <= i < l.inNodes => x[i] * GetWeight(l, i, output))
  }

  lemma {:induction false} PartialWeightedInputIsSum(l: Layer, x: seq<real>, output: nat, n: nat)
    requires Valid(l) && output < l.outNodes && n <= l.inNodes && l.inNodes <= |x|
    ensures PartialWeightedInput(l, x, output, n) == l.biases[output] + Sum(WeightedTerms(l, x, output)[..n])
  {
    if n > 0 {
      PartialWeightedInputIsSum(l, x, output, n - 1);
      assert WeightedTerms(l, x, output)[..n][..n - 1] == WeightedTerms(l, x, output)[..n - 1];
    }
  }

  /** The raw weighted sums, one per output: bias plus the dot product of the input with the
      weights `getWeight` reads for that output. */
  function WeightedInputs(l: Layer, x: seq<real>): (z: seq<real>)
    requires Valid(l) && Accepts(l, x)
    ensures |z| == l.outNodes
    ensures forall o :: 0 <= o < l.outNodes ==> z[o] == l.biases[o] + Sum(WeightedTerms(l, x, o))
  {
    var z := seq(l.outNodes, o requires 0 <= o < l.outNodes => PartialWeightedInput(l, x, o, l.inNodes));
    assert forall o :: 0 <= o < l.outNodes ==> z[o] == l.biases[o] + Sum(WeightedTerms(l, x, o)) by {
      forall o | 0 <= o < l.outNodes
        ensures z[o] == l.biases[o] + Sum(WeightedTerms(l, x, o))
      {
        PartialWeightedInputIsSum(l, x, o, l.inNodes);
        assert WeightedTerms(l, x, o)[..l.inNodes] == WeightedTerms(l, x, o);
      }
    }
    z
  }

  /** The activation loop of the non-training `outputs`: it writes entry `k` back into the
      same array it hands to the activation, so later entries see earlier activated values. */
  function ActivateInPlace(act: Activation, s: seq<real>, k: nat): (r: seq<real>)
    requires k <= |s|
    ensures |r| == |s|
    ensures forall j :: 0 <= j < k ==> r[j] == s[j]
    decreases |s| - k
  {
    if k == |s| then s else ActivateInPlace(act, s[k := act(s, k)], k + 1)
  }

  /** The activation loop of the training `outputs`: every entry reads the untouched sums. */
  function Activate(act: Activation, z: seq<real>): (a: seq<real>)
    ensures |a| == |z|
    ensures forall i :: 0 <= i < |z| ==> a[i] == act(z, i)
  {
    seq(|z|, i requires 0 <= i < |z| => act(z, i))
  }

  /** `outputs(inputs)`: the layer's activations, `outNodes` of them. */
  function Outputs(l: Layer, act: Activation, x: seq<real>): (r: seq<real>)
    requires Valid(l) && Accepts(l, x)
    ensures |r| == l.outNodes
  {
    ActivateInPlace(act, WeightedInputs(l, x), 0)
  }

  /** `outputs(inputs, learnData)`: the same computation, recording the inputs, the raw sums
      and the activations in the scratch record and returning the recorded activations. */
  function OutputsTraining(l: Layer, act: Activation, x: seq<real>, d: LayerData): (r: (LayerData, seq<real>))
    requires Valid(l) && Accepts(l, x) && Shaped(l, d)
    ensures Shaped(l, r.0) && r.1 == r.0.activations
    ensures r.0.inputs == x && r.0.nodeValues == d.nodeValues
    ensures r.0.weightedInputs == WeightedInputs(l, x)
    ensures r.0.activations == Activate(act, r.0.weightedInputs)
  {
    var z := WeightedInputs(l, x);
    var data := LayerData(x, z, Activate(act, z), d.nodeValues);
    (data, data.activations)
  }

  /** With a pointwise activation (the sigmoid is one) overwriting the sums in place is
      harmless: from entry `k` on, the in-place loop yields the activation of the original
      sums. */
  lemma {:induction false} ActivateInPlacePointwise(act: Activation, s: seq<real>, k: nat)
    requires Pointwise(act) && k <= |s|
    ensures forall j :: k <= j < |s| ==> ActivateInPlace(act, s, k)[j] == act(s, j)
    decreases |s| - k
  {
    if k < |s| {
      var s' := s[k := act(s, k)];
      ActivateInPlacePointwise(act, s', k + 1);
      forall j | k + 1 <= j < |s|
        ensures act(s', j) == act(s, j)
      {
        assert s'[j] == s[j];
      }
    }
  }

  /** The two `outputs` overloads return the same activations when the activation is pointwise. */
  lemma OutputsOverloadsAgree(l: Layer, act: Activation, x: seq<real>, d: LayerData)
    requires Valid(l) && Accepts(l, x) && Shaped(l, d) && Pointwise(act)
    ensures Outputs(l, act, x) == OutputsTraining(l, act, x, d).1
  {
    ActivateInPlacePointwise(act, WeightedInputs(l, x), 0);
  }

  /** Without pointwise-ness the overloads can differ: an activation that reads entry 0 sees
      an already activated value in the in-place loop. */
  lemma InPlaceActivationObservable()
    ensures var act: Activation := (s: seq<real>, i: int) => if |s| > 0 then s[0] + 1.0 else 0.0;
      ActivateInPlace(act, [0.0, 0.0], 0) != Activate(act, [0.0, 0.0])
  {
    var act: Activation := (s: seq<real>, i: int) => if |s| > 0 then s[0] + 1.0 else 0.0;
    var s := [0.0, 0.0];
    var s1 := s[0 := act(s, 0)];
    assert s1 == [1.0, 0.0];
    var s2 := s1[1 := act(s1, 1)];
    assert s2 == [1.0, 2.0];
    assert ActivateInPlace(act, s, 0) == ActivateInPlace(act, s2, 2) == s2;
    assert Activate(act, s)[1] == 1.0;
  }

  // ---------------------------------------------------------------------------------------
  // Node values (the chain rule)

  lemma ProductSign(x: real, y: real, z: real)
    requires y > 0.0 && z == x * y
    ensures z > 0.0 <==> x > 0.0
    ensures z == 0.0 <==> x == 0.0
  {
    if x > 0.0 {
      assert z > 0.0;
    } else if x < 0.0 {
      assert -z == (-x) * y;
      assert -z > 0.0;
    } else {
      assert z == 0.0 * y;
    }
  }

  /** `calculateOutputLayerNodeValues`: each node value is the cost derivative at the
      activation times the activation derivative at the raw sum. Where that derivative is
      positive (inside the sigmoid's range), the node value has the sign of the prediction
      error and vanishes exactly when the prediction is exact. */
  function OutputNodeValues(l: Layer, act: Activation, d: LayerData, expected: seq<real>): (r: LayerData)
    requires Shaped(l, d) && l.outNodes <= |expected|
    ensures Shaped(l, r) && r == d.(nodeValues := r.nodeValues)
    ensures forall i :: 0 <= i < l.outNodes ==>
      r.nodeValues[i] == Costs.CostDerivative(d.activations[i], expected[i]) * Derivative(act, d.weightedInputs, i)
    ensures forall i :: 0 <= i < l.outNodes && 0.0 < act(d.weightedInputs, i) < 1.0 ==>
      (r.nodeValues[i] > 0.0 <==> d.activations[i] > expected[i]) &&
      (r.nodeValues[i] == 0.0 <==> d.activations[i] == expected[i])
  {
    var nv := seq(l.outNodes, i requires 0 <= i < l.outNodes =>
      Costs.CostDerivative(d.activations[i], expected[i]) * Derivative(act, d.weightedInputs, i));
    assert forall i :: 0 <= i < l.outNodes && 0.0 < act(d.weightedInputs, i) < 1.0 ==>
      (nv[i] > 0.0 <==> d.activations[i] > expected[i]) && (nv[i] == 0.0 <==> d.activations[i] == expected[i]) by {
      forall i | 0 <= i < l.outNodes && 0.0 < act(d.weightedInputs, i) < 1.0
        ensures (nv[i] > 0.0 <==> d.activations[i] > expected[i]) && (nv[i] == 0.0 <==> d.activations[i] == expected[i])
      {
        ProductSign(Costs.CostDerivative(d.activations[i], expected[i]), Derivative(act, d.weightedInputs, i), nv[i]);
      }
    }
    d.(nodeValues := nv)
  }

  /** The first `n` terms of `sum_j next.getWeight(i, j) * nextNodeValues[j]`. */
  function BackSum(next: Layer, nextNodeValues: seq<real>, i: nat, n: nat): real
    requires Valid(next) && i < next.inNodes && n <= |nextNodeValues| <= next.outNodes
  {
    if n == 0 then 0.0 else BackSum(next, nextNodeValues, i, n - 1) + GetWeight(next, i, n - 1) * nextNodeValues[n - 1]
  }

  /** `calculateHiddenLayerNodeValues`: node `i` collects the next layer's node values along
      the weights `getWeight(i, j)` of the next layer, then is scaled by the activation
      derivative at its own raw sum. */
  function HiddenNodeValues(l: Layer, act: Activation, d: LayerData, next: Layer, nextNodeValues: seq<real>): (r: LayerData)
    requires Shaped(l, d) && Valid(next)
    requires l.outNodes <= next.inNodes && |nextNodeValues| <= next.outNodes
    ensures Shaped(l, r) && r == d.(nodeValues := r.nodeValues)
    ensures forall i :: 0 <= i < l.outNodes ==>
      r.nodeValues[i] == Sum(seq(|nextNodeValues|, j requires 0 <= j < |nextNodeValues| =>
                               GetWeight(next, i, j) * nextNodeValues[j]))
                         * Derivative(act, d.weightedInputs, i)
  {
    var nv := seq(l.outNodes, i requires 0 <= i < l.outNodes =>
      BackSum(next, nextNodeValues, i, |nextNodeValues|) * Derivative(act, d.weightedInputs, i));
    assert forall i :: 0 <= i < l.outNodes ==>
      BackSum(next, nextNodeValues, i, |nextNodeValues|)
        == Sum(seq(|nextNodeValues|, j requires 0 <= j < |nextNodeValues| => GetWeight(next, i, j) * nextNodeValues[j])) by {
      forall i | 0 <= i < l.outNodes {
        BackSumIsTransposedProduct(next, nextNodeValues, i, |nextNodeValues|);
      }
    }
    d.(nodeValues := nv)
  }

  /** The backward sum is the transposed product: bias-free dot product of the next layer's
      node values with the weights the next layer's forward pass reads from node `i`. */
  lemma {:induction false} BackSumIsTransposedProduct(next: Layer, nextNodeValues: seq<real>, i: nat, n: nat)
    requires Valid(next) && i < next.inNodes && n <= |nextNodeValues| <= next.outNodes
    ensures BackSum(next, nextNodeValues, i, n)
         == Sum(seq(n, j requires 0 <= j < n => GetWeight(next, i, j) * nextNodeValues[j]))
  {
    if n > 0 {
      BackSumIsTransposedProduct(next, nextNodeValues, i, n - 1);
      var s := seq(n, j requires 0 <= j < n => GetWeight(next, i, j) * nextNodeValues[j]);
      assert s[..n - 1] == seq(n - 1, j requires 0 <= j < n - 1 => GetWeight(next, i, j) * nextNodeValues[j]);
    }
  }

  /** The backward sum reads the next layer's weights and nothing else of it. */
  lemma {:induction false} BackSumReadsOnlyWeights(next1: Layer, next2: Layer, nextNodeValues: seq<real>, i: nat, n: nat)
    requires SameShape(next1, next2) && next1.weights == next2.weights
    requires i < next1.inNodes && n <= |nextNodeValues| <= next1.outNodes
    ensures BackSum(next1, nextNodeValues, i, n) == BackSum(next2, nextNodeValues, i, n)
  {
    if n > 0 {
      BackSumReadsOnlyWeights(next1, next2, nextNodeValues, i, n - 1);
      assert GetWeight(next1, i, n - 1) == GetWeight(next2, i, n - 1);
    }
  }

  /** Hidden node values read the next layer's weights and nothing else of it: gradient and
      velocity state cannot leak into backpropagation. */
  lemma HiddenNodeValuesReadOnlyWeights(l: Layer, act: Activation, d: LayerData,
                                        next1: Layer, next2: Layer, nextNodeValues: seq<real>)
    requires Shaped(l, d) && SameShape(next1, next2) && next1.weights == next2.weights
    requires l.outNodes <= next1.inNodes && |nextNodeValues| <= next1.outNodes
    ensures HiddenNodeValues(l, act, d, next1, nextNodeValues) == HiddenNodeValues(l, act, d, next2, nextNodeValues)
  {
    var a := HiddenNodeValues(l, act, d, next1, nextNodeValues).nodeValues;
    var b := HiddenNodeValues(l, act, d, next2, nextNodeValues).nodeValues;
    forall i | 0 <= i < l.outNodes
      ensures a[i] == b[i]
    {
      BackSumReadsOnlyWeights(next1, next2, nextNodeValues, i, |nextNodeValues|);
    }
    assert a == b;
  }

  // ---------------------------------------------------------------------------------------
  // Gradient accumulation

  /** The inner loop of `updateGradients` for one output node: inputs `0 .. n-1` add their
      term at their gradient slot. */
  function AccumulateRow(l: Layer, d: LayerData, wg: seq<real>, output: nat, n: nat): (r: seq<real>)
    requires Valid(l) && Shaped(l, d) && Accepts(l, d.inputs)
    requires output < l.outNodes && n <= l.inNodes && |wg| == l.inNodes * l.outNodes
    ensures |r| == |wg|
  {
    if n == 0 then
      wg
    else
      var w := AccumulateRow(l, d, wg, output, n - 1);
      var k := GetIndex(l, n - 1, output);
      w[k := w[k] + d.inputs[n - 1] * d.nodeValues[output]]
  }

  /** The inner loop adds the term of connection `(i, o)` at its slot when `o` is this row's
      output and `i` is one of the inputs visited so far, and leaves that slot alone
      otherwise. */
  lemma {:induction false} AccumulateRowAt(l: Layer, d: LayerData, wg: seq<real>, output: nat, n: nat, i: nat, o: nat)
    requires Valid(l) && Shaped(l, d) && Accepts(l, d.inputs)
    requires output < l.outNodes && n <= l.inNodes && |wg| == l.inNodes * l.outNodes
    requires i < l.inNodes && o < l.outNodes
    ensures AccumulateRow(l, d, wg, output, n)[GetIndex(l, i, o)]
         == wg[GetIndex(l, i, o)] + (if o == output && i < n then d.inputs[i] * d.nodeValues[o] else 0.0)
  {
    if n > 0 {
      AccumulateRowAt(l, d, wg, output, n - 1, i, o);
      GetIndexInjective(l, i, o, n - 1, output);
    }
  }

  /** The outer loop of `updateGradients`: output nodes `0 .. m-1`. */
  function AccumulateRows(l: Layer, d: LayerData, wg: seq<real>, m: nat): (r: seq<real>)
    requires Valid(l) && Shaped(l, d) && Accepts(l, d.inputs)
    requires m <= l.outNodes && |wg| == l.inNodes * l.outNodes
    ensures |r| == |wg|
  {
    if m == 0 then wg else AccumulateRow(l, d, AccumulateRows(l, d, wg, m - 1), m - 1, l.inNodes)
  }

  /** After the outer loop has visited outputs `0 .. m-1`, the slot of connection `(i, o)`
      holds its term exactly when `o` was visited. */
  lemma {:induction false} AccumulateRowsAt(l: Layer, d: LayerData, wg: seq<real>, m: nat, i: nat, o: nat)
    requires Valid(l) && Shaped(l, d) && Accepts(l, d.inputs)
    requires m <= l.outNodes && |wg| == l.inNodes * l.outNodes
    requires i < l.inNodes && o < l.outNodes
    ensures AccumulateRows(l, d, wg, m)[GetIndex(l, i, o)]
         == wg[GetIndex(l, i, o)] + (if o < m then d.inputs[i] * d.nodeValues[o] else 0.0)
  {
    if m > 0 {
      AccumulateRowsAt(l, d, wg, m - 1, i, o);
      AccumulateRowAt(l, d, AccumulateRows(l, d, wg, m - 1), m - 1, l.inNodes, i, o);
    }
  }

  /** `updateGradients`: every connection adds `inputs[in] * nodeValues[out]` at its gradient
      slot and every output adds its node value to its bias gradient; weights, biases,
      velocities and dimensions are untouched. */
  function UpdateGradients(l: Layer, d: LayerData): (r: Layer)
    requires Valid(l) && Shaped(l, d) && Accepts(l, d.inputs)
    ensures SameShape(l, r)
    ensures r == l.(weightGradient := r.weightGradient, biasesGradient := r.biasesGradient)
    ensures forall i, o :: 0 <= i < l.inNodes && 0 <= o < l.outNodes ==>
      r.weightGradient[GetIndex(l, i, o)] == l.weightGradient[GetIndex(l, i, o)] + d.inputs[i] * d.nodeValues[o]
    ensures forall o :: 0 <= o < l.outNodes ==> r.biasesGradient[o] == l.biasesGradient[o] + d.nodeValues[o]
  {
    var wg := AccumulateRows(l, d, l.weightGradient, l.outNodes);
    assert forall i, o :: 0 <= i < l.inNodes && 0 <= o < l.outNodes ==>
      wg[GetIndex(l, i, o)] == l.weightGradient[GetIndex(l, i, o)] + d.inputs[i] * d.nodeValues[o] by {
      forall i, o | 0 <= i < l.inNodes && 0 <= o < l.outNodes {
        AccumulateRowsAt(l, d, l.weightGradient, l.outNodes, i, o);
      }
    }
    l.(weightGradient := wg,
       biasesGradient := seq(l.outNodes, o requires 0 <= o < l.outNodes => l.biasesGradient[o] + d.nodeValues[o]))
  }

  /** One connection's entry of `UpdateGradients`. */
  lemma UpdateGradientsAt(l: Layer, d: LayerData, i: nat, o: nat)
    requires Valid(l) && Shaped(l, d) && Accepts(l, d.inputs) && i < l.inNodes && o < l.outNodes
    ensures UpdateGradients(l, d).weightGradient[GetIndex(l, i, o)]
         == l.weightGradient[GetIndex(l, i, o)] + d.inputs[i] * d.nodeValues[o]
  {
  }

  lemma UpdateGradientsTwiceAt(l: Layer, d1: LayerData, d2: LayerData, i: nat, o: nat)
    requires Valid(l) && Shaped(l, d1) && Accepts(l, d1.inputs) && Shaped(l, d2) && Accepts(l, d2.inputs)
    requires i < l.inNodes && o < l.outNodes
    ensures UpdateGradients(UpdateGradients(l, d1), d2).weightGradient[GetIndex(l, i, o)]
         == l.weightGradient[GetIndex(l, i, o)] + d1.inputs[i] * d1.nodeValues[o] + d2.inputs[i] * d2.nodeValues[o]
  {
    var l1 := UpdateGradients(l, d1);
    UpdateGradientsAt(l, d1, i, o);
    UpdateGradientsAt(l1, d2, i, o);
    assert GetIndex(l1, i, o) == GetIndex(l, i, o);
  }

  /** Two accumulations add up: after two examples every gradient holds both contributions,
      and the parameters themselves have not moved. */
  lemma UpdateGradientsAccumulates(l: Layer, d1: LayerData, d2: LayerData)
    requires Valid(l) && Shaped(l, d1) && Accepts(l, d1.inputs) && Shaped(l, d2) && Accepts(l, d2.inputs)
    ensures var r := UpdateGradients(UpdateGradients(l, d1), d2);
      && r.weights == l.weights && r.biases == l.biases
      && r.weightVelocities == l.weightVelocities && r.biasesVelocities == l.biasesVelocities
      && (forall i, o :: 0 <= i < l.inNodes && 0 <= o < l.outNodes ==>
            r.weightGradient[GetIndex(l, i, o)] == l.weightGradient[GetIndex(l, i, o)]
              + d1.inputs[i] * d1.nodeValues[o] + d2.inputs[i] * d2.nodeValues[o])
      && (forall o :: 0 <= o < l.outNodes ==> r.biasesGradient[o] == l.biasesGradient[o] + d1.nodeValues[o] + d2.nodeValues[o])
  {
    forall i, o | 0 <= i < l.inNodes && 0 <= o < l.outNodes {
      UpdateGradientsTwiceAt(l, d1, d2, i, o);
    }
  }

  lemma UpdateGradientsCommuteAt(l: Layer, d1: LayerData, d2: LayerData, k: nat)
    requires Valid(l) && Shaped(l, d1) && Accepts(l, d1.inputs) && Shaped(l, d2) && Accepts(l, d2.inputs)
    requires k < |l.weightGradient|
    ensures UpdateGradients(UpdateGradients(l, d1), d2).weightGradient[k]
         == UpdateGradients(UpdateGradients(l, d2), d1).weightGradient[k]
  {
    GetIndexOnto(l, k);
    var i, o := k % l.inNodes, k / l.inNodes;
    UpdateGradientsTwiceAt(l, d1, d2, i, o);
    UpdateGradientsTwiceAt(l, d2, d1, i, o);
  }

  /** The order in which examples are accumulated does not matter. */
  lemma UpdateGradientsCommute(l: Layer, d1: LayerData, d2: LayerData)
    requires Valid(l) && Shaped(l, d1) && Accepts(l, d1.inputs) && Shaped(l, d2) && Accepts(l, d2.inputs)
    ensures UpdateGradients(UpdateGradients(l, d1), d2) == UpdateGradients(UpdateGradients(l, d2), d1)
  {
    var r := UpdateGradients(UpdateGradients(l, d1), d2);
    var r' := UpdateGradients(UpdateGradients(l, d2), d1);
    forall k | 0 <= k < |l.weightGradient|
      ensures r.weightGradient[k] == r'.weightGradient[k]
    {
      UpdateGradientsCommuteAt(l, d1, d2, k);
    }
    assert r.weightGradient == r'.weightGradient;
    assert r.biasesGradient == r'.biasesGradient;
  }

  // ---------------------------------------------------------------------------------------
  // The update step

  /** `gradient(learnRate, regularization, momentum)`: each velocity becomes
      `velocity * momentum - gradient * learnRate`; each weight is first decayed by
      `1 - regularization * learnRate` and then moved by its new velocity; each bias is moved
      by its new velocity with no decay; every gradient is reset to zero. */
  function Gradient(l: Layer, learnRate: real, regularization: real, momentum: real): (r: Layer)
    requires Valid(l)
    ensures SameShape(l, r)
    ensures forall k :: 0 <= k < |r.weightGradient| ==> r.weightGradient[k] == 0.0
    ensures forall o :: 0 <= o < r.outNodes ==> r.biasesGradient[o] == 0.0
    ensures forall k :: 0 <= k < |l.weights| ==>
      r.weightVelocities[k] == l.weightVelocities[k] * momentum - l.weightGradient[k] * learnRate
    ensures forall o :: 0 <= o < l.outNodes ==>
      r.biasesVelocities[o] == l.biasesVelocities[o] * momentum - l.biasesGradient[o] * learnRate
    ensures forall k :: 0 <= k < |l.weights| ==>
      r.weights[k] == l.weights[k] * (1.0 - regularization * learnRate) + r.weightVelocities[k]
    ensures forall o :: 0 <= o < l.outNodes ==> r.biases[o] == l.biases[o] + r.biasesVelocities[o]
  {
    var decay := 1.0 - regularization * learnRate;
    var n := |l.weights|;
    var wv := seq(n, i requires 0 <= i < n => l.weightVelocities[i] * momentum - l.weightGradient[i] * learnRate);
    var bv := seq(l.outNodes, i requires 0 <= i < l.outNodes => l.biasesVelocities[i] * momentum - l.biasesGradient[i] * learnRate);
    l.(weights := seq(n, i requires 0 <= i < n => l.weights[i] * decay + wv[i]),
       weightGradient := Zeros(n),
       weightVelocities := wv,
       biases := seq(l.outNodes, i requires 0 <= i < l.outNodes => l.biases[i] + bv[i]),
       biasesGradient := Zeros(l.outNodes),
       biasesVelocities := bv)
  }

  /** Without momentum and regularization the update is plain gradient descent: every weight
      and bias moves by exactly `-learnRate` times its gradient. */
  lemma PlainGradientStep(l: Layer, learnRate: real)
    requires Valid(l)
    ensures var r := Gradient(l, learnRate, 0.0, 0.0);
      && (forall k :: 0 <= k < |l.weights| ==> r.weights[k] == l.weights[k] - learnRate * l.weightGradient[k])
      && (forall o :: 0 <= o < l.outNodes ==> r.biases[o] == l.biases[o] - learnRate * l.biasesGradient[o])
  {
  }

  /** One slot of `PlainGradientStep`. */
  lemma PlainGradientStepAt(l: Layer, learnRate: real, k: nat)
    requires Valid(l) && k < |l.weights|
    ensures Gradient(l, learnRate, 0.0, 0.0).weights[k] == l.weights[k] - learnRate * l.weightGradient[k]
  {
  }

  /** Regularization touches only the weights: the biases and their velocities come out the
      same whatever its value. */
  lemma BiasesIgnoreRegularization(l: Layer, learnRate: real, reg1: real, reg2: real, momentum: real)
    requires Valid(l)
    ensures Gradient(l, learnRate, reg1, momentum).biases == Gradient(l, learnRate, reg2, momentum).biases
    ensures Gradient(l, learnRate, reg1, momentum).biasesVelocities == Gradient(l, learnRate, reg2, momentum).biasesVelocities
    ensures Gradient(l, learnRate, reg1, momentum).weightVelocities == Gradient(l, learnRate, reg2, momentum).weightVelocities
  {
  }

  /** Velocities persist: a second update with no new gradient moves every weight velocity by
      the momentum factor alone. */
  lemma MomentumCarriesOver(l: Layer, learnRate: real, regularization: real, momentum: real)
    requires Valid(l)
    ensures var r1 := Gradient(l, learnRate, regularization, momentum);
      var r2 := Gradient(r1, learnRate, regularization, momentum);
      forall k :: 0 <= k < |l.weights| ==> r2.weightVelocities[k] == r1.weightVelocities[k] * momentum
  {
  }

  // ---------------------------------------------------------------------------------------
  // Weight addressing: the product scheme against the affine one

  /** Under the product scheme every connection that touches input 0 or output 0 reads the
      same slot 0: those weights cannot differ from each other. */
  lemma ProductSharesSlotZero(l: Layer, i: nat, o: nat)
    requires Valid(l) && l.scheme == Product && i < l.inNodes && o < l.outNodes
    ensures GetWeight(l, 0, o) == GetWeight(l, i, 0) == l.weights[0]
  {
  }

  /** Under the product scheme the last slot of a layer with more than one connection is dead:
      no connection's `getWeight` reads it and the initializer leaves it at zero, yet the
      gradient of connection (inNodes - 1, outNodes - 1) is accumulated into it. */
  lemma ProductLeavesDeadSlot(inputNodes: nat, outputNodes: nat, initVals: seq<real>, draw: (nat, nat) -> real)
    requires inputNodes >= 1 && outputNodes >= 1 && inputNodes + outputNodes > 2 && |initVals| >= 2
    ensures var r := NewLayer(Product, inputNodes, outputNodes, initVals, draw);
      && r.Ok?
      && (forall i, o :: 0 <= i < inputNodes && 0 <= o < outputNodes ==>
            WeightSlot(r.value, i, o) != inputNodes * outputNodes - 1)
      && r.value.weights[inputNodes * outputNodes - 1] == 0.0
      && GetIndex(r.value, inputNodes - 1, outputNodes - 1) == inputNodes * outputNodes - 1
  {
    var r := NewLayer(Product, inputNodes, outputNodes, initVals, draw);
    var l := r.value;
    var last := inputNodes * outputNodes - 1;
    assert (inputNodes - 1) * (outputNodes - 1) == inputNodes * outputNodes - inputNodes - outputNodes + 1;
    forall i, o | 0 <= i < inputNodes && 0 <= o < outputNodes
      ensures WeightSlot(l, i, o) != last
    {
      ProductAtMost(i, o, inputNodes, outputNodes);
    }
    InitializeRowsProductFrame(Blank(Product, inputNodes, outputNodes), draw, inputNodes, last);
    TimesIsProduct(outputNodes - 1, inputNodes);
    assert (outputNodes - 1) * inputNodes == inputNodes * outputNodes - inputNodes;
  }

  /** Under the product scheme a descent step can miss the connection it is computed for: in a
      2x2 layer with clear gradients, input [1, 0] and node values [0, 1] give connection
      (0, 1) a unit gradient, yet the weight `getWeight(0, 1)` reads does not move, because
      the step lands in a slot no connection reads. */
  lemma ProductStepMissesConnection(l: Layer, d: LayerData, learnRate: real)
    requires Valid(l) && l.scheme == Product && l.inNodes == 2 && l.outNodes == 2
    requires forall k :: 0 <= k < 4 ==> l.weightGradient[k] == 0.0
    requires Shaped(l, d) && d.inputs == [1.0, 0.0] && d.nodeValues == [0.0, 1.0]
    requires learnRate != 0.0
    ensures var g := UpdateGradients(l, d);
      var stepped := Gradient(g, learnRate, 0.0, 0.0);
      && g.weightGradient[GetIndex(l, 0, 1)] == 1.0
      && GetWeight(stepped, 0, 1) == GetWeight(l, 0, 1)
      && stepped.weights[GetIndex(l, 0, 1)] != l.weights[GetIndex(l, 0, 1)]
  {
    var g := UpdateGradients(l, d);
    TimesIsProduct(0, 2);
    TimesIsProduct(1, 2);
    assert GetIndex(l, 0, 0) == 0 && GetIndex(l, 0, 1) == 2;
    UpdateGradientsAt(l, d, 0, 0);
    UpdateGradientsAt(l, d, 0, 1);
    assert g.weightGradient[0] == 0.0;
    assert g.weightGradient[2] == 1.0;
    PlainGradientStep(g, learnRate);
  }

  /** Under the affine scheme a plain descent step moves each connection's effective weight by
      exactly `-learnRate` times the gradient accumulated for that connection. */
  lemma AffineStepDescends(l: Layer, d: LayerData, learnRate: real, i: nat, o: nat)
    requires Valid(l) && l.scheme == Affine && Shaped(l, d) && Accepts(l, d.inputs)
    requires i < l.inNodes && o < l.outNodes
    ensures var g := UpdateGradients(l, d);
      && g.weightGradient[GetIndex(l, i, o)] == l.weightGradient[GetIndex(l, i, o)] + d.inputs[i] * d.nodeValues[o]
      && GetWeight(Gradient(g, learnRate, 0.0, 0.0), i, o) == GetWeight(l, i, o) - learnRate * g.weightGradient[GetIndex(l, i, o)]
  {
    var g := UpdateGradients(l, d);
    UpdateGradientsAt(l, d, i, o);
    AffineStepAt(g, learnRate, i, o);
    assert GetIndex(g, i, o) == GetIndex(l, i, o);
  }

  /** One connection of a plain step under the affine scheme: the weight it reads moves by
      `-learnRate` times the gradient at its own slot. */
  lemma AffineStepAt(g: Layer, learnRate: real, i: nat, o: nat)
    requires Valid(g) && g.scheme == Affine && i < g.inNodes && o < g.outNodes
    ensures GetWeight(Gradient(g, learnRate, 0.0, 0.0), i, o) == GetWeight(g, i, o) - learnRate * g.weightGradient[GetIndex(g, i, o)]
  {
    PlainGradientStepAt(g, learnRate, GetIndex(g, i, o));
  }
}
