/** The packaged copy of the training example (Network/DataPoint.java), whose vectors hold
    boxed `Double`s. A boxed array starts out full of nulls, so its one-hot vector has a
    null wherever the primitive copy has a zero. */
module BoxedDataPoints {
  import opened Errors
  import DataPoints

  datatype BoxedDataPoint = BoxedDataPoint(inputs: seq<Option<real>>, expectedOutputs: seq<Option<real>>, classLabel: int)

  /** Reading a boxed value as a `double`: a null throws. */
  function Unbox(o: Option<real>): (r: Result<real>)
    ensures r.Ok? <==> o.Some?
    ensures r.Err? ==> r.fault == NullPointer
  {
    match o
    case Some(v) => Ok(v)
    case None => Err(NullPointer)
  }

  /** The boxed one-hot as written: 1.0 at `index`, and every other entry left null. */
  function CreateOneHot(index: int, num: int): (r: Result<seq<Option<real>>>)
    ensures num < 0 ==> r == Err(NegativeArraySize)
    ensures 0 <= num && !(0 <= index < num) ==> r == Err(IndexOutOfBounds)
    ensures r.Ok? <==> 0 <= index < num
    ensures r.Ok? ==> |r.value| == num && r.value[index] == Some(1.0)
    ensures r.Ok? ==> forall j :: 0 <= j < num && j != index ==> r.value[j].None?
  {
    if num < 0 then
      Err(NegativeArraySize)
    else if !(0 <= index < num) then
      Err(IndexOutOfBounds)
    else
      Ok(seq(num, j => None)[index := Some(1.0)])
  }

  /** With two or more labels the boxed one-hot cannot be read back in full: some entry
      other than the label's is null, and unboxing it throws. */
  lemma BoxedOneHotHasNull(index: int, num: int)
    requires 0 <= index < num && num >= 2
    ensures CreateOneHot(index, num).Ok?
    ensures var j := if index == 0 then 1 else 0;
      j != index && Unbox(CreateOneHot(index, num).value[j]) == Err(NullPointer)
  {
  }

  /** The boxed one-hot as evidently intended: every entry is filled, agreeing with the
      primitive copy entry by entry. */
  function CreateOneHotFilled(index: int, num: int): (r: Result<seq<Option<real>>>)
    ensures r.Ok? <==> DataPoints.CreateOneHot(index, num).Ok?
    ensures r.Err? ==> r.fault == DataPoints.CreateOneHot(index, num).fault
    ensures r.Ok? ==> |r.value| == num
    ensures r.Ok? ==> forall j :: 0 <= j < num ==>
      Unbox(r.value[j]) == Ok(DataPoints.CreateOneHot(index, num).value[j])
  {
    if num < 0 then
      Err(NegativeArraySize)
    else if !(0 <= index < num) then
      Err(IndexOutOfBounds)
    else
      Ok(seq(num, j => Some(0.0))[index := Some(1.0)])
  }

  /** The constructor keeps the inputs and label and derives the expected outputs. */
  function NewBoxedDataPoint(inputs: seq<Option<real>>, labelIndex: int, numLabels: int): (r: Result<BoxedDataPoint>)
    ensures r.Ok? <==> 0 <= labelIndex < numLabels
    ensures r.Ok? ==> r.value.inputs == inputs && r.value.classLabel == labelIndex
    ensures r.Ok? ==> r.value.expectedOutputs == CreateOneHot(labelIndex, numLabels).value
  {
    var oneHot :- CreateOneHot(labelIndex, numLabels);
    Ok(BoxedDataPoint(inputs, oneHot, labelIndex))
  }
}
