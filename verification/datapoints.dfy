/** A training example (DataPoint.java): an input vector, its class label, and the one-hot
    vector the network is trained towards. */
module DataPoints {
  import opened Errors

  datatype DataPoint = DataPoint(inputs: seq<real>, expectedOutputs: seq<real>, classLabel: int)

  /** `num` entries, 1 at `index` and 0 elsewhere. Allocating a negative length and writing
      outside the array are the two ways the source can fail, in that order. */
  function CreateOneHot(index: int, num: int): (r: Result<seq<real>>)
    ensures num < 0 ==> r == Err(NegativeArraySize)
    ensures 0 <= num && !(0 <= index < num) ==> r == Err(IndexOutOfBounds)
    ensures r.Ok? <==> 0 <= index < num
    ensures r.Ok? ==> |r.value| == num
    ensures r.Ok? ==> forall j :: 0 <= j < num ==> (r.value[j] == 1.0 <==> j == index)
    ensures r.Ok? ==> forall j :: 0 <= j < num ==> (r.value[j] == 0.0 <==> j != index)
  {
    if num < 0 then
      Err(NegativeArraySize)
    else if !(0 <= index < num) then
      Err(IndexOutOfBounds)
    else
      Ok(seq(num, j => 0.0)[index := 1.0])
  }

  /** The constructor keeps the inputs and label and derives the expected outputs. */
  function NewDataPoint(inputs: seq<real>, labelIndex: int, numLabels: int): (r: Result<DataPoint>)
    ensures r.Ok? <==> 0 <= labelIndex < numLabels
    ensures r.Err? ==> r == CreateOneHot(labelIndex, numLabels).PropagateFailure()
    ensures r.Ok? ==> r.value.inputs == inputs && r.value.classLabel == labelIndex
    ensures r.Ok? ==> r.value.expectedOutputs == CreateOneHot(labelIndex, numLabels).value
  {
    var oneHot :- CreateOneHot(labelIndex, numLabels);
    Ok(DataPoint(inputs, oneHot, labelIndex))
  }
}
