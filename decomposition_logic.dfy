/** The logic class of the low-rank image decomposition module
    (LowRankImageDecomposition/LowRankImageDecomposition.py): checks on the input and
    output volume nodes, and the validation that `run` performs before it decomposes
    the input volume into a low-rank and a sparse volume.

    The decomposition itself (`ialm.recover`) belongs to the pyLAR library and is not
    part of this model; a successful run is the value `Decomposed`. */
module DecompositionLogic {
  import opened Wrappers

  /** A scalar volume node of the scene: its ID and name, and its image data,
      `None` when the node has none. */
  datatype VolumeNode = VolumeNode(id: string, name: string, imageData: Option<seq<int>>)

  /** `hasImageData`: the node exists and carries image data. */
  function HasImageData(node: Option<VolumeNode>): (ok: bool)
    ensures node.None? ==> !ok
    ensures node.Some? && node.value.imageData.None? ==> !ok
    ensures ok <==> node.Some? && node.value.imageData.Some?
  {
    if node.None? then false
    else if node.value.imageData.None? then false
    else true
  }

  /** Why `isValidInputOutputData` rejects a pair, in the order it checks. */
  datatype PairProblem = NoInput | NoOutput | SameVolume

  /** The first problem `isValidInputOutputData` finds with a pair of nodes. */
  function PairCheck(input: Option<VolumeNode>, output: Option<VolumeNode>): (p: Option<PairProblem>)
    ensures p == Some(NoInput) <==> input.None?
    ensures p == Some(NoOutput) <==> input.Some? && output.None?
    ensures p == Some(SameVolume) <==> input.Some? && output.Some? && input.value.id == output.value.id
  {
    if input.None? then Some(NoInput)
    else if output.None? then Some(NoOutput)
    else if input.value.id == output.value.id then Some(SameVolume)
    else None
  }

  /** `isValidInputOutputData`: both nodes exist and are different volumes. */
  function IsValidInputOutputData(input: Option<VolumeNode>, output: Option<VolumeNode>): (ok: bool)
    ensures input.None? ==> !ok
    ensures output.None? ==> !ok
    ensures ok <==> input.Some? && output.Some? && input.value.id != output.value.id
  {
    PairCheck(input, output).None?
  }

  /** The three pairs `run` checks, in its order. */
  datatype Pair = InputLowRank | InputSparse | LowRankSparse

  /** The message `run` shows when a pair is rejected. */
  function ErrorMessage(p: Pair): string
  {
    match p
    case InputLowRank =>
      "Input volume is the same as the output low-rank volume.       Choose a different output low-rank volume."
    case InputSparse =>
      "Input volume is the same as the output sparse volume.       Choose a different output sparse volume."
    case LowRankSparse =>
      "Output low-rank volume is the same as the output sparse volume.       Choose a different output volume."
  }

  /** The first pair that fails validation. */
  function FirstInvalidPair(input: Option<VolumeNode>, lowRank: Option<VolumeNode>, sparse: Option<VolumeNode>): (p: Option<Pair>)
    ensures p == Some(InputLowRank) <==> !IsValidInputOutputData(input, lowRank)
    ensures p == Some(InputSparse) <==>
              IsValidInputOutputData(input, lowRank) && !IsValidInputOutputData(input, sparse)
    ensures p == Some(LowRankSparse) <==>
              IsValidInputOutputData(input, lowRank) && IsValidInputOutputData(input, sparse)
              && !IsValidInputOutputData(lowRank, sparse)
  {
    if !IsValidInputOutputData(input, lowRank) then Some(InputLowRank)
    else if !IsValidInputOutputData(input, sparse) then Some(InputSparse)
    else if !IsValidInputOutputData(lowRank, sparse) then Some(LowRankSparse)
    else None
  }

  /** The three volumes are present and pairwise distinct by ID. */
  predicate DistinctVolumes(input: Option<VolumeNode>, lowRank: Option<VolumeNode>, sparse: Option<VolumeNode>)
  {
    && input.Some? && lowRank.Some? && sparse.Some?
    && input.value.id != lowRank.value.id
    && input.value.id != sparse.value.id
    && lowRank.value.id != sparse.value.id
  }

  /** What a call of `run` comes to: refused because of a pair, whose message it
      shows before returning `False`; the input decomposed into the two outputs
      (it returns `True`); or a `NameError` raised for an undefined name. */
  datatype RunOutcome =
    | Refused(pair: Pair)
    | Decomposed(source: VolumeNode, lowRank: VolumeNode, sparse: VolumeNode)
    | NameError(undefined: string)

  /** `run` as written: after validation and the call to the solver it converts the
      results with `np.asarray` and pushes them with `sitkUtils`, but neither `np`
      nor `sitkUtils` is imported by the module, so it raises `NameError`. */
  function RunAsWritten(input: Option<VolumeNode>, lowRank: Option<VolumeNode>, sparse: Option<VolumeNode>): RunOutcome
  {
    match FirstInvalidPair(input, lowRank, sparse)
    case Some(p) => Refused(p)
    case None => NameError("np")
  }

  /** `run` with the missing imports added: validation, then the decomposition. */
  function Run(input: Option<VolumeNode>, lowRank: Option<VolumeNode>, sparse: Option<VolumeNode>): RunOutcome
  {
    match FirstInvalidPair(input, lowRank, sparse)
    case Some(p) => Refused(p)
    case None => Decomposed(input.value, lowRank.value, sparse.value)
  }

  /** `run` reaches the decomposition exactly when the three volumes are present
      and pairwise distinct, and then decomposes the input into the two outputs;
      otherwise it returns `False` with the message of the first failing pair. */
  lemma RunDecomposesIffDistinct(input: Option<VolumeNode>, lowRank: Option<VolumeNode>, sparse: Option<VolumeNode>)
    ensures Run(input, lowRank, sparse).Decomposed? <==> DistinctVolumes(input, lowRank, sparse)
    ensures Run(input, lowRank, sparse).Decomposed? ==>
              Run(input, lowRank, sparse) == Decomposed(input.value, lowRank.value, sparse.value)
    ensures !Run(input, lowRank, sparse).Decomposed? ==>
              FirstInvalidPair(input, lowRank, sparse).Some? &&
              Run(input, lowRank, sparse) == Refused(FirstInvalidPair(input, lowRank, sparse).value)
  {
  }

  /** A missing input volume is always reported as the input/low-rank pair. */
  lemma MissingInputBlamesFirstPair(lowRank: Option<VolumeNode>, sparse: Option<VolumeNode>)
    ensures Run(None, lowRank, sparse) == Refused(InputLowRank)
  {
  }

  /** As written, `run` never returns `True`: with valid volumes it raises. */
  lemma RunAsWrittenNeverSucceeds(input: Option<VolumeNode>, lowRank: Option<VolumeNode>, sparse: Option<VolumeNode>)
    ensures !RunAsWritten(input, lowRank, sparse).Decomposed?
    ensures DistinctVolumes(input, lowRank, sparse) ==> RunAsWritten(input, lowRank, sparse) == NameError("np")
    ensures !DistinctVolumes(input, lowRank, sparse) ==> RunAsWritten(input, lowRank, sparse) == Run(input, lowRank, sparse)
  {
  }

  /** Three distinct volumes: the corrected `run` decomposes, the written one raises. */
  lemma RunAsWrittenCounterexample()
    ensures var a, b, c := VolumeNode("1", "input", Some([0])), VolumeNode("2", "lowRank", None),
                           VolumeNode("3", "sparse", None);
            && RunAsWritten(Some(a), Some(b), Some(c)) == NameError("np")
            && Run(Some(a), Some(b), Some(c)) == Decomposed(a, b, c)
  {
    var a, b, c := VolumeNode("1", "input", Some([0])), VolumeNode("2", "lowRank", None),
                   VolumeNode("3", "sparse", None);
    assert a.id[0] != b.id[0] && a.id[0] != c.id[0] && b.id[0] != c.id[0];
    assert DistinctVolumes(Some(a), Some(b), Some(c));
    RunDecomposesIffDistinct(Some(a), Some(b), Some(c));
    RunAsWrittenNeverSucceeds(Some(a), Some(b), Some(c));
  }
}
