/** `createConfiguration` of the scripted atlas module (Script/LowRankImageDecomposition.py):
    builds the configuration record pyLAR reads, with fields that depend on the
    algorithm tag `'lr'` (low-rank/sparse decomposition), `'uab'` (unbiased atlas
    creation) or `'nglra'` (non-greedy low-rank atlas creation).

    The Python object gets attributes assigned one by one; here it is a record with
    one optional field per attribute that only some algorithms set. */
module Configuration {
  import opened Wrappers
  import opened PyText

  /** A value of the ANTs parameter dictionary: text, or the integer `Dimension`. */
  datatype ParamValue = Text(text: string) | Number(number: int)

  type AntsParams = map<string, ParamValue>

  /** The ANTs parameters used when the caller passes none. */
  const DefaultAntsParams: AntsParams := map[
    "Convergence" := Text("[100x50x25,1e-6,10]"),
    "Dimension" := Number(3),
    "ShrinkFactors" := Text("4x2x1"),
    "SmoothingSigmas" := Text("2x1x0vox"),
    "Transform" := Text("SyN[0.1,1,0]"),
    "Metric" := Text("MeanSquares[fixedIm,movingIm,1,0]")]

  const UnknownAlgorithm: string := "Unknown algorithm to create configuration file"

  /** The arguments of `createConfiguration`; `None` stands for Python's `None`. */
  datatype ConfigArgs = ConfigArgs(
    algo: string,
    referenceImFn: string,
    fileListFileName: string,
    selection: seq<int>,
    lamda: real,
    verbose: bool,
    resultDir: Option<string>,
    itkThreads: Option<int>,
    clean: bool,
    registration: string,
    histogramMatching: bool,
    sigma: real,
    numOfIterationsPerLevel: int,
    numOfLevels: int,
    antsParams: Option<AntsParams>,
    useHealthyAtlas: bool,
    registrationType: string)

  /** A call that passes only the four positional arguments, every keyword at its default. */
  function DefaultArgs(algo: string, referenceImFn: string, fileListFileName: string, selection: seq<int>): (a: ConfigArgs)
    ensures a.algo == algo && a.referenceImFn == referenceImFn
    ensures a.fileListFileName == fileListFileName && a.selection == selection
  {
    ConfigArgs(algo, referenceImFn, fileListFileName, selection, 2.0, true, None, None, true,
               "affine", false, 0.0, 4, 1, None, false, "ANTS")
  }

  /** The configuration record; the optional fields are the attributes only some
      algorithms (or only a truthy argument) add. */
  datatype Config = Config(
    fileListFileName: string,
    referenceImFn: string,
    lamda: real,
    verbose: bool,
    resultDir: string,
    selection: seq<int>,
    itkThreads: Option<int>,
    clean: bool,
    registration: Option<string>,
    histogramMatching: Option<bool>,
    sigma: Option<real>,
    numOfIterationsPerLevel: Option<int>,
    numOfLevels: Option<int>,
    antsParams: Option<AntsParams>,
    useHealthyAtlas: Option<bool>,
    registrationType: Option<string>)

  /** The attributes the Python configuration object can carry. */
  datatype Attribute =
    | FileListFileName | ReferenceImFn | Lamda | Verbose | ResultDirAttr | Selection | Clean
    | ItkThreads | Registration | HistogramMatching | Sigma
    | NumOfIterationsPerLevel | NumOfLevels | AntsParamsAttr | UseHealthyAtlas | RegistrationType

  /** The Python name of each attribute. */
  function AttributeName(x: Attribute): string
  {
    match x
    case FileListFileName => "file_list_file_name"
    case ReferenceImFn => "reference_im_fn"
    case Lamda => "lamda"
    case Verbose => "verbose"
    case ResultDirAttr => "result_dir"
    case Selection => "selection"
    case Clean => "clean"
    case ItkThreads => "ITK_GLOBAL_DEFAULT_NUMBER_OF_THREADS"
    case Registration => "registration"
    case HistogramMatching => "histogram_matching"
    case Sigma => "sigma"
    case NumOfIterationsPerLevel => "num_of_iterations_per_level"
    case NumOfLevels => "num_of_levels"
    case AntsParamsAttr => "ants_params"
    case UseHealthyAtlas => "use_healthy_atlas"
    case RegistrationType => "registration_type"
  }

  /** Distinct attributes have distinct Python names, so a set of attributes
      stands for the set of their names. */
  lemma AttributeNamesDistinct(x: Attribute, y: Attribute)
    requires AttributeName(x) == AttributeName(y)
    ensures x == y
  {
  }

  /** The attributes a configuration record carries. */
  function Attributes(c: Config): set<Attribute>
  {
    {FileListFileName, ReferenceImFn, Lamda, Verbose, ResultDirAttr, Selection, Clean}
    + (if c.itkThreads.Some? then {ItkThreads} else {})
    + (if c.registration.Some? then {Registration} else {})
    + (if c.histogramMatching.Some? then {HistogramMatching} else {})
    + (if c.sigma.Some? then {Sigma} else {})
    + (if c.numOfIterationsPerLevel.Some? then {NumOfIterationsPerLevel} else {})
    + (if c.numOfLevels.Some? then {NumOfLevels} else {})
    + (if c.antsParams.Some? then {AntsParamsAttr} else {})
    + (if c.useHealthyAtlas.Some? then {UseHealthyAtlas} else {})
    + (if c.registrationType.Some? then {RegistrationType} else {})
  }

  /** The attributes every successful configuration carries. */
  function CommonAttributes(a: ConfigArgs): set<Attribute>
  {
    {FileListFileName, ReferenceImFn, Lamda, Verbose, ResultDirAttr, Selection, Clean}
    + (if a.itkThreads.Some? && a.itkThreads.value != 0 then {ItkThreads} else {})
  }

  /** The three algorithms pyLAR runs. */
  datatype Algorithm = LowRank | UnbiasedAtlas | NonGreedyAtlas

  /** The algorithm a tag names: `'lr'`, `'uab'` or `'nglra'`. */
  function ParseAlgorithm(tag: string): (r: Option<Algorithm>)
    ensures r == Some(LowRank) <==> tag == "lr"
    ensures r == Some(UnbiasedAtlas) <==> tag == "uab"
    ensures r == Some(NonGreedyAtlas) <==> tag == "nglra"
  {
    if tag == "lr" then Some(LowRank)
    else if tag == "nglra" then Some(NonGreedyAtlas)
    else if tag == "uab" then Some(UnbiasedAtlas)
    else None
  }

  /** The result directory: the given one, or `<temporary path>/output` when the
      argument is `None` or empty. */
  function ResultDir(resultDir: Option<string>, tempDir: string): (dir: string)
    ensures dir != ""
    ensures resultDir.Some? && resultDir.value != "" ==> dir == resultDir.value
    ensures resultDir.None? || resultDir.value == "" ==>
              dir == PathJoin(tempDir, "output") && dir[|dir| - 6..] == "output"
  {
    PathJoinParts(tempDir, "output");
    if resultDir.None? || resultDir.value == "" then PathJoin(tempDir, "output") else resultDir.value
  }

  /** Builds the configuration record; `tempDir` is the host application's temporary path. */
  function CreateConfiguration(a: ConfigArgs, tempDir: string): (r: Result<Config, string>)
    ensures r.Failure? <==> ParseAlgorithm(a.algo).None?
    ensures r.Failure? ==> r.error == UnknownAlgorithm
    ensures r.Success? ==>
      var c := r.value;
      && c.fileListFileName == a.fileListFileName && c.referenceImFn == a.referenceImFn
      && c.lamda == a.lamda && c.verbose == a.verbose
      && c.selection == a.selection && c.clean == a.clean
      && c.resultDir == ResultDir(a.resultDir, tempDir)
      && (c.itkThreads.Some? <==> a.itkThreads.Some? && a.itkThreads.value != 0)
      && (c.itkThreads.Some? ==> c.itkThreads == a.itkThreads)
    ensures r.Success? && ParseAlgorithm(a.algo) == Some(LowRank) ==>
      var c := r.value;
      && c.registration == Some(a.registration) && c.histogramMatching == Some(a.histogramMatching)
      && c.sigma == Some(a.sigma)
      && c.numOfIterationsPerLevel.None? && c.numOfLevels.None? && c.antsParams.None?
      && c.useHealthyAtlas.None? && c.registrationType.None?
    ensures r.Success? && ParseAlgorithm(a.algo) != Some(LowRank) ==>
      var c := r.value;
      && c.numOfIterationsPerLevel == Some(a.numOfIterationsPerLevel) && c.numOfLevels == Some(a.numOfLevels)
      && c.antsParams == Some(if a.antsParams.None? then DefaultAntsParams else a.antsParams.value)
      && c.registration.None? && c.histogramMatching.None?
    ensures r.Success? && ParseAlgorithm(a.algo) == Some(NonGreedyAtlas) ==>
      var c := r.value;
      c.useHealthyAtlas == Some(a.useHealthyAtlas) && c.sigma == Some(a.sigma)
      && c.registrationType == Some(a.registrationType)
    ensures r.Success? && ParseAlgorithm(a.algo) == Some(UnbiasedAtlas) ==>
      var c := r.value;
      c.useHealthyAtlas.None? && c.sigma.None? && c.registrationType.None?
  {
    var resultDir := ResultDir(a.resultDir, tempDir);
    var itkThreads := if a.itkThreads.Some? && a.itkThreads.value != 0 then a.itkThreads else None;
    var ants := if a.antsParams.None? then DefaultAntsParams else a.antsParams.value;
    match ParseAlgorithm(a.algo)
    case Some(LowRank) =>
      Success(Config(a.fileListFileName, a.referenceImFn, a.lamda, a.verbose, resultDir, a.selection,
                     itkThreads, a.clean, Some(a.registration), Some(a.histogramMatching), Some(a.sigma),
                     None, None, None, None, None))
    case Some(NonGreedyAtlas) =>
      Success(Config(a.fileListFileName, a.referenceImFn, a.lamda, a.verbose, resultDir, a.selection,
                     itkThreads, a.clean, None, None, Some(a.sigma),
                     Some(a.numOfIterationsPerLevel), Some(a.numOfLevels), Some(ants),
                     Some(a.useHealthyAtlas), Some(a.registrationType)))
    case Some(UnbiasedAtlas) =>
      Success(Config(a.fileListFileName, a.referenceImFn, a.lamda, a.verbose, resultDir, a.selection,
                     itkThreads, a.clean, None, None, None,
                     Some(a.numOfIterationsPerLevel), Some(a.numOfLevels), Some(ants), None, None))
    case None => Failure(UnknownAlgorithm)
  }

  /** `'lr'` adds registration, histogram matching and sigma to the common attributes. */
  lemma LowRankAttributes(a: ConfigArgs, tempDir: string)
    requires a.algo == "lr"
    ensures CreateConfiguration(a, tempDir).Success?
    ensures Attributes(CreateConfiguration(a, tempDir).value) ==
            CommonAttributes(a) + {Registration, HistogramMatching, Sigma}
  {
  }

  /** `'uab'` adds the level count, the iterations per level and the ANTs parameters. */
  lemma UnbiasedAtlasAttributes(a: ConfigArgs, tempDir: string)
    requires a.algo == "uab"
    ensures CreateConfiguration(a, tempDir).Success?
    ensures Attributes(CreateConfiguration(a, tempDir).value) ==
            CommonAttributes(a) + {NumOfIterationsPerLevel, NumOfLevels, AntsParamsAttr}
  {
  }

  /** `'nglra'` adds what `'uab'` adds plus the healthy-atlas flag, sigma and the
      registration type. */
  lemma NonGreedyAtlasAttributes(a: ConfigArgs, tempDir: string)
    requires a.algo == "nglra"
    ensures CreateConfiguration(a, tempDir).Success?
    ensures Attributes(CreateConfiguration(a, tempDir).value) ==
            CommonAttributes(a) + {NumOfIterationsPerLevel, NumOfLevels, AntsParamsAttr,
                                   UseHealthyAtlas, Sigma, RegistrationType}
  {
  }

  /** An atlas configuration built without ANTs parameters carries the default
      dictionary: its six keys, with `Dimension` the integer 3. */
  lemma DefaultAntsParamsApplied(a: ConfigArgs, tempDir: string)
    requires a.algo == "uab" || a.algo == "nglra"
    requires a.antsParams.None?
    ensures CreateConfiguration(a, tempDir).Success?
    ensures var ants := CreateConfiguration(a, tempDir).value.antsParams;
      && ants.Some?
      && ants.value.Keys == {"Convergence", "Dimension", "ShrinkFactors", "SmoothingSigmas", "Transform", "Metric"}
      && ants.value["Dimension"] == Number(3)
  {
  }

  /** With every keyword at its default, `'lr'` uses affine registration without
      histogram matching, sigma 0 and the default result directory, and sets no
      thread count. */
  lemma LowRankDefaults(referenceImFn: string, fileListFileName: string, selection: seq<int>, tempDir: string)
    ensures var r := CreateConfiguration(DefaultArgs("lr", referenceImFn, fileListFileName, selection), tempDir);
      && r.Success?
      && r.value.registration == Some("affine") && r.value.histogramMatching == Some(false)
      && r.value.sigma == Some(0.0) && r.value.itkThreads.None?
      && r.value.lamda == 2.0 && r.value.verbose && r.value.clean
      && r.value.resultDir == PathJoin(tempDir, "output")
  {
  }

  /** With every keyword at its default, `'nglra'` gets no healthy atlas, ANTS
      registration and the default ANTs parameters, and the selection is kept. */
  lemma NglraDefaults(referenceImFn: string, fileListFileName: string, selection: seq<int>, tempDir: string)
    ensures var r := CreateConfiguration(DefaultArgs("nglra", referenceImFn, fileListFileName, selection), tempDir);
      && r.Success?
      && r.value.useHealthyAtlas == Some(false) && r.value.registrationType == Some("ANTS")
      && r.value.antsParams == Some(DefaultAntsParams) && r.value.selection == selection
      && r.value.numOfIterationsPerLevel == Some(4) && r.value.numOfLevels == Some(1)
      && r.value.resultDir == PathJoin(tempDir, "output")
  {
  }
}
