# pyLAR Slicer extension — a Dafny model of its core logic

This project models the parts of the pyLAR 3D Slicer extension that are logic rather
than user interface, and proves properties of them. It covers:

- **The catalog converter** (`Script/helper/midasCatalogToJson.py`). It reads a Midas
  catalog line by line. For every line that describes an ITK image, it records the
  item's `ID=` under its `name=`, provided the name contains the optional suffix. It
  writes `{"files": ..., "url": ...}` after every line.
  Module `MidasCatalog` holds the loop as a method, proved against the fold `Files`.
  Module `PyText` models the Python string operations it relies on: substring `in`,
  `split`, `replace` and `os.path.join`.
- **The configuration builder** `createConfiguration` (`Script/LowRankImageDecomposition.py`).
  It builds the record pyLAR reads, with attributes that depend on the algorithm:
  `'lr'` (low-rank/sparse decomposition), `'uab'` (unbiased atlas) or `'nglra'`
  (non-greedy low-rank atlas). See module `Configuration`.
- **The example-data download** `thread_downloadData`. It resolves which entries of a
  download dictionary to fetch. Then, for each entry, it checks the abort flag, fetches
  the file, compares its MD5 digest, and puts `(name, path)` on the post queue. See
  module `Download`: class `DownloadWorker` holds the `abort` flag and the post queue,
  and the function `DownloadRun` specifies a whole call.
- **The extra-volume step of `run_pyLAR`**. It appends the index and path of a saved
  extra volume to the selection and to the image list. See module `ExtraImage`.
- **`QMovingProgressBar`**, a Qt progress bar that a timer advances in a cycle. See module
  `ProgressBar`. Value writes follow Qt's `QProgressBar::setValue`: a value outside
  `[minimum, maximum]` is ignored unless the range is `[0, 0]`, and a new bar's value
  is `minimum - 1`.
- **The logic class of the decomposition module**
  (`LowRankImageDecomposition/LowRankImageDecomposition.py`). It covers `hasImageData`,
  `isValidInputOutputData`, and the validation `run` performs before decomposing. See
  module `DecompositionLogic`.

Abstractions used throughout:

- Python's `None` is `Option.None`.
- An exception is `Result.Failure` carrying a datatype that names it.
- A dictionary key that may be missing is an `Option` field.
- Downloading and hashing a file is one function parameter, `fetch`. It maps the item
  URL and the cache path to the hex digest of the file then on disk, or to `None` when
  the request or the read raises.

Places where the model follows the code rather than the documentation:

- The missing-`files` check at `Script/LowRankImageDecomposition.py:656` can never fire.
  `downloads['files']` is already read at lines 646 and 649, so a dictionary without
  `files` raises `KeyError` there, before the `url` check. `Download.Plan` follows
  that order.
- `--suffix` "sorts data types" by a substring test (`suffix in current_name`), not by
  a suffix test. `MidasCatalog` models the substring test.
- Selection indices are Python list indices, so negative ones count from the end. An
  index below `-len` raises `IndexError` while the list of picked entries is being
  built, before anything is fetched.

## Model

| member | source | states |
|---|---|---|
| MidasCatalog.CatalogToJson | Script/helper/midasCatalogToJson.py:20-42 | no output for an empty catalog; otherwise the written object is exactly the fold `Files` over all lines, under the `--suffix` (empty when absent), plus the URL |
| MidasCatalog.ScanLine | Script/helper/midasCatalogToJson.py:28-39 | a line without `ID=`, `name=` and `format="image/ITK"` changes nothing; an image line sets the current ID and name to its own entry, and stores ID under name exactly when the name contains the suffix |
| MidasCatalog.ScanTokens | Script/helper/midasCatalogToJson.py:30-37 | after the token loop the current ID (name) is the value of the last token containing `ID=` (`name=`), or is unchanged when no token contains it |
| MidasCatalog.LastValueStep | Script/helper/midasCatalogToJson.py:31-37 | one more token containing the key becomes the last match and supplies the value; any other token changes neither |
| MidasCatalog.LastMatch | Script/helper/midasCatalogToJson.py:31-37 | the index found is that of a token containing the key with none after it; `None` exactly when no token contains the key |
| MidasCatalog.KeyInSomeToken | Script/helper/midasCatalogToJson.py:29-37 | a key found in a line is found in one of its space-separated tokens, so an image line always sets both ID and name |
| MidasCatalog.FieldValue | Script/helper/midasCatalogToJson.py:33-37 | the value of a token contains no `=` and no `"`, and no space either when the token has none |
| MidasCatalog.FieldBetweenEquals | Script/helper/midasCatalogToJson.py:33-37 | the value of `head=raw=...` is `raw` with its double quotes removed |
| MidasCatalog.LineEntry | Script/helper/midasCatalogToJson.py:28-37 | a line yields an entry exactly when it holds all three markers; names and IDs hold no space, quote or `=` |
| MidasCatalog.FilesStep | Script/helper/midasCatalogToJson.py:28-39 | one more line changes the dictionary only through its own entry: it overwrites its name's ID when the name contains the suffix and changes nothing otherwise |
| MidasCatalog.FilesKeys | Script/helper/midasCatalogToJson.py:28-39 | a name is a key of `files` if and only if some line adds it |
| MidasCatalog.FilesLastWins | Script/helper/midasCatalogToJson.py:38-39 | a name's recorded ID is the one from the last line that adds that name |
| MidasCatalog.FilesClean | Script/helper/midasCatalogToJson.py:33-39 | every key and every value of `files` is free of spaces, quotes and `=` |
| MidasCatalog.SuffixOrEmpty | Script/helper/midasCatalogToJson.py:22-38 | the suffix the filter uses is contained in a name exactly when no `--suffix` was given or the given one is contained in it |
| MidasCatalog.AbsentSuffixKeepsEveryImage | Script/helper/midasCatalogToJson.py:22-24 | with no `--suffix`, every ITK image line's name ends up in `files` |
| PyText.Split | Script/helper/midasCatalogToJson.py:30 | `str.split(c)` gives at least one piece, at least two when `c` occurs; no piece contains `c`; every piece's characters come from the input |
| PyText.JoinSplit | Script/helper/midasCatalogToJson.py:30 | joining the pieces of `split(c)` with `c` gives back the input |
| PyText.SplitAtFirst | Script/helper/midasCatalogToJson.py:33 | the first piece is exactly the text before the first separator |
| PyText.SomePieceContains | Script/helper/midasCatalogToJson.py:29-32 | text without the separator that occurs in a string occurs in one of its pieces |
| PyText.RemoveAll | Script/helper/midasCatalogToJson.py:34 | `replace('"', '')` leaves no quote, keeps exactly the other characters that occur, never lengthens, and changes nothing when there is no quote |
| PyText.RemoveAllCounts | Script/helper/midasCatalogToJson.py:33-37 | only the quotes go: every other character keeps its count, and the length drops by the number of quotes |
| PyText.RemoveAllAppend | Script/helper/midasCatalogToJson.py:33-37 | removal works piece by piece (`(a + b)` loses its quotes as `a` and `b` do), so the kept characters stay in their order |
| PyText.ContainsIffOccurs | Script/helper/midasCatalogToJson.py:29-38 | Python's `t in s` (`Contains`) holds exactly when `t` is the slice of `s` at some position |
| PyText.PathJoinParts | Script/LowRankImageDecomposition.py:783 | posix `os.path.join(a, b)` ends with `b` and is `b` for an absolute `b`; for a relative `b` it starts with `a`, is exactly `a + b` when `a` is empty or ends in `/`, and otherwise has exactly one `/` between `a` and `b` |
| Configuration.CreateConfiguration | Script/LowRankImageDecomposition.py:776-812 | fails with the source's message exactly for an unknown tag; copies the common arguments; defaults an empty or missing result directory to `<temp>/output`; sets the thread count only when non-zero; sets each algorithm's own fields and leaves the others unset |
| Configuration.ResultDir | Script/LowRankImageDecomposition.py:781-784 | a non-empty `result_dir` is kept; a missing or empty one becomes `os.path.join(temp_dir, 'output')`, which ends in `output`; the result is never empty |
| Configuration.DefaultArgs | Script/LowRankImageDecomposition.py:740-746 | a call with only the positional arguments passes them through unchanged; the thirteen keyword defaults it fills in are stated between `LowRankDefaults` (lamda, verbose, result directory, thread count, clean, registration, histogram matching, sigma) and `NglraDefaults` (iterations per level, levels, ANTs parameters, healthy atlas, registration type) |
| Configuration.ParseAlgorithm | Script/LowRankImageDecomposition.py:789-811 | the tags `'lr'`, `'uab'` and `'nglra'` name their algorithm; nothing else names one |
| Configuration.AttributeNamesDistinct | Script/LowRankImageDecomposition.py:777-807 | the sixteen attributes have pairwise distinct Python names, so the attribute sets below stand for the sets of names the source assigns |
| Configuration.LowRankAttributes | Script/LowRankImageDecomposition.py:777-792 | `'lr'` succeeds, with exactly the common attributes plus registration, histogram matching and sigma |
| Configuration.UnbiasedAtlasAttributes | Script/LowRankImageDecomposition.py:777-809 | `'uab'` succeeds, with exactly the common attributes plus iterations per level, number of levels and ANTs parameters |
| Configuration.NonGreedyAtlasAttributes | Script/LowRankImageDecomposition.py:777-807 | `'nglra'` succeeds, with the `'uab'` attributes plus the healthy-atlas flag, sigma and registration type |
| Configuration.DefaultAntsParamsApplied | Script/LowRankImageDecomposition.py:793-803 | a `'uab'` or `'nglra'` configuration built without ANTs parameters succeeds and carries a dictionary with exactly the six default keys, `Dimension` being the integer 3 |
| Configuration.LowRankDefaults | Script/LowRankImageDecomposition.py:740-792 | `'lr'` with every keyword at its default uses affine registration, no histogram matching, sigma 0, lamda 2.0, verbose and clean on, no thread count, and writes to `<temp>/output` |
| Configuration.NglraDefaults | Script/LowRankImageDecomposition.py:740-807 | `'nglra'` with every keyword at its default keeps the selection, runs 4 iterations per level on 1 level, has no healthy atlas, uses ANTS registration and the default ANTs parameters, and writes to `<temp>/output` |
| Download.Max | Script/LowRankImageDecomposition.py:649 | Python's `max`: an element of the list that no element exceeds |
| Download.Range | Script/LowRankImageDecomposition.py:646 | `range(0, n)` has length n and holds 0 .. n-1 in order |
| Download.PyIndex | Script/LowRankImageDecomposition.py:658 | a list index is valid exactly in `[-len, len)`; a negative index counts from the end |
| Download.ResolveSelection | Script/LowRankImageDecomposition.py:645-651 | no (or an empty) selection means every file; otherwise it succeeds exactly when no index exceeds the last one, and otherwise raises with the maximum |
| Download.PlanOrder | Script/LowRankImageDecomposition.py:645-658 | `Plan` raises in the source's order: a missing `files` key first, then a selection past the last file, then a missing `url`; it succeeds exactly when all checks and the list comprehension pass, with the URL and the picked entries |
| Download.FetchOneChecks | Script/LowRankImageDecomposition.py:659-676 | `FetchOne` raises `Download aborted` whenever the flag is set; a file passes exactly when the flag is clear and its digest equals the expected one; a failed fetch and a wrong digest raise their own exceptions with the cache path |
| Download.Pick | Script/LowRankImageDecomposition.py:658 | the comprehension succeeds exactly when every index is valid, and then picks the indexed entry for each index, in selection order |
| Download.FetchFromStopsAtFirstFailure | Script/LowRankImageDecomposition.py:658-676 | the loop pushes `(name, cache path)` for the files that pass every check, in order, and stops at the first failing file with that file's exception |
| Download.NoSelectionFetchesAll | Script/LowRankImageDecomposition.py:645-658 | without a selection every entry of the dictionary is fetched, in its order |
| Download.SelectionTooLargeFetchesNothing | Script/LowRankImageDecomposition.py:649-651 | a selection index past the last file raises before anything is pushed |
| Download.AbortFetchesNothing | Script/LowRankImageDecomposition.py:659-660 | with the abort flag set nothing is pushed, and the call raises unless there was nothing to fetch |
| Download.SuccessPushesSelection | Script/LowRankImageDecomposition.py:645-678 | a call that returns has pushed exactly one `(name, cache path)` per selected index, in selection order |
| Download.DownloadWorker.constructor | Script/LowRankImageDecomposition.py:370-380 | a new worker is not aborted and its queue is empty |
| Download.DownloadWorker.FetchFile | Script/LowRankImageDecomposition.py:659-676 | one loop pass: raises on abort, on a failed fetch or on a digest mismatch, and otherwise appends `(name, path)` to the post queue |
| Download.DownloadWorker.FetchSelected | Script/LowRankImageDecomposition.py:658-676 | the queue grows by exactly what the loop specification `FetchAll` pushes, and the result is its exception |
| Download.DownloadWorker.DownloadData | Script/LowRankImageDecomposition.py:628-678 | the queue grows by exactly what `DownloadRun` pushes, and the call returns the dictionary or raises as `DownloadRun` says |
| ExtraImage.WithExtraImage | Script/LowRankImageDecomposition.py:566-570 | one more index and one more file; earlier entries are untouched; the new index is the old number of files and the new last file is the extra path; a selection that named existing files still names the same ones |
| ExtraImage.RunInputs.AddExtraNode | Script/LowRankImageDecomposition.py:566-570 | with no node nothing changes; with a node, the selection and the image list become `WithExtraImage` of the old ones and `<result dir>/ExtraImage.nrrd` |
| ExtraImage.RunInputs.constructor | Script/LowRankImageDecomposition.py:555-557 | the lists start as the configuration's selection and the image list read from file |
| ProgressBar.SetValue | Script/LowRankImageDecomposition.py:63-79 | a write inside the range (or on a `[0, 0]` bar) takes effect; any other write is ignored |
| ProgressBar.MovedWraps | Script/LowRankImageDecomposition.py:67-70 | on a non-empty range a tick moves a value in `[0, max)` to `(value + 1) mod max` |
| ProgressBar.MovedTimesCounts | Script/LowRankImageDecomposition.py:62-70 | started at 0, the bar counts the ticks until it reaches the maximum |
| ProgressBar.MovedTimesPeriodic | Script/LowRankImageDecomposition.py:62-70 | started at 0, the bar stays in `[0, max)` and repeats every `max` ticks |
| ProgressBar.MovingProgressBar.constructor | Script/LowRankImageDecomposition.py:54-60 | range `[0, size]` (a negative size gives `[0, 0]`), value -1, timer stopped |
| ProgressBar.MovingProgressBar.Start | Script/LowRankImageDecomposition.py:62-65 | value 0 and timer running, with the range unchanged |
| ProgressBar.MovingProgressBar.Move | Script/LowRankImageDecomposition.py:67-70 | the value becomes `Moved` of the old value, and the bar's invariant is kept |
| ProgressBar.MovingProgressBar.Stop | Script/LowRankImageDecomposition.py:72-74 | timer stopped and the value at the maximum |
| ProgressBar.MovingProgressBar.Clear | Script/LowRankImageDecomposition.py:76-79 | timer stopped and the value 0 |
| DecompositionLogic.HasImageData | LowRankImageDecomposition/LowRankImageDecomposition.py:147-158 | true exactly when the node exists and has image data |
| DecompositionLogic.PairCheck | LowRankImageDecomposition/LowRankImageDecomposition.py:160-172 | reports a missing input, then a missing output, then the same ID, each exactly in its case |
| DecompositionLogic.IsValidInputOutputData | LowRankImageDecomposition/LowRankImageDecomposition.py:160-172 | true exactly when both nodes exist and their IDs differ |
| DecompositionLogic.FirstInvalidPair | LowRankImageDecomposition/LowRankImageDecomposition.py:179-190 | names the input/low-rank, input/sparse and low-rank/sparse pairs in that order, each exactly when it is the first invalid one |
| DecompositionLogic.RunDecomposesIffDistinct | LowRankImageDecomposition/LowRankImageDecomposition.py:179-206 | the corrected `run` decomposes exactly when the three volumes exist and are pairwise distinct; otherwise it refuses with the first failing pair |
| DecompositionLogic.MissingInputBlamesFirstPair | LowRankImageDecomposition/LowRankImageDecomposition.py:179-182 | a missing input volume is always reported against the low-rank output |
| DecompositionLogic.RunAsWrittenNeverSucceeds | LowRankImageDecomposition/LowRankImageDecomposition.py:179-203 | as written, `run` never decomposes: valid volumes raise `NameError`, and invalid ones behave as in the corrected `run` |
| DecompositionLogic.RunAsWrittenCounterexample | LowRankImageDecomposition/LowRankImageDecomposition.py:197-206 | for three distinct volumes the written `run` raises, while the corrected one decomposes |

## Left out

- `ialm.recover` and all of pyLAR's image processing belong to the pyLAR library, which is not part of this model. A successful `run` is the value `Decomposed`. The `uint8` conversion and the push of the results into the scene are not modelled either.
- Threads and queues (`thread_doit`, the main and post queue timers) are left out. The download is modelled as a sequential call. The `abort` flag is a field that stays constant during the call, so another thread setting it between two files is not modelled.
- Network, file system and hashing are left out: `urllib`, the cache-path and forced-redownload settings that decide whether to fetch, and the MD5 computation are one abstract `fetch` parameter. The socket timeout is left out.
- Download.DownloadWorker.DownloadData: the `files` entry is the list `dict.items()` returns. Python 2 gives no defined order for it, so the model fixes one.
- The exception messages of the download are reduced to the data they carry, and logging is left out.
- DecompositionLogic.ErrorMessage: the text `run` shows for a rejected pair is kept, but no contract states it.
- `slicer.util.errorDisplay`, widget plumbing, `show`/`hide` of the progress bar and the timer's interval are left out.
- `softwarePaths`, `requiredSoftware`, `_normalize_path`, `saveConfiguration`, the JSON loading of download files and saving a node to disk are left out: they are file and process I/O.
- Command-line parsing and `print suffix` in the catalog converter are left out. The catalog is given as its list of lines, and the output file as the value last written.
- ExtraImage.RunInputs.constructor: the loaded configuration is taken to have a `selection`. `run_pyLAR` only demands `file_list_file_name` and `result_dir` (line 554), so a configuration without `selection` raises `AttributeError` at line 569 when a node is given; that error path is not modelled.
- Configuration.DefaultArgs: the default `sigma=0` is a Python integer; the model keeps every `sigma` as a real, so the default is `0.0`.
- Configuration.CreateConfiguration: the Python object is a record with one optional field per attribute. `ITK_GLOBAL_DEFAULT_NUMBER_OF_THREADS` is modelled as an integer, so its truthiness is "non-zero".
- ProgressBar.MovingProgressBar.Move: Python's `self.value += 1` goes through the Qt property. The model takes the property write to be `setValue`.

## Findings

| source | as written | input that shows it | evidently intended | confidence | as-written member | corrected member |
|---|---|---|---|---|---|---|
| LowRankImageDecomposition/LowRankImageDecomposition.py:200-203 | after validation `run` uses `np.asarray` and `sitkUtils.PushToSlicer`, but the module imports neither `numpy` nor `sitkUtils`, so every call that passes validation raises `NameError` and `run` never returns `True` | three present volumes with IDs "1", "2", "3" | decompose the input into the two outputs and return `True` | medium, not executed (a name could only come from the star import of `slicer.ScriptedLoadableModule`) | DecompositionLogic.RunAsWritten, DecompositionLogic.RunAsWrittenCounterexample | DecompositionLogic.Run, DecompositionLogic.RunDecomposesIffDistinct |
