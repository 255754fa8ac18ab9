/** `thread_downloadData` of the scripted atlas module (Script/LowRankImageDecomposition.py):
    resolves which entries of a download dictionary to fetch, then fetches them one
    by one, checking the abort flag before each file and the MD5 digest after it,
    and pushes `(name, path)` onto the post queue for every file that passed.

    The dictionary's `files` part is given as the list `downloads['files'].items()`
    returns. Downloading and hashing are one abstract function `fetch`, from the
    item URL and the cache path to the hex digest of the file then on disk, or
    `None` when fetching or reading the file raises. */
module Download {
  import opened Wrappers
  import opened PyText

  /** The value of one `files` entry: `[item id on the server, expected MD5 hex digest]`. */
  datatype FileEntry = FileEntry(itemId: string, md5: string)

  /** A download dictionary; a `None` field is a key the dictionary lacks. */
  datatype Downloads = Downloads(url: Option<string>, files: Option<seq<(string, FileEntry)>>)

  /** The exceptions the download raises. */
  datatype DownloadError =
    | FilesKeyError
    | SelectionTooLarge(maxIndex: int)
    | SelectionIndexError(index: int)
    | UrlMissing
    | Aborted
    | FetchFailed(path: string)
    | ChecksumMismatch(path: string, got: string, expected: string)

  /** Python's `max` of a non-empty list. */
  function Max(s: seq<int>): (m: int)
    requires |s| > 0
    ensures m in s
    ensures forall k :: 0 <= k < |s| ==> s[k] <= m
    decreases |s|
  {
    if |s| == 1 then s[0]
    else
      var m := Max(s[1..]);
      if s[0] >= m then s[0] else m
  }

  /** Python's `range(0, n)`. */
  function Range(n: nat): (r: seq<int>)
    ensures |r| == n
    ensures forall k :: 0 <= k < n ==> r[k] == k
  {
    seq(n, k => k)
  }

  /** Python's `xs[i]`: a negative index counts from the end; anything else out of
      range raises `IndexError`. */
  function PyIndex<T>(xs: seq<T>, i: int): (r: Option<T>)
    ensures r.Some? <==> -|xs| <= i < |xs|
    ensures 0 <= i < |xs| ==> r == Some(xs[i])
    ensures -|xs| <= i < 0 ==> r == Some(xs[|xs| + i])
  {
    if 0 <= i < |xs| then Some(xs[i])
    else if -|xs| <= i < 0 then Some(xs[|xs| + i])
    else None
  }

  /** The first check: no selection (or an empty one) means every file; a selection
      whose maximum exceeds the last index raises. */
  function ResolveSelection(selection: Option<seq<int>>, n: nat): (r: Result<seq<int>, DownloadError>)
    ensures selection.None? || selection.value == [] ==> r == Success(Range(n))
    ensures selection.Some? && selection.value != [] ==>
              (r.Success? <==> forall k :: 0 <= k < |selection.value| ==> selection.value[k] <= n - 1)
    ensures selection.Some? && selection.value != [] && r.Success? ==> r.value == selection.value
    ensures r.Failure? ==> selection.Some? && selection.value != [] && r.error == SelectionTooLarge(Max(selection.value))
  {
    if selection.None? || selection.value == [] then Success(Range(n))
    else if Max(selection.value) > n - 1 then Failure(SelectionTooLarge(Max(selection.value)))
    else Success(selection.value)
  }

  /** The list comprehension `[items[i] for i in selection]`: raises on the first
      index out of range. */
  function Pick<T>(items: seq<T>, selection: seq<int>): (r: Result<seq<T>, DownloadError>)
    ensures r.Success? <==> forall k :: 0 <= k < |selection| ==> -|items| <= selection[k] < |items|
    ensures r.Success? ==> |r.value| == |selection|
    ensures r.Success? ==> forall k :: 0 <= k < |selection| ==> PyIndex(items, selection[k]) == Some(r.value[k])
    decreases |selection|
  {
    if |selection| == 0 then Success([])
    else match PyIndex(items, selection[0])
      case None => Failure(SelectionIndexError(selection[0]))
      case Some(x) =>
        match Pick(items, selection[1..])
        case Failure(e) => Failure(e)
        case Success(rest) => Success([x] + rest)
  }

  /** Everything decided before the first file is fetched: the base URL and the
      entries to fetch, in selection order, or the exception raised first. */
  function Plan(d: Downloads, selection: Option<seq<int>>): Result<(string, seq<(string, FileEntry)>), DownloadError>
  {
    if d.files.None? then Failure(FilesKeyError)
    else
      match ResolveSelection(selection, |d.files.value|)
      case Failure(e) => Failure(e)
      case Success(sel) =>
        if d.url.None? then Failure(UrlMissing)
        else
          match Pick(d.files.value, sel)
          case Failure(e) => Failure(e)
          case Success(picked) => Success((d.url.value, picked))
  }

  /** The checks made for one file, `None` when it passes them all. */
  function FetchOne(item: (string, FileEntry), url: string, cacheDir: string, abort: bool,
                    fetch: (string, string) -> Option<string>): Option<DownloadError>
  {
    if abort then Some(Aborted)
    else
      var path := PathJoin(cacheDir, item.0);
      var digest := fetch(url + item.1.itemId, path);
      if digest.None? then Some(FetchFailed(path))
      else if digest.value != item.1.md5 then Some(ChecksumMismatch(path, digest.value, item.1.md5))
      else None
  }

  /** The checks in their order: a missing `files` key raises first, then a
      selection past the last file, then a missing `url`, then an index the list
      comprehension cannot use; otherwise the plan is the URL and the picked entries. */
  lemma PlanOrder(d: Downloads, selection: Option<seq<int>>)
    ensures d.files.None? ==> Plan(d, selection) == Failure(FilesKeyError)
    ensures d.files.Some? && ResolveSelection(selection, |d.files.value|).Failure? ==>
              Plan(d, selection) == Failure(ResolveSelection(selection, |d.files.value|).error)
    ensures d.files.Some? && ResolveSelection(selection, |d.files.value|).Success? && d.url.None? ==>
              Plan(d, selection) == Failure(UrlMissing)
    ensures Plan(d, selection).Success? <==>
              && d.files.Some? && d.url.Some?
              && ResolveSelection(selection, |d.files.value|).Success?
              && Pick(d.files.value, ResolveSelection(selection, |d.files.value|).value).Success?
    ensures Plan(d, selection).Success? ==>
              Plan(d, selection).value.0 == d.url.value
              && Plan(d, selection).value.1 == Pick(d.files.value, ResolveSelection(selection, |d.files.value|).value).value
  {
  }

  /** A file passes exactly when the abort flag is clear and its digest is the
      expected one; the abort flag is checked before anything is fetched. */
  lemma FetchOneChecks(item: (string, FileEntry), url: string, cacheDir: string, abort: bool,
                       fetch: (string, string) -> Option<string>)
    ensures abort ==> FetchOne(item, url, cacheDir, abort, fetch) == Some(Aborted)
    ensures var path := PathJoin(cacheDir, item.0);
      && (FetchOne(item, url, cacheDir, abort, fetch).None? <==>
            !abort && fetch(url + item.1.itemId, path) == Some(item.1.md5))
      && (!abort && fetch(url + item.1.itemId, path).None? ==>
            FetchOne(item, url, cacheDir, abort, fetch) == Some(FetchFailed(path)))
      && (!abort && fetch(url + item.1.itemId, path).Some? && fetch(url + item.1.itemId, path).value != item.1.md5 ==>
            FetchOne(item, url, cacheDir, abort, fetch) ==
            Some(ChecksumMismatch(path, fetch(url + item.1.itemId, path).value, item.1.md5)))
  {
  }

  /** What the download loop pushed, and the exception that ended it, if any. */
  datatype Progress = Progress(pushed: seq<(string, string)>, error: Option<DownloadError>)

  /** The download loop over the picked entries from index `k` on. */
  function FetchFrom(picked: seq<(string, FileEntry)>, k: nat, url: string, cacheDir: string, abort: bool,
                     fetch: (string, string) -> Option<string>): Progress
    requires k <= |picked|
    decreases |picked| - k
  {
    if k == |picked| then Progress([], None)
    else
      var failure := FetchOne(picked[k], url, cacheDir, abort, fetch);
      if failure.Some? then Progress([], failure)
      else
        var rest := FetchFrom(picked, k + 1, url, cacheDir, abort, fetch);
        Progress([(picked[k].0, PathJoin(cacheDir, picked[k].0))] + rest.pushed, rest.error)
  }

  /** The download loop over all the picked entries. */
  function FetchAll(picked: seq<(string, FileEntry)>, url: string, cacheDir: string, abort: bool,
                    fetch: (string, string) -> Option<string>): Progress
  {
    FetchFrom(picked, 0, url, cacheDir, abort, fetch)
  }

  /** From index `k` on, the loop pushes the files that pass every check, in order,
      and stops at the first file that fails one, raising that file's exception. */
  lemma {:induction false} FetchFromStopsAtFirstFailure(picked: seq<(string, FileEntry)>, k: nat, url: string,
                                                        cacheDir: string, abort: bool,
                                                        fetch: (string, string) -> Option<string>)
    requires k <= |picked|
    ensures var p := FetchFrom(picked, k, url, cacheDir, abort, fetch);
      && k + |p.pushed| <= |picked|
      && (forall i :: k <= i < k + |p.pushed| ==> p.pushed[i - k] == (picked[i].0, PathJoin(cacheDir, picked[i].0)))
      && (forall i :: k <= i < k + |p.pushed| ==> FetchOne(picked[i], url, cacheDir, abort, fetch).None?)
      && (p.error.None? ==> k + |p.pushed| == |picked|)
      && (p.error.Some? ==> k + |p.pushed| < |picked| &&
                            p.error == FetchOne(picked[k + |p.pushed|], url, cacheDir, abort, fetch))
    decreases |picked| - k
  {
    var p := FetchFrom(picked, k, url, cacheDir, abort, fetch);
    if k < |picked| {
      var failure := FetchOne(picked[k], url, cacheDir, abort, fetch);
      if failure.Some? {
        assert p == Progress([], failure);
      } else {
        FetchFromStopsAtFirstFailure(picked, k + 1, url, cacheDir, abort, fetch);
        var rest := FetchFrom(picked, k + 1, url, cacheDir, abort, fetch);
        assert p == Progress([(picked[k].0, PathJoin(cacheDir, picked[k].0))] + rest.pushed, rest.error);
        assert forall j :: 1 <= j < |p.pushed| ==> p.pushed[j] == rest.pushed[j - 1];
      }
    }
  }

  /** The effect of a whole download: what is pushed onto the post queue, and what
      the call returns (the dictionary itself) or raises. */
  datatype Outcome = Outcome(pushed: seq<(string, string)>, result: Result<Downloads, DownloadError>)

  function DownloadRun(d: Downloads, selection: Option<seq<int>>, abort: bool, cacheDir: string,
                       fetch: (string, string) -> Option<string>): Outcome
  {
    match Plan(d, selection)
    case Failure(e) => Outcome([], Failure(e))
    case Success(plan) =>
      var p := FetchAll(plan.1, plan.0, cacheDir, abort, fetch);
      Outcome(p.pushed, if p.error.Some? then Failure(p.error.value) else Success(d))
  }

  /** Without a selection, every file of the dictionary is fetched, in its order. */
  lemma NoSelectionFetchesAll(d: Downloads, selection: Option<seq<int>>)
    requires d.files.Some? && d.url.Some?
    requires selection.None? || selection.value == []
    ensures Plan(d, selection) == Success((d.url.value, d.files.value))
  {
    var items := d.files.value;
    var r := Pick(items, Range(|items|));
    assert r.Success?;
    assert r.value == items;
  }

  /** A selection reaching past the last file raises before anything is fetched. */
  lemma SelectionTooLargeFetchesNothing(d: Downloads, selection: seq<int>, abort: bool, cacheDir: string,
                                        fetch: (string, string) -> Option<string>)
    requires d.files.Some? && selection != []
    requires exists k :: 0 <= k < |selection| && selection[k] > |d.files.value| - 1
    ensures DownloadRun(d, Some(selection), abort, cacheDir, fetch) == Outcome([], Failure(SelectionTooLarge(Max(selection))))
  {
  }

  /** With the abort flag set, nothing is pushed, and the call raises unless there
      was nothing to fetch. */
  lemma AbortFetchesNothing(d: Downloads, selection: Option<seq<int>>, cacheDir: string,
                            fetch: (string, string) -> Option<string>)
    ensures DownloadRun(d, selection, true, cacheDir, fetch).pushed == []
    ensures DownloadRun(d, selection, true, cacheDir, fetch).result.Success? ==>
              Plan(d, selection).Success? && Plan(d, selection).value.1 == []
  {
  }

  /** A successful download pushed one `(name, cache path)` pair per selected index,
      in selection order. */
  lemma SuccessPushesSelection(d: Downloads, selection: Option<seq<int>>, abort: bool, cacheDir: string,
                               fetch: (string, string) -> Option<string>)
    requires DownloadRun(d, selection, abort, cacheDir, fetch).result.Success?
    ensures d.files.Some? && d.url.Some?
    ensures ResolveSelection(selection, |d.files.value|).Success?
    ensures var sel := ResolveSelection(selection, |d.files.value|).value;
            var pushed := DownloadRun(d, selection, abort, cacheDir, fetch).pushed;
            && |pushed| == |sel|
            && forall k :: 0 <= k < |sel| ==>
                 PyIndex(d.files.value, sel[k]).Some? &&
                 pushed[k] == (PyIndex(d.files.value, sel[k]).value.0, PathJoin(cacheDir, PyIndex(d.files.value, sel[k]).value.0))
  {
    var sel := ResolveSelection(selection, |d.files.value|).value;
    var picked := Pick(d.files.value, sel).value;
    FetchFromStopsAtFirstFailure(picked, 0, d.url.value, cacheDir, abort, fetch);
    assert forall k :: 0 <= k < |sel| ==> PyIndex(d.files.value, sel[k]) == Some(picked[k]);
  }

  /** The background task that downloads example data. */
  class DownloadWorker {
    /** Set by the main thread to stop the download before the next file. */
    var abort: bool
    /** The `(name, path)` pairs handed to the main thread for loading. */
    var postQueue: seq<(string, string)>

    constructor ()
      ensures !abort && postQueue == []
    {
      abort := false;
      postQueue := [];
    }

    /** One pass of the download loop: checks the abort flag, fetches the file,
        compares its digest with the expected one, and pushes it when all passed. */
    method FetchFile(item: (string, FileEntry), url: string, cacheDir: string,
                     fetch: (string, string) -> Option<string>) returns (failure: Option<DownloadError>)
      modifies this`postQueue
      ensures failure == FetchOne(item, url, cacheDir, abort, fetch)
      ensures failure.Some? ==> postQueue == old(postQueue)
      ensures failure.None? ==> postQueue == old(postQueue) + [(item.0, PathJoin(cacheDir, item.0))]
    {
      var name, entry := item.0, item.1;
      if abort {
        return Some(Aborted);
      }
      var path := PathJoin(cacheDir, name);
      var digest := fetch(url + entry.itemId, path);
      if digest.None? {
        return Some(FetchFailed(path));
      }
      if digest.value != entry.md5 {
        return Some(ChecksumMismatch(path, digest.value, entry.md5));
      }
      postQueue := postQueue + [(name, path)];
      return None;
    }

    /** The download loop: fetches and checks each picked file in turn; stops at
        the first exception. */
    method FetchSelected(picked: seq<(string, FileEntry)>, url: string, cacheDir: string,
                         fetch: (string, string) -> Option<string>) returns (failure: Option<DownloadError>)
      modifies this`postQueue
      ensures postQueue == old(postQueue) + FetchAll(picked, url, cacheDir, abort, fetch).pushed
      ensures failure == FetchAll(picked, url, cacheDir, abort, fetch).error
    {
      ghost var pushed: seq<(string, string)> := [];
      var k := 0;
      while k < |picked|
        invariant 0 <= k <= |picked|
        invariant postQueue == old(postQueue) + pushed
        invariant FetchAll(picked, url, cacheDir, abort, fetch) ==
                  Progress(pushed + FetchFrom(picked, k, url, cacheDir, abort, fetch).pushed,
                           FetchFrom(picked, k, url, cacheDir, abort, fetch).error)
      {
        failure := FetchFile(picked[k], url, cacheDir, fetch);
        if failure.Some? {
          return failure;
        }
        ghost var entry := (picked[k].0, PathJoin(cacheDir, picked[k].0));
        ghost var rest := FetchFrom(picked, k + 1, url, cacheDir, abort, fetch);
        assert FetchFrom(picked, k, url, cacheDir, abort, fetch) == Progress([entry] + rest.pushed, rest.error);
        assert pushed + ([entry] + rest.pushed) == (pushed + [entry]) + rest.pushed;
        pushed := pushed + [entry];
        k := k + 1;
      }
      return None;
    }

    /** Downloads the selected files; returns the dictionary or the exception raised. */
    method DownloadData(d: Downloads, selection: Option<seq<int>>, cacheDir: string,
                        fetch: (string, string) -> Option<string>) returns (r: Result<Downloads, DownloadError>)
      modifies this`postQueue
      ensures postQueue == old(postQueue) + DownloadRun(d, selection, abort, cacheDir, fetch).pushed
      ensures r == DownloadRun(d, selection, abort, cacheDir, fetch).result
    {
      if d.files.None? {
        return Failure(FilesKeyError);
      }
      var items := d.files.value;
      var sel: seq<int>;
      if selection.None? || selection.value == [] {
        sel := Range(|items|);
      } else {
        var top := Max(selection.value);
        if top > |items| - 1 {
          return Failure(SelectionTooLarge(top));
        }
        sel := selection.value;
      }
      if d.url.None? {
        return Failure(UrlMissing);
      }
      var url := d.url.value;
      var picking := Pick(items, sel);
      if picking.Failure? {
        return Failure(picking.error);
      }
      var failure := FetchSelected(picking.value, url, cacheDir, fetch);
      if failure.Some? {
        return Failure(failure.value);
      }
      return Success(d);
    }
  }
}
