/** The catalog-to-JSON helper script (Script/helper/midasCatalogToJson.py): it
    scans the lines of a MIDAS catalog, keeps the ITK image entries, and writes a
    JSON dictionary `{"files": {name: id, ...}, "url": url}`.

    Command-line parsing and the file I/O are not modelled: the catalog arrives as
    its list of lines, and the output file is the value of the last `json.dump`. */
module MidasCatalog {
  import opened Wrappers
  import opened PyText

  const IdKey: string := "ID="
  const NameKey: string := "name="
  const ItkFormat: string := "format=\"image/ITK\""

  /** The dictionary the script dumps: `files` maps a file name to its catalog ID. */
  datatype CatalogJson = CatalogJson(files: map<string, string>, url: string)

  /** One ITK image entry of the catalog. */
  datatype Entry = Entry(name: string, id: string)

  /** A line is an ITK image entry when it mentions all three markers. */
  predicate Qualifies(line: string)
  {
    Contains(line, IdKey) && Contains(line, NameKey) && Contains(line, ItkFormat)
  }

  /** The text an extracted ID or name is made of: no space, quote or `=`. */
  predicate Clean(s: string)
  {
    ' ' !in s && '"' !in s && '=' !in s
  }

  /** The absent `--suffix` argument is read as the empty string, so that the
      filter `suffix in current_name` keeps every name. */
  function SuffixOrEmpty(suffix: Option<string>): (s: string)
    ensures forall name :: Contains(name, s) <==> suffix.None? || Contains(name, suffix.value)
  {
    if suffix.None? then "" else suffix.value
  }

  /** The value of one `key=value` token: the text between its first and second
      `=`, with every double quote removed. */
  function FieldValue(item: string): (v: string)
    requires '=' in item
    ensures '=' !in v && '"' !in v
    ensures ' ' !in item ==> Clean(v)
  {
    RemoveAll(Split(item, '=')[1], '"')
  }

  /** The value is exactly the quote-stripped text between the first two `=`. */
  lemma FieldBetweenEquals(head: string, raw: string, tail: string)
    requires '=' !in head && '=' !in raw
    requires tail == [] || tail[0] == '='
    ensures '=' in head + "=" + raw + tail
    ensures FieldValue(head + "=" + raw + tail) == RemoveAll(raw, '"')
  {
    var item := head + "=" + raw + tail;
    assert item == head + ['='] + (raw + tail);
    assert item[|head|] == '=';
    SplitAtFirst(head, '=', raw + tail);
    SplitFirstPiece(raw, '=', tail);
  }

  /** The index of the last token containing `key`, if any. */
  function LastMatch(tokens: seq<string>, key: string): (r: Option<nat>)
    ensures r.Some? ==> r.value < |tokens| && Contains(tokens[r.value], key)
    ensures r.Some? ==> forall j :: r.value < j < |tokens| ==> !Contains(tokens[j], key)
    ensures r.None? <==> forall j :: 0 <= j < |tokens| ==> !Contains(tokens[j], key)
    decreases |tokens|
  {
    if |tokens| == 0 then None
    else if Contains(tokens[|tokens| - 1], key) then Some(|tokens| - 1)
    else LastMatch(tokens[..|tokens| - 1], key)
  }

  /** A key that occurs in a line occurs in one of its space-separated tokens,
      so the last such token exists and holds an `=`. */
  lemma KeyInSomeToken(line: string, key: string)
    requires Contains(line, key) && ' ' !in key && '=' in key
    ensures LastMatch(Split(line, ' '), key).Some?
    ensures '=' in Split(line, ' ')[LastMatch(Split(line, ' '), key).value]
  {
    SomePieceContains(line, key, ' ');
    var tokens := Split(line, ' ');
    var k := LastMatch(tokens, key).value;
    ContainsChar(tokens[k], key, '=');
  }

  /** The value of the last token of `tokens` that contains `key`. */
  function LastValue(tokens: seq<string>, key: string): (v: string)
    requires LastMatch(tokens, key).Some?
    requires '=' in key
  {
    var k := LastMatch(tokens, key).value;
    ContainsChar(tokens[k], key, '=');
    FieldValue(tokens[k])
  }

  /** The entry an ITK image line contributes, `None` for every other line. */
  function LineEntry(line: string): (e: Option<Entry>)
    ensures e.Some? <==> Qualifies(line)
    ensures e.Some? ==> Clean(e.value.name) && Clean(e.value.id)
  {
    if !Qualifies(line) then None
    else
      var tokens := Split(line, ' ');
      KeyInSomeToken(line, IdKey);
      KeyInSomeToken(line, NameKey);
      Some(Entry(LastValue(tokens, NameKey), LastValue(tokens, IdKey)))
  }

  /** The line adds (or overwrites) the entry for `name` under this suffix. */
  predicate Adds(line: string, suffix: string, name: string)
  {
    LineEntry(line).Some? && LineEntry(line).value.name == name && Contains(name, suffix)
  }

  /** The `files` dictionary after the given lines have been scanned. */
  function Files(lines: seq<string>, suffix: string): map<string, string>
    decreases |lines|
  {
    if |lines| == 0 then map[]
    else
      var before := Files(lines[..|lines| - 1], suffix);
      var e := LineEntry(lines[|lines| - 1]);
      if e.Some? && Contains(e.value.name, suffix) then before[e.value.name := e.value.id]
      else before
  }

  /** One more line changes `files` only through its own entry: a line that is not
      an ITK image entry, or whose name misses the suffix, changes nothing, and any
      other line sets its own name and leaves every other name as it was. */
  lemma FilesStep(lines: seq<string>, line: string, suffix: string)
    ensures !Qualifies(line) ==> Files(lines + [line], suffix) == Files(lines, suffix)
    ensures Qualifies(line) && !Contains(LineEntry(line).value.name, suffix) ==>
              Files(lines + [line], suffix) == Files(lines, suffix)
    ensures Qualifies(line) && Contains(LineEntry(line).value.name, suffix) ==>
              Files(lines + [line], suffix) == Files(lines, suffix)[LineEntry(line).value.name := LineEntry(line).value.id]
  {
    assert (lines + [line])[..|lines|] == lines;
  }

  /** Every name and every ID in the dictionary is clean text. */
  lemma {:induction false} FilesClean(lines: seq<string>, suffix: string)
    ensures forall n :: n in Files(lines, suffix) ==> Clean(n) && Clean(Files(lines, suffix)[n])
    decreases |lines|
  {
    if |lines| > 0 {
      FilesClean(lines[..|lines| - 1], suffix);
    }
  }

  /** A name is in the dictionary exactly when some line adds it. */
  lemma {:induction false} FilesKeys(lines: seq<string>, suffix: string, name: string)
    ensures name in Files(lines, suffix) <==> exists i :: 0 <= i < |lines| && Adds(lines[i], suffix, name)
    decreases |lines|
  {
    if |lines| > 0 {
      var prefix := lines[..|lines| - 1];
      FilesKeys(prefix, suffix, name);
      if exists i :: 0 <= i < |lines| && Adds(lines[i], suffix, name) {
        var i :| 0 <= i < |lines| && Adds(lines[i], suffix, name);
        if i < |lines| - 1 {
          assert Adds(prefix[i], suffix, name);
        }
      }
      if exists i :: 0 <= i < |prefix| && Adds(prefix[i], suffix, name) {
        var i :| 0 <= i < |prefix| && Adds(prefix[i], suffix, name);
        assert Adds(lines[i], suffix, name);
      }
    }
  }

  /** The ID recorded for a name is the one on the last line that adds that name. */
  lemma {:induction false} FilesLastWins(lines: seq<string>, suffix: string, j: nat)
    requires j < |lines| && LineEntry(lines[j]).Some?
    requires Adds(lines[j], suffix, LineEntry(lines[j]).value.name)
    requires forall k :: j < k < |lines| ==> !Adds(lines[k], suffix, LineEntry(lines[j]).value.name)
    ensures LineEntry(lines[j]).value.name in Files(lines, suffix)
    ensures Files(lines, suffix)[LineEntry(lines[j]).value.name] == LineEntry(lines[j]).value.id
    decreases |lines|
  {
    if j < |lines| - 1 {
      var prefix := lines[..|lines| - 1];
      assert prefix[j] == lines[j];
      FilesLastWins(prefix, suffix, j);
    }
  }

  /** With no `--suffix`, every ITK image line's name ends up in the dictionary. */
  lemma AbsentSuffixKeepsEveryImage(lines: seq<string>, i: nat)
    requires i < |lines| && Qualifies(lines[i])
    ensures LineEntry(lines[i]).value.name in Files(lines, SuffixOrEmpty(None))
  {
    var name := LineEntry(lines[i]).value.name;
    ContainsEmpty(name);
    assert Adds(lines[i], "", name);
    FilesKeys(lines, "", name);
  }

  /** Scanning one more token: a token with the key becomes the last match and
      supplies the value; any other token leaves both as they were. */
  lemma LastValueStep(tokens: seq<string>, j: nat, key: string)
    requires j < |tokens| && '=' in key
    ensures Contains(tokens[j], key) ==>
              LastMatch(tokens[..j + 1], key) == Some(j)
              && '=' in tokens[j] && LastValue(tokens[..j + 1], key) == FieldValue(tokens[j])
    ensures !Contains(tokens[j], key) ==> LastMatch(tokens[..j + 1], key) == LastMatch(tokens[..j], key)
    ensures !Contains(tokens[j], key) && LastMatch(tokens[..j], key).Some? ==>
              LastValue(tokens[..j + 1], key) == LastValue(tokens[..j], key)
  {
    var next := tokens[..j + 1];
    assert next[..j] == tokens[..j];
    assert next[j] == tokens[j];
    if Contains(tokens[j], key) {
      ContainsChar(tokens[j], key, '=');
    } else if LastMatch(tokens[..j], key).Some? {
      var k := LastMatch(tokens[..j], key).value;
      assert next[k] == tokens[..j][k];
    }
  }

  /** The inner loop over the space-separated tokens of one line: every token that
      contains `ID=` (or `name=`) overwrites the current ID (or name). */
  method ScanTokens(tokens: seq<string>, id0: Option<string>, name0: Option<string>)
    returns (id: Option<string>, name: Option<string>)
    ensures LastMatch(tokens, IdKey).None? ==> id == id0
    ensures LastMatch(tokens, IdKey).Some? ==> id == Some(LastValue(tokens, IdKey))
    ensures LastMatch(tokens, NameKey).None? ==> name == name0
    ensures LastMatch(tokens, NameKey).Some? ==> name == Some(LastValue(tokens, NameKey))
  {
    id, name := id0, name0;
    var j := 0;
    while j < |tokens|
      invariant 0 <= j <= |tokens|
      invariant LastMatch(tokens[..j], IdKey).None? ==> id == id0
      invariant LastMatch(tokens[..j], IdKey).Some? ==> id == Some(LastValue(tokens[..j], IdKey))
      invariant LastMatch(tokens[..j], NameKey).None? ==> name == name0
      invariant LastMatch(tokens[..j], NameKey).Some? ==> name == Some(LastValue(tokens[..j], NameKey))
    {
      var item := tokens[j];
      LastValueStep(tokens, j, IdKey);
      LastValueStep(tokens, j, NameKey);
      if Contains(item, IdKey) {
        id := Some(FieldValue(item));
      }
      if Contains(item, NameKey) {
        name := Some(FieldValue(item));
      }
      j := j + 1;
    }
    assert tokens[..j] == tokens;
  }

  /** One pass of the main loop: an ITK image line is scanned token by token and,
      when the name it ends with contains the suffix, its ID is stored under that
      name; the current ID and name carry over from line to line. */
  method ScanLine(line: string, suffix: string, files: map<string, string>,
                  id0: Option<string>, name0: Option<string>)
    returns (files': map<string, string>, id: Option<string>, name: Option<string>)
    ensures !Qualifies(line) ==> files' == files && id == id0 && name == name0
    ensures Qualifies(line) ==> id == Some(LineEntry(line).value.id) && name == Some(LineEntry(line).value.name)
    ensures Qualifies(line) && !Contains(LineEntry(line).value.name, suffix) ==> files' == files
    ensures Qualifies(line) && Contains(LineEntry(line).value.name, suffix) ==>
              files' == files[LineEntry(line).value.name := LineEntry(line).value.id]
  {
    files', id, name := files, id0, name0;
    if Contains(line, IdKey) && Contains(line, NameKey) && Contains(line, ItkFormat) {
      var tokens := Split(line, ' ');
      id, name := ScanTokens(tokens, id0, name0);
      KeyInSomeToken(line, IdKey);
      KeyInSomeToken(line, NameKey);
      if Contains(name.value, suffix) {
        files' := files[name.value := id.value];
      }
    }
  }

  /** The script's main loop over the catalog lines: returns the content of the
      output file, `None` when nothing was written. */
  method CatalogToJson(lines: seq<string>, suffixArg: Option<string>, url: string)
    returns (written: Option<CatalogJson>)
    ensures |lines| == 0 ==> written.None?
    ensures |lines| > 0 ==> written == Some(CatalogJson(Files(lines, SuffixOrEmpty(suffixArg)), url))
  {
    var suffix := SuffixOrEmpty(suffixArg);
    var files: map<string, string> := map[];
    var currentId: Option<string> := None;
    var currentName: Option<string> := None;
    written := None;
    var i := 0;
    while i < |lines|
      invariant 0 <= i <= |lines|
      invariant files == Files(lines[..i], suffix)
      invariant i == 0 ==> written.None?
      invariant i > 0 ==> written == Some(CatalogJson(files, url))
    {
      assert lines[..i + 1] == lines[..i] + [lines[i]];
      FilesStep(lines[..i], lines[i], suffix);
      files, currentId, currentName := ScanLine(lines[i], suffix, files, currentId, currentName);
      written := Some(CatalogJson(files, url));
      i := i + 1;
    }
    assert lines[..i] == lines;
  }
}
