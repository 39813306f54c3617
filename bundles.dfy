/** The bundle builder: reads `dataset tag [xsec|DATA] [sumw]` lines, asks
    DAS for each dataset's files, cuts each file list into `part1..partN`
    and merges the result into the cache of bundles. */
module Bundles {
  import opened Text
  import opened Json
  import opened Das

  datatype BundleError =
    | TxtNotFound                 // the dataset list does not exist
    | BadNumber(token: string)    // `float(token)` raised
    | DasFailed(stderr: string)   // `query_das` raised on a non-zero return code
    | ZeroPartSize                // `range` raised on a zero step
    | NotADict                    // `full_cache[tag] = …` raised: the loaded file is not an object

  datatype Result<T> = Ok(value: T) | Err(error: BundleError)

  /** `query_das`: the listed locators, or the error raised. */
  function QueryDas(reply: DasReply): (r: Result<seq<string>>)
    ensures reply.returnCode != 0 <==> r.Err?
    ensures r.Err? ==> r.error == DasFailed(reply.stderr)
    ensures r.Ok? ==> forall f :: f in r.value ==> f != ""
  {
    if reply.returnCode != 0 then Err(DasFailed(reply.stderr)) else Ok(DasLines(reply.stdout))
  }

  // ---------------------------------------------------------------------
  // One line of the dataset list

  datatype Metadata = Metadata(crossSection: Option<real>, sumGenweight: Option<real>, isData: bool)

  datatype LineSpec = Skipped | Entry(dataset: string, tag: string, meta: Metadata)

  /** `token.upper() == "DATA"` */
  predicate IsDataToken(token: string) {
    AsciiUpper(token) == "DATA"
  }

  /** The metadata and the (dataset, tag) pair read from the tokens of one
      line. `parseFloat` is Python's `float` on a token: `None` where it
      raises. */
  function ParseTokens(parts: seq<string>, parseFloat: string -> Option<real>): (r: Result<LineSpec>)
    ensures r == Ok(Skipped) <==> |parts| < 2
    ensures |parts| == 2 ==> r == Ok(Entry(parts[0], parts[1], Metadata(None, None, false)))
    ensures r.Ok? && r.value.Entry? ==>
      && r.value.dataset == parts[0] && r.value.tag == parts[1]
      && r.value.meta.isData == (|parts| >= 3 && IsDataToken(parts[2]))
      && r.value.meta.crossSection == (if |parts| >= 3 && !IsDataToken(parts[2]) then parseFloat(parts[2]) else None)
      && r.value.meta.sumGenweight == (if |parts| >= 4 then parseFloat(parts[3]) else None)
    ensures r.Err? <==>
      || (|parts| >= 3 && !IsDataToken(parts[2]) && parseFloat(parts[2]).None?)
      || (|parts| >= 4 && parseFloat(parts[3]).None?)
    ensures r.Err? ==> r.error == BadNumber(
      if |parts| >= 3 && !IsDataToken(parts[2]) && parseFloat(parts[2]).None? then parts[2] else parts[3])
  {
    if |parts| < 2 then Ok(Skipped)
    else
      var third: Result<(bool, Option<real>)> :=
        if |parts| < 3 then Ok((false, None))
        else if IsDataToken(parts[2]) then Ok((true, None))
        else match parseFloat(parts[2])
          case None => Err(BadNumber(parts[2]))
          case Some(x) => Ok((false, Some(x)));
      if third.Err? then Err(third.error)
      else
        var fourth: Result<Option<real>> :=
          if |parts| < 4 then Ok(None)
          else match parseFloat(parts[3])
            case None => Err(BadNumber(parts[3]))
            case Some(x) => Ok(Some(x));
        if fourth.Err? then Err(fourth.error)
        else Ok(Entry(parts[0], parts[1], Metadata(third.value.1, fourth.value, third.value.0)))
  }

  /** Tokens after the fourth play no part. */
  lemma ParseIgnoresExtraTokens(parts: seq<string>, parseFloat: string -> Option<real>)
    requires |parts| > 4
    ensures ParseTokens(parts, parseFloat) == ParseTokens(parts[..4], parseFloat)
  {
    var r, r4 := ParseTokens(parts, parseFloat), ParseTokens(parts[..4], parseFloat);
    assert parts[..4][2] == parts[2] && parts[..4][3] == parts[3];
    if r.Ok? && r4.Ok? {
      assert r.value == r4.value;
    }
  }

  function ParseLine(line: string, parseFloat: string -> Option<real>): Result<LineSpec> {
    ParseTokens(SplitWhitespace(line), parseFloat)
  }

  /** `[line.strip() for line in f if line.strip()]`: every line the loop
      sees is non-empty and already stripped, so splitting it again on
      whitespace loses nothing at its ends. */
  function StrippedNonBlank(lines: seq<string>): (r: seq<string>)
    ensures |r| <= |lines|
    ensures forall x :: x in r ==> x != "" && Strip(x) == x
  {
    if lines == [] then []
    else (if Strip(lines[0]) != "" then [Strip(lines[0])] else []) + StrippedNonBlank(lines[1..])
  }

  /** Reading two pieces of the file is reading their concatenation: the
      kept lines stay in file order, each as often as it occurs. */
  lemma {:induction false} StrippedNonBlankAppend(a: seq<string>, b: seq<string>)
    ensures StrippedNonBlank(a + b) == StrippedNonBlank(a) + StrippedNonBlank(b)
  {
    if a == [] {
      assert a + b == b;
    } else {
      var head := if Strip(a[0]) != "" then [Strip(a[0])] else [];
      assert (a + b)[0] == a[0] && (a + b)[1..] == a[1..] + b;
      assert StrippedNonBlank(a + b) == head + StrippedNonBlank(a[1..] + b);
      assert StrippedNonBlank(a) == head + StrippedNonBlank(a[1..]);
      StrippedNonBlankAppend(a[1..], b);
      AppendAssoc(head, StrippedNonBlank(a[1..]), StrippedNonBlank(b));
    }
  }

  /** With `StrippedNonBlankAppend`, fixes the whole result: a blank line
      is dropped, any other line is kept stripped. */
  lemma StrippedNonBlankOne(line: string)
    ensures StrippedNonBlank([line]) == if Strip(line) != "" then [Strip(line)] else []
  {
    assert [line][1..] == [];
  }

  // ---------------------------------------------------------------------
  // Splitting into parts

  /** The key of the `k`-th part. */
  function PartKey(k: nat): string {
    "part" + NatToString(k)
  }

  function Min(a: int, b: int): int { if a < b then a else b }

  /** `for i in range(0, len(files), size)`, numbered from `k`: each part
      holds the next `size` files (fewer in the last). A negative size gives
      an empty range. */
  function Chunks(files: seq<string>, size: int, k: nat): Dict<seq<string>>
    decreases |files|
  {
    if size <= 0 || files == [] then []
    else
      var n := Min(size, |files|);
      [(PartKey(k), files[..n])] + Chunks(files[n..], size, k + 1)
  }

  function Values<V>(d: Dict<V>): (vs: seq<V>)
    ensures |vs| == |d| && forall i :: 0 <= i < |d| ==> vs[i] == d[i].1
  {
    if d == [] then [] else [d[0].1] + Values(d[1..])
  }

  /** The parts, concatenated in key order, give back the files. */
  lemma {:induction false} ChunksConcat(files: seq<string>, size: int, k: nat)
    requires size > 0
    ensures Concat(Values(Chunks(files, size, k))) == files
    decreases |files|
  {
    if files != [] {
      var n := Min(size, |files|);
      var c := Chunks(files, size, k);
      var rest := Chunks(files[n..], size, k + 1);
      ChunksConcat(files[n..], size, k + 1);
      assert c == [(PartKey(k), files[..n])] + rest;
      assert Values(c) == [files[..n]] + Values(rest);
      assert files[..n] + files[n..] == files;
    }
  }

  /** Every part but the last holds `size` files, the last between one and
      `size`; there are no parts exactly when there are no files. */
  lemma {:induction false} ChunksSizes(files: seq<string>, size: int, k: nat)
    requires size > 0
    ensures forall i :: 0 <= i < |Chunks(files, size, k)| - 1 ==> |Chunks(files, size, k)[i].1| == size
    ensures Chunks(files, size, k) != [] ==> 1 <= |Chunks(files, size, k)[|Chunks(files, size, k)| - 1].1| <= size
    ensures files == [] <==> Chunks(files, size, k) == []
    decreases |files|
  {
    if files != [] {
      var n := Min(size, |files|);
      var c := Chunks(files, size, k);
      var rest := Chunks(files[n..], size, k + 1);
      ChunksSizes(files[n..], size, k + 1);
      assert c == [(PartKey(k), files[..n])] + rest;
      forall i | 0 <= i < |c| - 1 ensures |c[i].1| == size {
        if i > 0 {
          assert c[i] == rest[i - 1];
        } else {
          assert rest != [];
        }
      }
      if rest != [] {
        assert c[|c| - 1] == rest[|rest| - 1];
      }
    }
  }

  /** There are `ceil(|files| / size)` parts: `size` times one part fewer
      falls short of the files, `size` times their number covers them. */
  lemma {:induction false} ChunksCount(files: seq<string>, size: int, k: nat)
    requires size > 0
    ensures (|Chunks(files, size, k)| - 1) * size < |files| <= |Chunks(files, size, k)| * size
    decreases |files|
  {
    if files != [] {
      var n := Min(size, |files|);
      var m := |Chunks(files[n..], size, k + 1)|;
      ChunksCount(files[n..], size, k + 1);
      assert |Chunks(files, size, k)| == 1 + m;
      if |files| <= size {
        assert files[n..] == [];
        assert m == 0;
      } else {
        var a := m * size;
        assert (m - 1) * size == a - size;
        assert (1 + m) * size == a + size;
        assert (1 + m - 1) * size == a;
      }
    }
  }

  /** The parts are keyed `part<k>`, `part<k+1>`, ... in order. */
  lemma {:induction false} ChunksKeys(files: seq<string>, size: int, k: nat)
    ensures forall i :: 0 <= i < |Chunks(files, size, k)| ==> Chunks(files, size, k)[i].0 == PartKey(k + i)
    decreases |files|
  {
    if size > 0 && files != [] {
      var n := Min(size, |files|);
      var c := Chunks(files, size, k);
      var rest := Chunks(files[n..], size, k + 1);
      ChunksKeys(files[n..], size, k + 1);
      assert c == [(PartKey(k), files[..n])] + rest;
      forall i | 1 <= i < |c| ensures c[i].0 == PartKey(k + i) {
        assert c[i] == rest[i - 1];
      }
    }
  }

  lemma PartKeyInjective(m: nat, n: nat)
    requires PartKey(m) == PartKey(n)
    ensures m == n
  {
    assert NatToString(m) == PartKey(m)[4..];
    assert NatToString(n) == PartKey(n)[4..];
    NatToStringInjective(m, n);
  }

  /** Part keys are all different. */
  lemma ChunksDistinct(files: seq<string>, size: int)
    ensures DistinctKeys(Chunks(files, size, 1))
  {
    var c := Chunks(files, size, 1);
    ChunksKeys(files, size, 1);
    forall i, j | 0 <= i < j < |c| ensures c[i].0 != c[j].0 {
      if c[i].0 == c[j].0 {
        PartKeyInjective(1 + i, 1 + j);
      }
    }
  }

  /** The chunking loop of `create_bundles_from_dataset_txt`. */
  method ChunkFiles(files: seq<string>, filesPerPart: int) returns (parts: Dict<seq<string>>)
    requires filesPerPart != 0
    ensures parts == Chunks(files, filesPerPart, 1)
  {
    parts := [];
    if filesPerPart < 0 {
      return;
    }
    var partCounter := 1;
    var i := 0;
    while i < |files|
      invariant 0 <= i && partCounter >= 1
      invariant parts + Chunks(files[Min(i, |files|)..], filesPerPart, partCounter) == Chunks(files, filesPerPart, 1)
      decreases |files| - i
    {
      var chunk := files[i..Min(i + filesPerPart, |files|)];
      ghost var rest := files[i..];
      assert rest[..Min(filesPerPart, |rest|)] == chunk;
      assert rest[Min(filesPerPart, |rest|)..] == files[Min(i + filesPerPart, |files|)..];
      parts := parts + [(PartKey(partCounter), chunk)];
      partCounter := partCounter + 1;
      i := i + filesPerPart;
    }
    assert files[Min(i, |files|)..] == [];
  }

  // ---------------------------------------------------------------------
  // The cache entry of one tag

  function OptNum(x: Option<real>): Json {
    match x
    case None => JNull
    case Some(v) => JNum(v)
  }

  function StrArray(files: seq<string>): (r: seq<Json>)
    ensures |r| == |files| && forall i :: 0 <= i < |files| ==> r[i] == JStr(files[i])
  {
    if files == [] then [] else [JStr(files[0])] + StrArray(files[1..])
  }

  function PartsJson(parts: Dict<seq<string>>): (r: Dict<Json>)
    ensures |r| == |parts|
    ensures forall i :: 0 <= i < |parts| ==> r[i] == (parts[i].0, JArr(StrArray(parts[i].1)))
  {
    if parts == [] then [] else [(parts[0].0, JArr(StrArray(parts[0].1)))] + PartsJson(parts[1..])
  }

  /** `tag_dict`: the metadata object, then the parts object. */
  function TagEntry(meta: Metadata, parts: Dict<seq<string>>): Json {
    JObj([
      ("metadata", JObj([
        ("cross_section_pb", OptNum(meta.crossSection)),
        ("sum_genweight", OptNum(meta.sumGenweight)),
        ("is_data", JBool(meta.isData))])),
      ("files", JObj(PartsJson(parts)))])
  }

  /** An entry of the shape `TagEntry` builds: an object keyed `metadata`
      then `files`, the metadata keyed `cross_section_pb`, `sum_genweight`,
      `is_data`, the files an object of string arrays. */
  predicate BundleShaped(v: Json) {
    && v.JObj? && Keys(v.fields) == ["metadata", "files"]
    && v.fields[0].1.JObj?
    && Keys(v.fields[0].1.fields) == ["cross_section_pb", "sum_genweight", "is_data"]
    && v.fields[1].1.JObj?
    && forall i :: 0 <= i < |v.fields[1].1.fields| ==>
         v.fields[1].1.fields[i].1.JArr? && forall x :: x in v.fields[1].1.fields[i].1.items ==> x.JStr?
  }

  lemma TagEntryShaped(meta: Metadata, parts: Dict<seq<string>>)
    ensures BundleShaped(TagEntry(meta, parts))
  {
    var files := PartsJson(parts);
    forall i | 0 <= i < |files|
      ensures files[i].1.JArr? && forall x :: x in files[i].1.items ==> x.JStr?
    {
      var items := StrArray(parts[i].1);
      assert files[i].1 == JArr(items);
      forall x | x in items ensures x.JStr? {
        var j :| 0 <= j < |items| && items[j] == x;
      }
    }
  }

  // ---------------------------------------------------------------------
  // The whole run

  /** What the run is given besides the dataset list: the DAS answer for
      each dataset, Python's `float`, the part size and the redirector. */
  datatype Env = Env(
    das: string -> DasReply,
    parseFloat: string -> Option<real>,
    filesPerPart: int,
    redirector: string)

  /** The locators of a dataset: the redirector before each listed file. */
  function DatasetFiles(dataset: string, env: Env): Result<seq<string>> {
    match QueryDas(env.das(dataset))
    case Err(e) => Err(e)
    case Ok(lfns) => Ok(Prefixed(env.redirector, lfns))
  }

  /** One pass of the loop over lines. */
  function ProcessLine(cache: Dict<Json>, line: string, env: Env): Result<Dict<Json>> {
    match ParseLine(line, env.parseFloat)
    case Err(e) => Err(e)
    case Ok(Skipped) => Ok(cache)
    case Ok(Entry(dataset, tag, meta)) =>
      match DatasetFiles(dataset, env)
      case Err(e) => Err(e)
      case Ok(files) =>
        if |files| == 0 then Ok(cache)
        else if env.filesPerPart == 0 then Err(ZeroPartSize)
        else Ok(Put(cache, tag, TagEntry(meta, Chunks(files, env.filesPerPart, 1))))
  }

  /** The loop over the lines, from `cache`; the first error ends it. */
  function ProcessLines(cache: Dict<Json>, lines: seq<string>, env: Env): Result<Dict<Json>>
  {
    if lines == [] then Ok(cache)
    else Then(ProcessLines(cache, lines[..|lines| - 1], env), lines[|lines| - 1], env)
  }

  /** The next pass of the loop, unless an error has already ended it. */
  function Then(sofar: Result<Dict<Json>>, line: string, env: Env): (r: Result<Dict<Json>>)
    ensures sofar.Err? ==> r == sofar
    ensures sofar.Ok? ==> r == ProcessLine(sofar.value, line, env)
  {
    if sofar.Err? then sofar else ProcessLine(sofar.value, line, env)
  }

  /** What the output file held before the run: nothing, a parsed JSON
      document, or text `json.load` rejects. */
  datatype ExistingJson = Absent | Decoded(doc: Json) | Undecodable

  /** The value `full_cache` starts from: what `json.load` returned, else an
      empty `dict`. */
  function InitialDoc(existing: ExistingJson): Json {
    if existing.Decoded? then Load(existing.doc) else JObj([])
  }

  /** One pass of the loop on `full_cache` holding any JSON value. An object
      takes the pass of `ProcessLine`; any other value leaves the pass as it
      is until it stores a tag, where the assignment raises. */
  function StoreLine(doc: Json, line: string, env: Env): Result<Json> {
    var r := ProcessLine(if doc.JObj? then doc.fields else [], line, env);
    if r.Err? then Err(r.error)
    else if doc.JObj? then Ok(JObj(r.value))
    else if r.value == [] then Ok(doc)
    else Err(NotADict)
  }

  /** The loop over the lines, from `doc`; the first error ends it. */
  function StoreLines(doc: Json, lines: seq<string>, env: Env): Result<Json>
  {
    if lines == [] then Ok(doc)
    else Then'(StoreLines(doc, lines[..|lines| - 1], env), lines[|lines| - 1], env)
  }

  /** `create_bundles_from_dataset_txt`: the value that is written, or the
      error raised before anything is written. `txt` holds the lines of
      the dataset list, `None` when it does not exist. */
  function CreateBundles(txt: Option<seq<string>>, existing: ExistingJson, env: Env): Result<Json> {
    if txt.None? then Err(TxtNotFound)
    else StoreLines(InitialDoc(existing), StrippedNonBlank(txt.value), env)
  }

  /** From an object, the loop is `ProcessLines` on its items. */
  lemma {:induction false} StoreLinesObject(cache: Dict<Json>, lines: seq<string>, env: Env)
    ensures StoreLines(JObj(cache), lines, env) ==
      match ProcessLines(cache, lines, env)
      case Ok(c) => Ok(JObj(c))
      case Err(e) => Err(e)
  {
    if lines != [] {
      StoreLinesObject(cache, lines[..|lines| - 1], env);
    }
  }

  /** From a value that is not an object, a run that ends well stored no
      tag and writes the value back unchanged. */
  lemma {:induction false} NonObjectUnchanged(doc: Json, lines: seq<string>, env: Env)
    requires !doc.JObj? && StoreLines(doc, lines, env).Ok?
    ensures StoreLines(doc, lines, env).value == doc
    ensures forall tag :: NoneWrites(lines, tag, env)
  {
    if lines != [] {
      var n := |lines| - 1;
      var init := lines[..n];
      assert StoreLines(doc, lines, env) == Then'(StoreLines(doc, init, env), lines[n], env);
      NonObjectUnchanged(doc, init, env);
      NonObjectPass(doc, lines[n], env);
      forall tag ensures NoneWrites(lines, tag, env) {
        NoneWritesSnoc(lines, tag, env);
      }
    }
  }

  lemma NoneWritesSnoc(lines: seq<string>, tag: string, env: Env)
    requires lines != [] && NoneWrites(lines[..|lines| - 1], tag, env) && !Writes(lines[|lines| - 1], tag, env)
    ensures NoneWrites(lines, tag, env)
  {
    forall i | 0 <= i < |lines| - 1 ensures !Writes(lines[i], tag, env) {
      assert lines[i] == lines[..|lines| - 1][i];
    }
  }

  /** The next pass of the run on any value, unless an error has ended it. */
  function Then'(sofar: Result<Json>, line: string, env: Env): Result<Json> {
    if sofar.Err? then sofar else StoreLine(sofar.value, line, env)
  }

  /** One pass on a value that is not an object ends well only when it
      stores no tag, and then leaves the value as it was. */
  lemma NonObjectPass(doc: Json, line: string, env: Env)
    requires !doc.JObj? && StoreLine(doc, line, env).Ok?
    ensures StoreLine(doc, line, env).value == doc
    ensures forall tag :: !Writes(line, tag, env)
  {
    forall tag ensures !Writes(line, tag, env) {
      if Writes(line, tag, env) {
        NonObjectStoreRaises(doc, line, env, tag);
      }
    }
  }

  /** From a value that is not an object, a line that stores a tag raises:
      `range` on a zero part size, else the assignment. */
  lemma NonObjectStoreRaises(doc: Json, line: string, env: Env, tag: string)
    requires !doc.JObj? && Writes(line, tag, env)
    ensures StoreLine(doc, line, env) == Err(if env.filesPerPart == 0 then ZeroPartSize else NotADict)
  {
  }

  /** Whatever the file held, the object that is written has no key twice. */
  lemma CreateBundlesDistinct(txt: Option<seq<string>>, existing: ExistingJson, env: Env)
    requires CreateBundles(txt, existing, env).Ok? && CreateBundles(txt, existing, env).value.JObj?
    ensures DistinctKeys(CreateBundles(txt, existing, env).value.fields)
  {
    var doc := InitialDoc(existing);
    var lines := StrippedNonBlank(txt.value);
    if doc.JObj? {
      StoreLinesObject(doc.fields, lines, env);
      ProcessLinesDistinct(doc.fields, lines, env);
    } else {
      NonObjectUnchanged(doc, lines, env);
      assert false;
    }
  }

  /** Each pass keeps the keys distinct. */
  lemma {:induction false} ProcessLinesDistinct(cache: Dict<Json>, lines: seq<string>, env: Env)
    requires DistinctKeys(cache) && ProcessLines(cache, lines, env).Ok?
    ensures DistinctKeys(ProcessLines(cache, lines, env).value)
  {
    if lines != [] {
      ProcessLinesInit(cache, lines, env);
      var mid := ProcessLines(cache, lines[..|lines| - 1], env).value;
      ProcessLinesDistinct(cache, lines[..|lines| - 1], env);
      var tag, entry := ProcessLinePut(mid, lines[|lines| - 1], env, ProcessLines(cache, lines, env).value);
      if ProcessLines(cache, lines, env).value != mid {
        PutDistinct(mid, tag, entry);
      }
    }
  }

  /** Line `line` stores an entry under `tag`. */
  predicate Writes(line: string, tag: string, env: Env) {
    var p := ParseLine(line, env.parseFloat);
    && p.Ok? && p.value.Entry? && p.value.tag == tag
    && DatasetFiles(p.value.dataset, env).Ok? && |DatasetFiles(p.value.dataset, env).value| > 0
  }

  /** The entry line `line` stores, when it stores one. */
  function Stored(line: string, env: Env): Json
    requires ParseLine(line, env.parseFloat).Ok? && ParseLine(line, env.parseFloat).value.Entry?
    requires DatasetFiles(ParseLine(line, env.parseFloat).value.dataset, env).Ok?
  {
    var p := ParseLine(line, env.parseFloat).value;
    TagEntry(p.meta, Chunks(DatasetFiles(p.dataset, env).value, env.filesPerPart, 1))
  }

  /** One pass stores `Stored(line)` under the line's tag, or leaves the
      tag's entry as it was. */
  lemma ProcessLineEffect(cache: Dict<Json>, line: string, env: Env, c: Dict<Json>, tag: string)
    requires ProcessLine(cache, line, env) == Ok(c)
    ensures Writes(line, tag, env) ==> Get(c, tag) == Some(Stored(line, env))
    ensures !Writes(line, tag, env) ==> Get(c, tag) == Get(cache, tag)
  {
    var t, entry := ProcessLinePut(cache, line, env, c);
    if Writes(line, t, env) && c == Put(cache, t, entry) {
      GetPut(cache, t, entry, tag);
    }
  }

  /** A run that ends well ran well up to its last line. */
  lemma ProcessLinesInit(cache: Dict<Json>, lines: seq<string>, env: Env)
    requires lines != [] && ProcessLines(cache, lines, env).Ok?
    ensures ProcessLines(cache, lines[..|lines| - 1], env).Ok?
    ensures ProcessLine(ProcessLines(cache, lines[..|lines| - 1], env).value, lines[|lines| - 1], env)
      == ProcessLines(cache, lines, env)
  {
  }

  /** No line of `lines` writes `tag`. */
  predicate NoneWrites(lines: seq<string>, tag: string, env: Env) {
    forall i :: 0 <= i < |lines| ==> !Writes(lines[i], tag, env)
  }

  lemma NoneWritesInit(lines: seq<string>, tag: string, env: Env)
    requires lines != [] && NoneWrites(lines, tag, env)
    ensures NoneWrites(lines[..|lines| - 1], tag, env) && !Writes(lines[|lines| - 1], tag, env)
  {
    var init := lines[..|lines| - 1];
    assert forall i :: 0 <= i < |init| ==> init[i] == lines[i];
  }

  /** No line of `lines` after the `j`-th writes `tag`. */
  predicate NoneWritesAfter(lines: seq<string>, j: nat, tag: string, env: Env) {
    forall i :: j < i < |lines| ==> !Writes(lines[i], tag, env)
  }

  lemma NoneWritesAfterInit(lines: seq<string>, j: nat, tag: string, env: Env)
    requires j < |lines| - 1 && NoneWritesAfter(lines, j, tag, env)
    ensures NoneWritesAfter(lines[..|lines| - 1], j, tag, env) && !Writes(lines[|lines| - 1], tag, env)
  {
    var init := lines[..|lines| - 1];
    assert forall i :: 0 <= i < |init| ==> init[i] == lines[i];
  }

  /** A tag no line writes (a tag with no files, a malformed line) keeps
      the entry it had when the run started. */
  lemma {:induction false} UntouchedTagKept(cache: Dict<Json>, lines: seq<string>, env: Env, tag: string)
    requires ProcessLines(cache, lines, env).Ok?
    requires NoneWrites(lines, tag, env)
    ensures Get(ProcessLines(cache, lines, env).value, tag) == Get(cache, tag)
  {
    if lines != [] {
      var init := lines[..|lines| - 1];
      ProcessLinesInit(cache, lines, env);
      var mid := ProcessLines(cache, init, env);
      NoneWritesInit(lines, tag, env);
      UntouchedTagKept(cache, init, env, tag);
      ProcessLineEffect(mid.value, lines[|lines| - 1], env, ProcessLines(cache, lines, env).value, tag);
    }
  }

  /** The last line that writes a tag decides its entry: the replacement is
      whole, and later lines for other tags do not disturb it. */
  lemma {:induction false} LastWriteWins(cache: Dict<Json>, lines: seq<string>, env: Env, tag: string, j: nat)
    requires ProcessLines(cache, lines, env).Ok?
    requires j < |lines| && Writes(lines[j], tag, env)
    requires NoneWritesAfter(lines, j, tag, env)
    ensures Get(ProcessLines(cache, lines, env).value, tag) == Some(Stored(lines[j], env))
  {
    var init := lines[..|lines| - 1];
    ProcessLinesInit(cache, lines, env);
    var mid := ProcessLines(cache, init, env);
    var last := lines[|lines| - 1];
    if j < |lines| - 1 {
      assert init[j] == lines[j];
      NoneWritesAfterInit(lines, j, tag, env);
      LastWriteWins(cache, init, env, tag, j);
    }
    ProcessLineEffect(mid.value, last, env, ProcessLines(cache, lines, env).value, tag);
  }

  /** Every entry the run stores has keys `metadata` and `files`; a cache
      that starts empty (no file, or undecodable JSON) holds nothing else. */
  lemma {:induction false} FreshCacheShaped(lines: seq<string>, env: Env)
    requires ProcessLines([], lines, env).Ok?
    ensures var c := ProcessLines([], lines, env).value;
      DistinctKeys(c) && forall i :: 0 <= i < |c| ==> BundleShaped(c[i].1)
  {
    if lines != [] {
      var init := lines[..|lines| - 1];
      ProcessLinesInit([], lines, env);
      FreshCacheShaped(init, env);
      ProcessLineShaped(ProcessLines([], init, env).value, lines[|lines| - 1], env, ProcessLines([], lines, env).value);
    }
  }

  /** One pass keeps the keys distinct and every entry bundle-shaped. */
  lemma ProcessLineShaped(cache: Dict<Json>, line: string, env: Env, c: Dict<Json>)
    requires DistinctKeys(cache) && forall i :: 0 <= i < |cache| ==> BundleShaped(cache[i].1)
    requires ProcessLine(cache, line, env) == Ok(c)
    ensures DistinctKeys(c) && forall i :: 0 <= i < |c| ==> BundleShaped(c[i].1)
  {
    var tag, entry := ProcessLinePut(cache, line, env, c);
    if c != cache {
      PutShaped(cache, tag, entry);
      PutDistinct(cache, tag, entry);
    }
  }

  /** A pass that succeeds either writes no tag and leaves the cache alone,
      or writes exactly one tag and puts the bundle-shaped entry
      `Stored(line)` under it. */
  lemma ProcessLinePut(cache: Dict<Json>, line: string, env: Env, c: Dict<Json>)
    returns (tag: string, entry: Json)
    requires ProcessLine(cache, line, env) == Ok(c)
    ensures || (c == cache && forall t :: !Writes(line, t, env))
            || (&& Writes(line, tag, env) && entry == Stored(line, env)
                && c == Put(cache, tag, entry) && BundleShaped(entry)
                && forall t :: Writes(line, t, env) ==> t == tag)
  {
    var p := ParseLine(line, env.parseFloat);
    tag, entry := "", JNull;
    if p.value.Entry? && DatasetFiles(p.value.dataset, env).value != [] {
      var parts := Chunks(DatasetFiles(p.value.dataset, env).value, env.filesPerPart, 1);
      tag, entry := p.value.tag, TagEntry(p.value.meta, parts);
      TagEntryShaped(p.value.meta, parts);
    }
  }

  lemma {:induction false} PutShaped(d: Dict<Json>, k: string, v: Json)
    requires BundleShaped(v)
    requires forall i :: 0 <= i < |d| ==> BundleShaped(d[i].1)
    ensures forall i :: 0 <= i < |Put(d, k, v)| ==> BundleShaped(Put(d, k, v)[i].1)
  {
    if d != [] && d[0].0 != k {
      PutShaped(d[1..], k, v);
      assert Put(d, k, v) == [d[0]] + Put(d[1..], k, v);
    }
  }

  /** The first error ends the loop: the result is that error. */
  lemma {:induction false} ErrorSticks(doc: Json, lines: seq<string>, i: nat, env: Env)
    requires i <= |lines| && StoreLines(doc, lines[..i], env).Err?
    ensures StoreLines(doc, lines, env) == StoreLines(doc, lines[..i], env)
  {
    if i < |lines| {
      assert lines[..|lines| - 1][..i] == lines[..i];
      ErrorSticks(doc, lines[..|lines| - 1], i, env);
    } else {
      assert lines[..i] == lines;
    }
  }

  /** The run up to line `k`, one line further. */
  lemma StoreLinesSnoc(doc: Json, lines: seq<string>, k: nat, env: Env, sofar: Json)
    requires k < |lines| && StoreLines(doc, lines[..k], env) == Ok(sofar)
    ensures StoreLines(doc, lines[..k + 1], env) == StoreLine(sofar, lines[k], env)
    ensures StoreLine(sofar, lines[k], env).Err? ==>
      StoreLines(doc, lines, env) == StoreLine(sofar, lines[k], env)
  {
    assert lines[..k + 1][..k] == lines[..k];
    if StoreLine(sofar, lines[k], env).Err? {
      ErrorSticks(doc, lines, k + 1, env);
    }
  }

  /** One pass of the loop of `create_bundles_from_dataset_txt`: the cache
      after `line`, or the error it raises. */
  method ProcessOneLine(fullCache: Dict<Json>, line: string, env: Env) returns (r: Result<Dict<Json>>)
    ensures r == ProcessLine(fullCache, line, env)
  {
    var parts := SplitWhitespace(line);
    if |parts| < 2 {
      return Ok(fullCache);
    }
    var dataset, tag := parts[0], parts[1];
    var crossSection: Option<real> := None;
    var sumGenweight: Option<real> := None;
    var isData := false;
    if |parts| >= 3 {
      if AsciiUpper(parts[2]) == "DATA" {
        isData := true;
      } else {
        crossSection := env.parseFloat(parts[2]);
        if crossSection.None? {
          return Err(BadNumber(parts[2]));
        }
      }
    }
    if |parts| >= 4 {
      sumGenweight := env.parseFloat(parts[3]);
      if sumGenweight.None? {
        return Err(BadNumber(parts[3]));
      }
    }
    assert ParseLine(line, env.parseFloat) == Ok(Entry(dataset, tag, Metadata(crossSection, sumGenweight, isData)));
    var reply := env.das(dataset);
    if reply.returnCode != 0 {
      return Err(DasFailed(reply.stderr));
    }
    var lfns := DasLines(reply.stdout);
    var files := Prefixed(env.redirector, lfns);
    var totalFiles := |files|;
    if totalFiles == 0 {
      return Ok(fullCache);
    }
    if env.filesPerPart == 0 {
      return Err(ZeroPartSize);
    }
    var chunks := ChunkFiles(files, env.filesPerPart);
    var tagDict := TagEntry(Metadata(crossSection, sumGenweight, isData), chunks);
    r := Ok(Put(fullCache, tag, tagDict));
  }

  /** `create_bundles_from_dataset_txt`: returns the value it writes to the
      output file, or the error that stops it first. */
  method CreateBundlesFromDatasetTxt(txt: Option<seq<string>>, existing: ExistingJson, env: Env)
    returns (r: Result<Json>)
    ensures r == CreateBundles(txt, existing, env)
  {
    if txt.None? {
      return Err(TxtNotFound);
    }
    var fullCache := InitialDoc(existing);
    var lines := StrippedNonBlank(txt.value);
    var k := 0;
    while k < |lines|
      invariant 0 <= k <= |lines|
      invariant StoreLines(InitialDoc(existing), lines[..k], env) == Ok(fullCache)
    {
      StoreLinesSnoc(InitialDoc(existing), lines, k, env, fullCache);
      // A value that is not an object runs the pass up to the assignment.
      var next := ProcessOneLine(if fullCache.JObj? then fullCache.fields else [], lines[k], env);
      if next.Err? {
        return Err(next.error);
      }
      if fullCache.JObj? {
        fullCache := JObj(next.value);
      } else if next.value != [] {
        return Err(NotADict);
      }
      k := k + 1;
    }
    assert lines[..k] == lines;
    r := Ok(fullCache);
  }
}
