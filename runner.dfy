/** The driver: where the file list comes from (a cache file or a DAS query),
    the `MAX_FILES` limit, the skim the runner builds over the list, and the
    elapsed-time summary. The clock, the cache file's contents, the DAS reply,
    the events of the files and ROOT's outcome are parameters. */
module Runner {
  import opened Text
  import opened Json
  import opened Das
  import Skimmer

  /** The settings the runner reads from its configuration module. A
      `MAX_FILES` of `None` or `0` is falsy; `BRANCHES_WILDCARD` may be
      absent. */
  datatype Config = Config(
    datasetName: string,
    redirector: string,
    outputFile: string,
    treeName: string,
    maxFiles: Option<int>,
    triggers: seq<string>,
    metFilters: seq<string>,
    branchesToSave: seq<string>,
    branchesWildcard: Option<seq<string>>)

  // ---------------------------------------------------------------------
  // The cache file

  /** `s[1:]`: empty for the empty string. */
  function DropFirst(s: string): string {
    if s == [] then [] else s[1..]
  }

  /** `filelist_<name with "/" as "_", first character dropped>.txt` */
  function CacheFileName(datasetName: string): (r: string)
    ensures |r| == 13 + (if datasetName == [] then 0 else |datasetName| - 1)
    ensures r[..9] == "filelist_" && r[|r| - 4..] == ".txt"
    ensures forall i :: 1 <= i < |datasetName| ==>
      r[8 + i] == if datasetName[i] == '/' then '_' else datasetName[i]
    ensures '/' !in r
  {
    var safe := DropFirst(ReplaceChar(datasetName, '/', '_'));
    var r := "filelist_" + safe + ".txt";
    assert forall i :: 0 <= i < |safe| ==> r[9 + i] == safe[i];
    assert forall i :: 0 <= i < |r| ==> r[i] == '/' ==> 9 <= i < 9 + |safe|;
    r
  }

  /** A dataset name becomes the file name its path suggests. */
  lemma CacheFileNameExample()
    ensures CacheFileName("/Mu/R") == "filelist_Mu_R.txt"
  {
    var r := CacheFileName("/Mu/R");
    var expected := "filelist_Mu_R.txt";
    forall i | 0 <= i < |r| ensures r[i] == expected[i] {
      if i < 9 {
        assert r[..9][i] == expected[i];
      } else if i >= |r| - 4 {
        assert r[|r| - 4..][i - (|r| - 4)] == expected[i];
      }
    }
  }

  /** Two datasets whose names differ only in where a `/` or a `_` stands
      share one cache file. */
  lemma CacheFileNameCollides()
    ensures CacheFileName("/A/B_C/D") == CacheFileName("/A_B/C/D")
  {
    var a := CacheFileName("/A/B_C/D");
    var b := CacheFileName("/A_B/C/D");
    assert |a| == |b|;
    forall i | 0 <= i < |a| ensures a[i] == b[i] {
      if i < 9 {
        assert a[..9][i] == b[..9][i];
      } else if i >= |a| - 4 {
        assert a[|a| - 4..][i - (|a| - 4)] == b[|b| - 4..][i - (|b| - 4)];
      }
    }
  }

  /** The writes that save the list, one line per file. */
  function Newlined(files: seq<string>): (r: seq<string>)
    ensures |r| == |files|
    ensures forall i :: 0 <= i < |files| ==> r[i] == files[i] + "\n"
  {
    if files == [] then [] else [files[0] + "\n"] + Newlined(files[1..])
  }

  /** The lines `for line in f` yields on a file opened in text mode: the
      text is read with universal newlines, then each line ends with its
      newline, except a last one the text does not end with a newline. */
  function FileLines(content: string): (lines: seq<string>)
  {
    var parts := SplitOn(UniversalNewlines(content), '\n');
    var last := parts[|parts| - 1];
    Newlined(parts[..|parts| - 1]) + (if last == "" then [] else [last])
  }

  /** `[line.strip() for line in f]` */
  function StripAll(lines: seq<string>): (r: seq<string>)
    ensures |r| == |lines|
    ensures forall i :: 0 <= i < |lines| ==> r[i] == Strip(lines[i])
  {
    if lines == [] then [] else [Strip(lines[0])] + StripAll(lines[1..])
  }

  function ReadCache(content: string): seq<string> {
    StripAll(FileLines(content))
  }

  /** A string `strip` leaves unchanged: no whitespace at either end. */
  predicate Trimmed(s: string) {
    s == [] || (!IsSpace(s[0]) && !IsSpace(s[|s| - 1]))
  }

  /** The saved text is the files joined by newlines, with one more at the
      end. */
  lemma {:induction false} NewlinedJoin(files: seq<string>)
    ensures Concat(Newlined(files)) == JoinOn(files + [""], '\n')
  {
    if files != [] {
      NewlinedJoin(files[1..]);
      assert (files + [""])[1..] == files[1..] + [""];
      assert Newlined(files)[1..] == Newlined(files[1..]);
    }
  }

  lemma StripNewline(f: string)
    requires Trimmed(f)
    ensures Strip(f + "\n") == f
  {
    assert IsSpace('\n');
    if f == [] {
      assert TrimLeft("\n") == [];
    } else {
      assert TrimLeft(f + "\n") == f + "\n";
      assert TrimRight(f + "\n") == f by {
        assert (f + "\n")[..|f|] == f;
      }
    }
  }

  /** Reading back the cache a run saved gives the same list, in order, as
      long as no file name holds a line end (`\n` or `\r`) or starts or
      ends with whitespace. */
  lemma CacheRoundTrip(files: seq<string>)
    requires forall i :: 0 <= i < |files| ==> '\n' !in files[i] && '\r' !in files[i] && Trimmed(files[i])
    ensures ReadCache(Concat(Newlined(files))) == files
  {
    SavedLines(files);
    StripNewlined(files);
  }

  /** A lone `\r` ends a line when the cache is read back: a name holding
      one comes back as two. */
  lemma CarriageReturnSplits()
    ensures ReadCache("x\ry\n") == ["x", "y"]
  {
    CarriageReturnLines();
    assert !IsSpace('x') && !IsSpace('y');
    ReadSavedLines("x\ry\n", ["x", "y"]);
  }

  /** A text whose lines are those a save writes reads back as the list. */
  lemma ReadSavedLines(content: string, files: seq<string>)
    requires FileLines(content) == Newlined(files)
    requires forall i :: 0 <= i < |files| ==> Trimmed(files[i])
    ensures ReadCache(content) == files
  {
    StripNewlined(files);
  }

  lemma CarriageReturnLines()
    ensures FileLines("x\ry\n") == Newlined(["x", "y"])
  {
    CarriageReturnRead();
    CarriageReturnParts();
    LinesOfParts("x\ry\n", ["x", "y"]);
  }

  lemma CarriageReturnRead()
    ensures UniversalNewlines("x\ry\n") == "x\ny\n"
  {
    var s := "x\ry\n";
    assert s[0] == 'x' && s[1..] == "\ry\n";
    assert "\ry\n"[1] == 'y' && "\ry\n"[1..] == "y\n";
    assert "y\n"[1..] == "\n";
    assert "\n"[1..] == "";
    assert UniversalNewlines("\n") == "\n";
    assert UniversalNewlines("y\n") == "y\n";
    assert UniversalNewlines("\ry\n") == "\n" + UniversalNewlines("y\n");
  }

  lemma CarriageReturnParts()
    ensures SplitOn("x\ny\n", '\n') == ["x", "y", ""]
  {
    SplitOnGlued("y", '\n', "");
    assert "y\n" == "y" + ['\n'] + "";
    SplitOnGlued("x", '\n', "y\n");
    assert "x\ny\n" == "x" + ['\n'] + "y\n";
  }

  /** The saved text reads back as the lines that were written. */
  lemma SavedLines(files: seq<string>)
    requires forall i :: 0 <= i < |files| ==> '\n' !in files[i] && '\r' !in files[i]
    ensures FileLines(Concat(Newlined(files))) == Newlined(files)
  {
    SavedParts(files);
    LinesOfParts(Concat(Newlined(files)), files);
  }

  lemma SavedParts(files: seq<string>)
    requires forall i :: 0 <= i < |files| ==> '\n' !in files[i] && '\r' !in files[i]
    ensures SplitOn(UniversalNewlines(Concat(Newlined(files))), '\n') == files + [""]
  {
    var parts := files + [""];
    NewlinedJoin(files);
    NoCarriageReturn(files);
    forall i | 0 <= i < |parts| ensures '\n' !in parts[i] {
      if i < |files| {
        assert parts[i] == files[i];
      }
    }
    SplitJoinOn(parts, '\n');
  }

  lemma {:induction false} NoCarriageReturn(files: seq<string>)
    requires forall i :: 0 <= i < |files| ==> '\r' !in files[i]
    ensures '\r' !in Concat(Newlined(files))
  {
    if files != [] {
      NoCarriageReturn(files[1..]);
      assert Concat(Newlined(files)) == (files[0] + "\n") + Concat(Newlined(files[1..]));
    }
  }

  lemma LinesOfParts(content: string, files: seq<string>)
    requires SplitOn(UniversalNewlines(content), '\n') == files + [""]
    ensures FileLines(content) == Newlined(files)
  {
    var parts := files + [""];
    assert parts[..|parts| - 1] == files;
    assert parts[|parts| - 1] == "";
  }

  lemma StripNewlined(files: seq<string>)
    requires forall i :: 0 <= i < |files| ==> Trimmed(files[i])
    ensures StripAll(Newlined(files)) == files
  {
    var r := StripAll(Newlined(files));
    forall i | 0 <= i < |files| ensures r[i] == files[i] {
      StripNewline(files[i]);
    }
  }

  // ---------------------------------------------------------------------
  // DAS and the file limit

  /** `_query_das`: the non-empty lines of the output, or `None` when
      `dasgoclient` failed (the runner then exits with status 1). */
  function QueryDas(reply: DasReply): Option<seq<string>>
  {
    if reply.returnCode != 0 then None else Some(DasLines(reply.stdout))
  }

  /** DAS failing is the one way to get no list; otherwise the list is the
      output's non-empty lines, none of which holds a newline. */
  lemma QueryDasMeaning(reply: DasReply)
    ensures var r := QueryDas(reply);
      && (r.None? <==> reply.returnCode != 0)
      && (r.Some? ==> r.value == NonEmpty(SplitOn(Strip(reply.stdout), '\n')))
      && (r.Some? ==> forall i :: 0 <= i < |r.value| ==> r.value[i] != "" && '\n' !in r.value[i])
  {
    var lines := DasLines(reply.stdout);
    assert forall i :: 0 <= i < |lines| ==> lines[i] in SplitOn(Strip(reply.stdout), '\n');
  }

  /** A successful reply that lists `lfns` one per line yields exactly
      `lfns`, in order. */
  lemma QueryDasListing(lfns: seq<string>, stderr: string)
    requires lfns != [] && forall i :: 0 <= i < |lfns| ==> IsLfn(lfns[i])
    ensures QueryDas(DasReply(0, Listing(lfns), stderr)) == Some(lfns)
  {
    DasLinesListing(lfns);
  }

  /** `xs[:n]` with Python's clamping and negative counts. */
  function PyPrefix(xs: seq<string>, n: int): (r: seq<string>)
    ensures |r| <= |xs| && r == xs[..|r|]
    ensures n >= 0 ==> |r| == if n < |xs| then n else |xs|
    ensures n < 0 ==> |r| == if |xs| + n > 0 then |xs| + n else 0
  {
    if n >= 0 then (if n < |xs| then xs[..n] else xs)
    else if |xs| + n > 0 then xs[..|xs| + n] else []
  }

  /** The list after the `MAX_FILES` rule. */
  function LimitFiles(files: seq<string>, maxFiles: Option<int>): (r: seq<string>)
    ensures |r| <= |files| && r == files[..|r|]
    ensures (maxFiles.None? || maxFiles.value == 0 || maxFiles.value >= |files|) ==> r == files
    ensures maxFiles.Some? && 0 < maxFiles.value < |files| ==> |r| == maxFiles.value
    ensures maxFiles.Some? && maxFiles.value < 0 ==> |r| == if |files| + maxFiles.value > 0 then |files| + maxFiles.value else 0
  {
    if maxFiles.Some? && maxFiles.value != 0 && maxFiles.value < |files|
    then PyPrefix(files, maxFiles.value)
    else files
  }

  /** The text of the dataset's cache file in the working directory `dir`
      (file name to contents), when the file exists. */
  function CachedText(cfg: Config, dir: map<string, string>): Option<string> {
    var name := CacheFileName(cfg.datasetName);
    if name in dir then Some(dir[name]) else None
  }

  /** The working directory after `get_file_list`: a list fetched from DAS is
      saved, one locator per line, under the dataset's cache file name
      (created or truncated); nothing is written when the cache existed or
      DAS failed. */
  function DirAfter(cfg: Config, dir: map<string, string>, reply: DasReply): map<string, string> {
    var name := CacheFileName(cfg.datasetName);
    if name in dir || QueryDas(reply).None? then dir
    else dir[name := Concat(Newlined(Prefixed(cfg.redirector, QueryDas(reply).value)))]
  }

  /** The list `get_file_list` settles on: the stripped lines of the cache
      file when it exists, else the DAS files behind the redirector (or
      `None` when DAS failed), cut down by `MAX_FILES`. */
  function FileList(cfg: Config, cached: Option<string>, reply: DasReply): Option<seq<string>>
  {
    if cached.Some? then Some(LimitFiles(ReadCache(cached.value), cfg.maxFiles))
    else
      var lfns := QueryDas(reply);
      if lfns.None? then None
      else Some(LimitFiles(Prefixed(cfg.redirector, lfns.value), cfg.maxFiles))
  }

  /** A second run that finds the cache the first one saved works on the
      same files, when the redirector and the DAS lines have no whitespace. */
  lemma CachedRunSameFiles(cfg: Config, reply: DasReply)
    requires reply.returnCode == 0 && NoSpace(cfg.redirector)
    requires forall i :: 0 <= i < |QueryDas(reply).value| ==> NoSpace(QueryDas(reply).value[i])
    ensures var listed := Prefixed(cfg.redirector, QueryDas(reply).value);
      FileList(cfg, Some(Concat(Newlined(listed))), reply) == FileList(cfg, None, reply)
  {
    var listed := Prefixed(cfg.redirector, QueryDas(reply).value);
    PrefixedRoundTrip(cfg.redirector, QueryDas(reply).value);
    CachedFileList(cfg, Concat(Newlined(listed)), listed, reply);
    FreshFileList(cfg, reply);
  }

  /** A second run in the directory the first one left behind reads the
      cache the first one saved, and works on the same files. */
  lemma SecondRunSameFiles(cfg: Config, dir: map<string, string>, reply: DasReply)
    requires CacheFileName(cfg.datasetName) !in dir
    requires reply.returnCode == 0 && NoSpace(cfg.redirector)
    requires forall i :: 0 <= i < |QueryDas(reply).value| ==> NoSpace(QueryDas(reply).value[i])
    ensures CachedText(cfg, DirAfter(cfg, dir, reply)).Some?
    ensures FileList(cfg, CachedText(cfg, DirAfter(cfg, dir, reply)), reply) == FileList(cfg, CachedText(cfg, dir), reply)
  {
    CachedRunSameFiles(cfg, reply);
  }

  /** Two datasets whose cache file names coincide share one cache: a run
      for the second, after a run that fetched the first from DAS, reads the
      first one's list and queries nothing. */
  lemma SharedCacheRead(a: Config, b: Config, dir: map<string, string>, reply: DasReply)
    requires CacheFileName(a.datasetName) == CacheFileName(b.datasetName)
    requires CacheFileName(a.datasetName) !in dir && reply.returnCode == 0
    ensures CachedText(b, DirAfter(a, dir, reply))
      == Some(Concat(Newlined(Prefixed(a.redirector, QueryDas(reply).value))))
  {
  }

  /** The locators built from whitespace-free names survive the cache. */
  lemma PrefixedRoundTrip(redirector: string, lfns: seq<string>)
    requires NoSpace(redirector) && forall i :: 0 <= i < |lfns| ==> NoSpace(lfns[i])
    ensures ReadCache(Concat(Newlined(Prefixed(redirector, lfns)))) == Prefixed(redirector, lfns)
  {
    PrefixedClean(redirector, lfns);
    CacheRoundTrip(Prefixed(redirector, lfns));
  }

  /** A cache file that reads as `listed` yields `listed`, cut down by
      `MAX_FILES`. */
  lemma CachedFileList(cfg: Config, content: string, listed: seq<string>, reply: DasReply)
    requires ReadCache(content) == listed
    ensures FileList(cfg, Some(content), reply) == Some(LimitFiles(listed, cfg.maxFiles))
  {
  }

  /** Without a cache, a DAS query that succeeds yields the locators of its
      lines, cut down by `MAX_FILES`. */
  lemma FreshFileList(cfg: Config, reply: DasReply)
    requires reply.returnCode == 0
    ensures FileList(cfg, None, reply)
      == Some(LimitFiles(Prefixed(cfg.redirector, QueryDas(reply).value), cfg.maxFiles))
  {
  }

  /** A redirector and file names without whitespace make locators the
      cache can hold: no newline, nothing for `strip` to remove. */
  lemma PrefixedClean(redirector: string, lfns: seq<string>)
    requires NoSpace(redirector) && forall i :: 0 <= i < |lfns| ==> NoSpace(lfns[i])
    ensures var listed := Prefixed(redirector, lfns);
      forall i :: 0 <= i < |listed| ==> '\n' !in listed[i] && '\r' !in listed[i] && Trimmed(listed[i])
  {
    var listed := Prefixed(redirector, lfns);
    assert IsSpace('\n') && IsSpace('\r');
    forall i | 0 <= i < |listed| ensures '\n' !in listed[i] && '\r' !in listed[i] && Trimmed(listed[i]) {
      assert listed[i] == redirector + lfns[i];
      NoSpaceAppend(redirector, lfns[i]);
    }
  }

  lemma NoSpaceAppend(a: string, b: string)
    requires NoSpace(a) && NoSpace(b)
    ensures NoSpace(a + b)
  {
    forall j | 0 <= j < |a + b| ensures !IsSpace((a + b)[j]) {
      if j < |a| {
        assert (a + b)[j] == a[j];
      } else {
        assert (a + b)[j] == b[j - |a|];
      }
    }
  }

  // ---------------------------------------------------------------------
  // Elapsed time

  /** Hours, minutes and seconds of the whole seconds in `elapsed`. */
  function TimeSplit(elapsed: real): (int, int, int)
  {
    var f := elapsed.Floor;
    (f / 3600, (f % 3600) / 60, f % 60)
  }

  /** The split is exactly what `int(e // 3600)`, `int((e % 3600) // 60)`
      and `int(e % 60)` compute with Python's flooring `//` and `%` on a
      real `e`. */
  lemma TimeSplitPython(e: real)
    ensures var hours := (e / 3600.0).Floor;
      TimeSplit(e) == (hours, ((e - 3600.0 * hours as real) / 60.0).Floor,
                       (e - 60.0 * (e / 60.0).Floor as real).Floor)
  {
    FloorSplit(e);
  }

  /** The hours, minutes and seconds add up to the whole seconds elapsed,
      minutes and seconds stay under 60, and a non-negative time has
      non-negative hours. */
  lemma TimeSplitMeaning(elapsed: real)
    ensures var hms := TimeSplit(elapsed);
      && hms.0 * 3600 + hms.1 * 60 + hms.2 == elapsed.Floor
      && 0 <= hms.1 < 60 && 0 <= hms.2 < 60
      && (elapsed >= 0.0 ==> hms.0 >= 0)
  {
    DivModSplit(elapsed.Floor);
  }

  /** The floors of `e / d` and of `e` differ by exactly the integer
      division by `d`. */
  lemma FloorDiv(e: real, d: int)
    requires d > 0
    ensures (e / d as real).Floor == e.Floor / d
  {
    var f := e.Floor;
    var q := f / d;
    assert q * d <= f < q * d + d;
    assert (q * d) as real <= e < (q * d + d) as real;
    assert q as real * d as real <= e < (q + 1) as real * d as real;
    DivBetween(e, d as real, q as real, (q + 1) as real);
  }

  /** Dividing by a positive number keeps bounds that are multiples of it. */
  lemma DivBetween(x: real, dr: real, a: real, b: real)
    requires dr > 0.0 && a * dr <= x < b * dr
    ensures a <= x / dr < b
  {
    var y := x / dr;
    assert y * dr == x;
    assert (y - a) * dr == x - a * dr;
    assert (b - y) * dr == b * dr - x;
    PositiveFactor(y - a, dr);
    PositiveFactor(b - y, dr);
  }

  /** A product with a positive factor has the sign of the other factor. */
  lemma PositiveFactor(u: real, dr: real)
    requires dr > 0.0
    ensures u * dr > 0.0 ==> u > 0.0
    ensures u * dr >= 0.0 ==> u >= 0.0
  {
  }

  /** The floor of `e` less a multiple `k` of a whole number is the floor
      of `e` less `k`. */
  lemma FloorShift(e: real, k: int)
    ensures (e - k as real).Floor == e.Floor - k
  {
  }

  lemma FloorSplit(e: real)
    ensures var f := e.Floor;
      var h := (e / 3600.0).Floor;
      && h == f / 3600
      && ((e - 3600.0 * h as real) / 60.0).Floor == (f % 3600) / 60
      && (e - 60.0 * (e / 60.0).Floor as real).Floor == f % 60
  {
    var f := e.Floor;
    var h := (e / 3600.0).Floor;
    FloorDiv(e, 3600);
    var r := e - 3600.0 * h as real;
    FloorShift(e, 3600 * h);
    FloorDiv(r, 60);
    var q := (e / 60.0).Floor;
    FloorDiv(e, 60);
    FloorShift(e, 60 * q);
  }

  /** Whole seconds as hours, minutes under 60 and seconds under 60. */
  lemma DivModSplit(f: int)
    ensures f == (f / 3600) * 3600 + ((f % 3600) / 60) * 60 + f % 60
    ensures 0 <= (f % 3600) / 60 < 60
  {
    var q := f / 3600;
    var r := f % 3600;
    var m := r / 60;
    var s := r % 60;
    assert f == 3600 * q + r;
    assert r == 60 * m + s;
    assert f == 60 * (60 * q + m) + s;
    assert f % 60 == s;
  }

  /** What `print_stats` reports: the number of files, the output file, and
      the elapsed seconds, shown as `TimeSplit(elapsed)`. */
  datatype Stats = Stats(filesProcessed: nat, outputFile: string, elapsed: real)

  // ---------------------------------------------------------------------
  // The run

  /** How `run` ends: exit status 1 (DAS failed or ROOT raised), an early
      return on an empty list, or a written snapshot and the summary. */
  datatype RunOutcome =
    | Exited(status: int)
    | NoFiles
    | Finished(snapshot: Skimmer.Snapshot, stats: Stats)

  const CrossSectionPb: real := 0.079
  const LuminosityPbInv: real := 62.4 * 1000.0

  /** The graph `run` builds: the weight first, then the global filters. */
  function RunGraph(cfg: Config, sumGenWeight: real): seq<Skimmer.Op> {
    Skimmer.WeightOps(sumGenWeight, Skimmer.GlobalScale(CrossSectionPb, LuminosityPbInv, sumGenWeight))
    + Skimmer.FilterOps(Skimmer.GlobalStages(cfg.triggers, cfg.metFilters))
  }

  /** The branches the snapshot writes: the two weight columns, then what
      `build_branch_list` returned. */
  function RunBranches(cfg: Config, columnNames: seq<string>): seq<string> {
    ["totalWeight", "genEventSumw"] + Skimmer.BranchList(cfg.branchesToSave, cfg.branchesWildcard, columnNames)
  }

  /** ROOT lists every column the data frame defines, so once
      `define_total_weight` has run its columns hold both weight columns. */
  predicate DefinesWeights(columnNames: seq<string>) {
    "totalWeight" in columnNames && "genEventSumw" in columnNames
  }

  /** What `run` yields.
      `events`: the events of the chosen files' tree; `sumGenWeight`: the
      sum of their Runs tree's `genEventSumw`; `columnNames`: the data
      frame's columns after the defines; `rootOk`: whether ROOT raised
      nothing, from building the data frame (runner.py:104), summing the
      Runs tree (runner.py:112), listing the columns (runner.py:120) through
      the snapshot (runner.py:127-132). An exception from any of them ends
      the run with status 1 and no summary: uncaught ones by the traceback,
      the snapshot's by `sys.exit(1)`. */
  function RunResult(cfg: Config, files: Option<seq<string>>, events: seq<Skimmer.Event>,
                     sumGenWeight: real, columnNames: seq<string>, rootOk: bool, elapsed: real): RunOutcome
    requires DefinesWeights(columnNames)
  {
    if files.None? then Exited(1)
    else if files.value == [] then NoFiles
    else SkimResult(cfg, files.value, events, sumGenWeight, columnNames, rootOk, elapsed)
  }

  /** How `run` ends once it has a non-empty list `files`. */
  function SkimResult(cfg: Config, files: seq<string>, events: seq<Skimmer.Event>,
                      sumGenWeight: real, columnNames: seq<string>, rootOk: bool, elapsed: real): RunOutcome
    requires DefinesWeights(columnNames)
  {
    var branches := RunBranches(cfg, columnNames);
    if !rootOk || !Skimmer.SnapshotAccepts(branches, columnNames) then Exited(1)
    else
      var graph := RunGraph(cfg, sumGenWeight);
      Finished(
        Skimmer.Snapshot("Events", cfg.outputFile, branches,
                         Skimmer.ProjectAll(Skimmer.Materialize(events, graph), branches),
                         graph, Skimmer.CutFlow(events, graph)),
        Stats(|files|, cfg.outputFile, elapsed))
  }

  /** `run` exits with status 1 exactly when DAS failed, or on a non-empty
      list when ROOT raised anywhere from the data frame to the snapshot or
      rejected the branch list; it
      returns early exactly on an empty list, and reaches the summary in
      every other case. */
  lemma RunOutcomeCases(cfg: Config, files: Option<seq<string>>, events: seq<Skimmer.Event>,
                        sumGenWeight: real, columnNames: seq<string>, rootOk: bool, elapsed: real)
    requires DefinesWeights(columnNames)
    ensures var out := RunResult(cfg, files, events, sumGenWeight, columnNames, rootOk, elapsed);
      var accepted := Skimmer.SnapshotAccepts(RunBranches(cfg, columnNames), columnNames);
      && (out == Exited(1) <==> files.None? || (files.value != [] && !(rootOk && accepted)))
      && (out == NoFiles <==> files.Some? && files.value == [])
      && (out.Finished? <==> files.Some? && files.value != [] && rootOk && accepted)
      && (out.Exited? ==> out.status == 1)
  {
  }

  /** A branch listed explicitly that a wildcard also matches is written
      twice into the branch vector, which ROOT rejects: such a run exits
      with status 1. */
  lemma OverlapExits(cfg: Config, files: seq<string>, events: seq<Skimmer.Event>, sumGenWeight: real,
                     columnNames: seq<string>, rootOk: bool, elapsed: real, b: string, k: nat)
    requires files != [] && b in cfg.branchesToSave && b in columnNames && DefinesWeights(columnNames)
    requires cfg.branchesWildcard.Some? && k < |cfg.branchesWildcard.value|
    requires StartsWith(b, Skimmer.PatternPrefix(cfg.branchesWildcard.value[k]))
    ensures RunResult(cfg, Some(files), events, sumGenWeight, columnNames, rootOk, elapsed) == Exited(1)
  {
    Skimmer.OverlapRejected(["totalWeight", "genEventSumw"], cfg.branchesToSave,
                            cfg.branchesWildcard.value, columnNames, columnNames, b, k);
  }

  /** A run on a non-empty list in which ROOT raises nothing, with no wildcard and
      distinct explicit branches that are columns other than the two weight
      columns, finishes: ROOT accepts its branch vector. */
  lemma ExplicitRunFinishes(cfg: Config, files: seq<string>, events: seq<Skimmer.Event>, sumGenWeight: real,
                            columnNames: seq<string>, elapsed: real)
    requires files != [] && DefinesWeights(columnNames)
    requires cfg.branchesWildcard.None? || cfg.branchesWildcard.value == []
    requires forall i, j :: 0 <= i < j < |cfg.branchesToSave| ==> cfg.branchesToSave[i] != cfg.branchesToSave[j]
    requires forall i :: 0 <= i < |cfg.branchesToSave| ==>
      cfg.branchesToSave[i] in columnNames && cfg.branchesToSave[i] !in ["totalWeight", "genEventSumw"]
    ensures RunResult(cfg, Some(files), events, sumGenWeight, columnNames, true, elapsed).Finished?
  {
    var explicit := cfg.branchesToSave;
    var branches := RunBranches(cfg, columnNames);
    assert branches == ["totalWeight", "genEventSumw"] + explicit;
    forall i, j | 0 <= i < j < |branches|
      ensures branches[i] != branches[j]
    {
      if i >= 2 {
        assert branches[i] == explicit[i - 2] && branches[j] == explicit[j - 2];
      } else {
        if j >= 2 {
          assert branches[j] == explicit[j - 2];
        }
      }
    }
    forall i | 0 <= i < |branches|
      ensures branches[i] in columnNames
    {
      if i >= 2 {
        assert branches[i] == explicit[i - 2];
      }
    }
  }

  /** A finished run wrote `OUTPUT_FILE` from a graph that defines the
      weight (cross section 0.079 pb, luminosity 62.4 fb^-1) before it
      filters, with the weight columns listed first and the built branch
      list after them, and its summary counts the files the list held. */
  lemma FinishedOutput(cfg: Config, files: Option<seq<string>>, events: seq<Skimmer.Event>,
                       sumGenWeight: real, columnNames: seq<string>, rootOk: bool, elapsed: real)
    requires DefinesWeights(columnNames)
    requires RunResult(cfg, files, events, sumGenWeight, columnNames, rootOk, elapsed).Finished?
    ensures var out := RunResult(cfg, files, events, sumGenWeight, columnNames, rootOk, elapsed);
      var scale := Skimmer.GlobalScale(CrossSectionPb, LuminosityPbInv, sumGenWeight);
      && rootOk && files.Some? && Skimmer.SnapshotAccepts(out.snapshot.branches, columnNames)
      && out.stats == Stats(|files.value|, cfg.outputFile, elapsed)
      && out.stats.filesProcessed > 0
      && out.snapshot.treeName == "Events" && out.snapshot.fileName == cfg.outputFile
      && out.snapshot.graph[..2] == Skimmer.WeightOps(sumGenWeight, scale)
      && out.snapshot.graph[2..] == Skimmer.FilterOps(Skimmer.GlobalStages(cfg.triggers, cfg.metFilters))
      && CrossSectionPb == 0.079 && LuminosityPbInv == 62400.0
      && out.snapshot.branches[..2] == ["totalWeight", "genEventSumw"]
      && out.snapshot.branches[2..] == Skimmer.BranchList(cfg.branchesToSave, cfg.branchesWildcard, columnNames)
  {
    var out := RunResult(cfg, files, events, sumGenWeight, columnNames, rootOk, elapsed);
    assert out == SkimResult(cfg, files.value, events, sumGenWeight, columnNames, rootOk, elapsed);
    var scale := Skimmer.GlobalScale(CrossSectionPb, LuminosityPbInv, sumGenWeight);
    var weight := Skimmer.WeightOps(sumGenWeight, scale);
    var filters := Skimmer.FilterOps(Skimmer.GlobalStages(cfg.triggers, cfg.metFilters));
    assert out.snapshot.graph == weight + filters;
    SplitAt(weight, filters);
    var built := Skimmer.BranchList(cfg.branchesToSave, cfg.branchesWildcard, columnNames);
    assert out.snapshot.branches == ["totalWeight", "genEventSumw"] + built;
    SplitAt(["totalWeight", "genEventSumw"], built);
    assert LuminosityPbInv == 62400.0;
  }

  lemma SplitAt<T>(a: seq<T>, b: seq<T>)
    ensures (a + b)[..|a|] == a && (a + b)[|a|..] == b
  {
  }

  /** Each row a finished run wrote is the projection of an event that got
      through every global filter and carries the normalised weight, in
      order; no cut-flow count exceeds the number of input events. */
  lemma FinishedRows(cfg: Config, files: Option<seq<string>>, events: seq<Skimmer.Event>,
                     sumGenWeight: real, columnNames: seq<string>, rootOk: bool, elapsed: real)
    requires DefinesWeights(columnNames)
    requires RunResult(cfg, files, events, sumGenWeight, columnNames, rootOk, elapsed).Finished?
    ensures var out := RunResult(cfg, files, events, sumGenWeight, columnNames, rootOk, elapsed);
      var scale := Skimmer.GlobalScale(CrossSectionPb, LuminosityPbInv, sumGenWeight);
      var survivors := Skimmer.Materialize(events, RunGraph(cfg, sumGenWeight));
      && |out.snapshot.rows| == |survivors| <= |events|
      && (forall i :: 0 <= i < |survivors| ==>
            && Skimmer.PassesAll(Skimmer.GlobalStages(cfg.triggers, cfg.metFilters), survivors[i])
            && Skimmer.Weighted(survivors[i], sumGenWeight, scale)
            && out.snapshot.rows[i] == Skimmer.Project(survivors[i], out.snapshot.branches))
      && (forall i :: 0 <= i < |out.snapshot.cutFlow| ==> out.snapshot.cutFlow[i].1 <= |events|)
  {
    var scale := Skimmer.GlobalScale(CrossSectionPb, LuminosityPbInv, sumGenWeight);
    var graph := RunGraph(cfg, sumGenWeight);
    var stages := Skimmer.GlobalStages(cfg.triggers, cfg.metFilters);
    var survivors := Skimmer.Materialize(events, graph);
    Skimmer.WeightedSurvivors(events, sumGenWeight, scale, stages);
    Skimmer.MaterializeShrinks(events, graph);
    Skimmer.CutFlowNonIncreasing(events, graph);
    Skimmer.ProjectAllMeaning(survivors, RunBranches(cfg, columnNames));
    forall i | 0 <= i < |survivors|
      ensures Skimmer.PassesAll(stages, survivors[i]) && Skimmer.Weighted(survivors[i], sumGenWeight, scale)
    {
      assert survivors[i] in survivors;
    }
  }

  // ---------------------------------------------------------------------

  class AnalysisRunner {
    const cfg: Config
    var files: seq<string>
    var startTime: real
    var endTime: real

    constructor (cfg: Config)
      ensures this.cfg == cfg && files == [] && startTime == 0.0 && endTime == 0.0
    {
      this.cfg := cfg;
      files := [];
      startTime := 0.0;
      endTime := 0.0;
    }

    /** `now` is what the clock reads. */
    method StartTimer(now: real)
      modifies this
      ensures startTime == now && files == old(files) && endTime == old(endTime)
    {
      startTime := now;
    }

    /** `dir` is the working directory, file name to text. Returns whether
        DAS failed (exit status 1), the writes that saved a fetched list, and
        the directory afterwards. */
    method GetFileList(dir: map<string, string>, reply: DasReply)
      returns (exit: bool, saved: Option<seq<string>>, dirAfter: map<string, string>)
      modifies this
      ensures startTime == old(startTime) && endTime == old(endTime)
      ensures exit <==> FileList(cfg, CachedText(cfg, dir), reply).None?
      ensures !exit ==> files == FileList(cfg, CachedText(cfg, dir), reply).value
      ensures exit ==> files == old(files)
      ensures saved.Some? <==> CacheFileName(cfg.datasetName) !in dir && !exit
      ensures saved.Some? ==> saved.value == Newlined(Prefixed(cfg.redirector, QueryDas(reply).value))
      ensures dirAfter == DirAfter(cfg, dir, reply)
    {
      var cacheFilename := CacheFileName(cfg.datasetName);
      saved := None;
      dirAfter := dir;
      if cacheFilename in dir {
        files := ReadCache(dir[cacheFilename]);
      } else {
        var lfns := QueryDas(reply);
        if lfns.None? {
          return true, None, dir;
        }
        files := Prefixed(cfg.redirector, lfns.value);
        var writes := SaveCache(files);
        saved := Some(writes);
        dirAfter := dir[cacheFilename := Concat(writes)];
      }
      exit := false;
      var totalAvailable := |files|;
      if cfg.maxFiles.Some? && cfg.maxFiles.value != 0 && cfg.maxFiles.value < totalAvailable {
        files := PyPrefix(files, cfg.maxFiles.value);
      }
    }

    /** The writes that save `files` to the cache file, one line each. */
    static method SaveCache(files: seq<string>) returns (writes: seq<string>)
      ensures writes == Newlined(files)
    {
      writes := [];
      var i := 0;
      while i < |files|
        invariant 0 <= i <= |files|
        invariant writes == Newlined(files[..i])
      {
        assert Newlined(files[..i + 1]) == Newlined(files[..i]) + [files[i] + "\n"];
        writes := writes + [files[i] + "\n"];
        i := i + 1;
      }
      assert files[..i] == files;
    }

    /** `now` is what the clock reads. Returns the summary and the hours,
        minutes and seconds printed on its "Total Time" line. */
    method PrintStats(now: real) returns (stats: Stats, hours: int, minutes: int, seconds: int)
      modifies this
      ensures endTime == now && startTime == old(startTime) && files == old(files)
      ensures stats == Stats(|files|, cfg.outputFile, now - startTime)
      ensures (hours, minutes, seconds) == TimeSplit(stats.elapsed)
    {
      endTime := now;
      var elapsed := endTime - startTime;
      hours := (elapsed / 3600.0).Floor;
      minutes := ((elapsed - 3600.0 * hours as real) / 60.0).Floor;
      seconds := (elapsed - 60.0 * (elapsed / 60.0).Floor as real).Floor;
      TimeSplitPython(elapsed);
      stats := Stats(|files|, cfg.outputFile, elapsed);
    }

    /** Steps 2 to 4 of `run`: the skimmer over `files`, the weight, the
        filters, the branch list and the snapshot. `rootOk` is whether ROOT
        raised nothing on the way; an exception leaves no snapshot. */
    static method Skim(cfg: Config, files: seq<string>, events: seq<Skimmer.Event>, sumGenWeight: real,
                       columnNames: seq<string>, rootOk: bool)
      returns (snapshot: Option<Skimmer.Snapshot>)
      requires DefinesWeights(columnNames)
      ensures var graph := RunGraph(cfg, sumGenWeight);
        var branches := RunBranches(cfg, columnNames);
        snapshot == if rootOk && Skimmer.SnapshotAccepts(branches, columnNames)
          then Some(Skimmer.Snapshot("Events", cfg.outputFile, branches,
                      Skimmer.ProjectAll(Skimmer.Materialize(events, graph), branches),
                      graph, Skimmer.CutFlow(events, graph)))
          else None
    {
      var skimmer := new Skimmer.AnalysisSkimmer(files, cfg.treeName, events);
      skimmer.DefineTotalWeight(CrossSectionPb, LuminosityPbInv, sumGenWeight);
      skimmer.ApplyGlobalFilters(cfg.triggers, cfg.metFilters);
      assert skimmer.graph == RunGraph(cfg, sumGenWeight);
      var branchesToSave := skimmer.BuildBranchList(cfg.branchesToSave, cfg.branchesWildcard, columnNames);
      snapshot := skimmer.SaveSnapshot(cfg.outputFile, Some(branchesToSave), columnNames, rootOk);
      assert skimmer.outputBranches == RunBranches(cfg, columnNames);
    }

    /** `run`, with the clock read at the start (`started`) and when the
        summary is printed (`ended`). */
    method Run(started: real, dir: map<string, string>, reply: DasReply, events: seq<Skimmer.Event>,
               sumGenWeight: real, columnNames: seq<string>, rootOk: bool, ended: real)
      returns (outcome: RunOutcome, saved: Option<seq<string>>, dirAfter: map<string, string>)
      requires DefinesWeights(columnNames)
      modifies this
      ensures outcome == RunResult(cfg, FileList(cfg, CachedText(cfg, dir), reply), events, sumGenWeight,
                                   columnNames, rootOk, ended - started)
      ensures FileList(cfg, CachedText(cfg, dir), reply).Some? ==> files == FileList(cfg, CachedText(cfg, dir), reply).value
      ensures FileList(cfg, CachedText(cfg, dir), reply).None? ==> files == old(files)
      ensures saved.Some? <==> CacheFileName(cfg.datasetName) !in dir && FileList(cfg, CachedText(cfg, dir), reply).Some?
      ensures saved.Some? ==> saved.value == Newlined(Prefixed(cfg.redirector, QueryDas(reply).value))
      ensures dirAfter == DirAfter(cfg, dir, reply)
      ensures startTime == started
      ensures endTime == if outcome.Finished? then ended else old(endTime)
    {
      StartTimer(started);
      var exit;
      exit, saved, dirAfter := GetFileList(dir, reply);
      outcome := RunOnList(exit, events, sumGenWeight, columnNames, rootOk, ended);
    }

    /** Steps 1 to 5 of `run` once `get_file_list` has returned: exit on a
        DAS failure, return on an empty list, else skim and report. */
    method RunOnList(exit: bool, events: seq<Skimmer.Event>, sumGenWeight: real, columnNames: seq<string>,
                     rootOk: bool, ended: real)
      returns (outcome: RunOutcome)
      requires DefinesWeights(columnNames)
      modifies this
      ensures outcome == RunResult(cfg, if exit then None else Some(old(files)), events, sumGenWeight,
                                   columnNames, rootOk, ended - old(startTime))
      ensures files == old(files) && startTime == old(startTime)
      ensures endTime == if outcome.Finished? then ended else old(endTime)
    {
      if exit {
        return Exited(1);
      }
      if files == [] {
        return NoFiles;
      }
      outcome := SkimAndReport(events, sumGenWeight, columnNames, rootOk, ended);
    }

    /** Steps 2 to 5 of `run` on a non-empty list: the skim, then the
        summary when the snapshot was written. */
    method SkimAndReport(events: seq<Skimmer.Event>, sumGenWeight: real, columnNames: seq<string>,
                         rootOk: bool, ended: real)
      returns (outcome: RunOutcome)
      requires files != [] && DefinesWeights(columnNames)
      modifies this
      ensures outcome == SkimResult(cfg, files, events, sumGenWeight, columnNames, rootOk, ended - startTime)
      ensures files == old(files) && startTime == old(startTime)
      ensures endTime == if outcome.Finished? then ended else old(endTime)
    {
      var snapshot := Skim(cfg, files, events, sumGenWeight, columnNames, rootOk);
      if snapshot.None? {
        return Exited(1);
      }
      var stats, hours, minutes, seconds := PrintStats(ended);
      outcome := Finished(snapshot.value, stats);
    }
  }
}
