/** The gen-weight survey: for each dataset of a list, the number of files
    DAS knows and the sum of `genEventSumw` over their `Runs` trees, keyed by
    the dataset's short name, with one summary line per dataset found. */
module GenWeight {
  import opened Text
  import opened Json
  import opened Das

  // ---------------------------------------------------------------------
  // The dataset list

  /** A raw line of the list is kept when it is not blank and does not
      itself start with `#`; an indented `#` line is kept. */
  predicate Kept(line: string) {
    Strip(line) != "" && !StartsWith(line, "#")
  }

  /** `read_datasets`: the kept lines, stripped, in file order. */
  function ReadDatasets(lines: seq<string>): (datasets: seq<string>)
    ensures |datasets| <= |lines|
  {
    if lines == [] then []
    else ReadLine(lines[0]) + ReadDatasets(lines[1..])
  }

  /** What one line of the file contributes. */
  function ReadLine(line: string): seq<string> {
    if Kept(line) then [Strip(line)] else []
  }

  /** Every dataset read is non-empty and already stripped. */
  lemma {:induction false} ReadDatasetsStripped(lines: seq<string>)
    ensures forall x :: x in ReadDatasets(lines) ==> x != "" && Strip(x) == x
  {
    if lines != [] {
      var rest := ReadDatasets(lines[1..]);
      ReadDatasetsStripped(lines[1..]);
      if Kept(lines[0]) {
        var d := Strip(lines[0]);
        StripIdempotent(lines[0]);
        assert ReadDatasets(lines) == [d] + rest;
      } else {
        assert ReadDatasets(lines) == rest;
      }
    }
  }

  /** Reading a list in two halves reads the whole of it. */
  lemma {:induction false} ReadDatasetsAppend(a: seq<string>, b: seq<string>)
    ensures ReadDatasets(a + b) == ReadDatasets(a) + ReadDatasets(b)
  {
    if a == [] {
      assert a + b == b;
    } else {
      var x := a[0];
      assert a == [x] + a[1..];
      assert a + b == [x] + (a[1..] + b);
      ReadDatasetsCons(x, a[1..] + b);
      ReadDatasetsCons(x, a[1..]);
      ReadDatasetsAppend(a[1..], b);
      AppendAssoc(ReadLine(x), ReadDatasets(a[1..]), ReadDatasets(b));
    }
  }

  lemma ReadDatasetsCons(x: string, rest: seq<string>)
    ensures ReadDatasets([x] + rest) == ReadLine(x) + ReadDatasets(rest)
  {
    assert ([x] + rest)[1..] == rest;
  }

  /** With `ReadDatasetsAppend`, fixes the whole list: one line reads as its
      stripped self when kept, as nothing otherwise. */
  lemma ReadDatasetsOne(line: string)
    ensures Kept(line) ==> ReadDatasets([line]) == [Strip(line)]
    ensures !Kept(line) ==> ReadDatasets([line]) == []
  {
    assert [line][1..] == [];
  }

  /** A line whose raw text starts with `#` is a comment and is dropped. */
  lemma CommentDropped(line: string)
    requires StartsWith(line, "#")
    ensures ReadDatasets([line]) == []
  {
    ReadDatasetsOne(line);
  }

  /** A `#` after leading blanks does not make a comment: the line is kept,
      stripped, with the `#` now first. */
  lemma IndentedCommentKept(pad: string, body: string)
    requires pad != [] && forall i :: 0 <= i < |pad| ==> IsSpace(pad[i])
    requires StartsWith(body, "#") && !IsSpace(body[|body| - 1])
    ensures ReadDatasets([pad + body]) == [body]
  {
    var line := pad + body;
    assert body[0] == '#' by {
      assert body[..1] == "#";
    }
    assert !IsSpace(body[0]);
    StripPadded(pad, body);
    assert line[0] == pad[0];
    assert !StartsWith(line, "#") by {
      assert IsSpace(line[0]);
    }
    assert Kept(line);
    ReadDatasetsOne(line);
  }

  // ---------------------------------------------------------------------
  // Names and files of one dataset

  /** `get_short_name`: the second `/`-separated field, or the whole name
      when it has no `/`. */
  function GetShortName(dataset: string): (name: string)
    ensures '/' !in dataset ==> name == dataset
    ensures '/' in dataset ==> '/' !in name
  {
    var parts := SplitOn(dataset, '/');
    if |parts| > 1 then parts[1] else dataset
  }

  /** The short name of `a/b/rest` and of `a/b` (with no `/` in `a` and
      `b`) is `b`; a CMS name `/Primary/Processed/TIER` gives `Primary`. */
  lemma ShortNameField(a: string, b: string, rest: string)
    requires '/' !in a && '/' !in b
    ensures GetShortName(a + "/" + b + "/" + rest) == b
    ensures GetShortName(a + "/" + b) == b
  {
    SplitOnGlued(a, '/', b + "/" + rest);
    assert a + "/" + b + "/" + rest == a + ['/'] + (b + "/" + rest);
    SplitOnGlued(b, '/', rest);
    assert b + "/" + rest == b + ['/'] + rest;
    SplitOnGlued(a, '/', b);
    assert a + "/" + b == a + ['/'] + b;
    SplitOnAbsent(b, '/');
  }

  lemma ShortNameExample()
    ensures GetShortName("/A/B/C") == "A"
  {
    ShortNameField("", "A", "B/C");
    assert "" + "/" + "A" + "/" + "B/C" == "/A/B/C";
  }

  /** `[f for f in xs if f.strip()]` */
  function NonBlank(xs: seq<string>): (r: seq<string>)
    ensures |r| <= |xs|
    ensures forall x :: x in r <==> x in xs && Strip(x) != ""
  {
    if xs == [] then [] else (if Strip(xs[0]) != "" then [xs[0]] else []) + NonBlank(xs[1..])
  }

  /** Filtering two pieces is filtering their concatenation: the kept
      lines stay in order, each as often as it occurs. */
  lemma {:induction false} NonBlankAppend(a: seq<string>, b: seq<string>)
    ensures NonBlank(a + b) == NonBlank(a) + NonBlank(b)
  {
    if a == [] {
      assert a + b == b;
    } else {
      var head := if Strip(a[0]) != "" then [a[0]] else [];
      assert (a + b)[0] == a[0] && (a + b)[1..] == a[1..] + b;
      assert NonBlank(a + b) == head + NonBlank(a[1..] + b);
      assert NonBlank(a) == head + NonBlank(a[1..]);
      NonBlankAppend(a[1..], b);
      AppendAssoc(head, NonBlank(a[1..]), NonBlank(b));
    }
  }

  /** With `NonBlankAppend`, fixes the whole result: one line is kept, as it
      is, exactly when it is not blank. */
  lemma NonBlankOne(x: string)
    ensures NonBlank([x]) == if Strip(x) != "" then [x] else []
  {
    assert [x][1..] == [];
  }

  lemma {:induction false} NonBlankAll(xs: seq<string>)
    requires forall i :: 0 <= i < |xs| ==> IsLfn(xs[i])
    ensures NonBlank(xs) == xs
  {
    if xs != [] {
      StripOfTrimmed(xs[0]);
      NonBlankAll(xs[1..]);
    }
  }

  /** `get_das_files`: no files when `dasgoclient` fails, otherwise the
      redirector before each non-blank line of its output, which text mode
      reads with universal newlines. A line is kept with its own spaces;
      only the test strips it. */
  function GetDasFiles(reply: DasReply, redirector: string): (files: seq<string>)
    ensures reply.returnCode != 0 ==> files == []
  {
    if reply.returnCode != 0 then []
    else Prefixed(redirector, NonBlank(SplitOn(Strip(UniversalNewlines(reply.stdout)), '\n')))
  }

  /** A listing of files, printed one per line, is read back whole and in
      order. */
  lemma GetDasFilesListing(lfns: seq<string>, stderr: string, redirector: string)
    requires lfns != [] && forall i :: 0 <= i < |lfns| ==> IsLfn(lfns[i])
    ensures GetDasFiles(DasReply(0, Listing(lfns), stderr), redirector) == Prefixed(redirector, lfns)
  {
    ListingNoCarriageReturn(lfns);
    SplitListing(lfns);
    NonBlankAll(lfns);
  }

  /** Lines ended by `\r\n` read as the same files: text mode turns each
      `\r\n` into `\n` before the output is split. */
  lemma CrLfListing(redirector: string)
    ensures GetDasFiles(DasReply(0, "a\r\nb\r\n", ""), redirector) == [redirector + "a", redirector + "b"]
  {
    var lfns := ["a", "b"];
    CrLfRead();
    CrLfIsListing();
    SplitListing(lfns);
    assert SplitOn(Strip(UniversalNewlines("a\r\nb\r\n")), '\n') == lfns;
    NonBlankAll(lfns);
    assert Prefixed(redirector, lfns) == [redirector + "a", redirector + "b"];
  }

  lemma CrLfRead()
    ensures UniversalNewlines("a\r\nb\r\n") == "a\nb\n"
  {
    var s := "a\r\nb\r\n";
    assert s[0] == 'a' && s[1..] == "\r\nb\r\n";
    assert "\r\nb\r\n"[1] == '\n' && "\r\nb\r\n"[2..] == "b\r\n";
    assert "b\r\n"[1..] == "\r\n";
    assert "\r\n"[1] == '\n' && "\r\n"[2..] == "";
    assert UniversalNewlines("\r\n") == "\n";
    assert UniversalNewlines("b\r\n") == "b\n";
    assert UniversalNewlines("\r\nb\r\n") == "\nb\n";
  }

  lemma CrLfIsListing()
    ensures forall i :: 0 <= i < |["a", "b"]| ==> IsLfn(["a", "b"][i])
    ensures Listing(["a", "b"]) == "a\nb\n"
  {
    assert ["a", "b"][1..] == ["b"];
    assert JoinOn(["a", "b"], '\n') == "a" + ['\n'] + "b";
    assert !IsSpace('a') && !IsSpace('b');
  }

  /** `sum_genEventSumw_rdf`: nothing is opened for an empty list; a failure
      of the foreign sum (`None` from `runsSum`) gives 0. */
  function SumGenEventSumw(files: seq<string>, runsSum: seq<string> -> Option<real>): (total: real)
    ensures files == [] ==> total == 0.0
    ensures files != [] && runsSum(files).None? ==> total == 0.0
    ensures files != [] && runsSum(files).Some? ==> total == runsSum(files).value
  {
    if files == [] then 0.0
    else match runsSum(files)
      case None => 0.0
      case Some(t) => t
  }

  // ---------------------------------------------------------------------
  // The survey

  datatype Status = Success | Failed

  /** One entry of `results`. */
  datatype ResultEntry = ResultEntry(dataset: string, totalGenEventSumw: real, numFiles: nat, status: Status)

  /** What the survey is given: the DAS answer per dataset, the redirector,
      the sum over the `Runs` trees of a file list (`None` where ROOT
      raises), and the `:.2f` rendering of a number. */
  datatype Survey = Survey(
    das: string -> DasReply,
    redirector: string,
    runsSum: seq<string> -> Option<real>,
    format: real -> string)

  function FilesOf(dataset: string, env: Survey): seq<string> {
    GetDasFiles(env.das(dataset), env.redirector)
  }

  /** The entry stored for a dataset. */
  function EntryFor(dataset: string, env: Survey): ResultEntry {
    var files := FilesOf(dataset, env);
    if files == [] then ResultEntry(dataset, 0.0, 0, Failed)
    else ResultEntry(dataset, SumGenEventSumw(files, env.runsSum), |files|, Success)
  }

  /** The summary line of a dataset that has files. */
  function SummaryFor(dataset: string, env: Survey): string {
    var files := FilesOf(dataset, env);
    GetShortName(dataset) + ": " + env.format(SumGenEventSumw(files, env.runsSum))
      + " (" + NatToString(|files|) + " files)"
  }

  /** `process_all` over `datasets`: the results and the summary lines. */
  function SurveyAll(datasets: seq<string>, env: Survey): (Dict<ResultEntry>, seq<string>) {
    if datasets == [] then ([], [])
    else
      var (results, summary) := SurveyAll(datasets[..|datasets| - 1], env);
      var d := datasets[|datasets| - 1];
      (Put(results, GetShortName(d), EntryFor(d, env)),
       summary + if FilesOf(d, env) == [] then [] else [SummaryFor(d, env)])
  }

  /** The datasets DAS finds files for, in order. */
  function Found(datasets: seq<string>, env: Survey): (r: seq<string>)
    ensures forall d :: d in r <==> d in datasets && FilesOf(d, env) != []
  {
    if datasets == [] then []
    else
      var d := datasets[|datasets| - 1];
      var init := datasets[..|datasets| - 1];
      assert datasets == init + [d];
      Found(init, env) + if FilesOf(d, env) == [] then [] else [d]
  }

  /** The datasets found among two pieces of the list are those found in
      each, in list order. */
  lemma {:induction false} FoundAppend(a: seq<string>, b: seq<string>, env: Survey)
    ensures Found(a + b, env) == Found(a, env) + Found(b, env)
  {
    if b == [] {
      assert a + b == a;
    } else {
      var init := b[..|b| - 1];
      var d := b[|b| - 1];
      assert (a + b)[..|a + b| - 1] == a + init;
      assert (a + b)[|a + b| - 1] == d;
      FoundAppend(a, init, env);
    }
  }

  /** With `FoundAppend`, fixes the whole result: one dataset is found
      exactly when DAS lists files for it. */
  lemma FoundOne(d: string, env: Survey)
    ensures Found([d], env) == if FilesOf(d, env) != [] then [d] else []
  {
    assert [d][..0] == [];
  }

  /** An entry is a success exactly when it counts files; a failure counts
      none and sums to 0. */
  predicate WellFormed(e: ResultEntry) {
    && (e.status == Success <==> e.numFiles > 0)
    && (e.status == Failed ==> e.totalGenEventSumw == 0.0)
  }

  /** The results hold one well-formed entry per short name. */
  lemma {:induction false} SurveyEntries(datasets: seq<string>, env: Survey)
    ensures DistinctKeys(SurveyAll(datasets, env).0)
    ensures forall i :: 0 <= i < |SurveyAll(datasets, env).0| ==> WellFormed(SurveyAll(datasets, env).0[i].1)
  {
    if datasets != [] {
      var init := datasets[..|datasets| - 1];
      var d := datasets[|datasets| - 1];
      SurveyEntries(init, env);
      var results := SurveyAll(init, env).0;
      var r := Put(results, GetShortName(d), EntryFor(d, env));
      assert SurveyAll(datasets, env).0 == r;
      PutDistinct(results, GetShortName(d), EntryFor(d, env));
      PutItems(results, GetShortName(d), EntryFor(d, env));
      forall i | 0 <= i < |r| ensures WellFormed(r[i].1) {
        if r[i] != (GetShortName(d), EntryFor(d, env)) {
          var j :| 0 <= j < |results| && results[j] == r[i];
        }
      }
    }
  }

  /** One summary line per dataset found, in order. */
  lemma {:induction false} SurveySummary(datasets: seq<string>, env: Survey)
    ensures |SurveyAll(datasets, env).1| == |Found(datasets, env)|
    ensures forall i :: 0 <= i < |Found(datasets, env)| ==>
      SurveyAll(datasets, env).1[i] == SummaryFor(Found(datasets, env)[i], env)
  {
    if datasets != [] {
      var init := datasets[..|datasets| - 1];
      var d := datasets[|datasets| - 1];
      SurveySummary(init, env);
      var extra := if FilesOf(d, env) == [] then [] else [SummaryFor(d, env)];
      assert SurveyAll(datasets, env).1 == SurveyAll(init, env).1 + extra;
      assert Found(datasets, env) == Found(init, env) + if FilesOf(d, env) == [] then [] else [d];
    }
  }

  /** `[get_short_name(d) for d in datasets]` */
  function ShortNames(datasets: seq<string>): (names: seq<string>)
    ensures |names| == |datasets|
    ensures forall i :: 0 <= i < |datasets| ==> names[i] == GetShortName(datasets[i])
  {
    if datasets == [] then [] else ShortNames(datasets[..|datasets| - 1]) + [GetShortName(datasets[|datasets| - 1])]
  }

  /** The results are keyed by exactly the short names of the datasets. */
  lemma {:induction false} SurveyKeys(datasets: seq<string>, env: Survey)
    ensures forall k :: k in Keys(SurveyAll(datasets, env).0) <==> k in ShortNames(datasets)
  {
    if datasets != [] {
      var init := datasets[..|datasets| - 1];
      var d := datasets[|datasets| - 1];
      SurveyKeys(init, env);
      var results := SurveyAll(init, env).0;
      assert SurveyAll(datasets, env).0 == Put(results, GetShortName(d), EntryFor(d, env));
      PutKeys(results, GetShortName(d), EntryFor(d, env));
      assert ShortNames(datasets) == ShortNames(init) + [GetShortName(d)];
    }
  }

  /** No dataset after the `j`-th has its short name. */
  predicate LastOfName(datasets: seq<string>, j: nat)
    requires j < |datasets|
  {
    forall i :: j < i < |datasets| ==> GetShortName(datasets[i]) != GetShortName(datasets[j])
  }

  lemma LastOfNameInit(datasets: seq<string>, j: nat)
    requires j < |datasets| - 1 && LastOfName(datasets, j)
    ensures LastOfName(datasets[..|datasets| - 1], j)
    ensures GetShortName(datasets[|datasets| - 1]) != GetShortName(datasets[j])
  {
    var init := datasets[..|datasets| - 1];
    assert forall i :: 0 <= i < |init| ==> init[i] == datasets[i];
  }

  /** A later dataset with the same short name overwrites the entry of an
      earlier one: the entry under a name is that of the last dataset with
      it. */
  lemma {:induction false} SurveyLastWins(datasets: seq<string>, env: Survey, j: nat)
    requires j < |datasets| && LastOfName(datasets, j)
    ensures Get(SurveyAll(datasets, env).0, GetShortName(datasets[j])) == Some(EntryFor(datasets[j], env))
  {
    var init := datasets[..|datasets| - 1];
    var name := GetShortName(datasets[j]);
    SurveyStep(datasets, env, name);
    if j < |init| {
      LastOfNameInit(datasets, j);
      calc {
        Get(SurveyAll(datasets, env).0, name);
        Get(SurveyAll(init, env).0, name);
        { assert init[j] == datasets[j];
          SurveyLastWins(init, env, j); }
        Some(EntryFor(datasets[j], env));
      }
    }
  }

  /** The entries after one more dataset. */
  lemma SurveyStep(datasets: seq<string>, env: Survey, name: string)
    requires datasets != []
    ensures var d := datasets[|datasets| - 1];
      Get(SurveyAll(datasets, env).0, name)
        == if name == GetShortName(d) then Some(EntryFor(d, env))
           else Get(SurveyAll(datasets[..|datasets| - 1], env).0, name)
  {
    var d := datasets[|datasets| - 1];
    GetPut(SurveyAll(datasets[..|datasets| - 1], env).0, GetShortName(d), EntryFor(d, env), name);
  }

  lemma SurveyAllSnoc(datasets: seq<string>, i: nat, env: Survey)
    requires i < |datasets|
    ensures var d := datasets[i];
      SurveyAll(datasets[..i + 1], env)
        == (Put(SurveyAll(datasets[..i], env).0, GetShortName(d), EntryFor(d, env)),
            SurveyAll(datasets[..i], env).1 + if FilesOf(d, env) == [] then [] else [SummaryFor(d, env)])
  {
    assert datasets[..i + 1][..i] == datasets[..i];
  }

  /** `process_all`: reads the list, then for each dataset stores its entry
      under its short name and, when DAS found files, appends its summary
      line. */
  method ProcessAll(lines: seq<string>, env: Survey)
    returns (results: Dict<ResultEntry>, summaryLines: seq<string>)
    ensures (results, summaryLines) == SurveyAll(ReadDatasets(lines), env)
  {
    var datasets := ReadDatasets(lines);
    results := [];
    summaryLines := [];
    var i := 0;
    while i < |datasets|
      invariant 0 <= i <= |datasets|
      invariant results == SurveyAll(datasets[..i], env).0
      invariant summaryLines == SurveyAll(datasets[..i], env).1
    {
      var dataset := datasets[i];
      SurveyAllSnoc(datasets, i, env);
      var shortName := GetShortName(dataset);
      var files := GetDasFiles(env.das(dataset), env.redirector);
      assert files == FilesOf(dataset, env);
      if |files| == 0 {
        assert ResultEntry(dataset, 0.0, 0, Failed) == EntryFor(dataset, env);
        results := Put(results, shortName, ResultEntry(dataset, 0.0, 0, Failed));
        i := i + 1;
        continue;
      }
      var totalSumw := SumGenEventSumw(files, env.runsSum);
      assert ResultEntry(dataset, totalSumw, |files|, Success) == EntryFor(dataset, env);
      results := Put(results, shortName, ResultEntry(dataset, totalSumw, |files|, Success));
      var summary := shortName + ": " + env.format(totalSumw) + " (" + NatToString(|files|) + " files)";
      assert summary == SummaryFor(dataset, env);
      summaryLines := summaryLines + [summary];
      i := i + 1;
    }
    assert datasets[..i] == datasets;
  }
}
