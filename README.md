# A verified model of the skim_with_rdf event skimmer

`skim_with_rdf` reduces CMS NanoAOD datasets with ROOT's `RDataFrame`. The
model covers five pieces of it:

- **The skimmer** (`AnalysisSkimmer`). It builds a lazy chain of filters on
  a data frame: an OR of the triggers, an AND of the MET flags, a fixed
  multiplicity cut. It also defines the normalisation weight
  `totalWeight = genWeight * xsec * lumi / sumw`, builds the list of
  branches to write (explicit names, then wildcard expansions) and takes
  the snapshot.
- **The runner** (`AnalysisRunner`). It finds the file list, either in a
  cache file named after the dataset or from a DAS query. It applies the
  `MAX_FILES` limit, drives the skimmer and prints the summary.
- **The bundle builder.** It reads `dataset tag [xsec|DATA] [sumw]` lines,
  asks DAS for each dataset's files, cuts each list into `part1..partN`
  and merges the result into a JSON cache.
- **The gen-weight survey.** For every dataset of a list it counts the
  files and sums `genEventSumw`, keyed by the dataset's short name.
- **The HTCondor submit-file writer.** It turns the bundle cache into one
  `arguments`/`queue` block per key.

The modules follow the scripts:

| module | models |
|---|---|
| `Skimmer` | `skimmer.py` |
| `Runner` | `runner.py` |
| `Bundles` | `create_bundles_o_path.py` |
| `GenWeight` | `get_SumOfGenWeight/Get_SOGWeight.py` |
| `Condor` | `make_condor_submit.py` |
| `Das` | output parsing that several scripts share |
| `Text` | the Python `str` operations the scripts use |
| `Json` | JSON values and Python's insertion-ordered `dict` |

The two classes that update their own fields are Dafny classes:
`Skimmer.AnalysisSkimmer` and `Runner.AnalysisRunner`.

- An `AnalysisSkimmer` holds the ops added to its data frame so far, as a
  `graph` field, and its `outputBranches`.
- An `AnalysisRunner` holds `files`, `startTime` and `endTime`.

The loops of the scripts are `while` loops proved against specification
functions. The properties are proved over those functions.

Everything foreign becomes a parameter:

- ROOT and its event loop are a sequence of events per data frame, plus
  the column names the data frame reports. An event is a map from column
  name to value.
- DAS is a `DasReply`: return code, stdout and stderr.
- Python's `float` is a partial parse function.
- The `Runs`-tree sum is a parameter: `sumGenWeight` in the runner, a
  partial function in the survey.
- The clock is the two times the runner reads.
- File contents are parameters. The runner's working directory is a map
  from file name to text, read and written at the cache file's name.
- Whether ROOT raised nothing during a run, from building the data
  frame through writing the output file, is a boolean (`rootOk` in the
  runner, `written` in the skimmer's snapshot). ROOT's own
  check of the branch list (no name twice, every name a known column) is
  modelled, against the column names the data frame reports. Those names
  include every column the data frame defines, so the runner requires
  them to hold `totalWeight` and `genEventSumw` (`Runner.DefinesWeights`).
- A JSON file is its parsed document, a `Json` value whose objects keep
  their pairs in file order. `Json.Load` turns it into the value
  `json.load` returns: every object becomes a `dict`, where a repeated key
  keeps its first position and takes its last value. The top-level value
  need not be an object; the scripts raise when it is not.

A written file is modelled as the sequence of its `write` calls.

What the scripts do, and so what the model does:

- The global scale is `xsec * lumi / sumw`, with a zero guard. There is
  no cross-section-only formula.
- The branch list is not de-duplicated.
- The runner always weights the events. It always uses `BRANCHES_WILDCARD`
  and never chooses a wildcard set by an `is_data` flag.
- The scripts have no per-partition runner, no `ALL` selector and no
  partial-failure accounting.

The submit-file writer iterates the keys of each process's entry itself.
A cache written by the bundle builder has exactly two keys per entry,
`metadata` and `files`. So the writer queues two jobs per process whose
second argument is `metadata` or `files`, never a `part<k>` name
(`Condor.BundleCacheArguments`). This is the code's behaviour, and the
model keeps it.

## Model

| member | source | states |
|---|---|---|
| Skimmer.AnalysisSkimmer.constructor | skimmer.py:8-12 | The skimmer records its input files and tree name. It starts with no op on the data frame and an empty output list. |
| Skimmer.GlobalStages | skimmer.py:21-36 | There is one stage per non-empty list plus the multiplicity stage. The trigger stage comes first when present, the MET stage just before the multiplicity stage, and the multiplicity stage always last. No stage is an empty OR or AND. |
| Skimmer.GlobalStagesMeaning | skimmer.py:15-36 | An event passes every global stage iff (1) no trigger is listed or some listed trigger fired, (2) every listed MET flag is set, and (3) it has a good vertex, a jet and at least three leptons. |
| Skimmer.AnalysisSkimmer.ApplyGlobalFilters | skimmer.py:15-39 | The data frame gains exactly one `Filter` per global stage, in stage order. The output branch list is unchanged. |
| Skimmer.FilterOps | skimmer.py:22-36 | The graph of the global filters has one `Filter` per stage, in the same order. |
| Skimmer.SurvivorsMeaning | skimmer.py:22 | A filter keeps exactly the events that pass its stage. It never yields more events than reach it. |
| Skimmer.SurvivorsSubsequence | skimmer.py:22 | A filter's survivors are a subsequence of the events that reach it: order kept, nothing invented. |
| Skimmer.DefineAllMeaning | skimmer.py:52 | A `Define` keeps every event, in order. Each event gains the defined column with its value on that event. |
| Skimmer.MaterializeShrinks | skimmer.py:22-69 | No chain of filters and defines yields more events than it reads. |
| Skimmer.MaterializeAppend | skimmer.py:22-69 | Running two chains of ops one after the other is running their concatenation. |
| Skimmer.CutFlowNonIncreasing | skimmer.py:122-132 | The cut-flow counts are non-increasing in the order the filters were added. None exceeds the number of input events. The events left at the end are no more than any count. |
| Skimmer.FiltersKeep | skimmer.py:22-36 | A chain of filters alone keeps exactly the events that pass every one of its stages. |
| Skimmer.GlobalScaleMeaning | skimmer.py:61-65 | The scale times a non-zero sum of generator weights gives cross section times luminosity. A zero sum gives scale 0, not an error. |
| Skimmer.AnalysisSkimmer.DefineTotalWeight | skimmer.py:42-74 | The data frame gains `genEventSumw` as the constant sum, then `totalWeight = genWeight * scale`. The output list gains exactly `totalWeight, genEventSumw` after its earlier entries. |
| Skimmer.DefinedWeighted | skimmer.py:52-69 | Right after the two defines, every event carries `genEventSumw == sumw` and `totalWeight == genWeight * scale`. |
| Skimmer.WeightedSurvivors | skimmer.py:52-69 | After the weight and any filters, every surviving event carries both weight columns and passes every filter stage. |
| Skimmer.Matches | skimmer.py:93 | The matches of a prefix are exactly the schema names that start with it. They are never more than the schema. |
| Skimmer.MatchesAppend | skimmer.py:93 | The matches in two pieces of the schema are those of the first piece, then those of the second: schema order, one entry per occurrence. |
| Skimmer.MatchesOne | skimmer.py:93 | A single name is matched, once, exactly when it starts with the prefix. |
| Skimmer.ExpansionMeaning | skimmer.py:91-96 | The expansion has one entry per match of every pattern, duplicates kept. A name is in it iff it is in the schema and starts with some pattern stripped of `*`. |
| Skimmer.BranchListMeaning | skimmer.py:82-102 | The explicit names come first, unchanged. Without patterns, or with an empty list of them, nothing follows. With patterns, the length is the explicit count plus every match, and what follows is exactly the matched schema names. |
| Skimmer.AnalysisSkimmer.BuildBranchList | skimmer.py:76-102 | The loop over the patterns returns the branch list those lemmas describe. |
| Skimmer.ProjectAllMeaning | skimmer.py:127 | The snapshot writes one row per surviving event, in the order the event loop yields them. Each row is the event restricted to the listed branches. |
| Skimmer.AnalysisSkimmer.SaveSnapshot | skimmer.py:105-132 | The output list is extended by the extra branches only when there are some. The branch vector holds the output list element for element. A snapshot exists only when ROOT accepts the branch vector (no name twice, every name a known column) and the write succeeds. It is tree `Events` with the projected survivors and the cut-flow report. The graph is unchanged. |
| Skimmer.OverlapRejected | skimmer.py:82-96 | A name listed explicitly that some wildcard also matches stands twice in any branch vector holding the built list, so ROOT rejects it. |
| Runner.CacheFileName | runner.py:43-45 | The name is `filelist_`, then the dataset name with its first character dropped and every `/` replaced by `_`, then `.txt`. Its length follows from that, and it holds no `/`. |
| Runner.CacheFileNameExample | runner.py:44-45 | `/Mu/R` gives `filelist_Mu_R.txt`. |
| Runner.CacheFileNameCollides | runner.py:44 | Two datasets whose names differ only in where a `/` or `_` stands share one cache file (`Runner.SharedCacheRead` gives the consequence for runs). |
| Runner.Newlined | runner.py:57-59 | Saving the list makes one write per file, the file followed by a newline. |
| Runner.StripAll | runner.py:50 | Reading the cache strips every line and keeps their number and order. |
| Runner.CacheRoundTrip | runner.py:47-59 | Reading back a saved cache gives the same list in the same order, when no file name holds a line end (`\n` or `\r`) or has whitespace at either end. The read uses text mode's universal newlines. |
| Runner.CarriageReturnSplits | runner.py:49-50 | A lone `\r` ends a line on reading: the text `x\ry\n` reads as the two files `x` and `y`. |
| Runner.QueryDasMeaning | runner.py:22-36 | DAS failing, which exits with status 1, is the only way to get no list. Otherwise every listed name is non-empty and holds no newline. |
| Runner.QueryDasListing | runner.py:22-36 | A successful reply that prints files one per line yields exactly those files, in order. |
| Runner.PyPrefix | runner.py:65 | `xs[:n]` is a prefix of `xs`, with Python's clamping for large and negative `n`. |
| Runner.LimitFiles | runner.py:62-67 | The limited list is always a prefix of the list. It is the whole list when `MAX_FILES` is unset, zero, or at least the count. A positive `MAX_FILES` below the count keeps exactly that many files. |
| Runner.CachedRunSameFiles | runner.py:47-65 | A second run that finds the cache the first one saved works on the same files, when the redirector and the DAS lines have no whitespace. |
| Runner.SecondRunSameFiles | runner.py:44-65 | A second run in the directory the first one left finds the cache file and works on the same files, when the redirector and the DAS lines have no whitespace. |
| Runner.SharedCacheRead | runner.py:44-59 | When two datasets have the same cache file name, a run for the second after a fresh run for the first reads the first one's list. |
| Runner.TimeSplitPython | runner.py:76-80 | The split is what Python's flooring `//` and `%` on the real elapsed time compute. |
| Runner.TimeSplitMeaning | runner.py:76-80 | Hours times 3600, plus minutes times 60, plus seconds, is the whole seconds elapsed. Minutes and seconds stay in 0..59, and a non-negative time has non-negative hours. |
| Runner.RunOutcomeCases | runner.py:90-135 | With column names that include the two defined weight columns: `run` exits with status 1 exactly when DAS failed, or on a non-empty list when ROOT raises (building the data frame, summing the `Runs` tree, listing the columns, or in the snapshot) or rejects the branch list. It returns early exactly on an empty list, and reaches the summary in every other case. |
| Runner.ExplicitRunFinishes | runner.py:102-135 | A run on a non-empty list in which ROOT raises nothing, no wildcard, and distinct explicit branches that are known columns other than the weight columns finishes. |
| Runner.OverlapExits | runner.py:120-132 | A branch listed in `BRANCHES_TO_SAVE` that a `BRANCHES_WILDCARD` pattern also matches makes the run exit with status 1. |
| Runner.FinishedOutput | runner.py:104-135 | A finished run wrote `OUTPUT_FILE` as tree `Events`, with a branch list ROOT accepts, from a graph that defines the weight (0.079 pb, 62.4 fb^-1 as 62400 pb^-1) before the global filters. The weight columns come first in the branch list, the built list after them. The summary counts the listed files. |
| Runner.FinishedRows | runner.py:112-128 | Every written row projects an event that passed every global filter and carries the normalised weight, in event-loop order. No cut-flow count exceeds the number of input events. |
| Runner.AnalysisRunner.constructor | runner.py:10-17 | A new runner has no files, and both times are 0. |
| Runner.AnalysisRunner.StartTimer | runner.py:69-71 | The start time becomes the clock reading. Nothing else changes. |
| Runner.AnalysisRunner.GetFileList | runner.py:38-67 | The cache file is `CacheFileName` of the dataset. When it exists, the file list becomes its lines, stripped. Otherwise it becomes the redirector before each DAS file, and the cache file is written with one per line. Either way `MAX_FILES` then limits it. Exit is signalled exactly when DAS failed, and then nothing is written. |
| Runner.AnalysisRunner.SaveCache | runner.py:57-59 | The loop writes each file followed by a newline, in order. |
| Runner.AnalysisRunner.PrintStats | runner.py:73-88 | The end time becomes the clock reading. The summary reports the file count, the output file and the elapsed time. The printed hours, minutes and seconds are its split. |
| Runner.AnalysisRunner.Skim | runner.py:102-132 | The skimmer over the files, with the weight, the filters and the branch list, yields the snapshot `run` writes, or none when ROOT raises anywhere on the way or rejects the branch list. Its column names hold the columns it defines. |
| Runner.AnalysisRunner.Run | runner.py:90-135 | The outcome is the one the settled file list determines. The file list is that list, or unchanged when DAS failed. The cache writes and the directory afterwards are those of `get_file_list`. The start time is the first clock reading. The end time is set only when the run finished. |
| Runner.AnalysisRunner.RunOnList | runner.py:97-135 | After `get_file_list`: exit 1 on a DAS failure, an early return on an empty list, otherwise the skim and the summary. The file list and start time are unchanged. |
| Runner.AnalysisRunner.SkimAndReport | runner.py:102-135 | On a non-empty list: exit 1 when the snapshot failed. Otherwise the snapshot and the summary, with the end time set. |
| Bundles.QueryDas | create_bundles_o_path.py:23-27 | An error exactly on a non-zero return code, carrying stderr. Otherwise the listed names, none empty. |
| Bundles.ParseTokens | create_bundles_o_path.py:60-82 | A line is skipped iff it has fewer than two tokens. The dataset and tag are the first two tokens. `is_data` holds iff the third token upper-cases to `DATA`. Any other third token is the cross section, and the fourth is the gen-weight sum. A token `float` rejects raises, and the error names that token. |
| Bundles.ParseIgnoresExtraTokens | create_bundles_o_path.py:66-82 | Tokens after the fourth play no part. |
| Bundles.StrippedNonBlank | create_bundles_o_path.py:56 | Every line the loop sees is non-empty and already stripped, and there are no more of them than lines in the file. |
| Bundles.StrippedNonBlankAppend | create_bundles_o_path.py:56 | Reading two pieces of the file gives the lines of the first, then those of the second: file order, one entry per line. |
| Bundles.StrippedNonBlankOne | create_bundles_o_path.py:56 | A blank line is dropped. Any other line is kept, stripped. |
| Bundles.ChunksConcat | create_bundles_o_path.py:111-115 | The parts, concatenated in key order, give back the files. |
| Bundles.ChunksSizes | create_bundles_o_path.py:111-115 | Every part but the last holds `files_per_part` files, and the last holds between 1 and that many. There are no parts iff there are no files. |
| Bundles.ChunksCount | create_bundles_o_path.py:111-117 | There are `ceil(total_files / files_per_part)` parts. |
| Bundles.ChunksKeys | create_bundles_o_path.py:111-115 | The parts are keyed `part1`, `part2`, ... consecutively, in order. |
| Bundles.ChunksDistinct | create_bundles_o_path.py:114 | No two parts share a key. |
| Bundles.ChunkFiles | create_bundles_o_path.py:111-117 | The chunking loop builds exactly those parts. |
| Bundles.TagEntryShaped | create_bundles_o_path.py:101-108 | A tag's entry is an object with keys `metadata` and `files`. Its metadata object has keys `cross_section_pb`, `sum_genweight` and `is_data`. Its files are an object of string arrays. |
| Bundles.ProcessLinePut | create_bundles_o_path.py:90-120 | A pass that succeeds either writes no tag and leaves the cache alone, or writes exactly one tag, under which it puts the line's bundle-shaped entry. |
| Bundles.ProcessLineEffect | create_bundles_o_path.py:90-120 | After one line, the line's tag maps to the entry the line builds when the line writes it. Every other tag keeps what it had. |
| Bundles.UntouchedTagKept | create_bundles_o_path.py:58-120 | A tag no line writes keeps the entry it had when the run started. That covers malformed lines and tags with zero files. |
| Bundles.LastWriteWins | create_bundles_o_path.py:120 | A tag's final entry is the one its last writing line built. The replacement is whole, and later lines for other tags leave it alone. |
| Bundles.FreshCacheShaped | create_bundles_o_path.py:47-120 | Starting from an empty cache (no file, or undecodable JSON), every stored entry is bundle-shaped and no tag occurs twice. |
| Bundles.StoreLinesObject | create_bundles_o_path.py:58-120 | When `full_cache` is an object, the loop is the per-line passes on its items, and the result is that object. |
| Bundles.NonObjectStoreRaises | create_bundles_o_path.py:112-120 | When the loaded file is not an object, a line that stores a tag raises: `range` on a zero part size, otherwise the assignment `full_cache[tag] = ...`. |
| Bundles.NonObjectPass | create_bundles_o_path.py:58-120 | On a value that is not an object, a pass ends well only when it stores no tag, and it leaves the value as it was. |
| Bundles.NonObjectUnchanged | create_bundles_o_path.py:58-124 | From a value that is not an object, a run that ends well stored no tag, and it writes the loaded value back unchanged. |
| Bundles.CreateBundlesDistinct | create_bundles_o_path.py:47-124 | Whatever the file held, an object that the run writes has no key twice. |
| Bundles.ProcessLinesDistinct | create_bundles_o_path.py:58-120 | The loop keeps the keys distinct. |
| Bundles.ProcessLineShaped | create_bundles_o_path.py:101-120 | One pass keeps the keys distinct and every entry bundle-shaped. |
| Bundles.ErrorSticks | create_bundles_o_path.py:58-120 | The first exception ends the loop, and it is the result, whatever value the loop started from. |
| Bundles.ProcessOneLine | create_bundles_o_path.py:58-120 | One pass of the loop gives the cache after the line, or the exception it raises. |
| Bundles.CreateBundlesFromDatasetTxt | create_bundles_o_path.py:30-124 | A missing dataset list raises. Otherwise the loop runs over the stripped non-blank lines. It starts from what `json.load` returned, or from an empty dict when the file is missing or undecodable. It gives the value that is written, or the first exception, including the one a non-object value raises when a tag is stored. |
| Das.NonEmpty | create_bundles_o_path.py:27 | The filter keeps exactly the non-empty lines, and never more lines than it reads. |
| Das.NonEmptyAppend | create_bundles_o_path.py:27 | Filtering two pieces gives the kept lines of the first, then those of the second: order kept, one entry per occurrence. |
| Das.NonEmptyOne | create_bundles_o_path.py:27 | A single line is kept exactly when it is not empty. |
| Das.Prefixed | create_bundles_o_path.py:91 | Every locator is the redirector followed by its file, in query order. |
| Das.SplitListing | runner.py:32 | Stripping a one-per-line listing and cutting it at newlines gives back the files. |
| Das.DasLinesListing | create_bundles_o_path.py:26-27 | A one-per-line listing of whitespace-free names is read back whole and in order. |
| Das.ListingNoCarriageReturn | get_SumOfGenWeight/Get_SOGWeight.py:28 | A one-per-line listing of whitespace-free names holds no `\r`, so text mode reads it unchanged. |
| GenWeight.ReadDatasetsStripped | get_SumOfGenWeight/Get_SOGWeight.py:19 | Every dataset read is non-empty and already stripped. |
| GenWeight.ReadDatasetsAppend | get_SumOfGenWeight/Get_SOGWeight.py:19 | Reading a list in two halves reads the whole of it. |
| GenWeight.ReadDatasetsOne | get_SumOfGenWeight/Get_SOGWeight.py:19 | A line reads as its stripped self when it is non-blank and does not start with `#`, and as nothing otherwise. |
| GenWeight.CommentDropped | get_SumOfGenWeight/Get_SOGWeight.py:19 | A line whose raw text starts with `#` is dropped. |
| GenWeight.IndentedCommentKept | get_SumOfGenWeight/Get_SOGWeight.py:19 | A `#` after leading blanks does not make a comment. The line is kept, stripped. |
| GenWeight.GetShortName | get_SumOfGenWeight/Get_SOGWeight.py:57-59 | A name without `/` is its own short name. Otherwise the short name holds no `/`. |
| GenWeight.ShortNameField | get_SumOfGenWeight/Get_SOGWeight.py:58-59 | The short name is the second `/`-separated field. |
| GenWeight.ShortNameExample | get_SumOfGenWeight/Get_SOGWeight.py:58-59 | `/A/B/C` gives `A`. |
| GenWeight.NonBlank | get_SumOfGenWeight/Get_SOGWeight.py:35 | The filter keeps exactly the lines that are not blank. |
| GenWeight.NonBlankAppend | get_SumOfGenWeight/Get_SOGWeight.py:35 | Filtering two pieces gives the kept lines of the first, then those of the second: order kept, one entry per occurrence. |
| GenWeight.NonBlankOne | get_SumOfGenWeight/Get_SOGWeight.py:35 | A single line is kept, as it is, exactly when it is not blank. |
| GenWeight.GetDasFiles | get_SumOfGenWeight/Get_SOGWeight.py:26-35 | A failed query gives no files. A successful one reads the output with universal newlines, as `text=True` does. |
| GenWeight.GetDasFilesListing | get_SumOfGenWeight/Get_SOGWeight.py:30-35 | A successful one-per-line listing gives the redirector before each file, in order. |
| GenWeight.CrLfListing | get_SumOfGenWeight/Get_SOGWeight.py:28-35 | Output lines ended by `\r\n` give the same files as lines ended by `\n`. |
| GenWeight.SumGenEventSumw | get_SumOfGenWeight/Get_SOGWeight.py:41-53 | An empty list gives 0.0 without consulting ROOT. A ROOT failure gives 0.0. Otherwise the result is the sum ROOT returns. |
| GenWeight.Found | get_SumOfGenWeight/Get_SOGWeight.py:78-92 | The datasets DAS finds files for are exactly those whose file list is non-empty. |
| GenWeight.FoundAppend | get_SumOfGenWeight/Get_SOGWeight.py:78-92 | The datasets found in two pieces of the list are those of the first piece, then those of the second, in list order. |
| GenWeight.FoundOne | get_SumOfGenWeight/Get_SOGWeight.py:78-92 | A single dataset is found exactly when DAS lists files for it. |
| GenWeight.SurveyEntries | get_SumOfGenWeight/Get_SOGWeight.py:80-99 | The results hold one entry per short name. An entry is a success iff it counts files, and a failed entry sums to 0. |
| GenWeight.SurveySummary | get_SumOfGenWeight/Get_SOGWeight.py:92-102 | There is one summary line per dataset with files, in order, and only for those. |
| GenWeight.SurveyKeys | get_SumOfGenWeight/Get_SOGWeight.py:75-94 | The results are keyed by exactly the short names of the datasets. |
| GenWeight.SurveyLastWins | get_SumOfGenWeight/Get_SOGWeight.py:82-94 | A later dataset with the same short name overwrites the entry of an earlier one. |
| GenWeight.ProcessAll | get_SumOfGenWeight/Get_SOGWeight.py:63-106 | The loop over the datasets read builds exactly those results and summary lines. |
| Condor.Header | make_condor_submit.py:12-30 | The header is sixteen writes. |
| Condor.FailedIffNotObject | make_condor_submit.py:33-34 | The loop stops with an exception exactly when some process's entry is not an object. |
| Condor.BlocksOfAt | make_condor_submit.py:35-36 | Write `2i` is the `arguments` line of the `i`-th pair, and write `2i+1` queues it. |
| Condor.KeyBlocksArePairs | make_condor_submit.py:34-36 | The inner loop writes one block per key of the entry, in key order. |
| Condor.WritesArePairBlocks | make_condor_submit.py:33-36 | When every entry is an object, the loop completes. It writes exactly one `arguments`/`queue` block per (process, key) pair, processes in cache order and keys in entry order. The number of blocks is the total number of keys. |
| Condor.BundleCacheArguments | make_condor_submit.py:34 | For a cache shaped as the bundle builder writes it, each process gets exactly two jobs, whose second arguments are `metadata` and `files`. |
| Condor.FailedSticks | make_condor_submit.py:33-34 | Once an entry has raised, later entries write nothing. |
| Condor.WriteSubmitFile | make_condor_submit.py:4-36 | The loaded bundle file is the value `json.load` returns. The submit file holds the header first. When that value is not an object, `cache.items()` raises and nothing follows. Otherwise the loop's writes follow, whether or not the loop raised. |
| Condor.WriteJobs | make_condor_submit.py:33-36 | The outer loop makes the writes `Condor.Writes` of the cache, and raises exactly when `Condor.Failed` holds. |
| Condor.WriteKeyBlocks | make_condor_submit.py:34-36 | The inner loop writes the blocks of one process's keys, in order. |
| Json.Keys | make_condor_submit.py:34 | `keys()` lists every key once per item, in insertion order. |
| Json.Get | create_bundles_o_path.py:120 | A lookup fails iff the key is absent. When it succeeds, the result is the value stored under the key. |
| Json.Put | create_bundles_o_path.py:120 | Assigning an existing key keeps the key order. A new key goes at the end. |
| Json.GetPut | create_bundles_o_path.py:120 | After `d[k] = v`, `k` maps to `v` and every other key to what it did before. |
| Json.PutDistinct | create_bundles_o_path.py:120 | Assignment keeps the keys distinct. |
| Json.PutKeys | get_SumOfGenWeight/Get_SOGWeight.py:94 | After `d[k] = v`, the keys are the old keys and `k`. |
| Json.PutAbsent | create_bundles_o_path.py:120 | Assigning a key the dict lacks appends the item at the end. |
| Json.FromPairs | create_bundles_o_path.py:51 | The dict `json.load` builds from an object's pairs has no key twice. |
| Json.LastValue | create_bundles_o_path.py:51 | A key has a last value iff some pair has that key. |
| Json.LastValueMeaning | create_bundles_o_path.py:51 | That value belongs to a pair with the key, and no later pair has the key. |
| Json.FromPairsGet | create_bundles_o_path.py:51 | In the built dict, a key maps to the value of its last pair, and a key no pair has is absent. |
| Json.FromPairsDistinct | make_condor_submit.py:5 | Pairs with no repeated key build the dict that holds them unchanged, in file order. |
| Json.Load | make_condor_submit.py:5 | The loaded value is an object iff the document is one, and then it has no key twice. A number, string, boolean or null loads as itself. |
| Text.SplitJoinSpace | create_bundles_o_path.py:60 | `split()` of tokens joined by single spaces gives back the tokens. |
| Text.SplitWhitespace | create_bundles_o_path.py:60 | Every token of `split()` is non-empty and holds no whitespace. |
| Text.StripIdempotent | create_bundles_o_path.py:56 | Stripping twice is stripping once. |
| Text.StripPadded | get_SumOfGenWeight/Get_SOGWeight.py:19 | Stripping removes leading whitespace in front of a trimmed string. |
| Text.JoinSplitOn | runner.py:32 | Joining the pieces of `split('\n')` with newlines gives back the text. |
| Text.SplitJoinOn | runner.py:32 | Splitting newline-free pieces joined by newlines gives back the pieces. |
| Text.ReplaceChar | runner.py:44 | `replace('/', '_')` changes exactly the slashes, one for one. |
| Text.RemoveChar | skimmer.py:92 | `replace('*', '')` leaves no `*` and changes a string without one not at all. |
| Text.RemoveCharAppend | skimmer.py:92 | Deleting from two pieces is deleting from their concatenation, so every other character is kept, in order. |
| Text.RemoveCharOne | skimmer.py:92 | A single character is deleted exactly when it is the one removed. |
| Text.TrailingStarRemoved | skimmer.py:92 | A pattern `p*` with no `*` in `p` has the prefix `p`. |
| Text.UniversalNewlines | runner.py:49 | Text mode turns `\r\n` and a lone `\r` into `\n`: no `\r` is left, and text without one is unchanged. |
| Text.AsciiUpper | create_bundles_o_path.py:76 | `upper()` maps lower-case ASCII letters to capitals. Every other character is kept as it is. |
| Text.NatToStringInjective | create_bundles_o_path.py:114 | Different part numbers print differently. |

## Left out

- ROOT itself: building the data frame, the code generation of filter and
  define strings, the `RECREATE` file mode, the progress bar, printing the
  report, multithreading (its effect on row order is listed below). An
  event is a map; a column an event lacks reads
  as false or 0 instead of failing, and a filter string naming an unknown
  column is not modelled.
- The sum of `genEventSumw` over a `Runs` tree is foreign. It is a
  parameter of the runner and a partial function of the survey.
- I/O: the `dasgoclient` subprocess, file existence checks, reading and
  writing files, and JSON parsing, encoding and indentation. The parsed
  document, the DAS reply and the file texts are parameters; building
  dicts from the parsed objects is modelled (`Json.Load`). The runner's
  `os.path.exists`, `open` and `write` act on a map from file name to text.
  Bytes are not decoded: text is characters. Text-mode reads translate
  line ends (`Text.UniversalNewlines`); the runner's `stdout.decode()`
  and the bundle builder's do not, and the model splits their output on
  `\n` alone, as they do.
- `save_results` in `get_SumOfGenWeight/Get_SOGWeight.py` writes files
  only, so it is not modelled.
- All `print` output, `time.ctime`, and the `:.2f` rendering of the
  summary lines, which is a function parameter.
- Floating point: weights, cross sections and elapsed times are exact
  reals, so IEEE rounding is not modelled. `float()` is a partial parse
  function.
- `Runner.RunResult` takes the settled file list as `Option`.
  `Runner.FileList` computes it from the cache and the DAS reply.
- Some loops are split into helper methods, one per nested step:
  - `Bundles.ProcessOneLine` and `Condor.WriteJobs`;
  - `Condor.WriteKeyBlocks` and `Runner.AnalysisRunner.SaveCache`;
  - `Runner.AnalysisRunner.Skim`, `Runner.AnalysisRunner.SkimAndReport`
    and `Runner.AnalysisRunner.RunOnList`.
- Skimmer.ProjectAllMeaning: the rows follow the events in event-loop
  order. Both scripts turn on ROOT's implicit multithreading, under which
  `Snapshot` writes entries in no guaranteed order. The model's row order is
  that of a single-threaded loop; which rows are written is not affected.
- Skimmer.AnalysisSkimmer.SaveSnapshot: the rows are in single-threaded
  event-loop order, as for `Skimmer.ProjectAllMeaning`. ROOT's other
  reasons to throw (a column of an unsupported type, say) are folded into
  the `written` flag.
- Runner.RunOutcomeCases: every ROOT exception of a run is one flag,
  `rootOk`. The exceptions of `AnalysisSkimmer(...)`, `define_total_weight`
  (its `Runs`-tree sum) and `build_branch_list` (its `GetColumnNames`) go
  uncaught, and the snapshot's is caught and turned into `sys.exit(1)`.
  All of them end the run with status 1, no summary and the end time
  unset, which is what `rootOk == false` gives. Which call raised, and the
  traceback, are not modelled.
- Runner.FinishedRows: "in event-loop order" means single-threaded order,
  as for `Skimmer.ProjectAllMeaning`.
- Text.AsciiUpper: upper-cases ASCII letters only, where Python also
  upper-cases other letters (`é` to `É`, `ß` to `SS`). The one comparison
  the scripts make, with `DATA`, comes out the same. The only characters
  Python upper-cases to a string of `D`, `A` and `T` alone are `d`, `a`,
  `t` and their capitals.
- Runner.AnalysisRunner.PrintStats: the stored summary keeps the elapsed
  time. The printed hours, minutes and seconds are out-parameters, not
  fields.
- Runner.FinishedOutput: states the graph's weight ops by the scale
  `Skimmer.GlobalScale` computes. The scale's equation is
  `Skimmer.GlobalScaleMeaning`, not repeated here.
- Bundles.QueryDas: states only that the listed names are non-empty.
  That they are the printout's lines in order is `Das.DasLinesListing`,
  for listings of whitespace-free names.
- GenWeight.GetDasFiles: the contract states only the failure case. The
  success case is `GenWeight.GetDasFilesListing`, for listings of
  whitespace-free names.
- Condor.Header: the contract states only the number of writes. Their
  text, in order, is the function's definition.
- The scripts have no per-partition runner, no `ALL` selector, no
  partial-failure counts, no cross-section-only scale, no branch
  de-duplication and no choice of a wildcard set by `is_data`, so the
  model has none of them either.
- `config.py` and `main.py` are configuration data and fixed-argument
  glue, so they are not modelled.
