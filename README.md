# Basecalling pipeline helpers, modelled in Dafny

Two Python scripts drive Oxford Nanopore sequencing runs:

- `basecalling_pipeline.py` asks for a kit and a basecalling option (HAC or SUP) and looks the kit up in a table of seven kits. It collects the read IDs of the sampled sequencing summaries. If it finds none, it runs one regeneration command and scans again. It then links the raw pod5 files and runs the basecall client. Finally it splits the basecaller's summary into one file per flowcell and run.
- `pod5_assist.py` writes the 1% samples' read IDs to `read_id_list.txt`. It links the raw pod5 files and filters them down to those reads. It then splits the filtered file into one pod5 file per group of `filename_pod5`, using a temporary ID file for each group.

The model follows both scripts step by step. The working directory is a `Workspace.Workdir` object. It holds the files the scripts write, a log of the shell commands they issue, and a fixed exit status for each command. Each script is a method, proved against a function that says what a run amounts to: how it ends, which commands it issues and which files it leaves. Lemmas about those functions state what the scripts promise.

The modules:

- `Outcomes`: the exceptions the scripts raise.
- `Text`: `strip`, `upper`, `lower`, slicing, `split` and `join`, shell word splitting, and the `^(.*?)_` extraction.
- `Summaries`: tables as pandas reads them, and `str()` of a cell.
- `Globbing`: `glob.glob` over a listing of the working tree.
- `Order`: Python's ordering of strings and tuples.
- `Grouping`: pandas `groupby`.
- `Kits`: the resolver.
- `ReadIds`: read-ID collection, regeneration and the ID file.
- `Shell`: command lines.
- `Basecalling`: the rest of `basecalling_pipeline.py`.
- `Pod5Assist`: the rest of `pod5_assist.py`.

Behaviours of the code that the model keeps and proves:

- **The regeneration never helps.** The regeneration command writes its samples into the current directory. The retry, like the first scan, only looks one directory down. So the retry sees exactly the files the first scan saw (`ReadIds.RetrySeesNoNewFiles`). Step 2 therefore succeeds exactly when the first scan finds an ID (`ReadIds.ExtractOutcome`). A successful run never issues the regeneration command (`Basecalling.PipelineSucceeds`).
- **The basecall command names a file nothing writes.** The command passes `read_id_list_all.txt` after `-l`. The script never writes that file: the IDs it collects are only checked for emptiness (`Basecalling.PipelineNeverWritesIdList`).
- **Output names always say `_1%`.** Every split summary is named `..._1%.txt`, also for ULK114, whose summaries are 10% samples.
- **Runs can overwrite each other.** The split groups by the full `run_id` but names the file after its first eight characters. Two runs of one flowcell that share that prefix write the same file, and the later group replaces the earlier one (`Basecalling.SharedRunPrefixCollides`, `Workspace.WrittenLast`).
- **An empty sample set is noticed late.** With no 1% summaries, `pod5_assist.py` still writes an empty ID file and runs both commands before it raises (`Pod5Assist.NoSummariesFoundLate`).
- **A failed group leaves its ID file.** When a group's filter command fails, that group's temporary ID file stays behind (`Pod5Assist.SplitFailureLeavesOneIdFile`).

Other behaviours of the code that the model keeps:

- **The summary split covers only rows with a key.** pandas drops the rows whose flowcell or run is missing, so the partition lemmas are stated over the rows that have both.
- **Regeneration follows an empty scan.** The regeneration command runs whenever the first scan collects no read ID. That includes sampled files that exist but have no rows.
- **The final check is about IDs.** After the retry, the not-found error is raised whenever there is still no read ID, whatever files exist.

## Model

| member | source | states |
|---|---|---|
| `Text.StripCutsOnlySpaces` | basecalling_pipeline.py:15-18 | `strip()` keeps one contiguous slice of the answer, and what is left neither begins nor ends with whitespace |
| `Text.Strip` | basecalling_pipeline.py:15-18 | defines `strip()`: the answer without its leading and trailing white space; StripCutsOnlySpaces states what is kept |
| `Text.Upper` | basecalling_pipeline.py:15-18 | defines `upper()` one character at a time (see "## Left out"); NormalizeIgnoresCase states that it undoes ASCII lower-casing |
| `Text.NormalizeIgnoresCase` | basecalling_pipeline.py:15-18 | `strip().upper()` of an answer typed in ASCII lower case equals that of the answer as typed |
| `Kits.ParseAccuracy` | basecalling_pipeline.py:19-20 | an option is accepted exactly when it is HAC or SUP, and reads back as its name |
| `Kits.ParseKit` | basecalling_pipeline.py:62-63 | a kit name is accepted exactly when one of the seven kits has that name, and yields that kit |
| `Kits.ParseKitName` | basecalling_pipeline.py:23-59 | every kit of the table is found under its own name |
| `Kits.BarcodeFlag` | basecalling_pipeline.py:23-59 | the barcode flag is empty exactly for LSK114, RNA and ULK114, and otherwise names the SQK kit spelt from the kit name with `114-` before the barcode count |
| `Kits.Reference` | basecalling_pipeline.py:23-59 | RNA gets the RNA reference, RBK24 and RBK96 the lambda reference, and exactly the other four kits the human reference |
| `Kits.Config` | basecalling_pipeline.py:23-59 | the configuration is the RNA model for RNA and the DNA model otherwise, followed by the option in lower case, which upper-cases back to the option |
| `Kits.ConfigTellsOptionsApart` | basecalling_pipeline.py:23-59 | HAC and SUP give different configuration files for every kit |
| `Kits.Resolve` | basecalling_pipeline.py:15-63 | the answers resolve exactly when the normalised option is HAC or SUP and the normalised kit is a table key; the invalid-option error is reported exactly when the option is bad, and with a good option every failure is the invalid-kit error with the normalised kit and the table's keys; success gives the named kit, option and table entry |
| `Kits.ResolveIgnoresCase` | basecalling_pipeline.py:15-18 | typing both answers in ASCII lower case changes nothing |
| `Kits.OptionCheckedFirst` | basecalling_pipeline.py:19-20 | an invalid option is reported whatever the kit answer is |
| `Globbing.Glob` | basecalling_pipeline.py:79 | glob finds exactly the listed files whose path matches the pattern |
| `Globbing.Matches` | basecalling_pipeline.py:79 | defines glob's matching: `*` matches any run of characters and `?` one character, neither crossing a `/`; MatchKeepsDepth states the consequence |
| `Globbing.MatchKeepsDepth` | basecalling_pipeline.py:79 | a matched path has as many `/` as the pattern: wildcards never cross a directory |
| `ReadIds.Scan` | basecalling_pipeline.py:67-85 | defines what the scanning loop leaves: each file's `read_id` column appended in order, or the error for the first file without one; ScanConcatenates and ScanReportsFirstMissing state it |
| `ReadIds.ReadIdsOf` | basecalling_pipeline.py:79-85 | the scanning loop returns `Scan` of the files |
| `ReadIds.ScanConcatenates` | basecalling_pipeline.py:67-85 | the scan succeeds exactly when every file has a `read_id` column, and then yields the columns concatenated in file order, one ID per row |
| `ReadIds.ScanReportsFirstMissing` | basecalling_pipeline.py:73-76 | the error names the first file without a `read_id` column |
| `ReadIds.SummaryPattern` | basecalling_pipeline.py:68-79 | both scans look one directory down for the 10% samples for ULK114 and the 1% samples otherwise |
| `ReadIds.FallbackCommand` | basecalling_pipeline.py:89-103 | defines the regeneration command: csvtk samples every full summary at 0.1 for ULK114 and 0.01 otherwise into `<name>_10%_ss.txt` or `<name>_1%_ss.txt`; Regenerated states where the samples land |
| `ReadIds.DropExtension` | basecalling_pipeline.py:92-94 | `${seqsum%.*}` cuts at the last dot and leaves a dotless path alone |
| `ReadIds.Regenerated` | basecalling_pipeline.py:90-103 | the regeneration keeps the listing and adds only files in the current directory |
| `ReadIds.RetrySeesNoNewFiles` | basecalling_pipeline.py:104-106 | the retry's glob finds exactly the files the first scan found |
| `ReadIds.Retry` | basecalling_pipeline.py:114-115 | the retry succeeds exactly when it finds at least one ID, and a scan error is passed on |
| `ReadIds.Settle` | basecalling_pipeline.py:87-115 | defines step 2 from the two scans' outcomes: the first scan's outcome unless it is empty, else the failed regeneration command, else the retry |
| `ReadIds.Extract` | basecalling_pipeline.py:67-115 | defines step 2's IDs and commands from the listing, the sampling and the exit statuses; ExtractOutcome states them |
| `ReadIds.ExtractReadIds` | basecalling_pipeline.py:67-115 | step 2 returns the IDs of `Extract` and appends its commands to the log |
| `ReadIds.ExtractOutcome` | basecalling_pipeline.py:87-115 | the regeneration command is issued once and only after an empty first scan; step 2 succeeds exactly when the first scan finds an ID, and then yields those IDs; otherwise it ends in the scan error, the failed command, or the not-found error |
| `ReadIds.ReadIdTexts` | pod5_assist.py:19-29 | the IDs of the 1% summaries are each converted with `str()`, or the scan error is passed on |
| `ReadIds.IdFileContent` | pod5_assist.py:33-34 | defines the ID file as the IDs joined by line breaks; IdFileRoundTrip, EmptyIdFile and IdFileHasNoTrailingNewline state how it reads back |
| `ReadIds.IdFileRoundTrip` | pod5_assist.py:31-34 | reading the ID file back line by line gives the IDs, when there is at least one and none has a line break |
| `ReadIds.EmptyIdFile` | pod5_assist.py:33-34 | no IDs give an empty file, which reads back as one empty line |
| `ReadIds.IdFileHasNoTrailingNewline` | pod5_assist.py:34 | no line break follows the last ID |
| `Summaries.CellText` | pod5_assist.py:29 | `str()` of a number or of a missing value is nonempty and has no line break |
| `Summaries.NatTextValue` | pod5_assist.py:29 | the decimal text of a number reads back as that number |
| `Text.Join` | pod5_assist.py:34 | defines `sep.join(parts)`: the parts with the separator between neighbours |
| `Text.Split` | pod5_assist.py:34 | defines `split(sep)`: the pieces between separators, always at least one; used to read an ID file back |
| `Text.SplitJoin` | pod5_assist.py:34 | splitting a join at its one-character separator gives the parts back |
| `Text.BeforeUnderscore` | pod5_assist.py:84 | a found key followed by `_` starts the name, and has no underscore or line break |
| `Text.BeforeUnderscoreNone` | pod5_assist.py:84 | no key is found exactly when a line break comes before every underscore |
| `Text.BeforeUnderscoreOfKey` | pod5_assist.py:84 | a name made of a key, `_` and anything yields that key |
| `Workspace.Workdir.Run` | basecalling_pipeline.py:8-12 | a command is logged, and a nonzero exit status raises the command-failed error |
| `Workspace.Workdir.Write` | pod5_assist.py:93-94 | writing a file replaces only that path |
| `Workspace.Workdir.Remove` | pod5_assist.py:103 | removing a file drops only that path |
| `Workspace.WrittenLast` | basecalling_pipeline.py:144-148 | after a series of writes a path holds what the last write to it wrote |
| `Workspace.WrittenUntouched` | basecalling_pipeline.py:144-148 | a path nothing is written to keeps what it had |
| `Outcomes.ExceptionClass` | basecalling_pipeline.py:8-115 | ValueError exactly for an invalid option, an invalid kit and a missing `read_id` column; FileNotFoundError exactly when no ID or no summary is found; RuntimeError exactly for a failed command; KeyError exactly for a missing column; the pod5 script's FileNotFoundError (pod5_assist.py:72) and KeyError (pod5_assist.py:84) are the same classes |
| `Shell.WordsOfLine` | basecalling_pipeline.py:128-135 | the shell reads a command line as the words of its parts, in order |
| `Basecalling.BasecallCommand` | basecalling_pipeline.py:128-135 | defines the client's command line from the kit's settings; BasecallArguments states its words |
| `Basecalling.BasecallArguments` | basecalling_pipeline.py:128-135 | the client receives the fixed options, the configuration after `-c`, `read_id_list_all.txt` after `-l`, the barcode flag's words (none for an empty flag), the reference after `-a`, and the timeout |
| `Order.StrLessTransitive` | basecalling_pipeline.py:144 | string order is transitive |
| `Order.StrLessTotal` | basecalling_pipeline.py:144 | two different strings are ordered one way or the other |
| `Order.KeyLessTransitive` | basecalling_pipeline.py:144 | tuple order is transitive |
| `Order.KeyLessTotal` | basecalling_pipeline.py:144 | two different tuples are ordered one way or the other |
| `Grouping.GroupKeys` | basecalling_pipeline.py:144 | groupby visits, in strictly ascending order, exactly the keys some row has |
| `Grouping.Group` | basecalling_pipeline.py:144 | every row of a group has the group's key, and a group is no longer than the table |
| `Grouping.GroupAppend` | pod5_assist.py:87-94 | the group of a table made of two parts is the first part's group followed by the second's: a group keeps the table's row order |
| `Grouping.GroupCounts` | basecalling_pipeline.py:144 | a group holds each row with its key as often as the table does, and no other row |
| `Grouping.GroupNonEmpty` | pod5_assist.py:87 | every visited key has at least one row |
| `Grouping.AscendingDistinct` | pod5_assist.py:87 | no key is visited twice |
| `Grouping.GroupsPartition` | basecalling_pipeline.py:144-148 | the groups together hold each row that has a key exactly as often as the table does |
| `Basecalling.FlowcellCell` | basecalling_pipeline.py:142 | the flowcell is text exactly when the filename is, and is then the filename's first eight characters, or the whole filename when it is shorter |
| `Basecalling.WithFlowcell` | basecalling_pipeline.py:142 | defines the table with its `flowcell_id` column set in every row; the row count is unchanged |
| `Basecalling.RunKey` | basecalling_pipeline.py:144 | a row has a key exactly when its flowcell and run are text, and the key is that pair |
| `Basecalling.OutputName` | basecalling_pipeline.py:145-146 | every output name starts with `sequencing_summary_` and ends with `_1%.txt` |
| `Basecalling.OutputNameInjective` | basecalling_pipeline.py:145-146 | with flowcells of one length, equal names mean equal flowcell, equal eight-character run prefix and equal option |
| `Basecalling.SharedRunPrefixCollides` | basecalling_pipeline.py:145-146 | runs of one flowcell sharing their first eight characters get the same file |
| `Basecalling.OutputIsNeverIdList` | basecalling_pipeline.py:131-146 | no output name is `read_id_list_all.txt` |
| `Basecalling.Outputs` | basecalling_pipeline.py:144-148 | defines the (file name, group) pairs the loop writes, one per key in groupby's order, so as many as there are keys |
| `Basecalling.WriteGroups` | basecalling_pipeline.py:144-148 | the files after the loop are the old ones with each pair of `Outputs` written in order |
| `Basecalling.OutputsAreSummaries` | basecalling_pipeline.py:144-148 | every file the split writes is a `_1%.txt` summary, never the ID list |
| `Basecalling.Partition` | basecalling_pipeline.py:141-148 | defines the split's outcome: KeyError without `filename`, then without `run_id`, otherwise the `Outputs` of the rows with their flowcell |
| `Basecalling.PartitionKeepsRows` | basecalling_pipeline.py:141-148 | the groups the split hands to `to_csv` together hold every row with a flowcell and a run exactly as often as the table does, and no other row; two groups can still be written to one file name (SharedRunPrefixCollides) |
| `Basecalling.Basecall` | basecalling_pipeline.py:117-148 | defines steps 4 onwards: a failing link or basecall command ends the run with that command's error, otherwise the split's outcome and files |
| `Basecalling.Proceed` | basecalling_pipeline.py:65-148 | defines steps 2 onwards: an extraction error ends the run after the extraction's commands, otherwise `Basecall` follows |
| `Basecalling.Pipeline` | basecalling_pipeline.py:14-148 | defines the whole run: a resolver error ends it before any command, otherwise `Proceed` follows |
| `Basecalling.LinkBasecallSplit` | basecalling_pipeline.py:117-148 | linking, basecalling and splitting give the result, log and files of `Basecall` |
| `Basecalling.RunResolved` | basecalling_pipeline.py:65-148 | steps 2 to the end give the result, log and files of `Proceed` |
| `Basecalling.BasecallingPipeline` | basecalling_pipeline.py:14-148 | the script gives the result, log and files of `Pipeline` |
| `Basecalling.PipelineSucceeds` | basecalling_pipeline.py:65-148 | a run succeeds exactly when the answers are valid, the first scan finds an ID, both commands succeed and the table has `filename` and `run_id`; it then issues exactly the link and basecall commands |
| `Basecalling.ProceedSucceeds` | basecalling_pipeline.py:65-148 | once the answers are resolved, the run succeeds exactly when the first scan finds an ID, both commands succeed and the table has `filename` and `run_id`, and then issues exactly the link and basecall commands |
| `Basecalling.PipelineNeverWritesIdList` | basecalling_pipeline.py:128-148 | whatever happens, the script writes only `_1%.txt` summaries and never `read_id_list_all.txt` |
| `Pod5Assist.FilterCommand` | pod5_assist.py:60-62 | defines the `pod5 filter` line, used for the combined filter and for each group's (lines 97-99); FilterArguments states its words |
| `Pod5Assist.FilterArguments` | pod5_assist.py:60-62 | with one-word paths, the shell splits the line into `pod5 filter`, the input, the output after `--output`, the ID file after `--ids` and the two flags, in order |
| `Pod5Assist.GroupKeyOf` | pod5_assist.py:84 | a row's group is a text `filename_pod5` cut before an underscore, and has no underscore |
| `Pod5Assist.Labels` | pod5_assist.py:87 | the group names are the one-component keys groupby visits, in its order |
| `Pod5Assist.LabelsAscend` | pod5_assist.py:87 | the groups come in strictly ascending order of name |
| `Pod5Assist.OutputFile` | pod5_assist.py:88 | defines a group's output, `filtered_pod5/<group>.pod5` |
| `Pod5Assist.TempName` | pod5_assist.py:92 | defines a group's temporary ID file, `filtered_pod5/read_ids_<group>.txt` |
| `Pod5Assist.GroupIds` | pod5_assist.py:91-94 | defines the ID file's content: the group's `read_id` cells converted with `str()`, in row order, joined by line breaks |
| `Pod5Assist.GroupCommand` | pod5_assist.py:97-99 | defines the filter from the combined file into the group's output with the group's ID file |
| `Pod5Assist.GroupFilesDistinct` | pod5_assist.py:88-92 | different groups never share a temporary ID file or an output file |
| `Pod5Assist.FirstFailureFound` | pod5_assist.py:96-99 | the groups before the first failing filter command all succeed, and the command at that index fails |
| `Pod5Assist.SplitGroup` | pod5_assist.py:88-103 | for one group: the ID file is written, the command logged, and the ID file removed unless the command failed |
| `Pod5Assist.SplitOver` | pod5_assist.py:87-103 | defines the split over given groups: write the ID file, issue the command, stop at a failing command leaving that ID file, otherwise remove it and go on |
| `Pod5Assist.SplitByGroup` | pod5_assist.py:84-103 | defines the split as `SplitOver` of groupby's groups with each group's IDs |
| `Pod5Assist.SplitEach` | pod5_assist.py:87-103 | the group loop gives the result, log and files of `SplitOver` over the labels |
| `Pod5Assist.SplitGroups` | pod5_assist.py:87-103 | the split gives the result, log and files of `SplitByGroup` |
| `Pod5Assist.SplitOverCleansUp` | pod5_assist.py:87-103 | a split whose commands all succeed issues one filter command per group, in order, and its files are the old ones minus the groups' ID files |
| `Pod5Assist.SplitCleansUp` | pod5_assist.py:97-103 | after a successful split one filter command per group was issued, in ascending group order, and the files are the old ones minus the groups' ID files: no ID file is left and every other file is as it was |
| `Pod5Assist.SplitOverFailure` | pod5_assist.py:93-99 | a split that fails stops at the first failing group: the groups before it were issued and cleaned up, and the failing group's ID file was written last and stays |
| `Pod5Assist.SplitFailureLeavesOneIdFile` | pod5_assist.py:93-103 | after a failed split exactly the failing group's ID file is left with its IDs, the earlier groups' ID files are gone, and no later group was visited |
| `Pod5Assist.AllRows` | pod5_assist.py:75-81 | defines `pd.concat`: the tables' rows, one table after the other |
| `Pod5Assist.ConcatTables` | pod5_assist.py:75-81 | the concatenation loop yields `AllRows` |
| `Pod5Assist.AllRowsMatchScan` | pod5_assist.py:75-91 | the concatenated table's `read_id` column is exactly the ID list that step 2 collected |
| `Pod5Assist.SplitFound` | pod5_assist.py:68-103 | defines step 7: with no summary file the not-found error, without `filename_pod5` the missing-column error, otherwise `SplitByGroup` of the concatenated rows |
| `Pod5Assist.FilterAndSplit` | pod5_assist.py:37-103 | defines the run once the ID list is written: a failing link or combined filter ends it, otherwise `SplitFound` follows |
| `Pod5Assist.Assist` | pod5_assist.py:19-103 | defines the whole run: a scan error ends it, otherwise the ID list is written and `FilterAndSplit` follows |
| `Pod5Assist.SplitFoundGroups` | pod5_assist.py:68-103 | step 7 gives the result, log and files of `SplitFound` |
| `Pod5Assist.FilterAndSplitGroups` | pod5_assist.py:37-103 | linking, filtering and splitting give the result, log and files of `FilterAndSplit` |
| `Pod5Assist.Pod5AssistScript` | pod5_assist.py:19-103 | the script gives the result, log and files of `Assist` |
| `Pod5Assist.NoSummariesFoundLate` | pod5_assist.py:31-72 | with no 1% summary, the script writes an empty ID file and issues both commands before it raises the not-found error |
| `Pod5Assist.AssistSucceeds` | pod5_assist.py:31-103 | a successful run leaves `read_id_list.txt` with the IDs, issues the two commands and one filter command per group in ascending order, and leaves no temporary ID file |

## Left out

- Interactive prompts: the two `input()` answers are parameters of the resolver and of the script.
- Printing: nothing is modelled for `print`.
- External programs (the shell, `find`/`ln`, `csvtk`, `ont_basecall_client`, `pod5 filter`): only their command text and their exit status are modelled. The exit status is a fixed function of the command text. The files these programs create, such as links, pod5 files and the basecaller's output, are not entries of the modelled file map.
- Random sampling: `csvtk sample` is a function parameter that picks a sample's rows.
- The basecaller's output: the summary table it writes to `output/sequencing_summary.txt` is a parameter.
- File formats: reading and writing tab-separated files is not modelled. A written summary keeps its rows but not the order of its columns.
- Directory creation: `os.makedirs` is not modelled, because it creates no file the scripts read.
- Directory listings: glob works on a given listing and returns matches in listing order. The rule that `*` does not match a leading dot is left out. The listing is taken once per run. The one exception is basecalling's retry, which globs the regenerated listing (`ReadIds.Regenerated`): it adds only the sampled summaries, written in the current directory, so the retry's `*/` pattern cannot match them. Nothing else the scripts write matches the summary patterns.
- Text.Upper: `upper()` maps one character to one character. It maps the ASCII letters, and U+017F (long s) and U+0131 (dotless i), which Python upper-cases to S and I. Every other character is kept as typed. Python also upper-cases ß to SS and the ligatures ﬀ ﬁ ﬂ ﬃ ﬄ ﬅ ﬆ to FF, FI, FL, FFI, FFL, ST, and maps many other non-ASCII letters. None of these can turn an answer into one of the seven kits or the two options, so which answers resolve is unaffected.
- Kits.Resolve: for an answer with such characters, the kit named in the invalid-kit error is the model's upper case, not Python's: `ß` is reported as `ß` where the script reports `SS`.
- Text.Lower: stands for typing an answer in ASCII lower case, which is what NormalizeIgnoresCase and ResolveIgnoresCase range over. It is not Python's `lower()` outside ASCII, which for example maps the Kelvin sign to `k`. The script itself lower-cases only HAC and SUP.
- pandas type inference: cells are text, integers or missing. Floating-point cells are not modelled.
- Basecalling.RunKey: a numeric `run_id` counts as a missing key. pandas would raise a TypeError on `run_id[:8]` instead.
- Basecalling.FlowcellCell: a `filename` column with no text at all counts as all missing. pandas would raise on the `.str` accessor instead.
- Pod5Assist.GroupKeyOf: a `filename_pod5` column with no text at all counts as all missing. pandas would raise on the `.str` accessor instead.
- Pod5Assist.SplitGroup: a group name containing `/` is not treated as an error. `open` would fail on the missing directory.
- Shell.WordsOfLine: words are split at spaces only, without quote removal. The SQK barcode word keeps its quotes.
- Pod5Assist.FilterArguments: the words are those of the line as split at spaces; pathname expansion is not modelled. The combined filter's input `all_pod5/*.pod5` (pod5_assist.py:61) is expanded by the shell into the linked `.pod5` files before pod5 sees it, so pod5 receives those paths and not that word.
- Python's exception messages are given by `Outcomes.Message` but no property is stated about them.
