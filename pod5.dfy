/** pod5_assist.py: write the 1% samples' read IDs to `read_id_list.txt`, link the raw
    pod5 files, filter them down to those reads, then split the filtered file into one
    pod5 file per group of `filename_pod5` (the part before its first underscore),
    through a temporary ID file per group. */
module Pod5Assist {
  import opened Outcomes
  import opened Text
  import opened Summaries
  import opened Globbing
  import opened Order
  import opened Grouping
  import opened Workspace
  import opened Shell
  import opened ReadIds

  const ReadIdFile: string := "read_id_list.txt"
  const FilteredDir: string := "filtered_pod5"
  /** Lines 57-64: the combined filtered file. */
  const CombinedPod5: string := FilteredDir + "/" + "1%_filtered" + ".pod5"
  const Pod5NameColumn: string := "filename_pod5"

  /** A `pod5 filter` command line (lines 60-62 and 97-99). */
  function FilterCommand(input: string, output: string, ids: string): string
  {
    Line(["pod5", "filter", input, "--output", output, "--ids", ids, "--force-overwrite", "--missing-ok"])
  }

  /** Lines 60-62: keep the listed reads of all linked pod5 files. */
  const CombineCommand: string := FilterCommand("all_pod5/*.pod5", CombinedPod5, ReadIdFile)

  lemma FilterWordsPlain(input: string, output: string, ids: string)
    requires IsWord(input) && IsWord(output) && IsWord(ids)
    ensures forall i :: 0 <= i < 9 ==>
      IsWord(["pod5", "filter", input, "--output", output, "--ids", ids, "--force-overwrite", "--missing-ok"][i])
  {
    assert IsWord("pod5") && IsWord("filter") && IsWord("--output") && IsWord("--ids");
    assert IsWord("--force-overwrite") && IsWord("--missing-ok");
  }

  /** With single-word paths, pod5 receives the input, the output after `--output` and
      the ID file after `--ids`. */
  lemma FilterArguments(input: string, output: string, ids: string)
    requires IsWord(input) && IsWord(output) && IsWord(ids)
    ensures Words(FilterCommand(input, output, ids)) ==
      ["pod5", "filter", input, "--output", output, "--ids", ids, "--force-overwrite", "--missing-ok"]
  {
    FilterWordsPlain(input, output, ids);
    WordsOfLine(["pod5", "filter", input, "--output", output, "--ids", ids, "--force-overwrite", "--missing-ok"]);
    PlainParts(["pod5", "filter", input, "--output", output, "--ids", ids, "--force-overwrite", "--missing-ok"]);
  }

  // ---------------------------------------------------------------------------
  // Lines 83-103: the split by group

  /** Line 84: the group key, the part of `filename_pod5` before its first underscore;
      a cell that is not text, or text without such a part, is in no group. */
  function GroupKeyOf(row: Row): (k: Option<Key>)
    ensures k.Some? ==> |k.value| == 1 && Get(row, Pod5NameColumn).Str?
                        && k.value[0] + "_" <= Get(row, Pod5NameColumn).text && '_' !in k.value[0]
  {
    match Get(row, Pod5NameColumn)
    case Str(s) =>
      (match BeforeUnderscore(s)
       case Some(g) => Some([g])
       case None => None)
    case _ => None
  }

  /** The group names in the order groupby visits them: ascending, each once. */
  function Labels(rows: seq<Row>): (labels: seq<string>)
    ensures |labels| == |GroupKeys(rows, GroupKeyOf)|
    ensures forall i :: 0 <= i < |labels| ==> GroupKeys(rows, GroupKeyOf)[i] == [labels[i]]
  {
    var keys := GroupKeys(rows, GroupKeyOf);
    assert forall i :: 0 <= i < |keys| ==> |keys[i]| == 1 by {
      forall i | 0 <= i < |keys| ensures |keys[i]| == 1 {
        assert keys[i] in keys;
      }
    }
    seq(|keys|, i requires 0 <= i < |keys| => keys[i][0])
  }

  /** The groups come in ascending order of name, so no name comes twice. */
  lemma LabelsAscend(rows: seq<Row>, i: nat, j: nat)
    requires i < j < |Labels(rows)|
    ensures StrLess(Labels(rows)[i], Labels(rows)[j])
  {
    var keys := GroupKeys(rows, GroupKeyOf);
    AscendingEverywhere(keys, i, j);
    SingleKeyLess(Labels(rows)[i], Labels(rows)[j]);
  }

  /** Line 92: the temporary ID file of a group. */
  function TempName(g: string): string
  {
    FilteredDir + "/read_ids_" + g + ".txt"
  }

  /** Line 88: the pod5 file a group's reads go to. */
  function OutputFile(g: string): string
  {
    FilteredDir + "/" + g + ".pod5"
  }

  /** Different groups never share a temporary file or an output file. */
  lemma GroupFilesDistinct(g1: string, g2: string)
    requires g1 != g2
    ensures TempName(g1) != TempName(g2) && OutputFile(g1) != OutputFile(g2)
  {
    if TempName(g1) == TempName(g2) {
      assert |g1| == |g2|;
      CancelPrefix(FilteredDir + "/read_ids_", g1, ".txt", g2, ".txt");
    }
    if OutputFile(g1) == OutputFile(g2) {
      assert |g1| == |g2|;
      CancelPrefix(FilteredDir + "/", g1, ".pod5", g2, ".pod5");
    }
  }

  /** Lines 91-94: the content of a group's temporary ID file. */
  function GroupIds(rows: seq<Row>, g: string): string
  {
    IdFileContent(CellTexts(Values(Group(rows, GroupKeyOf, [g]), ReadIdColumn)))
  }

  /** Lines 97-99: the command that extracts a group's reads. */
  function GroupCommand(g: string): string
  {
    FilterCommand(CombinedPod5, OutputFile(g), TempName(g))
  }

  function GroupCommands(labels: seq<string>): (cmds: seq<string>)
    ensures |cmds| == |labels|
  {
    seq(|labels|, i requires 0 <= i < |labels| => GroupCommand(labels[i]))
  }

  function TempNames(labels: seq<string>): set<string>
  {
    set i | 0 <= i < |labels| :: TempName(labels[i])
  }

  /** How many groups go through before the first filter command that fails. */
  function FirstFailure(labels: seq<string>, status: string -> int): (n: nat)
    ensures n <= |labels|
  {
    if labels == [] then 0
    else if status(GroupCommand(labels[0])) != 0 then 0
    else FirstFailure(labels[1..], status) + 1
  }

  /** The groups before FirstFailure's index all succeed, and the one at it fails. */
  lemma {:induction false} FirstFailureFound(labels: seq<string>, status: string -> int)
    ensures var n := FirstFailure(labels, status);
            && (forall j :: 0 <= j < n ==> status(GroupCommand(labels[j])) == 0)
            && (n < |labels| ==> status(GroupCommand(labels[n])) != 0)
  {
    if labels != [] && status(GroupCommand(labels[0])) == 0 {
      FirstFailureFound(labels[1..], status);
      assert forall j :: 1 <= j < |labels| ==> labels[j] == labels[1..][j - 1];
    }
  }

  /** What each group's temporary ID file holds. */
  function IdFiles(rows: seq<Row>): string -> Content
  {
    g => Plain(GroupIds(rows, g))
  }

  /** What the split leaves: its outcome, the commands, and the files. */
  datatype SplitRun = SplitRun(result: Result<()>, commands: seq<string>, files: map<string, Content>)

  /** Lines 87-103: the split over groupby's groups. */
  function SplitByGroup(files: map<string, Content>, rows: seq<Row>, status: string -> int): SplitRun
  {
    SplitOver(files, IdFiles(rows), Labels(rows), status)
  }

  /** The split over the given groups, in order: each group's ID file is written and
      its filter command issued; a failing command ends the split and leaves that ID
      file behind, otherwise the ID file is removed and the next group follows. */
  function SplitOver(files: map<string, Content>, idsOf: string -> Content, labels: seq<string>, status: string -> int): SplitRun
    decreases |labels|
  {
    if labels == [] then SplitRun(Ok(()), [], files)
    else
      var g := labels[0];
      var written := files[TempName(g) := idsOf(g)];
      if status(GroupCommand(g)) != 0 then SplitRun(Err(CommandFailed(GroupCommand(g))), [GroupCommand(g)], written)
      else
        var rest := SplitOver(written - {TempName(g)}, idsOf, labels[1..], status);
        SplitRun(rest.result, [GroupCommand(g)] + rest.commands, rest.files)
  }

  /** One group of the split, as the loop sees it at index i. */
  lemma SplitStep(files: map<string, Content>, idsOf: string -> Content, labels: seq<string>, i: nat, status: string -> int)
    requires i < |labels|
    ensures var g := labels[i];
            var run := SplitOver(files, idsOf, labels[i..], status);
            if status(GroupCommand(g)) != 0 then
              run == SplitRun(Err(CommandFailed(GroupCommand(g))), [GroupCommand(g)], files[TempName(g) := idsOf(g)])
            else
              var rest := SplitOver(files - {TempName(g)}, idsOf, labels[i + 1..], status);
              run == SplitRun(rest.result, [GroupCommand(g)] + rest.commands, rest.files)
  {
    var g := labels[i];
    assert labels[i..][0] == g && labels[i..][1..] == labels[i + 1..];
    assert files[TempName(g) := idsOf(g)] - {TempName(g)} == files - {TempName(g)};
  }

  /** The commands and ID files of a nonempty list of groups: the first group's, then
      the rest's. */
  lemma LabelsCons(labels: seq<string>)
    requires labels != []
    ensures GroupCommands(labels) == [GroupCommand(labels[0])] + GroupCommands(labels[1..])
    ensures TempNames(labels) == {TempName(labels[0])} + TempNames(labels[1..])
  {
    forall i | 0 <= i < |labels[1..]| ensures TempName(labels[1..][i]) in TempNames(labels) {
      assert labels[1..][i] == labels[i + 1];
    }
    forall x | x in TempNames(labels) ensures x == TempName(labels[0]) || x in TempNames(labels[1..]) {
      var i :| 0 <= i < |labels| && x == TempName(labels[i]);
      if i > 0 {
        assert labels[1..][i - 1] == labels[i];
      }
    }
  }

  /** Lines 88-103 for one group: write its ID file, extract its reads, and remove
      the ID file again unless the extraction failed. */
  method SplitGroup(w: Workdir, rows: seq<Row>, g: string) returns (r: Result<()>)
    modifies w`files, w`log
    ensures w.log == old(w.log) + [GroupCommand(g)]
    ensures r == if w.status(GroupCommand(g)) == 0 then Ok(()) else Err(CommandFailed(GroupCommand(g)))
    ensures r.Ok? ==> w.files == old(w.files) - {TempName(g)}
    ensures r.Err? ==> w.files == old(w.files)[TempName(g) := Plain(GroupIds(rows, g))]
  {
    var ids := TempName(g);
    w.Write(ids, Plain(GroupIds(rows, g)));
    r := w.Run(GroupCommand(g));
    if r.Ok? {
      w.Remove(ids);
    }
  }

  /** Lines 87-103, step by step. */
  method SplitGroups(w: Workdir, rows: seq<Row>) returns (r: Result<()>)
    modifies w`files, w`log
    ensures var run := SplitByGroup(old(w.files), rows, w.status);
            r == run.result && w.log == old(w.log) + run.commands && w.files == run.files
  {
    r := SplitEach(w, rows, Labels(rows));
  }

  method SplitEach(w: Workdir, rows: seq<Row>, labels: seq<string>) returns (r: Result<()>)
    modifies w`files, w`log
    ensures var run := SplitOver(old(w.files), IdFiles(rows), labels, w.status);
            r == run.result && w.log == old(w.log) + run.commands && w.files == run.files
  {
    var i := 0;
    ghost var done: seq<string> := [];
    while i < |labels|
      invariant 0 <= i <= |labels|
      invariant w.log == old(w.log) + done
      invariant var rest := SplitOver(w.files, IdFiles(rows), labels[i..], w.status);
                SplitOver(old(w.files), IdFiles(rows), labels, w.status) == SplitRun(rest.result, done + rest.commands, rest.files)
    {
      SplitStep(w.files, IdFiles(rows), labels, i, w.status);
      ghost var later := SplitOver(w.files - {TempName(labels[i])}, IdFiles(rows), labels[i + 1..], w.status).commands;
      Reassociate(old(w.log), done, [GroupCommand(labels[i])]);
      Reassociate(done, [GroupCommand(labels[i])], later);
      assert IdFiles(rows)(labels[i]) == Plain(GroupIds(rows, labels[i]));
      r := SplitGroup(w, rows, labels[i]);
      done := done + [GroupCommand(labels[i])];
      if r.Err? {
        return;
      }
      i := i + 1;
    }
    assert labels[i..] == [];
    r := Ok(());
  }

  /** A split over groups that all succeed issues one filter command per group, in
      order, and leaves the files as they were apart from the groups' ID files. */
  lemma {:induction false} SplitOverCleansUp(files: map<string, Content>, idsOf: string -> Content, labels: seq<string>, status: string -> int)
    requires SplitOver(files, idsOf, labels, status).result.Ok?
    ensures var run := SplitOver(files, idsOf, labels, status);
            run.commands == GroupCommands(labels) && run.files == files - TempNames(labels)
  {
    if labels != [] {
      var g := labels[0];
      var rest := files[TempName(g) := idsOf(g)] - {TempName(g)};
      SplitOverCleansUp(rest, idsOf, labels[1..], status);
      LabelsCons(labels);
      assert rest - TempNames(labels[1..]) == files - TempNames(labels);
    }
  }

  /** After a successful split one filter command per group was issued, in ascending
      group order, no group's ID file is left, and every other file is as it was. */
  lemma SplitCleansUp(files: map<string, Content>, rows: seq<Row>, status: string -> int)
    requires SplitByGroup(files, rows, status).result.Ok?
    ensures var run := SplitByGroup(files, rows, status);
            && run.commands == GroupCommands(Labels(rows))
            && run.files == files - TempNames(Labels(rows))
            && (forall i :: 0 <= i < |Labels(rows)| ==> TempName(Labels(rows)[i]) !in run.files)
  {
    var labels := Labels(rows);
    SplitOverCleansUp(files, IdFiles(rows), labels, status);
    forall i | 0 <= i < |labels| ensures TempName(labels[i]) in TempNames(labels) {
    }
  }

  /** The outcome, the commands and the files of a split that fails at group n: the
      groups before n went through and group n's ID file was written last. */
  lemma {:induction false} SplitOverFailure(files: map<string, Content>, idsOf: string -> Content, labels: seq<string>, status: string -> int)
    requires SplitOver(files, idsOf, labels, status).result.Err?
    ensures var n := FirstFailure(labels, status);
            var run := SplitOver(files, idsOf, labels, status);
            && n < |labels|
            && run.result == Err(CommandFailed(GroupCommand(labels[n])))
            && run.commands == GroupCommands(labels[..n + 1])
            && run.files == (files - TempNames(labels[..n]))[TempName(labels[n]) := idsOf(labels[n])]
  {
    var g := labels[0];
    if status(GroupCommand(g)) != 0 {
      PrefixStep(labels, 0);
      assert files - {} == files;
    } else {
      var ids := idsOf(g);
      var cleaned := files[TempName(g) := ids] - {TempName(g)};
      var rest := SplitOver(cleaned, idsOf, labels[1..], status);
      assert SplitOver(files, idsOf, labels, status) == SplitRun(rest.result, [GroupCommand(g)] + rest.commands, rest.files);
      SplitOverFailure(cleaned, idsOf, labels[1..], status);
      var m := FirstFailure(labels[1..], status);
      assert FirstFailure(labels, status) == m + 1;
      PrefixStep(labels, m + 1);
      RemoveAfterWrite(files, TempName(g), ids, TempNames(labels[1..][..m]));
    }
  }

  /** The commands and ID files of the first n + 1 groups: the first group's, then
      those of the next n. */
  lemma PrefixStep(labels: seq<string>, n: nat)
    requires n < |labels|
    ensures GroupCommands(labels[..n + 1]) == [GroupCommand(labels[0])] + GroupCommands(labels[1..][..n])
    ensures n > 0 ==> TempNames(labels[..n]) == {TempName(labels[0])} + TempNames(labels[1..][..n - 1])
    ensures TempNames(labels[..0]) == {}
  {
    LabelsCons(labels[..n + 1]);
    assert labels[..n + 1][1..] == labels[1..][..n];
    if n > 0 {
      LabelsCons(labels[..n]);
      assert labels[..n][1..] == labels[1..][..n - 1];
    }
  }

  /** Writing a file, removing it again and then removing a set of files is removing
      both. */
  lemma RemoveAfterWrite(files: map<string, Content>, p: string, c: Content, others: set<string>)
    ensures files[p := c] - {p} - others == files - ({p} + others)
  {
  }

  /** Removing the ID files of the first n groups and then writing group n's: group
      n's file is there with what was written, the others are gone. */
  lemma LeftoverIdFiles(files: map<string, Content>, labels: seq<string>, n: nat, ids: Content)
    requires n < |labels|
    requires forall j :: 0 <= j < n ==> labels[j] != labels[n]
    ensures var left := (files - TempNames(labels[..n]))[TempName(labels[n]) := ids];
            && TempName(labels[n]) in left && left[TempName(labels[n])] == ids
            && (forall j :: 0 <= j < n ==> TempName(labels[j]) !in left)
  {
    forall j | 0 <= j < n ensures TempName(labels[j]) in TempNames(labels[..n]) && TempName(labels[j]) != TempName(labels[n]) {
      GroupFilesDistinct(labels[j], labels[n]);
      assert labels[..n][j] == labels[j];
    }
  }

  /** After a failed split the failing group's ID file is left with that group's IDs,
      the ID files of the groups before it are gone, and the groups after it were
      never visited. */
  lemma SplitFailureLeavesOneIdFile(files: map<string, Content>, rows: seq<Row>, status: string -> int)
    requires SplitByGroup(files, rows, status).result.Err?
    ensures var labels := Labels(rows);
            var n := FirstFailure(labels, status);
            var run := SplitByGroup(files, rows, status);
            && n < |labels|
            && run.result == Err(CommandFailed(GroupCommand(labels[n])))
            && run.commands == GroupCommands(labels[..n + 1])
            && TempName(labels[n]) in run.files
            && run.files[TempName(labels[n])] == Plain(GroupIds(rows, labels[n]))
            && (forall j :: 0 <= j < n ==> TempName(labels[j]) !in run.files)
  {
    var labels := Labels(rows);
    SplitOverFailure(files, IdFiles(rows), labels, status);
    var n := FirstFailure(labels, status);
    forall j | 0 <= j < n ensures labels[j] != labels[n] {
      LabelsAscend(rows, j, n);
      StrLessIrreflexive(labels[j]);
    }
    LeftoverIdFiles(files, labels, n, IdFiles(rows)(labels[n]));
  }

  // ---------------------------------------------------------------------------
  // The whole script

  /** Lines 75-81, `pd.concat`: the rows of the tables, one table after the other. */
  function AllRows(found: seq<SummaryFile>): seq<Row>
  {
    if found == [] then [] else AllRows(found[..|found| - 1]) + found[|found| - 1].table.rows
  }

  /** Lines 75-81, step by step. */
  method ConcatTables(found: seq<SummaryFile>) returns (rows: seq<Row>)
    ensures rows == AllRows(found)
  {
    rows := [];
    var i := 0;
    while i < |found|
      invariant 0 <= i <= |found|
      invariant rows == AllRows(found[..i])
    {
      assert found[..i + 1][..i] == found[..i];
      rows := rows + found[i].table.rows;
      i := i + 1;
    }
    assert found[..|found|] == found;
  }

  lemma ValuesAppend(a: seq<Row>, b: seq<Row>, column: string)
    ensures Values(a + b, column) == Values(a, column) + Values(b, column)
  {
  }

  /** The concatenated table's `read_id` column is exactly what step 2 collected: the
      split distributes the same IDs that `read_id_list.txt` lists. */
  lemma {:induction false} AllRowsMatchScan(found: seq<SummaryFile>)
    requires Scan(found).Ok?
    ensures Values(AllRows(found), ReadIdColumn) == Scan(found).value
  {
    if found != [] {
      var front := found[..|found| - 1];
      AllRowsMatchScan(front);
      ValuesAppend(AllRows(front), found[|found| - 1].table.rows, ReadIdColumn);
    }
  }

  /** Some table has the column: `df[column]` on the concatenation does not raise. */
  predicate HasColumn(found: seq<SummaryFile>, column: string)
  {
    exists i :: 0 <= i < |found| && column in found[i].table.columns
  }

  /** What a run of pod5_assist.py amounts to. */
  datatype AssistRun = AssistRun(result: Result<()>, commands: seq<string>, files: map<string, Content>)

  /** The run of pod5_assist.py, given the summaries the working directory holds, the
      files written before, and the commands' exit statuses. The summaries are listed
      once: nothing the script writes matches the summary pattern. */
  function Assist(files: map<string, Content>, listing: seq<SummaryFile>, status: string -> int): AssistRun
  {
    var found := Glob(OnePercentPattern, listing);
    match Scan(found)
    case Err(e) => AssistRun(Err(e), [], files)
    case Ok(ids) => FilterAndSplit(files[ReadIdFile := Plain(IdFileContent(CellTexts(ids)))], found, status)
  }

  /** Lines 37-103, once `read_id_list.txt` is written. */
  function FilterAndSplit(files: map<string, Content>, found: seq<SummaryFile>, status: string -> int): AssistRun
  {
    if status(LinkCommand) != 0 then AssistRun(Err(CommandFailed(LinkCommand)), [LinkCommand], files)
    else if status(CombineCommand) != 0 then
      AssistRun(Err(CommandFailed(CombineCommand)), [LinkCommand, CombineCommand], files)
    else
      var rest := SplitFound(files, found, status);
      AssistRun(rest.result, [LinkCommand, CombineCommand] + rest.commands, rest.files)
  }

  /** Lines 68-103: no summary raises FileNotFoundError, a concatenation without
      `filename_pod5` raises KeyError, and otherwise the groups are split. */
  function SplitFound(files: map<string, Content>, found: seq<SummaryFile>, status: string -> int): AssistRun
  {
    if found == [] then AssistRun(Err(NoSummaryFiles), [], files)
    else if !HasColumn(found, Pod5NameColumn) then AssistRun(Err(MissingColumn(Pod5NameColumn)), [], files)
    else
      var split := SplitByGroup(files, AllRows(found), status);
      AssistRun(split.result, split.commands, split.files)
  }

  /** pod5_assist.py, step by step. */
  method Pod5AssistScript(w: Workdir, listing: seq<SummaryFile>) returns (r: Result<()>)
    modifies w
    ensures var run := Assist(old(w.files), listing, w.status);
            r == run.result && w.log == old(w.log) + run.commands && w.files == run.files
  {
    var ids := ReadIdTexts(listing);
    if ids.Err? {
      assert w.log == old(w.log) + [];
      return Err(ids.error);
    }
    w.Write(ReadIdFile, Plain(IdFileContent(ids.value)));
    r := FilterAndSplitGroups(w, Glob(OnePercentPattern, listing));
  }

  /** Lines 37-103, step by step. */
  method FilterAndSplitGroups(w: Workdir, found: seq<SummaryFile>) returns (r: Result<()>)
    modifies w
    ensures var run := FilterAndSplit(old(w.files), found, w.status);
            r == run.result && w.log == old(w.log) + run.commands && w.files == run.files
  {
    var linked := w.Run(LinkCommand);
    if linked.Err? {
      return linked;
    }
    var combined := w.Run(CombineCommand);
    if combined.Err? {
      return combined;
    }
    assert w.log == old(w.log) + [LinkCommand, CombineCommand];
    ghost var rest := SplitFound(old(w.files), found, w.status).commands;
    Reassociate(old(w.log), [LinkCommand, CombineCommand], rest);
    r := SplitFoundGroups(w, found);
  }

  /** Lines 68-103, step by step. */
  method SplitFoundGroups(w: Workdir, found: seq<SummaryFile>) returns (r: Result<()>)
    modifies w`files, w`log
    ensures var run := SplitFound(old(w.files), found, w.status);
            r == run.result && w.log == old(w.log) + run.commands && w.files == run.files
  {
    if found == [] {
      assert w.log == old(w.log) + [];
      return Err(NoSummaryFiles);
    }
    var rows := ConcatTables(found);
    if !HasColumn(found, Pod5NameColumn) {
      assert w.log == old(w.log) + [];
      return Err(MissingColumn(Pod5NameColumn));
    }
    r := SplitGroups(w, rows);
  }

  /** With no 1% summary at all the script still writes an empty `read_id_list.txt`
      and issues both commands before it reports that no summary was found. */
  lemma NoSummariesFoundLate(files: map<string, Content>, listing: seq<SummaryFile>, status: string -> int)
    requires Glob(OnePercentPattern, listing) == []
    requires status(LinkCommand) == 0 && status(CombineCommand) == 0
    ensures var run := Assist(files, listing, status);
            && run.result == Err(NoSummaryFiles)
            && run.commands == [LinkCommand, CombineCommand]
            && run.files == files[ReadIdFile := Plain("")]
  {
  }

  /** A successful run leaves `read_id_list.txt` with the IDs, one per line, issues the
      two commands and one filter command per group, in ascending group order, and
      leaves no temporary ID file behind. */
  lemma AssistSucceeds(files: map<string, Content>, listing: seq<SummaryFile>, status: string -> int)
    requires Assist(files, listing, status).result.Ok?
    ensures var found := Glob(OnePercentPattern, listing);
            var run := Assist(files, listing, status);
            var labels := Labels(AllRows(found));
            && Scan(found).Ok? && found != []
            && ReadIdFile in run.files
            && run.files[ReadIdFile] == Plain(IdFileContent(CellTexts(Scan(found).value)))
            && run.commands == [LinkCommand, CombineCommand] + GroupCommands(labels)
            && (forall i :: 0 <= i < |labels| ==> TempName(labels[i]) !in run.files)
  {
    var found := Glob(OnePercentPattern, listing);
    var written := files[ReadIdFile := Plain(IdFileContent(CellTexts(Scan(found).value)))];
    assert Assist(files, listing, status) == FilterAndSplit(written, found, status);
    var labels := Labels(AllRows(found));
    SplitCleansUp(written, AllRows(found), status);
    assert ReadIdFile !in TempNames(labels) by {
      forall i | 0 <= i < |labels| ensures TempName(labels[i]) != ReadIdFile {
        assert TempName(labels[i])[0] == 'f';
      }
    }
  }
}
