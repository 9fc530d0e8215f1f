/** basecalling_pipeline.py after the read IDs are in hand: the link and basecalling
    commands (lines 117-138) and the split of the basecaller's summary into one file
    per flowcell and run (lines 140-148); and the whole script, step by step. */
module Basecalling {
  import opened Outcomes
  import opened Text
  import opened Summaries
  import opened Order
  import opened Grouping
  import opened Kits
  import opened Workspace
  import opened Shell
  import opened Globbing
  import opened ReadIds

  /** The read-ID list the basecall command names; the script never writes it. */
  const IdListAll: string := "read_id_list_all.txt"

  /** Lines 128-135: the basecall command for a kit's table entry. */
  function BasecallCommand(p: KitProfile): string
  {
    Line(["ont_basecall_client", "--port", "/tmp/.guppy/5555", "-r", "-i", "all_pod5/", "-s", "output/",
          "-c", p.config, "-l", IdListAll, p.barcodeFlag, "-a", p.ref, "--server_file_load_timeout", "600"])
  }

  /** The basecall command's fixed words before the configuration. */
  const ClientWords: seq<string> :=
    ["ont_basecall_client", "--port", "/tmp/.guppy/5555", "-r", "-i", "all_pod5/", "-s", "output/", "-c"]

  /** The fixed words between the configuration and the barcode flag. */
  const ListWords: seq<string> := ["-l", IdListAll]
  /** The fixed word before the reference. */
  const RefWords: seq<string> := ["-a"]
  /** The fixed words after the reference. */
  const TimeoutWords: seq<string> := ["--server_file_load_timeout", "600"]

  /** The fixed words of the basecall command are single words. */
  lemma ListWordsPlain()
    ensures AllWords(ListWords) == ListWords
  {
    assert IsWord("-l") && IsWord(IdListAll);
    PlainParts(ListWords);
  }

  lemma RefWordsPlain()
    ensures AllWords(RefWords) == RefWords
  {
    assert IsWord("-a");
    PlainParts(RefWords);
  }

  lemma TimeoutWordsPlain()
    ensures AllWords(TimeoutWords) == TimeoutWords
  {
    assert IsWord("--server_file_load_timeout") && IsWord("600");
    PlainParts(TimeoutWords);
  }

  lemma ClientWordsPlain()
    ensures AllWords(ClientWords) == ClientWords
  {
    assert IsWord("ont_basecall_client") && IsWord("--port") && IsWord("/tmp/.guppy/5555");
    assert IsWord("-r") && IsWord("-i") && IsWord("all_pod5/") && IsWord("-s") && IsWord("output/");
    assert IsWord("-c");
    PlainParts(ClientWords);
  }

  lemma BasecallParts(p: KitProfile)
    ensures BasecallCommand(p) ==
      Line(ClientWords + [p.config] + ListWords + [p.barcodeFlag] + RefWords + [p.ref]
           + TimeoutWords)
  {
    assert ClientWords + [p.config] + ListWords + [p.barcodeFlag] + RefWords + [p.ref]
           + TimeoutWords ==
      ["ont_basecall_client", "--port", "/tmp/.guppy/5555", "-r", "-i", "all_pod5/", "-s", "output/",
       "-c", p.config, "-l", IdListAll, p.barcodeFlag, "-a", p.ref, "--server_file_load_timeout", "600"];
  }

  /** The arguments the basecall client receives, in order: the fixed options, the
      configuration's words after `-c`, the read-ID list after `-l`, the barcode flag's
      words, the reference's words after `-a`, and the load timeout. A one-word
      configuration or reference is one argument; an empty barcode flag is none. */
  lemma BasecallArguments(p: KitProfile)
    ensures Words(BasecallCommand(p)) ==
      ClientWords + Words(p.config) + ListWords + Words(p.barcodeFlag) + RefWords + Words(p.ref)
      + TimeoutWords
  {
    var s1 := ClientWords + [p.config];
    var s2 := s1 + ListWords;
    var s3 := s2 + [p.barcodeFlag];
    var s4 := s3 + RefWords;
    var s5 := s4 + [p.ref];
    var s6 := s5 + TimeoutWords;
    BasecallParts(p);
    WordsOfLine(s6);
    ClientWordsPlain();
    ListWordsPlain();
    RefWordsPlain();
    TimeoutWordsPlain();
    AllWordsOne(p.config);
    AllWordsOne(p.barcodeFlag);
    AllWordsOne(p.ref);
    AllWordsAppend(ClientWords, [p.config]);
    AllWordsAppend(s1, ListWords);
    AllWordsAppend(s2, [p.barcodeFlag]);
    AllWordsAppend(s3, RefWords);
    AllWordsAppend(s4, [p.ref]);
    AllWordsAppend(s5, TimeoutWords);
  }

  // ---------------------------------------------------------------------------
  // Lines 140-148: one summary file per flowcell and run

  const FilenameColumn: string := "filename"
  const RunColumn: string := "run_id"
  const FlowcellColumn: string := "flowcell_id"

  /** Line 142, `df["filename"].str[:8]`: the first eight characters of a text cell,
      and a missing value for any other cell. */
  function FlowcellCell(row: Row): (c: Cell)
    ensures c.Str? <==> Get(row, FilenameColumn).Str?
    ensures c.Str? ==> c.text == Take(Get(row, FilenameColumn).text, 8)
    ensures c.Str? ==> var name := Get(row, FilenameColumn).text;
                       c.text <= name && |c.text| == if |name| < 8 then |name| else 8
  {
    match Get(row, FilenameColumn)
    case Str(s) => Str(Take(s, 8))
    case _ => Missing
  }

  /** Line 142: every row with its `flowcell_id` column set. */
  function WithFlowcell(rows: seq<Row>): (r: seq<Row>)
    ensures |r| == |rows|
  {
    seq(|rows|, i requires 0 <= i < |rows| => rows[i][FlowcellColumn := FlowcellCell(rows[i])])
  }

  /** Line 144: the key `(flowcell_id, run_id)`; groupby drops a row in which either
      is missing. */
  function RunKey(row: Row): (k: Option<Key>)
    ensures k.Some? <==> Get(row, FlowcellColumn).Str? && Get(row, RunColumn).Str?
    ensures k.Some? ==> k.value == [Get(row, FlowcellColumn).text, Get(row, RunColumn).text]
  {
    match (Get(row, FlowcellColumn), Get(row, RunColumn))
    case (Str(flowcell), Str(run)) => Some([flowcell, run])
    case _ => None
  }

  lemma RunKeysArePairs(rows: seq<Row>)
    ensures forall k :: k in GroupKeys(rows, RunKey) ==> |k| == 2
  {
  }

  /** Lines 145-146: the file a group is written to. Whatever the kit, and so also
      for ULK114 whose summaries are 10% samples, the name ends in `_1%.txt`. */
  function OutputName(flowcell: string, run: string, a: Accuracy): (name: string)
    ensures |name| >= 31 && name[|name| - 7..] == "_1%.txt"
    ensures name[..19] == "sequencing_summary_"
  {
    "sequencing_summary_" + flowcell + "_" + Take(run, 8) + "_" + AccuracyName(a) + "_1%.txt"
  }

  /** Flowcell IDs of one length (eight characters, for file names of at least eight)
      make the name tell flowcell, run prefix and option apart: distinct groups get
      distinct files unless their runs share the first eight characters. */
  lemma OutputNameInjective(fc1: string, r1: string, a1: Accuracy, fc2: string, r2: string, a2: Accuracy)
    requires |fc1| == |fc2| && OutputName(fc1, r1, a1) == OutputName(fc2, r2, a2)
    ensures fc1 == fc2 && Take(r1, 8) == Take(r2, 8) && a1 == a2
  {
    var t1, t2 := Take(r1, 8), Take(r2, 8);
    var tail1 := "_" + AccuracyName(a1) + "_1%.txt";
    var tail2 := "_" + AccuracyName(a2) + "_1%.txt";
    OutputNameParts(fc1, r1, a1);
    OutputNameParts(fc2, r2, a2);
    CancelPrefix("sequencing_summary_", fc1, "_" + t1 + tail1, fc2, "_" + t2 + tail2);
    CancelPrefix("_", t1, tail1, t2, tail2);
    CancelPrefix("_", AccuracyName(a1), "_1%.txt", AccuracyName(a2), "_1%.txt");
  }

  lemma OutputNameParts(flowcell: string, run: string, a: Accuracy)
    ensures OutputName(flowcell, run, a) ==
      "sequencing_summary_" + flowcell + ("_" + Take(run, 8) + ("_" + AccuracyName(a) + "_1%.txt"))
  {
  }

  /** Two runs of one flowcell whose IDs agree in their first eight characters are
      written to the same file, so the later group replaces the earlier one. */
  lemma SharedRunPrefixCollides(flowcell: string, r1: string, r2: string, a: Accuracy)
    requires |r1| >= 8 && |r2| >= 8 && r1[..8] == r2[..8]
    ensures OutputName(flowcell, r1, a) == OutputName(flowcell, r2, a)
  {
  }

  /** The script never writes the read-ID list the basecall command names. */
  lemma OutputIsNeverIdList(flowcell: string, run: string, a: Accuracy)
    ensures OutputName(flowcell, run, a) != IdListAll
  {
    var name := OutputName(flowcell, run, a);
    assert name[0] == name[..19][0] == 's';
    assert IdListAll[0] == 'r';
  }

  /** The (file name, rows) pairs the loop writes, one per group, in key order. */
  function Outputs(rows: seq<Row>, a: Accuracy): (outs: seq<(string, Content)>)
    ensures |outs| == |GroupKeys(rows, RunKey)|
  {
    var keys := GroupKeys(rows, RunKey);
    RunKeysArePairs(rows);
    seq(|keys|, i requires 0 <= i < |keys| =>
      (OutputName(keys[i][0], keys[i][1], a), Summary(Group(rows, RunKey, keys[i]))))
  }

  lemma OutputAt(rows: seq<Row>, a: Accuracy, i: nat)
    requires i < |GroupKeys(rows, RunKey)|
    ensures var k := GroupKeys(rows, RunKey)[i];
            |k| == 2 && Outputs(rows, a)[i] == (OutputName(k[0], k[1], a), Summary(Group(rows, RunKey, k)))
  {
    RunKeysArePairs(rows);
  }

  /** Lines 144-148: write each group to its file, in key order. */
  method WriteGroups(w: Workdir, rows: seq<Row>, a: Accuracy)
    modifies w`files
    ensures w.files == Written(old(w.files), Outputs(rows, a))
  {
    var keys := GroupKeys(rows, RunKey);
    ghost var outs := Outputs(rows, a);
    var i := 0;
    while i < |keys|
      invariant 0 <= i <= |keys|
      invariant w.files == Written(old(w.files), outs[..i])
    {
      var key := keys[i];
      OutputAt(rows, a, i);
      var name := OutputName(key[0], key[1], a);
      var group := Group(rows, RunKey, key);
      WrittenStep(old(w.files), outs, i);
      w.Write(name, Summary(group));
      i := i + 1;
    }
    assert outs[..|keys|] == outs;
  }

  /** Every file the split writes is a summary: none of them is the read-ID list. */
  lemma OutputsAreSummaries(rows: seq<Row>, a: Accuracy)
    ensures forall i :: 0 <= i < |Outputs(rows, a)| ==>
      var name := Outputs(rows, a)[i].0;
      name[..19] == "sequencing_summary_" && name[|name| - 7..] == "_1%.txt" && name != IdListAll
  {
    var keys := GroupKeys(rows, RunKey);
    RunKeysArePairs(rows);
    forall i | 0 <= i < |keys| ensures Outputs(rows, a)[i].0 != IdListAll {
      OutputIsNeverIdList(keys[i][0], keys[i][1], a);
    }
  }

  /** Lines 141-148 on the basecaller's summary table: a table without `filename` or
      without `run_id` raises KeyError; otherwise the groups' files. */
  function Partition(t: Table, a: Accuracy): Result<seq<(string, Content)>>
  {
    if FilenameColumn !in t.columns then Err(MissingColumn(FilenameColumn))
    else if RunColumn !in t.columns then Err(MissingColumn(RunColumn))
    else Ok(Outputs(WithFlowcell(t.rows), a))
  }

  /** The rows of the summaries among the given outputs, one output after the other. */
  function OutputRows(outs: seq<(string, Content)>): seq<Row>
  {
    if outs == [] then []
    else (match outs[0].1 case Summary(rows) => rows case Plain(_) => []) + OutputRows(outs[1..])
  }

  /** Outputs holding the groups of the given keys, in order, hold the rows of those
      groups, in order. */
  lemma {:induction false} OutputRowsOfGroups(rows: seq<Row>, keys: seq<Key>, outs: seq<(string, Content)>)
    requires |outs| == |keys|
    requires forall i :: 0 <= i < |keys| ==> outs[i].1 == Summary(Group(rows, RunKey, keys[i]))
    ensures OutputRows(outs) == Concat(rows, RunKey, keys)
  {
    if keys != [] {
      OutputRowsOfGroups(rows, keys[1..], outs[1..]);
    }
  }

  /** The summaries the split hands to `to_csv` hold every row that has a flowcell and
      a run exactly as often as the table does, each in the summary of its group, and
      no other row. (Written to disk, two of them can still share a name:
      SharedRunPrefixCollides.) */
  lemma PartitionKeepsRows(t: Table, a: Accuracy)
    requires Partition(t, a).Ok?
    ensures multiset(OutputRows(Partition(t, a).value)) == multiset(Keyed(WithFlowcell(t.rows), RunKey))
  {
    var rows := WithFlowcell(t.rows);
    var keys := GroupKeys(rows, RunKey);
    var outs := Outputs(rows, a);
    forall i | 0 <= i < |keys| ensures outs[i].1 == Summary(Group(rows, RunKey, keys[i])) {
      OutputAt(rows, a, i);
    }
    OutputRowsOfGroups(rows, keys, outs);
    GroupsPartition(rows, RunKey);
  }

  // ---------------------------------------------------------------------------
  // The whole script

  /** What a run of the script amounts to: how it ends, the commands it issues, and
      the files it writes, in order. */
  datatype ScriptRun = ScriptRun(result: Result<()>, commands: seq<string>, outputs: seq<(string, Content)>)

  /** The run of basecalling_pipeline.py, given the two answers, the summaries the
      working directory holds, csvtk's sampling, the commands' exit statuses and the
      summary table the basecaller writes to `output/sequencing_summary.txt`. */
  function Pipeline(kitAnswer: string, optionAnswer: string, listing: seq<SummaryFile>,
                    sample: SummaryFile -> Table, status: string -> int, basecalled: Table): ScriptRun
  {
    match Resolve(kitAnswer, optionAnswer)
    case Err(e) => ScriptRun(Err(e), [], [])
    case Ok(resolved) => Proceed(resolved, listing, sample, status, basecalled)
  }

  /** Steps 2 onwards, once the kit and the option are known. */
  function Proceed(resolved: Resolved, listing: seq<SummaryFile>, sample: SummaryFile -> Table,
                    status: string -> int, basecalled: Table): ScriptRun
  {
    var extraction := Extract(resolved.kit, listing, sample, status);
    if extraction.ids.Err? then ScriptRun(Err(extraction.ids.error), extraction.commands, [])
    else
      var rest := Basecall(resolved.profile, resolved.accuracy, status, basecalled);
      ScriptRun(rest.result, extraction.commands + rest.commands, rest.outputs)
  }

  /** Steps 4 onwards (lines 120-148): link, basecall, split the basecaller's table. */
  function Basecall(p: KitProfile, a: Accuracy, status: string -> int, basecalled: Table): ScriptRun
  {
    if status(LinkCommand) != 0 then ScriptRun(Err(CommandFailed(LinkCommand)), [LinkCommand], [])
    else
      var basecall := BasecallCommand(p);
      if status(basecall) != 0 then ScriptRun(Err(CommandFailed(basecall)), [LinkCommand, basecall], [])
      else
        match Partition(basecalled, a)
        case Err(e) => ScriptRun(Err(e), [LinkCommand, basecall], [])
        case Ok(outs) => ScriptRun(Ok(()), [LinkCommand, basecall], outs)
  }

  /** Lines 117-148, step by step. */
  method LinkBasecallSplit(w: Workdir, p: KitProfile, a: Accuracy, basecalled: Table) returns (r: Result<()>)
    modifies w
    ensures var run := Basecall(p, a, w.status, basecalled);
            r == run.result && w.log == old(w.log) + run.commands && w.files == Written(old(w.files), run.outputs)
  {
    var linked := w.Run(LinkCommand);
    if linked.Err? {
      return linked;
    }
    var basecall := BasecallCommand(p);
    var called := w.Run(basecall);
    assert w.log == old(w.log) + [LinkCommand, basecall];
    if called.Err? {
      return called;
    }
    if FilenameColumn !in basecalled.columns {
      return Err(MissingColumn(FilenameColumn));
    }
    if RunColumn !in basecalled.columns {
      return Err(MissingColumn(RunColumn));
    }
    WriteGroups(w, WithFlowcell(basecalled.rows), a);
    r := Ok(());
  }

  /** basecalling_pipeline.py, step by step. */
  method BasecallingPipeline(w: Workdir, kitAnswer: string, optionAnswer: string, listing: seq<SummaryFile>,
                             sample: SummaryFile -> Table, basecalled: Table)
    returns (r: Result<()>)
    modifies w
    ensures var run := Pipeline(kitAnswer, optionAnswer, listing, sample, w.status, basecalled);
            r == run.result && w.log == old(w.log) + run.commands && w.files == Written(old(w.files), run.outputs)
  {
    var resolved := Resolve(kitAnswer, optionAnswer);
    if resolved.Err? {
      assert w.log == old(w.log) + [];
      return Err(resolved.error);
    }
    r := RunResolved(w, resolved.value, listing, sample, basecalled);
  }

  /** Lines 65-148, step by step. */
  method RunResolved(w: Workdir, resolved: Resolved, listing: seq<SummaryFile>,
                     sample: SummaryFile -> Table, basecalled: Table)
    returns (r: Result<()>)
    modifies w
    ensures var run := Proceed(resolved, listing, sample, w.status, basecalled);
            r == run.result && w.log == old(w.log) + run.commands && w.files == Written(old(w.files), run.outputs)
  {
    ghost var extraction := Extract(resolved.kit, listing, sample, w.status);
    var ids := ExtractReadIds(w, resolved.kit, listing, sample);
    if ids.Err? {
      return Err(ids.error);
    }
    ghost var rest := Basecall(resolved.profile, resolved.accuracy, w.status, basecalled);
    Reassociate(old(w.log), extraction.commands, rest.commands);
    r := LinkBasecallSplit(w, resolved.profile, resolved.accuracy, basecalled);
  }

  /** The run succeeds exactly when the answers are valid, the first scan finds at
      least one read ID, both commands succeed and the basecaller's table has the two
      grouping columns. A successful run never issues the regeneration command: it
      issues the link command and the basecall command, and nothing else. */
  lemma PipelineSucceeds(kitAnswer: string, optionAnswer: string, listing: seq<SummaryFile>,
                         sample: SummaryFile -> Table, status: string -> int, basecalled: Table)
    ensures var run := Pipeline(kitAnswer, optionAnswer, listing, sample, status, basecalled);
            var resolved := Resolve(kitAnswer, optionAnswer);
            run.result.Ok? <==>
              && resolved.Ok?
              && (var first := Scan(Glob(SummaryPattern(resolved.value.kit), listing)); first.Ok? && first.value != [])
              && status(LinkCommand) == 0
              && status(BasecallCommand(resolved.value.profile)) == 0
              && FilenameColumn in basecalled.columns && RunColumn in basecalled.columns
    ensures var run := Pipeline(kitAnswer, optionAnswer, listing, sample, status, basecalled);
            run.result.Ok? ==>
              run.commands == [LinkCommand, BasecallCommand(Resolve(kitAnswer, optionAnswer).value.profile)]
  {
    var resolved := Resolve(kitAnswer, optionAnswer);
    if resolved.Ok? {
      ProceedSucceeds(resolved.value, listing, sample, status, basecalled);
    }
  }

  /** Steps 2 onwards succeed exactly when the first scan finds at least one read ID,
      both commands succeed and the basecaller's table has the two grouping columns;
      then the link and basecall commands are all that was issued. */
  lemma ProceedSucceeds(resolved: Resolved, listing: seq<SummaryFile>, sample: SummaryFile -> Table,
                        status: string -> int, basecalled: Table)
    ensures var run := Proceed(resolved, listing, sample, status, basecalled);
            run.result.Ok? <==>
              && (var first := Scan(Glob(SummaryPattern(resolved.kit), listing)); first.Ok? && first.value != [])
              && status(LinkCommand) == 0
              && status(BasecallCommand(resolved.profile)) == 0
              && FilenameColumn in basecalled.columns && RunColumn in basecalled.columns
    ensures var run := Proceed(resolved, listing, sample, status, basecalled);
            run.result.Ok? ==> run.commands == [LinkCommand, BasecallCommand(resolved.profile)]
  {
    ExtractOutcome(resolved.kit, listing, sample, status);
  }

  /** Whatever happens, the files the script writes are sequencing summaries ending in
      `_1%.txt`; `read_id_list_all.txt`, which the basecall command reads, is not
      among them. */
  lemma PipelineNeverWritesIdList(kitAnswer: string, optionAnswer: string, listing: seq<SummaryFile>,
                                  sample: SummaryFile -> Table, status: string -> int, basecalled: Table)
    ensures var outs := Pipeline(kitAnswer, optionAnswer, listing, sample, status, basecalled).outputs;
            forall i :: 0 <= i < |outs| ==>
              outs[i].0 != IdListAll && |outs[i].0| >= 7 && outs[i].0[|outs[i].0| - 7..] == "_1%.txt"
  {
    var resolved := Resolve(kitAnswer, optionAnswer);
    if resolved.Ok? {
      OutputsAreSummaries(WithFlowcell(basecalled.rows), resolved.value.accuracy);
    }
  }
}
