/** Read-ID accumulation. Both scripts glob sampled sequencing summaries and
    concatenate their `read_id` columns (basecalling_pipeline.py lines 67-115,
    pod5_assist.py lines 19-34). basecalling_pipeline.py picks the 10% samples for
    ULK114 and the 1% samples otherwise, and when the first scan yields nothing it
    runs one regeneration command and scans again. pod5_assist.py turns the IDs into
    strings and writes them one per line. */
module ReadIds {
  import opened Outcomes
  import opened Text
  import opened Summaries
  import opened Globbing
  import opened Kits
  import opened Workspace
  import opened Shell

  const ReadIdColumn: string := "read_id"

  predicate HasReadIds(f: SummaryFile)
  {
    ReadIdColumn in f.table.columns
  }

  /** What the scanning loop leaves in `read_ids` after the files, in order: each
      file's column is appended, and the first file without the column raises. */
  function Scan(files: seq<SummaryFile>): Result<seq<Cell>>
  {
    if files == [] then Ok([])
    else
      match Scan(files[..|files| - 1])
      case Err(e) => Err(e)
      case Ok(ids) =>
        var f := files[|files| - 1];
        if HasReadIds(f) then Ok(ids + Column(f.table, ReadIdColumn)) else Err(MissingReadId(f.path))
  }

  /** Reference definitions: the concatenation of the files' `read_id` columns. */
  function Flatten(columns: seq<seq<Cell>>): seq<Cell>
  {
    if columns == [] then [] else Flatten(columns[..|columns| - 1]) + columns[|columns| - 1]
  }

  function ReadIdColumns(files: seq<SummaryFile>): (columns: seq<seq<Cell>>)
    ensures |columns| == |files|
  {
    seq(|files|, i requires 0 <= i < |files| => Column(files[i].table, ReadIdColumn))
  }

  function RowCount(files: seq<SummaryFile>): nat
  {
    if files == [] then 0 else RowCount(files[..|files| - 1]) + |files[|files| - 1].table.rows|
  }

  /** The scan succeeds exactly when every file has a `read_id` column, and then its
      result is the concatenation of the columns in file order, without deduplication:
      one ID per row. */
  lemma {:induction false} ScanConcatenates(files: seq<SummaryFile>)
    ensures Scan(files).Ok? <==> forall i :: 0 <= i < |files| ==> HasReadIds(files[i])
    ensures Scan(files).Ok? ==> Scan(files).value == Flatten(ReadIdColumns(files))
    ensures Scan(files).Ok? ==> |Scan(files).value| == RowCount(files)
  {
    if files != [] {
      var init := files[..|files| - 1];
      ScanConcatenates(init);
      assert ReadIdColumns(files)[..|files| - 1] == ReadIdColumns(init);
      assert forall i :: 0 <= i < |init| ==> init[i] == files[i];
    }
  }

  /** A scan that fails names the first file without the column. */
  lemma {:induction false} ScanReportsFirstMissing(files: seq<SummaryFile>, i: nat)
    requires i < |files| && !HasReadIds(files[i])
    requires forall j :: 0 <= j < i ==> HasReadIds(files[j])
    ensures Scan(files) == Err(MissingReadId(files[i].path))
  {
    var init := files[..|files| - 1];
    if i < |files| - 1 {
      ScanReportsFirstMissing(init, i);
    } else {
      ScanConcatenates(init);
    }
  }

  /** Once the scan of a prefix has failed, the scan of the whole fails the same way. */
  lemma {:induction false} ScanFailureSticks(files: seq<SummaryFile>, n: nat)
    requires n <= |files| && Scan(files[..n]).Err?
    ensures Scan(files) == Scan(files[..n])
    decreases |files| - n
  {
    if n < |files| {
      assert files[..n + 1][..n] == files[..n];
      ScanFailureSticks(files, n + 1);
    } else {
      assert files[..n] == files;
    }
  }

  /** The scanning loop of both scripts: `read_ids.extend(df["read_id"].tolist())` per
      file, raising for a file without the column. */
  method ReadIdsOf(files: seq<SummaryFile>) returns (r: Result<seq<Cell>>)
    ensures r == Scan(files)
  {
    var ids := [];
    var i := 0;
    while i < |files|
      invariant 0 <= i <= |files|
      invariant Scan(files[..i]) == Ok(ids)
    {
      var f := files[i];
      assert files[..i + 1][..i] == files[..i] && files[..i + 1][i] == f;
      if ReadIdColumn in f.table.columns {
        ids := ids + Column(f.table, ReadIdColumn);
      } else {
        ScanFailureSticks(files, i + 1);
        return Err(MissingReadId(f.path));
      }
      i := i + 1;
    }
    assert files[..i] == files;
    r := Ok(ids);
  }

  // ---------------------------------------------------------------------------
  // basecalling_pipeline.py: choice of samples, regeneration and retry

  /** Every summary pattern starts by matching one directory of the working directory. */
  const AnyDirectory: string := "*/"
  /** `sequencing_summary_<flowcell>_<run>_<hash>` with eight characters for each part. */
  const SummaryStem: string := "sequencing_summary_????????_????????_????????"

  /** The file-name ending of a sample: `_1%_ss.txt` or `_10%_ss.txt`. */
  function SampleSuffix(percent: string): string
  {
    "_" + percent + "_ss.txt"
  }

  const OnePercentPattern: string := AnyDirectory + SummaryStem + SampleSuffix("1%")
  const TenPercentPattern: string := AnyDirectory + SummaryStem + SampleSuffix("10%")
  /** The full summaries the regeneration command samples from. */
  const FullSummaryPattern: string := AnyDirectory + SummaryStem + ".txt"

  /** The sampling percentage: 10% for ULK114, 1% for every other kit. */
  function PercentTag(kit: Kit): string
  {
    if kit == ULK114 then "10%" else "1%"
  }

  /** The glob of the first scan and of the retry (lines 68-79 and 105): the same
      choice, made from the kit, both times. */
  function SummaryPattern(kit: Kit): (p: string)
    ensures p == AnyDirectory + SummaryStem + SampleSuffix(PercentTag(kit))
  {
    if kit == ULK114 then TenPercentPattern else OnePercentPattern
  }

  /** The regeneration command (lines 90-103): sample every full summary with csvtk
      into `<name>_10%_ss.txt` or `<name>_1%_ss.txt`. */
  function FallbackCommand(kit: Kit): string
  {
    Line(["for", "seqsum", "in", FullSummaryPattern + ";",
          "do", "filename=$(basename \"${seqsum%.*}\");",
          "csvtk", "-t", "sample", "-p", if kit == ULK114 then "0.1" else "0.01", "\"$seqsum\"",
          ">", "\"${filename}" + SampleSuffix(PercentTag(kit)) + "\";", "done"])
  }

  /** The shell's `${path%.*}`: path without its last `.` and what follows, or the
      whole path when it has no `.`. */
  function DropExtension(path: string): (r: string)
    ensures r <= path
    ensures '.' !in path ==> r == path
    ensures '.' in path ==> |r| < |path| && path[|r|] == '.' && '.' !in path[|r| + 1..]
  {
    if path == [] then []
    else if path[|path| - 1] == '.' then path[..|path| - 1]
    else if '.' in path[..|path| - 1] then
      var r := DropExtension(path[..|path| - 1]);
      assert path[|r| + 1..] == path[..|path| - 1][|r| + 1..] + [path[|path| - 1]];
      r
    else
      assert forall k :: 0 <= k < |path| - 1 ==> path[k] == path[..|path| - 1][k];
      path
  }

  /** `basename path` for a path that does not end in `/`: what follows the last `/`. */
  function Basename(path: string): (r: string)
    ensures '/' !in r
  {
    if path == [] then []
    else if path[|path| - 1] == '/' then []
    else Basename(path[..|path| - 1]) + [path[|path| - 1]]
  }

  /** Where the regeneration command writes the sample of a full summary: a bare file
      name, that is, a file in the current directory. */
  function SampledPath(kit: Kit, summaryPath: string): (r: string)
    ensures '/' !in r
  {
    Basename(DropExtension(summaryPath)) + SampleSuffix(PercentTag(kit))
  }

  /** The listing after the regeneration command has written one sample per full
      summary; `sample` stands for csvtk's random choice of rows. */
  function Regenerated(kit: Kit, listing: seq<SummaryFile>, sample: SummaryFile -> Table): (r: seq<SummaryFile>)
    ensures |r| >= |listing| && r[..|listing|] == listing
    ensures forall i :: |listing| <= i < |r| ==> '/' !in r[i].path
  {
    var full := Glob(FullSummaryPattern, listing);
    listing + seq(|full|, i requires 0 <= i < |full| => SummaryFile(SampledPath(kit, full[i].path), sample(full[i])))
  }

  lemma {:induction false} CountAbsent(c: char, s: string)
    requires c !in s
    ensures Count(c, s) == 0
  {
    if s != [] {
      assert s[1..] == s[1..] && forall k :: 0 <= k < |s| - 1 ==> s[1..][k] == s[k + 1];
      CountAbsent(c, s[1..]);
    }
  }

  lemma {:induction false} CountPresent(c: char, s: string)
    requires c in s
    ensures Count(c, s) >= 1
  {
    if s[0] != c {
      assert c in s[1..];
      CountPresent(c, s[1..]);
    }
  }

  /** The retry cannot see the regenerated samples: they are written into the current
      directory, while both patterns look one directory down. The retry therefore
      scans exactly the files the first scan saw. */
  lemma RetrySeesNoNewFiles(kit: Kit, listing: seq<SummaryFile>, sample: SummaryFile -> Table)
    ensures Glob(SummaryPattern(kit), Regenerated(kit, listing, sample)) == Glob(SummaryPattern(kit), listing)
  {
    var p := SummaryPattern(kit);
    var r := Regenerated(kit, listing, sample);
    var added := r[|listing|..];
    assert r == listing + added;
    assert p[1] == (AnyDirectory + SummaryStem + SampleSuffix(PercentTag(kit)))[1] == AnyDirectory[1] == '/';
    CountPresent('/', p);
    forall i | 0 <= i < |added| ensures !Matches(p, added[i].path) {
      CountAbsent('/', added[i].path);
      if Matches(p, added[i].path) {
        MatchKeepsDepth(p, added[i].path);
      }
    }
    GlobNoneMatch(p, added);
    GlobAppend(p, listing, added);
    assert Glob(p, listing) + [] == Glob(p, listing);
  }

  /** The outcome of step 2 of basecalling_pipeline.py: the final `read_ids` (or the
      error raised) and the commands issued on the way. */
  datatype Extraction = Extraction(ids: Result<seq<Cell>>, commands: seq<string>)

  function Extract(kit: Kit, listing: seq<SummaryFile>, sample: SummaryFile -> Table,
                   status: string -> int): Extraction
  {
    var cmd := FallbackCommand(kit);
    Settle(Scan(Glob(SummaryPattern(kit), listing)),
           Scan(Glob(SummaryPattern(kit), Regenerated(kit, listing, sample))), cmd, status(cmd) == 0)
  }

  /** Lines 87-115 given the outcomes of the two scans: the first scan's IDs when it
      found any (or its error); otherwise the regeneration command, and then the
      retry's outcome if the command succeeded. */
  function Settle(first: Result<seq<Cell>>, second: Result<seq<Cell>>, cmd: string, cmdSucceeds: bool): Extraction
  {
    if first != Ok([]) then Extraction(first, [])
    else if !cmdSucceeds then Extraction(Err(CommandFailed(cmd)), [cmd])
    else Extraction(Retry(second), [cmd])
  }

  /** Settle when the retry scans what the first scan scanned. */
  lemma SettleRepeated(first: Result<seq<Cell>>, cmd: string, cmdSucceeds: bool)
    ensures var e := Settle(first, first, cmd, cmdSucceeds);
            && (e.commands == if first == Ok([]) then [cmd] else [])
            && (e.ids.Ok? <==> first.Ok? && first.value != [])
            && (e.ids.Ok? ==> e.ids == first)
            && (first.Err? ==> e.ids == first)
            && (first == Ok([]) ==> e.ids == if cmdSucceeds then Err(NoReadIds) else Err(CommandFailed(cmd)))
  {
  }

  /** Lines 105-115: the retry's outcome, where finding no ID at all is an error. */
  function Retry(second: Result<seq<Cell>>): (r: Result<seq<Cell>>)
    ensures r.Ok? <==> second.Ok? && second.value != []
    ensures r.Ok? ==> r == second
    ensures second.Err? ==> r == second
  {
    if second == Ok([]) then Err(NoReadIds) else second
  }

  /** Step 2 of basecalling_pipeline.py: the first scan, the regeneration command when
      it found nothing, the retry, and the final check. */
  method ExtractReadIds(w: Workdir, kit: Kit, listing: seq<SummaryFile>, sample: SummaryFile -> Table)
    returns (r: Result<seq<Cell>>)
    modifies w`log
    ensures r == Extract(kit, listing, sample, w.status).ids
    ensures w.log == old(w.log) + Extract(kit, listing, sample, w.status).commands
  {
    ghost var e := Extract(kit, listing, sample, w.status);
    r := ReadIdsOf(Glob(SummaryPattern(kit), listing));
    if r != Ok([]) {
      assert e == Extraction(r, []);
      assert w.log == old(w.log) + [];
      return;
    }
    var cmd := FallbackCommand(kit);
    var ran := w.Run(cmd);
    if ran.Err? {
      assert e == Extraction(Err(CommandFailed(cmd)), [cmd]);
      return Err(ran.error);
    }
    var second := ReadIdsOf(Glob(SummaryPattern(kit), Regenerated(kit, listing, sample)));
    assert e == Extraction(Retry(second), [cmd]);
    r := Retry(second);
  }

  /** What step 2 can end in. The regeneration command is issued at most once, and only
      when the first scan found the column everywhere but no rows. Because the retry
      sees no new file, step 2 succeeds exactly when the first scan finds at least one
      ID, and then yields the first scan's IDs: the regeneration never rescues a run. */
  lemma ExtractOutcome(kit: Kit, listing: seq<SummaryFile>, sample: SummaryFile -> Table, status: string -> int)
    ensures var e := Extract(kit, listing, sample, status);
            var first := Scan(Glob(SummaryPattern(kit), listing));
            && (e.commands == if first == Ok([]) then [FallbackCommand(kit)] else [])
            && (e.ids.Ok? <==> first.Ok? && first.value != [])
            && (e.ids.Ok? ==> e.ids == first)
            && (first.Err? ==> e.ids == first)
            && (first == Ok([]) ==> e.ids == if status(FallbackCommand(kit)) == 0 then Err(NoReadIds)
                                             else Err(CommandFailed(FallbackCommand(kit))))
  {
    var first := Scan(Glob(SummaryPattern(kit), listing));
    RetrySeesNoNewFiles(kit, listing, sample);
    SettleRepeated(first, FallbackCommand(kit), status(FallbackCommand(kit)) == 0);
  }

  // ---------------------------------------------------------------------------
  // pod5_assist.py: read IDs as text, one per line

  /** Lines 19-29 of pod5_assist.py: the 1% summaries' IDs, each converted with str(). */
  method ReadIdTexts(listing: seq<SummaryFile>) returns (r: Result<seq<string>>)
    ensures r.Ok? <==> Scan(Glob(OnePercentPattern, listing)).Ok?
    ensures r.Ok? ==> r.value == CellTexts(Scan(Glob(OnePercentPattern, listing)).value)
    ensures r.Err? ==> r.error == Scan(Glob(OnePercentPattern, listing)).error
  {
    var ids := ReadIdsOf(Glob(OnePercentPattern, listing));
    match ids
    case Err(e) => r := Err(e);
    case Ok(cells) => r := Ok(CellTexts(cells));
  }

  /** `"\n".join(ids)`: the content of an ID-list file. */
  function IdFileContent(ids: seq<string>): string
  {
    Join(ids, "\n")
  }

  /** Reading the file back line by line (`split("\n")`) gives the IDs back when there
      is at least one and none contains a line break. */
  lemma IdFileRoundTrip(ids: seq<string>)
    requires ids != []
    requires forall i :: 0 <= i < |ids| ==> '\n' !in ids[i]
    ensures Split(IdFileContent(ids), '\n') == ids
  {
    SplitJoin(ids, '\n');
  }

  /** An empty list gives an empty file, which reads back as one empty line: the round
      trip needs at least one ID. */
  lemma EmptyIdFile()
    ensures IdFileContent([]) == ""
    ensures Split(IdFileContent([]), '\n') == [""]
  {
  }

  /** No line break follows the last ID. */
  lemma IdFileHasNoTrailingNewline(ids: seq<string>)
    requires ids != [] && ids[|ids| - 1] != [] && '\n' !in ids[|ids| - 1]
    ensures var c := IdFileContent(ids); c != [] && c[|c| - 1] != '\n'
  {
    JoinEndsWithLastPart(ids, "\n");
    var c := IdFileContent(ids);
    var last := ids[|ids| - 1];
    assert c[|c| - 1] == c[|c| - |last|..][|last| - 1];
  }
}
