/** The effects the scripts have on the world: the files they write (and remove) in
    the working directory, and the shell commands they issue through `run_command`.
    What a command does is opaque; only its exit status is observed, and that is
    given by a fixed function of the command text. */
module Workspace {
  import opened Outcomes
  import opened Summaries

  /** What a script writes into a file: a summary table (`to_csv`) or plain text. */
  datatype Content = Summary(rows: seq<Row>) | Plain(text: string)

  class Workdir {
    /** The files the scripts have written and not removed, by path. */
    var files: map<string, Content>
    /** Every command issued so far, in order. */
    var log: seq<string>
    /** The exit status the shell reports for a command. */
    const status: string -> int

    constructor (status: string -> int)
      ensures files == map[] && log == [] && this.status == status
    {
      files := map[];
      log := [];
      this.status := status;
    }

    /** `run_command(cmd)`: issue the command; a nonzero exit status raises. */
    method Run(cmd: string) returns (r: Result<()>)
      modifies this`log
      ensures log == old(log) + [cmd]
      ensures r == if status(cmd) == 0 then Ok(()) else Err(CommandFailed(cmd))
    {
      log := log + [cmd];
      r := if status(cmd) == 0 then Ok(()) else Err(CommandFailed(cmd));
    }

    /** `open(path, "w").write(...)` or `df.to_csv(path)`: create or overwrite a file. */
    method Write(path: string, c: Content)
      modifies this`files
      ensures files == old(files)[path := c]
    {
      files := files[path := c];
    }

    /** `os.remove(path)` of a file the script has written. */
    method Remove(path: string)
      requires path in files
      modifies this`files
      ensures files == old(files) - {path}
    {
      files := files - {path};
    }
  }

  /** The files after writing the given (path, content) pairs in order: a later write
      to a path replaces an earlier one. */
  function Written(files: map<string, Content>, outs: seq<(string, Content)>): (r: map<string, Content>)
    ensures forall p :: p in r <==> p in files || exists i :: 0 <= i < |outs| && outs[i].0 == p
  {
    if outs == [] then files
    else
      var front := outs[..|outs| - 1];
      assert forall i :: 0 <= i < |front| ==> front[i] == outs[i];
      Written(files, front)[outs[|outs| - 1].0 := outs[|outs| - 1].1]
  }

  /** Writing one more pair. */
  lemma WrittenStep(files: map<string, Content>, outs: seq<(string, Content)>, i: nat)
    requires i < |outs|
    ensures Written(files, outs[..i + 1]) == Written(files, outs[..i])[outs[i].0 := outs[i].1]
  {
    assert outs[..i + 1][..i] == outs[..i];
  }

  /** A path holds what the last write to it wrote. */
  lemma {:induction false} WrittenLast(files: map<string, Content>, outs: seq<(string, Content)>, i: nat)
    requires i < |outs| && forall j :: i < j < |outs| ==> outs[j].0 != outs[i].0
    ensures outs[i].0 in Written(files, outs) && Written(files, outs)[outs[i].0] == outs[i].1
  {
    if i < |outs| - 1 {
      var front := outs[..|outs| - 1];
      assert front[i] == outs[i];
      WrittenLast(files, front, i);
    }
  }

  /** A path nothing is written to keeps what it had. */
  lemma {:induction false} WrittenUntouched(files: map<string, Content>, outs: seq<(string, Content)>, p: string)
    requires forall i :: 0 <= i < |outs| ==> outs[i].0 != p
    ensures p in Written(files, outs) <==> p in files
    ensures p in files ==> Written(files, outs)[p] == files[p]
  {
    if outs != [] {
      var front := outs[..|outs| - 1];
      assert forall i :: 0 <= i < |front| ==> front[i] == outs[i];
      WrittenUntouched(files, front, p);
    }
  }

  /** Appending commands to a log in two steps or in one gives the same log. */
  lemma Reassociate(a: seq<string>, b: seq<string>, c: seq<string>)
    ensures a + (b + c) == (a + b) + c
  {
  }
}
