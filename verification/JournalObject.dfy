/** The journal object over its file, proved against the run model. */
module JournalObject {
  import opened Wrappers
  import opened JournalModel
  import opened JournalRuns

  /** The journal file on disk; it outlives the journal that owns it. */
  class Disk {
    var file: File

    constructor ()
      ensures file == Fresh().file
    {
      file := File([], 0, 0);
    }
  }

  /** A refused line refuses the file, whatever follows. */
  lemma {:induction false} RefusedStaysRefused(env: Env, lines: seq<Snapshot>, k: nat)
    requires k <= |lines| && Replay(env, lines[..k]).None?
    ensures Replay(env, lines).None?
    decreases |lines|
  {
    if k == |lines| {
      assert lines[..k] == lines;
    } else {
      assert lines[..|lines| - 1][..k] == lines[..k];
      RefusedStaysRefused(env, lines[..|lines| - 1], k);
    }
  }

  class Journal {
    const env: Env
    const disk: Disk
    var state: Snapshot
    var poisoned: bool
    var bytes: nat

    constructor Adopt(env: Env, disk: Disk, state: Snapshot, bytes: nat)
      ensures this.env == env && this.disk == disk && View() == Live(state, false, bytes)
    {
      this.env, this.disk, this.state, this.poisoned, this.bytes := env, disk, state, false, bytes;
    }

    function View(): Live
      reads this
    {
      Live(state, poisoned, bytes)
    }

    /** Replay the file line by line, write the opening snapshot, sync the directory. */
    static method Open(env: Env, disk: Disk, io: Io, directorySynced: bool) returns (r: Result<Journal, JournalError>)
      modifies disk
      ensures disk.file == OpenSpec(env, old(disk.file), io, directorySynced).0
      ensures var spec := OpenSpec(env, old(disk.file), io, directorySynced).1;
              && (r.Ok? <==> spec.Ok?)
              && (r.Ok? ==> fresh(r.value) && r.value.disk == disk && r.value.env == env)
              && (r.Ok? ==> r.value.View() == spec.value)
              && (r.Err? ==> r.error == spec.error)
    {
      var file := disk.file;
      var bytes := Size(env, file);
      if bytes > LIMIT { return Err(LimitExceeded); }
      if file.tail != 0 { return Err(Incomplete); }
      var replayed := Initial();
      for i := 0 to |file.lines|
        invariant Replay(env, file.lines[..i]) == Some(replayed)
      {
        var line := file.lines[i];
        assert file.lines[..i + 1][..i] == file.lines[..i];
        if !ValidLine(env, replayed, line) {
          RefusedStaysRefused(env, file.lines, i + 1);
          return Err(InvalidHistory);
        }
        replayed := line;
      }
      assert file.lines[..|file.lines|] == file.lines;
      var next := replayed;
      if file.lines != [] {
        next :- Recovered(replayed);
      }
      var journal := new Journal.Adopt(env, disk, replayed, bytes);
      var persisted := journal.Persist(next, io);
      if persisted.Err? { return Err(persisted.error); }
      if !directorySynced { return Err(DirectorySync); }
      return Ok(journal);
    }

    method Persist(next: Snapshot, io: Io) returns (r: Result<Snapshot, JournalError>)
      modifies this, disk
      ensures var p := PersistSpec(env, old(disk.file), old(View()), next, io);
              disk.file == p.file && View() == p.live && r == p.result
    {
      if poisoned { return Err(JournalError.Poisoned); }
      var sequence := CheckedAdd(state.sequence, 1);
      if sequence.None? { return Err(SequenceExhausted); }
      var line := next.(sequence := sequence.value);
      var length := env.size(line);
      if bytes + length > LIMIT {
        poisoned := true;
        return Err(LimitExceeded);
      }
      match io {
      case Synced =>
        disk.file := disk.file.(lines := disk.file.lines + [line], durable := |disk.file.lines| + 1);
      case NothingWritten =>
        poisoned := true;
      case PartWritten(k) =>
        disk.file := disk.file.(tail := if k < length then k else 0);
        poisoned := true;
      case SyncFailed =>
        disk.file := disk.file.(lines := disk.file.lines + [line]);
        poisoned := true;
      }
      if poisoned { return Err(PersistFailed); }
      bytes := bytes + length;
      state := line;
      return Ok(state);
    }

    method Apply(command: Command, now: Option<U64>, io: Io) returns (r: Result<Snapshot, JournalError>)
      modifies this, disk
      ensures var p := ApplySpec(env, old(disk.file), old(View()), command, now, io);
              disk.file == p.file && View() == p.live && r == p.result
    {
      if poisoned { return Err(JournalError.Poisoned); }
      var next :- Transition(env, now, state, command);
      r := Persist(next, io);
    }
  }
}
