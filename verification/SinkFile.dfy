/** The destination of a pull, as code (internal/file/sink.go), over the disk PullProtocol crashes. */
module SinkFile {
  import opened Base
  import PullProtocol
  import opened PullSession

  type Disk = PullProtocol.Disk
  type Inode = PullProtocol.Inode

  datatype SinkError = AlreadyCommitted | FileClosed | OsFailed | NoSuchFile

  /** Which operating-system calls of a commit fail. */
  datatype Faults = Faults(sync: bool, close: bool, rename: bool, dir: bool)

  /** The content after p is written at off; a gap reads as zeros. */
  function WrittenAt(bytes: Bytes, off: nat, p: Bytes): (r: Bytes)
    ensures |r| == if off + |p| <= |bytes| then |bytes| else off + |p|
    ensures r[off..off + |p|] == p
  {
    var wide := if off + |p| <= |bytes| then bytes else bytes + seq(off + |p| - |bytes|, _ => 0);
    wide[..off] + p + wide[off + |p|..]
  }

  /** A write that stays inside the file is the write the pull's workers make. */
  lemma WrittenInside(bytes: Bytes, off: nat, p: Bytes)
    requires off + |p| <= |bytes|
    ensures WrittenAt(bytes, off, p) == Written(bytes, off, p)
  {
  }

  // ---- what each step of a commit does to the disk ----

  function Synced(d: Disk): Disk
    requires d.partial.Some?
  {
    d.(partial := Some(d.partial.value.(synced := true)))
  }

  function Renamed(d: Disk): Disk {
    PullProtocol.Disk(None, d.partial, d.fallback + {d.dest})
  }

  function Flushed(d: Disk): Disk {
    d.(fallback := {})
  }

  /** The disk after the first n steps of a commit: flush, close, rename, flush the directory. */
  function Committing(d: Disk, n: nat): Disk
    requires d.partial.Some? && n <= 4
  {
    if n == 0 then d
    else if n <= 2 then Synced(d)
    else if n == 3 then Renamed(Synced(d))
    else Flushed(Renamed(Synced(d)))
  }

  /** How many of them are done before the first that fails. */
  function Done(faults: Faults): (n: nat)
    ensures n <= 4
  {
    if faults.sync then 0 else if faults.close then 1 else if faults.rename then 2 else if faults.dir then 3 else 4
  }

  class Sink {
    var disk: Disk
    var open: bool
    var closed: bool
    var committed: bool

    /** An open handle is a handle on the partial file; a committed sink has been closed. */
    ghost predicate Valid()
      reads this
    {
      && (open ==> !closed && !committed && disk.partial.Some?)
      && (committed ==> closed)
    }

    /** Open the partial, or create it empty. */
    constructor (disk: Disk)
      ensures Valid() && open && !closed && !committed
      ensures this.disk == if disk.partial.Some? then disk else disk.(partial := Some(PullProtocol.Inode([], false)))
    {
      this.disk := if disk.partial.Some? then disk else disk.(partial := Some(PullProtocol.Inode([], false)));
      open, closed, committed := true, false, false;
    }

    method WriteAt(p: Bytes, off: nat) returns (err: Option<SinkError>)
      requires Valid()
      modifies this`disk
      ensures Valid() && (err.None? <==> open)
      ensures disk == if open
                      then old(disk).(partial := Some(PullProtocol.Inode(WrittenAt(old(disk).partial.value.bytes, off, p), false)))
                      else old(disk)
    {
      if !open {
        return Some(FileClosed);
      }
      disk := disk.(partial := Some(PullProtocol.Inode(WrittenAt(disk.partial.value.bytes, off, p), false)));
      return None;
    }

    method Truncate(size: nat) returns (err: Option<SinkError>)
      requires Valid()
      modifies this`disk
      ensures Valid() && (err.None? <==> open)
      ensures open ==> disk.partial.Some? && |disk.partial.value.bytes| == size && !disk.partial.value.synced
      ensures open ==>
                var was, now := old(disk).partial.value.bytes, disk.partial.value.bytes;
                forall k :: 0 <= k < size ==> now[k] == if k < |was| then was[k] else 0
      ensures disk.dest == old(disk).dest && disk.fallback == old(disk).fallback && (!open ==> disk == old(disk))
    {
      if !open {
        return Some(FileClosed);
      }
      var was := disk.partial.value.bytes;
      var cut := if size <= |was| then was[..size] else was + seq(size - |was|, _ => 0);
      disk := disk.(partial := Some(PullProtocol.Inode(cut, false)));
      return None;
    }

    method Size() returns (r: Result<nat, SinkError>)
      requires Valid()
      ensures r == if open then Ok(|disk.partial.value.bytes|) else Err(FileClosed)
    {
      if !open {
        return Err(FileClosed);
      }
      return Ok(|disk.partial.value.bytes|);
    }

    /** Flush the file, close it, rename it over the destination, flush the directory. */
    method Commit(faults: Faults) returns (err: Option<SinkError>)
      requires Valid()
      modifies this
      ensures Valid()
      ensures err.None? <==> old(open) && faults == Faults(false, false, false, false)
      ensures old(open) ==> disk == Committing(old(disk), Done(faults)) && (committed <==> Done(faults) >= 3)
      ensures committed && !old(committed) ==>
                && old(open) && disk.dest == Synced(old(disk)).partial && disk.partial == None && closed
      ensures !committed ==> disk.dest == old(disk).dest && disk.fallback == old(disk).fallback
      ensures !committed && old(disk).partial.Some? ==>
                disk.partial.Some? && disk.partial.value.bytes == old(disk).partial.value.bytes
      ensures old(committed) ==> err == Some(AlreadyCommitted)
      ensures !old(committed) && err.Some? ==> err == if old(open) then Some(OsFailed) else Some(FileClosed)
      ensures old(open) ==> (open <==> faults.sync) && (closed <==> Done(faults) >= 2)
      ensures !old(open) ==> disk == old(disk) && committed == old(committed)
    {
      if committed {
        return Some(AlreadyCommitted);
      }
      if !open {
        return Some(FileClosed);
      }
      if faults.sync {
        return Some(OsFailed);
      }
      disk := Synced(disk);
      open := false;
      if faults.close {
        return Some(OsFailed);
      }
      closed := true;
      if faults.rename {
        return Some(OsFailed);
      }
      disk := Renamed(disk);
      committed := true;
      if faults.dir {
        return Some(OsFailed);
      }
      disk := Flushed(disk);
      return None;
    }

    /** Release the handle; the partial stays for the next pull. */
    method Close(fails: bool) returns (err: Option<SinkError>)
      requires Valid()
      modifies this`open, this`closed
      ensures Valid() && closed && !open
      ensures err == if old(closed) then None else if !old(open) then Some(FileClosed)
                     else if fails then Some(OsFailed) else None
    {
      if closed {
        return None;
      }
      closed := true;
      err := if !open then Some(FileClosed) else if fails then Some(OsFailed) else None;
      open := false;
    }

    /** Remove the partial. The destination is never touched, and a committed one has no partial left. */
    method Discard(fails: bool) returns (err: Option<SinkError>)
      requires Valid()
      modifies this
      ensures Valid() && closed && !open && committed == old(committed)
      ensures disk.dest == old(disk).dest && disk.fallback == old(disk).fallback
      ensures err.None? <==> old(disk).partial.Some? && !fails
      ensures disk.partial == if err.None? then None else old(disk).partial
    {
      var _ := Close(fails);
      if disk.partial.None? {
        return Some(NoSuchFile);
      }
      if fails {
        return Some(OsFailed);
      }
      disk := disk.(partial := None);
      return None;
    }
  }

  /** However far a commit gets, it is that many of PullProtocol's commit steps, and then the pull's end: so
      what holds of every crash between those steps holds of every crash inside this method, and of what
      a commit that fails leaves. */
  lemma CommitIsItsSteps(c: PullProtocol.Config, s: PullProtocol.State, n: nat)
    requires 1 <= c.workers && s.process.Syncing? && s.disk.partial.Some? && n <= 4
    ensures
      var steps := COMMIT[..n] + if n < 4 then [PullProtocol.StopFailed] else [];
      && PullProtocol.Runs(c, s, steps)
      && PullProtocol.Run(c, s, steps) == PullProtocol.State(Committing(s.disk, n), PullProtocol.Idle, s.jobs)
  {
    CommitFrom(c, s, 0, n);
    assert COMMIT[0..n] == COMMIT[..n];
  }

  const COMMIT := [PullProtocol.Sync, PullProtocol.CloseFile, PullProtocol.Rename, PullProtocol.SyncDir]

  /** The state after the first k steps, short of the last. */
  ghost function Reached(s: PullProtocol.State, k: nat): PullProtocol.State
    requires s.process.Syncing? && s.disk.partial.Some? && k <= 4
  {
    var job := s.process.job;
    PullProtocol.State(
      Committing(s.disk, k),
      if k == 0 then PullProtocol.Syncing(job) else if k == 1 then PullProtocol.Closing(job)
      else if k == 2 then PullProtocol.Renaming(job) else if k == 3 then PullProtocol.DirSyncing(job)
      else PullProtocol.Idle,
      s.jobs)
  }

  lemma {:induction false} CommitFrom(c: PullProtocol.Config, s: PullProtocol.State, k: nat, n: nat)
    requires 1 <= c.workers && s.process.Syncing? && s.disk.partial.Some? && k <= n <= 4
    ensures
      var steps := COMMIT[k..n] + if n < 4 then [PullProtocol.StopFailed] else [];
      && PullProtocol.Runs(c, Reached(s, k), steps)
      && PullProtocol.Run(c, Reached(s, k), steps) == PullProtocol.State(Committing(s.disk, n), PullProtocol.Idle, s.jobs)
    decreases n - k
  {
    var end := if n < 4 then [PullProtocol.StopFailed] else [];
    var steps := COMMIT[k..n] + end;
    if k < n {
      assert steps[0] == COMMIT[k] && steps[1..] == COMMIT[k + 1..n] + end;
      assert PullProtocol.Apply(c, Reached(s, k), steps[0]) == Reached(s, k + 1);
      CommitFrom(c, s, k + 1, n);
    } else {
      assert steps == end;
      assert n < 4 ==> end[1..] == [];
    }
  }
}
