/**
 The checkpoint files: one directory per task, one file per step, named by a digest of the step key
 that may collide. Unreadable files are moved aside and count as absent.
 */
module CheckpointStore {
  import opened Domain

  type StepKey = nat
  type FileName = nat
  type Digest = nat

  const CHECKPOINT_VERSION := 1

  datatype Entry = Entry(stepKey: StepKey, fingerprint: Digest, tool: Tool, stdout: string)

  datatype Payload = Broken | Saved(version: int, entry: Entry)

  // The store's directory holds a directory per task beside the one for quarantined files.
  datatype Dir = Corrupt | OfTask(task: TaskId)

  type Dirs = map<Dir, map<FileName, Payload>>

  function FilesIn(dirs: Dirs, task: TaskId): map<FileName, Payload> {
    if OfTask(task) in dirs then dirs[OfTask(task)] else map[]
  }

  // What the store can still tell of a task: its readable entries by file name.
  function Entries(dirs: Dirs, task: TaskId): map<FileName, Entry> {
    var files := FilesIn(dirs, task);
    map f | f in files && files[f].Saved? && files[f].version == CHECKPOINT_VERSION :: files[f].entry
  }

  function Found(entries: map<FileName, Entry>, f: FileName): Option<Entry> {
    if f in entries then Some(entries[f]) else None
  }

  class FileCheckpointStore {
    const filename: StepKey -> FileName
    var dirs: Dirs
    var quarantined: nat

    constructor (filename: StepKey -> FileName)
      ensures this.filename == filename && dirs == map[] && quarantined == 0
    {
      this.filename := filename;
      dirs := map[];
      quarantined := 0;
    }

    // A read answers the entry under the key's file name, whoever's key it was written for. It changes
    // no readable entry of any task: it at most moves a broken file aside.
    method Read(task: TaskId, stepKey: StepKey) returns (hit: Option<Entry>)
      modifies this
      ensures hit == Found(old(Entries(dirs, task)), filename(stepKey))
      ensures forall t :: Entries(dirs, t) == old(Entries(dirs, t))
      ensures dirs != old(dirs) ==>
                && filename(stepKey) in old(FilesIn(dirs, task)) && old(FilesIn(dirs, task))[filename(stepKey)].Broken?
                && FilesIn(dirs, task) == old(FilesIn(dirs, task)) - {filename(stepKey)}
    {
      var f := filename(stepKey);
      if f !in FilesIn(dirs, task) {
        return None;
      }
      match FilesIn(dirs, task)[f]
      case Broken =>
        dirs := dirs[OfTask(task) := FilesIn(dirs, task) - {f}];
        quarantined := quarantined + 1;
        hit := None;
      case Saved(version, entry) =>
        hit := if version != CHECKPOINT_VERSION then None else Some(entry);
    }

    method Write(task: TaskId, entry: Entry)
      modifies this`dirs
      ensures Entries(dirs, task) == old(Entries(dirs, task))[filename(entry.stepKey) := entry]
      ensures forall t :: t != task ==> Entries(dirs, t) == old(Entries(dirs, t))
    {
      dirs := dirs[OfTask(task) := FilesIn(dirs, task)[filename(entry.stepKey) := Saved(CHECKPOINT_VERSION, entry)]];
    }

    method Drop(task: TaskId)
      modifies this`dirs
      ensures dirs == old(dirs) - {OfTask(task)}
      ensures Entries(dirs, task) == map[] && forall t :: t != task ==> Entries(dirs, t) == old(Entries(dirs, t))
    {
      dirs := dirs - {OfTask(task)};
    }

    // Every task directory outside the active set goes, unless it cannot be removed; nothing else does.
    method Sweep(active: set<TaskId>, stuck: set<Dir>) returns (dropped: nat)
      modifies this`dirs
      ensures dirs == Swept(old(dirs), active, stuck)
      ensures dropped == |old(dirs).Keys - dirs.Keys|
      ensures OnlyInactiveGo(old(dirs), dirs, active, stuck)
    {
      var entries := dirs.Keys;
      ghost var was := dirs;
      ghost var gone: set<Dir> := {};
      dropped := 0;
      while entries != {}
        invariant entries <= was.Keys
        invariant gone == set d | d in was.Keys - entries && !Spared(d, active, stuck)
        invariant dirs == was - gone && dropped == |gone|
        decreases |entries|
      {
        var entry :| entry in entries;
        if !Spared(entry, active, stuck) {
          dirs := dirs - {entry};
          gone := gone + {entry};
          dropped := dropped + 1;
        }
        entries := entries - {entry};
      }
      SweptWithout(was, active, stuck, gone);
      SweptSays(was, active, stuck);
    }
  }

  // The quarantine, the active tasks' directories and those that cannot be removed.
  predicate Spared(d: Dir, active: set<TaskId>, stuck: set<Dir>) {
    d.Corrupt? || d.task in active || d in stuck
  }

  function Swept(dirs: Dirs, active: set<TaskId>, stuck: set<Dir>): Dirs {
    map d | d in dirs && Spared(d, active, stuck) :: dirs[d]
  }

  lemma SweptWithout(dirs: Dirs, active: set<TaskId>, stuck: set<Dir>, gone: set<Dir>)
    requires gone == set d | d in dirs.Keys && !Spared(d, active, stuck)
    ensures dirs - gone == Swept(dirs, active, stuck) && dirs.Keys - (dirs - gone).Keys == gone
  {
    assert (dirs - gone).Keys == Swept(dirs, active, stuck).Keys;
  }

  // A task that is not active keeps nothing, unless its directory cannot be removed; an active one keeps
  // all, and so does the quarantine.
  ghost predicate OnlyInactiveGo(dirs: Dirs, after: Dirs, active: set<TaskId>, stuck: set<Dir>) {
    && (forall t :: Entries(after, t) == if t in active || OfTask(t) in stuck then Entries(dirs, t) else map[])
    && (Corrupt in dirs ==> Corrupt in after && after[Corrupt] == dirs[Corrupt])
    && (forall t :: OfTask(t) in after <==> OfTask(t) in dirs && (t in active || OfTask(t) in stuck))
  }

  lemma SweptSays(dirs: Dirs, active: set<TaskId>, stuck: set<Dir>)
    ensures OnlyInactiveGo(dirs, Swept(dirs, active, stuck), active, stuck)
  {
    var after := Swept(dirs, active, stuck);
    forall t ensures FilesIn(after, t) == if t in active || OfTask(t) in stuck then FilesIn(dirs, t) else map[] {
    }
  }
}
