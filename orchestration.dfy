/** main.py: the recursive download of the sandbox's files into the cloned repository,
    and the step sequence of `build_website` with its result shapes and its rule that
    the running server is stopped on every failure after it was started. GitHub, git
    and the sandbox are oracles: what each call returns is an input. */
module Orchestration {
  import opened Wrappers
  import opened Strings
  import opened PosixPath
  import opened GithubUtils
  import opened Manifest
  import opened BuildMvpWebsite

  // ---------------------------------------------------------------------------------
  // The remote file system and the local disk

  datatype EntryKind = DirEntry | FileEntry

  /** An `EntryInfo` of the sandbox listing. */
  datatype EntryInfo = EntryInfo(name: string, path: string, kind: EntryKind)

  /** What `sandbox.files.read` returns: text or raw bytes. */
  datatype Content = Text(text: string) | Binary(data: seq<byte>)

  /** The sandbox as the download sees it: the listing of each directory that can be
      listed, and the content of each file that can be read. A directory without a
      listing makes `files.list` raise; a file without content makes `files.read`
      raise. */
  datatype RemoteFs = RemoteFs(listings: map<string, seq<EntryInfo>>, contents: map<string, Content>)

  /** The bytes written for a content: text is encoded as UTF-8. */
  function Bytes(c: Content): seq<byte>
  {
    match c
    case Text(s) => EncodeUtf8(s)
    case Binary(b) => b
  }

  /** An effect of the download, on the sandbox side or on the local side. */
  datatype Action =
    | ListDir(remote: string)
    | MakeDirs(local: string)
    | ReadFile(remote: string)
    | WriteFile(local: string, data: seq<byte>)

  /** The effects of a (partial) download, and whether it ran to its end; `ok` is false
      when an exception escaped it. */
  datatype Walked = Walked(trace: seq<Action>, ok: bool)

  /** The entry passes both filters: its name does not start with '.' and its path has
      the directory being listed as a string prefix. */
  predicate Kept(e: EntryInfo, remoteDir: string)
  {
    !("." <= e.name) && remoteDir <= e.path
  }

  /** `os.path.join(local_dir, os.path.relpath(entry.path, remote_dir))` */
  function LocalPathOf(e: EntryInfo, remoteDir: string, localDir: string): string
  {
    Join(localDir, Relpath(e.path, remoteDir))
  }

  /** The write of a file that was read, unless opening the local path fails (the paths
      in `blocked`). A failed read or open is caught and the walk goes on. */
  function FileWrite(fs: RemoteFs, blocked: set<string>, remote: string, local: string): seq<Action>
  {
    if remote in fs.contents && local !in blocked then [WriteFile(local, Bytes(fs.contents[remote]))] else []
  }

  /** `download_files_from_sandbox(sandbox, remoteDir, localDir)`; `fuel` is the depth
      of recursion left before Python's recursion limit raises. */
  function WalkDir(fs: RemoteFs, blocked: set<string>, remoteDir: string, localDir: string, fuel: nat): Walked
    decreases fuel, 0
  {
    if fuel == 0 then Walked([], false)
    else if remoteDir !in fs.listings then Walked([ListDir(remoteDir)], false)
    else
      var w := WalkEntries(fs, blocked, remoteDir, localDir, fs.listings[remoteDir], fuel - 1);
      Walked([ListDir(remoteDir)] + w.trace, w.ok)
  }

  /** The loop over the entries of one listing, stopped by the first exception. */
  function WalkEntries(fs: RemoteFs, blocked: set<string>, remoteDir: string, localDir: string, es: seq<EntryInfo>, fuel: nat): Walked
    decreases fuel, |es| + 1
  {
    if es == [] then Walked([], true)
    else
      var a := EntryActions(fs, blocked, remoteDir, localDir, es[0], fuel);
      if !a.ok then a
      else
        var b := WalkEntries(fs, blocked, remoteDir, localDir, es[1..], fuel);
        Walked(a.trace + b.trace, b.ok)
  }

  /** One entry: skipped by the filters, or a directory made and descended into, or a
      file whose parent is made and which is read and written. */
  function EntryActions(fs: RemoteFs, blocked: set<string>, remoteDir: string, localDir: string, e: EntryInfo, fuel: nat): Walked
    decreases fuel, 1
  {
    if !Kept(e, remoteDir) then Walked([], true)
    else
      var local := LocalPathOf(e, remoteDir, localDir);
      match e.kind
      case DirEntry =>
        var w := WalkDir(fs, blocked, e.path, local, fuel);
        Walked([MakeDirs(local)] + w.trace, w.ok)
      case FileEntry =>
        var parent := Dirname(local);
        // os.makedirs("") raises, outside the try block
        if parent == [] then Walked([], false)
        else Walked([MakeDirs(parent), ReadFile(e.path)] + FileWrite(fs, blocked, e.path, local), true)
  }

  /** The local files and directories. */
  datatype DiskState = DiskState(files: map<string, seq<byte>>, dirs: set<string>)

  /** What one action does on the local side: `makedirs` adds a directory, a write
      replaces the file's content, the sandbox calls change nothing here. */
  function Perform(d: DiskState, a: Action): DiskState
  {
    match a
    case MakeDirs(p) => d.(dirs := d.dirs + {p})
    case WriteFile(p, data) => d.(files := d.files[p := data])
    case _ => d
  }

  /** The local side after a trace. */
  function Replay(d: DiskState, t: seq<Action>): DiskState
    decreases |t|
  {
    if t == [] then d else Replay(Perform(d, t[0]), t[1..])
  }

  lemma {:induction false} ReplayConcat(d: DiskState, a: seq<Action>, b: seq<Action>)
    ensures Replay(d, a + b) == Replay(Replay(d, a), b)
    decreases |a|
  {
    if a != [] {
      assert (a + b)[0] == a[0] && (a + b)[1..] == a[1..] + b;
      ReplayConcat(Perform(d, a[0]), a[1..], b);
    } else {
      assert a + b == b;
    }
  }

  /** The local machine: its files and directories, and the paths whose `open(..., 'wb')`
      fails. */
  class LocalDisk {
    var files: map<string, seq<byte>>
    var dirs: set<string>
    const blocked: set<string>

    /** The files and directories as one value. */
    function State(): DiskState
      reads this
    {
      DiskState(files, dirs)
    }

    constructor (blocked: set<string>)
      ensures files == map[] && dirs == {} && this.blocked == blocked
    {
      files := map[];
      dirs := {};
      this.blocked := blocked;
    }

    /** `os.makedirs(path, exist_ok=True)` */
    method MakeDirs(path: string)
      modifies this
      ensures dirs == old(dirs) + {path} && files == old(files)
    {
      dirs := dirs + {path};
    }

    /** `open(path, 'wb').write(data)`, for a path that can be opened. */
    method Write(path: string, data: seq<byte>)
      requires path !in blocked
      modifies this
      ensures files == old(files)[path := data] && dirs == old(dirs)
    {
      files := files[path := data];
    }
  }

  /** `download_files_from_sandbox`: returns false when an exception escapes (a listing
      that fails, the recursion limit, or `makedirs("")`), after the effects done so far. */
  method DownloadFilesFromSandbox(fs: RemoteFs, remoteDir: string, localDir: string, disk: LocalDisk, fuel: nat)
    returns (ok: bool)
    modifies disk
    ensures var w := WalkDir(fs, disk.blocked, remoteDir, localDir, fuel);
      ok == w.ok && disk.State() == Replay(old(disk.State()), w.trace)
    decreases fuel, 0
  {
    if fuel == 0 {
      return false;
    }
    if remoteDir !in fs.listings {
      FinishWalk(disk.State(), remoteDir, []);
      return false;
    }
    var entries := fs.listings[remoteDir];
    ok := DownloadEntries(fs, remoteDir, localDir, entries, disk, fuel - 1);
    WalkDirListed(fs, disk.blocked, remoteDir, localDir, fuel, old(disk.State()), disk.State());
  }

  /** A listed directory walks as the chain of its entries, after the listing. */
  lemma WalkDirListed(fs: RemoteFs, blocked: set<string>, remoteDir: string, localDir: string, fuel: nat,
                      before: DiskState, after: DiskState)
    requires fuel > 0 && remoteDir in fs.listings
    requires after == Replay(before, Chain(EntrySteps(fs, blocked, remoteDir, localDir, fs.listings[remoteDir], fuel - 1)).trace)
    ensures var w := WalkDir(fs, blocked, remoteDir, localDir, fuel);
      w.ok == Chain(EntrySteps(fs, blocked, remoteDir, localDir, fs.listings[remoteDir], fuel - 1)).ok &&
      after == Replay(before, w.trace)
  {
    var entries := fs.listings[remoteDir];
    WalkEntriesIsChain(fs, blocked, remoteDir, localDir, entries, fuel - 1);
    var total := WalkEntries(fs, blocked, remoteDir, localDir, entries, fuel - 1);
    assert WalkDir(fs, blocked, remoteDir, localDir, fuel) == Walked([ListDir(remoteDir)] + total.trace, total.ok);
    FinishWalk(before, remoteDir, total.trace);
  }

  /** The `for entry in entries` loop of `download_files_from_sandbox`, left by the first
      exception that escapes an entry. */
  method DownloadEntries(fs: RemoteFs, remoteDir: string, localDir: string, entries: seq<EntryInfo>, disk: LocalDisk, fuel: nat)
    returns (ok: bool)
    modifies disk
    ensures var w := Chain(EntrySteps(fs, disk.blocked, remoteDir, localDir, entries, fuel));
      ok == w.ok && disk.State() == Replay(old(disk.State()), w.trace)
    decreases fuel, |entries| + 1
  {
    ghost var blocked := disk.blocked;
    ghost var steps := EntrySteps(fs, blocked, remoteDir, localDir, entries, fuel);
    ghost var done: seq<Action> := [];
    assert steps[0..] == steps;
    for i := 0 to |entries|
      invariant ChainedFrom(steps, i, done)
      invariant disk.State() == Replay(old(disk.State()), done)
    {
      var entryOk := DownloadEntry(fs, remoteDir, localDir, entries[i], disk, fuel, entries, i);
      ReplayConcat(old(disk.State()), done, steps[i].trace);
      if !entryOk {
        ChainFails(steps, i, done);
        return false;
      }
      ChainAdvance(steps, i, done);
      done := done + steps[i].trace;
    }
    ChainEnds(steps, done);
    return true;
  }

  /** The listing itself changes nothing on the local side. */
  lemma FinishWalk(d: DiskState, remoteDir: string, done: seq<Action>)
    ensures Replay(d, [ListDir(remoteDir)] + done) == Replay(d, done)
  {
    ReplayConcat(d, [ListDir(remoteDir)], done);
    assert Replay(d, [ListDir(remoteDir)]) == d;
  }

  /** Running walks one after the other, stopping at the first that fails. */
  function Chain(steps: seq<Walked>): Walked
  {
    if steps == [] then Walked([], true)
    else if !steps[0].ok then steps[0]
    else
      var b := Chain(steps[1..]);
      Walked(steps[0].trace + b.trace, b.ok)
  }

  /** The chain of `steps` has produced `done` by the time it reaches step `i`, and
      continues with the chain of the steps from `i` on. */
  predicate ChainedFrom(steps: seq<Walked>, i: nat, done: seq<Action>)
    requires i <= |steps|
  {
    var rest := Chain(steps[i..]);
    Chain(steps) == Walked(done + rest.trace, rest.ok)
  }

  /** One turn of a chain. */
  lemma ChainStep(steps: seq<Walked>, i: nat)
    requires i < |steps|
    ensures var next := Chain(steps[i + 1..]);
      Chain(steps[i..]) == if !steps[i].ok then steps[i] else Walked(steps[i].trace + next.trace, next.ok)
  {
    assert steps[i..][0] == steps[i] && steps[i..][1..] == steps[i + 1..];
  }

  /** A step that succeeds adds its trace and hands on to the next. */
  lemma ChainAdvance(steps: seq<Walked>, i: nat, done: seq<Action>)
    requires i < |steps| && steps[i].ok && ChainedFrom(steps, i, done)
    ensures ChainedFrom(steps, i + 1, done + steps[i].trace)
  {
    ChainStep(steps, i);
    var next := Chain(steps[i + 1..]);
    assert done + (steps[i].trace + next.trace) == (done + steps[i].trace) + next.trace;
  }

  /** A step that fails ends the chain with its own trace. */
  lemma ChainFails(steps: seq<Walked>, i: nat, done: seq<Action>)
    requires i < |steps| && !steps[i].ok && ChainedFrom(steps, i, done)
    ensures Chain(steps) == Walked(done + steps[i].trace, false)
  {
    ChainStep(steps, i);
  }

  /** Past the last step the chain has succeeded with what it produced. */
  lemma ChainEnds(steps: seq<Walked>, done: seq<Action>)
    requires ChainedFrom(steps, |steps|, done)
    ensures Chain(steps) == Walked(done, true)
  {
    assert steps[|steps|..] == [];
    assert done + Chain([]).trace == done;
  }

  /** The walk of each entry of a listing, each on its own. */
  ghost function EntrySteps(fs: RemoteFs, blocked: set<string>, remoteDir: string, localDir: string, es: seq<EntryInfo>, fuel: nat): (r: seq<Walked>)
    ensures |r| == |es|
  {
    if es == [] then []
    else [EntryActions(fs, blocked, remoteDir, localDir, es[0], fuel)] + EntrySteps(fs, blocked, remoteDir, localDir, es[1..], fuel)
  }

  lemma {:induction false} EntryStepsAt(fs: RemoteFs, blocked: set<string>, remoteDir: string, localDir: string, es: seq<EntryInfo>, fuel: nat, j: nat)
    requires j < |es|
    ensures EntrySteps(fs, blocked, remoteDir, localDir, es, fuel)[j] == EntryActions(fs, blocked, remoteDir, localDir, es[j], fuel)
    decreases j
  {
    if j > 0 {
      EntryStepsAt(fs, blocked, remoteDir, localDir, es[1..], fuel, j - 1);
    }
  }

  /** The loop over a listing chains the walks of its entries. */
  lemma {:induction false} WalkEntriesIsChain(fs: RemoteFs, blocked: set<string>, remoteDir: string, localDir: string, es: seq<EntryInfo>, fuel: nat)
    ensures WalkEntries(fs, blocked, remoteDir, localDir, es, fuel) == Chain(EntrySteps(fs, blocked, remoteDir, localDir, es, fuel))
    decreases |es|
  {
    if es != [] {
      var steps := EntrySteps(fs, blocked, remoteDir, localDir, es, fuel);
      assert steps[1..] == EntrySteps(fs, blocked, remoteDir, localDir, es[1..], fuel);
      WalkEntriesIsChain(fs, blocked, remoteDir, localDir, es[1..], fuel);
    }
  }

  /** The body of the loop over the entries, for `entry`, the entry at `k` of the
      listing `es`. */
  method DownloadEntry(fs: RemoteFs, remoteDir: string, localDir: string, entry: EntryInfo, disk: LocalDisk, fuel: nat,
                       ghost es: seq<EntryInfo>, ghost k: nat)
    returns (ok: bool)
    requires k < |es| && es[k] == entry
    modifies disk
    ensures var w := EntrySteps(fs, disk.blocked, remoteDir, localDir, es, fuel)[k];
      ok == w.ok && disk.State() == Replay(old(disk.State()), w.trace)
    decreases fuel, 1
  {
    EntryStepsAt(fs, disk.blocked, remoteDir, localDir, es, fuel, k);
    if "." <= entry.name {
      return true;
    }
    if !(remoteDir <= entry.path) {
      return true;
    }
    if entry.kind == DirEntry {
      var relativePath := Relpath(entry.path, remoteDir);
      var newLocalDir := Join(localDir, relativePath);
      disk.MakeDirs(newLocalDir);
      ghost var mid := disk.State();
      ok := DownloadFilesFromSandbox(fs, entry.path, newLocalDir, disk, fuel);
      ghost var sub := WalkDir(fs, disk.blocked, entry.path, newLocalDir, fuel);
      assert EntryActions(fs, disk.blocked, remoteDir, localDir, entry, fuel) == Walked([MakeDirs(newLocalDir)] + sub.trace, sub.ok);
      ReplayConcat(old(disk.State()), [MakeDirs(newLocalDir)], sub.trace);
      assert Replay(old(disk.State()), [MakeDirs(newLocalDir)]) == mid;
    } else {
      var relativePath := Relpath(entry.path, remoteDir);
      var localPath := Join(localDir, relativePath);
      var parent := Dirname(localPath);
      if parent == [] {
        return false;
      }
      disk.MakeDirs(parent);
      ghost var w := FileWrite(fs, disk.blocked, entry.path, localPath);
      if entry.path in fs.contents {
        var content := fs.contents[entry.path];
        if localPath !in disk.blocked {
          var data := match content case Text(s) => EncodeUtf8(s) case Binary(b) => b;
          disk.Write(localPath, data);
        }
      }
      var head := [MakeDirs(parent), ReadFile(entry.path)];
      assert EntryActions(fs, disk.blocked, remoteDir, localDir, entry, fuel) == Walked(head + w, true);
      ReplayConcat(old(disk.State()), head, w);
      assert head[1..] == [ReadFile(entry.path)] && head[1..][1..] == [];
      ghost var made := Perform(old(disk.State()), MakeDirs(parent));
      assert Replay(made, head[1..][1..]) == made;
      assert Replay(made, head[1..]) == made;
      assert Replay(old(disk.State()), head) == made;
      assert Replay(made, w) == disk.State();
      ok := true;
    }
  }

  // ---------------------------------------------------------------------------------
  // Properties of the walk

  /** The remote path an action touches, if any. */
  function RemoteOf(a: Action): Option<string>
  {
    match a
    case ListDir(r) => Some(r)
    case ReadFile(r) => Some(r)
    case _ => None
  }

  /** Every remote path the trace touches has `root` as a prefix. */
  predicate RemoteUnder(t: seq<Action>, root: string)
  {
    forall i :: 0 <= i < |t| && RemoteOf(t[i]).Some? ==> root <= RemoteOf(t[i]).value
  }

  lemma PrefixTransitive(a: string, b: string, c: string)
    requires a <= b && b <= c
    ensures a <= c
  {
    assert c[..|a|] == b[..|a|];
  }

  lemma RemoteUnderConcat(a: seq<Action>, b: seq<Action>, root: string)
    requires RemoteUnder(a, root) && RemoteUnder(b, root)
    ensures RemoteUnder(a + b, root)
  {
    forall i | 0 <= i < |a + b| && RemoteOf((a + b)[i]).Some?
      ensures root <= RemoteOf((a + b)[i]).value
    {
      if i >= |a| {
        assert (a + b)[i] == b[i - |a|];
      }
    }
  }

  /** The download never leaves the tree it starts from: every listing and every read
      is of a path that has the starting directory as a prefix. */
  lemma {:induction false} WalkDirUnderRoot(fs: RemoteFs, blocked: set<string>, remoteDir: string, localDir: string, fuel: nat, root: string)
    requires root <= remoteDir
    ensures RemoteUnder(WalkDir(fs, blocked, remoteDir, localDir, fuel).trace, root)
    decreases fuel, 0
  {
    if fuel > 0 && remoteDir in fs.listings {
      var w := WalkEntries(fs, blocked, remoteDir, localDir, fs.listings[remoteDir], fuel - 1);
      WalkEntriesUnderRoot(fs, blocked, remoteDir, localDir, fs.listings[remoteDir], fuel - 1, root);
      RemoteUnderConcat([ListDir(remoteDir)], w.trace, root);
    }
  }

  lemma {:induction false} WalkEntriesUnderRoot(fs: RemoteFs, blocked: set<string>, remoteDir: string, localDir: string, es: seq<EntryInfo>, fuel: nat, root: string)
    requires root <= remoteDir
    ensures RemoteUnder(WalkEntries(fs, blocked, remoteDir, localDir, es, fuel).trace, root)
    decreases fuel, |es| + 1
  {
    if es != [] {
      var a := EntryActions(fs, blocked, remoteDir, localDir, es[0], fuel);
      EntryActionsUnderRoot(fs, blocked, remoteDir, localDir, es[0], fuel, root);
      if a.ok {
        var b := WalkEntries(fs, blocked, remoteDir, localDir, es[1..], fuel);
        WalkEntriesUnderRoot(fs, blocked, remoteDir, localDir, es[1..], fuel, root);
        RemoteUnderConcat(a.trace, b.trace, root);
      }
    }
  }

  lemma {:induction false} EntryActionsUnderRoot(fs: RemoteFs, blocked: set<string>, remoteDir: string, localDir: string, e: EntryInfo, fuel: nat, root: string)
    requires root <= remoteDir
    ensures RemoteUnder(EntryActions(fs, blocked, remoteDir, localDir, e, fuel).trace, root)
    decreases fuel, 1
  {
    if Kept(e, remoteDir) {
      PrefixTransitive(root, remoteDir, e.path);
      var local := LocalPathOf(e, remoteDir, localDir);
      if e.kind == DirEntry {
        WalkDirUnderRoot(fs, blocked, e.path, local, fuel, root);
        RemoteUnderConcat([MakeDirs(local)], WalkDir(fs, blocked, e.path, local, fuel).trace, root);
      } else {
        var parent := Dirname(local);
        if parent != [] {
          RemoteUnderConcat([MakeDirs(parent), ReadFile(e.path)], FileWrite(fs, blocked, e.path, local), root);
        }
      }
    }
  }

  /** The entries of a listing that pass both filters. */
  function KeptEntries(es: seq<EntryInfo>, remoteDir: string): (r: seq<EntryInfo>)
    ensures forall i :: 0 <= i < |r| ==> Kept(r[i], remoteDir)
  {
    if es == [] then []
    else (if Kept(es[0], remoteDir) then [es[0]] else []) + KeptEntries(es[1..], remoteDir)
  }

  /** Hidden entries and entries outside the listed directory play no part: the loop
      behaves as if the listing held only the kept entries. */
  lemma {:induction false} OnlyKeptEntriesMatter(fs: RemoteFs, blocked: set<string>, remoteDir: string, localDir: string, es: seq<EntryInfo>, fuel: nat)
    ensures WalkEntries(fs, blocked, remoteDir, localDir, es, fuel) ==
      WalkEntries(fs, blocked, remoteDir, localDir, KeptEntries(es, remoteDir), fuel)
  {
    if es != [] {
      OnlyKeptEntriesMatter(fs, blocked, remoteDir, localDir, es[1..], fuel);
      var ks := KeptEntries(es, remoteDir);
      if Kept(es[0], remoteDir) {
        assert ks[0] == es[0] && ks[1..] == KeptEntries(es[1..], remoteDir);
      } else {
        assert ks == KeptEntries(es[1..], remoteDir);
        var b := WalkEntries(fs, blocked, remoteDir, localDir, es[1..], fuel);
        assert Walked([] + b.trace, b.ok) == b;
      }
    }
  }

  /** The trace without its writes: what the download does apart from writing files. */
  function Skeleton(t: seq<Action>): seq<Action>
  {
    if t == [] then [] else (if t[0].WriteFile? then [] else [t[0]]) + Skeleton(t[1..])
  }

  lemma {:induction false} SkeletonConcat(a: seq<Action>, b: seq<Action>)
    ensures Skeleton(a + b) == Skeleton(a) + Skeleton(b)
  {
    if a != [] {
      assert (a + b)[0] == a[0] && (a + b)[1..] == a[1..] + b;
      SkeletonConcat(a[1..], b);
    } else {
      assert a + b == b;
    }
  }

  lemma SkeletonOfFileWrite(fs: RemoteFs, blocked: set<string>, remote: string, local: string)
    ensures Skeleton(FileWrite(fs, blocked, remote, local)) == []
  {
  }

  /** Failed reads and failed writes never stop the download: with the same listings,
      whatever files can be read or written, the download runs to the same end and
      lists, reads and makes the same paths. */
  lemma {:induction false} ReadsDoNotSteerWalkDir(fs1: RemoteFs, fs2: RemoteFs, b1: set<string>, b2: set<string>,
                                                   remoteDir: string, localDir: string, fuel: nat)
    requires fs1.listings == fs2.listings
    ensures var w1, w2 := WalkDir(fs1, b1, remoteDir, localDir, fuel), WalkDir(fs2, b2, remoteDir, localDir, fuel);
      w1.ok == w2.ok && Skeleton(w1.trace) == Skeleton(w2.trace)
    decreases fuel, 0
  {
    if fuel > 0 && remoteDir in fs1.listings {
      var es := fs1.listings[remoteDir];
      ReadsDoNotSteerWalkEntries(fs1, fs2, b1, b2, remoteDir, localDir, es, fuel - 1);
      SkeletonConcat([ListDir(remoteDir)], WalkEntries(fs1, b1, remoteDir, localDir, es, fuel - 1).trace);
      SkeletonConcat([ListDir(remoteDir)], WalkEntries(fs2, b2, remoteDir, localDir, es, fuel - 1).trace);
    }
  }

  lemma {:induction false} ReadsDoNotSteerWalkEntries(fs1: RemoteFs, fs2: RemoteFs, b1: set<string>, b2: set<string>,
                                                       remoteDir: string, localDir: string, es: seq<EntryInfo>, fuel: nat)
    requires fs1.listings == fs2.listings
    ensures var w1, w2 := WalkEntries(fs1, b1, remoteDir, localDir, es, fuel), WalkEntries(fs2, b2, remoteDir, localDir, es, fuel);
      w1.ok == w2.ok && Skeleton(w1.trace) == Skeleton(w2.trace)
    decreases fuel, |es| + 1
  {
    if es != [] {
      var a1, a2 := EntryActions(fs1, b1, remoteDir, localDir, es[0], fuel), EntryActions(fs2, b2, remoteDir, localDir, es[0], fuel);
      ReadsDoNotSteerEntry(fs1, fs2, b1, b2, remoteDir, localDir, es[0], fuel);
      if a1.ok {
        var r1, r2 := WalkEntries(fs1, b1, remoteDir, localDir, es[1..], fuel), WalkEntries(fs2, b2, remoteDir, localDir, es[1..], fuel);
        ReadsDoNotSteerWalkEntries(fs1, fs2, b1, b2, remoteDir, localDir, es[1..], fuel);
        SkeletonConcat(a1.trace, r1.trace);
        SkeletonConcat(a2.trace, r2.trace);
      }
    }
  }

  lemma {:induction false} ReadsDoNotSteerEntry(fs1: RemoteFs, fs2: RemoteFs, b1: set<string>, b2: set<string>,
                                                 remoteDir: string, localDir: string, e: EntryInfo, fuel: nat)
    requires fs1.listings == fs2.listings
    ensures var w1, w2 := EntryActions(fs1, b1, remoteDir, localDir, e, fuel), EntryActions(fs2, b2, remoteDir, localDir, e, fuel);
      w1.ok == w2.ok && Skeleton(w1.trace) == Skeleton(w2.trace)
    decreases fuel, 1
  {
    if Kept(e, remoteDir) {
      var local := LocalPathOf(e, remoteDir, localDir);
      if e.kind == DirEntry {
        ReadsDoNotSteerWalkDir(fs1, fs2, b1, b2, e.path, local, fuel);
        SkeletonConcat([MakeDirs(local)], WalkDir(fs1, b1, e.path, local, fuel).trace);
        SkeletonConcat([MakeDirs(local)], WalkDir(fs2, b2, e.path, local, fuel).trace);
      } else {
        var parent := Dirname(local);
        if parent != [] {
          var head := [MakeDirs(parent), ReadFile(e.path)];
          SkeletonConcat(head, FileWrite(fs1, b1, e.path, local));
          SkeletonConcat(head, FileWrite(fs2, b2, e.path, local));
          SkeletonOfFileWrite(fs1, b1, e.path, local);
          SkeletonOfFileWrite(fs2, b2, e.path, local);
        }
      }
    }
  }

  /** A kept file of a listing that the loop gets through is written, UTF-8 encoded
      when it is text, whenever it can be read and its local path opened, whatever
      happened to the other files. */
  lemma {:induction false} ReadableFileWritten(fs: RemoteFs, blocked: set<string>, remoteDir: string, localDir: string,
                                               es: seq<EntryInfo>, fuel: nat, k: nat)
    requires WalkEntries(fs, blocked, remoteDir, localDir, es, fuel).ok
    requires k < |es| && Kept(es[k], remoteDir) && es[k].kind == FileEntry && es[k].path in fs.contents
    requires LocalPathOf(es[k], remoteDir, localDir) !in blocked
    ensures WriteFile(LocalPathOf(es[k], remoteDir, localDir), Bytes(fs.contents[es[k].path]))
      in WalkEntries(fs, blocked, remoteDir, localDir, es, fuel).trace
  {
    var a := EntryActions(fs, blocked, remoteDir, localDir, es[0], fuel);
    var b := WalkEntries(fs, blocked, remoteDir, localDir, es[1..], fuel);
    var w := LocalPathOf(es[k], remoteDir, localDir);
    var x := WriteFile(w, Bytes(fs.contents[es[k].path]));
    if k == 0 {
      assert a.trace[2] == x;
    } else {
      ReadableFileWritten(fs, blocked, remoteDir, localDir, es[1..], fuel, k - 1);
    }
    InConcat(a.trace, b.trace, x);
  }

  /** The local path of a child entry: an entry listed under the directory it names
      is written to the local directory under its own name. */
  lemma ChildLocalPath(remoteDir: string, localDir: string, name: string, kind: EntryKind)
    requires name != [] && NoSlash(name)
    ensures LocalPathOf(EntryInfo(name, remoteDir + "/" + name, kind), remoteDir, localDir) == Join(localDir, name)
  {
    RelpathOfChild(remoteDir, name);
  }

  /** The path filter is a string-prefix test: an entry of a sibling directory whose
      name extends the listed directory's name passes it, and its local path climbs out
      of the local directory with "..". */
  lemma PrefixTestAdmitsSibling(base: string, a: string, x: string, name: string, localDir: string)
    requires a != [] && NoSlash(a) && x != [] && NoSlash(x) && name != [] && NoSlash(name) && name[0] != '.'
    requires localDir != [] && localDir[|localDir| - 1] != '/'
    ensures var e := EntryInfo(name, base + "/" + (a + x) + "/" + name, FileEntry);
      Kept(e, base + "/" + a) &&
      LocalPathOf(e, base + "/" + a, localDir) == localDir + "/../" + (a + x) + "/" + name
  {
    NoSlashConcat(a, x);
    SiblingKept(base, a, x, name);
    SiblingLocalPath(base, a, a + x, name, localDir);
  }

  lemma SiblingKept(base: string, a: string, x: string, name: string)
    requires name != [] && name[0] != '.'
    ensures Kept(EntryInfo(name, base + "/" + (a + x) + "/" + name, FileEntry), base + "/" + a)
  {
    assert base + "/" + (a + x) + "/" + name == (base + "/" + a) + (x + "/" + name);
    assert "." <= name <==> name[0] == '.';
  }

  lemma SiblingLocalPath(base: string, a: string, b: string, name: string, localDir: string)
    requires a != [] && NoSlash(a) && b != [] && NoSlash(b) && name != [] && NoSlash(name) && |a| < |b|
    requires localDir != [] && localDir[|localDir| - 1] != '/'
    ensures LocalPathOf(EntryInfo(name, base + "/" + b + "/" + name, FileEntry), base + "/" + a, localDir) ==
      localDir + "/../" + b + "/" + name
  {
    RelpathOfSibling(base, a, b, name);
    var rel := "../" + b + "/" + name;
    assert Join(localDir, rel) == localDir + "/" + rel;
    assert localDir + "/" + rel == localDir + "/../" + b + "/" + name by {
      assert "/" + "../" == "/../";
    }
  }

  // ---------------------------------------------------------------------------------
  // `build_website`

  const IssueTitle := "Build MVP Website"
  const BaseBranch := "main"
  const SandboxRoot := "/home/user"

  function BranchName(n: nat): string
  {
    "feature/mvp-website-" + NatToDecimal(n)
  }

  function CommitMessage(n: nat): string
  {
    "Create MVP website for #" + NatToDecimal(n)
  }

  function PullRequestTitle(n: nat): string
  {
    "Fixes #" + NatToDecimal(n) + ": " + IssueTitle
  }

  lemma DecimalInjective(n: nat, m: nat)
    requires NatToDecimal(n) == NatToDecimal(m)
    ensures n == m
  {
    NatToDecimalCorrect(n);
    NatToDecimalCorrect(m);
  }

  /** The branch name, the commit message and the pull-request title each determine the
      issue number they were made from. */
  lemma NamesDetermineIssue(n: nat, m: nat)
    ensures BranchName(n) == BranchName(m) ==> n == m
    ensures CommitMessage(n) == CommitMessage(m) ==> n == m
    ensures PullRequestTitle(n) == PullRequestTitle(m) ==> n == m
  {
    var p1, p2, p3 := "feature/mvp-website-", "Create MVP website for #", "Fixes #";
    if BranchName(n) == BranchName(m) {
      assert BranchName(n)[|p1|..] == NatToDecimal(n);
      assert BranchName(m)[|p1|..] == NatToDecimal(m);
      DecimalInjective(n, m);
    }
    if CommitMessage(n) == CommitMessage(m) {
      assert CommitMessage(n)[|p2|..] == NatToDecimal(n);
      assert CommitMessage(m)[|p2|..] == NatToDecimal(m);
      DecimalInjective(n, m);
    }
    if PullRequestTitle(n) == PullRequestTitle(m) {
      TitleReferencesIssue(n);
      TitleReferencesIssue(m);
      var dn, dm := NatToDecimal(n), NatToDecimal(m);
      assert |dn| == |dm|;
      assert dn == PullRequestTitle(n)[|p3|..|p3| + |dn|] == dm;
      DecimalInjective(n, m);
    }
  }

  /** The pull-request title starts with the closing keyword "Fixes #", the decimal
      issue number, and a ':' that ends the number. */
  lemma TitleReferencesIssue(n: nat)
    ensures var d := NatToDecimal(n); var t := PullRequestTitle(n);
      t[..7] == "Fixes #" && t[7..7 + |d|] == d && t[7 + |d|] == ':' &&
      (forall i :: 7 <= i < 7 + |d| ==> IsDigit(t[i])) && DecimalValue(t[7..7 + |d|]) == n
  {
    NatToDecimalCorrect(n);
    var d := NatToDecimal(n);
    var t := PullRequestTitle(n);
    SliceParts("Fixes #", d, ": " + IssueTitle);
    assert t == "Fixes #" + d + (": " + IssueTitle);
    forall i | 7 <= i < 7 + |d| ensures IsDigit(t[i]) {
      assert t[i] == t[7..7 + |d|][i - 7];
    }
  }

  /** What `create_issue` and `create_pull_request` return on success. */
  datatype Issue = Issue(number: nat, htmlUrl: string)
  datatype PullRequest = PullRequest(htmlUrl: string)

  /** What each call of the pipeline returns, fixed in advance. */
  datatype Services = Services(
    token: Option<string>,               // GITHUB_TOKEN
    repoError: Option<string>,           // `get_repository` raising, with its message
    issue: Option<Issue>,                // `create_issue`
    structure: Option<seq<FileDescription>>,
    rankings: Option<seq<RankEntry>>,    // the two parsed completions of `define_website_structure`
    contents: seq<Option<string>>,       // `generate_file_content`, one per manifest entry
    installs: seq<Attempt>, installFixes: seq<Option<string>>,
    starts: seq<StartObservation>, startFixes: seq<Option<string>>,
    host: string,                        // `sandbox.get_host(port)`
    tempDir: string,                     // the temporary directory
    cloneOk: bool, branchOk: bool,       // `clone_repository`, `create_branch`
    sandboxFiles: RemoteFs,              // the sandbox as the download lists it
    fuel: nat,                           // the recursion depth left for the download
    downloadError: string,               // the message of an exception in the download
    commitOk: bool,                      // `commit_and_push_changes`
    pullRequest: Option<PullRequest>)    // `create_pull_request`

  /** The manifest `define_website_structure` returns for these completions. */
  function ManifestOf(s: Services): Option<seq<FileDescription>>
  {
    if s.structure.None? || s.rankings.None? then None else Some(Normalised(s.structure.value, s.rankings.value))
  }

  /** There is one content reply per file of the manifest. */
  predicate ContentsFit(s: Services)
  {
    ManifestOf(s).Some? ==> |s.contents| == |ManifestOf(s).value|
  }

  /** Each retry loop has an answer for each of its tries. */
  predicate WellSized(s: Services)
  {
    MaxRetries <= |s.installs| && MaxRetries - 1 <= |s.installFixes| &&
    MaxRetries <= |s.starts| && MaxRetries - 1 <= |s.startFixes|
  }

  /** An effect of `build_website` on GitHub, git, the server or the disk. */
  datatype Effect =
    | GetRepository(fullName: string)
    | CreateIssue(title: string)
    | Clone(url: string, dir: string)
    | CreateBranch(dir: string, branch: string)
    | Download(remoteDir: string, localDir: string)
    | Commit(dir: string, message: string)
    | OpenPullRequest(head: string, base: string, title: string, websiteUrl: string)
    | StopServer(process: ServerProcess)

  /** The dictionary `build_website` returns. */
  datatype BuildResult =
    | Success(message: string, issueUrl: string, prUrl: string, websiteUrl: string)
    | Failure(message: string)

  /** Where the pipeline ends. */
  datatype Stage =
    | ParseFailed(error: string) | RepoFailed(error: string) | IssueFailed | GenerateFailed | RunFailed
    | CloneFailed | BranchFailed | DownloadFailed | CommitFailed | PullRequestFailed | Completed

  /** The first step that fails, given what every call returns. */
  function StageOf(repoUrl: string, publicAccess: bool, s: Services, blocked: set<string>): Stage
    requires WellSized(s)
  {
    StageAfterParse(ParseRepoUrl(repoUrl), publicAccess, s, blocked)
  }

  /** Where the pipeline ends, given what parsing the URL gave. */
  function StageAfterParse(parsed: Result<string, string>, publicAccess: bool, s: Services, blocked: set<string>): Stage
    requires WellSized(s)
  {
    if parsed.Err? then ParseFailed(parsed.error)
    else if s.repoError.Some? then RepoFailed(s.repoError.value)
    else if s.issue.None? then IssueFailed
    else LaterStage(publicAccess, s, blocked)
  }

  /** Where the pipeline ends once the issue exists. */
  function LaterStage(publicAccess: bool, s: Services, blocked: set<string>): (st: Stage)
    requires WellSized(s)
    ensures 2 <= Reached(st)
  {
    if SandboxStage(publicAccess, s).Some? then SandboxStage(publicAccess, s).value
    else PublishStage(s, blocked)
  }

  /** Where the sandbox steps fail, if they do: no manifest (a reply that could not be
      parsed; a manifest is never empty, as it holds the essential files), or the
      install or the start loop giving up. */
  function SandboxStage(publicAccess: bool, s: Services): (r: Option<Stage>)
    requires WellSized(s)
    ensures r.Some? ==> r.value == GenerateFailed || r.value == RunFailed
  {
    if s.structure.None? || s.rankings.None? then Some(GenerateFailed)
    else if FirstSuccess(s.installs, MaxRetries) == MaxRetries ||
            FirstSuccess(StartAttempts(ModeFor(publicAccess), s.starts), MaxRetries) == MaxRetries then Some(RunFailed)
    else None
  }

  /** The first step that fails once the website runs: the part of `build_website`
      inside the temporary directory. */
  function PublishStage(s: Services, blocked: set<string>): Stage
  {
    if !s.cloneOk then CloneFailed
    else if !s.branchOk then BranchFailed
    else if !WalkDir(s.sandboxFiles, blocked, SandboxRoot, s.tempDir, s.fuel).ok then DownloadFailed
    else PushStage(s)
  }

  /** The first step that fails once the files are in the clone. */
  function PushStage(s: Services): Stage
  {
    if !s.commitOk then CommitFailed
    else if s.pullRequest.None? then PullRequestFailed
    else Completed
  }

  /** The failures that come after the server was started and that `build_website`
      reports itself (not through an exception). */
  predicate StopsServer(st: Stage)
  {
    st == CloneFailed || st == BranchFailed || st == CommitFailed || st == PullRequestFailed
  }

  /** The messages `build_website` reports. */
  const IssueFailedMessage := "Failed to create issue"
  const GenerateFailedMessage := "Failed to generate website"
  const RunFailedMessage := "Failed to run website"
  const CloneFailedMessage := "Failed to clone repository"
  const BranchFailedMessage := "Failed to create branch"
  const CommitFailedMessage := "Failed to commit and push changes"
  const PullRequestFailedMessage := "Failed to create pull request"
  const CompletedMessage := "Successfully created MVP website"

  /** The message of each way the pipeline ends. */
  function MessageOf(st: Stage, downloadError: string): string
  {
    match st
    case ParseFailed(e) => "Error: " + e
    case RepoFailed(e) => "Error: " + e
    case IssueFailed => IssueFailedMessage
    case GenerateFailed => GenerateFailedMessage
    case RunFailed => RunFailedMessage
    case CloneFailed => CloneFailedMessage
    case BranchFailed => BranchFailedMessage
    case DownloadFailed => "Error: " + downloadError
    case CommitFailed => CommitFailedMessage
    case PullRequestFailed => PullRequestFailedMessage
    case Completed => CompletedMessage
  }

  /** The effects of a run that goes all the way, in their order: check the repository,
      open the issue, clone, branch, download, commit and push, open the pull request.
      `n` is the issue number and `url` the website's URL. */
  function Planned(repoUrl: string, s: Services, fullName: string, n: nat, url: string): (r: seq<Effect>)
    ensures |r| == 7
  {
    [GetRepository(fullName), CreateIssue(IssueTitle)] + PublishPlanned(repoUrl, s, n, url)
  }

  /** The planned effects from the clone onward. */
  function PublishPlanned(repoUrl: string, s: Services, n: nat, url: string): (r: seq<Effect>)
    ensures |r| == 5
  {
    [Clone(AuthRepoUrl(repoUrl, s.token), s.tempDir), CreateBranch(s.tempDir, BranchName(n)),
     Download(SandboxRoot, s.tempDir), Commit(s.tempDir, CommitMessage(n)),
     OpenPullRequest(BranchName(n), BaseBranch, PullRequestTitle(n), url)]
  }

  /** The first planned effects from the clone onward, one by one. */
  lemma PublishPlannedStarts(repoUrl: string, s: Services, n: nat, url: string)
    ensures var planned := PublishPlanned(repoUrl, s, n, url);
      planned[..1] == [Clone(AuthRepoUrl(repoUrl, s.token), s.tempDir)] &&
      planned[..2] == planned[..1] + [CreateBranch(s.tempDir, BranchName(n))] &&
      planned[..3] == planned[..2] + [Download(SandboxRoot, s.tempDir)]
  {
  }

  /** The planned effects up to `k` are the first three and those after them. */
  lemma PublishPlannedSplit(repoUrl: string, s: Services, n: nat, url: string, k: nat)
    requires 3 <= k <= 5
    ensures var planned := PublishPlanned(repoUrl, s, n, url);
      planned[..k] == planned[..3] + planned[3..k]
  {
  }

  /** How many of the planned effects happen before the pipeline ends at `st`: the
      failing call itself is issued, the steps after it are not. */
  function Reached(st: Stage): (k: nat)
    ensures k <= 7
    ensures StopsServer(st) ==> 3 <= k
  {
    match st
    case ParseFailed(_) => 0
    case RepoFailed(_) => 1
    case IssueFailed => 2
    case GenerateFailed => 2
    case RunFailed => 2
    case CloneFailed => 3
    case BranchFailed => 4
    case DownloadFailed => 5
    case CommitFailed => 6
    case PullRequestFailed => 7
    case Completed => 7
  }

  /** The process of the server `run_website_in_sandbox` starts. */
  function ProcessOf(publicAccess: bool, s: Services): ServerProcess
    requires WellSized(s)
  {
    ServerProcess(ModeFor(publicAccess), FirstSuccess(StartAttempts(ModeFor(publicAccess), s.starts), MaxRetries))
  }

  /** The planned effects up to the point where the run ends, and the stop of the
      server for the failures that stop it. */
  function EffectsUpTo(st: Stage, planned: seq<Effect>, process: ServerProcess): seq<Effect>
    requires |planned| == 7
  {
    planned[..Reached(st)] + (if StopsServer(st) then [StopServer(process)] else [])
  }

  /** The number of the issue, once it exists. */
  function IssueNumber(s: Services): nat
  {
    if s.issue.Some? then s.issue.value.number else 0
  }

  /** The full name the pipeline looks up, once the URL parsed. */
  function FullName(parsed: Result<string, string>): string
  {
    if parsed.Ok? then parsed.value else ""
  }

  /** The effects of `build_website` for these inputs. */
  function EffectsOf(repoUrl: string, publicAccess: bool, s: Services, blocked: set<string>): seq<Effect>
    requires WellSized(s)
  {
    EffectsAfterParse(repoUrl, ParseRepoUrl(repoUrl), publicAccess, s, blocked)
  }

  /** The effects of `build_website`, given what parsing the URL gave. */
  function EffectsAfterParse(repoUrl: string, parsed: Result<string, string>, publicAccess: bool, s: Services,
                             blocked: set<string>): seq<Effect>
    requires WellSized(s)
  {
    EffectsUpTo(StageAfterParse(parsed, publicAccess, s, blocked),
      Planned(repoUrl, s, FullName(parsed), IssueNumber(s), "https://" + s.host), ProcessOf(publicAccess, s))
  }

  /** A run's effects are a prefix of the plan, and the server is stopped exactly when
      the run ends in a failure that stops it, once, as the last effect. */
  lemma EffectsUpToStops(st: Stage, planned: seq<Effect>, process: ServerProcess)
    requires |planned| == 7 && forall i :: 0 <= i < 7 ==> !planned[i].StopServer?
    ensures var e := EffectsUpTo(st, planned, process);
      |e| == Reached(st) + (if StopsServer(st) then 1 else 0) &&
      e[..Reached(st)] == planned[..Reached(st)] &&
      ((exists i :: 0 <= i < |e| && e[i].StopServer?) <==> StopsServer(st)) &&
      (StopsServer(st) ==> e[|e| - 1] == StopServer(process))
  {
    var e := EffectsUpTo(st, planned, process);
    if StopsServer(st) {
      assert e[|e| - 1].StopServer?;
    }
  }

  /** The cleanup rule of `build_website`: a failure before the server runs (the URL,
      the repository, the issue, the generation, the launch) and the exception of the
      download leave it running; a failed clone, branch, commit or pull request stops
      it, once, as the last thing the run does. */
  lemma CleanupDiscipline(repoUrl: string, publicAccess: bool, s: Services, blocked: set<string>)
    requires WellSized(s)
    ensures var st := StageOf(repoUrl, publicAccess, s, blocked);
      var e := EffectsOf(repoUrl, publicAccess, s, blocked);
      ((exists i :: 0 <= i < |e| && e[i].StopServer?) <==>
        st == CloneFailed || st == BranchFailed || st == CommitFailed || st == PullRequestFailed) &&
      (StopsServer(st) ==>
        e[|e| - 1] == StopServer(ProcessOf(publicAccess, s)) && forall i :: 0 <= i < |e| - 1 ==> !e[i].StopServer?)
  {
    CleanupAfterParse(repoUrl, ParseRepoUrl(repoUrl), publicAccess, s, blocked);
  }

  lemma CleanupAfterParse(repoUrl: string, parsed: Result<string, string>, publicAccess: bool, s: Services, blocked: set<string>)
    requires WellSized(s)
    ensures var st := StageAfterParse(parsed, publicAccess, s, blocked);
      var e := EffectsAfterParse(repoUrl, parsed, publicAccess, s, blocked);
      ((exists i :: 0 <= i < |e| && e[i].StopServer?) <==> StopsServer(st)) &&
      (StopsServer(st) ==>
        e[|e| - 1] == StopServer(ProcessOf(publicAccess, s)) && forall i :: 0 <= i < |e| - 1 ==> !e[i].StopServer?)
  {
    var st := StageAfterParse(parsed, publicAccess, s, blocked);
    var planned := Planned(repoUrl, s, FullName(parsed), IssueNumber(s), "https://" + s.host);
    assert forall i :: 0 <= i < 7 ==> !planned[i].StopServer?;
    EffectsUpToStops(st, planned, ProcessOf(publicAccess, s));
  }

  /** A completed run performs the whole plan, in order, and leaves the server running. */
  lemma CompletedRunsPlan(repoUrl: string, publicAccess: bool, s: Services, blocked: set<string>)
    requires WellSized(s) && StageOf(repoUrl, publicAccess, s, blocked) == Completed
    ensures ParseRepoUrl(repoUrl).Ok? && s.issue.Some?
    ensures EffectsOf(repoUrl, publicAccess, s, blocked) ==
      Planned(repoUrl, s, ParseRepoUrl(repoUrl).value, s.issue.value.number, "https://" + s.host)
  {
    var parsed := ParseRepoUrl(repoUrl);
    var planned := Planned(repoUrl, s, FullName(parsed), IssueNumber(s), "https://" + s.host);
    assert planned[..7] == planned;
  }

  /** The stages after which the remote files were downloaded (in full or in part). */
  predicate Downloads(st: Stage)
  {
    5 <= Reached(st)
  }

  /** The first two planned effects come before the ones from the clone onward. */
  lemma PlannedPrefix(repoUrl: string, s: Services, fullName: string, n: nat, url: string, k: nat)
    requires 2 <= k <= 7
    ensures Planned(repoUrl, s, fullName, n, url)[..k] ==
      [GetRepository(fullName), CreateIssue(IssueTitle)] + PublishPlanned(repoUrl, s, n, url)[..k - 2]
  {
    var planned := Planned(repoUrl, s, fullName, n, url);
    assert planned[..k] == planned[..2] + planned[2..][..k - 2];
  }

  /** The effects from the clone onward, for a run that got as far as the issue
      numbered `n`. */
  function LaterEffects(repoUrl: string, publicAccess: bool, s: Services, n: nat, blocked: set<string>): seq<Effect>
    requires WellSized(s)
  {
    var st := LaterStage(publicAccess, s, blocked);
    PublishPlanned(repoUrl, s, n, "https://" + s.host)[..Reached(st) - 2] +
      (if StopsServer(st) then [StopServer(ProcessOf(publicAccess, s))] else [])
  }

  /** The later stage and effects, split on whether the sandbox steps succeed. */
  lemma LaterCases(repoUrl: string, publicAccess: bool, s: Services, n: nat, blocked: set<string>)
    requires WellSized(s)
    ensures SandboxStage(publicAccess, s).Some? ==>
      LaterStage(publicAccess, s, blocked) == SandboxStage(publicAccess, s).value &&
      LaterEffects(repoUrl, publicAccess, s, n, blocked) == [] &&
      !Downloads(LaterStage(publicAccess, s, blocked))
    ensures SandboxStage(publicAccess, s).None? ==>
      var st := PublishStage(s, blocked);
      LaterStage(publicAccess, s, blocked) == st &&
      LaterEffects(repoUrl, publicAccess, s, n, blocked) ==
        PublishPlanned(repoUrl, s, n, "https://" + s.host)[..Reached(st) - 2] +
        (if StopsServer(st) then [StopServer(ProcessOf(publicAccess, s))] else []) &&
      (Downloads(st) <==> s.cloneOk && s.branchOk)
  {
  }

  /** Once the issue exists, the effects are the lookup, the issue, and the later ones. */
  lemma EffectsAfterIssue(repoUrl: string, parsed: Result<string, string>, publicAccess: bool, s: Services, blocked: set<string>)
    requires WellSized(s)
    requires parsed.Ok? && s.repoError.None? && s.issue.Some?
    ensures EffectsAfterParse(repoUrl, parsed, publicAccess, s, blocked) ==
      [GetRepository(parsed.value), CreateIssue(IssueTitle)] + LaterEffects(repoUrl, publicAccess, s, s.issue.value.number, blocked)
  {
    PlannedPrefix(repoUrl, s, parsed.value, s.issue.value.number, "https://" + s.host, Reached(LaterStage(publicAccess, s, blocked)));
  }

  /** `build_website(repoUrl, websiteDescription, publicAccess)`, with the calls'
      results in `s`, the sandbox `sb` (whatever it holds) and the local disk. */
  method BuildWebsite(repoUrl: string, websiteDescription: string, publicAccess: bool, s: Services, sb: Sandbox, disk: LocalDisk)
    returns (result: BuildResult, effects: seq<Effect>)
    requires WellSized(s) && ContentsFit(s)
    modifies sb, disk
    ensures var st := StageOf(repoUrl, publicAccess, s, disk.blocked);
      result.message == MessageOf(st, s.downloadError) && (result.Success? <==> st == Completed)
    ensures result.Success? ==>
      result.issueUrl == s.issue.value.htmlUrl && result.prUrl == s.pullRequest.value.htmlUrl &&
      result.websiteUrl == "https://" + s.host
    ensures effects == EffectsOf(repoUrl, publicAccess, s, disk.blocked)
    ensures disk.State() == if Downloads(StageOf(repoUrl, publicAccess, s, disk.blocked))
      then Replay(old(disk.State()), WalkDir(s.sandboxFiles, disk.blocked, SandboxRoot, s.tempDir, s.fuel).trace)
      else old(disk.State())
  {
    var parsed := ParseRepoUrl(repoUrl);
    result, effects := BuildFromParsed(repoUrl, parsed, websiteDescription, publicAccess, s, sb, disk);
  }

  /** `build_website` from the point where `parse_repo_url` returned or raised. */
  method BuildFromParsed(repoUrl: string, parsed: Result<string, string>, websiteDescription: string, publicAccess: bool,
                         s: Services, sb: Sandbox, disk: LocalDisk)
    returns (result: BuildResult, effects: seq<Effect>)
    requires WellSized(s) && ContentsFit(s)
    modifies sb, disk
    ensures var st := StageAfterParse(parsed, publicAccess, s, disk.blocked);
      result.message == MessageOf(st, s.downloadError) && (result.Success? <==> st == Completed)
    ensures result.Success? ==>
      result.issueUrl == s.issue.value.htmlUrl && result.prUrl == s.pullRequest.value.htmlUrl &&
      result.websiteUrl == "https://" + s.host
    ensures effects == EffectsAfterParse(repoUrl, parsed, publicAccess, s, disk.blocked)
    ensures disk.State() == if Downloads(StageAfterParse(parsed, publicAccess, s, disk.blocked))
      then Replay(old(disk.State()), WalkDir(s.sandboxFiles, disk.blocked, SandboxRoot, s.tempDir, s.fuel).trace)
      else old(disk.State())
  {
    if parsed.Err? {
      return Failure("Error: " + parsed.error), [];
    }
    if s.repoError.Some? {
      return Failure("Error: " + s.repoError.value), [GetRepository(parsed.value)];
    }
    effects := [GetRepository(parsed.value), CreateIssue(IssueTitle)];
    if s.issue.None? {
      return Failure(IssueFailedMessage), effects;
    }
    var later;
    result, later := BuildFromIssue(repoUrl, websiteDescription, publicAccess, s, s.issue.value, sb, disk);
    EffectsAfterIssue(repoUrl, parsed, publicAccess, s, disk.blocked);
    effects := effects + later;
  }

  /** The steps of `build_website` after the issue was opened: the sandbox steps, then
      the steps in the temporary directory. */
  method BuildFromIssue(repoUrl: string, websiteDescription: string, publicAccess: bool, s: Services, issue: Issue,
                        sb: Sandbox, disk: LocalDisk)
    returns (result: BuildResult, effects: seq<Effect>)
    requires WellSized(s) && ContentsFit(s)
    modifies sb, disk
    ensures var st := LaterStage(publicAccess, s, disk.blocked);
      result.message == MessageOf(st, s.downloadError) && (result.Success? <==> st == Completed)
    ensures result.Success? ==>
      result.issueUrl == issue.htmlUrl && result.prUrl == s.pullRequest.value.htmlUrl &&
      result.websiteUrl == "https://" + s.host
    ensures effects == LaterEffects(repoUrl, publicAccess, s, issue.number, disk.blocked)
    ensures disk.State() == if Downloads(LaterStage(publicAccess, s, disk.blocked))
      then Replay(old(disk.State()), WalkDir(s.sandboxFiles, disk.blocked, SandboxRoot, s.tempDir, s.fuel).trace)
      else old(disk.State())
  {
    LaterCases(repoUrl, publicAccess, s, issue.number, disk.blocked);
    var websiteInfo := BuildInSandbox(sb, websiteDescription, publicAccess, s);
    if websiteInfo.Stopped? {
      return Failure(websiteInfo.message), [];
    }
    result, effects := PublishWebsite(repoUrl, s, issue, websiteInfo.info, disk);
  }

  /** What the sandbox steps of `build_website` give: the running website, or the
      message of the step that failed. */
  datatype SandboxOutcome = Running(info: WebsiteInfo) | Stopped(message: string)

  /** The sandbox steps of `build_website`: generate the site into the sandbox, then
      install and start it. */
  method BuildInSandbox(sb: Sandbox, websiteDescription: string, publicAccess: bool, s: Services)
    returns (outcome: SandboxOutcome)
    requires WellSized(s) && ContentsFit(s)
    modifies sb
    ensures var st := SandboxStage(publicAccess, s);
      (outcome.Running? <==> st.None?) && (outcome.Stopped? ==> outcome.message == MessageOf(st.value, ""))
    ensures outcome.Running? ==> outcome.info == WebsiteInfo(ProcessOf(publicAccess, s), "https://" + s.host)
  {
    var manifest := DefineWebsiteStructure(s.structure, s.rankings);
    if manifest.Some? {
      NormalisedNonEmpty(s.structure.value, s.rankings.value);
    }
    var created, _ := GenerateWebsiteInSandbox(sb, manifest, websiteDescription, s.contents);
    if !created {
      return Stopped(GenerateFailedMessage);
    }
    var websiteInfo := RunWebsiteInSandbox(sb, publicAccess, s.installs, s.installFixes, s.starts, s.startFixes, s.host);
    if websiteInfo.None? {
      return Stopped(RunFailedMessage);
    }
    return Running(websiteInfo.value);
  }

  /** The `with tempfile.TemporaryDirectory()` block of `build_website`: clone, branch,
      download, commit and push, and open the pull request, stopping the server when a
      step reports failure. An exception in the download leaves the block without
      stopping it and reaches the outer handler, which reports its message. */
  method PublishWebsite(repoUrl: string, s: Services, issue: Issue, info: WebsiteInfo, disk: LocalDisk)
    returns (result: BuildResult, effects: seq<Effect>)
    modifies disk
    ensures var st := PublishStage(s, disk.blocked);
      result.message == MessageOf(st, s.downloadError) && (result.Success? <==> st == Completed)
    ensures result.Success? ==>
      result.issueUrl == issue.htmlUrl && result.prUrl == s.pullRequest.value.htmlUrl && result.websiteUrl == info.url
    ensures var st := PublishStage(s, disk.blocked);
      effects == PublishPlanned(repoUrl, s, issue.number, info.url)[..Reached(st) - 2] +
        (if StopsServer(st) then [StopServer(info.process)] else [])
    ensures disk.State() == if s.cloneOk && s.branchOk
      then Replay(old(disk.State()), WalkDir(s.sandboxFiles, disk.blocked, SandboxRoot, s.tempDir, s.fuel).trace)
      else old(disk.State())
  {
    PublishPlannedStarts(repoUrl, s, issue.number, info.url);
    effects := [Clone(AuthRepoUrl(repoUrl, s.token), s.tempDir)];
    if !s.cloneOk {
      return Failure(CloneFailedMessage), effects + [StopServer(info.process)];
    }
    effects := effects + [CreateBranch(s.tempDir, BranchName(issue.number))];
    if !s.branchOk {
      return Failure(BranchFailedMessage), effects + [StopServer(info.process)];
    }
    effects := effects + [Download(SandboxRoot, s.tempDir)];
    var downloaded := DownloadFilesFromSandbox(s.sandboxFiles, SandboxRoot, s.tempDir, disk, s.fuel);
    if !downloaded {
      return Failure("Error: " + s.downloadError), effects;
    }
    var pushed;
    result, pushed := PushWebsite(repoUrl, s, issue, info);
    PublishPlannedSplit(repoUrl, s, issue.number, info.url, Reached(PushStage(s)) - 2);
    effects := effects + pushed;
  }

  /** The rest of the block once the sandbox's files are in the clone: commit and push,
      and open the pull request. */
  method PushWebsite(repoUrl: string, s: Services, issue: Issue, info: WebsiteInfo)
    returns (result: BuildResult, effects: seq<Effect>)
    ensures var st := PushStage(s);
      result.message == MessageOf(st, s.downloadError) && (result.Success? <==> st == Completed)
    ensures result.Success? ==>
      result.issueUrl == issue.htmlUrl && result.prUrl == s.pullRequest.value.htmlUrl && result.websiteUrl == info.url
    ensures var st := PushStage(s);
      effects == PublishPlanned(repoUrl, s, issue.number, info.url)[3..Reached(st) - 2] +
        (if StopsServer(st) then [StopServer(info.process)] else [])
  {
    effects := [Commit(s.tempDir, CommitMessage(issue.number))];
    if !s.commitOk {
      return Failure(CommitFailedMessage), effects + [StopServer(info.process)];
    }
    effects := effects + [OpenPullRequest(BranchName(issue.number), BaseBranch, PullRequestTitle(issue.number), info.url)];
    if s.pullRequest.None? {
      return Failure(PullRequestFailedMessage), effects + [StopServer(info.process)];
    }
    return Success(CompletedMessage, issue.htmlUrl, s.pullRequest.value.htmlUrl, info.url), effects;
  }
}
