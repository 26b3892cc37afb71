/** deploy_to_ec2.py: the ingress rules of the security group, the choice of local files
    to upload and where each goes on the instance, the continue-on-error command loop,
    and the bounded SSH wait. The AWS and SSH calls are oracles: their results are
    inputs. */
module DeployToEc2 {
  import opened Wrappers
  import opened Strings
  import opened PosixPath

  const AllowedIps := ["54.157.14.34/32", "47.230.210.140/32"]
  const AppDir := "/home/ubuntu/deploybot"
  const ServiceName := "deploybot"
  const SecurityGroupName := "deploybot-sg"
  const SecurityGroupDescription := "Security group for DeployBot FastAPI application"
  const RestrictedPorts := [80, 443, 8000]

  // ---------------------------------------------------------------------------------
  // Security group (`get_or_create_security_group`)

  /** One entry of `IpPermissions`: protocol, port range and the CIDR blocks of its
      `IpRanges`. */
  datatype IpPermission = IpPermission(protocol: string, fromPort: int, toPort: int, ipRanges: seq<string>)

  /** SSH from anywhere, for administration. */
  const SshRule := IpPermission("tcp", 22, 22, ["0.0.0.0/0"])

  /** A port open to the whitelisted addresses only. */
  function RestrictedRule(port: int): IpPermission
  {
    IpPermission("tcp", port, port, AllowedIps)
  }

  /** The rule list both branches authorize: the SSH rule, then one restricted rule per
      port of [80, 443, 8000], in that order. */
  predicate IsIngressRules(perms: seq<IpPermission>)
  {
    |perms| == 1 + |RestrictedPorts| && perms[0] == SshRule &&
    forall i :: 0 <= i < |RestrictedPorts| ==> perms[i + 1] == RestrictedRule(RestrictedPorts[i])
  }

  /** The construction of `ip_permissions`: the SSH rule, then an append per port. */
  method BuildIpPermissions() returns (perms: seq<IpPermission>)
    ensures IsIngressRules(perms)
  {
    perms := [SshRule];
    for i := 0 to |RestrictedPorts|
      invariant |perms| == 1 + i && perms[0] == SshRule
      invariant forall j :: 0 <= j < i ==> perms[j + 1] == RestrictedRule(RestrictedPorts[j])
    {
      var port := RestrictedPorts[i];
      perms := perms + [IpPermission("tcp", port, port, AllowedIps)];
    }
  }

  /** The rule list is determined by its description: any two lists that satisfy it are
      the same list, so the two branches authorize identical rules. */
  lemma IngressRulesUnique(a: seq<IpPermission>, b: seq<IpPermission>)
    requires IsIngressRules(a) && IsIngressRules(b)
    ensures a == b
  {
    assert forall i :: 1 <= i < |a| ==> a[i] == RestrictedRule(RestrictedPorts[i - 1]) == b[i];
  }

  /** Nothing but SSH is reachable from outside the whitelist: every rule other than the
      first admits exactly the whitelisted blocks, on a single port. */
  lemma IngressRulesRestricted(perms: seq<IpPermission>)
    requires IsIngressRules(perms)
    ensures forall i :: 0 <= i < |perms| && "0.0.0.0/0" in perms[i].ipRanges ==> i == 0 && perms[i].fromPort == 22
    ensures forall i :: 1 <= i < |perms| ==>
      perms[i].ipRanges == AllowedIps && perms[i].fromPort == perms[i].toPort && perms[i].fromPort in RestrictedPorts
  {
    forall i | 1 <= i < |perms|
      ensures perms[i] == RestrictedRule(RestrictedPorts[i - 1])
    {
    }
  }

  /** What `describe_security_groups` gave: the group with its current inbound rules, or
      a ClientError with its code. */
  datatype DescribeOutcome = Found(groupId: string, current: seq<IpPermission>) | ClientError(code: string)

  /** The calls made to the EC2 client after the describe. */
  datatype GroupCall =
    | Revoke(groupId: string, perms: seq<IpPermission>)
    | CreateGroup(name: string, description: string)
    | Authorize(groupId: string, perms: seq<IpPermission>)

  /** `get_or_create_security_group`: an existing group has all its inbound rules revoked
      and the fresh list authorized; a missing one ('InvalidGroup.NotFound') is created
      (with id `createdId`) and given the same list; any other error is re-raised. */
  method GetOrCreateSecurityGroup(describe: DescribeOutcome, createdId: string)
    returns (result: Result<string, string>, calls: seq<GroupCall>)
    ensures describe.Found? ==> (result == Ok(describe.groupId) && |calls| == 2 &&
      calls[0] == Revoke(describe.groupId, describe.current) &&
      calls[1].Authorize? && calls[1].groupId == describe.groupId && IsIngressRules(calls[1].perms))
    ensures describe.ClientError? && describe.code == "InvalidGroup.NotFound" ==> (result == Ok(createdId) && |calls| == 2 &&
      calls[0] == CreateGroup(SecurityGroupName, SecurityGroupDescription) &&
      calls[1].Authorize? && calls[1].groupId == createdId && IsIngressRules(calls[1].perms))
    ensures describe.ClientError? && describe.code != "InvalidGroup.NotFound" ==> result == Err(describe.code) && calls == []
  {
    match describe
    case Found(groupId, current) =>
      var perms := BuildIpPermissions();
      calls := [Revoke(groupId, current), Authorize(groupId, perms)];
      result := Ok(groupId);
    case ClientError(code) =>
      if code == "InvalidGroup.NotFound" {
        var perms := BuildIpPermissions();
        calls := [CreateGroup(SecurityGroupName, SecurityGroupDescription), Authorize(createdId, perms)];
        result := Ok(createdId);
      } else {
        calls := [];
        result := Err(code);
      }
  }

  // ---------------------------------------------------------------------------------
  // Files to upload (the `os.walk` loop of `deploy_application`)

  /** The local project directory as `os.walk` sees it: the file names, then the
      subdirectories, in listing order. */
  datatype DirTree = DirTree(files: seq<string>, subdirs: seq<Subdir>)
  datatype Subdir = Subdir(name: string, tree: DirTree)

  /** The directories removed from `dirs` before the walk descends. */
  const PrunedDirs := [".git", "__pycache__", "temp", "venv"]

  /** The file filter: Python sources, text files and ".env", but not this script. */
  predicate Selected(name: string)
  {
    (EndsWith(name, ".py") || EndsWith(name, ".txt") || name == ".env") && name != "deploy_to_ec2.py"
  }

  /** The selected files of one directory, each as a one-component path. */
  function SelectedFiles(fs: seq<string>): (r: seq<seq<string>>)
    ensures forall i :: 0 <= i < |r| ==> |r[i]| == 1
  {
    if fs == [] then []
    else SelectedFiles(fs[..|fs| - 1]) + if Selected(fs[|fs| - 1]) then [[fs[|fs| - 1]]] else []
  }

  function Prefixed(d: string, ps: seq<seq<string>>): (r: seq<seq<string>>)
    ensures |r| == |ps| && forall i :: 0 <= i < |ps| ==> r[i] == [d] + ps[i]
  {
    seq(|ps|, i requires 0 <= i < |ps| => [d] + ps[i])
  }

  /** The files the walk collects under `t`, as component lists relative to `t`, in the
      order of a top-down walk: the directory's own files first, then each kept
      subdirectory in turn. */
  function Candidates(t: DirTree): (r: seq<seq<string>>)
    ensures forall i :: 0 <= i < |r| ==> r[i] != []
    decreases t, |t.subdirs| + 1
  {
    SelectedFiles(t.files) + SubdirCandidates(t, |t.subdirs|)
  }

  /** The files collected under the first `n` subdirectories of `t`. */
  function SubdirCandidates(t: DirTree, n: nat): (r: seq<seq<string>>)
    requires n <= |t.subdirs|
    ensures forall i :: 0 <= i < |r| ==> |r[i]| > 1
    decreases t, n
  {
    if n == 0 then []
    else
      var s := t.subdirs[n - 1];
      SubdirCandidates(t, n - 1) + if s.name in PrunedDirs then [] else Prefixed(s.name, Candidates(s.tree))
  }

  /** The reference reading of the filter: `path` names a file in `t` that no pruned
      directory lies above. */
  predicate Reachable(t: DirTree, path: seq<string>)
    decreases t
  {
    (|path| == 1 && path[0] in t.files) ||
    (|path| > 1 && exists i :: 0 <= i < |t.subdirs| && ReachableVia(t, i, path))
  }

  /** `path` descends into the i-th subdirectory of `t`, which is not pruned. */
  predicate ReachableVia(t: DirTree, i: nat, path: seq<string>)
    requires i < |t.subdirs| && |path| > 1
    decreases t, 0
  {
    var s := t.subdirs[i];
    s.name == path[0] && s.name !in PrunedDirs && Reachable(s.tree, path[1..])
  }

  lemma {:induction false} SelectedFilesIff(fs: seq<string>, p: seq<string>)
    ensures p in SelectedFiles(fs) <==> |p| == 1 && p[0] in fs && Selected(p[0])
  {
    if fs != [] {
      var n := |fs| - 1;
      SelectedFilesIff(fs[..n], p);
      assert fs == fs[..n] + [fs[n]];
      if |p| == 1 {
        assert p[0] in fs <==> p[0] in fs[..n] || p[0] == fs[n];
        assert p == [fs[n]] <==> p[0] == fs[n];
      }
    }
  }

  lemma PrefixedIff(d: string, ps: seq<seq<string>>, p: seq<string>)
    ensures p in Prefixed(d, ps) <==> |p| > 0 && p[0] == d && p[1..] in ps
  {
    if p in Prefixed(d, ps) {
      var k :| 0 <= k < |ps| && Prefixed(d, ps)[k] == p;
      assert p[1..] == ps[k];
    }
    if |p| > 0 && p[0] == d && p[1..] in ps {
      var k :| 0 <= k < |ps| && ps[k] == p[1..];
      assert Prefixed(d, ps)[k] == p;
    }
  }

  /** `p` is collected under the i-th subdirectory of `t`. */
  predicate CollectedVia(t: DirTree, i: nat, p: seq<string>)
    requires i < |t.subdirs| && |p| > 0
  {
    t.subdirs[i].name == p[0] && t.subdirs[i].name !in PrunedDirs && p[1..] in Candidates(t.subdirs[i].tree)
  }

  /** The n-th subdirectory adds the files collected via it. */
  lemma SubdirCandidatesStep(t: DirTree, n: nat, p: seq<string>)
    requires 0 < n <= |t.subdirs|
    ensures p in SubdirCandidates(t, n) <==> p in SubdirCandidates(t, n - 1) || (|p| > 1 && CollectedVia(t, n - 1, p))
  {
    var s := t.subdirs[n - 1];
    var own := if s.name in PrunedDirs then [] else Prefixed(s.name, Candidates(s.tree));
    assert SubdirCandidates(t, n) == SubdirCandidates(t, n - 1) + own;
    if s.name !in PrunedDirs {
      PrefixedIff(s.name, Candidates(s.tree), p);
      if p in own {
        assert p[1..] != [];
      }
    }
  }

  lemma {:induction false} SubdirCandidatesIff(t: DirTree, n: nat, p: seq<string>)
    requires n <= |t.subdirs|
    ensures p in SubdirCandidates(t, n) <==> |p| > 1 && exists i :: 0 <= i < n && CollectedVia(t, i, p)
    decreases n
  {
    if n > 0 {
      SubdirCandidatesIff(t, n - 1, p);
      SubdirCandidatesStep(t, n, p);
      if p in SubdirCandidates(t, n) {
        if p in SubdirCandidates(t, n - 1) {
          var i :| 0 <= i < n - 1 && CollectedVia(t, i, p);
          assert 0 <= i < n && CollectedVia(t, i, p);
        } else {
          assert 0 <= n - 1 < n && CollectedVia(t, n - 1, p);
        }
      }
      if |p| > 1 && exists i :: 0 <= i < n && CollectedVia(t, i, p) {
        var i :| 0 <= i < n && CollectedVia(t, i, p);
        if i < n - 1 {
          assert exists i' :: 0 <= i' < n - 1 && CollectedVia(t, i', p);
        }
      }
    }
  }

  /** A file is collected exactly when it is reachable without passing a pruned
      directory and its name passes the filter. */
  lemma {:induction false} CandidatesIff(t: DirTree, p: seq<string>)
    ensures p in Candidates(t) <==> |p| > 0 && Reachable(t, p) && Selected(p[|p| - 1])
    decreases t
  {
    SelectedFilesIff(t.files, p);
    SubdirCandidatesIff(t, |t.subdirs|, p);
    if |p| > 1 {
      forall i | 0 <= i < |t.subdirs|
        ensures CollectedVia(t, i, p) <==> ReachableVia(t, i, p) && Selected(p[|p| - 1])
      {
        CandidatesIff(t.subdirs[i].tree, p[1..]);
        assert p[1..][|p[1..]| - 1] == p[|p| - 1];
      }
    }
  }

  /** The `os.walk` loop: collect the selected files of `t`, skipping the pruned
      directories, as component lists relative to `t`. */
  method CollectLocalFiles(t: DirTree) returns (paths: seq<seq<string>>)
    ensures paths == Candidates(t)
    decreases t
  {
    paths := SelectLocalFiles(t.files);
    for j := 0 to |t.subdirs|
      invariant CollectedUpTo(t, j, paths)
    {
      var s := t.subdirs[j];
      if s.name !in PrunedDirs {
        var sub := CollectLocalFiles(s.tree);
        CollectedKept(t, j, paths, sub);
        paths := paths + Prefixed(s.name, sub);
      } else {
        CollectedPruned(t, j, paths);
      }
    }
  }

  /** The walk over `t` has collected `paths` by the time it reaches subdirectory `j`. */
  predicate CollectedUpTo(t: DirTree, j: nat, paths: seq<seq<string>>)
    requires j <= |t.subdirs|
  {
    paths == SelectedFiles(t.files) + SubdirCandidates(t, j)
  }

  lemma CollectedKept(t: DirTree, j: nat, paths: seq<seq<string>>, sub: seq<seq<string>>)
    requires j < |t.subdirs| && t.subdirs[j].name !in PrunedDirs
    requires CollectedUpTo(t, j, paths) && sub == Candidates(t.subdirs[j].tree)
    ensures CollectedUpTo(t, j + 1, paths + Prefixed(t.subdirs[j].name, sub))
  {
  }

  lemma CollectedPruned(t: DirTree, j: nat, paths: seq<seq<string>>)
    requires j < |t.subdirs| && t.subdirs[j].name in PrunedDirs
    requires CollectedUpTo(t, j, paths)
    ensures CollectedUpTo(t, j + 1, paths)
  {
  }

  /** The inner loop of the walk over one directory's files. */
  method SelectLocalFiles(files: seq<string>) returns (paths: seq<seq<string>>)
    ensures paths == SelectedFiles(files)
  {
    paths := [];
    for i := 0 to |files|
      invariant paths == SelectedFiles(files[..i])
    {
      assert files[..i + 1][..i] == files[..i];
      var file := files[i];
      if Selected(file) {
        paths := paths + [[file]];
      }
    }
    assert files[..|files|] == files;
  }

  /** `os.path.relpath(os.path.join(root, file), '.')` for a file found under the walk's
      start: its components joined by '/'. */
  function RelPaths(cs: seq<seq<string>>): (r: seq<string>)
    ensures |r| == |cs| && forall i :: 0 <= i < |cs| ==> r[i] == JoinAll(cs[i])
  {
    seq(|cs|, i requires 0 <= i < |cs| => JoinAll(cs[i]))
  }

  /** The path a local file is uploaded to. */
  function RemotePath(rel: string): string
  {
    AppDir + "/" + rel
  }

  /** Names as `os.listdir` gives them: non-empty and without '/'. */
  predicate ProperNames(c: seq<string>)
  {
    forall i :: 0 <= i < |c| ==> c[i] != [] && NoSlash(c[i])
  }

  /** Joining proper names gives a relative path whose components are those names. */
  lemma {:induction false} ComponentsOfJoinAll(c: seq<string>)
    requires c != [] && ProperNames(c)
    ensures Components(JoinAll(c)) == c
  {
    if |c| == 1 {
      ComponentsOfName(c[0]);
    } else {
      var n := |c| - 1;
      var init := c[..n];
      JoinAllShape(c);
      ComponentsOfJoinAll(init);
      ComponentsConcat(JoinAll(init), c[n]);
      ComponentsOfName(c[n]);
      FrontThenLast(c);
    }
  }

  /** Joining proper names never leaves a trailing '/', so each further name is added
      after exactly one '/'. */
  lemma {:induction false} JoinAllShape(c: seq<string>)
    requires c != [] && ProperNames(c)
    ensures JoinAll(c) != [] && JoinAll(c)[|JoinAll(c)| - 1] != '/'
    ensures |c| > 1 ==> ProperNames(c[..|c| - 1]) && JoinAll(c) == JoinAll(c[..|c| - 1]) + "/" + c[|c| - 1]
  {
    var n := |c| - 1;
    assert c[n] != [] && c[n][|c[n]| - 1] != '/' && c[n][0] != '/';
    if n > 0 {
      var init := c[..n];
      assert ProperNames(init) by {
        forall i | 0 <= i < |init| ensures init[i] != [] && NoSlash(init[i]) {
          assert init[i] == c[i];
        }
      }
      JoinAllShape(init);
      var j := JoinAll(init);
      assert JoinAll(c) == Join(j, c[n]) == j + "/" + c[n];
      assert JoinAll(c)[|JoinAll(c)| - 1] == c[n][|c[n]| - 1];
    }
  }

  /** Each collected file lands inside APP_DIR at the place its relative path names:
      the components of its remote path are those of APP_DIR followed by its own, so
      distinct local files never share a remote path. */
  lemma RemotePathInsideAppDir(c: seq<string>)
    requires c != [] && ProperNames(c)
    ensures Components(RemotePath(JoinAll(c))) == Components(AppDir) + c
  {
    ComponentsOfJoinAll(c);
    ComponentsConcat(AppDir, JoinAll(c));
  }

  /** One step of the upload: a `mkdir -p` over SSH, or an SFTP put of a local file. */
  datatype UploadStep = MakeRemoteDir(path: string) | Put(localPath: string, remotePath: string)

  /** The directories that exist after `mkdir -p d`: `d` and every proper prefix of it
      that ends before a '/'. */
  function MakeDirsP(d: string): set<string>
  {
    {d} + set i | 0 < i < |d| && d[i] == '/' :: d[..i]
  }

  /** The upload loop from the remote directories `existing` on: a put per file, after
      a `mkdir -p` of its remote directory when `sftp.stat` does not find it. */
  function UploadSteps(files: seq<string>, existing: set<string>): seq<UploadStep>
  {
    if files == [] then []
    else
      var remote := RemotePath(files[0]);
      var dir := Dirname(remote);
      if dir in existing then [Put(files[0], remote)] + UploadSteps(files[1..], existing)
      else [MakeRemoteDir(dir), Put(files[0], remote)] + UploadSteps(files[1..], existing + MakeDirsP(dir))
  }

  /** The puts of a step list. */
  function Puts(steps: seq<UploadStep>): seq<UploadStep>
  {
    if steps == [] then [] else (if steps[0].Put? then [steps[0]] else []) + Puts(steps[1..])
  }

  /** Read as a script from the directories `existing` on: every put goes into a
      directory that exists by then, and every `mkdir -p` is for one that does not. */
  predicate Ready(existing: set<string>, steps: seq<UploadStep>)
    decreases |steps|
  {
    steps == [] ||
    match steps[0]
    case Put(_, remote) => Dirname(remote) in existing && Ready(existing, steps[1..])
    case MakeRemoteDir(d) => d !in existing && Ready(existing + MakeDirsP(d), steps[1..])
  }

  /** One put per file, in order, each to APP_DIR + "/" + its relative path. */
  function PutAll(files: seq<string>): seq<UploadStep>
  {
    seq(|files|, i requires 0 <= i < |files| => Put(files[i], RemotePath(files[i])))
  }

  lemma PutAllCons(files: seq<string>)
    requires files != []
    ensures PutAll(files) == [Put(files[0], RemotePath(files[0]))] + PutAll(files[1..])
  {
    assert PutAll(files) == [Put(files[0], RemotePath(files[0]))] + PutAll(files[1..]);
  }

  /** Every file is put, once and in order, to APP_DIR + "/" + its relative path. */
  lemma {:induction false} UploadStepsPuts(files: seq<string>, existing: set<string>)
    ensures Puts(UploadSteps(files, existing)) == PutAll(files)
  {
    if files != [] {
      var remote := RemotePath(files[0]);
      var dir := Dirname(remote);
      var rest := if dir in existing then existing else existing + MakeDirsP(dir);
      var head := if dir in existing then [Put(files[0], remote)] else [MakeRemoteDir(dir), Put(files[0], remote)];
      assert UploadSteps(files, existing) == head + UploadSteps(files[1..], rest);
      PutsConcat(head, UploadSteps(files[1..], rest));
      assert Puts(head) == [Put(files[0], remote)] by {
        assert head[|head| - 1..] == [Put(files[0], remote)];
      }
      UploadStepsPuts(files[1..], rest);
      PutAllCons(files);
    }
  }

  lemma {:induction false} PutsConcat(a: seq<UploadStep>, b: seq<UploadStep>)
    ensures Puts(a + b) == Puts(a) + Puts(b)
  {
    if a == [] {
      assert a + b == b;
    } else {
      assert (a + b)[0] == a[0] && (a + b)[1..] == a[1..] + b;
      PutsConcat(a[1..], b);
      var h := if a[0].Put? then [a[0]] else [];
      assert Puts(a + b) == h + (Puts(a[1..]) + Puts(b));
      assert h + (Puts(a[1..]) + Puts(b)) == (h + Puts(a[1..])) + Puts(b);
    }
  }

  /** The upload never writes into a missing directory and never makes one twice. */
  lemma {:induction false} UploadStepsReady(files: seq<string>, existing: set<string>)
    ensures Ready(existing, UploadSteps(files, existing))
  {
    if files != [] {
      var remote := RemotePath(files[0]);
      var dir := Dirname(remote);
      var rest := if dir in existing then existing else existing + MakeDirsP(dir);
      UploadStepsReady(files[1..], rest);
      var tail := UploadSteps(files[1..], rest);
      if dir in existing {
        assert UploadSteps(files, existing) == [Put(files[0], remote)] + tail;
        ReadyPut(existing, files[0], remote, tail);
      } else {
        assert UploadSteps(files, existing) == [MakeRemoteDir(dir)] + ([Put(files[0], remote)] + tail);
        ReadyPut(rest, files[0], remote, tail);
        ReadyMakeDir(existing, dir, [Put(files[0], remote)] + tail);
      }
    }
  }

  lemma ReadyPut(existing: set<string>, local: string, remote: string, tail: seq<UploadStep>)
    requires Dirname(remote) in existing && Ready(existing, tail)
    ensures Ready(existing, [Put(local, remote)] + tail)
  {
    var t := [Put(local, remote)] + tail;
    assert t[0] == Put(local, remote) && t[1..] == tail;
  }

  lemma ReadyMakeDir(existing: set<string>, d: string, tail: seq<UploadStep>)
    requires d !in existing && Ready(existing + MakeDirsP(d), tail)
    ensures Ready(existing, [MakeRemoteDir(d)] + tail)
  {
    var t := [MakeRemoteDir(d)] + tail;
    assert t[0] == MakeRemoteDir(d) && t[1..] == tail;
  }

  /** The upload loop of `deploy_application`. */
  method UploadFiles(files: seq<string>, existing: set<string>) returns (steps: seq<UploadStep>)
    ensures steps == UploadSteps(files, existing)
  {
    steps := [];
    var known := existing;
    for i := 0 to |files|
      invariant steps + UploadSteps(files[i..], known) == UploadSteps(files, existing)
    {
      var remotePath := AppDir + "/" + files[i];
      var remoteDir := Dirname(remotePath);
      assert files[i..][1..] == files[i + 1..];
      if remoteDir !in known {
        steps := steps + [MakeRemoteDir(remoteDir)];
        known := known + MakeDirsP(remoteDir);
      }
      steps := steps + [Put(files[i], remotePath)];
    }
  }

  // ---------------------------------------------------------------------------------
  // Commands (`deploy_application` after the upload)

  const VenvCommand := "test -d " + AppDir + "/venv || python3 -m venv " + AppDir + "/venv"

  const DeployCommands := [
    AppDir + "/venv/bin/pip install --upgrade pip",
    AppDir + "/venv/bin/pip install uvicorn fastapi",
    AppDir + "/venv/bin/pip install -r " + AppDir + "/requirements.txt",
    "cd " + AppDir + " && source venv/bin/activate && grep -v '@' requirements.txt | cut -d= -f1 | xargs pip install",
    "sudo systemctl reset-failed " + ServiceName,
    "sudo systemctl restart " + ServiceName,
    "sleep 3",
    "sudo systemctl status " + ServiceName
  ]

  /** What one command gave back over SSH. */
  datatype CommandResult = CommandResult(exitStatus: int, stdout: string, stderr: string)

  /** What is reported for one command: its error output (and the deployment goes on),
      or its output as shown. */
  datatype Report = ErrorReport(stderr: string) | OutputReport(shown: string)

  /** Output longer than 500 characters is shown cut to 500, followed by "...". */
  function Shown(out: string): (r: string)
    ensures |out| <= 500 ==> r == out
    ensures |out| > 500 ==> |r| == 503 && r[..500] == out[..500] && EndsWith(r, "...")
  {
    if |out| > 500 then out[..500] + "..." else out
  }

  function ReportFor(res: CommandResult): Report
  {
    if res.exitStatus != 0 then ErrorReport(res.stderr) else OutputReport(Shown(res.stdout))
  }

  /** The command loop: every command is run in order whatever the earlier ones gave,
      and each gets its report. */
  method RunCommands(cmds: seq<string>, results: seq<CommandResult>) returns (executed: seq<string>, reports: seq<Report>)
    requires |results| == |cmds|
    ensures executed == cmds
    ensures |reports| == |cmds|
    ensures forall i :: 0 <= i < |cmds| ==> reports[i] == ReportFor(results[i])
  {
    executed := [];
    reports := [];
    for i := 0 to |cmds|
      invariant executed == cmds[..i]
      invariant |reports| == i && forall j :: 0 <= j < i ==> reports[j] == ReportFor(results[j])
    {
      executed := executed + [cmds[i]];
      reports := reports + [ReportFor(results[i])];
    }
  }

  /** `deploy_application` on an instance: the venv check, the upload of the collected
      files, then the eight deployment commands. */
  method DeployApplication(t: DirTree, existing: set<string>, venvResult: CommandResult, results: seq<CommandResult>)
    returns (steps: seq<UploadStep>, executed: seq<string>, reports: seq<Report>)
    requires |results| == |DeployCommands|
    ensures steps == UploadSteps(RelPaths(Candidates(t)), existing)
    ensures executed == [VenvCommand] + DeployCommands
    ensures |reports| == |DeployCommands| && forall i :: 0 <= i < |reports| ==> reports[i] == ReportFor(results[i])
  {
    var paths := CollectLocalFiles(t);
    var localFiles: seq<string> := [];
    for i := 0 to |paths|
      invariant localFiles == RelPaths(paths[..i])
    {
      localFiles := localFiles + [JoinAll(paths[i])];
    }
    assert paths[..|paths|] == paths;
    steps := UploadFiles(localFiles, existing);
    var ran;
    ran, reports := RunCommands(DeployCommands, results);
    executed := [VenvCommand] + ran;
  }

  // ---------------------------------------------------------------------------------
  // Waiting for SSH (`wait_for_ssh`)

  /** What the wait does, in order: connection attempts (numbered from 0) and sleeps. */
  datatype SshEvent = Connect(hostname: string, attempt: nat) | Sleep(seconds: int)

  /** The index of the first successful connection among the first `n`, or `n`. */
  function FirstConnect(connects: seq<bool>, n: nat): (k: nat)
    requires n <= |connects|
    ensures k <= n && forall j :: 0 <= j < k ==> !connects[j]
    ensures k < n ==> connects[k]
  {
    if n == 0 then 0
    else
      var k := FirstConnect(connects, n - 1);
      if k < n - 1 then k else if connects[n - 1] then n - 1 else n
  }

  /** The defaults of `wait_for_ssh`, which `main` relies on: ten attempts, fifteen
      seconds apart. */
  const DefaultSshRetries := 10
  const DefaultSshDelay := 15

  /** `wait_for_ssh(hostname, retries, delay)`, with `connects[i]` telling whether the
      i-th `ssh.connect` succeeds: at most `retries` attempts, stopping at the first
      success, with a sleep of `delay` between two attempts and never after the last. */
  method WaitForSsh(hostname: string, connects: seq<bool>, retries: int, delay: int)
    returns (ok: bool, events: seq<SshEvent>)
    requires retries <= |connects|
    ensures var n := if retries < 0 then 0 else retries;
      ok <==> FirstConnect(connects, n) < n
    ensures var n := if retries < 0 then 0 else retries;
      var attempts := if ok then FirstConnect(connects, n) + 1 else n;
      |events| == if attempts == 0 then 0 else 2 * attempts - 1
    ensures forall j :: 0 <= j < |events| ==>
      events[j] == if j % 2 == 0 then Connect(hostname, j / 2) else Sleep(delay)
  {
    var n: nat := if retries < 0 then 0 else retries;
    events := [];
    for i := 0 to n
      invariant FirstConnect(connects, i) == i
      invariant |events| == if i == 0 then 0 else if i < n then 2 * i else 2 * i - 1
      invariant forall j :: 0 <= j < |events| ==> events[j] == if j % 2 == 0 then Connect(hostname, j / 2) else Sleep(delay)
    {
      events := events + [Connect(hostname, i)];
      if connects[i] {
        FirstConnectStops(connects, i, n);
        return true, events;
      }
      if i < n - 1 {
        events := events + [Sleep(delay)];
      }
    }
    return false, events;
  }

  /** Once a success is found, looking further does not change the first success. */
  lemma {:induction false} FirstConnectStops(connects: seq<bool>, k: nat, n: nat)
    requires k < n <= |connects|
    requires FirstConnect(connects, k) == k && connects[k]
    ensures FirstConnect(connects, n) == k
    decreases n
  {
    if n > k + 1 {
      FirstConnectStops(connects, k, n - 1);
    }
  }
}
