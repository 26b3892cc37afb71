/** build_mvp_website.py after the manifest: the per-file prompt choice, the loop that
    writes the generated files into the sandbox, the regeneration request, and the three
    bounded launch-and-heal loops of `run_website_in_sandbox`. The completion API and
    the sandbox commands are oracles: their results are inputs, one per call. */
module BuildMvpWebsite {
  import opened Wrappers
  import opened Strings
  import opened PosixPath
  import opened Manifest

  const MaxRetries: nat := 3
  const SandboxHome := "/home/user/"

  /** Where a manifest file lives in the sandbox. */
  function SandboxPath(fileName: string): string
  {
    SandboxHome + fileName
  }

  /** Python truthiness of a generated or regenerated content: `None` and "" are false. */
  predicate Truthy(content: Option<string>)
  {
    content.Some? && content.value != []
  }

  // ---------------------------------------------------------------------------------
  // Prompt selection (`generate_file_content`)

  /** The three prompt templates: "app.py" gets the bind-to-0.0.0.0 and error-handler
      constraints, "requirements.txt" the no-version-numbers constraints. */
  datatype PromptKind = AppPrompt | RequirementsPrompt | GenericPrompt

  /** The request sent for one file: the template and what it is filled with. */
  datatype ContentRequest = ContentRequest(kind: PromptKind, fileName: string, description: string, websiteDescription: string)

  /** The template is chosen by the file name alone. */
  function PromptKindFor(fileName: string): (k: PromptKind)
    ensures k == AppPrompt <==> fileName == "app.py"
    ensures k == RequirementsPrompt <==> fileName == "requirements.txt"
    ensures k == GenericPrompt <==> fileName != "app.py" && fileName != "requirements.txt"
  {
    if fileName == "app.py" then AppPrompt
    else if fileName == "requirements.txt" then RequirementsPrompt
    else GenericPrompt
  }

  function ContentRequestFor(fd: FileDescription, websiteDescription: string): ContentRequest
  {
    ContentRequest(PromptKindFor(fd.fileName), fd.fileName, fd.description, websiteDescription)
  }

  // ---------------------------------------------------------------------------------
  // The sandbox

  /** The part of an e2b sandbox the pipeline touches: its files, and the directories
      created with `mkdir -p`. */
  class Sandbox {
    var files: map<string, string>
    var dirs: set<string>

    constructor ()
      ensures files == map[] && dirs == {}
    {
      files := map[];
      dirs := {};
    }

    /** `sandbox.files.write(path, content)` */
    method Write(path: string, content: string)
      modifies this
      ensures files == old(files)[path := content] && dirs == old(dirs)
    {
      files := files[path := content];
    }

    /** `sandbox.commands.run("mkdir -p " + path)` */
    method MakeDirs(path: string)
      modifies this
      ensures dirs == old(dirs) + {path} && files == old(files)
    {
      dirs := dirs + {path};
    }
  }

  // ---------------------------------------------------------------------------------
  // Writing the generated files (`generate_website_in_sandbox`)

  /** The sandbox files after the write loop has seen `fs` with generated contents `cs`. */
  function WrittenFiles(base: map<string, string>, fs: seq<FileDescription>, cs: seq<Option<string>>): map<string, string>
    requires |fs| == |cs|
  {
    if fs == [] then base
    else
      var m := WrittenFiles(base, fs[..|fs| - 1], cs[..|cs| - 1]);
      if Truthy(cs[|cs| - 1]) then m[SandboxPath(fs[|fs| - 1].fileName) := cs[|cs| - 1].value] else m
  }

  /** The directory the write loop creates for one file: its directory part, when it
      has content and a non-empty directory part. */
  function NewDir(f: FileDescription, c: Option<string>): Option<string>
  {
    if Truthy(c) && Dirname(f.fileName) != [] then Some(SandboxHome + Dirname(f.fileName)) else None
  }

  /** The directory each file of `fs` gets. */
  function NewDirs(fs: seq<FileDescription>, cs: seq<Option<string>>): (ds: seq<Option<string>>)
    requires |fs| == |cs|
    ensures |ds| == |fs| && forall i :: 0 <= i < |fs| ==> ds[i] == NewDir(fs[i], cs[i])
  {
    seq(|fs|, i requires 0 <= i < |fs| => NewDir(fs[i], cs[i]))
  }

  /** The values present in a sequence of options. */
  function Somes(ds: seq<Option<string>>): set<string>
  {
    if ds == [] then {}
    else
      var d := Somes(ds[..|ds| - 1]);
      match ds[|ds| - 1]
      case None => d
      case Some(dir) => d + {dir}
  }

  lemma {:induction false} SomesIff(ds: seq<Option<string>>, d: string)
    ensures d in Somes(ds) <==> exists i :: 0 <= i < |ds| && ds[i] == Some(d)
  {
    if ds != [] {
      var n := |ds| - 1;
      SomesIff(ds[..n], d);
      if exists i :: 0 <= i < n && ds[..n][i] == Some(d) {
        var i :| 0 <= i < n && ds[..n][i] == Some(d);
        assert ds[i] == Some(d);
      }
      if exists i :: 0 <= i < |ds| && ds[i] == Some(d) {
        var i :| 0 <= i < |ds| && ds[i] == Some(d);
        if i < n {
          assert ds[..n][i] == Some(d);
        }
      }
    }
  }

  /** The directories the write loop creates. */
  function CreatedDirs(fs: seq<FileDescription>, cs: seq<Option<string>>): set<string>
    requires |fs| == |cs|
  {
    Somes(NewDirs(fs, cs))
  }

  /** A written content lands at its file's sandbox path, unless a later file with
      content is written to the same path. */
  lemma {:induction false} WrittenFilesLast(base: map<string, string>, fs: seq<FileDescription>, cs: seq<Option<string>>, i: nat)
    requires |fs| == |cs| && i < |fs| && Truthy(cs[i])
    requires forall j :: i < j < |fs| && Truthy(cs[j]) ==> SandboxPath(fs[j].fileName) != SandboxPath(fs[i].fileName)
    ensures var r := WrittenFiles(base, fs, cs);
      SandboxPath(fs[i].fileName) in r && r[SandboxPath(fs[i].fileName)] == cs[i].value
  {
    var n := |fs| - 1;
    if i < n {
      var fs', cs' := fs[..n], cs[..n];
      assert fs'[i] == fs[i] && cs'[i] == cs[i];
      forall j | i < j < n && Truthy(cs'[j])
        ensures SandboxPath(fs'[j].fileName) != SandboxPath(fs'[i].fileName)
      {
        assert fs'[j] == fs[j] && cs'[j] == cs[j];
      }
      WrittenFilesLast(base, fs', cs', i);
    }
  }

  /** A path no file with content maps to keeps what it held before the loop. */
  lemma {:induction false} WrittenFilesUntouched(base: map<string, string>, fs: seq<FileDescription>, cs: seq<Option<string>>, p: string)
    requires |fs| == |cs|
    requires forall i :: 0 <= i < |fs| && Truthy(cs[i]) ==> SandboxPath(fs[i].fileName) != p
    ensures var r := WrittenFiles(base, fs, cs);
      (p in r <==> p in base) && (p in base ==> r[p] == base[p])
  {
    if fs != [] {
      var n := |fs| - 1;
      assert forall i :: 0 <= i < n ==> fs[..n][i] == fs[i] && cs[..n][i] == cs[i];
      WrittenFilesUntouched(base, fs[..n], cs[..n], p);
    }
  }

  /** A directory is made for a file exactly when it has content and its name holds a
      '/'. */
  lemma NewDirIff(f: FileDescription, c: Option<string>)
    ensures NewDir(f, c).Some? <==> Truthy(c) && !NoSlash(f.fileName)
    ensures NewDir(f, c).Some? ==> NewDir(f, c).value == SandboxHome + Dirname(f.fileName)
  {
    DirnameEmptyIff(f.fileName);
  }

  /** One more file adds its directory, if it gets one. */
  lemma CreatedDirsStep(fs: seq<FileDescription>, cs: seq<Option<string>>, i: nat)
    requires |fs| == |cs| && i < |fs|
    ensures CreatedDirs(fs[..i + 1], cs[..i + 1]) ==
      CreatedDirs(fs[..i], cs[..i]) + match NewDir(fs[i], cs[i]) case None => {} case Some(dir) => {dir}
  {
    var ds := NewDirs(fs[..i + 1], cs[..i + 1]);
    assert ds[..i] == NewDirs(fs[..i], cs[..i]);
  }

  /** The loop creates the directory of each file that has content and a '/' in its
      name, and no other. */
  lemma CreatedDirsIff(fs: seq<FileDescription>, cs: seq<Option<string>>, d: string)
    requires |fs| == |cs|
    ensures d in CreatedDirs(fs, cs) <==> exists i :: 0 <= i < |fs| && NewDir(fs[i], cs[i]) == Some(d)
  {
    SomesIff(NewDirs(fs, cs), d);
  }

  /** `generate_website_in_sandbox` once the manifest is known: `contents[i]` is what
      `generate_file_content` returned for the i-th file. No sandbox is used when the
      manifest is `None` or empty; otherwise one request is made per file, in manifest
      order, and each file with content is written under /home/user/, after a
      `mkdir -p` of its directory when it has one. */
  method GenerateWebsiteInSandbox(sb: Sandbox, manifest: Option<seq<FileDescription>>, websiteDescription: string,
                                  contents: seq<Option<string>>)
    returns (created: bool, requests: seq<ContentRequest>)
    requires manifest.Some? ==> |contents| == |manifest.value|
    modifies sb
    ensures created <==> manifest.Some? && manifest.value != []
    ensures !created ==> sb.files == old(sb.files) && sb.dirs == old(sb.dirs) && requests == []
    ensures created ==> (|requests| == |manifest.value| &&
      forall i :: 0 <= i < |requests| ==> requests[i] == ContentRequestFor(manifest.value[i], websiteDescription))
    ensures created ==> sb.files == WrittenFiles(old(sb.files), manifest.value, contents)
    ensures created ==> sb.dirs == old(sb.dirs) + CreatedDirs(manifest.value, contents)
  {
    requests := [];
    if manifest.None? || manifest.value == [] {
      return false, requests;
    }
    var fs := manifest.value;
    for i := 0 to |fs|
      invariant |requests| == i
      invariant forall j :: 0 <= j < i ==> requests[j] == ContentRequestFor(fs[j], websiteDescription)
      invariant sb.files == WrittenFiles(old(sb.files), fs[..i], contents[..i])
      invariant sb.dirs == old(sb.dirs) + CreatedDirs(fs[..i], contents[..i])
    {
      requests := requests + [ContentRequestFor(fs[i], websiteDescription)];
      assert fs[..i + 1][..i] == fs[..i] && contents[..i + 1][..i] == contents[..i];
      CreatedDirsStep(fs, contents, i);
      var content := contents[i];
      if !Truthy(content) {
        continue;
      }
      var dirPath := Dirname(fs[i].fileName);
      if dirPath != [] {
        sb.MakeDirs(SandboxHome + dirPath);
      }
      sb.Write(SandboxPath(fs[i].fileName), content.value);
    }
    assert fs[..|fs|] == fs && contents[..|fs|] == contents;
    return true, requests;
  }

  // ---------------------------------------------------------------------------------
  // Regeneration (`regenerate_file_with_error`)

  /** The request sent to fix a file: its name, the error text, and its current content,
      or "" when the file cannot be read. */
  datatype RegenerationRequest = RegenerationRequest(fileName: string, error: string, currentContent: string)

  function RegenerationRequestFor(fileName: string, error: string, files: map<string, string>): (r: RegenerationRequest)
    ensures r.fileName == fileName && r.error == error
    ensures SandboxPath(fileName) in files ==> r.currentContent == files[SandboxPath(fileName)]
    ensures SandboxPath(fileName) !in files ==> r.currentContent == []
  {
    var path := SandboxPath(fileName);
    RegenerationRequest(fileName, error, if path in files then files[path] else [])
  }

  // ---------------------------------------------------------------------------------
  // The launch-and-heal loops (`run_website_in_sandbox`)

  /** The outcome of one try of a step: success, or the text of the exception. */
  datatype Attempt = Succeeded | Failed(error: string)

  /** The index of the first success among the first `limit` attempts, or `limit`. */
  function FirstSuccess(attempts: seq<Attempt>, limit: nat): (k: nat)
    requires limit <= |attempts|
    ensures k <= limit
    ensures forall j :: 0 <= j < k ==> attempts[j].Failed?
    ensures k < limit ==> attempts[k].Succeeded?
  {
    if limit == 0 then 0
    else
      var k := FirstSuccess(attempts, limit - 1);
      if k < limit - 1 then k else if attempts[limit - 1].Succeeded? then limit - 1 else limit
  }

  /** The number of regenerations a loop performs: one after each failed try but the
      last. */
  function Regenerations(attempts: seq<Attempt>): nat
    requires MaxRetries <= |attempts|
  {
    var k := FirstSuccess(attempts, MaxRetries);
    if k < MaxRetries then k else MaxRetries - 1
  }

  /** The files after the regenerations that returned `fixes`: a truthy fix overwrites
      the file, any other leaves it. */
  function Healed(files: map<string, string>, path: string, fixes: seq<Option<string>>): map<string, string>
  {
    if fixes == [] then files
    else
      var m := Healed(files, path, fixes[..|fixes| - 1]);
      if Truthy(fixes[|fixes| - 1]) then m[path := fixes[|fixes| - 1].value] else m
  }

  /** The last truthy fix, if any. */
  function LastTruthy(fixes: seq<Option<string>>): (r: Option<string>)
    ensures r.Some? ==> r.value != []
    ensures r.None? <==> forall i :: 0 <= i < |fixes| ==> !Truthy(fixes[i])
    ensures r.Some? ==> exists i :: 0 <= i < |fixes| && fixes[i] == r && forall j :: i < j < |fixes| ==> !Truthy(fixes[j])
  {
    if fixes == [] then None
    else if Truthy(fixes[|fixes| - 1]) then fixes[|fixes| - 1]
    else LastTruthy(fixes[..|fixes| - 1])
  }

  /** Healing touches only the healed file, which ends up with the last truthy fix, or
      as it was when every fix was empty. */
  lemma {:induction false} HealedIsLastTruthy(files: map<string, string>, path: string, fixes: seq<Option<string>>)
    ensures Healed(files, path, fixes) == match LastTruthy(fixes)
      case None => files
      case Some(c) => files[path := c]
  {
    if fixes != [] {
      HealedIsLastTruthy(files, path, fixes[..|fixes| - 1]);
    }
  }

  /** One bounded retry loop with healing, as the three loops of the source share it:
      try the step; on a failure that is not the third, ask for a regenerated `target`
      with the error text and write it when the reply is non-empty; stop at the first
      success or after the third failure (where the source re-raises). */
  method HealingRetry(sb: Sandbox, target: string, attempts: seq<Attempt>, fixes: seq<Option<string>>)
    returns (ok: bool, tries: nat, requests: seq<RegenerationRequest>)
    requires MaxRetries <= |attempts| && MaxRetries - 1 <= |fixes|
    modifies sb
    ensures ok <==> FirstSuccess(attempts, MaxRetries) < MaxRetries
    ensures tries == if ok then FirstSuccess(attempts, MaxRetries) + 1 else MaxRetries
    ensures |requests| == Regenerations(attempts)
    ensures forall i :: 0 <= i < |requests| ==>
      requests[i] == RegenerationRequestFor(target, attempts[i].error, Healed(old(sb.files), SandboxPath(target), fixes[..i]))
    ensures sb.files == Healed(old(sb.files), SandboxPath(target), fixes[..|requests|])
    ensures sb.dirs == old(sb.dirs)
  {
    var path := SandboxPath(target);
    var retryCount := 0;
    ok := false;
    requests := [];
    while retryCount < MaxRetries
      invariant 0 <= retryCount < MaxRetries
      invariant |requests| == retryCount
      invariant forall j :: 0 <= j < retryCount ==> attempts[j].Failed?
      invariant FirstSuccess(attempts, retryCount) == retryCount
      invariant forall j :: 0 <= j < retryCount ==>
        requests[j] == RegenerationRequestFor(target, attempts[j].error, Healed(old(sb.files), path, fixes[..j]))
      invariant sb.files == Healed(old(sb.files), path, fixes[..retryCount])
      invariant sb.dirs == old(sb.dirs)
      decreases MaxRetries - retryCount
    {
      var attempt := attempts[retryCount];
      if attempt.Succeeded? {
        ok := true;
        FirstSuccessStops(attempts, retryCount, MaxRetries);
        break;
      }
      retryCount := retryCount + 1;
      if retryCount >= MaxRetries {
        break;
      }
      var request := RegenerationRequestFor(target, attempt.error, sb.files);
      requests := requests + [request];
      var fixed := fixes[retryCount - 1];
      assert fixes[..retryCount][..retryCount - 1] == fixes[..retryCount - 1];
      if Truthy(fixed) {
        sb.Write(path, fixed.value);
      }
    }
    if !ok {
      assert FirstSuccess(attempts, MaxRetries) == MaxRetries;
    }
    tries := if ok then retryCount + 1 else MaxRetries;
  }

  /** Once a success is found, looking further does not change the first success. */
  lemma {:induction false} FirstSuccessStops(attempts: seq<Attempt>, k: nat, limit: nat)
    requires k < limit <= |attempts|
    requires FirstSuccess(attempts, k) == k && attempts[k].Succeeded?
    ensures FirstSuccess(attempts, limit) == k
    decreases limit
  {
    if limit > k + 1 {
      FirstSuccessStops(attempts, k, limit - 1);
    }
  }

  /** What the process listing shows after a launch: the command raised, or `ps` printed
      this text. */
  datatype StartObservation = Raised(error: string) | Listed(psOutput: string)

  /** The production server (gunicorn) or the Flask development server. */
  datatype ServerMode = Gunicorn | FlaskDev

  /** The liveness test of each mode: the gunicorn launch must show "app:app" in the
      `ps` output, the development launch "app.run"; otherwise the loop raises its own
      message. */
  function StartAttempt(mode: ServerMode, o: StartObservation): (a: Attempt)
    ensures a.Succeeded? <==> o.Listed? && Contains(o.psOutput, if mode == Gunicorn then "app:app" else "app.run")
    ensures o.Raised? ==> a == Failed(o.error)
    ensures o.Listed? && a.Failed? ==>
      a.error == if mode == Gunicorn then "Gunicorn server failed to start properly" else "Flask server failed to start properly"
  {
    match o
    case Raised(e) => Failed(e)
    case Listed(out) =>
      match mode
      case Gunicorn => if Contains(out, "app:app") then Succeeded else Failed("Gunicorn server failed to start properly")
      case FlaskDev => if Contains(out, "app.run") then Succeeded else Failed("Flask server failed to start properly")
  }

  function StartAttempts(mode: ServerMode, obs: seq<StartObservation>): (r: seq<Attempt>)
    ensures |r| == |obs| && forall i :: 0 <= i < |obs| ==> r[i] == StartAttempt(mode, obs[i])
  {
    seq(|obs|, i requires 0 <= i < |obs| => StartAttempt(mode, obs[i]))
  }

  /** The running server: which mode, and which try launched it. */
  datatype ServerProcess = ServerProcess(mode: ServerMode, attempt: nat)

  /** What `run_website_in_sandbox` returns on success. */
  datatype WebsiteInfo = WebsiteInfo(process: ServerProcess, url: string)

  function ModeFor(publicAccess: bool): ServerMode
  {
    if publicAccess then Gunicorn else FlaskDev
  }

  /** `run_website_in_sandbox`: the install loop (healing requirements.txt), then the
      start loop of the chosen mode (healing app.py), each bounded by three tries; `None`
      as soon as one loop gives up; otherwise the running process and the public URL of
      the host the sandbox exposes for the port. */
  method RunWebsiteInSandbox(sb: Sandbox, publicAccess: bool,
                             installs: seq<Attempt>, installFixes: seq<Option<string>>,
                             starts: seq<StartObservation>, startFixes: seq<Option<string>>,
                             host: string)
    returns (info: Option<WebsiteInfo>)
    requires MaxRetries <= |installs| && MaxRetries - 1 <= |installFixes|
    requires MaxRetries <= |starts| && MaxRetries - 1 <= |startFixes|
    modifies sb
    ensures var startAttempts := StartAttempts(ModeFor(publicAccess), starts);
      info.Some? <==>
        FirstSuccess(installs, MaxRetries) < MaxRetries && FirstSuccess(startAttempts, MaxRetries) < MaxRetries
    ensures var startAttempts := StartAttempts(ModeFor(publicAccess), starts);
      info.Some? ==> info.value == WebsiteInfo(ServerProcess(ModeFor(publicAccess), FirstSuccess(startAttempts, MaxRetries)), "https://" + host)
    ensures var afterInstall := Healed(old(sb.files), SandboxPath("requirements.txt"), installFixes[..Regenerations(installs)]);
      var startAttempts := StartAttempts(ModeFor(publicAccess), starts);
      sb.files == if FirstSuccess(installs, MaxRetries) < MaxRetries
        then Healed(afterInstall, SandboxPath("app.py"), startFixes[..Regenerations(startAttempts)])
        else afterInstall
    ensures sb.dirs == old(sb.dirs)
  {
    var installed, _, _ := HealingRetry(sb, "requirements.txt", installs, installFixes);
    if !installed {
      return None;
    }
    var mode := ModeFor(publicAccess);
    var startAttempts := StartAttempts(mode, starts);
    var started, tries, _ := HealingRetry(sb, "app.py", startAttempts, startFixes);
    if !started {
      return None;
    }
    return Some(WebsiteInfo(ServerProcess(mode, tries - 1), "https://" + host));
  }

  /** Each loop makes at most three tries and asks for at most two regenerations; it
      regenerates after every failed try but the third, and gives up exactly when all
      three tries failed. */
  lemma RetryBounds(attempts: seq<Attempt>)
    requires MaxRetries <= |attempts|
    ensures Regenerations(attempts) <= MaxRetries - 1
    ensures FirstSuccess(attempts, MaxRetries) == MaxRetries <==>
      attempts[0].Failed? && attempts[1].Failed? && attempts[2].Failed?
    ensures FirstSuccess(attempts, MaxRetries) < MaxRetries ==> Regenerations(attempts) == FirstSuccess(attempts, MaxRetries)
  {
  }

  /** A server whose listing never shows its marker is never accepted, however often it
      is healed: the start loop then gives up after three tries. */
  lemma StartGivesUpWithoutMarker(mode: ServerMode, starts: seq<StartObservation>)
    requires MaxRetries <= |starts|
    requires forall i :: 0 <= i < MaxRetries ==>
      starts[i].Raised? || !Contains(starts[i].psOutput, if mode == Gunicorn then "app:app" else "app.run")
    ensures FirstSuccess(StartAttempts(mode, starts), MaxRetries) == MaxRetries
  {
    var a := StartAttempts(mode, starts);
    assert a[0].Failed? && a[1].Failed? && a[2].Failed?;
    RetryBounds(a);
  }
}
