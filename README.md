# DeployBot core, modelled in Dafny

DeployBot takes a GitHub repository URL and a description of a website. It runs these steps:

1. Looks the repository up and opens an issue.
2. Has a language model plan the site's files and write them into an e2b sandbox.
3. Installs the requirements and starts the server, healing `requirements.txt` and
   `app.py` with regenerated content when a try fails.
4. Clones the repository, creates a branch, and downloads the sandbox's files into the
   clone.
5. Commits and pushes, then opens a pull request that fixes the issue.

A second script, `deploy_to_ec2.py`, deploys the bot onto an EC2 instance. It sets up the security group, uploads the project's sources and runs the deployment commands.

This project models the sequential logic inside that plumbing. All of it is deterministic once the results of the external calls are fixed. Every call into OpenAI, e2b, GitHub, git, boto3 or paramiko is an input: an `Option`/`Result` value, a sequence of attempt outcomes, or an abstract directory tree.

| module | file | models |
|---|---|---|
| `Wrappers` | wrappers.dfy | `Option` and `Result` |
| `Strings` | strings.dfy | the parts of Python `str` the code relies on: `endswith`, `in`, `replace`, `str(int)`, UTF-8 encoding |
| `PosixPath` | posix_path.dfy | `posixpath.dirname`, `join` and `relpath` on the paths the core builds |
| `Manifest` | manifest.dfy | the normalisation in `define_website_structure`: essential files, rank map, stable sort by importance |
| `BuildMvpWebsite` | build_mvp_website.dfy | prompt choice, the sandbox write loop, the regeneration request, the three launch-and-heal loops |
| `GithubUtils` | github_utils.dfy | `parse_repo_url` and the token rewrite of `clone_repository` |
| `DeployToEc2` | deploy_to_ec2.dfy | ingress rules, the `os.walk` file filter, remote paths, the upload, the command loop, `wait_for_ssh` |
| `Orchestration` | orchestration.dfy | `download_files_from_sandbox` and the steps, results and cleanup of `build_website` |

Only some of the source works in place. Those parts are imperative Dafny:

- The e2b sandbox is a class: `BuildMvpWebsite.Sandbox`, with a map of files and a set of directories.
- The local disk is a class: `Orchestration.LocalDisk`.
- Each loop of the source is a `method` with a `while` loop. Each method is proved equal to a specification function, and the properties the source promises are proved about that function.

Two pieces of the source are recursive. Each is a recursive method proved against a function:

- The download walk of `main.py`. The function records the trace of sandbox calls and local writes.
- The `os.walk` collection of `deploy_application`.

`build_website` becomes the method `Orchestration.BuildWebsite`. Its contract names three things:

- the stage where the run ends (`StageOf`);
- the message it reports (`MessageOf`);
- the ordered list of external effects (`EffectsOf`), plus what the disk holds afterwards.

The cleanup rule (which failures stop the server) is then proved about `EffectsOf`.

## Model

| member | source | states |
|---|---|---|
| Manifest.AddEssentialFiles | build_mvp_website.py:82-90 | the essential-file loop computes `AddAllMissing(files, ["app.py","requirements.txt"])`, after which both essential names are present |
| Manifest.AddAllMissingProperties | build_mvp_website.py:83-90 | old records stay first and unchanged; every essential name is present; each appended record is the default record ("This is the {name} file for the app.", no importance) of a name that was missing; a name that was present keeps its count, a missing one occurs exactly once, other names are not touched |
| Manifest.HasFileIffCount | build_mvp_website.py:84 | the `any(...)` test holds exactly when the name occurs at least once |
| Manifest.RankMapKeys | build_mvp_website.py:126 | the rank map's keys are exactly the names in the ranking reply |
| Manifest.RankMapLast | build_mvp_website.py:126 | a name maps to the importance of its last item in the reply (later duplicates override) |
| Manifest.ApplyRankMap | build_mvp_website.py:127-129 | a record whose name is ranked gets exactly the mapped importance; every other record keeps its importance; names, descriptions, order and length are unchanged |
| Manifest.InsertByRankPermutes | build_mvp_website.py:132 | inserting adds exactly the inserted record (multiset) |
| Manifest.InsertByRankKeys | build_mvp_website.py:132 | inserting into a sorted list puts the record in front of the records of its own key, leaving the other keys' sequences as they were |
| Manifest.InsertByRankSorted | build_mvp_website.py:132 | inserting into a list sorted by `importance if not None else 999` keeps it sorted |
| Manifest.SortByImportanceSorted | build_mvp_website.py:132 | the sort gives a list sorted by `importance if not None else 999`, a permutation of its input, with the records of each key in their original order (stability) |
| Manifest.WithKeyHead | build_mvp_website.py:132 | the head of a list is the first record with its key |
| Manifest.WithKeyEmptyBelowHead | build_mvp_website.py:132 | a sorted list has no record with a key below its head's |
| Manifest.StableSortIsUnique | build_mvp_website.py:132 | two sorted lists with the same per-key order are equal, so the insertion sort gives exactly what Python's stable `list.sort` gives |
| Manifest.DefineWebsiteStructure | build_mvp_website.py:76-138 | `None` exactly when a reply could not be parsed (the caught exception), otherwise the normalised manifest |
| Manifest.NormalisedProperties | build_mvp_website.py:82-135 | the returned manifest holds both essential files, is sorted by rank, is a permutation of the ranked list, keeps equal ranks in order, and gives each ranked name its last rank |
| Manifest.NormalisedHasEssentials | build_mvp_website.py:82-90 | "app.py" and "requirements.txt" occur in the returned manifest |
| Manifest.NormalisedRanks | build_mvp_website.py:126-132 | every record of the returned manifest with a ranked name carries that rank |
| Manifest.NormalisedNonEmpty | build_mvp_website.py:209-211 | the returned manifest has at least two records, so `if not file_descriptions` fails only on `None` |
| BuildMvpWebsite.PromptKindFor | build_mvp_website.py:147-189 | "app.py" gets the app template, "requirements.txt" the requirements template, every other name the generic one, in both directions |
| BuildMvpWebsite.Sandbox.Write | build_mvp_website.py:231 | a write replaces the file at that path and changes nothing else |
| BuildMvpWebsite.Sandbox.MakeDirs | build_mvp_website.py:227 | `mkdir -p` adds the directory and changes nothing else |
| BuildMvpWebsite.GenerateWebsiteInSandbox | build_mvp_website.py:205-238 | no sandbox write when the manifest is `None` or empty; otherwise one content request per file in manifest order; the files become `WrittenFiles`; the directories gain `CreatedDirs` |
| BuildMvpWebsite.NewDirs | build_mvp_website.py:225-227 | one directory decision per file, in order |
| BuildMvpWebsite.SomesIff | build_mvp_website.py:225-227 | a directory is among those created exactly when some file produced it |
| BuildMvpWebsite.WrittenFilesLast | build_mvp_website.py:218-231 | a file with content ends up at "/home/user/" + its name holding that content, unless a later file overwrites the same path |
| BuildMvpWebsite.WrittenFilesUntouched | build_mvp_website.py:218-231 | a path that no file with content maps to keeps its old content or absence; files with empty content are skipped |
| BuildMvpWebsite.NewDirIff | build_mvp_website.py:221-227 | a `mkdir -p` is issued for a file exactly when it has content and its dirname is non-empty (its name holds a '/'), and it names "/home/user/" + the dirname |
| BuildMvpWebsite.CreatedDirsStep | build_mvp_website.py:218-227 | one more file adds its directory, if it gets one |
| BuildMvpWebsite.CreatedDirsIff | build_mvp_website.py:218-227 | the loop creates the directory of each file with content and a dirname, and no other |
| BuildMvpWebsite.RegenerationRequestFor | build_mvp_website.py:365-387 | the regeneration request carries the file name and error text, the file's current content when it can be read, and an empty content when it cannot |
| BuildMvpWebsite.FirstSuccess | build_mvp_website.py:248-252 | the index of the first success among the first `limit` tries: every earlier try failed, and that one succeeded unless it is `limit` |
| BuildMvpWebsite.LastTruthy | build_mvp_website.py:268-270 | None exactly when no regenerated content is non-empty; otherwise a non-empty fix from the list with no non-empty fix after it |
| BuildMvpWebsite.HealedIsLastTruthy | build_mvp_website.py:268-270 | after the regenerations, only the healed file has changed, and it holds the last non-empty fix, or nothing changed if every fix was empty |
| BuildMvpWebsite.HealingRetry | build_mvp_website.py:245-270 | succeeds iff one of the first three tries succeeds; makes `FirstSuccess + 1` tries or 3; asks for one regeneration after each failed try but the last, each request made with the error text and the file's current content; the file ends with the healed content; directories unchanged |
| BuildMvpWebsite.FirstSuccessStops | build_mvp_website.py:248-252 | looking past the first success does not move it |
| BuildMvpWebsite.StartAttempt | build_mvp_website.py:276-341 | a launch counts as started iff `ps` printed "app:app" (gunicorn) or "app.run" (Flask dev); a raised command fails with its own text; a missing marker fails with the source's message |
| BuildMvpWebsite.StartAttempts | build_mvp_website.py:276-341 | one attempt outcome per observation, in order |
| BuildMvpWebsite.RunWebsiteInSandbox | build_mvp_website.py:240-363 | `None` iff the install loop or the start loop of the chosen mode gave up; otherwise the process of the successful try and "https://" + host; the sandbox files are healed, first `requirements.txt`, then `app.py` only when the install succeeded |
| BuildMvpWebsite.RetryBounds | build_mvp_website.py:245-260 | at most two regenerations; a loop gives up exactly when all three tries fail; on success, it regenerated once per failed try |
| BuildMvpWebsite.StartGivesUpWithoutMarker | build_mvp_website.py:286-297 | a server whose `ps` output never shows its marker is never accepted, and the start loop gives up |
| GithubUtils.SchemeEnd | github_utils.py:16 | where `https?://github\.com/` ends, within the URL |
| GithubUtils.MatchRepoUrlSound | github_utils.py:16-19 | every match reported is a match of the pattern at the start of the URL: scheme, segment, '/', greedy segment |
| GithubUtils.SegmentsOfSound | github_utils.py:16-19 | the two groups are non-empty, hold no '/', and the repo group runs to the end or to the next '/' |
| GithubUtils.SchemeThenRest | github_utils.py:16-19 | a scheme followed by matching segments is a pattern match |
| GithubUtils.MatchRepoUrlComplete | github_utils.py:16-19 | every match of the pattern is the one reported: the groups are determined by the URL |
| GithubUtils.RestAfterScheme | github_utils.py:16-19 | after the scheme, the segments of a match are found |
| GithubUtils.MatchedSegments | github_utils.py:16-19 | `owner/repo` followed by the end or a '/' yields exactly those groups |
| GithubUtils.ParseRepoUrlMeaning | github_utils.py:14-22 | success exactly on URLs matching the pattern, giving "owner/repo" of the groups; otherwise the ValueError message "Invalid GitHub repository URL: " + url |
| GithubUtils.ParseRepoUrlShape | github_utils.py:18-20 | the full name holds one '/', between two non-empty segments without '/' |
| GithubUtils.ParseRepoUrlIgnoresTail | github_utils.py:16-19 | trailing segments such as "/tree/main" are ignored, over http and https |
| GithubUtils.AuthRepoUrlChangesIff | github_utils.py:32-35 | the clone URL is rewritten exactly when a token is set and the URL contains "https://github.com" |
| GithubUtils.AuthRepoUrlOfRepositoryUrl | github_utils.py:32-33 | for "https://github.com" + rest the token lands right after the scheme |
| DeployToEc2.BuildIpPermissions | deploy_to_ec2.py:52-70 | the list built is the SSH rule followed by one rule per port of [80, 443, 8000] |
| DeployToEc2.IngressRulesUnique | deploy_to_ec2.py:52-70 | any two lists meeting that description are equal, so both branches (52-70 and 89-107) authorize the same rules |
| DeployToEc2.IngressRulesRestricted | deploy_to_ec2.py:52-70 | only the first rule, tcp 22, is open to 0.0.0.0/0; each other rule opens one port of 80/443/8000 to exactly ALLOWED_IPS |
| DeployToEc2.GetOrCreateSecurityGroup | deploy_to_ec2.py:34-116 | an existing group has its rules revoked, then the fresh list authorized; 'InvalidGroup.NotFound' creates the group with its name and description and authorizes the same list; any other error is re-raised with no call made |
| DeployToEc2.SelectedFiles | deploy_to_ec2.py:300-308 | each selected file of a directory is a one-component path |
| DeployToEc2.Prefixed | deploy_to_ec2.py:296-308 | the paths under a subdirectory start with its name |
| DeployToEc2.Candidates | deploy_to_ec2.py:296-308 | every collected path is non-empty |
| DeployToEc2.SubdirCandidates | deploy_to_ec2.py:296-308 | the paths from subdirectories have at least two components |
| DeployToEc2.SelectedFilesIff | deploy_to_ec2.py:300-303 | a file of the directory is collected iff it ends with ".py" or ".txt" or is ".env", and is not "deploy_to_ec2.py" |
| DeployToEc2.PrefixedIff | deploy_to_ec2.py:305-308 | a path is under a subdirectory iff it starts with its name and the rest was collected there |
| DeployToEc2.SubdirCandidatesStep | deploy_to_ec2.py:298 | one more subdirectory adds what was collected through it |
| DeployToEc2.SubdirCandidatesIff | deploy_to_ec2.py:298 | a path comes from the first n subdirectories iff it was collected through one of them that is not pruned |
| DeployToEc2.CandidatesIff | deploy_to_ec2.py:296-308 | a file is collected iff no directory above it is .git, `__pycache__`, temp or venv and its name passes the filter |
| DeployToEc2.CollectLocalFiles | deploy_to_ec2.py:296-308 | the walk computes `Candidates(t)` |
| DeployToEc2.CollectedKept | deploy_to_ec2.py:298 | a kept subdirectory adds its own files, prefixed with its name |
| DeployToEc2.CollectedPruned | deploy_to_ec2.py:298 | a pruned subdirectory adds nothing |
| DeployToEc2.SelectLocalFiles | deploy_to_ec2.py:300-308 | the loop over one directory's files computes `SelectedFiles` |
| DeployToEc2.RelPaths | deploy_to_ec2.py:305-307 | each relative path is its components joined by '/' |
| DeployToEc2.ComponentsOfJoinAll | deploy_to_ec2.py:305-307 | joining proper names gives a path whose components are exactly those names |
| DeployToEc2.JoinAllShape | deploy_to_ec2.py:305-307 | the join never ends with '/', and each further name is added after exactly one '/' |
| DeployToEc2.RemotePathInsideAppDir | deploy_to_ec2.py:312 | the remote path's components are APP_DIR's followed by the file's own, so distinct files never share a remote path |
| DeployToEc2.PutAllCons | deploy_to_ec2.py:311-323 | one put per file, in order |
| DeployToEc2.UploadStepsPuts | deploy_to_ec2.py:311-323 | every collected file is put exactly once, in order, to APP_DIR + "/" + its relative path |
| DeployToEc2.PutsConcat | deploy_to_ec2.py:311-323 | the puts of two step lists are the puts of each |
| DeployToEc2.UploadStepsReady | deploy_to_ec2.py:313-323 | every put goes into a directory that exists by then, and a `mkdir -p` is issued only for a directory `stat` does not find |
| DeployToEc2.ReadyPut | deploy_to_ec2.py:323 | a put into an existing directory keeps a ready script ready |
| DeployToEc2.ReadyMakeDir | deploy_to_ec2.py:316-320 | a `mkdir -p` for a missing directory keeps a ready script ready |
| DeployToEc2.UploadFiles | deploy_to_ec2.py:311-323 | the upload loop computes `UploadSteps` |
| DeployToEc2.Shown | deploy_to_ec2.py:364-365 | output of up to 500 characters is shown as is; longer output is cut to its first 500 characters followed by "..." |
| DeployToEc2.RunCommands | deploy_to_ec2.py:354-365 | every command runs, in order, whatever earlier ones gave; each gets the report of its own result |
| DeployToEc2.DeployApplication | deploy_to_ec2.py:277-368 | the venv check, then the upload of the collected files, then the eight commands, each reported |
| DeployToEc2.FirstConnect | deploy_to_ec2.py:192-203 | the first successful connection among the first n, or n |
| DeployToEc2.WaitForSsh | deploy_to_ec2.py:187-211 | True iff one of the first `retries` connections succeeds; the attempts alternate with sleeps of `delay`; there is no sleep after the last attempt |
| DeployToEc2.FirstConnectStops | deploy_to_ec2.py:192-203 | looking past the first success does not move it |
| PosixPath.LastSlashEnd | main.py:74 | the index after the last '/' |
| PosixPath.RStripSlash | main.py:74 | trailing slashes removed, nothing else |
| PosixPath.DirnameEmptyIff | build_mvp_website.py:225-226 | the dirname is empty exactly when the name holds no '/' |
| PosixPath.DirnameOfChild | main.py:74 | the dirname of d + "/" + name is d |
| PosixPath.Components | main.py:61-62 | the components of a path are non-empty and have no '/' |
| PosixPath.ComponentsConcat | main.py:61-62 | an inserted '/' splits the components |
| PosixPath.ComponentsOfName | main.py:61-62 | a name is its own only component |
| PosixPath.CommonPrefixLen | main.py:61 | the length of the shared leading components |
| PosixPath.Repeat | main.py:61 | n copies of "..", as `relpath` climbs |
| PosixPath.RelpathOfChild | main.py:61 | a listed child is its own name relative to the directory |
| PosixPath.CommonPrefixLenOfFork | main.py:61 | lists that fork after c share exactly c |
| PosixPath.RelpathOfSibling | main.py:61 | a path in a sibling directory climbs out with ".." |
| PosixPath.RelpathOfForkedComponents | main.py:61 | the same, stated on components |
| Strings.ContainsIff | build_mvp_website.py:287 | the `in` test holds iff the text occurs at some offset |
| Strings.TakeUntilSlash | github_utils.py:16 | `[^/]+` consumes a '/'-free prefix up to the end or a '/' |
| Strings.TakeUntilSlashUnique | github_utils.py:16 | the greedy segment is determined by those properties |
| Strings.ReplaceAllAbsent | github_utils.py:33 | `replace` leaves a string without the pattern unchanged |
| Strings.ReplaceAllGrows | github_utils.py:33 | a longer replacement makes the string strictly longer once the pattern occurs |
| Strings.NatToDecimalCorrect | main.py:126 | `str(n)` is a non-empty run of digits, with no leading zero, whose value is n |
| Strings.EncodeChar | main.py:82 | UTF-8 of one character: one byte below U+0080, two below U+0800, three below U+10000, four above; the lead byte announces that length, the others are continuation bytes, and the payload bits rebuild the code point |
| Strings.EncodeUtf8 | main.py:82 | the encoding has between one and four bytes per character |
| Strings.DecodeEncodeUtf8 | main.py:82 | strict UTF-8 decoding of `encode('utf-8')` gives back the text |
| Strings.EncodeUtf8Injective | main.py:82 | two texts with the same encoding are equal, so the downloaded bytes determine the sandbox text |
| Strings.EncodeUtf8Ascii | main.py:82 | ASCII text encodes to its code points |
| Orchestration.ReplayConcat | main.py:44-86 | replaying two traces in turn is replaying their concatenation |
| Orchestration.LocalDisk.MakeDirs | main.py:63 | `makedirs` adds the directory and changes nothing else |
| Orchestration.LocalDisk.Write | main.py:79-84 | a write replaces the file's bytes and changes nothing else |
| Orchestration.DownloadFilesFromSandbox | main.py:44-86 | the download returns normally iff the walk does, and leaves the disk as the walk's trace would |
| Orchestration.WalkDirListed | main.py:46-48 | a listed directory walks as the chain of its entries |
| Orchestration.DownloadEntries | main.py:48-86 | the entry loop runs the entries' walks in order, stopping at the first exception that escapes one |
| Orchestration.FinishWalk | main.py:46 | listing changes nothing locally |
| Orchestration.ChainStep | main.py:48 | one turn of the entry loop |
| Orchestration.ChainAdvance | main.py:48 | an entry that returns normally hands on to the next |
| Orchestration.ChainFails | main.py:48 | an escaping exception ends the loop |
| Orchestration.ChainEnds | main.py:48 | past the last entry the loop returned normally |
| Orchestration.EntrySteps | main.py:48 | one walk per entry |
| Orchestration.EntryStepsAt | main.py:48 | the k-th walk is that of the k-th entry |
| Orchestration.WalkEntriesIsChain | main.py:48-86 | the loop over a listing is the chain of its entries' walks |
| Orchestration.DownloadEntry | main.py:49-86 | one entry: skipped by the filters, or a directory made and descended into, or a file whose parent is made and which is read and written, with a failed read or open caught |
| Orchestration.PrefixTransitive | main.py:55 | string prefixes compose |
| Orchestration.RemoteUnderConcat | main.py:55 | traces under a root stay under it when joined |
| Orchestration.WalkDirUnderRoot | main.py:44-86 | every listing and every read of the download is of a path with the start directory as a prefix |
| Orchestration.WalkEntriesUnderRoot | main.py:48-86 | the same, for the entry loop |
| Orchestration.EntryActionsUnderRoot | main.py:49-86 | the same, for one entry |
| Orchestration.KeptEntries | main.py:52-56 | the entries that pass both filters |
| Orchestration.OnlyKeptEntriesMatter | main.py:52-56 | hidden entries and entries whose path lacks the directory as prefix play no part: the loop behaves as if only the kept entries were listed |
| Orchestration.SkeletonConcat | main.py:48-86 | the non-write part of a trace splits with it |
| Orchestration.SkeletonOfFileWrite | main.py:76-86 | the try block contributes only writes |
| Orchestration.ReadsDoNotSteerWalkDir | main.py:76-86 | failed reads or writes never stop the download: with the same listings it ends the same way and lists, reads and makes the same paths |
| Orchestration.ReadsDoNotSteerWalkEntries | main.py:76-86 | the same, for the entry loop |
| Orchestration.ReadsDoNotSteerEntry | main.py:76-86 | the same, for one entry |
| Orchestration.ReadableFileWritten | main.py:66-86 | a kept file that can be read and opened is written, UTF-8 encoded when it is text, whatever happened to other files |
| Orchestration.ChildLocalPath | main.py:70-71 | a child entry is written under its own name in the local directory |
| Orchestration.PrefixTestAdmitsSibling | main.py:55-71 | the prefix test is on strings: a file of a sibling directory whose name extends the listed one passes it, and maps to a local path climbing out with ".." |
| Orchestration.SiblingKept | main.py:52-56 | such a sibling file passes both filters |
| Orchestration.SiblingLocalPath | main.py:70-71 | and its local path climbs out with ".." |
| Orchestration.DecimalInjective | main.py:126 | distinct issue numbers print differently |
| Orchestration.NamesDetermineIssue | main.py:126-158 | the branch name, the commit message and the PR title each determine the issue number |
| Orchestration.TitleReferencesIssue | main.py:158 | the PR title is "Fixes #", then the decimal issue number, then ':' |
| Orchestration.LaterStage | main.py:128-178 | a run that got past the issue ends no earlier than the issue step |
| Orchestration.SandboxStage | main.py:129-136 | the sandbox steps fail only as "generate" or "run" |
| Orchestration.Planned | main.py:103-178 | the plan has seven effects |
| Orchestration.PublishPlanned | main.py:139-178 | five effects from the clone on |
| Orchestration.PublishPlannedStarts | main.py:140-149 | the plan starts with clone, branch and download |
| Orchestration.PublishPlannedSplit | main.py:149-178 | the plan after the download |
| Orchestration.Reached | main.py:103-178 | how many planned calls are issued before each end; at least three for the failures that stop the server |
| Orchestration.EffectsUpToStops | main.py:139-178 | a run's effects are a prefix of the plan; the server is stopped iff the end stops it, and then last |
| Orchestration.CleanupDiscipline | main.py:121-178 | failures of parse, repository, issue, generation, launch and the download exception never stop the server; a clone, branch, commit or PR that reports failure (False or None) stops it exactly once, as the last effect |
| Orchestration.CleanupAfterParse | main.py:106-178 | the same, once the URL is parsed |
| Orchestration.CompletedRunsPlan | main.py:139-186 | a completed run issued all seven planned calls in order and stopped nothing |
| Orchestration.PlannedPrefix | main.py:106-178 | the lookup and the issue come before the rest |
| Orchestration.LaterCases | main.py:129-178 | the later stage and effects, split on whether the sandbox steps succeed |
| Orchestration.EffectsAfterIssue | main.py:121-178 | once the issue exists, the effects are lookup, issue, then the rest |
| Orchestration.BuildWebsite | main.py:88-189 | the reported message is that of the first failing step (or "Error: ..." for an exception); success iff every step succeeded, with issue, PR and website URLs; the effects are `EffectsOf`; the disk changes only if the download ran |
| Orchestration.BuildFromParsed | main.py:103-189 | the same, from the parse result on |
| Orchestration.BuildFromIssue | main.py:126-186 | the same, from the issue on |
| Orchestration.BuildInSandbox | main.py:129-136 | the site runs iff both sandbox steps succeed, with the process and url of the launch; otherwise the failing step's message |
| Orchestration.PublishWebsite | main.py:139-178 | the temporary-directory block: clone, branch, download, commit, PR, with stop on each reported failure and the download exception passed on |
| Orchestration.PushWebsite | main.py:151-178 | commit and push, then the pull request, with stop on each failure |

## Left out

- The OpenAI completions and the JSON they return are inputs. The model takes the parsed manifest and ranking list, or `None` when parsing failed. Prompt texts are not modelled beyond which template is chosen.
- Importance that is not an integer is not modelled; the model's importance is `Option<int>`. A float would be compared with the integer ranks. A string next to an integer rank, or next to the 999 of an unranked record, makes `list.sort` raise TypeError, and the `except` turns that into `None`. Only a list whose keys are all strings would be sorted, and then lexicographically ("10" before "2").
- Manifest.DefineWebsiteStructure: `result.None? <==> parsed.None? || rankings.None?` holds only for integer or missing importances. The `None` that a string importance causes through the TypeError above is not produced.
- Creating the e2b sandbox and its timeout are not modelled, nor any exception from commands other than the modelled tries. The `check_sandbox_logs` function and the printing of logs are left out too, as they only print.
- `stop_website_server` is modelled as a `StopServer` effect; killing the process is not.
- The process of a failed launch keeps running, as in the source, and the model does not track it.
- From `deploy_to_ec2.py`, `get_or_create_key_pair`, `get_or_launch_instance`, `setup_instance` and `main` are left out. They are sequences of boto3 and paramiko calls with nothing to decide.
- boto3 and paramiko failures other than the modelled ones are left out: the describe error, the connection results and the command exit statuses.
- `os.makedirs` failures other than `makedirs("")` are left out.
- Orchestration.BuildWebsite: `Services.sandboxFiles`, the remote listing the download walks, is an input independent of `sb`. Nothing ties what `GenerateWebsiteInSandbox` and the healing wrote into `sb` to what the download copies into the clone.
- BuildMvpWebsite.Sandbox.MakeDirs: `dirs` records only the path that `mkdir -p` names, not the missing parents it also creates (e.g. "/home/user/static" for "static/css/main.css"). Nothing in the model reads `dirs`.
- Orchestration.LocalDisk.MakeDirs: `dirs` likewise records only the path that `os.makedirs` names, not the missing parents it also creates. Writes do not consult `dirs`, which only `blocked` gates.
- `os.path.relpath` is modelled for the absolute, normalised paths the walk produces. `abspath`, "." and ".." normalisation are left out.
- Lone surrogate characters in UTF-8 encoding are left out; Dafny's `char` excludes them.
- `os.walk` following symlinks, its `onerror` and its listing order are left out. The tree is an input, in walk order.
- Python's recursion limit is a `fuel` bound on the download walk. Running out of fuel is treated like the RecursionError the source would raise.
- FastAPI, uvicorn, dotenv and environment loading are left out. So are the issue and pull-request bodies, and the cleanup of the TemporaryDirectory.
- git subprocess details are left out, including `git config` in `clone_repository`, `create_branch`, `commit_and_push_changes` and `create_pull_request`. Only their results are inputs.
- Exceptions that the GitHub wrappers do not catch are left out. `clone_repository`, `create_branch` and `commit_and_push_changes` catch only `CalledProcessError`; `create_issue` and `create_pull_request` catch only `GithubException`. Any other exception, such as `FileNotFoundError` when git is missing or a connection error from PyGithub, reaches the outer handler, which reports "Error: ...". For clone, branch, commit and PR that path skips `stop_website_server`. The model's service results are a bool or an Option, so it cannot produce that outcome.
- Orchestration.CleanupDiscipline: covers failures that the wrappers report by returning False or None, not the uncaught exceptions above, which would leave the server running.
- DeployToEc2.WaitForSsh: takes `retries` and `delay` as parameters. The source's defaults, 10 and 15, are the constants `DefaultSshRetries` and `DefaultSshDelay`. Their only caller, `main`, is not part of this model.
- Orchestration.BuildWebsite: the contract does not state the final sandbox state. That state is stated by `BuildMvpWebsite.GenerateWebsiteInSandbox` and `BuildMvpWebsite.RunWebsiteInSandbox`.
- An exception raised inside `download_files_from_sandbox` leaves the temporary-directory block without `stop_website_server`. The outer handler then reports "Error: ...". The model keeps this as written. `CleanupDiscipline` shows that this case leaves the server running.
