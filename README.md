# gh-download, modelled in Dafny

gh-download fetches one path of a GitHub repository and saves it locally: a file, or a
directory tree. `download_file` gets a token from the gh CLI, asks the contents API for the
path's metadata, and then does one of two things. For a file, it picks a target path, makes the
target's directory and streams the raw content into it. For a listing, it makes a base directory
and calls itself once for every entry, in order, remembering whether all of them succeeded. A
retrying transfer, `_download_and_save_file`, is the one the tests exercise. It makes up to a
capped number of attempts. It backs off `2**attempt` seconds between them. It writes through
`<dest>.tmp`, which it renames onto the destination only when the body is complete.

This project models those parts and proves what they promise:

- `api.dfy`: `_strip_slashes`, the metadata URL and the authorisation headers.
- `paths.dfy`, `filesystem.dfy`: `pathlib` paths and the local disk as values. This covers files
  with their bytes, directories, and `mkdir(parents=True)`, write, unlink and rename, each with
  the condition under which the OS refuses it.
- `http.dfy`: the replies a GET can get. A `Script` of replies plays the role of the tests'
  mocked `side_effect` lists.
- `errors.dfy`: the branch `_handle_download_errors` picks for an exception, and its hint.
- `env.dfy`: the mutable world as a class. It holds the files, the directories, the GETs sent,
  the warnings printed and the back-offs requested.
- `transfer.dfy`: `_perform_download_and_save`, as a function and as a method over the world.
- `retry.dfy`: `_download_and_save_file`. Its retry policy (cap and retried statuses) is a
  parameter, instantiated for each of the two test suites. It is given as a specification
  (`Attempts`, `DownloadAndSave`) and as the loop that meets it (`AttemptLoop`,
  `DownloadAndSaveFile`).
- `tree.dfy`: `download_file` as a function of a `Node` tree, the metadata replies every
  recursive call meets, with the properties of the output-path rules and of the loop.
- `download.dfy`: `download_file` as the program runs it. These are methods over the world, with
  the `all_success` loop, proved equal to the functions of `tree.dfy`.
- `retry_scenarios.dfy`, `tree_scenarios.dfy`: every retry test and the integration test (`download` read as `download_file` with the retrying transfer),
  proved for all disks on which the destination is fresh and for all bodies.

The token, each metadata reply and each content reply are inputs. I/O, clocks and the network
are not modelled. Only what the program sends and writes is observed: the log of GETs, the disk,
the back-off delays and the warning count.

## Model

| member | source | states |
|---|---|---|
| Api.StripSlashes | gh_download/__init__.py:22-23 | the cleaned path neither starts nor ends with '/' |
| Api.StripSlashesCuts | gh_download/__init__.py:22-23 | the cleaned path is `s[i..j]`, with only '/' before `i` and after `j`: characters are removed only from the two ends, and the interior is kept unchanged |
| Api.StripSlashesUnique | gh_download/__init__.py:22-23 | any cut of that shape has the cleaned path as its core, so the result is exactly what `str.strip("/")` keeps |
| Api.StripSlashesIdempotent | gh_download/__init__.py:22-23 | stripping twice equals stripping once |
| Api.StripSlashesIgnoresLeadingSlash | gh_download/__init__.py:22-23 | a leading '/' does not change the cleaned path |
| Api.StripSlashesIgnoresTrailingSlash | gh_download/__init__.py:22-23 | a trailing '/' does not change the cleaned path |
| Api.AuthHeaders | gh_download/__init__.py:505-508 | the headers are exactly `Authorization` and `Accept`, with the given `Accept` value |
| Api.AuthHeadersCarryToken | gh_download/__init__.py:505-508 | the `Authorization` header is `token <value>`, and reading it back gives the token it was built from |
| Api.HasToken | gh_download/__init__.py:496-502 | defines `if not token`: a download goes on only with a token that is present and non-empty (`Tree.Materialize` states the other case) |
| Api.MetadataUrl | gh_download/__init__.py:510 | defines the contents URL `https://api.github.com/repos/{owner}/{repo}/contents/{path}?ref={branch}`; what it guarantees is stated by `Api.MetadataUrlDistinguishesPaths` |
| Api.MetadataUrlDistinguishesPaths | gh_download/__init__.py:510 | within one owner, repository and branch, two metadata URLs are equal only if they were built from the same repository path |
| Api.MetadataRequest | gh_download/__init__.py:505-515 | the metadata GET goes to the URL of the cleaned path and accepts `application/vnd.github.v3+json` |
| Api.MetadataRequestCarriesToken | gh_download/__init__.py:505-515 | the metadata GET is authorised with the caller's token |
| Api.MetadataRequestIgnoresOuterSlashes | gh_download/__init__.py:485-510 | asking for "/p", "p/" or "p" sends the same metadata GET |
| Paths.Join | gh_download/__init__.py:547 | `p / name` is a child of `p` named `name`, and joining "" leaves `p` unchanged |
| Paths.Name | gh_download/__init__.py:544 | defines `Path.name`: the last component, and "" for the current directory |
| Paths.Parent | gh_download/__init__.py:338 | defines `Path.parent`: the path without its last component, with "." its own parent |
| Paths.HasSuffix | gh_download/__init__.py:544 | defines whether `Path.suffix` is non-empty: the name has a last dot that is neither its first nor its last character |
| Paths.TmpPath | tests/test_retry.py:238 | the temporary file sits beside the destination and is a different path |
| Paths.TmpPathName | tests/test_retry.py:238 | the temporary file's name is the destination's name with ".tmp" appended |
| Paths.Ancestors | gh_download/__init__.py:551 | what `mkdir(parents=True)` creates contains the path itself and the current directory, and nothing deeper than the path |
| Paths.LastIndexOf | gh_download/__init__.py:544 | the index of the last occurrence of the character, or -1 when there is none |
| Paths.LastSegment | gh_download/__init__.py:527 | `Path(clean).name` contains no '/' |
| Paths.LastSegmentIsTail | gh_download/__init__.py:527 | the last segment is the tail of the path that starts at its beginning or right after its last '/' |
| FileSystem.Concat | gh_download/__init__.py:350-352 | no chunks give no bytes, and one chunk gives that chunk |
| FileSystem.ConcatAppend | gh_download/__init__.py:350-352 | writing the chunks of `a` and then those of `b` writes the chunks of `a + b` |
| FileSystem.AncestorsAreDirs | gh_download/__init__.py:551 | on a well-formed disk, every ancestor of a directory is a directory |
| FileSystem.MakeDirs | gh_download/__init__.py:549-557 | `mkdir(parents=True, exist_ok=True)` fails exactly when the path or an ancestor is a regular file; otherwise the path and its ancestors become directories and the files are unchanged |
| FileSystem.MakeDirsKeepsValid | gh_download/__init__.py:583-593 | making directories keeps a disk well-formed |
| FileSystem.MakeDirsOfDir | gh_download/__init__.py:338 | making an existing directory succeeds and changes nothing (`exist_ok=True`) |
| FileSystem.WriteFile | gh_download/__init__.py:350-352 | opening for writing fails exactly on a directory or a missing parent; otherwise only that file changes, and it then holds the data |
| FileSystem.Remove | tests/test_retry.py:266-268 | after unlinking, no file is at the path, and nothing else changes |
| FileSystem.Rename | tests/test_retry.py:233-268 | a rename fails exactly when the source is not a file, or the target is a directory or has no parent; otherwise the target holds the source's bytes and the source is gone |
| FileSystem.FileEditsKeepValid | gh_download/__init__.py:350-352 | writing, removing and renaming files keep a disk well-formed |
| Errors.HintFor | gh_download/__init__.py:397-411 | the not-found hint is given exactly for 404, and the auth hint exactly for 401 and 403 |
| Errors.Classify | gh_download/__init__.py:371-467 | the chosen branch's `isinstance` test passes, the test of every earlier branch fails, and only the HTTP branch adds a hint |
| Errors.RaisedBy | gh_download/__init__.py:344-361 | every way a GET fails raises a well-formed `RequestException` |
| Errors.RequestFailuresNeverReachFileBranch | gh_download/__init__.py:371-451 | a GET failure is reported by the HTTP, timeout, connection or request branch, as appropriate, and never as a file error |
| Errors.ConnectTimeoutIsReportedAsTimeout | gh_download/__init__.py:421-429 | an exception that is both a timeout and a connection error goes to the timeout branch |
| Errors.DiskErrorIsReportedAsFileFailure | gh_download/__init__.py:452-459 | the file branch handles exactly the `OSError`s that are not request exceptions |
| Transfer.PlainFetch | gh_download/__init__.py:326-361 | the GET is sent iff the parent directory can be made; otherwise nothing changes and a file error is reported. Success means a delivered body and a non-directory target, and then the target holds the chunks concatenated. A GET that fails before the body changes no file and is reported on its exception's branch; a broken stream leaves its partial body at the target; a target that cannot be opened changes no file and is reported as a file error |
| Transfer.PlainFetchKeepsValid | gh_download/__init__.py:326-361 | the transfer keeps a disk well-formed |
| Transfer.TruncatedStreamLeavesPartialFile | gh_download/__init__.py:350-361 | a stream that breaks part-way returns False but leaves the bytes received so far at the destination |
| Transfer.FailedGetOpensNoFile | gh_download/__init__.py:342-359 | a request error raised by `session.get` returns False before the file is opened, so no file appears, and the generic request branch reports it |
| Transfer.SaveChunks | gh_download/__init__.py:350-352 | the file ends up holding its old bytes followed by every chunk, in order |
| Transfer.PerformDownloadAndSave | gh_download/__init__.py:326-361 | the world ends as `PlainFetch` says, and the log has the one GET exactly when it was sent |
| Env.World.MakeDirs | gh_download/__init__.py:583-593 | the world's disk changes as `FileSystem.MakeDirs` says |
| Env.World.Open | gh_download/__init__.py:350 | `open("wb")` creates or truncates the file, as `FileSystem.WriteFile` says |
| Env.World.Append | gh_download/__init__.py:351-352 | `f.write(chunk)` appends the chunk to the open file |
| Env.World.Get | gh_download/__init__.py:344-349 | each GET is appended to the request log |
| Retry.FixedThree | tests/test_minimal_retry.py:17-256 | three attempts; 404 and 429 are retried and 401 is not |
| Retry.MaxRetries | tests/test_retry.py:17-230 | `max_retries + 1` attempts; 502 and 503 are retried and 404 is not |
| Retry.Transient | tests/test_retry.py:17-230 | defines the failures worth another attempt: a dropped connection, a time-out, any other request error and a broken stream always, and an HTTP error only when the policy lists its status |
| Retry.StepOf | tests/test_retry.py:17-268 | an attempt that saves had a delivered body, and an attempt that is retried failed transiently; a broken stream whose temporary file cannot be opened is fatal |
| Retry.StepOfWhenReady | tests/test_minimal_retry.py:17-256 | once the directories exist, a body is saved, a transient failure is retried and any other failure is fatal |
| Retry.Attempt | tests/test_retry.py:233-268 | one attempt leaves no temporary file; it puts the body at the destination exactly when it saves |
| Retry.Pause | tests/test_minimal_retry.py:53-85 | a retried attempt `k` is followed by one back-off of `2**k` seconds, unless it was the last attempt allowed |
| Retry.Backoff | tests/test_minimal_retry.py:232-256 | the back-offs before retries 1 to n are exactly `2**0`, ..., `2**(n-1)` |
| Retry.Attempts | tests/test_minimal_retry.py:232-256 | a run makes at most the cap of attempts and sleeps one fewer times than it attempts; a saving run ends with a delivered body |
| Retry.AttemptsDouble | tests/test_minimal_retry.py:85 | the back-offs of a run from attempt `k` are `2**k, 2**(k+1), ...` |
| Retry.AttemptsRetry | tests/test_minimal_retry.py:17-49 | a retried attempt is followed by its back-off and the rest of the run |
| Retry.AttemptsRetriedBefore | tests/test_minimal_retry.py:53-85 | every attempt of a run before its last one was retried |
| Retry.AttemptsEnd | tests/test_minimal_retry.py:17-154 | a run saves exactly when its last attempt saved |
| Retry.AttemptsStopEarly | tests/test_minimal_retry.py:126-154 | a run that ends before the cap ends on an attempt that was not retried |
| Retry.AttemptsStop | tests/test_minimal_retry.py:126-154 | an attempt that saves or fails for good is the last one |
| Retry.AttemptsAfterRetries | tests/test_minimal_retry.py:53-85 | after `k` retried attempts, a run is those attempts, their back-offs and the rest of the run |
| Retry.RunStoppedAt | tests/test_minimal_retry.py:17-154 | a run that stops at attempt `n` has `n + 1` attempts, `n` back-offs, and succeeds exactly when attempt `n` saved |
| Retry.RunExhausted | tests/test_minimal_retry.py:232-256 | a run whose every attempt is retried uses them all and fails |
| Retry.DownloadAndSave | tests/test_retry.py:17-268 | if the directory cannot be made, no GET is sent. Otherwise the back-offs are `1, 2, 4, ...`, one fewer than the GETs and never above the cap, and success ends on a delivered body |
| Retry.DownloadAndSaveIsAtomic | tests/test_retry.py:233-268 | the destination holds the saving attempt's body or what it held before, and the temporary file is gone once any GET was sent |
| Retry.DownloadAndSaveKeepsValid | tests/test_retry.py:233-268 | a transfer keeps a disk well-formed |
| Retry.DownloadAndSaveTouchesOnlyDest | tests/test_retry.py:233-268 | no file other than the destination and its temporary file changes |
| Retry.PausesAreBackoff | tests/test_minimal_retry.py:233-256 | the back-offs of `k` retried attempts are `[1, 2, 4, ...]`, with none after the last attempt allowed |
| Retry.FreshIsReady | tests/test_retry.py:17-51 | on a fresh destination, the attempts find the directories ready |
| Retry.TransientsAreRetried | tests/test_retry.py:17-169 | transient failures on ready directories are all retried |
| Retry.RecoveredTally | tests/test_retry.py:17-169 | transient failures followed by a body, within the cap, save after `n + 1` GETs |
| Retry.RecoversAfterTransients | tests/test_minimal_retry.py:17-123 | transient failures followed by a body, within the cap: success after `n + 1` GETs, back-offs `1, 2, ...`, the destination holds the body, and no temporary file remains |
| Retry.GivesUpAtCap | tests/test_minimal_retry.py:232-256 | transient failures at every attempt: failure after the cap of GETs, a back-off before each retry, and the destination as it was |
| Retry.StopsOnFatal | tests/test_minimal_retry.py:126-154 | a non-transient failure ends the transfer at that attempt, leaving the destination as it was |
| Retry.SavedAfterTransients | tests/test_retry.py:17-169 | a saved file comes from the last GET, which got a body, and every earlier GET failed transiently |
| Retry.SavedIffRecovered | tests/test_retry.py:17-268 | on a fresh destination, success holds exactly when some allowed attempt gets a body and every attempt before it failed transiently |
| Retry.Warnings | tests/test_minimal_retry.py:158-193 | one warning per back-off, and none when quiet |
| Retry.TryOnce | tests/test_retry.py:233-268 | one GET is logged, and the files change as `Attempt` says |
| Retry.SaveBody | tests/test_retry.py:17-51 | a body goes to the temporary file, which then replaces the destination, as `Attempt` says |
| Retry.DiscardBody | tests/test_retry.py:233-268 | partial bytes in the temporary file are removed, as `Attempt` says |
| Retry.Round | tests/test_minimal_retry.py:158-193 | a retried attempt is followed by a warning (unless quiet) and a `2**k` back-off, except after the last attempt allowed |
| Retry.AttemptLoop | tests/test_minimal_retry.py:17-256 | the loop stops on the first attempt that is not retried, or at the cap. It logs one GET per attempt, with the back-offs and warnings of those attempts |
| Retry.RunAttempts | tests/test_retry.py:17-268 | the attempts change the world exactly as `Attempts` and `Settle` say |
| Retry.DownloadAndSaveFile | tests/test_retry.py:17-268 | the world ends as `DownloadAndSave` says: the disk, one logged GET per attempt, the back-offs and the warnings |
| RetryScenarios.RetryOnNetworkError | tests/test_minimal_retry.py:17-49 | a dropped connection, then the body: success, 2 GETs, sleeps `[1]`, the body saved |
| RetryScenarios.RetryOnIncompleteRead | tests/test_minimal_retry.py:53-85 | two GETs that raise `ChunkedEncodingError`, then the body: 3 GETs and sleeps `[1, 2]` |
| RetryScenarios.RetryOn404 | tests/test_minimal_retry.py:89-123 | under three attempts a 404 is retried: 2 GETs, sleeps `[1]`, the body saved |
| RetryScenarios.NoRetryOn401 | tests/test_minimal_retry.py:126-154 | a 401: failure after 1 GET, and no file at the destination |
| RetryScenarios.RetryWarnsWhenNotQuiet | tests/test_minimal_retry.py:158-193 | one retry prints exactly one warning and sleeps 1 second |
| RetryScenarios.RetryOn429 | tests/test_minimal_retry.py:197-229 | a 429 is retried: success after 2 GETs, the body saved |
| RetryScenarios.FailsAfterThreeAttempts | tests/test_minimal_retry.py:233-256 | connection errors throughout: failure, 3 GETs, sleeps `[1, 2]`, no file |
| RetryScenarios.RetriesConnectionErrors | tests/test_retry.py:17-51 | `max_retries=2`, two connection errors, then the body: 3 GETs, the body saved |
| RetryScenarios.RetriesChunkedEncodingError | tests/test_retry.py:54-86 | a GET that raises `ChunkedEncodingError`, then the body: 2 GETs, the body saved |
| RetryScenarios.RetriesServerErrors | tests/test_retry.py:89-134 | a 502 and a 503, then the body: 3 GETs, the body saved |
| RetryScenarios.RetriesTimeout | tests/test_retry.py:137-169 | `max_retries=1`, a timeout, then the body: 2 GETs, the body saved |
| RetryScenarios.FailsAfterMaxRetries | tests/test_retry.py:172-196 | connection errors throughout: failure after `max_retries + 1` GETs for every `max_retries`, and no file |
| RetryScenarios.NoRetryOn404 | tests/test_retry.py:199-230 | under `max_retries` a 404 is final after 1 GET, and no file |
| RetryScenarios.TempFileCleanedUpOnError | tests/test_retry.py:233-268 | `max_retries=0` and a stream that breaks after some bytes: failure, and neither the destination nor its `.tmp` exists |
| Tree.FileTarget | gh_download/__init__.py:540-547 | An existing directory gets `output / file_name`. So does a path that is absent, is not named after the file and has no suffix. In every other case the target is `output` itself |
| Tree.DirBase | gh_download/__init__.py:572-580 | the base is `output / basename(path)` exactly when the cleaned path is non-empty, `output` has no suffix, and `output` is a directory or absent; otherwise it is `output` |
| Tree.TargetOf | gh_download/__init__.py:540-547 | the file target is `output` or `output / file_name` |
| Tree.BaseOf | gh_download/__init__.py:572-580 | the base directory is `output` or `output / basename(path)` |
| Tree.RawRequest | gh_download/__init__.py:559-568 | the content GET goes to `download_url` and accepts `application/octet-stream` |
| Tree.RawRequestCarriesToken | gh_download/__init__.py:559-562 | the content GET carries the same token as the metadata GET |
| Tree.Fetch | gh_download/__init__.py:563-568 | fetching only appends GETs of the download URL to the log, and success leaves a file at the target |
| Tree.DirectFetchFailureIsReported | gh_download/__init__.py:563-568 | the file branch returns what `_perform_download_and_save` returns, on the disk it leaves, and fails exactly when an error was handed to `_handle_download_errors`; a parent that cannot be made is reported as a file error and changes nothing |
| Tree.DirectFetchReportsFailedGet | gh_download/__init__.py:356-358 | a failed download GET makes the file branch return False, reported on the branch the GET's exception selects |
| Tree.Asked | gh_download/__init__.py:505-517 | the metadata GET is appended to the log, and nothing else changes |
| Tree.Materialize | gh_download/__init__.py:496-502 | without a usable token, `download_file` returns False and nothing happens: no GET, no file |
| Tree.Respond | gh_download/__init__.py:512-639 | a failed metadata request, or a reply that is neither a file nor a list, gives False and changes nothing |
| Tree.Listed | gh_download/__init__.py:583-632 | defines what a listing's call returns: False from the unchanged world when the base directory cannot be made, otherwise `all_success` from where the loop left the world; `Tree.DirectoryOk` states when that is True |
| Tree.SaveFile | gh_download/__init__.py:525-568 | without a `download_url`, nothing is fetched and the result is False. The log only grows, and success leaves a file at the chosen target |
| Tree.ListDir | gh_download/__init__.py:570-632 | the loop makes one visit per entry of the listing |
| Tree.Entries | gh_download/__init__.py:595-632 | the loop ends with one visit per entry |
| Tree.WellFormed | gh_download/__init__.py:604 | defines the skip test: an entry is recursed into only when its name, type and path are all present and non-empty (`Tree.EntriesOk` states what a skipped entry does to `all_success`) |
| Tree.RespondOnFile | gh_download/__init__.py:525-568 | a file descriptor is handled by the file branch, with `Path(clean).name` as the default name |
| Tree.RespondOnListing | gh_download/__init__.py:570-632 | a list is handled by the directory branch |
| Tree.ListDirUnfold | gh_download/__init__.py:572-595 | the base directory is made first; if that fails nothing else happens, otherwise the loop starts from `all_success = True` |
| Tree.EntriesKeepPrefix | gh_download/__init__.py:599-632 | the loop only appends visits |
| Tree.EntriesVisitInOrder | gh_download/__init__.py:599-632 | The entries are visited in list order, and exactly the malformed ones are skipped. Every other entry is downloaded into the base by a recursive call, starting from the world the previous entry left |
| Tree.EntriesOk | gh_download/__init__.py:595-632 | `all_success` stays true exactly when every entry is well-formed and every recursive call returns True; a failure does not stop later siblings |
| Tree.ListDirOk | gh_download/__init__.py:595-632 | the loop's result is true exactly when every entry is well-formed and every recursive call returned True |
| Tree.DirectoryOk | gh_download/__init__.py:570-632 | a listing returns True exactly when the base directory can be made, every entry is well-formed, and every recursive call returns True. If the base cannot be made, only the metadata GET was sent |
| Tree.MaterializeLogs | gh_download/__init__.py:496-515 | a call only appends to the log, and with a token its first request is its own metadata GET |
| Tree.RespondLogs | gh_download/__init__.py:519-639 | handling the metadata reply only appends to the log |
| Tree.ListDirLogs | gh_download/__init__.py:570-632 | the directory branch only appends to the log |
| Tree.EntriesLogs | gh_download/__init__.py:595-632 | the loop only appends to the log |
| Tree.NothingFetchedWithoutDownloadUrl | gh_download/__init__.py:512-639 | a failed metadata request, an unexpected shape, or a file without `download_url` gives False, with only the metadata GET sent |
| Tree.DirectFileSaved | gh_download/__init__.py:540-568 | a directly fetched file is saved exactly when its directory can be made, the GET delivers a body and the target is not a directory. The target then holds the body, and one content GET follows the metadata GET |
| Tree.FetchKeepsValid | gh_download/__init__.py:563-568 | fetching a file keeps a disk well-formed |
| Tree.SaveFileKeepsValid | gh_download/__init__.py:525-568 | the file branch keeps a disk well-formed |
| Tree.MaterializeKeepsValid | gh_download/__init__.py:470-639 | a whole download keeps a disk well-formed: no path is both a file and a directory, and nothing appears outside an existing directory |
| Tree.RespondKeepsValid | gh_download/__init__.py:519-639 | handling the metadata reply keeps a disk well-formed |
| Tree.ListDirKeepsValid | gh_download/__init__.py:570-632 | the directory branch keeps a disk well-formed |
| Tree.EntriesKeepValid | gh_download/__init__.py:595-632 | the loop keeps a disk well-formed |
| TreeScenarios.DownloadedTxtHasSuffix | tests/test_retry.py:303 | "downloaded.txt" has a suffix |
| TreeScenarios.RecoveredFetch | tests/test_retry.py:291-317 | a lost connection, then the body: the file is saved at the output path after two content GETs |
| TreeScenarios.RetryIntegration | tests/test_retry.py:271-317 | the integration test: success, the body at `output_path` itself, and three GETs (the metadata, then the download URL twice) |
| Download.FetchFile | gh_download/__init__.py:563-568 | fetching against the world ends as `Tree.Fetch` says |
| Download.DownloadFile | gh_download/__init__.py:470-639 | `download_file` against the world ends as `Tree.Materialize` says, so every property of the tree functions holds of it |
| Download.SaveFileTo | gh_download/__init__.py:525-568 | the file branch against the world ends as `Tree.SaveFile` says |
| Download.ListDirectory | gh_download/__init__.py:570-593 | the directory branch against the world ends as `Tree.ListDir` says |
| Download.DownloadEntries | gh_download/__init__.py:595-632 | the `all_success` loop over the entries ends as `Tree.Entries` says |

## Left out

- gh CLI authentication (`get_github_token_from_gh_cli` and its helpers, gh_download/__init__.py:26-323) is subprocess and console work. Its result is an input: the `token` of each `Node`, one per call, because `download_file` in gh_download/__init__.py asks for a token on every recursive call.
- ghdl/__init__.py, the `main` entry point and the CLI module are not part of this model. They are console front-ends.
- Rich console output is not modelled: panels, rules and messages. Only the branch and hint `_handle_download_errors` picks are modelled, together with a count of retry warnings.
- The HTTP transport is not modelled: `requests.Session`, timeouts and `raise_for_status`. Each GET's reply is an input, and the body arrives as the chunks `iter_content` yields.
- JSON parsing is not modelled. The metadata reply is taken already parsed as a `Meta`. Its fields are optional strings. A field that is present but not a string is not modelled, and neither is a list item that is not an object (where `item.get` at gh_download/__init__.py:600 raises an `AttributeError` that `download_file` does not catch).
- Retry.Pause: `time.sleep` is recorded, not performed. The recorded delay is `2**attempt`, in the seconds tests/test_minimal_retry.py asserts. The `retry_delay` multiplier of tests/test_retry.py and a doubled delay for 429 are not modelled, because no test pins them.
- `_download_and_save_file` is not in gh_download/__init__.py. `Retry` follows tests/test_retry.py and tests/test_minimal_retry.py, which pin its behaviour down. The tests do not pin what a local `OSError` does in the loop, and it is modelled as fatal, with the temporary file removed.
- Retry.FixedThree, Retry.MaxRetries: the two test suites disagree on whether 404 is retried and on how the cap is written, so both are instances of one `Policy`.
- Retry.FixedThree: tests/test_minimal_retry.py pins 404 and 429 as retried and 401 as final. The other retried statuses (500, 502, 503, 504) are assumed, and its contract states only the pinned ones.
- Retry.MaxRetries: tests/test_retry.py pins 502 and 503 as retried and 404 as final. The other retried statuses (429, 500, 504) are assumed, and its contract states only the pinned ones.
- Tree.Fetch: the retrying transfer to the current directory "." (a path without a name, where `with_suffix` would raise `ValueError`) returns False without a request.
- Retry.Transient: the tests pin only `ChunkedEncodingError` raised by `session.get` as retried. That every other request error raised there (`TooManyRedirects`, `InvalidURL`, ...) is retried too is assumed, because its `RequestError` is one case.
- Tree.Fetch: the `download(...)` that tests/test_retry.py:271-317 calls with `max_retries` and `retry_delay` is not in gh_download/__init__.py. It is modelled as `download_file` whose file branch uses the retrying transfer `_download_and_save_file`, not `_perform_download_and_save` (the `Retrying` fetcher of `Tree.Fetch`, used by `TreeScenarios.RetryIntegration`). This reading is inferred from that test: three GETs, the second one failing with a connection error.
- Transfer.PlainFetch: a `ConnectionError` or read time-out raised while the body is streaming, after the file was opened, is modelled only as `Truncated`. `requests` re-raises a read time-out inside `iter_content` as a `ConnectionError`, so the source reports both on the connection branch (gh_download/__init__.py:429-440), but the model reports `Truncated` on the generic request branch. `ConnectionLost`, `TimedOut` and `RequestError` stand for failures raised by `session.get` itself, before the body, which leave no file behind.
- A retry of the metadata request is not modelled. `download_file` in gh_download/__init__.py sends it once.
- The blob/base64 fallback transfer is not modelled, because neither gh_download/__init__.py nor its tests exercise it.
- Paths.HasSuffix approximates `Path.suffix` as "a last dot that is neither the first nor the last character of the name".
- Paths.LastSegment approximates `Path(s).name` as "the text after the last '/'" (so `Path("a/")` is not collapsed). `pathlib`'s collapsing of "." and of repeated '/' is not modelled.
- FileSystem.MakeDirs is all or nothing. A real `mkdir(parents=True)` that fails part-way may leave some ancestors created.
- Transfer.PlainFetch: `_perform_download_and_save` writes straight to the destination, so a stream that breaks part-way leaves a partial file there (`TruncatedStreamLeavesPartialFile`). The atomic `.tmp` discipline is proved only of the retrying transfer, which is the one tests/test_retry.py:233-268 checks it for (neither the destination nor the temporary file survives a failed attempt).
- Concurrency, file permissions and disk space are not modelled beyond the "an OSError happens" conditions on each filesystem operation.
