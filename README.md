# OMERO JIPipe plugin — a verified Dafny model of its core

The plugin lets OMERO.web users run JIPipe pipelines on their data. This
project models three parts of it:

- **The background job `run_jipipe_task`** (`tasks.dfy`). The job:
  - writes the pipeline configuration to `JIPipeProject.jip` in a fresh input
    directory;
  - reads the ImageJ path from the server configuration;
  - starts JIPipe and streams its output into a log file, between a header
    line and an exit-code marker;
  - registers the process id in the shared cache under the job id;
  - in `finally`, deletes that key, discards the job from the user's
    `active_jipipe_jobs_<user>` set and removes both temporary directories.

  The job is imperative Dafny over a `Host` object (cache, temporary
  directories, log files, and a trace of effects). Each method is proved
  equal to a specification function of the host state. Failures are an
  explicit `Fault` parameter: an exception or a KeyboardInterrupt at a named
  step. The model follows Python's try/except/finally rules, including the
  places where the source itself goes wrong, modelled as written:
  - an interrupt runs the cleanup twice, and the second `rmtree` raises
    FileNotFoundError;
  - the process group is signalled only after the directories are removed;
  - a fault before `cfg` is bound makes `cfg.close()` in `finally` raise
    UnboundLocalError before any cleanup, so the directories and the cache
    entries are left behind;
  - an interrupt before `Popen` returns makes `process.pid` raise.
- **The view** (`views.dfy`):
  - the rewrite of the uploaded project: every node whose lower-cased
    `jipipe:alias-id` contains `define-project-ids` gets `dataset-ids` set to
    the id of the `JIPipeResults` project;
  - the find-or-create of that project;
  - `process_datasets`: two temporary directories made before the `try`, so
    a failing second `mkdtemp` leaves the first behind; inside the `try`, only
    the input directory is removed in `finally`; 500 replies on any exception;
  - `getJIPipeJSON`: the project lookup, the search for the first file
    annotation, and its 404/400/JSON replies.
- **The dataset-ID form field** (`forms.dfy`). `clean_raw_number_list` runs
  `re.findall(r'(\d+-\d+|\d+)', data)`, expands ranges, and returns the
  sorted set. The regular-expression scan is modelled precisely: leftmost,
  non-overlapping, the range alternative first.

Supporting modules:

- `decimal.dfy`: `int()` of a digit string and `str()` of an int.
- `json.dfy`: the abstract JSON document, ASCII `lower()`, and the substring
  test.
- `host.dfy`: the host state and its primitive operations.
- `wrappers.dfy`: `Option`.

## Model

| member | source | states |
|---|---|---|
| Tasks.RunJipipeTask | JIPipeRunner/tasks.py:11-80 | The host state after the task and how it ends are exactly `Run(old state, job)`; the lemmas below state what `Run` does on each path |
| Tasks.RunProtected | JIPipeRunner/tasks.py:18-80 | try, except clauses and finally together equal `Protected`: an exception raised in `finally` replaces the one pending from a handler |
| Tasks.RunTryBody | JIPipeRunner/tasks.py:19-56 | The try block, step by step until the fault, equals `TryEffects`: the project file is written into the input directory, then the log and registry effects follow |
| Tasks.RunLogged | JIPipeRunner/tasks.py:23-56 | After the project file: the log is truncated when opened and then holds `TryLog`; launch and registration reach the trace only if their steps complete |
| Tasks.WriteHeaderAndLaunch | JIPipeRunner/tasks.py:38-56 | Starting from the truncated log, the header is written before the launch; the log ends as `TryLog` and the registry holds the pid exactly when registration completes |
| Tasks.LaunchAndStream | JIPipeRunner/tasks.py:40-56 | Launch, then `cache.set(job_uuid, pid)`, then streaming: the registry maps the job to the pid exactly when registration completes |
| Tasks.StreamOutput | JIPipeRunner/tasks.py:51-56 | After the header, the log ends as `TryLog`: the exit marker is appended only if the loop ends normally and `wait` completes |
| Tasks.CopyLines | JIPipeRunner/tasks.py:51-53 | The loop appends output lines in order (loop invariant: the log is the header plus the first i lines) and stops at the faulting line, or after the last one |
| Tasks.Cleanup | JIPipeRunner/tasks.py:74-80 | The cleanup sequence equals `CleanupSpec`: delete the key, rewrite the user's set without the job, rmtree input then output; the first step that raises ends it |
| Tasks.RunHandlers | JIPipeRunner/tasks.py:57-70 | `except KeyboardInterrupt` raises on unbound `cfg`, cleans up, then signals the group or raises on unbound `process`; `except Exception` appends the error line |
| Tasks.RunFinally | JIPipeRunner/tasks.py:72-80 | `finally` raises UnboundLocalError when `cfg` is unbound; otherwise it runs the cleanup |
| Tasks.Effective | JIPipeRunner/tasks.py:25-39 | A missing `omero.web.imagej` entry makes the effective fault the TypeError at the header write whenever no fault is requested, the requested one is never reached, or it lies after the header write; an earlier fault is kept, and so is any fault on a configured path at a step the run reaches; a fault at an output line the process never prints is dropped (the run has no fault) |
| Tasks.Header | JIPipeRunner/tasks.py:39 | The first line of the log: the ImageJ path after "Executable ImageJ at: ", ended by a newline; `FullLogLayout` and `StreamedLog` place it first |
| Tasks.ExitMarker | JIPipeRunner/tasks.py:56 | The line after the output, naming the exit code; `ExitMarkerInjective` shows the code can be read back |
| Tasks.ErrorLine | JIPipeRunner/tasks.py:69 | The line the `except Exception` clause appends, holding the exception text; `ExceptionRun` and `MissingImageJ` state where it goes |
| Tasks.ActiveJobs | JIPipeRunner/tasks.py:61 | `set(cache.get(user_key, []))`: the stored set, the empty set for a missing key, and a TypeError for a stored pid; `ReleasedWhenActive` says when it succeeds |
| Tasks.Released | JIPipeRunner/tasks.py:74-78 | The registry after `cache.delete(job_uuid)` and the read-discard-write of the user's set; `ReleasedEffect`, `ReleaseAbsent` and `ReleaseIdempotent` state its effect |
| Tasks.ExitMarkerInjective | JIPipeRunner/tasks.py:56 | Different exit codes give different markers |
| Tasks.FullLogLayout | JIPipeRunner/tasks.py:38-56 | A complete log is the header, then every output line in order, then the marker, from which the exit code can be read back uniquely |
| Tasks.StreamedLog | JIPipeRunner/tasks.py:38-56 | Once the header is written, the log is the header and the lines streamed before the stop, plus the exit marker exactly when the run gets past `wait` |
| Tasks.TryLogIsPrefix | JIPipeRunner/tasks.py:38-56 | Wherever the run stops, the log is a prefix of the complete log, and its lines after the header are the output lines in order |
| Tasks.ReleasedEffect | JIPipeRunner/tasks.py:74-78 | After the cleanup the job key is gone; the user's set holds the old members except the job; every other key is untouched |
| Tasks.ReleasedWhenActive | JIPipeRunner/tasks.py:76-78 | The registry part of the cleanup succeeds whenever the user's entry is a set or absent |
| Tasks.ReleaseAbsent | JIPipeRunner/tasks.py:76-78 | Discarding an absent id, with no job key, leaves the registry unchanged |
| Tasks.ReleaseIdempotent | JIPipeRunner/tasks.py:58-78 | Running the registry part of the cleanup twice has the effect of running it once |
| Tasks.RunEntersTry | JIPipeRunner/tasks.py:15-18 | When both mkdtemp calls succeed, the final state and the outcome of the run are those of the protected block on two new directories |
| Tasks.CleanupCompletes | JIPipeRunner/tasks.py:74-80 | With both directories present and a readable set, the cleanup yields `Released`, removes both directories and emits its four effects in order |
| Tasks.CleanupRepeated | JIPipeRunner/tasks.py:72-80 | A second cleanup changes no registry entry, but its first rmtree raises FileNotFoundError |
| Tasks.ReleasedIgnoresJobKey | JIPipeRunner/tasks.py:74 | Whatever the job key holds, for example the registered pid, does not affect the cleanup's result |
| Tasks.TryEffectsFrame | JIPipeRunner/tasks.py:19-56 | The try block leaves the directories alone and does not change what the cleanup will release |
| Tasks.RegisteredWhileRunning | JIPipeRunner/tasks.py:40-49 | Once registration completes, the cache maps the job to the pid, and the launch is traced right before it |
| Tasks.ProtectedCleansUp | JIPipeRunner/tasks.py:18-80 | With no interrupt and `cfg` bound, the task returns normally and the cleanup is complete: registry released, both directories gone, effects in source order |
| Tasks.ProtectedInterrupted | JIPipeRunner/tasks.py:57-80 | An interrupt: cleanup, directory removal, then the signal (if `process` is bound); `finally` repeats the cleanup and escapes with FileNotFoundError |
| Tasks.ProtectedCfgUnbound | JIPipeRunner/tasks.py:72-73 | A fault before `cfg` is bound: UnboundLocalError escapes from `finally`; the registry and directories are untouched |
| Tasks.EnteredCleansUp | JIPipeRunner/tasks.py:15-80 | `ProtectedCleansUp` on the two directories mkdtemp just made, stated in terms of the state before them |
| Tasks.EnteredInterrupted | JIPipeRunner/tasks.py:15-80 | `ProtectedInterrupted` on the two directories mkdtemp just made, stated in terms of the state before them: outcome, registry, directories, name counter, log and trace |
| Tasks.EnteredCfgUnbound | JIPipeRunner/tasks.py:15-24 | `ProtectedCfgUnbound` on the two directories mkdtemp just made: both stay behind |
| Tasks.FreshDirsRemoved | JIPipeRunner/tasks.py:79-80 | Removing the two directories a run made restores the directory set it started from |
| Tasks.NormalRun | JIPipeRunner/tasks.py:11-80 | A run without faults returns normally, logs the full log, leaves the directory set as it was, and releases the job |
| Tasks.NormalTrace | JIPipeRunner/tasks.py:11-80 | Order of effects in a normal run: project file, launch, pid registration, key deletion, set update, both rmtrees |
| Tasks.ExceptionRun | JIPipeRunner/tasks.py:67-80 | An exception once `cfg` is bound: the error line is appended after what the log held, the job is released, and the directories are gone |
| Tasks.MissingImageJ | JIPipeRunner/tasks.py:38-39 | Without an ImageJ path, and with no fault requested at or before the header write, the task returns normally and the log file holds exactly the TypeError line, since the header write fails after truncation; a fault requested for a later step or an unprinted output line is pre-empted; no other log changes |
| Tasks.FaultBeforeConfig | JIPipeRunner/tasks.py:19-24 | A fault at the project-file write or config load escapes as UnboundLocalError; registry untouched; both directories leaked |
| Tasks.FaultOutsideTry | JIPipeRunner/tasks.py:15-16 | A fault in mkdtemp escapes at once; a first directory already made is leaked |
| Tasks.InterruptRun | JIPipeRunner/tasks.py:57-80 | An interrupted run escapes with FileNotFoundError on the input directory, yet the job is released and both directories are gone; the log is what the try block wrote, with no error line |
| Tasks.InterruptedStreamLog | JIPipeRunner/tasks.py:51-66 | An interrupt while output line k is copied leaves the header and the first k lines in the log, with no exit marker and no error line |
| Tasks.InterruptTrace | JIPipeRunner/tasks.py:57-80 | Trace of an interrupted run: cleanup, both rmtrees, signal, then the registry part of the cleanup a second time |
| Host.Host.MakeTemp | JIPipeRunner/tasks.py:15-16 | mkdtemp returns a name never used before and adds that directory |
| Host.Host.WriteFile | JIPipeRunner/tasks.py:19-21 | Writing a JSON document into an existing directory is recorded in the trace |
| Host.Host.RemoveTree | JIPipeRunner/tasks.py:79-80 | rmtree succeeds exactly when the directory exists and removes it; otherwise nothing changes |
| Host.Host.CacheSet | JIPipeRunner/tasks.py:49 | The key maps to the value; nothing else changes |
| Host.Host.CacheDelete | JIPipeRunner/tasks.py:74 | The key is gone, and deleting an absent key is not an error |
| Host.Host.OpenTruncate | JIPipeRunner/tasks.py:38 | Opening with 'w' empties the log file |
| Host.Host.Append | JIPipeRunner/tasks.py:68-69 | Writing adds one chunk at the end of the file, creating it when absent |
| Host.Host.Launch | JIPipeRunner/tasks.py:40-47 | The launch of a process is recorded |
| Host.Host.SignalGroup | JIPipeRunner/tasks.py:66 | The signal to the process group is recorded |
| Host.Host.RunCommand | JIPipeRunner/views.py:256 | The run of the JIPipe command on the input and output directories is recorded |
| Decimal.IntToString | JIPipeRunner/tasks.py:56 | str(code) is non-empty and starts with '-' exactly for negative codes |
| Decimal.ParseNat | JIPipeApp/JIPipeRunner/forms.py:25-28 | `int()` on a string of ASCII digits, most significant first; `ParseNatToDecimal` and `ParseNatLeadingZero` state its properties |
| Decimal.ParseNatToDecimal | JIPipeApp/JIPipeRunner/forms.py:25 | int(str(n)) == n |
| Decimal.IntToStringInjective | JIPipeRunner/tasks.py:56 | Different integers print differently |
| Decimal.ParseNatLeadingZero | JIPipeApp/JIPipeRunner/forms.py:28 | A leading zero does not change int() |
| Json.Lower | JIPipeRunner/views.py:203 | lower() keeps the length and lower-cases each ASCII letter in place |
| Json.ContainsSubAt | JIPipeRunner/views.py:203 | The `in` test holds exactly when the marker occurs at some position of the string |
| Json.LowerIdempotent | JIPipeRunner/views.py:203 | Lower-casing twice equals lower-casing once |
| Views.Matches | JIPipeRunner/views.py:203 | `"define-project-ids" in alias.lower()`; `MatchExample` and `MatchIgnoresCase` state its properties |
| Views.RewriteDocument | JIPipeRunner/views.py:202-204 | The rewrite of the request body's `graph.nodes`, or None when the loop would raise; `RewriteDocumentEffect`, `RewriteFailsOnMalformed` and `RewriteIdempotent` state its effect |
| Views.RewriteNode | JIPipeRunner/views.py:203-204 | A matching node gains `dataset-ids == [id]` and keeps all other fields; a non-matching node is unchanged; the alias is kept |
| Views.RewriteNodes | JIPipeRunner/views.py:202-204 | The loop over the nodes raises on a malformed node, and otherwise rewrites every node under its own key |
| Views.RewriteDocumentEffect | JIPipeRunner/views.py:202-204 | After the rewrite, matching nodes list exactly the results project; the node key set, non-matching nodes, other node fields and the rest of the document are unchanged |
| Views.RewriteFailsOnMalformed | JIPipeRunner/views.py:202-203 | A missing `graph`, a missing `nodes`, or a node without a string alias makes the rewrite fail |
| Views.RewriteNodeIdempotent | JIPipeRunner/views.py:203-204 | Rewriting a rewritten node changes nothing |
| Views.RewriteIdempotent | JIPipeRunner/views.py:202-204 | Rewriting a rewritten document changes nothing |
| Views.MatchExample | JIPipeRunner/views.py:203 | "My-Define-Project-IDs" matches: the test ignores case and looks for a substring |
| Views.MatchIgnoresCase | JIPipeRunner/views.py:203 | An alias and its lower-cased form always agree on the test |
| Views.Named | JIPipeRunner/views.py:187 | The name lookup returns exactly the projects of the store that carry that name |
| Views.FindOrCreate | JIPipeRunner/views.py:184-195 | The lookup of "JIPipeResults" by name: create one with the next id, reuse a single match, or raise on several; `ResultsProjectUnique` and `FindOrCreateStable` state its effect |
| Views.ResultsProjectUnique | JIPipeRunner/views.py:184-195 | Lookup: created iff none exists, reused iff one exists, raises if several; afterwards exactly one results project exists with the returned id; valid ids stay valid |
| Views.FindOrCreateStable | JIPipeRunner/views.py:187-195 | A second lookup reuses what the first found or created and changes nothing |
| Views.ObjectStore.FindOrCreateResults | JIPipeRunner/views.py:184-195 | The store and the returned id are those of `FindOrCreate` |
| Views.PrepareProject | JIPipeRunner/views.py:184-204 | Results project, body parse, rewrite, each failing with its own cause, equals `Prepare` |
| Views.RunPrepared | JIPipeRunner/views.py:206-318 | The prepared project is written into the input directory and run on it and the output directory only if ready; the input directory alone is removed; the reply is 500 with the cause or on a non-zero exit, else 200 |
| Views.ProcessDatasets | JIPipeRunner/views.py:95-322 | The host state, the store and the response equal `Serve`: a failing mkdtemp escapes before the try, otherwise `Process`, whose properties follow |
| Views.TempFailureLeaks | JIPipeRunner/views.py:95-102 | A failing mkdtemp escapes the view uncaught with the store and the trace untouched; when the second call fails, the input directory stays behind |
| Views.InputLeftIff | JIPipeRunner/views.py:95-318 | The input directory outlives the request exactly when the second mkdtemp raises |
| Views.ProcessRemovesInput | JIPipeRunner/views.py:315-318 | On every path through the try statement the input directory is gone and the output directory remains; cache and logs are untouched; the removal is the last effect |
| Views.ProcessOutcome | JIPipeRunner/views.py:312-322 | The reply is 200 with the success text iff the lookup is unambiguous, the body parses, the rewrite succeeds and the command exits with 0; otherwise 500 |
| Views.ProcessWritesProject | JIPipeRunner/views.py:206-256 | A well-formed request writes the rewritten project into the input directory, runs the command, then removes the directory |
| Views.ProcessRejectsMalformed | JIPipeRunner/views.py:198-209 | An unparseable body, or one without graph, nodes or alias, gets a 500 and no project file; the results project exists anyway |
| Views.FindProject | JIPipeRunner/views.py:343-345 | The lookup by id returns a project of the store with that id, or None when there is none |
| Views.FirstFile | JIPipeRunner/views.py:348-352 | The search returns the least index holding a file annotation, or None when there is none |
| Views.GetJIPipeJSON | JIPipeRunner/views.py:343-369 | 404 for a missing project; 404 when it has no file annotation; 400 with the parse error for the first file annotation's content; otherwise 200 with the parsed document |
| Forms.MatchLength | JIPipeApp/JIPipeRunner/forms.py:19 | The length of the match at the start of a string, 0 for none; the range alternative `\d+-\d+` is tried before `\d+`; `MatchIsToken` states its shape |
| Forms.FindAll | JIPipeApp/JIPipeRunner/forms.py:19-20 | `re.findall` with that pattern, scanning left to right; `FindAllTokens`, `SpansAreScan` and `SpansHoldMatches` state its properties |
| Forms.Contribution | JIPipeApp/JIPipeRunner/forms.py:24-28 | The numbers one match adds; `TokenContribution` and `NumberContribution` state them |
| Forms.NumbersOf | JIPipeApp/JIPipeRunner/forms.py:21-28 | The set the loop accumulates over the matches; `NumbersOfPrefix` and `NumbersOfMembers` state it |
| Forms.Numbers | JIPipeApp/JIPipeRunner/forms.py:19-28 | The set built from the text's matches; `CleanRawNumberList` returns it sorted |
| Forms.MatchIsToken | JIPipeApp/JIPipeRunner/forms.py:19 | Each match has the shape `\d+` or `\d+-\d+` |
| Forms.FindAllTokens | JIPipeApp/JIPipeRunner/forms.py:19-20 | Every element findall returns is such a token |
| Forms.SpansAreScan | JIPipeApp/JIPipeRunner/forms.py:19-20 | The matches are found left to right and do not overlap; no match starts anywhere between them |
| Forms.SpansHoldMatches | JIPipeApp/JIPipeRunner/forms.py:19-20 | The reported positions cut out exactly the substrings findall returns |
| Forms.SkipNonDigit | JIPipeApp/JIPipeRunner/forms.py:19-20 | A non-digit at the front is skipped |
| Forms.RangeTokenFirst | JIPipeApp/JIPipeRunner/forms.py:19 | Digits, a dash, and digits at the front form one range token, so the range alternative wins |
| Forms.NumberToken | JIPipeApp/JIPipeRunner/forms.py:19 | A digit run not followed by dash-digit is a plain token |
| Forms.SeparatorSplits | JIPipeApp/JIPipeRunner/forms.py:19-20 | A separator that is neither digit nor dash splits the scan: findall(a + c + b) == findall(a) + findall(b) |
| Forms.RangeSet | JIPipeApp/JIPipeRunner/forms.py:26 | range(a, b + 1) as a set: exactly a..b, and empty when a > b |
| Forms.TokenContribution | JIPipeApp/JIPipeRunner/forms.py:24-26 | A token `a-b` contributes exactly int(a)..int(b) |
| Forms.NumberContribution | JIPipeApp/JIPipeRunner/forms.py:27-28 | A plain token n contributes exactly {int(n)} |
| Forms.NumbersOfPrefix | JIPipeApp/JIPipeRunner/forms.py:23-28 | Each loop iteration adds exactly the current match's contribution |
| Forms.NumbersOfMembers | JIPipeApp/JIPipeRunner/forms.py:19-30 | Soundness and completeness: x is in the result iff some matched token contributes it |
| Forms.SortedUnique | JIPipeApp/JIPipeRunner/forms.py:30 | Two strictly increasing lists with the same members are equal, so sorted(set) is determined by the set |
| Forms.Sorted | JIPipeApp/JIPipeRunner/forms.py:30 | sorted(numbers) is strictly increasing and has the set's members |
| Forms.CleanRawNumberList | JIPipeApp/JIPipeRunner/forms.py:17-30 | The result is strictly increasing (sorted, no duplicates) and holds exactly the numbers the text's tokens denote |
| Forms.RangeWinsExample | JIPipeApp/JIPipeRunner/forms.py:19-20 | "1-2-3" gives tokens "1-2" and "3" |
| Forms.SeparatorsExample | JIPipeApp/JIPipeRunner/forms.py:19-20 | "1, 2; x3" gives tokens "1", "2", "3" |
| Forms.HelpTextNumbers | JIPipeApp/JIPipeRunner/forms.py:9 | The help-text input "1-3, 5-8" denotes 1..3 and 5..8 |
| Forms.HelpTextExample | JIPipeApp/JIPipeRunner/forms.py:9 | The cleaned value of "1-3, 5-8" is [1, 2, 3, 5, 6, 7, 8] |
| Forms.LeadingZerosExample | JIPipeApp/JIPipeRunner/forms.py:28 | The token "007" stands for 7 |

## Left out

- Unicode: `\d`, `int()` and `str.lower()` accept non-ASCII digits and letters in Python; the model covers ASCII only.
- The text of exception messages (`str(e)`) is abstract (`Fault.message`, `Content.reason`, `Cause`). The exception is the TypeError of a missing ImageJ path. The 500 body's prefix "An error occurred: " is not rendered.
- JSON encoding and decoding: `json.dump` and `json.loads` are not modelled. A request body or stored file is either a parsed document or a failure with a reason, and the written file is recorded as the document itself.
- Directory contents: a temporary directory is a name in a set. Files written into it appear only as `FileWritten` effects in the trace.
- OS effects: process creation, `xvfb-run` command construction, `os.setsid`, `os.killpg`, and the exit status. The command's output lines, exit code and pid are inputs of a job. In the view the exit code is a parameter, and a command that cannot be started at all is not modelled.
- The global SIGTERM handler, Celery scheduling, and concurrency: interrupts are an explicit step parameter. An interrupt or exception raised while a handler or `finally` runs is not modelled.
- The lost-update race on a user's active set between workers: the registry is sequential.
- Cache timeouts and Redis configuration.
- `ConfigXml`: the configuration is represented only by the optional ImageJ path. `cfg.close()` has no effect beyond raising when `cfg` is unbound.
- Logging calls (`log.exception`, `logger.info`, `logger.error`): they do not affect the results.
- OMERO calls: `conn.getObject` by name and by id, `saveAndReturnObject`, `listAnnotations` and `getFileInChunks` become a sequence of projects with ordered annotations. A name lookup with several matches is taken to raise. A newly saved project gets the store's next id, which is taken to be readable with `int()`. Group switching (`setOmeroGroup('0')`) is not modelled: all projects are visible.
- The code inside string literals in `views.py` is not modelled, and neither is `EXTENSION_TO_FORMAT`, which only that code uses.
- `RangeInputForm.save`, the models, and both `urls.py` files.
- Python dict iteration order in the rewrite loop: each node is rewritten independently. A loop that raises part-way leaves a partly rewritten document, which is discarded, so order does not change any result.
