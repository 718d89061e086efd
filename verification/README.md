# Verification of ginger-infra

A Dafny model of the protocol and pipeline core of ginger-infra, with proofs. `dafny verify dfyconfig.toml`
checks all of it. Each file is one module.

**The device's RPC client.** `Outbound` is the bounded outbound queue of `src/wamp_client.rs` (32 places, one lock
holder waiting for room, a reconnecting socket). `Wamp` is the system of any number of clients over a broker that may
drop, repeat, delay and reorder: messages, the atomic steps of `call`, `publish`, `listen`, `handle_message` and
`dispatch_rpc`, and their effects. `WampSafety` holds its invariants and theorems over every run, `WampTable` what the
pending table holds and how each entry leaves it, `WampAnswers` what a caller may conclude from an answer,
`WampExample` a run in which a call succeeds. `Client` is the client object itself, whose methods do to its fields what
the system says. `Locks` is the wait-for structure of the
three locks and the queue. `Execute` is the `execute` job of `src/start.rs` on top of the same queue.

**Plan, render, deploy.** `Values` flattens and resolves `values.json`, and `Leaves` says what each text in it comes to
mean; `Memory` is the onceshell memory over any sequence of runs. `Patterns` and `Template` are the regular expressions and `render_template`; `Staging` is the later
filling of `vault(KEY)`; `TemplateExact` and `StagingExact` say exactly when these keep their meaning; `Lookup` is the
walk to the nearest `.envrc`; `Pipeline` puts them together for a tree of files, up to the whole rollout. `Toml`, `Helm`, `HelmKeys` and `HelmBuild` are the generated `resources.toml`, printed
and parsed back, the exact condition under which that succeeds, and the directory around it.

**Reconcilers.** `MergePatch` is JSON Merge Patch, section 2 of RFC 7396. `CustomRun` and `TaskRun` are the CustomRun
reconciler and the TaskRun it creates, `Restore` the restore reconciler; both are state machines with a possible crash
between any two API calls. `CustomRunController` and `RestoreController` are the reconcile functions as written, proved
to be runs of those machines.

**Readers.** `Sse` is the incremental event-stream reader of `src/rpc.rs` (sections 9.2.5 and 9.2.6 of the HTML Living
Standard), `Envrc` the `.envrc` writer of `entrypoint.sh` and its two readers, `EnvrcTexts` what these do to each line.

Code that changes things step by step is modelled by methods, loops and classes proved against specification functions;
code that runs concurrently is modelled by its atomic steps, as events over a state, and every theorem about it
quantifies over all sequences of enabled events.

## What the proofs turned up

Each of these is a lemma: the law fails without the condition named.

- A handler whose payload has a text field `function`, or an `is_error` field that contradicts the verdict, is not heard
  as it answered, because payload keys win in the reply (`Wamp.ReplyRoundTrip`).
- A call that gets to `publish_tx` before `listen` has put a sender there returns at once and leaves its entry in the
  pending table, where it stays until something is heard about it (`WampTable.LeakIsReachable` is such a run). Until
  `listen` returns, the table is exact if and only if no call failed that early (`WampTable.TableIsInFlight`).
- When waiting for `run.sh` fails, the job has no terminal event and a log line can follow its reply
  (`Execute.LogAfterReply`).
- A value that itself opens a placeholder is replaced by a later pass (`Template.ValueOpeningPlaceholderIsReplaced`), and
  any value with an end that can begin one breaks some template (`TemplateExact.SimultaneousIff`).
- A `b64encode` filter seals a vault value for good, and an empty vault key stays literal
  (`Staging.FilteredSecretStaysSealed`, `Staging.EmptyKeyStaysLiteral`). A key with a closing parenthesis is cut there,
  and text that happens to read `vault(KEY)` is filled in too (`Staging.KeyWithParenIsCut`, `Staging.LiteralIsFilled`,
  `StagingExact.StagedIff`).
- The `.envrc` printed by `entrypoint.sh` escapes single quotes for a shell, but `rpc::parse_envrc` does not undo that
  (`Envrc.RoundTrip`). The other reader expands HOME and accepts lines without `export` (`Envrc.SameLineIff`).
- A rendered `resources.toml` without a resource cannot be read back, nor one with an unprintable character, which Rust's
  Debug format prints in a form TOML does not know (`Helm.FileReadsBack`). A values file named `.envrc` or
  `resources.toml` overwrites the copied one (`HelmBuild.HelmLookupAgrees`). Nor does a file come back as itself when a
  set key does not survive `quote_key`, whatever else is in it (`HelmKeys.FileSurvivesIff`).
- A stale CustomRun can turn a failed run back to running with its completion time left in place
  (`CustomRun.StaleReadRevives`); a stale ResticRestore is restored once more (`Restore.StaleReadRestoresAgain`).
- If another TaskRun holds the name `<name>-exec`, the creation counts as done. The CustomRun then never succeeds, and
  stays running for ever unless some later resolution or creation fails (`CustomRun.FirstRound`,
  `CustomRun.ForeignHolder`).
- A user's `REMOTE_CLEANUP` entry reaches the runner when the spec has no cleanup, although the comment in `taskrun.rs`
  says controller variables cannot be shadowed (`TaskRun.ControllerWins`).
- The exclusions written in `check_unfilled` can never apply (`Values.FlaggedIff`), and values inside JSON arrays are
  never looked at.
- Plan plus rollout and verbose-replace differ on one kind of file: one that opens no placeholder while some shell value
  fails, which only verbose-replace refuses (`Pipeline.RolloutIsVerbose`).
- Files named just `.yaml` or `.yml` are rendered but never applied (`Pipeline.AppliedIff`).

## Model

| member | source | states |
|---|---|---|
| Outbound.Conservation | src/wamp_client.rs:195-388 | over any run and any number of reconnects the queue holds at most 32 messages, and all that was ever enqueued is an order-preserving merge of sent and lost, followed by the queue; losses never exceed ended connections |
| Outbound.ConnectionsEnd | src/wamp_client.rs:308-388 | every connection that was made ends once, or still stands |
| Outbound.StepConserves | src/wamp_client.rs:195-388 | every single operation of publisher or loop keeps that conservation |
| Outbound.SentInOrder | src/wamp_client.rs:345-352 | what reached the socket is an in-order subsequence of what was enqueued |
| Wamp.ReplyRoundTrip | src/wamp_client.rs:615-654 | a reply is taken for a reply and heard as the handler's own verdict if and only if its payload is plain |
| WampSafety.AlwaysGood | src/wamp_client.rs:393-607 | every run of any number of clients keeps provenance, the pending table and conservation |
| WampSafety.ProvenanceStep | src/wamp_client.rs:393-607 | every step keeps: each message afoot, incoming call and answer is traced to a call, handler run or broker error |
| WampSafety.TablesStep | src/wamp_client.rs:422-465 | every step keeps: an id is in a client's table exactly when that client's call of that id is still unsettled |
| WampAnswers.AnswersAreGenuine | src/wamp_client.rs:393-607 | a remote answer is an error the broker reported for this very call, or the verdict that a registered handler of the named function concluded with (or the error that there is none), at the target and on this call's arguments: every keyword argument of the caller but the protocol's three, these three as function name, id and caller's channel, and no other; the payload comes as concluded with the reply's fields added, and as the same kind if and only if it is plain |
| WampAnswers.PublishedAsGiven | src/wamp_client.rs:195-215 | in every run, what a publish put on the wire is the topic and keyword arguments of a publish call and nothing else |
| WampSafety.ReturnsOnce | src/wamp_client.rs:442-466 | what a call returned never changes in any continuation of the run |
| WampTable.TableHolds | src/wamp_client.rs:422-465 | in every run, until listen returns, the table's keys are the ids of the calls in flight and of the calls that got to publish_tx before a sender was installed and of which nothing was heard since |
| WampTable.TableIsInFlight | src/wamp_client.rs:422-465 | they are exactly the ids of the calls in flight if and only if no call failed that early |
| WampTable.LeakedAtInstall | src/wamp_client.rs:245-440 | when listen installs the sender, an entry is left behind if and only if its call had got to publish_tx |
| WampTable.LeakIsReachable | src/wamp_client.rs:433-440 | a run after which a listening client has an entry in its table that is not in flight |
| WampTable.NeverDropped | src/wamp_client.rs:457-457 | a waiting call was answered or is still in the table, so the reply-channel-dropped branch is unreachable |
| WampTable.ReplySettles | src/wamp_client.rs:514-533 | a reply removes exactly its own entry, answers exactly its own call and changes nothing else |
| WampTable.ErrorSettles | src/wamp_client.rs:478-490 | so does a broker error |
| WampTable.TimeoutSettles | src/wamp_client.rs:458-465 | a timeout removes exactly its own entry, and its own call returns with it |
| WampTable.RepeatIsIdle | src/wamp_client.rs:478-533 | a late or repeated reply, or a late broker error, leaves the whole system unchanged |
| WampExample.CallCanSucceed | src/wamp_client.rs:393-607 | for every function, arguments and plain verdict some run of caller and callee returns that verdict |
| ClientObject.HearPerforms | src/wamp_client.rs:493-607 | hearing an event changes the whole system, other clients, calls, handler runs and messages included, by the effect the client object reports and by nothing else |
| ClientObject.WampClient.HandleEvent | src/wamp_client.rs:493-540 | the effect reported for an event, and the table entry taken out with it |
| ClientObject.WampClient.Publish | src/wamp_client.rs:195-215 | refused exactly while listen was never started, otherwise the message holds the lock |
| ClientObject.WampClient.SendCall | src/wamp_client.rs:433-440 | the call's message, with the arguments as above, holds the lock, or the call returns at once with its entry left behind |
| ClientObject.WampClient.Turn | src/wamp_client.rs:308-388 | a turn of the loop does the queue operation and keeps is_connected equal to having a socket |
| Locks.NoDeadlock | src/wamp_client.rs:195-607 | from every unfinished task in every reachable state, at most three waits lead to a task that can move or waits for the outside; while connected, to one that can move |
| Locks.LoopNeverWantsSender | src/wamp_client.rs:246-388 | after start-up the loop neither waits for nor holds publish_tx |
| Locks.LinkChanges | src/wamp_client.rs:246-388 | the socket comes up only while down, goes down and delivers only while up, and shutdown closes it from either |
| Locks.Wakes | src/wamp_client.rs:442-607 | an answered call is done and one that timed out goes back for its entry; a handler replies only if publish_tx is free at that moment |
| Locks.StepsRunOut | src/wamp_client.rs:195-607 | a task other than the loop takes at most four own steps, and a call waits for a reply exactly if its message has entered the queue |
| Locks.WaitingDescends | src/wamp_client.rs:195-607 | whoever is waited for ranks strictly lower, so no cycle of waiting exists |
| Execute.EveryJobInOrder | src/start.rs:217-371 | for every set of running jobs, what a job enqueued is its stdout and stderr lines, each in order, then at most one terminal event, then at most one agreeing reply, unless the run holds a failed wait for its process; the terminal event implies every line read was enqueued; the socket sees an in-order subsequence |
| Execute.EndsAgree | src/start.rs:341-371 | the reader of the event stream ends with the script's outcome, which is the reply's, and the reply payloads are plain |
| Execute.EndsReport | src/start.rs:271-371 | event and reply carry the script's own exit code, -1 for a killed script; done exactly for 0, otherwise an error whose message ends in the code; a log event carries its line, its stream and the job's id |
| Execute.JobsReport | src/start.rs:264-371 | in every run, the terminal event and the reply of a job are those of the status its process exited with |
| Execute.FailuresAreTold | src/start.rs:264-267 | a job without an exit status replies with the error of its failed set-up or wait |
| Execute.LogAfterReply | src/start.rs:264-267 | a run in which a line follows the reply, because waiting for the process failed |
| Sse.StreamJob | src/rpc.rs:122-186 | the draining loop prints and returns what the newline-terminated lines of the whole stream mean |
| Sse.Drain | src/rpc.rs:131-182 | the inner loop acts on every complete line in order and keeps the rest |
| Sse.HandleLine | src/rpc.rs:132-181 | what one line does |
| Sse.EventsAct | src/rpc.rs:132-181 | what a data line does for each kind of event: text on its stream, success, exit code, message, or shown as it is |
| Sse.OtherLinesSkip | src/rpc.rs:132-140 | a line that does not open with data: does nothing |
| Sse.ReceivedIsText | src/rpc.rs:122-131 | what is received is the text of all chunks up to the one that breaks |
| Sse.ChunkInvariance | src/rpc.rs:125-131 | splitting any chunk anywhere changes neither output nor outcome |
| Sse.TailIgnored | src/rpc.rs:131-131 | an unterminated last line is never acted on |
| Sse.StopIsFirst | src/rpc.rs:163-176 | the job ends with an outcome if and only if the first stopping line has it |
| Sse.OkIff | src/rpc.rs:163-169 | success if and only if the first stopping line is done with exit code 0, absent or unreadable |
| Envrc.WriteEnvrc | entrypoint.sh:78-95 | the loop writes exactly the exportable variables, quoted, in order |
| Envrc.ParseEnvrc | src/rpc.rs:191-229 | the loop returns exactly the variables of the export lines, in order |
| Envrc.ParseAssignments | src/run_dry_run.rs:36-61 | the loop folds every assignment, the last one winning |
| EnvrcTexts.ForwardsPairs | entrypoint.sh:75-91 | a line NAME=value is forwarded as that pair exactly when the name consists of word characters and is none of the ten names and two prefixes withheld |
| EnvrcTexts.LinesInOrder | entrypoint.sh:78-95 | lines are forwarded, and entries read, one after the other in order |
| EnvrcTexts.FileInOrder | entrypoint.sh:94-94 | the file is one line for each variable, in order |
| EnvrcTexts.ShellReadsBack | entrypoint.sh:93-94 | what is written for a variable is an export that a shell reads back as the value, quotes included |
| EnvrcTexts.EntryMeans | src/rpc.rs:191-229 | what the first reader takes a line for: export, name, equals sign, value without one pair of quotes, all trimmed; anything else is nothing |
| EnvrcTexts.AssignmentMeans | src/run_dry_run.rs:36-61 | what the second reader takes a line for, with or without export; comments, blank lines and lines without equals sign are nothing |
| EnvrcTexts.AssignmentsInOrder | src/run_dry_run.rs:36-61 | the second reader's map is what the lines assign one after the other, the last under a name standing |
| EnvrcTexts.HomeIsFilledIn | src/run_dry_run.rs:63-67 | both forms of the reference are replaced by HOME wherever they stand, and nothing else is |
| Envrc.ReadBack | src/rpc.rs:191-229 | a printed list reads back with the same names and the escaped values |
| Envrc.RoundTrip | entrypoint.sh:93-94 | a printed list reads back as itself if and only if no value holds a single quote |
| Envrc.ForwardedEnv | entrypoint.sh:78-95 | the same for everything the loop forwards from any output of env |
| Envrc.SameReadingIff | src/run_dry_run.rs:39-58 | both readers make the same of a line if and only if it is an export-only line whose value HOME expansion leaves alone |
| Envrc.ReadersAgree | src/run_dry_run.rs:36-67 | on such files, folding the list of the first reader with last-wins gives the map of the second |
| Envrc.ExpansionIff | src/run_dry_run.rs:63-67 | for a HOME without dollar signs, expansion leaves a value alone if and only if it holds neither form of the reference |
| Envrc.SameLineIff | src/run_dry_run.rs:39-67 | for such a HOME both readers make the same of a line if and only if it is an export-only line whose value holds neither form |
| Envrc.FilesAgree | src/run_dry_run.rs:36-67 | on files of such lines the two readers agree whatever HOME is |
| Lookup.FindEnvrcBounded | src/run_dry_run.rs:10-32 | the loop terminates and returns what the recursive walk finds |
| Lookup.NearestIsDeepest | src/run_dry_run.rs:10-32 | the walk returns the deepest .envrc between start and ceiling, and none if and only if there is none |
| Template.MatchTok | src/plan.rs:478-483 | each of the patterns matches exactly its own well-formed placeholders, entirely |
| Template.WrittenAs | src/plan.rs:478-483 | how value and snapshot placeholders are written |
| Template.PassOnTokens | src/plan.rs:528-560 | one replacement pass rewrites exactly the placeholders its pattern owns |
| Template.ValidateIff | src/plan.rs:486-525 | validation reports nothing if and only if every placeholder is defined, in the sense of RendersAsWritten |
| Template.RenderIsSimultaneous | src/plan.rs:478-562 | validation and four passes are one simultaneous substitution, failing exactly on undefined placeholders |
| Template.KnownIsDefined | src/plan.rs:486-525 | a placeholder passes validation exactly when the values hold its key, or its own list of services, packages or databases an entry of its id |
| Template.RendersAsWritten | src/plan.rs:478-562 | a template is refused exactly when a placeholder names no value or no entry of its list; otherwise each is rendered as the given text, the vault or shell text left for later, its encoding under the filter, or the version of the first entry with that id in its list |
| Template.UndefinedFallsBack | src/plan.rs:528-560 | a placeholder that a value brings in undefined becomes nothing, or the bare key in braces |
| Template.NoPlaceholderSurvives | src/plan.rs:528-562 | nothing any pattern matches is left in the rendering |
| Template.ValueOpeningPlaceholderIsReplaced | src/plan.rs:528-560 | a value that opens a placeholder breaks the law |
| TemplateExact.MatchBegins | src/plan.rs:481-483 | whatever a snapshot placeholder can begin with is found by a check of the text alone |
| TemplateExact.Completes | src/plan.rs:481-483 | and every text that passes this check becomes a placeholder with harmless text behind it |
| TemplateExact.SimultaneousIff | src/plan.rs:478-562 | with versions that hold no opening brace, every template is rendered as one simultaneous substitution if and only if no value that a placeholder can name, plain or encoded, has an end that can begin a snapshot placeholder |
| Staging.FillFindsSecrets | src/rollout.rs:38-52 | filling finds exactly the placed secrets when no other text reads as a vault placeholder |
| Staging.StagedIsDirect | src/plan.rs:123-133 | rendering with vault placeholders and filling them later is the direct rendering with the secrets, failing exactly when a reference or a needed secret is missing |
| StagingExact.FillIff | src/rollout.rs:32-62 | for every vault, filling fails exactly when a secret is absent and otherwise replaces the secrets and nothing else, if and only if no other text reads as a vault placeholder |
| StagingExact.StagedIff | src/plan.rs:123-133 | a template is staged faithfully for every vault if and only if, once its references are defined, no literal, value or version reads as a vault placeholder where it stands |
| Staging.FilteredSecretStaysSealed | src/plan.rs:537-540 | with b64encode the secret is never filled in |
| Staging.KeyWithParenIsCut | src/rollout.rs:38-44 | a key with a closing parenthesis is cut there and another secret is filled in |
| Staging.LiteralIsFilled | src/rollout.rs:38-44 | text that happens to read vault(KEY) is filled in too |
| Staging.EmptyKeyStaysLiteral | src/rollout.rs:38-44 | an empty vault key is left in the text |
| Pipeline.ResolveShellValues | src/plan.rs:270-289 | the loop resolves every shell value in the given environment, or fails if one command fails |
| Pipeline.NoShellLeft | src/plan.rs:270-289 | the key set is unchanged, each shell value becomes what its command prints in that environment, other values are untouched; it fails exactly when a command fails |
| Pipeline.RenderToBuild | src/plan.rs:613-689 | success if and only if every file renders; build/ then holds exactly those files with their renderings |
| Pipeline.AppliedIff | src/run_dry_run.rs:71-84 | a discovered file is applied if and only if its name is none of .envrc, .yaml and .yml |
| Pipeline.RenderedIsPlanned | src/plan.rs:581-689 | a successful plan of the discovered files leaves exactly these in build/, each as rendered |
| Pipeline.CollectYamls | src/run_dry_run.rs:71-84 | the loop collects exactly the files to be applied, in order |
| Pipeline.BuildLookupAgrees | src/plan.rs:581-609 | the .envrc found inside build/ is the one found inside platform/, with the same content, none matching none |
| Pipeline.RunRollout | src/rollout.rs:142-206 | every file gets its call and is listed, in order, as applied or failed |
| Pipeline.PlanAndRollout | src/rollout.rs:118-206 | the whole run stops before any delivery exactly when some file does not render or none is to be applied; otherwise every rendered file except those three names is delivered exactly once, with the call made for it, and accounted for |
| Pipeline.PickPartitions | src/rollout.rs:142-206 | no file is lost or counted twice |
| Pipeline.RolloutIsVerbose | src/verbose_replace.rs:56-81 | plan then rollout gives the result of the one-process form if and only if the file opens a placeholder or no shell command fails |
| Pipeline.DeliveredMeaning | src/rollout.rs:146-206 | what kubectl gets for a file is the direct rendering with the secrets, with the assignments of the deepest .envrc above the file as environment; a file that opens no placeholder needs no shell value |
| Values.CollectKeys | src/plan.rs:296-306 | the loop adds exactly the flattened keys |
| Values.CheckUnfilled | src/plan.rs:308-331 | the loop lists exactly the null, blank and CHANGE_ME leaves |
| Values.FlaggedIff | src/plan.rs:317-327 | the source's test is blank or CHANGE_ME, its exclusions never apply |
| Values.Planner.ResolveValue | src/plan.rs:138-213 | resolving one text gives the specified value and state, a fresh onceshell output being on disk |
| Values.Planner.ResolveRecursive | src/plan.rs:334-371 | the recursion resolves the leaves in order up to the first failure |
| Values.Planner.LoadAndResolve | src/plan.rs:373-462 | loading is checking the keys, checking the leaves, resolving and saving |
| Values.LoadedKeys | src/plan.rs:401-462 | a successful load has exactly the keys of both files and accepted no null, blank or CHANGE_ME leaf; a failing check has executed and written nothing |
| Leaves.ReachedIsLeaf | src/plan.rs:296-371 | every leaf of the tree is resolved under the dotted names of its path |
| Leaves.LeafIsReached | src/plan.rs:296-371 | and nothing else is |
| Leaves.InterpolatesParts | src/plan.rs:190-212 | a text is interpolated by replacing $NAME and ${NAME}, in whole or without a brace, by the variable's value and nothing else, and refused with the names that are unset |
| Leaves.Parses | src/plan.rs:190-192 | every text is made of such references, other text and stray dollar signs |
| Leaves.LoadedAsWritten | src/plan.rs:138-213 | in the map of a successful load, vault(KEY) stands for the secret KEY, shell(CMD) for the command, file(PATH) for the contents of the trimmed path, a text without wrapper for itself with every variable set and filled in, null and other values for their JSON text |
| Leaves.LoadStops | src/plan.rs:373-462 | a failed load names exactly the keys that differ, or exactly the leaves to be filled in, or a text whose file, variables or command are missing; a successful one has none of the first two |
| Leaves.OnceAsAnswered | src/plan.rs:154-169 | a onceshell text stands for what the file then remembers of its command, which it remembered before or the command answered now |
| Memory.SoundMemory | src/plan.rs:154-169 | over any sequence of runs, failing or killed, each command succeeds at most once, its output is what the file remembers, and other entries are kept |
| Memory.KilledRuns | src/plan.rs:162-167 | a run killed after its last leaf has remembered as much as one that ends, and one killed before the first has done nothing |
| Memory.OneValueForever | src/plan.rs:154-169 | in any two successful loads the same command stands for the same value, whatever lies between them |
| Memory.DiskIsMemory | src/plan.rs:162-167 | the file equals the memory of the process after every leaf |
| Toml.StringReadsBack | src/install_helm_charts.rs:397-406 | a string printed by Debug is a TOML string with the same value if and only if it holds only printable characters, tabs and line breaks; otherwise it does not parse |
| Toml.KeyReadsBack | src/install_helm_charts.rs:438-445 | a key printed by quote_key parses as itself if and only if it is bare or, when quoted, needs no escape |
| Toml.UnicodeReads | src/install_helm_charts.rs:547-552 | the parser reads every character from its escape of eight digits, and from that of four if these suffice |
| Toml.LiteralReads | src/install_helm_charts.rs:547-552 | and a key between single quotes as it stands |
| Helm.SetAgrees | src/install_helm_charts.rs:97-131 | on filter-free references a set value is what render_template makes of it, and is refused exactly when that is or a shell value is left |
| Helm.SetStagedIsDirect | src/install_helm_charts.rs:583-597 | filled at install time it is the direct rendering with the secrets |
| Helm.FileNameIsLast | src/install_helm_charts.rs:421-424 | a values file is printed under what follows its last separator |
| Helm.FileNameSkips | src/install_helm_charts.rs:421-424 | a closing separator or dot component is passed over, and a path ending in two dots or naming nothing has no name |
| Helm.RenderResourcesToml | src/install_helm_charts.rs:382-436 | the loops print the file with every set value substituted, or the first errors |
| Helm.ExpectedKeeps | src/install_helm_charts.rs:382-436 | the resource to be read has every field as it is, the last component of the values file's path, and exactly the pairs of the set table |
| Helm.BlockOpens | src/install_helm_charts.rs:394-427 | how a resource opens and closes in the file |
| Helm.TableMeans | src/install_helm_charts.rs:21-55 | which tables are which resources, a timeout that is not given being five minutes |
| Helm.FileReadsBack | src/install_helm_charts.rs:547-552 | with keys that survive printing, the printed file parses back into the same resources if and only if there is one and all texts are printable |
| Helm.PlanThenInstall | src/install_helm_charts.rs:382-445 | with such keys the installer reads every resource with only its set values substituted and its values file reduced to a name |
| HelmKeys.SetLineLoad | src/install_helm_charts.rs:438-445 | however a printed set line is read, the keys it assigns are together no longer than its own key, and only a key that survives printing comes back in full |
| HelmKeys.KeysSurvive | src/install_helm_charts.rs:547-552 | a file that comes back as it was had only set keys that survive printing |
| HelmKeys.FileSurvivesIff | src/install_helm_charts.rs:382-445 | the printed file parses back into the same resources if and only if there is one, all texts are printable and all set keys survive printing |
| HelmKeys.InstallReadsIff | src/install_helm_charts.rs:382-552 | from plan to install, under exactly these conditions, every resource is read with only its set values substituted and its values file reduced to a name |
| HelmBuild.PlanHelmBuild | src/install_helm_charts.rs:312-374 | helm-build/ holds for each cluster exactly the rendered file, the .envrc found, and the values files over them |
| HelmBuild.DirectoryMeans | src/install_helm_charts.rs:345-373 | what such a directory holds under each name: the last values file of that name, else the nearest .envrc or the rendered resources.toml |
| HelmBuild.HelmLookupAgrees | src/install_helm_charts.rs:355-373 | the installer finds the .envrc that planning found if and only if no other values file was copied over it |
| MergePatch.PatchedField | src/bin/remote-task-controller/customrun.rs:610-617 | what a merge patch does to each field |
| MergePatch.PatchedTwice | src/bin/remote-task-controller/customrun.rs:610-617 | repeating a patch changes nothing |
| CustomRun.MarkedReads | src/bin/remote-task-controller/customrun.rs:604-635 | after a status patch the only condition is the new one, terminal unless running, and a completion time stays once there |
| CustomRun.ReportMeans | src/bin/remote-task-controller/customrun.rs:504-540 | a TaskRun has passed if and only if its first condition of type Succeeded has status True, and failed with a message if and only if it has status False with that message, or none and the message is the default |
| CustomRun.MarksAreWritten | src/bin/remote-task-controller/customrun.rs:549-617 | the condition written for running, success and failure, in status, reason and message |
| CustomRun.MarkedStamps | src/bin/remote-task-controller/customrun.rs:604-635 | condition and completion bear the time of the patch, and running leaves the completion time alone |
| CustomRun.StepSound | src/bin/remote-task-controller/customrun.rs:320-454 | every API call, crash or TaskRun update keeps the reconciler's invariant |
| CustomRun.VerdictsAreTrue | src/bin/remote-task-controller/customrun.rs:351-545 | in every run at most one TaskRun is created; the CustomRun has status True only if the first Succeeded condition of the TaskRun, as Tekton put it in this run, has status True, and status False with a message only if that condition has status False with it or a resolution or creation of this run failed with it |
| CustomRun.CopiedForever | src/bin/remote-task-controller/customrun.rs:499-545 | a verdict copied from the TaskRun never changes, even with stale reads, and is what the TaskRun says |
| CustomRun.TerminalIsFinal | src/bin/remote-task-controller/customrun.rs:604-635 | with fresh reads a terminal status is final and completionTime is there exactly then |
| CustomRun.StaleReadRevives | src/bin/remote-task-controller/customrun.rs:394-447 | with a stale read it is not |
| CustomRun.StageNeverRises | src/bin/remote-task-controller/customrun.rs:358-451 | with fresh reads no event moves a CustomRun back |
| CustomRun.SyncRound | src/bin/remote-task-controller/customrun.rs:358-383 | one error-free reconcile from the latest version, after any crash or stale read, finds the TaskRun by label, creates nothing and writes True, False with its message, or Unknown as its Succeeded condition says |
| CustomRun.FirstRound | src/bin/remote-task-controller/customrun.rs:384-451 | before the creation one such reconcile moves on if and only if the spec does not resolve or no foreign TaskRun holds the name |
| CustomRun.ForeignHolder | src/bin/remote-task-controller/taskrun.rs:159-172 | while one does, the CustomRun never succeeds, and fails only with the message of a failed resolution or creation |
| CustomRunController.Cluster.Reconcile | src/bin/remote-task-controller/customrun.rs:351-454 | one reconcile is a run of the state machine, whatever its calls return, and only stops watching a CustomRun it saw or made terminal |
| CustomRunController.Cluster.SyncStatus | src/bin/remote-task-controller/customrun.rs:499-545 | writes True, False with the message, or Unknown as the TaskRun's first Succeeded condition says, and tells whether it was True or False |
| TaskRun.ParseParams | src/bin/remote-task-controller/customrun.rs:215-248 | the loop gives the last text of each parameter, the first bad env or the missing script |
| TaskRun.LastTextIsLast | src/bin/remote-task-controller/customrun.rs:221-226 | that text is given, and none is given after it |
| TaskRun.ParamsMean | src/bin/remote-task-controller/customrun.rs:215-248 | which parameter fills which field, unix for a capability never given, and the error for the first env that does not parse, or else for a missing script |
| TaskRun.ResolveTaskSpec | src/bin/remote-task-controller/customrun.rs:259-305 | a reference resolves to the looked-up object with all env parameters appended |
| TaskRun.ReferenceMeans | src/bin/remote-task-controller/customrun.rs:259-305 | which namespace is looked in, the lookup's errors, and the object found with what each env parameter adds, in order |
| TaskRun.ReferenceDecides | src/bin/remote-task-controller/customrun.rs:286-304 | of the parameters only namespace and env change what a reference resolves to, so capability, script and cleanup come from the referenced object alone |
| TaskRun.StepEnv | src/bin/remote-task-controller/taskrun.rs:74-87 | the container sees script, capability, executor URL, auth path and, if given, cleanup under their names, and under any other name the user's last entry; the user's entries stay in front |
| TaskRun.ControllerWins | src/bin/remote-task-controller/taskrun.rs:74-87 | no user entry shadows what the controller sets; REMOTE_CLEANUP is set only with a cleanup |
| TaskRun.Labels | src/bin/remote-task-controller/customrun.rs:405-424 | the TaskRun carries the tracking label with the CustomRun's name, the manager label and exactly the pipeline labels given |
| RestoreController.Cluster.Reconcile | src/bin/restic-snapshot-controller/main.rs:590-660 | one reconcile is a run of the state machine, whatever its calls return, and only stops watching a restore it saw or made terminal |
| RestoreController.Cluster.RunJob | src/bin/restic-snapshot-controller/main.rs:287-307 | creating and watching the Job is a run of the state machine, Succeeded being written only on a reported success |
| Restore.PodAttachedToPvc | src/bin/restic-snapshot-controller/main.rs:447-478 | the loop tells whether some unfinished pod mounts the claim |
| Restore.WaitForJob | src/bin/restic-snapshot-controller/main.rs:250-267 | the loop ends with what the first decisive look says, and goes on exactly while none decides |
| Restore.AlwaysSafe | src/bin/restic-snapshot-controller/main.rs:590-660 | in every run every Job follows a listing without a live pod, an existing claim and, if RWO, its node; Succeeded implies a Job reported success |
| Restore.JobsAreJustified | src/bin/restic-snapshot-controller/main.rs:590-660 | in every run from the start, every Job was created for a claim that was found and on a pod list in which no unfinished pod mounts it, on the claim's node exactly if it is ReadWriteOnce; Succeeded implies that a Job has reported success |
| Restore.TerminalIsFinal | src/resticrestore.rs:51-56 | with fresh reads Succeeded and Failed are final and no Job is created after them |
| Restore.StaleReadRestoresAgain | src/bin/restic-snapshot-controller/main.rs:598-600 | with a stale read they are not |
| Restore.RoundDecides | src/bin/restic-snapshot-controller/main.rs:590-660 | from whatever a crash or a stale read left, one error-free reconcile ends as claim, pods and Job decide, waiting only for a live pod |

## Left out

- Correlation ids are assumed distinct over a run; the source takes them from a millisecond clock.
- Sockets, TLS, ping and pong timing, backoff delays and signals: a connection may end at any time, and a call may time out at any time while it waits.
- The broker and the executor service: the broker is an arbitrary channel that keeps correlation id and reply address.
- Chunks that split a UTF-8 character: the reader then sees replacement characters, so chunks are texts here.
- Slicing a command at byte 40 or 60 for a log line, which can panic inside a UTF-8 character.
- Process spawning, kubectl, helm, chmod and sudo: their results are parameters or arbitrary events; cleanup scripts have no effect on what a job publishes.
- Existence, readability and parsing of snapshot.json, values.json, vault.json and the checks on .gitignore: their parsed contents are inputs.
- A crash between executing a onceshell command and writing the memory file, and edits of that file by others.
- Base64, YAML parsing, JSON text and number formatting are parameters; which characters Rust prints unescaped is one too.
- Comments, other value types and other tables of TOML: only what the printer emits is parsed, a key outside any table being refused.
- Helm repository set-up and the order of installation.
- TaskRuns other than the reconciler's own never carry its tracking label; a finished TaskRun stays as it is; one reconcile of an object runs at a time.
- The remaining handlers of src/start.rs, heartbeat, metrics, the standalone RemoteTask reconciler, the upload loop, the backup sweep and the object builders: they would add only easy members.
- Wamp.ReplyRoundTrip: a payload that is not an object is dropped by the reply, as in the source, so the verdict then carries only the reply's own fields.
- TemplateExact.SimultaneousIff: versions that hold an opening brace are covered one way only, by Template.RenderIsSimultaneous, since such a version may happen to be replaced by itself.
- StagingExact.StagedIff: vault keys that are empty or hold a closing parenthesis, and filtered vault values, are left to the lemmas that show how each fails, and values that open a placeholder to module TemplateExact.
- HelmKeys.FileSurvivesIff: the set keys of a resource are distinct, as in the HashMap they come from.
- Envrc.SameLineIff: for a HOME that holds a dollar sign the expansion may put a reference back, and the exact condition is the one of Envrc.SameReadingIff.
- Envrc.ReadersAgree: line by line the agreement is exact; for a whole file two differing lines may cancel out.
- Execute.EveryJobInOrder: the handler and its line-reading tasks are events of a state machine, not loops, since they run concurrently.
- HelmBuild.PlanHelmBuild: the values files are given with their contents; a missing one fails the plan.
