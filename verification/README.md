# A verified model of the orchestrator's core

This project models, in Dafny, the parts of the herdr orchestrator on which everything else rests,
and proves what they promise. It stands beside the program; check it with
`dafny verify dfyconfig.toml`.

**The run engine** is one state machine. `RunProtocol` describes a run as a world: the durable
document and approval requests, the worktree's HEAD, the driver's volatile state, and a log of what
really happened. Every save, side effect, gate, crash, recovery, human decision, expiry, cancellation
and retry is one label. `RunSafety` proves one invariant of all worlds; `RunGuarantees` draws from it
statements about whole executions with crashes anywhere: one prompt per execution, spawns accounted
for, retry budgets kept, every gated effect behind a human's decision. `RunDriving.RunDriver` is the
driver itself, method by method; what agents, checks, policy, git and the pull request tool answer are
parameters of its steps. Each method is proved to do nothing but labels of the protocol, so every drive is
an execution and all guarantees apply to it. Moreover the loop ends, the transition tables never refuse a
move, what policy denies or asks about is denied or asked about on every way through the code, each step
succeeds only if those answers deserve it, a dry run prompts nobody and has no effect, and the status in
which a drive ends is the one that interpreting the workflow over the outcomes of its steps gives
(`RunDriver.Execute`, `RunDriving.FollowsInterpretation`). `StepMeaning` says which outcome the answers give;
`DiffGate` is what a run is asked about the changes it has made. `RunOffline` is what recovery and the
scheduler do to runs that nobody drives, step kind by step kind.

**The policy language**: the wildcard matcher, the shell splitter and tokenizer, normalization of
commands through wrappers and nested scripts, rules and layered policies (`Wildcard`, `ShellWords`,
`ShellSplit`, `ShellSequence`, `Normalize`, `Policy`). Four further modules say what these mean without
naming the functions that compute it: `ShellGrammar` and `ScriptGrammar` for every text written out from
quoted, escaped and plain pieces, `CommandMeaning` for wrappers, shells and scripts, `RuleMeaning` for
patterns, criteria and files.

**The audit log**: appending by way of a growing tail window, verification, tamper evidence (`AuditLog`), and
logs whose chaining was switched on and off (`AuditMixed`); `AuditCodec` shows that what is assumed of digest
and line format can be had.

**Plans and epics**: the sort that feeds task creation, the life of an epic, and what its operations mean
(`PlanGraph`, `Epics`, `EpicMeaning`).

**Schedulers** claiming tasks and driving runs over one store, and agent slots (`Scheduling`);
**durations**, **layered configuration** and the **bounded capture** of output (`Duration`,
`ConfigMerge`, `Capture`).

## Where the code and its promises differ

Each of these is a lemma below.

- A wildcard pattern with `*` can miss a text that itself contains `*` (`Wildcard.StarInTextIsLost`);
  exactly the texts without `*`, and exactly the patterns without `*`, are always answered rightly.
- "Later layers can only tighten" (src/policies/mod.rs:303-304): from the empty set with an `allow` default,
  which is where the program starts, no file, first or later, lowers the default or a matched decision
  (`Policy.ProgramOnlyTightens`). In general the default is safe exactly once a file was taken or while it is
  `allow` (`Policy.DefaultNeverLoweredIff`); a set built with a stricter default, which the program never
  builds, is opened by its first file (`Policy.FirstFileMayLower`). What does get lowered is a subject that
  no rule matched and only a stricter default judged: an added `allow` rule does it (`Policy.NeverLoweredIff`).
- docs/SECURITY_MODEL.md:204 promises durable, one-shot decisions. A second decision is refused
  (`RunGuarantees.DecidedOnce`), but the waiting driver writes the deadline without looking at the request
  again, and so over an approval that came in between (`RunFindings.ApprovedThenExpired`). An approval stands
  exactly as long as no deadline is written over it (`RunGuarantees.ApprovalStandsIff`), and the race goes
  towards denial only (`RunGuarantees.StatusMoves`, `RunGuarantees.ExpiredIsNeverGranted`).
- docs/SECURITY_MODEL.md:210-213 and docs/WORKFLOWS.md:262-264 promise that an approval covers the next step
  while HEAD is unchanged since the approval. The gate compares HEAD with the one the cover names, which
  leaves two windows. The cover takes HEAD when the driver sees the grant, not when the human decided
  (`RunFindings.CoveredAfterAMove`). And the pull request step commits after its gate, and opens the pull
  request at a HEAD nobody approved (`RunFindings.OpenedAtAnotherHead`), unless the push before it is asked
  about again. `RunGuarantees.CoveredAsApprovedIff` says exactly when a covered effect happens at the HEAD
  that was approved and when the gate's comparison means that, `RunGuarantees.CoveredAtItsHeadIff` when gate
  and effect agree; the driver's own commands and pushes follow their gate with no commit of its own in
  between (`RunDriving.RunDriver.CommandStep`, `RunDriving.RunDriver.PushBranch`).
- Accepted changes are remembered by their content at the time of the grant, not of the question
  (`DiffGate.AskedAgainIff`; docs/WORKFLOWS.md:272-273 speaks of line counts), and the summary of a diff is
  accepted for the rest of the run (`DiffGate.SummaryIsAskedOnce`). A file named `<diff-summary>` is asked
  about again and again (`DiffGate.AskedOnceIff`).
- Recovery lists the runs, takes each lock later, and rewrites the listed document: a run that finished in
  between is put back (`RunFindings.SucceededRunRecoveredAsListed`). It does what it should exactly when the
  run is still as listed, up to waiting for an approval (`RunOffline.RecoversAsStoredIff`); then all
  guarantees hold (`RunOffline.FreshListsKeepPromises`).
- A rule with `shell: false` never reaches scripts (`Policy.RuleReachesIff`).
- A verified log that does not end in a newline stops being readable with the next event
  (`AuditLog.LostNewline`), and one that ends in a blank line takes no event (`AuditLog.BlankLastLine`);
  no other verified log has such a problem (`AuditLog.AppendVerifiesIff`).
- docs/RECOVERY.md:76 and docs/THREAT_MODEL.md:192-193 promise that an interrupted, spawned command
  waits for a human. A crash between the spawn and the save of the process can make it look never spawned
  (`RunFindings.SpawnedTwiceAcrossTheWindow`): `RunGuarantees.WindowReopenedIff` says, for every world in
  that window, exactly when the command is run again. One that was approved at its own request is not
  (`RunGuarantees.ApprovedCommandIsNotRerun`): it waits for a human as promised, or its run has failed because
  the worktree is gone. Outside the window, a
  request that is still pending, although policy by now allows the command without it, makes recovery
  reopen a command whose process was recorded (`RunFindings.SpawnedTwiceUnderAStaleRequest`), and nothing
  else does (`RunGuarantees.CommandReopenedIff`). A driver that takes an interrupted run before recovery, on
  the strength of an old list of pending runs, also goes on with its open command
  (`RunFindings.SpawnedTwiceWithoutRecovery`, `RunGuarantees.EntryReopensIff`).
  `RunGuarantees.SpawnsAccounted` adds up all of these.
- docs/AUDIT.md:166-170 lets `audit.hash_chain` be switched and says that unchained files are reported as such.
  A log that is switched on again after an event without a hash is reported as broken, although nobody touched
  it: the next event carries on the numbers of all events, and verification counts the chained ones only.
  Exactly these logs are (`AuditMixed.MixedLogVerifiesIff`).
- A crash while a task's runs are being created makes the next scheduler create them again
  (`Scheduling.CrashWhileCreatingDuplicates`): a crash of a scheduler leaves every run in its task's batch
  exactly when it had not saved some runs without their task (`Scheduling.DeathIsHarmlessIff`).
- Displaying a duration of a second or more drops its milliseconds (`Duration.RoundTripIff`).

## Model

| member | source | states |
|---|---|---|
| Wildcard.WildcardMatch | src/policies/mod.rs:203-228 | The index loop with one remembered star ends on every input and computes the scan the theorems below are about |
| Wildcard.Sound | src/policies/mod.rs:203-228 | Every `true` is a real match in the declared meaning of `*` and `?`, for every pattern and every text |
| Wildcard.LaterStarSuffices | src/policies/mod.rs:205-219 | Forgetting all stars but the last one loses no match |
| Wildcard.ScanComplete | src/policies/mod.rs:203-228 | From any reachable state of the loop, if the text holds no `*` and a match is still owed, the loop finds one |
| Wildcard.Exact | src/policies/mod.rs:203-228 | On every text without `*` the answer is exactly the declared meaning |
| Wildcard.StarInTextIsLost | src/policies/mod.rs:207-213 | A concrete text with `*` that matches and is answered `false`, because the literal test comes before the star test |
| Wildcard.TextIsSafeIff | src/policies/mod.rs:203-228 | A text is answered correctly under every pattern if and only if it holds no `*` |
| Wildcard.PatternIsSafeIff | src/policies/mod.rs:203-228 | A pattern is answered correctly on every text if and only if it holds no `*` |
| ShellWords.Tokenize | src/policies/command.rs:484-523 | The character loop computes the words the round trips below are about |
| ShellWords.ReadPrinted | src/policies/command.rs:484-523 | Either printed form of a word, inside any larger text, is read back as that word |
| ShellWords.DisplayRoundTrip | src/policies/command.rs:484-536 | Tokenizing the displayed form of any argument list gives that list back: empty words, quotes, blanks and backslashes included |
| ShellWords.DisplayInjective | src/policies/command.rs:525-536 | So two argument lists that are displayed alike are the same list |
| ShellWords.ShQuoteRoundTrip | src/policies/agent_hook.rs:38-43 | The second quoting printer is inverted by the tokenizer too, for every word |
| ShellWords.WordsCount | src/policies/command.rs:484-523 | Tokenizing creates no character: no letter occurs more often in the words than in the text |
| ShellGrammar.WordsOfLine | src/policies/command.rs:484-523 | Whatever mixture of plain pieces, escapes and both kinds of quotes each word is written in, and whatever blanks stand between words, tokenizing gives back exactly what the pieces mean, blanks inside quotes included |
| ShellGrammar.OpenEnds | src/policies/command.rs:484-523 | An open quote of either kind takes everything to the end of the line into one word; a lone backslash at the end is dropped |
| ShellSplit.SplitShellSegments | src/policies/command.rs:411-481 | The loop over quotes, escapes and nested substitutions returns exactly the segments the laws below are about |
| ShellSplit.ReadParen | src/policies/command.rs:433-446 | The inner loop over `$(...)` stops at the matching bracket |
| ShellSplit.ReadTick | src/policies/command.rs:447-460 | The inner loop over backticks stops at the closing one |
| ShellSplit.SplitAppend | src/policies/command.rs:411-481 | Splitting a text is splitting its front and going on with the rest, wherever the seam does not cut an operator |
| ShellSplit.SegmentsOfJoined | src/policies/command.rs:411-481 | If `a` ends outside quotes, escapes and substitutions, then the segments of `a`, an operator and `b` are, as a multiset, those of `a` plus those of `b`, nested substitutions included |
| ShellSplit.SegmentsOfSequence | src/policies/command.rs:411-481 | The same for `;` and for a newline, with no further condition on `a` and `b` |
| ShellSplit.OpenQuoteSwallowsSeparator | src/policies/command.rs:411-481 | An open quote in front makes the law fail: the condition on `a` is needed |
| ShellSequence.SequenceLawIff | src/policies/command.rs:411-481 | The law about `;`, and that about a newline, hold for every following script if and only if the front ends outside quotes, escapes and substitutions |
| ShellSplit.DisplayedIsOneSegment | src/policies/command.rs:411-536 | The displayed form of any argument list is a single segment, itself |
| ShellSplit.SegmentsCount | src/policies/command.rs:411-481 | All segments together, nested ones included, hold each `h` of the script at most once, although `$()` grows to a longer mark |
| ScriptGrammar.SplitIsMeaning | src/policies/command.rs:411-481 | Splitting a script written out from its parts (plain text, quotes, escapes, both substitutions, each operator) is what each part says, from every state outside quotes |
| ScriptGrammar.SegmentsOfParts | src/policies/command.rs:411-481 | So the segments and substitutions of such a script are exactly those of its parts: quotes and escapes hide operators, and double quotes do not hide a substitution |
| Normalize.UnwrapPrefix | src/policies/command.rs:121-178 | The loop that skips assignments, `env`, `sudo`, `nice`, `timeout` and the like computes the judged command and whether it is privileged |
| Normalize.StripGitGlobalOptions | src/policies/command.rs:211-243 | The loop over git's global options drops exactly what the specification drops |
| Normalize.StripGitLeavesSubcommand | src/policies/command.rs:211-243 | What is left of a git command line is a suffix of it, and starts with no global option |
| Normalize.InnerScriptShrinks | src/policies/command.rs:179-191 | The script inside a `sh -c` holds fewer `h` than the command that runs it: the measure under which normalization ends (which script it is, `CommandMeaning.ScriptOfShellIsJudged` says) |
| Normalize.SegmentWordsCount | src/policies/command.rs:97-119 | No segment of a script holds more `h` than the script |
| Normalize.DepthIsIrrelevant | src/policies/command.rs:86-119 | The depth guard never decides anything: all depths the program can reach give the same result |
| Normalize.QuotedScriptIsTransparent | src/policies/command.rs:97-119 | Normalizing the displayed form of an argument list as a script gives its normal form as the only segment, whenever that has a program |
| Normalize.ChainedScripts | src/policies/command.rs:97-119 | The commands judged for two chained scripts are those judged for each of them |
| Normalize.ChainedCommandIsSegment | src/policies/command.rs:97-119 | A command written out behind an operator is among the commands judged, exactly as it would be alone |
| Normalize.SubstitutionsAreJudged | src/policies/command.rs:97-119 | What a substitution would run is among the commands judged for the script around it |
| Normalize.WrapperIsSeenThrough | src/policies/command.rs:121-178 | Any recognized wrapper in front changes neither program, text nor segments; raising privileges adds exactly its tag |
| Normalize.SegmentShows | src/policies/command.rs:52-69 | A command shows rules all texts and tags of each of its segments |
| CommandMeaning.BasenameIs | src/policies/command.rs:71-73 | A program is known by what follows its last slash |
| CommandMeaning.AssignmentIff | src/policies/command.rs:75-83 | An assignment is an identifier before the first `=`, and nothing else is one |
| CommandMeaning.WrapperIs | src/policies/command.rs:126-178 | Each wrapper, with each of its options and arguments, is taken off as a whole in front of any command, and says whether it raises privileges |
| CommandMeaning.NothingToUnwrap | src/policies/command.rs:126-178 | A command line that starts with no wrapper and no assignment is judged as it is, and is not privileged |
| CommandMeaning.GlobalsAreStripped | src/policies/command.rs:211-243 | Of the arguments of git, exactly the global options before the subcommand are left out |
| CommandMeaning.PlainCommand | src/policies/command.rs:121-209 | An ordinary command shows its program by name, its own arguments, its canonical text and its tags, and has no segments |
| CommandMeaning.CollapsedIs | src/policies/command.rs:404-406 | The canonical text has one space between words, whatever blanks were there, and none around them |
| CommandMeaning.ScriptOfShellIsJudged | src/policies/command.rs:179-199 | For every shell, by any path, with any options before `-c` (combined ones included) and any arguments after it: what is judged is the script, segment by segment |
| CommandMeaning.WrappedScriptIsJudged | src/policies/command.rs:126-199 | The same behind any wrapper |
| CommandMeaning.QuotedCommandIsJudged | src/policies/command.rs:89-199 | A command that is quoted and handed to any shell behind any wrapper has exactly one segment: that command as it is judged on its own |
| CommandMeaning.ScriptTags | src/policies/command.rs:97-119 | A script carries the tag `shell` and the tags of its commands, and no others |
| CommandMeaning.ScriptCommands | src/policies/command.rs:97-119 | The commands of a script are exactly those its segments spell |
| CommandMeaning.CommandShows | src/policies/command.rs:53-68 | Rules see the text and tags of a command and of its segments, at any depth, and no others |
| Policy.PolicySet.constructor | src/policies/mod.rs:293-296 | An empty set has no rules, no sources and the given default |
| Policy.PolicySet.Add | src/policies/mod.rs:305-357 | Adding a file changes the rules and the default exactly as specified, also when it is refused half-way |
| Policy.PolicySet.Decide | src/policies/mod.rs:376-408 | The evaluation loop returns the strictest decision of the rules that match, their ids in order, or the default (which rules match, `RuleMeaning.RuleMatchesIff` says) |
| Policy.EvaluateIsVerdict | src/policies/mod.rs:376-408 | A decision is the verdict if and only if some matching rule has it and none is stricter, or none matches and it is the default |
| Policy.DefaultNeverLoweredIff | src/policies/mod.rs:313-319 | No file, first or later, can lower the default if and only if the set is settled: it has taken a file before, or its default is `allow` |
| Policy.LaterFilesTighten | src/policies/mod.rs:305-357 | Any file, first or later, taken whole or refused half-way, keeps every match, and never lowers the decision of a subject some rule matched, nor anything while the default is `allow`; on a settled set it does not lower the default either |
| Policy.LaterLayersTighten | src/policies/mod.rs:305-357 | The same over any number of files, refused ones included, from any set; only the default asks for a settled one |
| Policy.ProgramOnlyTightens | src/engine/mod.rs:120-132 | From the set the program starts with, whatever files it has taken: the files that follow lower neither the default nor the decision of any subject that a rule matched or that was judged under `allow` |
| Policy.NeverLoweredIff | src/policies/mod.rs:305-404 | No file, first or later, can lower a subject's decision if and only if some rule matches it or the default is `allow` |
| Policy.FirstFileMayLower | src/policies/mod.rs:313-319 | A set that starts with the default `deny` can be opened by its first file: being settled is needed |
| Policy.RuleReachesIff | src/policies/mod.rs:410-504 | A rule that matches a segment also matches every script around it, for all scripts, if and only if it does not insist on `shell: false` (or never matches) |
| Policy.ScriptAtLeastSegment | src/policies/mod.rs:376-504 | A script's decision is at least that of each of its segments |
| Policy.ChainingCannotLoosen | src/policies/command.rs:97-119 | A script is judged at least as strictly as each of the commands it is normalized to |
| Policy.ChainedCommandIsJudged | src/policies/command.rs:97-119 | End to end, from the text: a command written out behind any operator and any whole script is judged there at least as strictly as on its own |
| RuleMeaning.LiteralPattern | src/policies/mod.rs:203-228 | The declared meaning of a pattern without wildcards is the text itself, and with a `*` behind it, all that begins with it |
| RuleMeaning.PatternsDecide | src/policies/mod.rs:430-438 | A list of patterns matches a text without `*` if and only if one of the patterns means it, and never matches more than that on any text |
| RuleMeaning.RuleMatchesIff | src/policies/mod.rs:410-502 | A rule matches exactly the subjects that satisfy each of its criteria: action, paths and excluded paths, commands in the meaning of their patterns, tags, shell, runners, steps, branches, repositories, all four minima, added lines |
| RuleMeaning.RuleNeedsItsPatterns | src/policies/mod.rs:430-480 | Whatever the texts hold, `*` included, no subject that fails the patterns of a rule is matched by it |
| RuleMeaning.DenialWins | src/policies/mod.rs:376-408 | One matching rule that denies is enough; and nothing is denied without one, but by a default that no rule answers |
| RuleMeaning.DeniedCommand | src/policies/mod.rs:376-438 | From pattern to decision: a command without `*` whose text a pattern of a deny rule means is denied, if the other criteria hold |
| RuleMeaning.LoadedRules | src/policies/mod.rs:305-357 | Files that are taken add all their rules, in order |
| RuleMeaning.LoadedDefault | src/policies/mod.rs:305-357 | The default ends as the strictest of the set's own and all that the files give, and as one of these |
| RuleMeaning.RefusedFile | src/policies/mod.rs:305-357 | A file with a rule id twice changes nothing; one with a rule that cannot be taken leaves exactly the rules before it, and no source |
| RuleMeaning.RefusedRuleIff | src/policies/mod.rs:322-345 | A rule is refused exactly for a pattern that does not compile, an unknown tag, or because it only restricts (excluded paths, minimum of changed lines, steps, branches, repositories, shell) |
| RuleMeaning.ShellCannotLoosen | src/policies/mod.rs:376-438 | If no rule says `shell: false`: a command that is quoted and handed to any shell, with any options and behind any wrapper, is judged at least as strictly as on its own |
| AuditLog.VerifyFile | src/audit/mod.rs:259-316 | The loop over lines reports exactly the problems, counts and verdict of the specification, or the error of reading (what these mean for any file, `AuditLog.VerdictIff` and `AuditLog.ReportIsExact` say) |
| AuditLog.NoVerdictIff | src/audit/mod.rs:259-268 | Verification ends in an error if and only if some line is not UTF-8 |
| AuditLog.CleanIff | src/audit/mod.rs:259-316 | A file verifies as ok and chained if and only if its lines are an intact chain of events |
| AuditLog.VerdictIff | src/audit/mod.rs:259-316 | For any file that is read: ok if and only if the events that have a hash form an intact chain, whatever stands between them; chained if and only if no event lacks a hash; every line that is not blank is counted |
| AuditLog.ReportIsExact | src/audit/mod.rs:259-316 | The problems reported are exactly those there are, line by line: unreadable lines, edited events, broken links and wrong numbers, each with what was expected |
| AuditLog.SameHashSamePast | src/audit/mod.rs:70-78 | In two chains, equal hashes sit at equal positions and have equal pasts |
| AuditLog.HeadDeterminesLog | src/audit/mod.rs:70-316 | Two files that verify and end in the same hash hold the same events: no edit, deletion, insertion or reordering keeps the last hash |
| AuditLog.ChangeReachesTheHead | src/audit/mod.rs:70-316 | One changed event changes the hash of every later one |
| AuditLog.PrefixVerifies | src/audit/mod.rs:259-316 | Every prefix of lines of a verified file verifies: truncation is what chaining alone cannot see |
| AuditLog.WindowSuffices | src/audit/mod.rs:196-228 | A tail window that shows a newline before its last text shows the whole last line |
| AuditLog.LastLink | src/audit/mod.rs:196-228 | The growing window ends, and finds the same hash and number as parsing the whole file, for every content and size |
| AuditLog.LogFile.Append | src/audit/mod.rs:142-184 | What is appended is one line for the event after the last link, with or without a hash as chaining is on or off; nothing is written when the last line cannot be read |
| AuditLog.AppendVerifiesIff | src/audit/mod.rs:142-228 | Appending to a verified, chained file gives a verified, chained file with one more event if and only if the file is empty or ends in a newline after a line that is not blank |
| AuditLog.AppendGoesOn | src/audit/mod.rs:142-184 | After any readable last event, chained or not, the next chained one has the next number, that event's hash or the first link, and its own hash |
| AuditMixed.MixedLogVerifiesIff | src/audit/mod.rs:142-316 | A log written by appends alone, with `audit.hash_chain` switched on and off at will, verifies as ok if and only if it was never switched on again after an event without a hash |
| AuditLog.LostNewline | src/audit/mod.rs:142-228 | For every codec and body: the one-event log without its final newline verifies, takes one more event, and then neither event can be read |
| AuditLog.BlankLastLine | src/audit/mod.rs:142-228 | For every codec and body: the one-event log with a blank last line verifies, and refuses every further event |
| AuditCodec.PlainIsValid | src/audit/mod.rs:70-105 | The properties assumed of digest and line format can hold together: a concrete format and digest have them all, with a blank line that is not empty |
| AuditLog.WrittenLogsVerify | src/audit/mod.rs:142-316 | Any log written by appends alone verifies, and its events carry what was appended, in order |
| PlanGraph.TopoOrder | src/epic/mod.rs:282-302 | The multi-pass loop computes the sort the theorems below are about |
| PlanGraph.OrderIsTopological | src/epic/mod.rs:282-302 | An order that is found is a permutation of the keys with every dependency earlier |
| PlanGraph.StuckIsKnot | src/epic/mod.rs:282-302 | A refusal names a non-empty set of tasks each of which depends on a member |
| PlanGraph.WalkFindsCycle | src/epic/mod.rs:282-302 | Walking inside such a set leads into a cycle |
| PlanGraph.OrderedIffAcyclic | src/epic/mod.rs:282-302 | On uniquely keyed tasks an order is found if and only if the dependencies have no cycle |
| PlanGraph.ValidOrderIsKept | src/epic/mod.rs:282-302 | A plan whose order is valid already is left in plan order |
| PlanGraph.SubsetStaysAcyclic | src/epic/mod.rs:282-302 | Every selection from an acyclic plan is acyclic |
| PlanGraph.CheckTask | src/epic/mod.rs:216-268 | The checks on one task find exactly its faults, kind by kind, and none if and only if the task is fine on its own |
| PlanGraph.CheckDependencies | src/epic/mod.rs:262-272 | The checks on dependencies find exactly those on unknown tasks and on the task itself |
| PlanGraph.ValidatePlan | src/epic/mod.rs:216-279 | A plan is refused with exactly the faults it has, all of them; one without a fault is refused exactly if it has a cycle, with the tasks that are stuck |
| PlanGraph.ValidKeyIff | src/epic/mod.rs:204-206 | Which keys are valid, character by character and in length |
| PlanGraph.ContainsIff | src/epic/mod.rs:249-254 | What is looked for in commands and scopes is found exactly where it stands |
| PlanGraph.SelectionCanBeOrdered | src/epic/engine.rs:298-303 | Any selection from a valid plan can be ordered: the cycle error after validation is unreachable |
| Epics.Board.constructor | src/engine/mod.rs:178-263 | An empty board satisfies both invariants |
| Epics.Board.CreateTask | src/engine/mod.rs:178-263 | A new task gets a fresh, larger number, and the invariant holds |
| Epics.Board.CreateEpic | src/epic/engine.rs:61-111 | A new epic is stored before its planning task; the second half may fail, and then nothing but the epic is new; plans stay free of cycles |
| Epics.Board.Sync | src/epic/engine.rs:132-178 | The end of a planning task replaces the plan but keeps every accepted entry, in front, or marks planning as failed; the keys stay sound exactly when a proposal that is taken has unique keys, and a proposal that stands on its own closes no cycle |
| Epics.SyncKeepsIff | src/epic/engine.rs:132-178 | Unique keys, which plan validation ensures before, are exactly what taking a proposal needs |
| Epics.Board.Verify | src/epic/engine.rs:448-507 | A review can be asked for again and again: each time a new task, the recorded review forgotten, refused exactly when nothing was accepted |
| Epics.Board.ReviewConformance | src/epic/engine.rs:179-204 | A review is recorded once per request, only if it is the one waited for; its follow-ups are added with fresh keys and close no cycle, after any number of rounds |
| Epics.Board.Finish | src/epic/engine.rs:205-225 | An epic is done exactly when it is accepted, all its tasks have finished and no key is open |
| Epics.Board.Accept | src/epic/engine.rs:267-348 | Acceptance is refused exactly when the plan does not allow it; else every selected key gets exactly one new task, numbered dependencies first, whose dependencies are the numbers of its plan dependencies, none dropped, and no other task is made; both invariants survive |
| Epics.Board.CheckAcceptance | src/epic/engine.rs:267-297 | The checks before acceptance pass exactly when the acceptance is allowed |
| Epics.Board.CreateTasks | src/epic/engine.rs:298-340 | The creation loop makes exactly one task per key, numbered in order and not begun, and links it to the tasks created before it |
| Epics.Board.Reject | src/epic/engine.rs:370-399 | Rejecting declines open tasks or the whole proposal, and refuses keys that are not open |
| Epics.Board.Replan | src/epic/engine.rs:401-422 | Re-planning starts exactly one new planning task unless one is under way |
| Epics.Board.SetPlan | src/epic/engine.rs:424-446 | A hand-edited plan is taken exactly when it is valid and keeps every accepted key; both invariants survive |
| Epics.Board.Unblock | src/epic/engine.rs:573-593 | A human may drop the dependencies of a task that has not started |
| Epics.Board.SetStatus | src/engine/mod.rs:432-459 | The engine moves a task's status along |
| Epics.FollowUp | src/epic/engine.rs:232-265 | The loop over follow-ups computes the specified plan; the search for a free number ends |
| Epics.KeepAcceptedKeeps | src/epic/engine.rs:150-175 | Keeping accepted entries keeps keys unique and loses no accepted key |
| Epics.MergedIsAcyclic | src/epic/engine.rs:150-175 | Accepted entries kept in front of a proposal that names only its own tasks close no cycle, whatever they depend on |
| Epics.PlanOkIsClosed | src/engine/steps.rs:712-718 | The proposal of a planning task, which is validated on its own, is of that kind |
| Epics.FollowupsKeep | src/epic/engine.rs:232-265 | Follow-ups only extend the plan, keep its keys unique, and keep it free of cycles if every dependency was known |
| Epics.AcceptedPlanIsOkIff | src/epic/engine.rs:267-297 | Over the whole life of an epic: while its plan is in execution, the validation before accepting more can fail for the form of its tasks only, never for its dependencies |
| Epics.AddedTaskKeepsAcyclic | src/epic/engine.rs:232-265 | A new task that depends on known keys closes no cycle |
| Epics.AcceptableOrder | src/epic/engine.rs:302-303 | An acceptable selection always has an order, in which every dependency is accepted already or comes earlier |
| Epics.LinkedIsExact | src/epic/engine.rs:304-340 | After acceptance every created task depends on exactly the numbers of its plan dependencies |
| Epics.CheckDependencyState | src/epic/engine.rs:528-571 | The loop over dependencies computes the specified state |
| Epics.ReadyIff | src/epic/engine.rs:528-571 | A task may start if and only if all its dependencies succeeded with a run and all (all but one, when stacking) are merged |
| Epics.SomeTaskIsNotWaiting | src/epic/engine.rs:528-571 | No deadlock: while anything is unfinished, some unfinished task waits for nothing unfinished |
| Epics.NoCyclicWait | src/epic/engine.rs:304-340 | Waiting chains lead to smaller numbers only, so no task waits for itself through others |
| EpicMeaning.FollowupsAre | src/epic/engine.rs:232-257 | Exactly the follow-ups that can be read and have a title and acceptance criteria are added, at the end and in their order, each as it is but under the first free `F` number after the one before, and with exactly those dependencies the plan knows by then |
| EpicMeaning.ReviewAdds | src/epic/engine.rs:179-257 | A review that was waited for adds these, numbered from one more than the keys that begin with `F`, and changes nothing else |
| EpicMeaning.OtherReviews | src/epic/engine.rs:179-204 | Nothing is added without a report; a review counts once, and only for the task that was waited for |
| EpicMeaning.AcceptedAreKept | src/epic/engine.rs:150-165 | Re-planning puts exactly the accepted entries that the proposal lacks in front of it, the last one first |
| EpicMeaning.PlanningEnds | src/epic/engine.rs:132-170 | Only the end of the awaited planning task changes an epic: to proposed with a plan, or to failed with the old one |
| EpicMeaning.AcceptableIff | src/epic/engine.rs:267-297 | Acceptance is possible if and only if the epic is proposed, accepted or done, something is selected, every selected key is in the plan, neither accepted nor declined, its dependencies are accepted or selected too, and the plan as a whole is well formed, names only its own tasks and has no cycle |
| EpicMeaning.ChosenInOrder | src/epic/engine.rs:302 | What is accepted is taken from the plan in the plan's order |
| EpicMeaning.NumbersOf | src/epic/engine.rs:306 | A task waits for the numbers of its own dependencies, one for each and in their order |
| EpicMeaning.DeclinedAreClosed | src/epic/engine.rs:370-399 | Declining closes exactly the keys named, or everything open; only an epic without tasks is rejected as a whole; nothing else changes |
| EpicMeaning.ReplannedIsOpen | src/epic/engine.rs:401-422 | Planning again waits for exactly the new planning task, and opens everything that is not accepted |
| EpicMeaning.AcceptedAreClosed | src/epic/engine.rs:341-344 | Accepting closes exactly what was accepted |
| EpicMeaning.ReplacedPlan | src/epic/engine.rs:424-446 | A plan put in by hand is the plan; it ends planning, and changes no other status |
| EpicMeaning.FirstObstacle | src/epic/engine.rs:528-571 | The first dependency that is not done is the one reported, and for the reason it has: unknown, failed or cancelled, without a successful run, or unfinished |
| EpicMeaning.NoObstacle | src/epic/engine.rs:528-571 | When all are done: ready on the default base exactly if all are merged, on the one that is not exactly if there is one such place and tasks may be stacked, else waiting for the merge |
| Decimal.ShowValue | src/config/duration.rs:63-82 | Printed numbers read back as themselves |
| RunModel.LastOpen | src/recovery/mod.rs:53 | The in-flight execution is the latest one that is not terminal |
| RunModel.LatestOf | src/model.rs:486-488 | The latest execution of a step |
| RunModel.CloseAll | src/engine/driver.rs:696-702 | Every open execution gets the final status, and nothing else changes |
| RunModel.CancelPending | src/engine/driver.rs:704-712 | Cancelling touches only requests that are still pending |
| RunModel.ApprovalStore.DecideRequest | src/approvals/mod.rs:170-191 | A decision is taken exactly when the request is pending, and changes no other request |
| RunModel.SecondDecisionRefused | src/approvals/mod.rs:170-191 | A second decision, whichever it is, is refused and changes nothing |
| RunModel.RunsReach | src/model.rs:98-121 | The transition table of runs, read from its other side: from where each status is reached |
| RunModel.ExecutionsReach | src/model.rs:156-175 | The transition table of step executions, read from its other side |
| RunModel.AttemptsAreCounted | src/engine/driver.rs:252-262 | The attempt number counts all earlier executions of the step, ended or not |
| RunSafety.InvKept | src/engine/driver.rs:363-443 | Every label of the protocol - every save, side effect, crash, recovery, decision, expiry, cancellation and retry - keeps the invariant |
| RunSafety.AlwaysInv | src/engine/driver.rs:363-443 | So it holds in every world of every execution |
| RunSafety.RequestsStand | src/approvals/mod.rs:170-191 | No label removes a request or gives it to another execution, and none strikes a decision from the log; what the store says of a request may change |
| RunSafety.SavedIds | src/engine/driver.rs:252-262 | A save keeps execution ids unique and requests with the execution they were made for |
| RunSafety.SpawnsKept | src/recovery/mod.rs:100-114 | Spawns are conserved by every label: each is under way, was lost in a crash, or was reopened by recovery or by a driver that took the run unrecovered |
| RunSafety.RetriesKept | src/engine/driver.rs:466-514 | No label takes a retry counter above its cap |
| RunSafety.FocusKept | src/engine/steps.rs:43-45 | An open command execution is always the last one, at the cursor's step |
| RunSafety.ConsentKept | src/engine/steps.rs:1035-1124 | Whatever is granted, covered, cleared or done goes back to a decision a human made |
| RunGuarantees.LogIsTrue | src/engine/driver.rs:363-443 | The protocol's log counts exactly the prompts, spawns, losses and reopenings that happened |
| RunGuarantees.AtMostOnePrompt | src/engine/steps.rs:235-268 | Over any execution, with crashes anywhere, an execution of a step is prompted at most once |
| RunGuarantees.SpawnsAccounted | src/engine/steps.rs:932-945 | A command is spawned once, plus exactly once for every crash between a spawn and its save, for every recovery that reopened it and for every driver that took its run unrecovered (or not spawned again yet) |
| RunGuarantees.CommandReopenedIff | src/recovery/mod.rs:66-114 | Recovery reopens a command whose process was recorded if and only if nothing is wrong with looking and its request is still pending |
| RunGuarantees.EntryReopensIff | src/engine/driver.rs:118-180 | A driver that takes a run goes on with a command that may have run if and only if it is still open; with a pending run it never does |
| RunGuarantees.DecidedCommandStaysClosed | src/recovery/mod.rs:66-114 | A recorded command whose request, if any, was decided is left to a human or failed, never run again by recovery |
| RunGuarantees.WindowReopenedIff | src/recovery/mod.rs:46-114 | After a crash between a spawn and the save of its process, from any world: recovery hands the command to the next driver if and only if nothing is wrong with looking, and the execution still waits for an undecided request or was saved as starting without a process |
| RunGuarantees.DecidedCommandSurvivesTheWindow | src/recovery/mod.rs:66-114 | A command running under a decided request is left to a human or failed after a crash in that window |
| RunGuarantees.ApprovedCommandIsNotRerun | src/engine/steps.rs:932-945 | So a command spawned under its own approval is never run again by recovery, from the very moment of the spawn |
| RunGuarantees.RoutesAreCounted | src/engine/driver.rs:481-493 | As long as no human retries from this step or an earlier one, its stored counter counts the routes taken, crashes or not |
| RunGuarantees.RetryBudget | src/engine/driver.rs:481-493 | As long as no human retries from this step or an earlier one, it is not routed back more often than its cap less what was used, crashes or not |
| RunGuarantees.RetryLimits | src/engine/driver.rs:481-493 | So failures of one step send the run back at most `on_failure.max_attempts` times and at most the configured limit, and never without `on_failure`, between two retries by a human |
| RunGuarantees.CapIsTheSmaller | src/engine/driver.rs:481-488 | The cap is the smaller of the step's own limit and the configured one |
| RunGuarantees.DecisionsStand | src/approvals/mod.rs:170-191 | Over any execution requests stay what they ask about, and the log of decisions only grows; for the stored status see the next rows |
| RunGuarantees.StatusMoves | src/approvals/mod.rs:170-191 | What moves a request's status is a decision on it while pending, a deadline, or the cancellation of a pending one: nothing but a decision ever approves |
| RunGuarantees.SettledStands | src/engine/steps.rs:1081-1096 | Over any execution a request that is no longer pending keeps its status, whatever it is, unless a deadline is written over it |
| RunGuarantees.ApprovalStandsIff | src/engine/steps.rs:1081-1096 | A human's accepted approval still reads approved if and only if no driver has written the deadline over it since; else it reads expired |
| RunGuarantees.ExpiredIsNeverGranted | src/engine/steps.rs:1072-1100 | The race goes towards denial only: once a deadline was written, no driver sees the request granted |
| RunGuarantees.DecidedOnce | src/approvals/mod.rs:170-191 | No request is decided twice |
| RunGuarantees.GrantWasDecided | src/engine/steps.rs:1072-1080 | Whenever the driver sees a grant, a human approved that very request earlier |
| RunGuarantees.CoverOrigin | src/engine/steps.rs:1183-1189 | A cover was taken while HEAD was the one it names |
| RunGuarantees.CoverNamesIff | src/engine/steps.rs:1183-1189 | A cover names a step if and only if the request it comes from was that of the approval step right before it, or, for a pull request step, its own |
| RunGuarantees.EffectsHadConsent | src/engine/steps.rs:1113-1124 | Every launch, command, push and pull request passed a gate; if it needed approval, a human had approved before the gate: either that execution's own request, or the request behind a cover of that step, before the cover was taken, and HEAD at the gate is the one the cover names |
| RunGuarantees.HeadIsLastMove | src/engine/steps.rs:1346-1368 | HEAD changes by the driver's commits and by other people's moves only |
| RunGuarantees.CoveredAtItsHeadIff | src/engine/steps.rs:1113-1124 | A covered effect happens at the HEAD its cover names if and only if HEAD was not moved between gate and effect, or last moved back |
| RunGuarantees.CoveredAsApprovedIff | src/engine/steps.rs:1072-1189 | Counted from the approval, as the documentation does: a covered effect happens at the HEAD of the moment the human decided if and only if HEAD was not moved since, or last moved back; and the HEAD the gate compares is that one if and only if this holds up to the taking of the cover |
| RunGuarantees.StatusEdges | src/model.rs:98-115 | Every status change is one the table allows, except that recovery moves preparing, running and awaiting_approval back to pending |
| RunGuarantees.TerminalRunsRest | src/engine/scheduler.rs:240-268 | Only a human's retry takes a run out of failed or cancelled |
| RunGuarantees.SuccessIsFinal | src/model.rs:98-119 | A run that succeeded stays so |
| RunGuarantees.ClosedStayClosed | src/model.rs:156-173 | A terminal execution is never edited and no execution is ever removed |
| RunFindings.SpawnedTwiceAcrossTheWindow | src/engine/steps.rs:932-945 | An execution, step by step, in which a crash between spawn and save makes recovery run a command again |
| RunFindings.SpawnedTwiceUnderAStaleRequest | src/recovery/mod.rs:66-73 | An execution in which recovery reopens a command whose process was recorded, because its request is still pending |
| RunFindings.SpawnedTwiceWithoutRecovery | src/engine/steps.rs:41-45 | An execution in which a driver takes an interrupted run that nobody recovered, and runs its command a second time |
| RunFindings.ApprovedThenExpired | src/engine/steps.rs:1081-1096 | An execution in which a human's accepted approval is overwritten as expired |
| RunFindings.OpenedAtAnotherHead | src/engine/steps.rs:1496-1533 | An execution in which a pull request covered by an approval is opened at a HEAD nobody approved, because the step commits between its gate and its effect |
| RunFindings.CoveredAfterAMove | src/engine/steps.rs:1072-1080 | An execution in which HEAD moves between the human's decision and the driver seeing it, the cover takes the new HEAD, and the pull request is opened there with nothing between gate and effect |
| RunFindings.SucceededRunRecoveredAsListed | src/recovery/mod.rs:153-203 | An execution in which a run succeeds between listing and locking, recovery makes it pending again, and its command is run a second time |
| RunSaves.RouteUsesOne | src/engine/driver.rs:481-493 | Going back to a retry step uses up exactly one retry |
| RunSaves.NothingLeftOpen | src/engine/steps.rs:47-78 | At the end of a step no command is left open |
| RunDriving.RunDriver.constructor | src/engine/driver.rs:118-180 | The driver takes a run of any status under the per-run lock; a command still open that may have run is counted as reopened |
| RunDriving.RunDriver.Others | src/approvals/mod.rs:170-191 | Whatever other processes do meanwhile, what the driver remembers can still be saved |
| RunDriving.RunDriver.SaveAs | src/engine/driver.rs:182-187 | A save makes the document what the driver remembers |
| RunDriving.RunDriver.SetStatus | src/engine/driver.rs:217-230 | The run moves exactly when the table allows it, and is saved; else nothing changes |
| RunDriving.RunDriver.SetExecStatus | src/engine/driver.rs:236-250 | The same for one execution |
| RunDriving.RunDriver.NewExec | src/engine/driver.rs:252-262 | A new execution is pending, with a fresh id and the next attempt number |
| RunDriving.RunDriver.OpenExec | src/engine/steps.rs:41-45 | A step resumes its latest execution if and only if that is open, whatever kind of step it is; else it gets a new one |
| RunDriving.RunDriver.AgentExec | src/engine/steps.rs:92-430 | From its execution on, an agent step that was prompted before is only reattached to: no launch and no prompt; and its outcome is the one its agent and its findings deserve |
| RunDriving.RunDriver.PromptAgent | src/engine/steps.rs:226-311 | A missing skill, a missing slot, a runner that breaks down, and each end of an agent lead to exactly their own outcome |
| RunDriving.RunDriver.OutputGates | src/engine/steps.rs:313-388 | A read-only step that changed the worktree is blocked, an agent that wrote and changed nothing has failed, and an exceeded budget is passed only under a grant seen now |
| RunDriving.RunDriver.ChangeGates | src/engine/steps.rs:397-411 | Policy on the changes, the guard against test-only retries and the commit: each is passed when it does not object or a human lets it pass now, and stops the step otherwise, in its own outcome |
| RunDriving.RunDriver.LockContract | src/engine/steps.rs:435-530 | A contract is locked exactly if its check fails, tried again if it passes or there is none, and the step is stopped if the check is |
| RunDriving.RunDriver.AfterAgent | src/engine/steps.rs:313-430 | No gate after the agent is left out and none is made up: success means that none objects, and unless somebody refuses the outcome is the verdict on what the agent left behind |
| RunDriving.RunDriver.FinishExec | src/engine/steps.rs:47-78 | Every open execution can be ended as succeeded, failed or cancelled, and as skipped exactly from pending: the table never refuses |
| RunDriving.RunDriver.Poll | src/engine/steps.rs:1072-1100 | One look at the request: the answer is the one its status gives after whatever happened meanwhile, a deadline is written only when it has passed, and a wait goes on only while the request is pending before its deadline |
| RunDriving.RunDriver.Look | src/engine/steps.rs:1078-1096 | A request still pending past its deadline is written as expired; every other answer is what the request says |
| RunDriving.RunDriver.AwaitDecision | src/engine/steps.rs:1072-1100 | The wait ends in a grant only if the request was seen approved during it, and in a denial only if it is denied or expired |
| RunDriving.RunDriver.RequestApproval | src/engine/steps.rs:1035-1109 | A grant was seen on the request of this very execution; a pending request of the execution is waited on again, else a new one is made; after a decision the run is running again and the execution open |
| RunDriving.RunDriver.CoverApplies | src/engine/steps.rs:1113-1124 | A cover applies only if it names this step and HEAD is the one it names |
| RunDriving.RunDriver.Consent | src/engine/steps.rs:900-916 | What policy asks about is covered, granted, or stops the step, and that only after a refusal, a passed deadline, a withdrawal or a stop |
| RunDriving.RunDriver.Judge | src/engine/steps.rs:880-918 | Denied by policy: the step is blocked. Allowed: the gate opens. Approval required: it opens only under a grant, or a cover where one may apply, else the step failed or was cancelled, and that only after a refusal, a passed deadline, a withdrawal or a stop |
| RunDriving.RunDriver.AskHuman | src/engine/steps.rs:638-704 | A gate with a question of its own goes on only under a grant seen now, and stops the step only after a refusal, a passed deadline, a withdrawal or a stop, in the outcome this gate has for it |
| RunDriving.RunDriver.OnAgentEvent | src/engine/steps.rs:753-826 | Each event moves the execution to exactly the status it stands for and changes nothing else; no agent event, in any order, attempts an illegal transition, and none but the announcement changes whether the prompt was sent |
| RunDriving.RunDriver.AnnouncePrompt | src/engine/steps.rs:775-781 | The document says the prompt was sent before it is |
| RunDriving.RunDriver.LaunchAndPrompt | src/engine/steps.rs:255-268 | The launch goes through its gate, the announcement is saved, and only then the prompt is sent |
| RunDriving.RunDriver.RunAgent | src/engine/steps.rs:235-268 | A prompted execution is only reattached to; the agent of any other ends only after the prompt was sent |
| RunDriving.RunDriver.StartExec | src/engine/steps.rs:932-934 | A pending execution is saved as starting, and nothing else changes |
| RunDriving.RunDriver.AgentStep | src/engine/steps.rs:92-430 | An execution that is still open is resumed, and a prompted one only reattached to: no new execution, launch or prompt. Success means that the agent was prompted, now or by the open execution, completed, and no gate objects; where nothing is denied and nobody refuses, the outcome is the verdict on what the agent did. A dry run prompts nobody and has no effect |
| RunDriving.RunDriver.RunProcess | src/engine/steps.rs:932-980 | The command that passed the gate is the first thing to happen; the process is recorded, and its end decides the outcome |
| RunDriving.RunDriver.CommandStep | src/engine/steps.rs:830-980 | Success means that the command or check was run through its gate and exited with zero, with no commit of the driver's between gate and start; a check without a contract blocks, one that is not configured is skipped; where nothing is denied and nobody refuses, the outcome is exactly the one the exit gives. A dry run has no effect |
| RunDriving.RunDriver.CommandExec | src/engine/steps.rs:870-980 | From its execution on: the same, and the step keeps to its one execution |
| RunDriving.RunDriver.RunCleared | src/engine/steps.rs:925-980 | What was cleared is saved as starting and spawned with no commit in between |
| RunDriving.RunDriver.DiffPolicyGate | src/engine/steps.rs:1227-1339 | A denied change stops the step as blocked; changes nobody accepted as they are pass only under a grant seen now, after which exactly they are remembered |
| RunDriving.RunDriver.Spawn | src/engine/steps.rs:936-943 | A command is spawned only while it has not run, through its gate |
| RunDriving.RunDriver.BindProcess | src/engine/steps.rs:944-945 | The process and the running status are recorded in one save |
| RunDriving.RunDriver.TakeCover | src/engine/steps.rs:1183-1189 | The cover names the step, the approval and the HEAD of this moment |
| RunDriving.RunDriver.ApprovalStep | src/engine/steps.rs:1126-1199 | Success means that the grant of this execution's own request was seen during the step, and that it covers the next step; any other outcome is the one the request's own status gives; a dry run passes |
| RunDriving.RunDriver.ApprovalExec | src/engine/steps.rs:1126-1199 | The same, from its execution on |
| RunDriving.RunDriver.PolicyStep | src/engine/steps.rs:1203-1223 | A policy step blocks exactly on a denied change, succeeds if nothing is denied and nothing needs consent that was not given before, and otherwise only if a human's grant was seen during the step, without which it failed or was cancelled after a refusal, a passed deadline, a withdrawal or a stop |
| RunDriving.RunDriver.GitStep | src/engine/steps.rs:1370-1398 | Success of a push step means that the branch was pushed through its gate; a commit step commits unless policy denies it, and then it is blocked; a dry run does neither |
| RunDriving.RunDriver.CommitChanges | src/engine/steps.rs:1346-1368 | What changed is committed unless policy denies it; a denial blocks and commits nothing |
| RunDriving.RunDriver.PushBranch | src/engine/steps.rs:1400-1432 | A push happens only through its gate, as the last effect, with no commit of the driver's between gate and push |
| RunDriving.RunDriver.OpenPullRequest | src/engine/steps.rs:1487-1547 | Success means that the pull request was opened through its gate; its own grant covers the push before it |
| RunDriving.RunDriver.PrStep | src/engine/steps.rs:1437-1547 | Success means that a pull request existed already, or that none did and one was opened through its gate; if one exists, or the tool cannot tell, none is opened; a follow-up is pushed to the existing one; where nothing is denied and nobody refuses, the outcome is exactly the one the state of affairs gives. A dry run has no effect |
| RunDriving.RunDriver.UpdatePr | src/engine/steps.rs:1437-1487 | An existing pull request is only pushed to, and only by a follow-up whose commit is not denied |
| RunDriving.RunDriver.Publish | src/engine/steps.rs:1495-1547 | A new pull request is opened only after commit and push, and only if the tool makes one |
| RunDriving.RunDriver.ExecuteStep | src/engine/steps.rs:24-39 | Whatever a step does, it leaves the cursor and the counters alone, the run running and no command open, or asks to stop; it succeeds only if it deserves to, by the answers from outside; a dry run prompts nobody and has no effect |
| RunDriving.RunDriver.HandleFailure | src/engine/driver.rs:466-514 | A failure is ignored, routed back, or fails the run: exactly as the step, its cap and its counter say |
| RunDriving.RunDriver.Prepare | src/engine/driver.rs:516-589 | Preparation blocks the run exactly when policy denies the worktree, and leaves it preparing otherwise |
| RunDriving.RunDriver.CancelRun | src/engine/driver.rs:696-722 | Cancelling closes what is open, withdraws what is pending, and is legal from every status the driver is in |
| RunDriving.RunDriver.Fail | src/engine/driver.rs:678-694 | After an internal error everything open is closed and the run fails |
| RunDriving.RunDriver.Conclude | src/engine/driver.rs:414-440 | Success and a skip move the cursor on; a failure is ignored, routed back or fatal; the other outcomes stop the run in their own status |
| RunDriving.RunDriver.Round | src/engine/driver.rs:404-441 | One round of the loop runs one step and concludes from its outcome, or is cancelled because somebody asked to stop, or fails the run past its deadline |
| RunDriving.RunDriver.Loop | src/engine/driver.rs:404-442 | The loop ends whatever the steps return, in the status its workflow gives over the outcomes of its steps, unless it was stopped or ran out of time |
| RunDriving.RunDriver.Execute | src/engine/driver.rs:363-443 | Entered with a run that is pending, preparing, running or awaiting approval, no transition is ever refused by a table, there are at most n * (1 + retries left) rounds, and the final status is the one that interpreting the workflow over the outcomes of the steps gives - success exactly past the last step - unless the run could not be prepared, was stopped, or ran out of time. A dry run prompts nobody and has no effect |
| RunDriving.RunDriver.Drive | src/engine/driver.rs:118-155 | Every drive ends in a stopped run, everything that happened on the way is an execution of the protocol, and the status is explained by the outcomes of the steps, by a stop from outside, or by an error of the store |
| RunDriving.RunDriver.PolicyWasHonoured | src/engine/steps.rs:880-918 | On every way through the driver: whatever it launched, ran, pushed or opened was not denied by policy, and what policy asks a human about was approved by a human before |
| RunDriving.EntryIsLegalIff | src/engine/driver.rs:363-400 | The table allows every move the loop may make if and only if the run was not entered as blocked or needs_human; such a run could neither ask for approval nor succeed |
| RunDriving.FollowsIsProgress | src/engine/driver.rs:404-514 | Whatever a step's outcome, a run that goes on has moved its cursor by one or used up one retry |
| RunDriving.FollowsInterpretation | src/engine/driver.rs:404-514 | What the loop does after each outcome is what the workflow, interpreted as a function of the outcomes so far, says |
| StepMeaning.AgentOutcomeIff | src/engine/steps.rs:313-430 | Each outcome of a completed agent, with its exact condition: success if and only if a read-only step changed nothing, something was done, no change and no commit is denied, the output passes its gate, and a contract, if there is one, is red |
| StepMeaning.UnfinishedAgentIff | src/engine/steps.rs:286-311 | An agent that did not complete never succeeds; a human is waited for exactly when it stalled |
| StepMeaning.PullRequestOutcomeIff | src/engine/steps.rs:1437-1547 | Each outcome of a pull request step, with its exact condition |
| StepMeaning.CommandOutcomeIff | src/engine/steps.rs:936-980 | A command succeeds if and only if it was started and exited with zero; it is cancelled exactly when it was interrupted |
| StepMeaning.AwaitsHumanIff | src/engine/steps.rs:753-826 | Over any sequence of events: a running execution waits for a human exactly while its agent's last call is unanswered |
| StepMeaning.OnlyStartStarts | src/engine/steps.rs:753-775 | Before its agent has started, nothing but the start moves an execution; one that awaits approval stays |
| RunOffline.RunStore.CloseOpen | src/engine/scheduler.rs:214-220 | The loop closes every open execution and nothing else |
| RunOffline.RunStore.CancelIdleRun | src/engine/scheduler.rs:213-237 | An idle run is cancelled, its open executions closed, its pending requests withdrawn |
| RunOffline.RunStore.ResumeRun | src/engine/scheduler.rs:240-268 | A human's retry puts the run back to pending at the step asked for, closes what is open, and forgets the counters from there on |
| RunOffline.RunStore.ForgetLater | src/engine/scheduler.rs:255-256 | The counters kept are those of steps before the cursor |
| RunOffline.RunStore.RecoverRun | src/recovery/mod.rs:165-203 | An interrupted run is rewritten as the classification of its listed document demands, whatever is stored by then (what that is, step kind by step kind, `RunOffline.InFlight` says) |
| RunOffline.RunStore.RecoverAll | src/recovery/mod.rs:149-217 | Every run listed as interrupted is recovered as it was listed, except those whose lock another process holds at their turn; no other run is touched |
| RunOffline.RecoversAsStoredIff | src/recovery/mod.rs:153-203 | Recovery from the list does what recovery of the stored run would, whatever it finds, if and only if since the listing the run has at most moved between running and awaiting approval |
| RunOffline.FreshListsAreAnExecution | src/recovery/mod.rs:153-203 | If every run that recovery takes from a list is as it was listed, in that sense, then whatever happens is an execution of the protocol |
| RunOffline.FreshListsKeepPromises | src/recovery/mod.rs:153-203 | In particular: at most one prompt per execution, spawns accounted for, and success final, with recovery from lists among what may happen |
| RunOffline.RecoveryDecides | src/recovery/mod.rs:46-203 | Recovery leaves a run pending, waiting for a human, or failed - failed exactly when it is past preparation and its worktree is gone, whatever else is wrong |
| RunOffline.InFlight | src/recovery/mod.rs:67-134 | What recovery makes of the execution in flight, for every kind of step: a pull request that is found is completed, one that is absent is tried again, and without an answer a human is asked; a command that may have begun is left to a human; a check, git, policy or approval step is run again; a request still to be decided is waited on again |
| RunOffline.NothingInFlight | src/recovery/mod.rs:53-61 | With no execution open the run goes on, or is complete but for its status, exactly when its cursor is past the last step |
| RunOffline.UnknownStep | src/recovery/mod.rs:62-65 | An execution of a step the stored workflow does not know is left to a human |
| RunOffline.ClosedOnlyIfFound | src/recovery/mod.rs:117-203 | Recovery closes an execution as succeeded, and moves the cursor on, if and only if it found the pull request |
| RunOffline.RecoveryKeepsClosed | src/recovery/mod.rs:165-203 | What was closed stays as it is |
| RunOffline.RetryStartsAgain | src/engine/scheduler.rs:240-268 | A human's retry starts at the step named, or where the run stands; it forgets exactly the counters from there on, and closes exactly what is open |
| RunOffline.IdleCancelClosesAll | src/engine/scheduler.rs:213-237 | A cancelled idle run has nothing open and nothing to decide |
| RunOffline.PromptedAgentIsResumedOnlyAlive | src/recovery/mod.rs:75-98 | A prompted agent is gone on with if and only if it is alive; gone or out of reach, the run waits for a human |
| DiffGate.Examine | src/engine/steps.rs:1239-1310 | The loop over the changed files finds exactly the denials and questions the statements below are about |
| DiffGate.Remember | src/engine/steps.rs:1322-1331 | The loop after the grant remembers exactly what was asked about |
| DiffGate.DenialsIff | src/engine/steps.rs:1239-1316 | Nothing is denied if and only if no locked file changed, every change stays inside the worktree, and policy denies neither a file nor the summary |
| DiffGate.DeniedIff | src/engine/steps.rs:1239-1316 | What is named as denied is exactly what is: violations, files outside the worktree or denied, and the diff as a whole |
| DiffGate.QuestionsIff | src/engine/steps.rs:1243-1310 | A human is asked about exactly the contents nobody accepted as they are, and about a summary nobody ever accepted |
| DiffGate.QuestionsAre | src/engine/steps.rs:1243-1310 | Said in full: asked about are contents inside the worktree that policy asks about, or allows outside the scope of the task, unless accepted as they are |
| DiffGate.AskedOnceIff | src/engine/steps.rs:1317-1331 | Accepted changes are not asked about again, if and only if no file that needs consent goes by the name under which the summary is remembered |
| DiffGate.AskedAgainIff | src/engine/steps.rs:1274-1331 | An accepted path is asked about again exactly when its content differs from what it was at the grant |
| DiffGate.SummaryIsAskedOnce | src/engine/steps.rs:1305-1331 | The summary is accepted for the rest of the run, whatever changes later |
| Scheduling.Slots.constructor | src/engine/mod.rs:50-52 | A budget below one counts as one |
| Scheduling.Slots.TryAcquire | src/engine/mod.rs:53-65 | A slot is given exactly when the wait is not cancelled and one is free; used always equals the number of live guards and never exceeds the capacity |
| Scheduling.Slots.Drop | src/engine/mod.rs:74-79 | Dropping a live guard gives its slot back, and never counts below zero |
| Scheduling.RunsKept | src/engine/mod.rs:281-381 | Every label keeps every run in its task's batch, at its variant |
| Scheduling.MadeKept | src/engine/mod.rs:322-365 | Every label keeps: the runs a scheduler has made for its claim are stored runs of that task |
| Scheduling.LocksKept | src/engine/driver.rs:118-124 | Every label keeps: a thread drives a run exactly when its scheduler holds the run's lock |
| Scheduling.AlwaysInv | src/engine/scheduler.rs:54-142 | The invariant holds in every world of every execution |
| Scheduling.OneRunPerVariant | src/engine/scheduler.rs:97-124 | However many schedulers tick on however stale lists, no variant of a task gets two runs |
| Scheduling.ClaimedIsComplete | src/engine/mod.rs:322-381 | A claimed task has exactly one run for each of its variants, recorded in their order |
| Scheduling.TaskMoves | src/engine/mod.rs:281-381 | Claiming makes a task running, an impossible one failed; no other step of a scheduler moves a task or its runs |
| Scheduling.RecheckIff | src/engine/mod.rs:281-315 | Under the lock a task is claimed exactly when it is still queued without runs; otherwise the lock is given back |
| Scheduling.DeathIsHarmlessIff | src/engine/mod.rs:315-381 | From any world: the death of a scheduler's process leaves every run in its task's batch if and only if it had not saved some runs of a task without the task; the queue is sound in any case |
| Scheduling.CrashWhileCreatingDuplicates | src/engine/mod.rs:322-381 | A crash between a saved run and the save of its task lets the next scheduler make the same variant again: the condition on crashes is needed |
| Scheduling.VariantsAreBounded | src/engine/scheduler.rs:97-124 | A task never has more runs than variants |
| Scheduling.OneDriver | src/engine/driver.rs:118-124 | No run is driven by two schedulers |
| Scheduling.ParallelRunsAreBounded | src/engine/scheduler.rs:133-140 | A scheduler never has more active runs than `max_parallel_runs` |
| Scheduling.StartPending | src/engine/scheduler.rs:131-140 | Pending runs start in order until the scheduler is full, and all of them if it does not fill up |
| Scheduling.TaskIsOverIff | src/engine/mod.rs:432-459 | A task is over if and only if all its runs are, succeeded if and only if moreover one did, and never queued by its runs |
| Scheduling.TaskStatusIff | src/engine/mod.rs:432-459 | Each status of a task, exactly when the statuses of its runs give it |
| Duration.ParseDuration | src/config/duration.rs:23-60 | The character loop with the `m`/`ms` lookahead computes the specified parse |
| Duration.TermsAreRead | src/config/duration.rs:23-60 | Any list of numbers with units reads back as its sum if and only if nothing overflows 64 bits |
| Duration.WrittenParses | src/config/duration.rs:28-30 | What is written with units is never mistaken for a bare number, nor trimmed |
| Duration.BareNumberIsSeconds | src/config/duration.rs:23-31 | A number with nothing behind it counts seconds, with blanks around it or a plus before it; one over 64 bits is refused |
| Duration.ParsesIff | src/config/duration.rs:23-60 | The grammar: a text means a duration if and only if, trimmed, it is a bare number of seconds or words of digits and a unit, with numbers and sum within 64 bits; and it means their sum |
| Duration.Print | src/config/duration.rs:63-82 | Printing computes the display the round trip is about |
| Duration.DisplayParses | src/config/duration.rs:23-82 | What is displayed reads back, rounded down to whole seconds from one second on, without overflow |
| Duration.RoundTripIff | src/config/duration.rs:23-82 | The round trip is exact if and only if the duration is below one second or a whole number of seconds |
| ConfigMerge.DeepMerge | src/config/mod.rs:556-579 | The loop over the overlay's keys, in any order, computes the merge |
| ConfigMerge.LeafIsSet | src/config/mod.rs:556-579 | A leaf the overlay sets has the overlay's value, or is appended to the base's list at the dotted path `policy.files` |
| ConfigMerge.UntouchedSurvives | src/config/mod.rs:556-579 | What the overlay does not touch survives, and nothing appears there |
| ConfigMerge.MergeLayers | src/config/mod.rs:647-650 | Folding the layers, first to last, computes the merged configuration |
| ConfigMerge.PolicyFilesAddUp | src/config/mod.rs:556-650 | The policy files of all layers are concatenated in the order of the layers |
| ConfigMerge.LastLayerWins | src/config/mod.rs:556-650 | Any other leaf has the value of the last layer that sets it |
| ConfigMerge.ReplacedFiles | src/config/mod.rs:630-637 | A project that replaces the global policy is left with its own files and those given later |
| Capture.FeedExtends | src/process.rs:125-138 | Feeding bytes one by one keeps the first half of the capacity and the last half of the rest |
| Capture.ChunkingIsInvisible | src/process.rs:125-138 | However the output arrives in pieces, what is kept depends on the whole of it only |
| Capture.DroppedIsExact | src/process.rs:114-147 | Head, dropped bytes and tail make up the input; nothing is dropped exactly while it fits |
| Capture.Capture.constructor | src/process.rs:122-124 | A new capture has seen nothing |
| Capture.Capture.Push | src/process.rs:125-138 | Pushing a buffer extends what was seen, and keeps the capture exact |
| Capture.Capture.IntoVec | src/process.rs:139-146 | The result is head, a note of the exact number dropped, and tail; it is the output itself while that fits |

## Left out

- Herdr, panes, sockets, processes, `gh`, `git`, network and tracker: their answers are parameters or arbitrary choices; HEAD is an abstract value.
- Regular expressions, path globs, YAML and JSON text: predicates on rules, records, and a `Codec` of events assumed to read back what it writes.
- SHA-256 is assumed to have no collisions and is otherwise any function.
- The table of command tags is any function of program and arguments; order and duplicates in tag lists are sets.
- Audit lines are bytes, and a missing log file is an empty one; redaction and event ids are not modelled.
- Text of messages, prompts, notifications, PR bodies, sidebar and reports; memory ranking, statistics and costs.
- Saves to the store are assumed to succeed and to be atomic; other operations of a step may fail at any time.
- The pane runner's own reminder and its re-send after a blocked start (src/runners/pane.rs) are not counted as prompts: the guarantee is about the step's prompt.
- The binding an agent run returns is taken to agree with the document on whether the prompt was sent.
- `parallel` steps, which loading a workflow refuses.
- Recovery of a run from an outdated list is not a label of the protocol: `RunGuarantees.AtMostOnePrompt`, `RunGuarantees.SpawnsAccounted`, `RunGuarantees.SuccessIsFinal` and the other statements about executions assume that each run recovery takes is still as it was listed; `RunOffline.FreshListsAreAnExecution` carries them over to executions with lists in them under exactly the condition of `RunOffline.RecoversAsStoredIff`.
- The scheduler's offline edits (`cancel_idle_run`, `resume_run`) are single steps that find no driver; their race with a driver that has just been started is not modelled.
- Commits are checked for a denial only, as in the code (src/engine/steps.rs:1351-1358); they are not among the gated effects.
- The configured limit on retries is the same in all drives of a run.
- RunDriving.RunDriver.Execute: entry with a blocked or needs_human run, which only a start on the strength of an old list could cause, is excluded; `RunDriving.EntryIsLegalIff` shows that there, and only there, the table refuses what the loop may do.
- RunDriving.RunDriver.Drive: the same entries are excluded.
- RunDriving.RunDriver.Prepare: what policy says about the worktree is a parameter, and whether it can be created an arbitrary choice.
- RunDriving.RunDriver.Judge: what policy says is a fixed function of action and execution during one drive; that a step goes on when nobody refuses is stated for steps none of whose requests was refused earlier in the run.
- RunDriving.RunDriver.AwaitDecision: waits are finite numbers of polls ended by a decision, an expiry or a cancellation.
- RunDriving.RunDriver.AgentStep: what an agent leaves behind (outputs, changes, contract, cost) and what was accepted before are parameters, not fields; feedback text is left out.
- RunDriving.RunDriver.PolicyStep: the changes, policy's verdict on each, and what was accepted before are inputs; that the map of accepted changes is a field of the run document is not modelled.
- RunDriving.RunDriver.PrStep: what `gh` reports about an existing pull request is an input; that it reports truthfully is not part of the model.
- Scheduling.OneRunPerVariant: a crash after some runs of a task were saved and before the task is excluded; `Scheduling.DeathIsHarmlessIff` says that exactly these crashes matter.
- Scheduling.VariantsAreBounded: the same crashes are excluded.
- Scheduling.Slots.TryAcquire: one pass of the waiting loop; fairness and wake-ups are not modelled.
- Epics.Board.SetPlan: closures passed to the store are atomic; two edits of one epic at once are one after the other.
- Epics.Board.Sync: whether and how a planning or conformance task ended is an input, here and in `ReviewConformance`; the text of the review task that `Verify` makes is left out.
- Inserting extra verification steps into a workflow (`augment_with_checks`), task intake checks, conflict-aware claiming, pausing and shift deadlines.
- Duration.ParseDuration: an overflow the program does not guard is a result of its own, `Overflow`; sub-millisecond durations cannot be written and are left out.
- ConfigMerge.DeepMerge: numbers, booleans, null and strings are one kind of scalar; making policy paths absolute and validating the result are left out.
