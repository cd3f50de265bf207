# Verified models of seven cluster-scheduler components

This project models, in Dafny, the parts of the repository whose behaviour is hardest to see
from the code, and proves what they promise:

1. **Comment stripper** (`StripComments`, `StripProperties`, `CommentEdits`): the six-state
   machine that removes comments from C++ sources is proved equal to a token grammar; then
   losslessness, idempotence, preservation of newlines, exactly when edits inside comments can be
   seen, and exactly when a raw string with an encoding prefix survives.
2. **DENTER rewriter and its checker** (`DenterLines`, `DenterCalls`, `DenterFirst`,
   `DenterVerify`): the in-place pass terminates although its cursor moves back, every run is
   invisible to the checker, and a second pass changes nothing.
3. **Submit option pipeline**: from argument vector, script and defaults files to the job, with
   end-to-end precedence for every kind of option, conservation of records and job arguments
   passed verbatim. The stages are `CommandLine`, `CommandLineProperties`, `ScriptOptions`,
   `Sources` and `JobBuilder`; `Options`, `Items`, `JobFields`, `JobParameters` and `JobHandlers`
   hold the records, the job and the handlers; `HandlerRuns`, `SwitchGroups`, `JobLists` and
   `RequestRuns` are theorems about any sequence of handlers; `Submission`,
   `SubmissionProperties`, `SubmissionLists`, `SubmissionHolds`, `SubmissionReadings` and
   `SubmissionWitnesses` are end to end.
4. **Error memory of interactive jobs** (`ErrorLatch`, `ErrorMemory`): the latches over every
   history of timed reports.
5. **Thread shutdown protocol** (`ShutdownProtocol`): every interleaving of main, waiter and any
   number of emitters.
6. **Word wrap of infotext** (`WordWrap`, `WordWrapProperties`).
7. **Escapes and placeholders of infotext** (`Escapes`, `Placeholders`).

Code that loops and updates is modelled as methods and classes with loop invariants; each is
proved against a function, and the theorems are lemmas about that function.
`dafny verify dfyconfig.toml` checks everything.

## What the proofs show about the code

Some things one expects do not hold of the code as it is. For each, the project gives the exact
condition and a concrete input:

- Edits inside comments, any number of them, show in the stripped text exactly when they put a
  parenthesis behind an earlier `R"` that has none (`CommentEdits.CommentEditsInvisible`,
  `CommentEditCanShow`).
- The comment at doc/doxygen/dxm-strip-comments.py:38-41 says that raw strings with an encoding
  prefix are covered. The test on the preceding character excludes every prefix; such a string
  comes out verbatim exactly when no comment starts in it as ordinary tokens
  (`CommentEdits.PrefixedRawVerbatim`), and a text can be lost (`PrefixedRawIsCut`).
- Of `-t` and the binding switches the first record of the first source is used, and the other
  records that survive are unknown options (`SubmissionProperties.FirstSourceWins`). So a `-t` in a
  defaults file makes any `-t` on the command line an error
  (`SubmissionWitnesses.DefaultTaskWins`).
- `-sync`, `-b`, `-shell` and `-tc` are taken before `-clear`: they always survive it
  (`SubmissionProperties.ClearIsTooLate`, `SubmissionWitnesses.ClearedSync`).
- A repeated `-C` is announced as overwriting the earlier one, but the script is scanned with the
  first. The two prefixes agree exactly when the first and the last surviving `-C` have the same
  text (`SubmissionReadings.PrefixesAgree`, `SubmissionWitnesses.TwoPrefixes`).
- Whether a script is scanned is decided by the first `-b` of the command line or the defaults,
  whether the job is binary by the last `-b` of all sources. When they agree, source by source:
  `SubmissionReadings.ScanAgreesWithJob`, and an input where they do not:
  `SubmissionWitnesses.TwoBinaries`.
- A second surviving `-h` copies a task list that the first one has emptied, so that no list holds
  a task (`SubmissionHolds.HoldPrecedence`, `SubmissionWitnesses.TwoHolds`).
- The reaper can return while a created emitter lives: exactly when main has created a thread that
  it has not counted and the counter is not zero (`ShutdownProtocol.ReaperReturns`). It happens
  right at a SIGINT (`EarlyInterruptHappens`) and behind a wakeup (`LateEmitterHappens`).
- Behind a line that is too long, infotext prints no line break; without an indent two words become
  one (`WordWrapProperties.BreakIsMissingExactly`, `WordsAreGlued`).
- Reading an escaped string loses a single character behind the last escape, and takes a backslash
  in front of n, r or t for a sequence (`Escapes.RoundTrip`, `RoundTripFails`).
- Filling placeholders one after the other is not substituting them all at once: an argument may
  bring or complete a placeholder of its own (`Placeholders.PercentInArgument`, `DoubledPercent`).
  The two agree whatever the last argument is exactly when none has formed in front of the place
  it is for (`FilledExactly`).

The branch for a lone `-` in the argument loop is never reached
(`CommandLineProperties.LoneDashIsRefused`).

## Model

| member | source | states |
|---|---|---|
| StripComments.StripText | doc/doxygen/dxm-strip-comments.py:26-114 | the character machine prints exactly the rendered token sequence: text tokens verbatim and in order, comments as their newlines and a space for a closed block comment |
| StripComments.TakeTurn | doc/doxygen/dxm-strip-comments.py:33-112 | one turn of the loop in each of the six states |
| StripComments.RunIsStripped | doc/doxygen/dxm-strip-comments.py:33-114 | from every index at which a token starts, the machine refines the grammar |
| StripProperties.LexIsLossless | doc/doxygen/dxm-strip-comments.py:26-114 | the tokens of a text, put together, are the text |
| StripProperties.StripKeepsNewlines | doc/doxygen/dxm-strip-comments.py:86-112 | the number of newlines is the same for every input, unterminated tokens and spliced lines included |
| StripProperties.OutputLexes | doc/doxygen/dxm-strip-comments.py:37-63 | the output, cut again, has the same tokens with each comment replaced by blanks: no comment and no raw string forms anew |
| StripProperties.StripIsIdempotent | doc/doxygen/dxm-strip-comments.py:26-114 | stripping twice is stripping once |
| CommentEdits.CommentEditsInvisible | doc/doxygen/dxm-strip-comments.py:37-63 | exchanging any number of comments for others with the same rendering leaves the output alone if and only if no open raw-string head in front of them gets a parenthesis |
| CommentEdits.CommentEditInvisible | doc/doxygen/dxm-strip-comments.py:37-63 | the same for one comment, with the new text written out |
| CommentEdits.CommentEditCanShow | doc/doxygen/dxm-strip-comments.py:42-49 | two sources that differ in a comment only and strip differently |
| CommentEdits.DanglingShows | doc/doxygen/dxm-strip-comments.py:42-49 | from an open raw-string head on, a new parenthesis always shows |
| CommentEdits.VerbatimExactly | doc/doxygen/dxm-strip-comments.py:26-114 | a stretch of text behind a token start is printed verbatim if and only if no comment starts in it |
| CommentEdits.PrefixedRawVerbatim | doc/doxygen/dxm-strip-comments.py:38-57 | a prefixed raw string is never recognised, and comes out verbatim if and only if no comment starts in it as ordinary tokens |
| CommentEdits.PrefixedRawIsCut | doc/doxygen/dxm-strip-comments.py:38-57 | a prefixed raw string of which half is lost |
| DenterFirst.StripLine | doc/doxygen/dxm-denter-first.py:64-91 | the scan of one line gives its noise-free text and the comment state behind it |
| DenterFirst.StripNoise | doc/doxygen/dxm-denter-first.py:54-92 | the scan of a block, with comments that span lines |
| DenterFirst.SplitStatements | doc/doxygen/dxm-denter-first.py:95-115 | the statements of a block, the last one possibly unfinished |
| DenterFirst.WalkBack | doc/doxygen/dxm-denter-first.py:158-167 | the backward walk finds the body brace of the specification |
| DenterFirst.BodyBraceIsNearest | doc/doxygen/dxm-denter-first.py:153-172 | the brace found is the nearest line that opens a brace nothing below it closes; none is found exactly if there is none in reach |
| DenterFirst.CountBranches | doc/doxygen/dxm-denter-first.py:182-188 | the balance of conditional directives in a block |
| DenterFirst.JudgeLine | doc/doxygen/dxm-denter-first.py:158-201 | the verdict on a DENTER line, with its reason |
| DenterFirst.MovableExactly | doc/doxygen/dxm-denter-first.py:158-201 | a line may move to a brace if and only if it is its body brace, lies further up, the directives between balance and every statement between is a declaration |
| DenterFirst.MoveLine | doc/doxygen/dxm-denter-first.py:203-211 | deletion of the line and a blank, insertion below the brace, insertion of a blank |
| DenterFirst.MoveKeeps | doc/doxygen/dxm-denter-first.py:203-211 | a move changes neither the other code lines nor their order, and loses no DENTER line |
| DenterFirst.MoveProgress | doc/doxygen/dxm-denter-first.py:203-213 | a move lowers the number of code lines above DENTER lines, or keeps it and lowers the number of blank lines: the loop terminates although the cursor goes back |
| DenterFirst.MoveSettles | doc/doxygen/dxm-denter-first.py:203-213 | up to the moved line nothing can be moved any more |
| DenterCalls.DenterBlocks | doc/doxygen/dxm-denter-first.py:118-137 | among DENTER lines and blanks, the first DENTER line is a blocker, since its code reads as a call |
| DenterFirst.TakeTurn | doc/doxygen/dxm-denter-first.py:146-213 | one turn keeps the loop invariant and makes progress |
| DenterFirst.Process | doc/doxygen/dxm-denter-first.py:140-214 | on every list of lines: other code unchanged, DENTER lines permuted, nothing left to move, each DENTER line that is not first in its body reported with its reason and final line number, and no move exactly if nothing could be moved |
| DenterFirst.StragglerIsReported | doc/doxygen/dxm-denter-first.py:169-201 | once nothing can be moved, the reports of a pass name every DENTER line that is not first |
| DenterVerify.CanonicalOfLines | doc/doxygen/dxm-denter-verify.py:36-39 | the canonical form depends on the code lines other than DENTER lines only |
| DenterVerify.RewriteFile | doc/doxygen/dxm-denter-first.py:140-214 | a file through the pass has the same canonical form, a second pass would change nothing, and every DENTER line left not first is reported |
| Options.TakeFirst | source/common/parse_job_cull.cc:428-431 | taking the first record of a switch: the records of the switch lose their head, no other record moves |
| Options.SurvivingConcat | source/common/parse_job_cull.cc:384-413 | of two sources the later adds its records, or replaces all if it clears |
| CommandLine.ParseArguments | source/common/parse_qsub.cc:165-2428 | the argument loop gives the groups of the vector one after the other, or the first error |
| CommandLineProperties.EachGroupDecidesItsRecords | source/common/parse_qsub.cc:165-2428 | the vector is accepted if and only if each group is, and the records are those of the groups, each decided by its own words and the settings in front of it |
| CommandLineProperties.RequestCarriesFlags | source/common/parse_qsub.cc:1303-1330 | a -l or -q record carries the strength of the last -hard or -soft and the scope of the last -scope at an option position before it |
| CommandLineProperties.ArgumentsAreInert | source/common/parse_qsub.cc:1082-1093 | any word in the place of an option's argument moves no option position and changes no setting |
| CommandLineProperties.OperandsAreVerbatim | source/common/parse_qsub.cc:2382-2389 | behind the script operand every word is a job argument, verbatim and in order |
| ScriptOptions.ReadDirective | source/common/parse_job_cull.cc:1010-1051 | the pointer walk over one line gives its directive |
| ScriptOptions.DirectiveShape | source/common/parse_job_cull.cc:1010-1051 | a line is prefix, blanks, directive, blanks and comment, and the directive holds no comment sign and no blank at its ends; only without a prefix may it be blanks |
| ScriptOptions.LinesAreLines | source/common/parse_job_cull.cc:953-1001 | no line holds a newline |
| ScriptOptions.LinesRejoin | source/common/parse_job_cull.cc:949-1000 | the lines with their newlines are the text: each is read once |
| ScriptOptions.ParseText | source/common/parse_job_cull.cc:949-1122 | the line loop, with the distance to the end as its measure, gives the records of all lines in order without -C, or the first error |
| ScriptOptions.LinesAreIndependent | source/common/parse_job_cull.cc:1081-1122 | cutting a text between two lines cuts its records in two: flags restart on each line |
| ScriptOptions.DropPrefixRecords | source/common/parse_job_cull.cc:1111-1116 | the loop removes every -C and nothing else |
| Sources.ReadDefaults | source/clients/common/ocs_client_parse.cc:212-277 | the records of the defaults files in order; absent, doubled and unopenable files are skipped, any other error ends it |
| Sources.ReadScript | source/clients/common/ocs_client_parse.cc:335-351 | the records of the script under the prefix of the first -C, with the script's length and text behind them |
| Sources.Override | source/libs/cull/cull_list.cc:1160-1212 | moving the elements over one by one replaces the -q records on the left if there is one on the right |
| Sources.Merge | source/clients/common/ocs_client_parse.cc:425-461 | defaults, script and command line merged; -ar adds -w e if there is no -w |
| Submission.MergedKeeps | source/clients/common/ocs_client_parse.cc:425-453 | for every switch but -q and -w the merge is the concatenation of the sources |
| Submission.MergedQueues | source/clients/common/ocs_client_parse.cc:437-452 | of the -q records those of the strongest source with any are left in the merged list |
| Submission.MergedQueueSurvivors | source/clients/common/ocs_client_parse.cc:437-452 | the -q records left behind -clear, source by source: the override comes first |
| Submission.WinnerIsLast | source/common/parse_job_cull.cc:384-468 | the last surviving record that sets a field is found by asking the sources from the last back until one has such a survivor or clears |
| Submission.Submit | source/clients/qsub/ocs_qsub.cc:154-230 | the whole path from files, arguments and script to a job or an error; a surviving -help, unknown options and a binary job without a command are errors |
| HandlerRuns.RecordsReachTheirHandler | source/common/parse_job_cull.cc:148-797 | for every sequence of handlers: a record that reaches the handler of its switch is used there, in order, and nowhere else; what a once-only handler leaves is left in the list |
| HandlerRuns.UnknownRecords | source/common/parse_job_cull.cc:799-810 | records without a handler are left, those that survive |
| HandlerRuns.CompleteUnlessHelp | source/common/parse_job_cull.cc:515-522 | every handler runs unless a -help survives |
| HandlerRuns.RunConserves | source/common/parse_job_cull.cc:148-810 | each input record is used, killed or left: exactly one of these, exactly once |
| JobHandlers.HandlerOf | source/common/parse_job_cull.cc:148-797 | each plain switch has one handler at one place of the sequence, and which kind it is |
| JobHandlers.HandlersClear | source/common/parse_job_cull.cc:384-413 | -clear is worked off at one place of the sequence |
| JobParameters.ClearedOnly | source/common/parse_job_cull.cc:384-413 | -clear leaves all pseudo-arguments and the surviving records of every option |
| JobBuilder.ClearedExactly | source/common/parse_job_cull.cc:384-413 | what is left is the pseudo-arguments in front of the last -clear, in order, and everything behind it |
| JobBuilder.Builder.ClearOptions | source/common/parse_job_cull.cc:384-413 | the nested loops terminate and give that list |
| JobBuilder.Builder.KillBefore | source/common/parse_job_cull.cc:389-409 | the inner cursor removes the options in front of the -clear and the -clear itself |
| JobBuilder.Builder.TakeAll | source/common/parse_job_cull.cc:428-431 | find-first-use-remove uses the records of the switch in order and removes exactly them |
| JobBuilder.Builder.TakeMatches | source/common/parse_job_cull.cc:702-724 | one pass that uses and removes every match |
| JobBuilder.Builder.TakeFirstOnly | source/common/parse_job_cull.cc:350-380 | at most one record is used |
| JobBuilder.Builder.RenameEnv | source/common/parse_job_cull.cc:695-697 | -V records become -v records where they stand |
| JobBuilder.Builder.Build | source/common/parse_job_cull.cc:148-810 | the handlers in order, with the collapse of repeated requests and variables and the move of queue requests; the rest is reported |
| Items.CompressedNamed | source/libs/sgeobj/cull_parse_util.cc:521-615 | compressing a list keeps the last item of each name |
| Items.CompressedDistinct | source/libs/sgeobj/cull_parse_util.cc:521-615 | and no other |
| Items.MergedAllNamed | source/libs/sgeobj/cull_parse_util.cc:348-489 | merging a list in gives a name the value of its last item there, or leaves it |
| JobFields.TextIsLast | source/common/parse_job_cull.cc:428-468 | a text field has the text of the last used record that sets it, whatever else is done |
| JobFields.NumberIsLast | source/common/parse_job_cull.cc:168-187 | the same for numbers and flags |
| JobFields.HoldsOf | source/common/parse_job_cull.cc:501-507 | what any number of -h records makes of the task lists |
| JobLists.ListOfPlain | source/libs/sgeobj/cull_parse_util.cc:1173-1195 | for every sequence of handlers: the list of a switch with one handler is made by its surviving records, one after the other |
| SwitchGroups.GroupReach | source/common/parse_job_cull.cc:384-413 | for every sequence of handlers: switches handled together arrive behind -clear in one order |
| RequestRuns.ResourceLists | source/libs/sgeobj/cull_parse_util.cc:1086-1142 | three passes and the collapse: each resource list is the compressed list of what survives for it |
| RequestRuns.QueueLists | source/libs/sgeobj/cull_parse_util.cc:1086-1158 | three passes and -masterq: each queue list, with the global requests moved to the slaves |
| SubmissionProperties.ClearIsTooLate | source/common/parse_job_cull.cc:148-181 | options taken before -clear have the value of the last record of all, cleared or not |
| SubmissionProperties.TextPrecedence | source/clients/common/ocs_client_parse.cc:425-453 | end to end: a text set behind -clear (-A, -N, -P, -pe, -par per scope) is that of the last surviving record, from the command line back to the cluster defaults |
| SubmissionProperties.NumberPrecedence | source/clients/common/ocs_client_parse.cc:425-453 | the same for numbers and flags, the two kinds of -c included |
| SubmissionProperties.ValidatePrecedence | source/clients/common/ocs_client_parse.cc:455-461 | the same for -w; an -ar without any -w makes it error, even behind a -clear |
| SubmissionProperties.RangePrecedence | source/common/parse_job_cull.cc:647-651 | the range of -pe is that of the last -pe that survives |
| SubmissionProperties.ListPrecedence | source/common/parse_job_cull.cc:523-555 | -hold_jid, -hold_jid_ad, -jid, -u and -jsv collect the items of all surviving records, in the order of the sources |
| SubmissionProperties.FirstSourceWins | source/common/parse_job_cull.cc:350-380 | of -t and the binding switches the first record of the first source is used, the surviving rest is unknown |
| SubmissionProperties.NothingIsLost | source/common/parse_job_cull.cc:148-810 | each merged record is used, dropped by -clear or reported |
| SubmissionProperties.ArgumentsReachTheJob | source/common/parse_job_cull.cc:771-797 | end to end: the job's arguments are the words behind the script, its script the operand, whatever the sources hold and however often -clear is given |
| SubmissionLists.RequestPrecedence | source/common/parse_job_cull.cc:557-560 | end to end: in the resource list of a scope and strength each name occurs once, with the value of its last surviving request |
| SubmissionLists.QueuePrecedence | source/common/parse_job_cull.cc:653-656 | end to end: the queue lists, without and with -masterq |
| SubmissionLists.QueuesBySource | source/clients/common/ocs_client_parse.cc:437-452 | which -q records these are, source by source |
| SubmissionLists.NamedPrecedence | source/common/parse_job_cull.cc:577-619 | -e, -o, -i, -S and -M: a host has the value of the last surviving record that names it |
| SubmissionLists.VariablePrecedence | source/common/parse_job_cull.cc:692-699 | a variable has the value of its last assignment by -v or -V in one order, or the one it was set up with, and occurs once |
| SubmissionLists.ContextPrecedence | source/common/parse_job_cull.cc:701-720 | the context holds the entries of the surviving -ac, -dc and -sc records in one order |
| SubmissionHolds.HoldPrecedence | source/common/parse_job_cull.cc:501-507 | task ids of the first -t; held with one surviving user hold, lost with two |
| SubmissionReadings.ScanAgreesWithJob | source/clients/qsub/ocs_qsub.cc:182-197 | the script is skipped exactly for binary jobs if and only if: with a -b on the command line its first and last agree; without one, a first default y is not taken back, or the last -b of defaults and script is not y |
| SubmissionReadings.BinaryNeedsCommand | source/common/parse_job_cull.cc:812-822 | a command is missing if and only if the last -b of all sources says yes and the argument vector names no script |
| SubmissionReadings.PrefixesAgree | source/clients/common/ocs_client_parse.cc:342-350 | the script is scanned under the prefix the job records if and only if the first -C of the command line and its last that survives have the same text |
| SubmissionWitnesses.TwoPrefixes | source/clients/common/ocs_client_parse.cc:342-350 | -C a -C b: scanned under a, recorded as b |
| SubmissionWitnesses.TwoBinaries | source/clients/qsub/ocs_qsub.cc:182-197 | -b y -b n: not scanned, and not binary |
| SubmissionWitnesses.ClearedSync | source/common/parse_job_cull.cc:148-151 | -sync x -clear: the job has it |
| SubmissionWitnesses.TwoHolds | source/common/parse_job_cull.cc:501-507 | -h -h: no task in either list |
| SubmissionWitnesses.DefaultTaskWins | source/common/parse_job_cull.cc:350-363 | -t in a defaults file and on the command line: the first is used, the second refused |
| ErrorLatch.LatchExactly | source/common/sge_ijs_comm.cc:118-142 | for reports at any times: the latch is up if and only if some window with gaps of at most three timeouts spans two |
| ErrorLatch.LatchOnForwardClock | source/common/sge_ijs_comm.cc:118-142 | for a clock that does not go back, in terms of the report times themselves |
| ErrorLatch.LatchInvariant | source/common/sge_ijs_comm.cc:118-142 | while the latch is down, the counter is one more than the span of the current window |
| ErrorLatch.CounterIsBounded | source/common/sge_ijs_comm.cc:124-140 | the counter never exceeds five timeouts |
| ErrorMemory.LatchesAreIndependent | source/common/sge_ijs_comm.cc:171-193 | each latch is a function of the reports of its own error, whatever else happens |
| ErrorMemory.AnswerExactly | source/common/sge_ijs_comm.cc:322-345 | what the application is told, from the report times alone; access denied comes first |
| ErrorMemory.LatchesAreSticky | source/common/sge_ijs_comm.cc:301-309 | no later event takes a latch down, the reset included |
| ErrorMemory.PassingErrorExactly | source/common/sge_ijs_comm.cc:195-206 | the passing error stands for a hard error since the last reset that was not a suppressed bind error |
| ErrorMemory.LogDoesNotRepeat | source/common/sge_ijs_comm.cc:208-220 | two messages logged in a row are never the same |
| ErrorMemory.Clock.HandleTimeout | source/common/sge_ijs_comm.cc:118-142 | the timed counter, through its pointers |
| ErrorMemory.Communication.Callback | source/common/sge_ijs_comm.cc:157-262 | the error callback as a step of the model, with what it logs and how |
| ErrorMemory.Communication.SetSuppressBindErrors | source/common/sge_ijs_comm.cc:284-290 | changes the suppression and nothing else |
| ErrorMemory.Communication.ResetApplicationError | source/common/sge_ijs_comm.cc:301-309 | clears the passing state and no latch |
| ErrorMemory.Communication.GetApplicationError | source/common/sge_ijs_comm.cc:322-345 | the answer of the model |
| ShutdownProtocol.RunKeeps | source/utilbin/tst_pthread_signals.cc:97-125 | the invariant of every reachable state, for any number of emitters |
| ShutdownProtocol.CounterExactly | source/utilbin/tst_pthread_signals.cc:153-159 | the counter is the number of counted threads less the emitters gone |
| ShutdownProtocol.SleeperWillBeWoken | source/utilbin/tst_pthread_signals.cc:383-396 | no lost wakeup: while the reaper sleeps the counter is above one and some emitter will still wake it |
| ShutdownProtocol.ReaperReturns | source/utilbin/tst_pthread_signals.cc:383-396 | at its return all created emitters are gone if and only if all created threads are counted or the counter is zero; otherwise one is left |
| ShutdownProtocol.AllAreReapedExactly | source/utilbin/tst_pthread_signals.cc:383-396 | every emitter is gone at its return if and only if all were created, and counted or gone |
| ShutdownProtocol.AllAreReaped | source/utilbin/tst_pthread_signals.cc:383-396 | once all threads are counted the reaper returns only after every emitter has quit |
| ShutdownProtocol.EarlyInterrupt | source/utilbin/tst_pthread_signals.cc:383-396 | it returns at once from a SIGINT if and only if at most one thread is counted |
| ShutdownProtocol.EarlyInterruptHappens | source/utilbin/tst_pthread_signals.cc:109-116 | a run in which it does, with no emitter created |
| ShutdownProtocol.LateEmitterHappens | source/utilbin/tst_pthread_signals.cc:228-243 | a run in which it returns behind a wakeup while a counted emitter lives |
| ShutdownProtocol.ShutdownIsBounded | source/utilbin/tst_pthread_signals.cc:183-203 | after SIGINT the steps other than spurious wakeups are bounded by the work left |
| ShutdownProtocol.NoDeadlock | source/utilbin/tst_pthread_signals.cc:118-122 | until main has joined all threads some step is enabled |
| ShutdownProtocol.FinalState | source/utilbin/tst_pthread_signals.cc:118-125 | at the end all emitters are gone and one thread is counted |
| ShutdownProtocol.ControlBlock.IncrementCount | source/utilbin/tst_pthread_signals.cc:153-159 | the critical section is the counting step |
| ShutdownProtocol.ControlBlock.ShouldQuit | source/utilbin/tst_pthread_signals.cc:228-243 | the critical section is the emitter's step, and tells it to leave exactly when it is gone |
| ShutdownProtocol.ControlBlock.BeginReap | source/utilbin/tst_pthread_signals.cc:383-391 | the head of the reaper is the interrupt step |
| ShutdownProtocol.ControlBlock.ReapAgain | source/utilbin/tst_pthread_signals.cc:389-391 | the loop test behind a wakeup |
| WordWrap.NextWord | source/utilbin/infotext.cc:198-254 | the next word of a text, with its rules for blanks and newlines |
| WordWrap.WordIsFound | source/utilbin/infotext.cc:322-325 | searching for the word finds it where it was taken from |
| WordWrap.WordsKeepInk | source/utilbin/infotext.cc:198-254 | the words hold every character that is no blank, once and in order |
| WordWrap.FormatOutput | source/utilbin/infotext.cc:256-398 | the formatter terminates and prints the lines of the specification |
| WordWrapProperties.FormatKeepsText | source/utilbin/infotext.cc:298-387 | the lines hold every character that is no blank, once and in order, behind the indent; a text without words prints nothing |
| WordWrapProperties.FormatKeepsWords | source/utilbin/infotext.cc:298-387 | every word is on one line, in order |
| WordWrapProperties.LongLinesHaveOneWord | source/utilbin/infotext.cc:328-387 | a line longer than the width is an indent and one word |
| WordWrapProperties.BreaksAreGreedy | source/utilbin/infotext.cc:371-387 | between two lines: the first is full, or the next word does not fit on it |
| WordWrapProperties.BreakIsMissingExactly | source/utilbin/infotext.cc:353-369 | the output has a break between two lines if and only if the first is not too long or ends with a newline of its own |
| WordWrapProperties.WordsAreGlued | source/utilbin/infotext.cc:353-369 | two words that come out as one |
| Escapes.Parse | source/utilbin/infotext.cc:466-523 | the loop over two characters at once reads what the specification reads |
| Escapes.Write | source/utilbin/infotext.cc:525-557 | the writer escapes newlines and quotes and nothing else |
| Escapes.RoundTrip | source/utilbin/infotext.cc:466-557 | reading undoes writing if and only if no backslash stands in front of n, r or t and not exactly one plain character follows a final newline or quote |
| Escapes.OnlyTheLastIsLost | source/utilbin/infotext.cc:466-557 | without backslashes exactly that one character is lost, or nothing |
| Escapes.RoundTripFails | source/utilbin/infotext.cc:466-557 | a lost character, and a backslash that comes back as a newline |
| Placeholders.Replace | source/utilbin/infotext.cc:561-596 | the first placeholder is replaced |
| Placeholders.Fill | source/utilbin/infotext.cc:1065-1069 | one replacement per argument |
| Placeholders.FilledExactly | source/utilbin/infotext.cc:1065-1069 | this is substituting all placeholders at once, whatever the last argument is, if and only if no placeholder has formed in front of the one that the last argument is for |
| Placeholders.FilledIsSubstituted | source/utilbin/infotext.cc:561-596 | so for formats without %%s and arguments without % (the last may have one) |

## Left out

- Argument parsers (dates, ranges, resource lists, paths): a parameter; every statement holds for whatever they accept.
- Files named by -@: a parameter that gives their records; the recursion of files that name files is not modelled.
- The tokenizer and quote removal for script lines: a parameter.
- Warnings: only errors are modelled, a repeated option gives no message.
- The bits of -m, and what the operators of the context switches do to the stored context: their items are collected in order.
- SubmissionProperties.TextPrecedence: -cwd is a record without a text, so it gives the working directory none; the current directory, which the job gets for it, is outside the model.
- JobBuilder.Builder.Build: early returns other than -help (path aliases, environment set-up, a binding that cannot be created) are input and output failures and not modelled.
- Defaults that the job gets after the option loops (script name, job name, working directory, the mail address of the submitter when no -M is given).
- Jobs that are not fresh, as qalter fills them; the environment that a new job is set up with is a parameter, not empty and without repeated names, as source/libs/sgeobj/sge_job.cc:1326-1379 leaves it.
- Options handled by clients themselves (-verbose, -inherit, -pty and the like): recorded, not interpreted.
- Scripts and files with NUL characters: texts are C strings.
- File, terminal, environment and passwd access, path aliasing, TLS and commlib connections: input and output.
- The text of log messages and the message tables.
- The signals that the emitters send, their sleeps, and fairness of the scheduler: steps may happen in any order.
- Underlining, SGE_NOMSG and the choice of the output stream in infotext; a negative column count.
- The other uses of the replacement function of infotext: only %s, first occurrence.
- Character classes beyond ASCII are a parameter in the two source tools; the regular expressions are written out as predicates.
- File collection, command lines and exit codes of the source tools.
