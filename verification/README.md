# A verified model of the shell

A small job-control shell (`jobs.c`, `shell.c`, `lexer.c`) and four pieces of the
library it links: the red-black and splay trees of `include/tree.h`, the Jenkins
hash of `libcsapp/jenkins_hash.c` and the robust I/O of `libcsapp/rio.c`. Each is
modelled in Dafny in the form the C has: node objects, tables, arrays and buffers
that are updated in place by loops, each method proved against a function of the
old state, and lemmas that say what those functions mean.

`dafny verify dfyconfig.toml` checks everything.

## How it is organised

**Search trees.** `Elements` has the nodes and key-ordered sequences. For the
red-black tree, `RbShape` has trees and paths to a place in a tree, `RbColour` the
colour and black-height laws along a path, `RbLinks` the pointer fields that spell
a tree, and `RbTree` the tree itself: a class that rewires `left`, `right`,
`parent` and `red` of its nodes. Ghost fields say which tree the pointers spell.
`SplayShape`, `SplayLinks` and `SplayTree` do the same for the top-down splay tree;
in its loop there are three pieces, the two spines and the rest. `SplayCost` has the
loop as a function of the tree, with a potential that pays for its turns,
`SplayBalance` the Balance Theorem for runs of calls, and `SplayScan` what becomes of
it with the walks of SPLAY_NEXT. `Logarithms` writes bounds of the form x <= c lg m as
2^x <= m^c.

**Job table.** `JobTable` has the table as a value and what each operation does to
it. `JobNotices` shows that the order of notices for different processes and their
division into handler runs do not matter. `JobLedger` compares the table with a
ledger of every job ever launched. `JobRuns` is a step system: the steps of the main
program, with SIGCHLD handler runs between any two wherever the signal is not blocked,
which includes every step of `monitorjob` up to jobs.c:297 and of `watchjobs` at the
prompt. `JobSafety` proves an invariant of every run and what follows from it.
`JobFindings` and `JobRaces` have runs in which job control does less than one would
expect, with the exact conditions. `JobSignals` is about the signals the shell sends,
in every run, and about quitting. `JobCourse` is the course the main program takes
through its loops for given arrivals: handler runs, and the points where the main
program gets on first. `JobControl` is `jobs.c` itself, with its loops, proved to take
exactly that course, whatever the arrivals; a call that is still suspended when they
are used up says so.

**Front end.** `Tokens`, `Lexer` and `RoundTrip` have the tokens, the in-place
tokenizer, and what it makes of the text that `Command` builds (`strapp` and
`mkcommand`); `Grammar` says of every text which token each of its characters gives.
`Redirection` is `do_redir`; `Descriptors` the pipe descriptors of the
shell; `Pipelines` is `do_stage`, `do_pipeline` and `do_job`, on the class of
`JobControl`, with the process group of each process started; `FrontEnd` is `eval`,
from the characters of a line to its job.

**Hash.** `JenkinsMix` has `mix` and `final` with their inverses, `JenkinsWords`
the words that bytes form in memory, `Jenkins` the hash and its code paths.
`JenkinsSpread` shows how far a change of one bit has got at points in `mix`, whatever
the words, and `JenkinsValues` what all of them come to on given words and keys.
Arithmetic is on 32-bit vectors, so it wraps as `uint32_t` does. `Add`, `Sub` and
`Xor` are the operators by name.

**I/O.** `Rio` has descriptors whose calls are interrupted, cut short or broken as a
schedule says, and the functions of `rio.c` on top of them.

## What turned out false of the code

- `resumejob` waits for a stopped job in a loop that signals its process group. If
  the job dies meanwhile, the handler clears its slot, and the loop goes on for ever,
  signalling group 0, which is the shell's own. `ResumeSignalsShell` gives the exact
  condition, that all processes of the job have ended, `ResumeOfKilledJob` a run, and
  `WaitEnds` shows that some continuation ends the wait if and only if they have not.
- `monitorjob` tests the state of the job and suspends itself with SIGCHLD open, so
  that a handler run in between is lost on it. `LostWakeUp`: it waits for a job that
  has ended exactly if the handler run that ended the job came after the last test of
  the loop and no other has come since. `OnlyASignalWakes` and `SeesTheEnd`: it then
  waits until a child of the shell happens to change. `WaitForNothing` is such a run.
- `monitorjob` reads the state a second time at jobs.c:296, again with SIGCHLD open.
  `LeftRunning`: it returns -1 and leaves a running job in the foreground slot, which
  `addjob` would overwrite, exactly if the job was stopped when the loop was left and is
  continued before that read. `JobLeftInFront` is such a run.
- `watchjobs` is called at the prompt, and by `jobs`, with SIGCHLD open. `CrashesWhen`:
  it reads or writes before the start of an empty array exactly if all processes of
  the job it has found in a slot have ended since. `NothingToClear`: the call that is
  to clear finished jobs after each line (shell.c:363) never clears one. `CrashInJobs`
  is a run.
- `monitorjob` returns the status of the last process of a job, unless that process
  had already ended when `fg` brought the job to the foreground: the report that
  `resumejob` itself makes (jobs.c:205) forgets it. `StatusReturned` and
  `StatusLostByFg` have the exact condition, `StatusForgotten` a run.
- `do_redir` has a case for appending, but the tokenizer makes two output
  redirections of `>>`, and the second is no file name: `AppendStopsShell`.
- `SPLAY_NEXT` does not keep to the Balance Theorem that its header cites for all
  operations: the walk after its splay moves nothing, so the same call can walk along
  half the elements again and again. `NoBalanceOfNext`: no constant number of logarithms
  for each call is enough, whichever constant. `BalanceOfNext`: where each element
  it returns is what the next call is for, the next splay pays for the walk, and the
  theorem holds with three times the constant, the very last walk aside; so it does
  for SPLAY_FOREACH (`ScanPays`).

## Model

| member | source | states |
|---|---|---|
| RbTree.RedBlackTree.Insert | include/tree.h:586-612 | keeps the search order, the links both ways, the black root, no red node under a red one and equal black counts; a new key is added at its place and nothing else changes; a key that is there already, be it that of the same node, returns the node that has it and changes nothing; the loops take at most 4 lg (n + 1) turns |
| RbTree.RedBlackTree.InsertColor | include/tree.h:403-443 | from a tree whose only fault is a red node under a red one, or a red root, to a valid tree with the same contents |
| RbTree.RedBlackTree.Remove | include/tree.h:520-583 | keeps all of the above; the contents lose exactly the node given and keep their order; the loops take at most 4 lg (n + 1) turns |
| RbTree.RedBlackTree.RemoveColor | include/tree.h:445-518 | from a tree that lacks one black node above a given place to a valid tree with the same contents; it ends, and the sibling it reads always exists |
| RbTree.RedBlackTree.RemoveDeep | include/tree.h:527-566 | a node with two children is replaced by its successor, spliced out of the right subtree, and only that node leaves the contents |
| RbTree.RedBlackTree.Promote | include/tree.h:529-558 | the splicing alone, with the colour that RB_REMOVE_COLOR is told about |
| RbTree.RedBlackTree.RotateLeft | include/tree.h:336-355 | the fields written are exactly those of the rotated tree, at the root and below any parent |
| RbTree.RedBlackTree.RotateRight | include/tree.h:357-376 | the mirror image |
| RbTree.RedBlackTree.Find | include/tree.h:615-628 | the node with the key, or none if no node has it, in at most 2 lg (n + 1) turns |
| RbTree.RedBlackTree.NFind | include/tree.h:631-646 | the first node at or above the key, or none if all are below, in at most 2 lg (n + 1) turns |
| RbTree.RedBlackTree.Next | include/tree.h:649-666 | the next node in key order from any node, or none after the last, in at most 2 lg (n + 1) turns |
| RbTree.RedBlackTree.Prev | include/tree.h:669-686 | the node before in key order, or none before the first, in at most 2 lg (n + 1) turns |
| RbTree.RedBlackTree.MinMax | include/tree.h:688-699 | the first or the last node, or none of an empty tree, in at most 2 lg (n + 1) turns |
| RbTree.RedBlackTree.HeightIsLogarithmic | include/tree.h:47-55 | every tree the operations can build has height at most 2 lg (n + 1) |
| RbColour.HeightBound | include/tree.h:47-55 | the colour laws alone bound the height by 2 lg (n + 1) |
| RbColour.Logarithmic | include/tree.h:54-55 | a loop that turns once, or twice, for each level of a lawful tree takes at most 2, or 4, lg (n + 1) turns |
| RbColour.PlugRedBlack | include/tree.h:47-52 | the colour laws of a whole tree follow from those of a subtree and of the path to it |
| RbColour.UnplugRedBlack | include/tree.h:47-52 | and give them back |
| RbColour.SiblingExists | include/tree.h:450-452 | where a black node is missing the sibling is there |
| RbColour.PushUp | include/tree.h:457-463 | with two black nephews, reddening the sibling moves the missing black one step up |
| RbColour.FarRedLeft | include/tree.h:474-478 | with a red far nephew one rotation and three colours settle it |
| RbColour.NearRedLeft | include/tree.h:465-472 | with only the near nephew red a first rotation leads to that case |
| RbColour.SiblingRedLeft | include/tree.h:452-455 | a red sibling is rotated above, which leaves a black one |
| RbColour.UncleRed | include/tree.h:410-413 | a red uncle moves the red fault two levels up and keeps black counts |
| RbColour.OuterLeft | include/tree.h:422-423 | the outer case ends the fault with one rotation and keeps black counts |
| RbLinks.RotateLeftLinks | include/tree.h:336-355 | pointers that spell a tree spell the rotated tree after the rotation, parents included |
| RbLinks.SubstituteLinks | include/tree.h:545-558 | giving a node another's place redirects parent and children, and nothing else |
| RbShape.SuccessorContents | include/tree.h:527-558 | taking out the first node of the right subtree and putting it in the place of a node drops that node from the order |
| SplayTree.TopDownTree.Splay | include/tree.h:202-233 | the contents and their order stay; all on the left of the new root are below the key and all on the right above, so the root has the key if any node does, and else is next to it; the tree left and the turns taken are those of `SplayCost.Partition`, which the cost bounds are about |
| SplayTree.TopDownTree.TurnLeft | include/tree.h:210-219 | one turn of the loop to the left keeps the contents split around the key, makes the rest smaller, and keeps the tree the loop is about to assemble |
| SplayTree.TopDownTree.TurnRight | include/tree.h:220-229 | one turn to the right |
| SplayTree.TopDownTree.Assemble | include/tree.h:111-117 | the two spines and the rest become one tree with the whole order |
| SplayTree.TopDownTree.MinMax | include/tree.h:238-268 | the first or the last node comes to the root; contents stay |
| SplayTree.TopDownTree.Find | include/tree.h:128-136 | finds the node with the key exactly if there is one; contents stay; the tree and the turns are those of an access in the Balance Theorem |
| SplayTree.TopDownTree.Next | include/tree.h:138-149 | the next node in key order, or none after the last; contents stay; the tree, the turns and the walk are those of a call of SPLAY_NEXT in `SplayScan` |
| SplayTree.TopDownTree.Insert | include/tree.h:161-181 | adds exactly the new node at its place and makes it the root, or returns the node that has the key, be it the same one, and adds nothing; the tree and the turns are those the Balance Theorem is about |
| SplayTree.TopDownTree.Remove | include/tree.h:183-200 | drops exactly the node with the key, or nothing if there is none; returns its argument, which need not be that node; the tree and the turns of both splays are those the Balance Theorem is about |
| SplayTree.TopDownTree.JoinSubtrees | include/tree.h:192-195 | the left subtree, splayed again, takes the right one on, with all nodes of both |
| SplayLinks.OnlySmaller | include/tree.h:193-195 | after the second splay the root has no right child, so hanging the saved subtree there loses nothing |
| SplayLinks.AssembleLinks | include/tree.h:111-117 | the four assignments spell the assembled tree |
| SplayShape.AssembledSeq | include/tree.h:111-117 | left spine, rest and right spine, in this order, are the contents of the assembled tree |
| SplayShape.StopSplits | include/tree.h:209-232 | wherever the loop stops, the root of the assembled tree separates the keys below from those above |
| SplayBalance.BalanceTheorem | include/tree.h:46-47 | any run of calls from an empty tree, n of them insertions, takes at most 6 lg (n + 1) turns for each call, all together |
| SplayBalance.AccessTheorem | include/tree.h:47-48 | m accesses to any tree of n elements take at most (3 m + n) lg (n + 1) turns |
| SplayBalance.SplayPays | include/tree.h:46-48 | the turns of one splay and the rise of the potential come to at most 3 lg (n + 1) |
| SplayBalance.InsertPays | include/tree.h:161-181 | those of an insertion to at most 4 lg (n + 2) |
| SplayBalance.RemovePays | include/tree.h:183-200 | those of both splays of a removal to at most 6 lg (n + 1) |
| SplayScan.FollowedPays | include/tree.h:138-149 | where each element SPLAY_NEXT returns is what the next call is for, turns and walks come to at most three times the turns, the last walk aside |
| SplayScan.BalanceOfNext | include/tree.h:46-47 | the Balance Theorem for such runs, walks included |
| SplayScan.ScanPays | include/tree.h:282-284 | a traversal of any tree of n elements takes at most (12 n + 9) lg (n + 1) turns and steps |
| SplayScan.NextWalks | include/tree.h:138-149 | after n insertions in key order and one access SPLAY_NEXT walks along n / 2 nodes, however often it is called |
| SplayScan.NoBalanceOfNext | include/tree.h:46-47 | for every constant there are runs with SPLAY_NEXT that go beyond it |
| SplayScan.PartitionSplits | include/tree.h:209-232 | the loop as a function of the tree keeps the key between the parts |
| SplayTree.TopDownTree.ForEach | include/tree.h:282-284 | visits all elements in key order, with the turns and steps the bound is about |
| SplayCost.SplitPays | include/tree.h:209-232 | the turns of the loop are paid for by the potential it takes apart and 2 lg (n + 1) |
| SplayCost.LeftLeftPays | include/tree.h:214-218 | a turn with a rotation pays for itself |
| SplayCost.BeforeLeft | include/tree.h:210-229 | a turn without one is paid for together with the turn after it |
| SplayCost.PartsWeigh | include/tree.h:209-232 | what the loop takes apart it keeps, but for the root |
| Elements.WithBetween | include/tree.h:586-612 | adding a node to a sorted sequence puts it between those below and those above |
| Elements.WithoutBetween | include/tree.h:520-583 | dropping a node leaves those below and those above |
| Elements.WithMembers | include/tree.h:586-612 | an insertion adds one element and loses none |
| Elements.WithoutMembers | include/tree.h:520-583 | a removal takes out one element |
| JobTable.IndexOf | jobs.c:23-31 | the first process with the pid |
| JobTable.SlotOf | jobs.c:53-70 | the first live slot with the pid |
| JobTable.FreeSlot | jobs.c:83-95 | the lowest free background slot, all before it being taken |
| JobTable.LastUnfinished | jobs.c:186-190 | the last slot whose job has not finished |
| JobTable.StatusTells | jobs.c:57-65 | a process has finished exactly if it exited or was killed by a signal, and is stopped or runs exactly if the status says so |
| JobTable.ReportTells | jobs.c:236-264 | a report clears a slot exactly if it asks for the job there and the job has finished, and else touches nothing but the exit code of the last process, which it forgets exactly if it asks for the job, unless the job runs and the code says that it has been continued |
| JobNotices.NotesCommute | jobs.c:52-72 | notices for different processes can be handled in either order |
| JobNotices.InterleavingIrrelevant | jobs.c:52-72 | two streams with the same notices for each process leave the same table, and one is legal if the other is |
| JobNotices.BatchingIrrelevant | jobs.c:46-76 | however a legal stream is divided into handler runs, clean-ups in between included, the table at the end is that of one run |
| JobNotices.ScheduleIrrelevant | jobs.c:46-76 | both together: only the notices of each process, in their order, count |
| JobNotices.CleanedEarly | jobs.c:46-76 | clearing away finished background jobs before more notices makes no difference in the end |
| JobLedger.NoteAgrees | jobs.c:52-72 | a notice keeps the table in agreement with the ledger: slots, pids, states, exit codes and command texts |
| JobLedger.WatchAgrees | jobs.c:234-267 | so does a clean-up, which removes only jobs all of whose processes have ended |
| JobLedger.MovedAgrees | jobs.c:132-136 | so does a move to a free slot |
| JobLedger.AddedProcAgrees | jobs.c:148-159 | so does a new process, last in its job, with its words added to the command; the first one leads the group of the job |
| JobLedger.NewJobAgrees | jobs.c:103-120 | so does a new job in a free slot |
| JobLedger.GrownAgrees | jobs.c:91-94 | so does a new slot at the end |
| JobLedger.DeletedAgrees | jobs.c:122-130 | so does deleting a finished job |
| JobSafety.StepKeeps | jobs.c:103-316 | every step of the main program and every handler run keeps the invariant |
| JobSafety.NothingLost | jobs.c:83-159 | in every run each job launched is in exactly one live slot, with its processes in order, its command and the pid of its first process for its group, or all its processes have ended |
| JobSafety.SlotsConsistent | jobs.c:33-95 | in every run a free slot is clear, a live job is running exactly if some process of it runs, stopped exactly if none runs and some is stopped, else finished, and a background slot is live exactly if its job is not finished |
| JobSafety.SlotsEconomical | jobs.c:83-95 | at every point of every run there is one slot more than background jobs were ever live at once, and a new job gets the lowest free number |
| JobSafety.AssertionsNeverFail | jobs.c:122-136 | at every step of every run `deljob`, from `monitorjob` or a clean-up, and `movejob` are called as their assertions demand, and a new foreground job overwrites nothing |
| JobSafety.WaitsFor | jobs.c:287-294 | in every run `monitorjob` stays in its first loop exactly while no process of the job runs and some is stopped, and in the second exactly while one runs |
| JobSafety.LeavesAs | jobs.c:296-315 | then a job none of whose processes runs, but some is stopped, is put aside in a background slot, one that has ended is done with and gives a result, and one that runs is left where it is |
| JobSafety.SameJobResumed | jobs.c:196-211 | in every run the job that `resumejob` moves is the one that was in the slot when it was called, and the foreground slot is free |
| JobSafety.StatusReturned | jobs.c:271-316 | in every run `monitorjob` returns the terminal status of the last process of a job that ended exactly if that process had not already ended when `fg` brought the job to the foreground; a job launched in the foreground or of one process never loses it |
| JobSafety.StatusLostByFg | jobs.c:196-211 | the step that brings a job to the foreground loses the status exactly if its last process is finished in the table before |
| JobSafety.FgForgets | jobs.c:205 | because the report made there leaves the last process of the job without an exit code exactly if it has ended, which takes a second process that has not |
| JobFindings.ResumeSignalsShell | jobs.c:199-202 | in every run the loop in `resumejob` signals group 0 exactly if all processes of the job have ended |
| JobFindings.ResumeOfKilledJob | jobs.c:199-202 | a run that gets there |
| JobFindings.WaitsForever | jobs.c:199-202 | from there no continuation of the run ends the wait or signals another group |
| JobFindings.WaitEnds | jobs.c:199-202 | some continuation of the run ends the wait if and only if not all processes of the job have ended |
| JobFindings.StatusForgotten | jobs.c:247-258 | a run in which `monitorjob` returns -1 although the last process exited |
| JobSignals.SignalsSent | jobs.c:185-354 | in every run each signal the shell has sent is SIGCONT or SIGTERM to the group led by the first process of a job, or SIGCONT to group 0 |
| JobSignals.WaitSends | jobs.c:199-202 | a turn of the loop in `resumejob` sends SIGCONT to the group of the job it was called for, and to group 0 exactly if all its processes have ended |
| JobSignals.MonitorSends | jobs.c:287-290 | a test of the first loop in `monitorjob` sends SIGCONT to the group of the job exactly if no process of it runs and some is stopped |
| JobSignals.TerminateSends | jobs.c:217-231 | killing a slot sends SIGTERM to the group of the job there, after SIGCONT exactly if no process of it runs, and nothing if there is no job |
| JobSignals.LeavingStep | jobs.c:342-347 | `shutdownjobs` gets past a slot only if no job is there, or by a handler run after it has sent that job its signals; a handler run takes it to the next slot |
| JobSignals.WaitsForSignal | jobs.c:342-347 | from a slot with a job in it every continuation to a later slot or to the end has a handler run in between |
| JobSignals.EveryJobTerminated | jobs.c:337-354 | once `shutdownjobs` has run to its end, each job whose turn was still to come has been sent SIGTERM through its group or has ended |
| JobSignals.QuitTerminates | jobs.c:337-354 | so has every job there was at the prompt, its group being the pid of its first process |
| JobRaces.LostWakeUp | jobs.c:280-294 | in every run `monitorjob` is suspended for an ended job exactly if the job had not ended when its loop was last tested and had when it was suspended, with handler runs alone in between |
| JobRaces.OnlyASignalWakes | jobs.c:287-294 | then no step but a handler run is possible, and that one wakes it |
| JobRaces.SeesTheEnd | jobs.c:287-315 | whereupon it returns |
| JobRaces.WaitForNothing | jobs.c:292-294 | a run into that wait |
| JobRaces.LeftRunning | jobs.c:292-316 | in every run `monitorjob` leaves a running job in the foreground exactly if the job was stopped when the second loop was left and the handler runs before jobs.c:296 have it run again |
| JobRaces.JobLeftInFront | jobs.c:292-316 | a run that gets there |
| JobRaces.CrashesWhen | jobs.c:234-267 | in every run the next step is an access before the start of an array exactly if it is the use of an exit code in `watchjobs` at the prompt and all processes of the job found in the slot have ended since |
| JobRaces.NothingToClear | shell.c:363 | however the handler comes in, `watchjobs(FINISHED)` at the prompt leaves the table to the handler |
| JobRaces.CrashInJobs | jobs.c:234-267 | a run into that access |
| JobRaces.Undisturbed | jobs.c:234-267 | the steps of `watchjobs` at the prompt, with no handler run in between, come to the same as the report in one go |
| JobCourse.PlayRuns | jobs.c:183-354 | for any arrivals the course through the loops is a run, to the end of the loops or to a suspension with nothing to come |
| JobCourse.EveryCourse | jobs.c:183-354 | every run through the loops is the course for some arrivals |
| JobControl.StateOf | jobs.c:33-44 | running exactly if some process runs, stopped exactly if none runs and some is stopped, finished exactly if all are |
| JobControl.FindPid | jobs.c:23-31 | the first process with the pid, or none if no process has it |
| JobCourse.ReportedLegal | jobs.c:52 | the kernel's reports are exactly the sequences in which nothing follows the terminal notice of a process in the table |
| JobControl.Shell.constructor | jobs.c:319-334 | one free slot, the start of every run |
| JobControl.Shell.Take | jobs.c:53-71 | one notice changes the first live slot that has the pid, and nothing if none has |
| JobControl.Shell.SigchldHandler | jobs.c:46-76 | all notices in order, then finished background jobs are cleared away |
| JobControl.Shell.WatchJobs | jobs.c:234-267 | what is left of each background slot, and nothing else changes |
| JobControl.Shell.AllocJob | jobs.c:83-95 | the lowest free slot, or a new one at the end |
| JobControl.Shell.DelJob | jobs.c:122-130 | leaves a clear slot, of a finished job |
| JobControl.Shell.MoveJob | jobs.c:132-136 | moves a job to a free slot and clears the old one |
| JobControl.Shell.AddJob | jobs.c:103-120 | a step of the run; the slot was free |
| JobControl.Shell.AddProc | jobs.c:148-159 | a step of the run |
| JobControl.Shell.Interrupts | jobs.c:280-297 | while SIGCHLD is open, all handler runs that arrive before the main program gets on |
| JobControl.Shell.Sigsuspend | jobs.c:201 | one handler run with whatever the kernel reports, or none any more |
| JobControl.Shell.Doze | jobs.c:287-294 | a turn of either loop of `monitorjob`: a handler run before the suspension does not end it |
| JobControl.Shell.MonitorJob | jobs.c:271-316 | takes exactly the course of the arrivals; the job monitored ends up stopped in the background, or ended with its status returned, or left running in the foreground slot with -1, or the call is still suspended |
| JobControl.Shell.Settle | jobs.c:296-315 | what is done once the loops are left, by the state read then |
| JobControl.Shell.Suspend | jobs.c:299-305 | the step that puts a stopped foreground job in the background |
| JobControl.Shell.Complete | jobs.c:306-312 | the step that takes the status of a finished foreground job and deletes it |
| JobControl.Shell.ResumeJob | jobs.c:185-214 | takes exactly the course of the arrivals; false exactly if there is no such job; else the job that was in the slot runs there, or was monitored in the foreground, or is still waited for |
| JobControl.Shell.Report | jobs.c:234-267 | `watchjobs` with SIGCHLD open takes exactly the course of the arrivals, to the end or to the access before an array |
| JobControl.Shell.KillSlot | jobs.c:217-231 | succeeds exactly on a live job; sends SIGTERM to the pid of its first process as a group, with SIGCONT before it exactly if no process of the job runs |
| JobControl.Shell.KillJob | jobs.c:217-231 | the same as a step of a run from the prompt; changes nothing else |
| JobControl.Shell.ShutdownSlot | jobs.c:343-346 | a live job is sent its signals and a handler run is awaited for it; with none to come the call is still suspended exactly if there is a job |
| JobControl.Shell.ShutdownJobs | jobs.c:337-354 | sends exactly the signals for the jobs found live, one after the other; with no handler run to come it is still suspended exactly if a background job is live; takes exactly the course of the arrivals, to the end of the shell unless still suspended |
| Command.MkCommand | jobs.c:138-146 | the text so far, a bar, and the words separated by single blanks |
| Command.Append | lexer.c:3-13 | appends, or copies where there is no string yet |
| Lexer.Span | lexer.c:34 | the length of the prefix without word delimiters |
| Lexer.Tokenize | lexer.c:15-76 | the tokens, each word read as a C string after all NULs are written, are those of the recursive grammar, which `Grammar` spells out; only NULs are written, and only within the line; the vector ends with NULL and has room |
| Lexer.TakeToken | lexer.c:34-70 | a word or an operator is taken, so every iteration gets on and the last `continue` is never reached |
| Lexer.Reserve | lexer.c:28-32 | keeps the tokens and makes room for one more and the NULL |
| Lexer.CutOperator | lexer.c:43-69 | the operator at the head as the grammar has it, overwritten by NULs |
| Lexer.AllRead | lexer.c:15-76 | once the whole line is cut up, reading each word token gives exactly its word |
| RoundTrip.CommandReadsBack | jobs.c:138-159 | tokenizing the text built for any stages of tokenizer words gives the words with T_PIPE between the stages |
| RoundTrip.StoredCommand | jobs.c:138-159 | the command stored for a redirection-free pipeline has the tokens of the line it was entered as |
| RoundTrip.LexSound | lexer.c:15-76 | every word produced is a tokenizer word, and T_APPEND and T_NULL are never produced |
| RoundTrip.LexConcat | lexer.c:34-70 | a text cut before a blank, an operator of one character, or a bar or ampersand that does not follow its like, is tokenized piece by piece |
| RoundTrip.AppendIsTwoOutputs | lexer.c:59-60 | `>>` is two output redirections |
| Grammar.LexWord | lexer.c:34-39 | a word goes on up to a blank or an operator, and no other white space ends it |
| Grammar.LexSkips | lexer.c:22-26 | white space before a token gives nothing |
| Grammar.LexInput | lexer.c:57-58 | wherever `<` stands it is an input redirection between the tokens of what is before and after it |
| Grammar.LexOutputs | lexer.c:59-60 | `>` an output redirection |
| Grammar.LexColon | lexer.c:61-62 | `;` a separator |
| Grammar.LexBang | lexer.c:63-64 | and `!` the bang |
| Grammar.LexPipe | lexer.c:43-49 | so is a bar a pipe, unless next to another one |
| Grammar.LexOr | lexer.c:43-49 | two bars are one token unless a bar is before them |
| Grammar.LexAmpersand | lexer.c:50-56 | `&` puts a job in the background unless next to another one |
| Grammar.LexAnd | lexer.c:50-56 | `&&` is one token unless an ampersand is before it |
| Grammar.NoAmpersand | lexer.c:50-56 | without an ampersand no token is one |
| Tokens.Kinds | shell.h:16-27 | the three kinds the numbers of the tokens are compared for: words, separators, and the four operators `do_redir` takes out |
| Tokens.JoinDivide | shell.c:193-239 | the stages joined by T_PIPE are the tokens |
| Tokens.DivideJoin | shell.c:193-239 | no other pipe-free stages are |
| Redirection.DoRedir | shell.c:28-77 | fails exactly as the first problem demands; else what is kept comes first, NULLs fill the rest of the stage, nothing outside changes, and input and output are those the redirections say |
| Redirection.ProblemWhen | shell.c:32-69 | it succeeds exactly if every operator is followed by a string, one that can be opened where it is to be |
| Redirection.Redirected | shell.c:41-68 | an operator and its operand can stand anywhere; the other tokens kept stay in order |
| Redirection.LastRedirection | shell.c:52-63 | of several redirections the last one counts, for input and output each |
| Redirection.Unredirected | shell.c:34-40 | without operators all tokens are kept |
| Descriptors.PipeTable.MkPipe | shell.c:170-177 | two new descriptors above 0, the ends of one new pipe |
| Descriptors.PipeTable.MaybeClose | shell.c:17-24 | closes an open pipe descriptor, once, and leaves all others as they are |
| Pipelines.ReadArgv | jobs.c:138-146 | reading an argument vector works exactly for words |
| Pipelines.Front.Fork | shell.c:94-102 | the next process, in the group it is told or else in its own, with these ends |
| Pipelines.Front.DoStage | shell.c:136-168 | a process is started, in the group given or else its own, with the kept tokens, its ends and the pipe ends its descriptors lead to, exactly if the redirections are well formed and something is kept |
| Pipelines.Front.MiddleStage | shell.c:214-224 | the stage reads the last pipe made and writes a new one, whichever pair of variables holds them, and only the new read end stays open |
| Pipelines.Front.LastStage | shell.c:230-237 | the last stage reads the last pipe, and no pipe descriptor stays open |
| Pipelines.Front.StartPipeline | shell.c:181-239 | succeeds exactly if every stage of the original line can be started; then one pipe is made between each two stages, stage m has its own words, reads the read end of pipe m - 1 and writes the write end of pipe m unless redirected, all of them are in the group of the first process, through which the job is signalled, the shell is left with no pipe descriptor and held at most three, and the job has the processes of all stages in order |
| Pipelines.Front.DoPipeline | shell.c:181-247 | the same, and the job, with the pids, words and group of the stages started, is in the background, or waited for, or where `monitorjob` has left it |
| Pipelines.Front.DoJob | shell.c:81-132 | a single command, likewise, in a group of its own, unless it is a builtin in the foreground, which starts nothing |
| Pipelines.EnteredJob | jobs.c:148-159 | the job in the table has the pids of the stages and the text of their words |
| Pipelines.GroupedWhen | shell.c:204-206 | the slot of a job with the processes started is signalled through the group they are all in |
| FrontEnd.IsPipeline | shell.c:249-254 | whether there is a T_PIPE |
| FrontEnd.EvalTokens | shell.c:261-272 | the ampersand is taken off, and the line is run as a pipeline or as one command, or within the shell if it is a builtin in the foreground, or not at all if empty |
| FrontEnd.Eval | shell.c:256-275 | from the characters of a line to the processes of its stages, the pipes between them, their group, and the job with their pids and words; exactly which lines stop the shell, start nothing or are builtins |
| FrontEnd.CommandOfLine | jobs.c:138-159 | for as long as the job of a line of words and pipes is in the table, its command is tokenized to that line again, its processes are those started, and its group is that of the first |
| FrontEnd.JobStays | jobs.c:148-159 | no continuation of a run changes the processes or words of a job |
| FrontEnd.AppendStopsShell | shell.c:60-63 | no line with `>>` can be run |
| FrontEnd.InputLine | shell.c:52-54 | the one process of a line `words <file` has the words for arguments and the file for standard input |
| FrontEnd.OutputLine | shell.c:56-58 | that of `words >file` has the file for standard output |
| FrontEnd.AmpersandLine | shell.c:261-265 | an ampersand at the end of a line puts the rest of it in the background, and a line without one is run in the foreground |
| JenkinsMix.MixReversible | libcsapp/jenkins_hash.c:41-105 | `mix` is a bijection, with its inverse |
| JenkinsMix.FinalReversible | libcsapp/jenkins_hash.c:132-148 | so is `final` |
| JenkinsMix.Mix | libcsapp/jenkins_hash.c:85-105 | the eighteen assignments are six turns of one invertible step, those that `JenkinsSpread` and `JenkinsValues` are about |
| JenkinsMix.Final | libcsapp/jenkins_hash.c:132-148 | the fourteen assignments are seven turns of one, those that `JenkinsValues` is about |
| JenkinsMix.RotRotates | libcsapp/jenkins_hash.c:39 | `rot` is a rotation |
| JenkinsSpread.TopOfA | libcsapp/jenkins_hash.c:85-105 | for all words: after half of `mix` a change of the top bit of a has changed all three words, each in a lowest bit that is known |
| JenkinsSpread.TopOfC | libcsapp/jenkins_hash.c:85-105 | one of the top bit of c after a third |
| JenkinsSpread.TopOfB | libcsapp/jenkins_hash.c:85-105 | one of the top bit of b after a third, in just the top bit of each |
| JenkinsSpread.BottomOfB | libcsapp/jenkins_hash.c:85-105 | one of the bottom bit of b after a third, in the bottom bit of each |
| JenkinsSpread.NoAvalanche | libcsapp/jenkins_hash.c:72-75 | some bits fail to affect some, as the comment says: for all words, the lowest byte of a after `mix` does not depend on the top bit of b |
| JenkinsValues.MixOfA | libcsapp/jenkins_hash.c:85-105 | `mix` takes (1, 0, 0) to (0xbfbe7f3a, 0x7d633d2b, 0x9810de96) |
| JenkinsValues.MixOfB | libcsapp/jenkins_hash.c:85-105 | (0, 1, 0) to (0xff000003, 0xf80ff701, 0x960f65eb) |
| JenkinsValues.MixOfC | libcsapp/jenkins_hash.c:85-105 | (0, 0, 1) to (0xeae4d1c9, 0x2dcd1961, 0x9397e6b6) |
| JenkinsValues.FinalOfA | libcsapp/jenkins_hash.c:132-148 | `final` takes (1, 0, 0) to (0x1e1de1e1, 0x67a59a59, 0x40f3f2be) |
| JenkinsValues.FinalOfB | libcsapp/jenkins_hash.c:132-148 | (0, 1, 0) to (0x3a989830, 0xa15719ed, 0x2961431) |
| JenkinsValues.FinalOfC | libcsapp/jenkins_hash.c:132-148 | (0, 0, 1) to (0xbd324300, 0xb60d8bc5, 0xf02a6a49) |
| Jenkins.HashWords | libcsapp/jenkins_hash.c:239-316 | the path for aligned keys computes the hash of the key's bytes alone, on machines of either byte order, whatever follows the key in its last word |
| Jenkins.HashHalves | libcsapp/jenkins_hash.c:316-374 | so does the path for even addresses |
| Jenkins.HashBytes | libcsapp/jenkins_hash.c:374-427 | and the path for any address |
| Jenkins.LastWords | libcsapp/jenkins_hash.c:476-527 | its switch on the last block, with the masks of a big-endian machine |
| Jenkins.LastBytes | libcsapp/jenkins_hash.c:551-581 | the fall-through switch, with the shifts of a big-endian machine |
| Jenkins.JenkinsHash | libcsapp/jenkins_hash.c:228-431 | the value does not depend on the address |
| Jenkins.JenkinsHash32 | libcsapp/jenkins_hash.c:163-198 | hashing words is hashing the bytes they are in memory |
| Jenkins.LengthWraps | libcsapp/jenkins_hash.c:171 | the length counts modulo 2^32 |
| Jenkins.Uint32FourTimes | libcsapp/jenkins_hash.c:171 | shifting a length in words gives the length in bytes, wrapped |
| Jenkins.OneBlockShows | libcsapp/jenkins_hash.c:374-430 | keys of one length that differ in exactly one block of 12 bytes end with different (a, b, c) |
| Jenkins.DifferenceStays | libcsapp/jenkins_hash.c:41-47 | what differs in (a, b, c) before the rest of a key differs after it |
| JenkinsValues.TwoBlocksMore | libcsapp/jenkins_hash.c:374-430 | the hash of a key of two full blocks and one to twelve bytes more: two times `mix`, then `final` |
| JenkinsValues.EmptyKey | libcsapp/jenkins_hash.c:228-236 | the hash of the empty key is 0xdeadbeef + initval |
| JenkinsValues.FourScore | libcsapp/jenkins_hash.c:228-431 | the hash of "Four score and seven years ago" is 0x17770551 where words are little-endian |
| JenkinsValues.FourScoreFromOne | libcsapp/jenkins_hash.c:228-431 | from initval 1 it is 0xcd628161 |
| JenkinsValues.FourScoreBig | libcsapp/jenkins_hash.c:228-431 | and 0x65e759cb where they are big-endian |
| JenkinsValues.LettersInOrder | libcsapp/jenkins_hash.c:228-431 | the hash of twelve times `a`, twelve times `b`, `c` is 0xcf7f4120 |
| JenkinsValues.LettersExchanged | libcsapp/jenkins_hash.c:228-431 | with the two blocks exchanged it is 0xbd81cde5 |
| JenkinsValues.ExchangeShows | libcsapp/jenkins_hash.c:374-430 | for all keys, exchanging two full blocks leaves the words at the end as they were if and only if mixing the one in and adding the other comes to the same either way round |
| Rio.ReadN | libcsapp/rio.c:5-22 | as many bytes as asked for or left, in order, whatever interruptions and short reads; after an error those read before are in the caller's buffer |
| Rio.WriteN | libcsapp/rio.c:32-48 | all bytes, once and in order; after an error a beginning of them |
| Rio.Reader.Read | libcsapp/rio.c:63-85 | a non-empty beginning of the unread stream, if there is any, which then is read |
| Rio.Reader.constructor | libcsapp/rio.c:95-99 | nothing is read yet |
| Rio.Reader.ReadNb | libcsapp/rio.c:102-116 | min(n, what is left) bytes, the next ones of the stream; after an error those read before are in the caller's buffer |
| Rio.Reader.ReadLineb | libcsapp/rio.c:119-140 | the next line with its newline, cut at maxlen - 1, with a NUL after it; nothing is written at the end of the file; after an error what was read is in the caller's buffer; nothing beyond that is written |
| Rio.LineLength | libcsapp/rio.c:119-140 | no newline before the last byte of a line, and one there unless it was cut or the stream ended |
| Rio.Session | libcsapp/rio.c:101-140 | any sequence of calls returns what it would of the plain stream, whatever the schedule of interruptions and short reads |
| Rio.Consecutive | libcsapp/rio.c:101-140 | the answers are consecutive pieces of the stream |

## Left out

- The comparison function of the trees: integer keys stand for it.
- RB_AUGMENT (empty by default) and RB_FOREACH.
- Real processes, terminals and signals: what a signal sent does to a process, `Tcsetpgrp`, `Tcsetattr` and saved terminal modes. What `Fork` returns and what `waitpid` reports are inputs; the pid is not one the table still has. `Setpgid` is modelled only as the group the process ends up in.
- JobRuns.Step: no step follows an access of `watchjobs` before an array, nor `monitorjob` once it has left a running job in the foreground slot; runs are followed to there, and what is proved of every run says nothing of what comes after.
- JobControl.Shell.MonitorJob: promises nothing about when a wait ends, because the loops need not end.
- JobControl.Shell.KillJob: job numbers are not negative, as its callers must see to.
- JobControl.Shell.ShutdownJobs: does not promise that all jobs are gone, because the source suspends only once for each.
- The messages of `watchjobs`, and `jobstate`, which nothing calls.
- `siglongjmp` from SIGINT, readline, history, bang expansion and the prompt.
- `command.c`: builtins, globbing and PATH search.
- Pipelines.Front.DoJob: which commands are builtins is an input, and what a builtin then does is not modelled.
- FrontEnd.EvalTokens: likewise.
- FrontEnd.Eval: likewise.
- Redirection.DoRedir: the operand is taken as it stands, not expanded by `glob`; which files can be opened is an input, and what becomes of their descriptors is not followed.
- Pipelines.Front.StartPipeline: an assertion that fails, an `app_error` and a crash on reading an operator as a string are all the outcome "stopped", after which nothing is promised.
- Tokens in FrontEnd.Strings stand for the strings they point to; the line is not written again after `tokenize`.
- Rio.Reader.ReadLineb: counts are unbounded, so the `int` counters of the source do not overflow.
- Rio.Output.Write: a `write` that returns 0 is not told apart from one that fails.
- `include/queue.h`, `include/bitstring.h`, the other files of `libcsapp`, and the copies of headers there.
