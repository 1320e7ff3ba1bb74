# FoldGPT executor: verified models

This project models the state-keeping core of FoldGPT's executor in Dafny and proves
what its parts promise over every input and every run:

- **planned tree operations** of the native file helper: a snapshot of a workspace is
  parsed, compared with the real tree, and then a subtree is removed or copied by it
  (`Paths`, `Plans`, `Workspaces`, `Verification`, `Images`, `Removal`, `Copying`,
  `CopySteps`, `Preflight`, `PlannedCopy`, `PlannedOperations`);
- the **managed supervisor's** event loop and its final report (`Supervision`);
- two **seccomp tables** as programs of a small classic-BPF machine (`Bpf`, `Filters`);
- the **exec server's** connection: bounded line reader, output channel, session and
  concurrent requests (`Framing`, `OutputChannel`, `Sessions`, `ExecServer`);
- the **environment router** and the **two-server multiplexer** (`Routing`, `Multiplexer`);
- the **managed context block**, the **keyboard owner**, the **dependency worklist** and
  the **chunked memory search** (`ContextBlock`, `KeyboardFocus`, `DependencyClosure`,
  `TokenScan`).

Objects that the source updates in place are classes with an invariant; concurrency is
an arbitrary schedule of the steps between suspension points (`Drive`, `Supervise`), so
what is proved of a schedule holds of every interleaving. What the outside world answers
(kernel calls, clocks, random ids, peers, backends) is a parameter or a free choice.

Run `dafny verify dfyconfig.toml` to check everything.

Three findings are stated as theorems with their exact conditions. `within` is not
contained in byte order below the root, because `.` sorts after names that start with a
smaller byte (`Paths.RootOrder`); the removal and copy proofs do not need it there. An
accepted copy of a single file still fails, harmlessly, when the destination's directory
is missing, because only directory sources bring their ancestors (`PlannedCopy.CopyAll`).
A disabled thread can regain access without naming an environment when requests overlap
or a fork is answered with its id (`Routing.ReenabledWhen`). Each has an input that shows it:
`Paths.DashBeforeRoot`, `PlannedCopy.LoneFileHasNoPlace`, `Routing.OverlapReenables` and
`Routing.ForkReenables`.

## Model

| member | source | states |
|---|---|---|
| `PlannedOperations.PlannedOperation` | tools/executor/native-files.c:378-389 | From the bytes on standard input to the changed workspace: unless the input is the wire form of an acceptable plan nothing changes and the answer names the plan; unless the tree is within limits and that plan lists exactly its snapshot nothing changes and the answer names the tree; otherwise the request has its full effect. The tree stays well-formed and stays within the limits of the next verification. |
| `PlannedOperations.ReceivedOnce` | tools/executor/native-files.c:183-217 | At most one plan can be meant by given input bytes. |
| `PlannedOperations.RemoveIsClosed` | tools/executor/native-files.c:229-237 | Any outcome of a remove leaves an admissible tree admissible. |
| `PlannedOperations.RemoveUndoesCopy` | tools/executor/native-files.c:266-377 | Copying to a fresh name in an existing directory and then removing that name recursively gives back the original tree, up to directory sizes, times and link counts. |
| `PlannedCopy.CopyPlan` | tools/executor/native-files.c:339-377 | The whole of `copy_plan`: which refusal is answered when, each leaving the tree untouched; an accepted copy with a place to go succeeds, is the exact image, creates exactly the counted entries and leaves an admissible tree. |
| `PlannedCopy.CopyAll` | tools/executor/native-files.c:369-376 | The mutation loop after an accepted preflight never fails on the way and yields exactly the copied tree; the one exception is a single file whose directory does not exist, and then nothing has changed. |
| `PlannedCopy.CopyEntry` | tools/executor/native-files.c:370-374 | One turn of the mutation loop extends the copy by exactly that entry. |
| `PlannedCopy.CopyDirectoryEntry` | tools/executor/native-files.c:373-373 | A directory entry of the plan is always created or found, never refused. |
| `PlannedCopy.CopyFileEntry` | tools/executor/native-files.c:374-374 | A file entry is written unless it is the lone source without a destination directory. |
| `PlannedCopy.FilePlace` | tools/executor/native-files.c:293-338 | When a file is reached its image's directory is there, exactly except for that lone file. |
| `PlannedCopy.ExactCount` | tools/executor/native-files.c:344-368 | The tree grows by exactly the set of entries the preflight counted. |
| `PlannedCopy.CopyIsClosed` | tools/executor/native-files.c:344-368 | After an accepted copy the tree is again within depth, length and entry limits. |
| `PlannedCopy.CopyShows` | tools/executor/native-files.c:369-376 | Object by object: every source object is at its image with its kind and, for a file, its bytes and mode; the source and everything outside the destination are untouched; what is new is an image or a directory on the way to the destination. |
| `PlannedCopy.LoneFileHasNoPlace` | tools/executor/native-files.c:339-377 | An input for the exception: in a workspace with one file `a`, copying `a` to `d/b` passes the preflight and has no place to go. |
| `Preflight.CheckPlan` | tools/executor/native-files.c:344-368 | The preflight loop passes if and only if every image fits, the bytes are bounded and the entry limit holds; its count is the exact number of entries to be created; a refusal's error number is justified. |
| `Preflight.CheckEntry` | tools/executor/native-files.c:348-367 | One turn of the preflight keeps both running totals exact, or refuses for a reason that holds. |
| `Preflight.CheckItem` | tools/executor/native-files.c:350-367 | The checks of one image pass if and only if it fits; each error number stands for its own cause. |
| `Preflight.CheckAncestors` | tools/executor/native-files.c:362-367 | The walk up the image's ancestors fails if and only if a planned ancestor is a file, and counts exactly the missing ones. |
| `Preflight.CountDepth` | tools/executor/native-files.c:352-353 | Counting slashes gives the number of components. |
| `Preflight.CreatedStep` | tools/executor/native-files.c:356-366 | Adding one source object adds exactly its image, and the missing ancestors for the first, to the entries created. |
| `Copying.CopyDirectory` | tools/executor/native-files.c:293-315 | Walking the components succeeds if and only if everything present on the way is an owned directory, and then exactly the missing ones are created with mode 0700; otherwise nothing has been created. |
| `Copying.OpenOrMake` | tools/executor/native-files.c:300-311 | One component: an existing object is accepted if and only if it is an owned directory and is left alone; a missing one is made. |
| `Copying.CopyFile` | tools/executor/native-files.c:316-338 | Every way one file copy can end, each failure with the tree unchanged; on success the destination has the source's bytes and permission bits, keeps its identity if it existed, and nothing else changes. |
| `Copying.PinnedOpen` | tools/executor/native-files.c:54-74 | Opening for writing accepts an ordinary file as it is, creates a missing one exclusively, and refuses the rest without effect. |
| `CopySteps.ParentDone` | tools/executor/native-files.c:369-375 | In plan order the source comes first and every later object comes after its own directory, although `.` does not sort first. |
| `CopySteps.Untouched` | tools/executor/native-files.c:369-375 | Objects outside the destination keep kind, identity, mode and content through any number of steps. |
| `CopySteps.NotFileImage` | tools/executor/native-files.c:369-375 | Nothing at or above the next image is the copy of a file made earlier. |
| `CopySteps.DirReady` | tools/executor/native-files.c:293-315 | When a directory entry is reached, everything present on the way to its image is an owned directory. |
| `CopySteps.DirAfter` | tools/executor/native-files.c:293-315 | Making that directory with its missing ancestors is exactly the copy of one more object. |
| `CopySteps.FileReady` | tools/executor/native-files.c:316-338 | When a file entry is reached, its source is still identical to the plan and its image is absent or an ordinary file not yet touched. |
| `CopySteps.FileAfter` | tools/executor/native-files.c:316-338 | Writing that file is exactly the copy of one more object. |
| `Images.ImageBack` | tools/executor/native-files.c:349-349 | Mapping a path to the destination and back is the identity. |
| `Images.ImageStep` | tools/executor/native-files.c:349-349 | The image of a child is the child of the image. |
| `Images.ImageCanonical` | tools/executor/native-files.c:349-351 | Images of canonical paths are canonical, at or below the destination, and one component deeper per component. |
| `Images.Disjoint` | tools/executor/native-files.c:342-342 | When neither path is within the other, no object of the source is an image. |
| `Removal.RemovePlan` | tools/executor/native-files.c:266-292 | The whole of `remove_plan`: a missing target, forced or not, and a refused non-empty directory leave the tree alone; otherwise no step fails and exactly the objects at or below the target are gone. |
| `Removal.StepReady` | tools/executor/native-files.c:281-287 | Whatever has been unlinked before, the next object's directory is still there and the object still passes the comparison made for its kind. |
| `Removal.NothingBelow` | tools/executor/native-files.c:279-282 | Going backwards through byte order, every object below an entry is gone before the entry is reached. |
| `Verification.VerifyTree` | tools/executor/native-files.c:229-254 | For every order of directory entries the recursion succeeds if and only if each object below the path is as planned and within bounds, and it counts each exactly once; it terminates on the depth bound. |
| `Verification.VerifyPlan` | tools/executor/native-files.c:381-382 | For every well-formed tree and acceptable plan the comparison succeeds if and only if the tree is admissible and the plan's entries are exactly the snapshot of the tree: one entry per path with the object's device, inode, mode, size, modification and change time. |
| `Verification.AgreesIsSnapshot` | tools/executor/native-files.c:229-254 | A plan agrees with an admissible tree if and only if the entries it lists are the tree's snapshot. |
| `Verification.ChangeIsNoticed` | tools/executor/native-files.c:218-228 | When an object has come, gone or changed in any one recorded attribute, the old plan is not the new tree's snapshot, so that the operation is refused with the tree untouched. |
| `Workspaces.SameNode` | tools/executor/native-files.c:218-228 | The comparison holds if and only if the object is the user's own, a file has no second name, and the entry is the object's snapshot, or would be with the entry's size and times when those are not compared. |
| `Verification.CoveredStep` | tools/executor/native-files.c:244-252 | Visiting one more entry adds exactly the objects below it, none seen before. |
| `Verification.PathsCount` | tools/executor/native-files.c:381-382 | A strictly sorted plan has as many paths as entries. |
| `Verification.MatchedIsAgreed` | tools/executor/native-files.c:381-382 | Every object being planned, together with equal counts, makes the plan exactly the tree (injection plus pigeonhole). |
| `Verification.AgreedIsMatched` | tools/executor/native-files.c:381-382 | An admissible tree that equals its plan passes with equal counts. |
| `Workspaces.AncestorsPresent` | tools/executor/native-files.c:260-265 | In a well-formed tree every ancestor of an object is there and is a directory. |
| `Workspaces.Workspace.ReadDir` | tools/executor/native-files.c:243-247 | Assumed kernel step: every name of a directory once, in no fixed order. |
| `Workspaces.Workspace.UnlinkAt` | tools/executor/native-files.c:287-287 | Assumed kernel step: succeeds if and only if the object is there, of the stated kind and has no entries, and removes just it. |
| `Workspaces.Workspace.MkDirAt` | tools/executor/native-files.c:305-305 | Assumed kernel step: creates one directory if the name is free. |
| `Workspaces.Workspace.CreateFile` | tools/executor/native-files.c:60-60 | Assumed kernel step: exclusive creation of an empty file. |
| `Workspaces.Workspace.Rewrite` | tools/executor/native-files.c:334-334 | Assumed kernel steps: truncate, complete write and permission change of one file. |
| `Plans.ReadPlan` | tools/executor/native-files.c:183-217 | A plan is returned if and only if the announced length is the input's and the bytes are the wire form of a strictly sorted, in-range plan that has the root; it is that plan. |
| `Plans.NineFields` | tools/executor/native-files.c:202-203 | Nine terminated fields are taken off the front of what is left, or the input has no nine. |
| `Plans.Field` | tools/executor/native-files.c:159-164 | A field is the bytes to the next terminator and the rest splits as before; none is returned only when none is there. |
| `Plans.ParseRecord` | tools/executor/native-files.c:204-212 | Nine fields give an entry if and only if they are the record of one, and that one. |
| `Plans.CheckRelative` | tools/executor/native-files.c:33-42 | The scan accepts exactly the non-empty relative paths shorter than the limit without empty, `.` or `..` components. |
| `Plans.Decimal` | tools/executor/native-files.c:85-93 | Digits only, exact value, and nothing that overflows 64 bits. |
| `Plans.SignedDecimal` | tools/executor/native-files.c:165-173 | Likewise with an optional minus sign and the signed range. |
| `Plans.FindNode` | tools/executor/native-files.c:174-182 | Binary search on a strictly sorted plan finds a path if and only if some entry has it, and that entry. |
| `Plans.RecordUnique` | tools/executor/native-files.c:204-212 | One record encodes at most one entry. |
| `Plans.RecordsUnique` | tools/executor/native-files.c:183-217 | A sequence of fields encodes at most one plan. |
| `Plans.PlanRoundTrip` | tools/executor/native-files.c:183-217 | Writing an acceptable plan and reading it back gives that plan and no other. |
| `Paths.LessIrreflexive` | tools/executor/native-files.c:174-182 | `strcmp` order on byte strings is irreflexive. |
| `Paths.LessTransitive` | tools/executor/native-files.c:174-182 | It is transitive. |
| `Paths.LessTotal` | tools/executor/native-files.c:174-182 | It is total. |
| `Paths.LessPrefix` | tools/executor/native-files.c:174-182 | A proper prefix comes first. |
| `Paths.ParentFacts` | tools/executor/native-files.c:260-265 | Splitting a canonical path at its last slash loses nothing and removes one component. |
| `Paths.ChildFacts` | tools/executor/native-files.c:249-249 | Joining a name to a directory is undone by splitting. |
| `Paths.WithinTransitive` | tools/executor/native-files.c:255-259 | It is transitive on all tree paths, the root included. |
| `Paths.WithinAntisymmetric` | tools/executor/native-files.c:255-259 | It is antisymmetric. |
| `Paths.WithinRoot` | tools/executor/native-files.c:255-259 | Only `.` itself contains `.`. |
| `Paths.WithinLess` | tools/executor/native-files.c:255-259 | Below any path but the root, `within` implies strict byte order. |
| `Paths.RootOrder` | tools/executor/native-files.c:255-259 | Exactly when a path sorts before the root `.`: its first byte is smaller; so `within` is not contained in byte order below the root. |
| `Paths.DashBeforeRoot` | tools/executor/native-files.c:255-259 | For one, the name `-` is below the root and sorts before it. |
| `Paths.WithinComparable` | tools/executor/native-files.c:255-259 | Two ancestors of one path are comparable. |
| `Paths.WithinStep` | tools/executor/native-files.c:255-259 | `within` is the reflexive-transitive closure of being the parent. |
| `Paths.WithinDepth` | tools/executor/native-files.c:255-259 | Going strictly down increases the depth. |
| `Paths.ChainIsAncestors` | tools/executor/native-files.c:294-313 | The components walked are exactly the path and its ancestors below the root. |
| `Paths.ValidRelativeMeans` | tools/executor/native-files.c:32-42 | A relative path is accepted if and only if it is not empty, shorter than the limit, and no component is empty, `.` or `..`. |
| `Supervision.Supervise` | tools/executor/native-managed-runner.c:363-487 | For every script of what the kernel, the clock, the commands and the signals answer, pass by pass: events are started, exited, result in that order, each at most once; forwarded bytes never exceed the limit; the report comes exactly when the loop ends and can be sent, and is honest; a cleanup runs out only after its five seconds; nothing is recorded as gone wrong that did not go wrong in some pass; and in a run in which nothing did, the streams hold every byte the worker wrote. |
| `Supervision.Iterate` | tools/executor/native-managed-runner.c:384-475 | One pass keeps every invariant, takes nothing back and blames nothing that did not happen in it; it breaks off exactly when a cleanup in progress has run out of time; a running worker whose run is cancelled, overdue or without commands at the head of the pass is blamed for it; without blame every answer of the pass has had its effect. |
| `Supervision.CheckDeadline` | tools/executor/native-managed-runner.c:385-387 | A failing command channel, a cancellation or the deadline ends a running worker in that order, and nothing else does; the ending named is the one seen. |
| `Supervision.Startup` | tools/executor/native-managed-runner.c:388-409 | The start is announced at most once, exactly when a traced worker stops in its program and the message goes out; it fails exactly when one of the calls it makes fails. |
| `Supervision.Attach` | tools/executor/native-managed-runner.c:394-399 | The first stop: tracing counts as set up once its calls succeed; a missing listener fails the setup. |
| `Supervision.Announce` | tools/executor/native-managed-runner.c:400-405 | The exec stop: started only if the worker was released and the message went out. |
| `Supervision.Serve` | tools/executor/native-managed-runner.c:414-468 | Polling, decisions, the three streams, the leader and the children: a failed poll or decision jumps to the runtime label, and otherwise every stream, the leader and the children are as the pass reports them. |
| `Supervision.ReadAll` | tools/executor/native-managed-runner.c:414-446 | The three streams in turn, each taking exactly what its descriptor delivered, or a jump with its cause recorded. |
| `Supervision.Rest` | tools/executor/native-managed-runner.c:414-474 | The pass from the poll to its end, labels included. |
| `Supervision.Open` | tools/executor/native-managed-runner.c:385-413 | The pass up to the look at the cleanup's end, ended early exactly by a failed start or a failed command channel. |
| `Supervision.TimedOn` | tools/executor/native-managed-runner.c:387-474 | A cleanup has at least the five seconds it was given, and never more from the present. |
| `Supervision.Begin` | tools/executor/native-managed-runner.c:385-409 | The checks and the start together: the cleanup's end is looked at with the clock of the loop's head. |
| `Supervision.ReadStream` | tools/executor/native-managed-runner.c:422-446 | End of file, a failed read, a piece of the setup record and output: which jump is taken when, what is received, and what may be blamed; a stream at its end is left alone. |
| `Supervision.Collect` | tools/executor/native-managed-runner.c:426-429 | The setup record is complete at exactly eight bytes, which fails the setup, and too long beyond them, which fails the broker; its buffer is never overrun. |
| `Supervision.Forward` | tools/executor/native-managed-runner.c:430-443 | A chunk is forwarded completely, or as far as the budget goes with the run ended as an output limit, or the run ends as a failure whose cause is a failing turn, a cancellation or the deadline. |
| `Supervision.WritePieces` | tools/executor/native-managed-runner.c:432-442 | Under any partial writes the bytes forwarded are a prefix of the chunk; the chunk is complete exactly when no turn failed and none found the run stopped; which turn ended it is told. |
| `Supervision.WriteTurn` | tools/executor/native-managed-runner.c:433-442 | One turn: a failing command channel comes first, then a cancellation or the deadline, then the write call, which adds what it took or fails. |
| `Supervision.ObserveLeader` | tools/executor/native-managed-runner.c:447-466 | The exit is announced at most once, only after the start, with the status observed for the leader, which the report repeats; a lost announcement is a broker error; a cleanup already running keeps its end. |
| `Supervision.Reap` | tools/executor/native-managed-runner.c:467-468 | The leader is reaped exactly when it was observed and waited for; no child is left exactly when none was found after that. |
| `Supervision.StartupFailed` | tools/executor/native-managed-runner.c:470-471 | The label always leaves a setup error that will be cleaned up. |
| `Supervision.RuntimeFailed` | tools/executor/native-managed-runner.c:472-474 | The label names a cancellation if one is in, else a timeout if the deadline has passed, else a broker error, and the last only with a recorded failure. |
| `Supervision.Land` | tools/executor/native-managed-runner.c:469-474 | Both labels restore the full invariant. |
| `Supervision.ConcludeIsHonest` | tools/executor/native-managed-runner.c:476-482 | The report of every final state is honest, both ways: `cleanup_error` if and only if something was left behind or the cleanup ran out of time, `exited` if and only if the worker started, everything was reaped in time and nothing went wrong; then all streams ended and every byte read was forwarded and counted. Every other ending names a recorded cause. |
| `Supervision.CleanRun` | tools/executor/native-managed-runner.c:363-487 | If nothing outside failed in any pass, no termination request arrived, the deadline was not reached and the output fits, the report says `exited` if and only if the worker started and everything was reaped. |
| `Supervision.KeptOn` | tools/executor/native-managed-runner.c:422-446 | One more pass in which every stream was served keeps the streams equal to what the passes delivered. |
| `Bpf.RunConcat` | tools/probe-landlock-codex.c:269-501 | Running a closed table followed by another is running the first and, if it falls through, the second with the accumulator it left. |
| `Bpf.RunOffset` | tools/probe-landlock-codex.c:269-501 | Jumps are relative: running from inside the second table ignores the first. |
| `Bpf.Compose` | tools/probe-landlock-codex.c:269-501 | The same for two closed tables from their first instruction. |
| `Bpf.OnlyMeaning` | tools/probe-landlock-codex.c:277-277 | A block guarded by a jump over it affects only its own syscall and leaves the accumulator to the rest. |
| `Bpf.ChainMeaning` | tools/probe-landlock-codex.c:262-264 | A chain of compare-and-return pairs answers with the first matching rule and otherwise keeps the accumulator. |
| `Bpf.AllowIsMembership` | tools/probe-landlock-codex.c:262-264 | For an arbitrary list the compiled allow chain is list membership. |
| `Filters.HandCountedJumps` | tools/probe-landlock-codex.c:277-330 | The jump over each block has the hand-counted length. |
| `Filters.GuardMeaning` | tools/probe-landlock-codex.c:270-273 | A foreign architecture is killed; otherwise the accumulator is the syscall number. |
| `Filters.IoctlMeaning` | tools/probe-landlock-codex.c:277-284 | `ioctl` is allowed exactly for the four requests. |
| `Filters.SocketpairMeaning` | tools/probe-landlock-codex.c:288-301 | `socketpair` is allowed exactly for Unix stream or sequenced-packet pairs with protocol 0, whatever the close-on-exec and non-blocking flags. |
| `Filters.PrlimitMeaning` | tools/probe-landlock-codex.c:303-308 | `prlimit64` is allowed exactly for the caller itself. |
| `Filters.ChmodMeaning` | tools/probe-landlock-codex.c:309-314 | Mode changes by path always reach the listener. |
| `Filters.OpenMeaning` | tools/probe-landlock-codex.c:315-333 | An open is allowed exactly when none of the writing, creating, truncating, appending and temporary-file bits is set. |
| `Filters.ReadsOnlyMeans` | tools/probe-landlock-codex.c:315-333 | The mask stands for the named flags: read-only access mode and neither creation, truncation, appending nor a temporary file. |
| `Filters.KindMeans` | tools/probe-landlock-codex.c:292-296 | Masking a socket type leaves a stream or packet socket if and only if the word is one of the two with or without the close-on-exec and non-blocking flags. |
| `Filters.OpenPartsMeaning` | tools/probe-landlock-codex.c:315-334 | `openat` otherwise notifies and, where it exists, `open` otherwise fails with EPERM; other numbers pass with the accumulator intact. |
| `Filters.AllowedMeaning` | tools/probe-landlock-codex.c:335-500 | The allow list, whatever it is, then the default. |
| `Filters.ProbeFilterMeaning` | tools/probe-landlock-codex.c:266-501 | For every set of syscall numbers, every call and every argument word the table ends in a return of exactly the action of the decision table. |
| `Filters.ManagedFilterMeaning` | tools/executor/native-managed-filter.h:22-53 | The managed runner's table kills foreign architectures and the x32 numbering, notifies opens, refuses the listed operations and allows the rest, for every list of numbers. |
| `Framing.Stream.ReadFrame` | tools/executor/exec_server.py:474-487 | A line is accepted if and only if its payload, without LF and one CR before it, fits the limit, including a limit-long payload before CRLF; an unterminated last line keeps its CR; an accepted read ends just behind the line. |
| `Framing.Stream.ReadLine` | tools/executor/exec_server.py:475-475 | `readline` takes the bytes through the next LF but at most the given number. |
| `Framing.ReadAll` | tools/executor/exec_server.py:545-568 | Reading until the end or a refusal yields the stream split on LF up to the first line that is too long, and hands on the lines that are not blank. |
| `Framing.LinesShift` | tools/executor/exec_server.py:474-487 | Splitting depends only on the bytes ahead, not on what was consumed. |
| `Framing.SplitInvertsFraming` | tools/executor/exec_server.py:474-487 | Splitting undoes framing if and only if every payload is free of LF and of a final CR. |
| `OutputChannel.Channel.Accept` | tools/executor/exec_server.py:504-519 | A message is queued if and only if the channel has not failed, it encodes, it fits beside everything outstanding and a queue slot is free; any refusal fails the channel for good and changes nothing else. |
| `OutputChannel.Channel.TakeFrame` | tools/executor/exec_server.py:525-525 | Taking a frame moves it from the queue to the writer; the budget still counts it. |
| `OutputChannel.Channel.DeliverBytes` | tools/executor/exec_server.py:527-534 | Any partial write, also of a thread left behind by cancellation, extends what the peer sees by the next unsent bytes. |
| `OutputChannel.Channel.FinishFrame` | tools/executor/exec_server.py:535-539 | A flushed frame frees its bytes. |
| `OutputChannel.Channel.BreakWriter` | tools/executor/exec_server.py:531-541 | A failing write frees the budget, fails the channel and stops the writer. |
| `OutputChannel.Channel.CancelWriter` | tools/executor/exec_server.py:581-582 | Cancelling frees the budget at once although a blocked thread may still write its frame. |
| `OutputChannel.Channel.Progress` | tools/executor/exec_server.py:521-541 | What each step of the writer does, exactly; in particular none changes what was accepted or takes back what the peer saw. |
| `OutputChannel.Channel.Drive` | tools/executor/exec_server.py:500-582 | Over every interleaving, each step having its exact effect: outstanding bytes are the queued bytes plus the frame being written and at most the maximum plus one, at most 128 frames are queued, failure is final, and the peer has seen a prefix of the accepted frames in order. |
| `OutputChannel.Channel.DrainedMeansReceived` | tools/executor/exec_server.py:500-541 | Once the writer has caught up, a line reader on the other side has exactly the accepted messages. |
| `ExecServer.Server.Accept` | tools/executor/exec_server.py:383-424 | What every envelope does: protocol failures change nothing; `initialized` counts only after an opened session; the handshake is answered at once; an operation is admitted if and only if its own class has room and otherwise told so, so ordinary saturation never refuses a control request; a session id never changes. |
| `ExecServer.Server.Shake` | tools/executor/exec_server.py:399-401 | A handshake request opens the session exactly when it is a valid first `initialize` without a resume, and is otherwise told the one reply it is due. |
| `ExecServer.Server.StartTask` | tools/executor/exec_server.py:335-381 | The first step of a task appends a backend call exactly when the method is a declared operation with valid and capable parameters on an initialized session; otherwise it is told the one reply it is due; a task cancelled before changes neither table, counters nor story. |
| `Sessions.ExamineIsDue` | tools/executor/exec_server.py:335-381 | Every request opens the session, is called or is due exactly one reply: an information request with no parameters succeeds, and each error code is given if and only if its own cause holds and none that is looked at earlier. |
| `Sessions.ClassesAreNamed` | tools/executor/exec_server.py:40-53 | The audited operations and the control class are exactly the declared sets of names. |
| `ExecServer.Server.FinishTask` | tools/executor/exec_server.py:411-419 | The end of a backend call: one answer or, only after close, none; the entry and its count go together. |
| `ExecServer.Server.Conclude` | tools/executor/exec_server.py:411-419 | Answering and leaving the table, also when the channel refuses the answer. |
| `ExecServer.Server.Leave` | tools/executor/exec_server.py:414-419 | The `finally` block takes the request out of the table and out of its class's count. |
| `ExecServer.Server.Emit` | tools/executor/exec_server.py:400-413 | An answer reaches the channel, exactly when the channel takes it, or the request is lost with a broken channel as the excuse. |
| `ExecServer.Server.Close` | tools/executor/exec_server.py:426-435 | Closing marks every pending task cancelled and is done once. |
| `ExecServer.Server.Drive` | tools/executor/exec_server.py:283-582 | Over every interleaving, each step having its exact effect, of messages, bad lines, task steps, backend returns, notifications, disconnects and the writer's progress and failures the books agree with the story: distinct keys, exact counters within the limit; each request on a live connection is answered or in flight; and the peer has seen a prefix of the story's messages in order. |
| `ExecServer.Server.PeerReadsTheStory` | tools/executor/exec_server.py:500-541 | Once the writer has caught up, the lines the peer reads are exactly the answers and notifications of the story, in its order. |
| `ExecServer.Server.NotifyPeer` | tools/executor/exec_server.py:328-333 | A notification goes out exactly on an initialized, open connection whose channel takes it; otherwise it changes nothing or fails the channel. |
| `ExecServer.Server.RejectLine` | tools/executor/exec_server.py:563-567 | The answer to a line that does not decode takes its place among the messages, or fails the channel. |
| `ExecServer.Server.WriteMore` | tools/executor/exec_server.py:521-541 | The writer moves as its event says and touches neither books nor story. |
| `ExecServer.Server.Perform` | tools/executor/exec_server.py:283-582 | Each step of the event loop has exactly its effect on the connection, and a protocol failure or the end of input closes. |
| `Sessions.Unrepeated` | tools/executor/exec_server.py:335-435 | In every reachable story there is one opening and one close, and for each request one arrival, at most one backend call and at most one answer. |
| `Sessions.CalledInOrder` | tools/executor/exec_server.py:335-435 | Every backend call comes after its session's opening and after `initialized`, before any close, for a declared operation with valid and capable parameters whose request arrived. |
| `Sessions.AnsweredOrInFlight` | tools/executor/exec_server.py:383-424 | Each request is answered, or in flight under its own id, or the session closed, or the output failed, however many others are in flight. |
| `Sessions.CountersExact` | tools/executor/exec_server.py:402-419 | In every reachable state each counter is the number of tasks in flight of its class, by the declared names, and within the limit. |
| `Sessions.SoundAt` | tools/executor/exec_server.py:335-435 | Every event of a reachable story was permitted by what came before it; in particular no operation succeeds without its backend call. |
| `Sessions.AdmitGood` | tools/executor/exec_server.py:402-422 | Admission keeps keys distinct, counters exact and stories sound. |
| `Sessions.ReleaseGood` | tools/executor/exec_server.py:414-419 | So does leaving. |
| `Sessions.BeginGood` | tools/executor/exec_server.py:370-372 | So does a backend call. |
| `Sessions.ShutGood` | tools/executor/exec_server.py:426-432 | So does closing, after which every task is cancelled. |
| `Routing.EnvironmentRouter.Outgoing` | tools/executor/app_server_routing.py:89-128 | A request is let through if and only if it is well-formed, reuses no outstanding id, and what it names is proper; a refusal leaves no trace. A start carries nothing for a thread without access and else exactly one environment, the router's, in the directory and with the roots that the outstanding request remembers; stored locations still are what the trace says. |
| `Routing.EnvironmentRouter.Incoming` | tools/executor/app_server_routing.py:130-163 | Whatever arrives in whatever order, stored locations are exactly the fold of successful answers and settings notifications over the trace; errors, unknown ids and malformed results move no thread; an error is raised exactly for a settings path or an answer of the wrong shape. |
| `Routing.EnvironmentRouter.Learn` | tools/executor/app_server_routing.py:145-162 | A successful answer moves the thread it names or was asked for, and every other thread keeps its location. |
| `Routing.SelectPlaces` | tools/executor/app_server_routing.py:59-87 | A selected place is that of the named environment, else the one the request names, else where the thread was, else, only for a thread without a location, the default directory; the request then carries one environment at that very place, or none when access is denied. |
| `Routing.ConsiderPlaces` | tools/executor/app_server_routing.py:89-128 | A request is turned away if and only if it is not proper, and otherwise carries environments exactly if it is a start and proposes a place exactly if it is a start or names a new directory. |
| `Routing.SuccessLeads` | tools/executor/app_server_routing.py:130-163 | Over every trace: a successful answer leaves the thread it is about exactly where the request, as sent, and the answer lead; any other answer leaves every thread alone. |
| `Routing.TurnStays` | tools/executor/app_server_routing.py:59-163 | A successful turn that names no directory, roots or environment leaves its thread's directory, access and roots as they were when it was sent; missing roots become the directory itself. |
| `Routing.PlacesGrounded` | tools/executor/app_server_routing.py:17-163 | With an absolute default directory every thread of every trace is in an absolute directory with absolute roots. |
| `Routing.Absolute` | tools/executor/app_server_routing.py:17-22 | A path is accepted if and only if it is a string that starts with a slash and holds no zero character, and then as it is. |
| `Routing.RetargetFollows` | tools/executor/app_server_routing.py:36-39 | Changing directory replaces the old one among the roots and keeps the others, each once, in order of first appearance; staying changes nothing. |
| `Routing.DistinctIsOnce` | tools/executor/app_server_routing.py:39-39 | Duplicates are dropped, nothing else, in the order of first appearance. |
| `Routing.AppendSent` | tools/executor/app_server_routing.py:127-127 | Sending changes no location and makes one id outstanding. |
| `Routing.AppendAnswer` | tools/executor/app_server_routing.py:141-162 | An answer settles one id with the location its request proposed when it was sent. |
| `Routing.AppendNotice` | tools/executor/app_server_routing.py:131-140 | A notification moves a known thread and touches no outstanding request. |
| `Routing.ReenabledWhen` | tools/executor/app_server_routing.py:130-163 | A message gives a disabled thread access again if and only if it answers, successfully and for that thread, a request that named an environment or was sent (for resume and fork: is answered) for a thread that is not disabled. |
| `Routing.StaysDisabled` | tools/executor/app_server_routing.py:59-163 | While the answers about a thread are to requests for it, sent since it was disabled and naming no environment, it stays disabled. |
| `Routing.NoneOutstandingStaysDisabled` | tools/executor/app_server_routing.py:59-163 | In a caller's terms: with no request for a disabled thread outstanding, later ones naming no environment, and answers naming the thread asked for, it stays disabled however those requests overlap. |
| `Routing.OverlapReenables` | tools/executor/app_server_routing.py:89-163 | Without that order the promise fails, on a trace the router lets through: two overlapping turns re-enable a disabled thread although no request named an environment. |
| `Routing.ForkReenables` | tools/executor/app_server_routing.py:148-160 | It also fails, on a trace the router lets through, when a fork of a thread with access is answered with the disabled thread's id. |
| `Multiplexer.Relay.Drive` | tools/executor/host_rpc_mux.py:58-130 | Over every interleaving, each move having its exact effect: both servers get exactly their lines in order; the client gets nothing but one initialize response and an order-preserving merge of main's lines and the host's responses and listed notifications; nothing a child wrote after its own initialize response precedes the published one; and the client's side has closed only for the end of its input, an unreadable line, a child's end before its response, or an error response. |
| `Multiplexer.Relay.TakeClient` | tools/executor/host_rpc_mux.py:84-101 | The first initialize and `initialized` go to both, every other line to its destination; the end or an unreadable line closes the client's side. |
| `Multiplexer.Relay.GatherResponses` | tools/executor/host_rpc_mux.py:91-91 | Publication waits for both responses and is given up if one will never come. |
| `Multiplexer.Relay.PublishResponse` | tools/executor/host_rpc_mux.py:92-93 | Exactly one response is published, after both arrived. |
| `Multiplexer.Relay.AnnounceInitialized` | tools/executor/host_rpc_mux.py:94-97 | The children go on only after publication, and the client's side closes if and only if one of the two responses is an error. |
| `Multiplexer.Relay.NeverClosed` | tools/executor/host_rpc_mux.py:81-103 | With two good responses the client's side closes only at the end of its input or at a line that cannot be read. |
| `Multiplexer.Relay.ServeNext` | tools/executor/host_rpc_mux.py:81-101 | With two good responses in and readable input, the client's next line always gets to where it belongs. |
| `Multiplexer.Relay.NextLine` | tools/executor/host_rpc_mux.py:106-126 | A child's next line, branch by branch as the code decides. |
| `Multiplexer.DestinationIs` | tools/executor/host_rpc_mux.py:32-43 | The host gets exactly the host operations and the questions about the local environment. |
| `Multiplexer.Relay.TakeChild` | tools/executor/host_rpc_mux.py:108-130 | A child's next line is held, forwarded, dropped or ends the child as the code decides, keeping order and barrier. |
| `Multiplexer.Relay.WriteLine` | tools/executor/host_rpc_mux.py:117-125 | The line in hand is the next one the client gets from that child. |
| `Multiplexer.Relay.ReleaseChild` | tools/executor/host_rpc_mux.py:115-116 | A held child resumes only after the announcement. |
| `Multiplexer.Choose` | tools/executor/host_rpc_mux.py:92-92 | The published response is main's unless only the host's is an error; so it is an error if and only if either is one. |
| `Multiplexer.AdvanceGood` | tools/executor/host_rpc_mux.py:106-130 | Taking a line keeps the merge and the barrier and never forgets a response. |
| `Multiplexer.NothingElse` | tools/executor/host_rpc_mux.py:67-70 | The client's stream consists of the published response and children's lines only. |
| `Multiplexer.EligibleInOrder` | tools/executor/host_rpc_mux.py:106-130 | A child's forwarded lines are strictly increasing positions of its own stream. |
| `ContextBlock.LastBlockWins` | tools/context/foldgpt_agent_context.py:133-147 | Merging a block and then any other is merging the other into the original, with the same failure; merging twice is merging once. |
| `ContextBlock.OneBlock` | tools/context/foldgpt_agent_context.py:133-147 | After a merge each marker occurs exactly once, where the new block was put, and the budget holds. |
| `ContextBlock.OutsideIsKept` | tools/context/foldgpt_agent_context.py:133-147 | Everything outside the old block is kept byte for byte, up to one separating line feed when there was none. |
| `ContextBlock.LocateMerged` | tools/context/foldgpt_agent_context.py:134-144 | In a text with one rendered block, counting and searching find exactly that block. |
| `ContextBlock.LocateSurrounds` | tools/context/foldgpt_agent_context.py:134-144 | What is found around a block never holds a marker. |
| `ContextBlock.MarkerFreeMerges` | tools/context/foldgpt_agent_context.py:136-137 | A text without markers is always merged into, within the budget: the block goes at its end, on a new line. |
| `ContextBlock.BlockIsReplaced` | tools/context/foldgpt_agent_context.py:138-144 | A text with one block on its own lines is always merged into, within the budget: the new block takes exactly the old one's place. |
| `ContextBlock.OnlyTheseMerge` | tools/context/foldgpt_agent_context.py:133-147 | Nothing else is merged into. |
| `ContextBlock.OwnMarkers` | tools/context/foldgpt_agent_context.py:109-130 | No marker straddles a joint: each occurrence is one of the block's own two. |
| `ContextBlock.MarksAreSharp` | tools/context/foldgpt_agent_context.py:17-18 | The two marker strings open with `<` only once, hold no line feed and differ, which is all the laws need. |
| `ContextBlock.CountOne` | tools/context/foldgpt_agent_context.py:134-134 | `count` is one exactly when the first occurrence is the only one. |
| `ContextBlock.CountZero` | tools/context/foldgpt_agent_context.py:134-136 | `count` is zero exactly when there is none. |
| `ContextBlock.Home.Synchronize` | tools/context/foldgpt_agent_context.py:190-209 | A check changes nothing and accepts exactly a home that is in sync; a write succeeds if and only if all it reads is readable, the merge succeeds, a manifest of that name is the same and the result can be read back; it merges into the selected file, leaves the other file and all other manifests alone, and leaves the home in sync for the next check. |
| `KeyboardFocus.Bridge.Drive` | runtime/guest/foldgpt_ime.py:47-200 | Over every interleaving of pages, contexts, signals and worker steps, each having its exact effect, the keyboard is nobody's or belongs to a live context of an attached page, and with the queue empty the last visibility handed over says whether there is an owner. |
| `KeyboardFocus.Bridge.DeliverTo` | runtime/guest/foldgpt_ime.py:132-179 | One page's event leaves every other page as it was and keeps the ownership invariant. |
| `KeyboardFocus.Bridge.LeavePage` | runtime/guest/foldgpt_ime.py:196-198 | A leaving page gives the keyboard up if it had it and takes it from nobody else. |
| `KeyboardFocus.Page.Receive` | runtime/guest/foldgpt_ime.py:160-176 | A signal counts if and only if its context is live and its sequence is newer than the last, so accepted sequences strictly increase; a counted visible signal makes its context the owner, a counted hide clears the owner exactly if it is the owner's or by pointer. |
| `KeyboardFocus.Page.Handle` | runtime/guest/foldgpt_ime.py:132-179 | What every event does to the page's contexts and to the keyboard; only a visible signal can make a new owner, and it is that signal's context. |
| `KeyboardFocus.Page.Forget` | runtime/guest/foldgpt_ime.py:95-98 | Forgetting a context clears exactly its own ownership. |
| `KeyboardFocus.Page.ForgetAll` | runtime/guest/foldgpt_ime.py:154-157 | Forgetting all contexts leaves no owner on the page. |
| `KeyboardFocus.Keyboard.Signal` | runtime/guest/foldgpt_ime.py:55-62 | An accepted signal queues exactly the intent that matches the new owner. |
| `KeyboardFocus.Keyboard.Forget` | runtime/guest/foldgpt_ime.py:64-66 | Only the owner can be forgotten into a hide. |
| `KeyboardFocus.Keyboard.Take` | runtime/guest/foldgpt_ime.py:68-79 | Draining the backlog hands over its last intent and nothing older. |
| `DependencyClosure.Close` | tools/executor/check-gnu-engine-elf.py:74-85 | For every finite graph, cyclic or not, the worklist terminates; the closure is exactly the collected libraries reachable from the binary, with their own records, and missing is exactly the reachable uncollected names, none twice. |
| `DependencyClosure.Visit` | tools/executor/check-gnu-engine-elf.py:77-85 | Every turn discovers a name or shortens the worklist. |
| `DependencyClosure.Complete` | tools/executor/check-gnu-engine-elf.py:77-85 | With nothing pending, every chain of needs leads to something found. |
| `TokenScan.Scan` | tools/executor/native-exec-peer-probe.c:157-190 | The scan fails exactly when a line does not parse, a mapping to be scanned is inverted, too large or unreadable, or the token is not where it is expected; found means that it occurs inside one scanned mapping, and the count is their total length. |
| `TokenScan.ScanAll` | tools/executor/native-exec-peer-probe.c:157-181 | The same for the loop itself: found if and only if the token occurs inside one scanned mapping. |
| `TokenScan.ScanMapping` | tools/executor/native-exec-peer-probe.c:164-177 | In 4096-byte chunks with a carried tail of at most 31 bytes one mapping is searched exactly, for every length, without overrunning the buffer. |
| `TokenScan.WindowSuffices` | tools/executor/native-exec-peer-probe.c:165-177 | An occurrence ends in the new chunk exactly when it lies in the carried tail plus the chunk. |
| `TokenScan.Fill` | tools/executor/native-exec-peer-probe.c:166-169 | The read lands behind the carried tail, inside the buffer. |
| `TokenScan.Carry` | tools/executor/native-exec-peer-probe.c:174-176 | The move keeps the last bytes of the window in order. |

## Left out

- Kernel facilities (Landlock, seccomp delivery, tracing, path resolution, pidfds, descriptor passing) appear as assumed steps only; other writers to the workspace are excluded.
- Permission failures, durability (`fsync`), name length limits of single components and allocation failure: every kernel call does what it says.
- The native helper's plain operations (read, write, metadata, listing, create directories) and `timestamp_ms`: each is one short straight line beside the planned operations.
- The side that builds and authorizes plans is not part of this model; plans are inputs.
- PlannedOperations.PlannedOperation: does not say which error number a refused plan or a failed comparison carries, only the stage, because the order of independent checks decides it.
- Supervision.Supervise: looks at as many passes as the script has, and at as many write calls of a chunk as the pass has, after which the rest of the chunk is taken to be written; so it says nothing about termination in wall time.
- Supervision.ConcludeIsHonest: the report's grant and denial counters, stage and error number are not modelled.
- Signals, process groups and the kill commands of the supervisor are not modelled beyond what can make it stop.
- Filters: of each 64-bit argument only the low word that the tables load; stacking of the two filters and what the listener does with a notification.
- JSON, UTF-8, Base64 and hashing are not modelled: messages arrive decoded with the verdicts of their validation, and a payload's encoding is a byte string or a failure.
- ExecServer.Server.Drive: which notifications a backend may send is not modelled; a backend that raises a cancellation of its own is outside its interface.
- Multiplexer.Relay.Drive: process start, signals, exit codes and the final draining are left out; steps after a failed part are allowed, which only adds interleavings.
- Routing: request ids are integers here and thread ids strings or absent; other JSON values in those places are not modelled.
- ContextBlock.Home.Synchronize: locking, atomic replacement, file ownership and rendering are left out; the promise after a write is for blocks whose body holds no marker.
- KeyboardFocus: the CDP connection, the hook script and the native endpoint's answer.
- The symbol resolution that follows the dependency worklist, deployment, probes, build and site code.
