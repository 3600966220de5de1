# A verified model of a bare-metal kernel's core

The repository is a small AArch64 kernel: an on-device C compiler, actors as processes over a
cooperative scheduler, a first-fit heap, demand paging, a TCP server, rasterisers and an in-memory
file system. This project models the parts that carry the most logic and proves what they are for.

**The compiler** (`cc/codegen.c`, `cc/parse.c`). `Csyntax` is the tree, `Csemantics` a big-step
semantics over byte memory that follows the generator's choices: right operand before left, address
before value, untruncated value of a char assignment, x / 0 = 0, jumps into nested case labels.
`Machine` executes the instructions of `Isa` with registers, SP, memory and a trace of kernel calls.
`CodeSpec` gives the code of each construct with all distances known; `Simulation` proves that it
behaves like the source, and `BigFrame` runs a program at the limit; `Emitter.Generator` is the
one-pass generator with labels, fixups and back-patching, proved to leave exactly that code in its
buffer and to succeed exactly when its tables suffice. `Params` follows arguments into their slots,
`Acceptance` says what the generator refuses. `Grammar`, `ParsePrint` and `ExprParser` do the
expression grammar, `Levels` states it as the source's nonterminals, and `Operators` says what each
operator's tree evaluates to.

**Actors** (`system/actorproc.c`, `system/proc.c`). `ReadyList` is the scheduler on abstract states,
`Proc.Scheduler` the process table with its threaded ready list, `Mailbox.Ring` the message ring.
`StackHeap` runs the scheduler together with the heap its stacks come from, `StackMemory` with the
heap's headers in memory. `Actors` is a transition system whose steps are the sections run with
interrupts masked; handlers may send, call, select, spawn, crash and die at will. `ActorInvariant`
and `ActorRuns` prove what holds in every reachable state, `ActorReplies` where messages and answers
go, and `ActorRounds` that all of it is a legal use of the scheduler.

**Heap, paging, network, graphics, files.** `FreeList` (the list) and `Heap` (its headers, two words
each, in the memory they describe); `Paging`; `Checksum` and `Tcp`; `Raster`; `VfsTree` and `Vfs`.

Where code and comments disagree, the model follows the code. `system/proc.c` documents
`proc_ready` as queueing only blocked processes; it also queues a free slot, and so does the model
(`ReadyList.DeadProcessRuns`). `include/vfs.h` says at line 6 that there are no relative paths; the
walker has them, as line 64 says.

The compiler is right only within limits that the code does not check, and the exact limits are
theorems: frames up to 4095 bytes, member offsets up to 4095, 64 loops and switches inside each
other, 2048 branch fixups per function and 2048 call fixups (further ones are dropped without an
error, and leave wrong words behind).

Other promises that the code keeps only under a condition are stated with that condition, both ways,
and with an input on which they fail. A header has 16 bytes but sizes are rounded to 8, so a heap is
safe from its own headers exactly when all sizes are multiples of 16. Where a header being written
overlaps one being read (single words split off or squeezed in), the model takes loads and stores in
the order in which the source has them. A freed block's end may wrap around 2^64 and pass the
checks. A process that blocks or exits with the heap lock leaves it held. Readying a slot whose
process was killed makes a process run on a stack that was given back. A branch may be patched past
the end of a full code buffer before the overflow is reported, and a break target past the end of
its stack by a program that is accepted. Names over 31 characters are looked up in full but stored
cut. The working directory may be removed.
A select may take the request of a synchronous call, whose caller then waits for ever.

## Model

| member | source | states |
|---|---|---|
| `Isa.DecodeEncode` | cc/codegen.c:45-85 | every instruction the generator emits decodes, from its 32-bit word, to itself |
| `Memory.LoadStoreWord` | cc/codegen.c:64-67 | a 64-bit load sees the last 64-bit store to the same address |
| `Memory.RemainderByMsub` | cc/codegen.c:220-221 | SDIV followed by MSUB is the truncating remainder; dividing by 0 gives 0 and x % 0 gives x |
| `Csyntax.SlotsDisjoint` | cc/codegen.c:428-439 | local slots are disjoint, 8-byte aligned and inside the frame |
| `Csyntax.Matching` | cc/parse.c:679-692 | of two equal case labels the last one in the source is taken |
| `Csyntax.DefaultAt` | cc/codegen.c:390-398 | of two default labels the first one in the source is taken |
| `SimSteps.OpSim` | cc/codegen.c:216-227 | each binary operator's instructions leave the source operator's value mod 2^64 in x0 |
| `Simulation.AddressSim` | cc/codegen.c:166-194 | for every lvalue, start state and fuel: the code of `gen_addr` ends with the lvalue's address in x0, SP and the stack above it as before, and the source's memory |
| `Simulation.ExprSim` | cc/codegen.c:256-335 | for every expression: the code of `gen_expr` ends with the source value in x0, SP and everything above it unchanged, memory and kernel calls as in the source |
| `Simulation.LogicSim` | cc/codegen.c:299-322 | `&&` and `||` evaluate the second operand exactly when the first does not decide, and yield 0 or 1 |
| `Simulation.CallSim` | cc/codegen.c:230-254 | a call evaluates its arguments left to right and returns the callee's value with SP, x29 and pending temporaries intact, nested and recursive calls included |
| `Simulation.ArgsSim` | cc/codegen.c:234-240 | the arguments, evaluated left to right, wait on the stack one above the other |
| `SimCalls.PopArgsSim` | cc/codegen.c:241-241 | the pops put argument i into register i |
| `Simulation.ActivateSim` | cc/codegen.c:441-479 | an activation from its first instruction to RET: parameter i is in its slot, falling off the end returns 0, the caller's frame is restored |
| `Params.SourceParams` | cc/codegen.c:456-466 | in the source semantics: when the body of a called function starts, the slot of parameter i holds argument i, its low byte for a char, and memory differs from the caller's nowhere outside the frame |
| `Params.CodeParams` | cc/codegen.c:441-466 | in the code: from a function's entry with argument i in register i the machine gets to the body with the frame made, every parameter's slot holding its argument and nothing changed from the caller's SP up |
| `Params.SubtractMeans` | cc/codegen.c:456-466 | `sub(int a, int b) { return a - b; }` called with a and b returns a - b mod 2^64 |
| `Params.SubtractRuns` | cc/codegen.c:441-503 | and so does its code, from call to return |
| `Simulation.StmtSim` | cc/codegen.c:337-424 | for every statement, entered at its start or at any of its case labels: the code takes the same exit (end, break, continue, return) with the same memory and kernel calls |
| `Simulation.WhileSim` | cc/codegen.c:360-371 | `continue` in a `while` goes to the condition without asking the loop guard; a guard that answers 0 leaves the loop |
| `Simulation.ForSim` | cc/codegen.c:372-386 | `continue` in a `for` runs the increment and asks the loop guard |
| `Simulation.SwitchSim` | cc/codegen.c:387-404 | dispatch, fall-through, nested case labels, `break` caught and `continue` passed on |
| `Compile.CompiledCallIsCorrect` | cc/codegen.c:441-503 | whole programs, mutual recursion and forward calls included: running the encoded words from a function's entry returns to the caller with the source's value, memory and kernel calls, every other byte unchanged |
| `Correctness.GeneratedCallIsCorrect` | cc/codegen.c:441-503 | the same for the words of the specified code in a 256 KiB buffer, with the conditions the generator itself checks |
| `Correctness.GenerateCorrectly` | cc/codegen.c:481-503 | from source to run: whenever the generator reports success for a program within the limits, the words it leaves in its buffer take every call of every function back to its caller as the source says, `main` at the reported place |
| `Correctness.FrameReservedIffSmall` | cc/codegen.c:452-455 | the prologue moves SP by the frame size exactly when the frame has at most 4095 bytes |
| `Csyntax.Prepended` | cc/parse.c:287-293 | the variable list has the latest declaration first and the parameters last |
| `BigFrame.ValueKeptIffSmall` | cc/codegen.c:441-479 | `main() { char a[n]; int w; int z; w = v; return w + 0; }` from call to return: the source returns v, and so does the code iff n is at most 4064 (a frame of at most 4095 bytes); above that it returns 0 |
| `BigFrame.KeeperAccepted` | cc/codegen.c:481-503 | that program is accepted for every n, all fixups recorded |
| `Correctness.MemberReachedIffNear` | cc/codegen.c:183-186 | a member access reaches the member exactly when its offset is at most 4095 |
| `Encodability.WordsDecode` | cc/codegen.c:116-134 | inside the 256 KiB buffer every word, patched branches included, decodes to the instruction with its true distance |
| `Fuel.ActivateFuel` | cc/codegen.c:441-479 | an activation that has a result has the same result with any larger fuel: fuel is not part of the meaning |
| `Fuel.ExecFuel` | cc/codegen.c:337-424 | the same for statements |
| `Compile.SameStmtSize` | cc/codegen.c:78-85 | code sizes do not depend on the addresses baked in |
| `Emitter.Generator.Emit` | cc/codegen.c:23-36 | appends one word, or sets the overflow flag when fewer than 4 bytes are left |
| `Emitter.Generator.NewLabel` | cc/codegen.c:116 | a label nobody has, or an error when all 2048 are taken |
| `Emitter.Generator.EmitBranch` | cc/codegen.c:119-121 | a branch placeholder and its fixup; with a full table the fixup is dropped without an error |
| `Emitter.Generator.GenAddr` | cc/codegen.c:166-194 | what the patched buffer will hold grows by exactly the lvalue's code; an error for anything that is no lvalue |
| `Emitter.Generator.GenExpr` | cc/codegen.c:256-335 | the same for expressions, with the labels, branch and call fixups it takes |
| `Emitter.Generator.GenCall` | cc/codegen.c:230-254 | errors for more than 8 arguments and unknown functions; a call fixup for the program's own functions |
| `Emitter.Generator.GenChain` | cc/codegen.c:390-397 | labels and compare-and-branch tests for all cases, last case first |
| `Emitter.Generator.GenStmt` | cc/codegen.c:337-424 | the same for statements, with break and continue targets and case labels placed where the code of each case begins; the stack of break targets is overrun iff more than 64 are open at once |
| `Emitter.Generator.AssignOffsets` | cc/codegen.c:430-439 | the offsets and frame size of the layout |
| `Emitter.Generator.GenFunc` | cc/codegen.c:441-479 | label and branch tables start empty, the function's code is appended and all its branches are resolved |
| `Emitter.Generator.ResolveBranches` | cc/codegen.c:123-134 | every recorded branch gets the distance to its label, all labels being placed; a word is patched past the end of the buffer iff a recorded site is not in it |
| `Emitter.Generator.ResolveCalls` | cc/codegen.c:493-497 | every recorded call gets the address of its function |
| `Emitter.Generator.FindFunc` | cc/codegen.c:138-146 | the first function of that name |
| `Patches.PatchedBranch` | cc/codegen.c:119-134 | recording a fixup and patching later leaves the word of the final branch and nothing else changed |
| `Budget.ChargeCat` | cc/codegen.c:31-36 | generating two stretches one after the other succeeds, fails or silently drops fixups exactly as their combination does |
| `Codegen.AfterIs` | cc/codegen.c:487-491 | after i functions: an error iff one is ill formed or does not fit; no fixup lost iff every table sufficed; the code meant so far in either case |
| `Codegen.Generate` | cc/codegen.c:481-503 | success is reported exactly for well-formed programs that fit labels and buffer and have a `main`, unless a break target was written past the end of their stack, which happens iff loops and switches nest more than 64 deep; no patch then went past the buffer; on the kernel's set-up the words are then the specified code iff at most 2048 branches per function and 2048 calls were recorded |
| `Overflow.LossShows` | cc/codegen.c:119-134 | a stretch whose fixup was dropped keeps its placeholder, and a placeholder is never the word the code means |
| `Codegen.PastTheEnd` | cc/codegen.c:119-134 | a `main` of n statements `0;` and a return is patched past the end of the 256 KiB buffer iff n is at least 16383, before it is refused |
| `Codegen.TooDeep` | cc/codegen.c:107-110 | a `main` of n nested loops, accepted for n up to 1000, writes a break target past the end of their stack iff n exceeds 64 |
| `Codegen.ReturnsOverflow` | cc/codegen.c:119-121 | `main` with n return statements is accepted for n up to 10000, and fits the branch table iff n is at most 2048 |
| `Acceptance.ExprAccepted` | cc/codegen.c:166-335 | the generator takes an expression iff no part of it stores into, takes the address of or takes a member of something without an address, has more than 8 arguments or calls an unknown function |
| `Acceptance.BodyAccepted` | cc/codegen.c:337-424 | it takes a function body iff no expression in it is at fault, no `break` is outside loops and switches and no `continue` outside loops |
| `ParsePrint.ParsePrinted` | cc/parse.c:419-604 | parsing the tokens of any well-typed expression, printed with minimal parentheses, consumes exactly those tokens and returns its desugared tree |
| `ParsePrint.ReadBack` | cc/parse.c:532-602 | the same at every precedence level and before any continuation: binaries group to the left, assignment to the right |
| `Levels.LevelsAreGrammar` | cc/parse.c:418-604 | the parser is the source's ten nonterminals, each with its own operators and nodes written out: precedence, grouping, `a > b` as `b < a`, pointer scaling, desugared indexing and members |
| `Levels.Grouping` | cc/parse.c:532-591 | for any two operators and any operands, `a o b p c` groups to the tighter of the two, and to the left within a level |
| `Operators.ArithmeticMeans` | cc/codegen.c:211-221 | the tree of `*`, `/`, `%`, `+`, `-` on numbers has the value of that operator on signed numbers mod 2^64; quotients round toward zero, x / 0 = 0, x % 0 = x |
| `Operators.ComparisonMeans` | cc/parse.c:555-577 | the tree of each comparison has 1 or 0 as the signed numbers compare, `>` and `>=` included |
| `Operators.LogicMeans` | cc/codegen.c:299-322 | `&&` and `||` give 0 or 1, and the right operand matters only if the left one leaves it open |
| `Operators.PointerMeans` | cc/parse.c:316-345 | pointer + n, n + pointer and pointer - n move by n elements; number - pointer is refused |
| `Operators.PointersMean` | cc/parse.c:317-351 | the difference of two pointers into one array is the number of elements between them; their sum is refused |
| `Operators.PrefixMeans` | cc/parse.c:501-515 | `-`, `!`, `+` and `sizeof` |
| `Operators.DerefMeans` | cc/parse.c:516-528 | `*p` is the place p points to, `&x` the address of x |
| `Operators.IndexMeans` | cc/parse.c:463-472 | `a[i]` is the place i elements on from a |
| `Operators.MemberMeans` | cc/parse.c:473-495 | `s.m` and `p->m` are the places at the member's offset |
| `Operators.PlacesMean` | cc/codegen.c:166-194 | where each lvalue is |
| `Operators.AssignMeans` | cc/codegen.c:269-277 | an assignment stores the low byte into a char and eight bytes, least significant first, into anything else, touches nothing more, and has the value stored untruncated |
| `ExprParser.Cursor.Primary` | cc/parse.c:418-456 | the cursor version of primaries and calls agrees with the grammar |
| `ExprParser.Cursor.Postfix` | cc/parse.c:458-499 | indexing, `.` and `->`, in a loop over the cursor |
| `ExprParser.Cursor.Unary` | cc/parse.c:501-530 | prefix operators |
| `ExprParser.Cursor.Binary` | cc/parse.c:532-591 | the six left-associative levels |
| `ExprParser.Cursor.AssignExpr` | cc/parse.c:593-602 | assignment groups to the right |
| `ReadyList.ApplyOk` | system/proc.c:163-338 | create, ready, yield, preempt, block, exit, kill and the lock keep: queue = ready processes without duplicates, one running process besides NULLPROC, owner runnable, stacks owned once |
| `ReadyList.RunOk` | system/proc.c:83-452 | hence in every state of every run |
| `ReadyList.RunsWithin` | system/proc.c:254-278 | the process at position k of the ready list runs within k+1 dispatches unless killed |
| `ReadyList.StepForward` | system/proc.c:83-124 | no operation moves a queued process back |
| `ReadyList.RunningStackKept` | system/proc.c:176-183 | no operation frees the stack of a running process that has one |
| `ReadyList.BackedIff` | system/proc.c:230-248 | an operation leaves every process with a stack iff it does not ready a free slot that has none |
| `ReadyList.BackedRunIff` | system/proc.c:163-452 | all along a run every process has a stack iff the run never readies such a slot |
| `ReadyList.RunningStackLive` | system/proc.c:163-452 | hence after every such run from boot the running process stands on a stack that was not given back |
| `ReadyList.DeadProcessRuns` | system/proc.c:230-248 | create, kill, ready, yield: every step is allowed, and a process runs whose stack has been given back |
| `ReadyList.StacksBounded` | system/proc.c:163-228 | the outstanding stacks are exactly those the slots hold, at most NPROC |
| `ReadyList.BlockOk` | system/proc.c:319-338 | blocking keeps all that iff it does not leave the lock with a process that waits |
| `ReadyList.ExitOk` | system/proc.c:430-452 | exiting keeps all that iff it does not leave the lock with a process that is gone |
| `ReadyList.LockKeeps` | system/proc.c:358-417 | lock, unlock and full release keep: depth > 0 iff owned, owner neither waiting nor free |
| `ReadyList.NestedRelease` | system/proc.c:358-396 | releasing once undoes a nested acquisition |
| `ReadyList.AcquisitionsCount` | system/proc.c:358-396 | from a free lock n acquisitions hold it to depth n, the owner keeps it until the n-th release, and then everything is as it was |
| `ReadyList.OthersLock` | system/proc.c:358-408 | nobody takes or gives up what another holds; giving up everything hands back the depth |
| `ReadyList.Created` | system/proc.c:163-228 | a new process is in the lowest free slot and last in the queue, with its stack; nobody else notices; without a slot or a stack nobody is made |
| `ReadyList.Killed` | system/proc.c:298-317 | a killed process has no slot, no place in the queue, no lock and no stack; the others keep theirs |
| `ReadyList.Yielded` | system/proc.c:254-278 | the first of the queue runs and the one that yielded is last |
| `ReadyList.Stopped` | system/proc.c:319-338 | the first of the queue runs, NULLPROC if there is none, and the one that blocked or exited is waiting or free |
| `ReadyList.Readied` | system/proc.c:230-248 | a waiting process is last in the queue; one that is ready or runs stays as it is |
| `Proc.Scheduler.ReadyPush` | system/proc.c:83-92 | appends to the threaded list |
| `Proc.Scheduler.ReadyPop` | system/proc.c:94-102 | takes the head of the threaded list |
| `Proc.Scheduler.ReadyRemove` | system/proc.c:104-124 | unlinks a slot anywhere in the threaded list |
| `Proc.Scheduler.ProcCreate` | system/proc.c:163-228 | lowest free slot, a stack left behind is freed first, the new process is queued |
| `Proc.Scheduler.ProcReady` | system/proc.c:230-248 | queues a blocked process, nothing for one that is ready or running |
| `Proc.Scheduler.ProcResched` | system/proc.c:254-278 | yield |
| `Proc.Scheduler.ProcPreempt` | system/proc.c:285-296 | the timer takes the processor from a real process when preemption is on, due and not suppressed |
| `Proc.Scheduler.ProcKill` | system/proc.c:298-317 | reaps: off the list, lock released, stack freed once |
| `Proc.Scheduler.ProcBlock` | system/proc.c:319-338 | waits, and hands over to the next ready process or NULLPROC; in shape afterwards iff the lock was not left behind |
| `Proc.Scheduler.ProcExit` | system/proc.c:430-452 | frees the slot but not the stack it still runs on; in shape afterwards iff the lock was not left behind |
| `Proc.Scheduler.TryLock` | system/proc.c:358-386 | one round of the spin: take a free or own lock, else yield |
| `Proc.Scheduler.AiplUnlock` | system/proc.c:388-396 | one level less, free at the last |
| `Proc.Scheduler.AiplUnlockAll` | system/proc.c:398-408 | released entirely, returning the depth |
| `Mailbox.Ring.Enqueue` | system/actorproc.c:114-120 | appends to the ring, refused exactly when 63 messages are in it |
| `Mailbox.Ring.Dequeue` | system/actorproc.c:147-148 | removes the oldest |
| `Mailbox.Ring.Select` | system/actorproc.c:168-185 | removes the oldest message with a wanted method |
| `Mailbox.Ring.CloseGap` | system/actorproc.c:173-180 | the shifting loop closes the gap and keeps the order of the rest |
| `Mailbox.RemoveKeepsRest` | system/actorproc.c:173-180 | removing one message loses only that one and keeps the order |
| `ActorSlot.Slot.Post` | system/actorproc.c:100-123 | enqueue and wake as one section; which of the drop reasons applies |
| `ActorSlot.Slot.Receive` | system/actorproc.c:139-152 | take the oldest, or flag and block in one section |
| `ActorSlot.Slot.Choose` | system/actorproc.c:161-196 | take the oldest wanted, or release the lock, flag and block |
| `ActorInvariant.StepOk` | system/actorproc.c:100-242 | every step an actor's process can make keeps the invariant: wait flags, wakeups, lock ownership, outstanding calls, message counts |
| `ActorInvariant.EnvOk` | system/actorproc.c:255-291 | so does every step of other processes, the timer, spawning and exiting |
| `ActorInvariant.PostOk` | system/actorproc.c:100-123 | so does posting: accepted or counted in exactly one drop counter |
| `ActorInvariant.PostRevivesNobody` | system/actorproc.c:121-121 | posting readies only waiting processes, never a slot that lost its stack |
| `ActorInvariant.NoLostWakeup` | system/actorproc.c:139-196 | a live actor waits iff its flag is set, and then its mailbox holds nothing it would accept |
| `ActorInvariant.OneHandlerAtATime` | system/actorproc.c:207-229 | two actors are never inside handlers with the heap lock together |
| `ActorInvariant.ReplyMeansCall` | system/actorproc.c:130-137 | a reply lies only in the mailbox of the actor that is blocked in that very call |
| `ActorInvariant.OneOutstanding` | system/actorproc.c:130-137 | an actor has at most one request or reply outstanding |
| `ActorRuns.AlwaysOk` | system/actorproc.c:198-242 | the invariant holds along every run |
| `ActorRuns.CallValue` | system/actorproc.c:130-137 | in every run, the value `ap_call` returns is what the handler of that same call returned, or the crash sentinel |
| `ActorRuns.CallReturnsItsResult` | system/actorproc.c:161-185 | the message that ends a call carries the result recorded for it |
| `ActorRuns.ResultsComeFromHandlers` | system/actorproc.c:214-228 | a result is recorded once, by the handler that took the request, returning or crashing |
| `ActorRuns.RecvTakesNoReply` | system/actorproc.c:139-152 | `ap_recv` never takes a reply |
| `ActorRuns.ParkThenRestore` | system/actorproc.c:186-194 | in every run from an actor's giving up the lock in a select or call to its restoring it, whatever others did in between: its process owns the lock to the depth it had, at the point of the handler where it was |
| `ActorRuns.OthersKeepCtl` | system/actorproc.c:100-291 | no step of anyone else moves an actor's process along, takes its slot or its process |
| `ActorRuns.LeaveUnlocks` | system/actorproc.c:229-229 | leaving a handler, after a crash too, frees the lock entirely |
| `ActorRuns.Sweep` | system/actorproc.c:379-398 | the pump's sweep reports busy iff some live actor has undelivered mail or has not settled |
| `ActorRuns.BusyIff` | system/actorproc.c:384-398 | an actor counts as busy iff it is live and does not wait |
| `ActorRuns.QuietMeansDrained` | system/actorproc.c:379-408 | when the pump stops for lack of work no live actor has a message it would take |
| `ActorRuns.ReachableWakeups` | system/actorproc.c:139-196 | in every state reachable from boot: a live actor's process waits iff its flag is set, and none sleeps on a message it would accept |
| `ActorRuns.ReachableHandlers` | system/actorproc.c:207-229 | in every such state: one handler at a time |
| `ActorRuns.ReachableCalls` | system/actorproc.c:130-137 | in every such state: one outstanding request or reply per caller, that of the call it is in |
| `ActorRuns.ReachableCounts` | system/actorproc.c:100-123 | in every such state: posts = taken + discarded with a slot + queued + dropped, each drop for one counted reason |
| `ActorRuns.ReachableQuiet` | system/actorproc.c:379-408 | in every such state: a sweep that finds nothing busy leaves no message an actor would take |
| `ActorReplies.PostDelivers` | system/actorproc.c:100-123 | a message to a live actor with room is the newest in its mailbox, and the reader is ready if it waited; nobody else notices |
| `ActorReplies.PostDrops` | system/actorproc.c:93-116 | any other message changes nothing but the drop counter of its reason |
| `ActorReplies.ReplyPosted` | system/actorproc.c:214-228 | the end of a handler, by return or crash, puts the reply with its value into the caller's mailbox and readies the caller, or counts the drop if that mailbox is full; the caller is another live actor still in that call |
| `ActorReplies.CallPosted` | system/actorproc.c:130-137 | a call puts its request, to be answered to the caller, into the callee's mailbox, or counts the drop; the caller then waits for a reply only |
| `ActorReplies.SendPosted` | system/actorproc.c:125-128 | a send puts its message, to be answered to nobody, into the mailbox, or counts the drop |
| `ActorReplies.RecvTakesOldest` | system/actorproc.c:139-152 | reading takes the oldest message |
| `ActorReplies.ScanTakesOldest` | system/actorproc.c:161-185 | a select takes the oldest message it wants and leaves the rest in order |
| `ActorReplies.NestThenUnnest` | system/proc.c:358-396 | inside a handler, taking the lock again and releasing it once restores the state |
| `ActorReplies.ItemsFlow` | system/actorproc.c:100-242 | requests and replies are conserved: what is outstanding after any step was so before or came with it, and what is no longer was taken, finished or discarded by it |
| `ActorReplies.CallsAccounted` | system/actorproc.c:100-291 | in every run from a state without calls: an actor in a call has the handler's result as a reply in its mailbox once that handler is over, and before that somebody has its request, unless the request or reply was dropped, discarded with a dead actor's slot, or taken by a select; drops and discards are in the counters |
| `ActorReplies.LostCallNeverReturns` | system/actorproc.c:130-137 | a call whose request and reply are gone never returns, whatever anybody does |
| `ActorReplies.SelectedCallNeverReturns` | cc/cc.c:571-581 | a select that takes the request of a synchronous call answers nobody: its caller waits for ever |
| `ActorReplies.MailInOrder` | system/actorproc.c:88-152 | in every run in which an actor does not select, its mail is taken in the order in which it was accepted |
| `ActorRounds.MoveIsOps` | system/actorproc.c:100-291 | every step of the actor system is a legal series of scheduler operations |
| `ActorRounds.RunIsLegal` | system/actorproc.c:100-291 | hence every run of it is a legal run of the scheduler, whose theorems apply |
| `ActorRounds.ReadyProcessRuns` | system/proc.c:254-278 | a process at position k of the ready queue gets to run in every run of the actor system with more than k hand-overs, unless killed |
| `ActorRounds.Round` | system/actorproc.c:198-242 | a running actor with mail and a free lock can take its oldest message, handle it, answer and read on; the lock is free again |
| `ActorRounds.SuicideEnds` | system/actorproc.c:231-240 | an actor that kills itself in a handler gives up its slot at the end of it and its process exits |
| `ActorRounds.SelectTakes` | system/actorproc.c:161-185 | a handler that selects takes the oldest message it wants and goes on with the one in hand |
| `ActorRounds.Spawned` | system/actorproc.c:255-291 | a new actor is live, in the lowest slot nobody has, with an empty mailbox and its process last in the ready queue |
| `FreeList.CarveOk` | mem/memory.c:32-61 | an allocation keeps the list sorted, disjoint, non-adjacent and in the heap, and takes exactly its bytes off the total |
| `FreeList.CarveCovers` | mem/memory.c:40-57 | exactly the allocated bytes stop being free |
| `FreeList.AcceptsIffUsed` | mem/memory.c:66-84 | a block is accepted back exactly when it lies in the heap and none of its bytes is free |
| `FreeList.InsertOk` | mem/memory.c:86-105 | freeing with coalescing keeps the list in shape and adds its bytes to the total |
| `FreeList.InsertCovers` | mem/memory.c:86-103 | exactly the freed bytes become free |
| `FreeList.Canonical` | mem/memory.c:63-107 | the list is determined by which bytes are free |
| `FreeList.FreeUndoesAlloc` | mem/memory.c:32-107 | freeing what was just allocated restores the list exactly |
| `FreeList.OrderDoesNotMatter` | mem/memory.c:63-107 | freeing the same blocks in any order succeeds alike and gives the same list |
| `FreeList.FreeAllIff` | mem/memory.c:63-107 | a series of frees goes through iff its blocks are in use, in the heap, distinct and disjoint |
| `FreeList.GetKeepsShared` | mem/memory.c:32-61 | free and live blocks share out the heap, every byte to exactly one: kept by allocating |
| `FreeList.FreeKeepsShared` | mem/memory.c:63-107 | and by freeing any live block, which is always accepted |
| `FreeList.AlwaysShared` | mem/memory.c:32-107 | so free and live blocks share out the heap after every run of takes and gives from a fresh heap |
| `FreeList.GrantedIffNotHuge` | mem/memory.c:32-61 | a granted request really leaves the free list iff its size did not wrap when rounded |
| `Heap.FirstFitHeap.constructor` | mem/memory.c:15-30 | one free block spanning the rounded heap |
| `Heap.FirstFitHeap.Getmem` | mem/memory.c:32-61 | first fit over two-word headers that lie in the memory they describe: the headers still spell out the list iff no single word was split off a longer block; memory in use is left alone but for the word after an 8-byte remainder, and without exception where all sizes are multiples of 16 |
| `Heap.FirstFitHeap.Freemem` | mem/memory.c:63-107 | which blocks pass the checks, their end computed mod 2^64; for whole words that do not wrap the list with the block merged in, spelt out by the headers iff no single word was squeezed in before a free block; memory in use is left alone but for the word after an 8-byte block |
| `Heap.HeadersSurviveIff` | include/memory.h:6-9 | no write to memory in use can break the list iff every free block has at least 16 bytes |
| `Heap.HeadersFitIff` | mem/memory.c:47-56 | where all lengths are multiples of 16, wherever the heap starts, every remainder holds its header iff the rounded size is a multiple of 16 |
| `Heap.TakeSixteens` | mem/memory.c:40-57 | allocating multiples of 16 keeps that layout |
| `Heap.PutSixteens` | mem/memory.c:86-103 | so does freeing them, and no block is squeezed in |
| `Heap.UndoIsSafe` | mem/memory.c:32-107 | freeing what was just allocated goes wrong only where allocating it already did |
| `Heap.LiveWordLost` | mem/memory.c:47-56 | a 48-byte heap: getmem(24) twice, freemem of the first, getmem(16) puts 8 into the first word of the second block |
| `Heap.OneWordLost` | mem/memory.c:47-56 | getmem(8) on a fresh 48-byte heap leaves a free block that claims 2^64 - 8 bytes |
| `Heap.AcceptedIffNoWrap` | mem/memory.c:66-84 | an accepted block really lies in the heap with none of its bytes free iff its end does not wrap around 2^64 |
| `Heap.WrappingFree` | mem/memory.c:66-96 | with the whole heap in use, its first address is taken back with a length that runs past the end of the heap |
| `Heap.FirstFitHeap.LargestBlock` | mem/memory.c:112-121 | the largest free block |
| `StackHeap.StepOk` | system/proc.c:163-228 | scheduler and heap together, other heap users included: a new stack is no block in use, every slot remembers its stack's length, every block given back is one handed out and is accepted |
| `StackHeap.RunsAreLegal` | system/proc.c:163-317 | hence along every run of both; the scheduler's share of it is a legal run, so that its theorems hold with the heap's blocks |
| `StackHeap.RunningStackUnfreed` | system/proc.c:163-317 | from boot on a fresh heap, along every run that readies no slot without a stack: no byte of the running process's stack is free |
| `StackHeap.SpawnServed` | system/proc.c:163-228 | with a free slot and a free block large enough a process is made in the lowest slot, on a stack of at least the size asked for |
| `StackHeap.NothingLeaks` | system/proc.c:163-317 | along every run of scheduler and heap no byte is lost: each is free or in a block still handed out |
| `StackMemory.NextOk` | system/proc.c:163-317 | the same over the heap's memory, for sizes that are multiples of 16: every step keeps the headers in order and writes no word of a block that stays handed out |
| `StackMemory.WordKept` | system/proc.c:163-317 | hence along every run, other users' writes included: a word of a stack keeps its value until it is written or the stack is given back |
| `StackMemory.MemoryAlwaysOk` | system/proc.c:163-317 | in every state reached from boot the headers spell out the free list |
| `StackHeap.TakeOk` | mem/memory.c:32-61 | a block taken overlaps none handed out |
| `StackHeap.GiveOk` | mem/memory.c:63-107 | a block handed out is accepted back, and the others stay as they were |
| `Paging.LeafDecodes` | system/mmu.c:63-71 | a leaf descriptor points where it was told to, carries exactly the permissions it was given, and is a valid, accessed, inner shareable page of normal memory |
| `Paging.FreshFrameUnseen` | system/mmu.c:288-291 | mapping a page to a zeroed frame nobody has changes nothing any program sees |
| `Paging.DemandPager.constructor` | system/mmu.c:255-267 | every leaf of the window invalid |
| `Paging.DemandPager.Fault` | system/mmu.c:276-297 | maps the page to a fresh zeroed frame; mappings never change; refused outside the window or without frames, leaving all mappings as they were |
| `Paging.DemandPager.Replay` | system/mmu.c:235-297 | any series of loads and stores touching at most 512 pages returns what flat zero-filled memory returns |
| `Checksum.Fold` | system/tcp_server.c:51 | folding keeps the sum mod 0xFFFF and is 0 only for 0 |
| `Checksum.IpChecksum` | system/tcp_server.c:43-53 | the complement of the folded word sum, odd lengths included |
| `Checksum.TcpChecksum` | system/tcp_server.c:55-74 | the same over pseudo-header and segment |
| `Checksum.ComplementPasses` | system/tcp_server.c:50-53 | a sum plus its complement folds to 0xFFFF |
| `Checksum.PseudoHeader` | system/tcp_server.c:55-74 | what is added for the pseudo-header is the word sum of its bytes |
| `Checksum.OddLast` | system/tcp_server.c:43-53 | an odd last byte counts as if a zero followed |
| `Checksum.BuildFrame` | system/tcp_server.c:352-429 | every frame passes the receiver's IP and TCP checks for every payload, and carries every field of its three headers, payload and zero padding where they belong |
| `Tcp.AppendKeepsPrefix` | system/tcp_server.c:1778-1784 | appending what fits of an in-order segment keeps the buffer a prefix of the peer's stream |
| `Tcp.TcpServer.FindConn` | system/tcp_server.c:125-139 | the active connection with that peer |
| `Tcp.TcpServer.Open` | system/tcp_server.c:1719-1751 | a SYN opens a connection in the lowest free slot and is answered with its number plus one; other segments open nothing, a full table counts the SYN |
| `Tcp.TcpServer.Receive` | system/tcp_server.c:1767-1826 | the whole new state and the answer, for reset, data and end: bytes are added exactly when they come at the number expected and as far as there is room, everything received is acknowledged, a whole request is handed over iff the worker is idle, one that filled the buffer is refused; the buffer stays a prefix of the peer's stream |
| `Tcp.TcpServer.HandleSegment` | system/tcp_server.c:1717-1850 | the whole new state and the answer, for every state of the peer's connection or none; a buffer stays a prefix of its peer's stream as long as the segments that reached it were the peer's, and no connection's request is handed over twice |
| `Tcp.TcpServer.QueueToApp` | system/tcp_server.c:1603-1614 | the request handed over is the buffer of a connection that was never handed over before |
| `Tcp.TcpServer.DrainPending` | system/tcp_server.c:1616-1632 | an idle worker gets the waiting request of the lowest slot; it stays idle only if none waits |
| `Tcp.TcpServer.Serve` | system/tcp_server.c:1603-1850 | any series of segments, worker starts and ends and responses: no connection is handed over twice, every request handed over is whole, and what the peer sent first if its segments were its own; every event does what `Stepped` says |
| `Tcp.TcpServer.Flush` | system/tcp_server.c:1634-1657 | the whole new state: response and end go out on the connection unless that is over, which leaves ESTABLISHED and so cannot be served again; then the next waiting request is handed over |
| `Tcp.RequestHandedOver` | system/tcp_server.c:1767-1821 | an honest peer's request that arrives in order, with any other events in between as long as the worker is idle, is handed over whole by the segment that makes it whole |
| `Tcp.AlwaysSettled` | system/tcp_server.c:1616-1657 | through every series of events no whole request is left waiting for an idle worker |
| `Raster.Segment` | device/video/video.c:320-335 | max(|dx|,|dy|)+1 eight-connected points, each within half a pixel of the line; the target is reached exactly when the longer side is below 8192 |
| `Raster.Ring` | device/video/video.c:337-356 | octant points satisfy |x^2+y^2-r^2| <= x, one per row down to the diagonal; the pixels are the eight mirror images of each, all on the ring |
| `Raster.RingStep` | device/video/video.c:350-354 | one step keeps the point within its band |
| `Raster.MirrorsAreAll` | device/video/video.c:342-349 | the eight points drawn are exactly the images of the octant point under swapping its coordinates and changing their signs |
| `VfsTree.PathResolves` | fs/vfs.c:198-279 | the path printed for a node resolves to that node |
| `VfsTree.NamesLeadHome` | fs/vfs.c:205-236 | walking down a node's names from the root arrives at it: every node is reachable |
| `VfsTree.SplitJoined` | fs/vfs.c:205-216 | splitting a printed path gives its names back |
| `VfsTree.ComponentsJoin` | fs/vfs.c:205-236 | a slash between two paths puts their components one after the other |
| `VfsTree.RelativeIsJoined` | fs/vfs.c:198-246 | a relative path resolves as the working directory's path with it appended |
| `VfsTree.DotDot` | fs/vfs.c:225-228 | a node's path followed by `..` resolves to its parent, the root's to the root |
| `VfsTree.UpAndDown` | fs/vfs.c:225-234 | a directory's path followed by `.` or a child's name resolves to it or the child, and the child's followed by `..` back |
| `VfsTree.AddOk` | fs/vfs.c:69-109 | adding keeps links, sibling names and acyclicity; one node more |
| `VfsTree.DropOk` | fs/vfs.c:281-312 | removing a leaf does too; one node less |
| `Vfs.FileSystem.FindChild` | fs/vfs.c:60-67 | the child of that name, if any |
| `VfsTree.AddIff` | fs/vfs.c:69-109 | adding keeps the tree in shape iff the name is a proper one that no sibling has |
| `Vfs.FileSystem.Create` | fs/vfs.c:69-109 | fails exactly on a non-directory, a name collision or no memory; stores at most 31 characters of the name, and the tree stays in shape iff those are a proper name that no sibling has |
| `Vfs.Twins` | fs/vfs.c:69-109 | a name over 31 characters can be created twice in one directory |
| `Vfs.FileSystem.Remove` | fs/vfs.c:293-312 | removes exactly files, or empty directories other than the root; the working directory is lost iff it is the one removed |
| `Vfs.WorkingDirectoryLost` | fs/vfs.c:186-312 | nothing stops the working directory from being removed |
| `Vfs.FileSystem.ResolveWalk` | fs/vfs.c:198-252 | the character-level walker computes the component walk, `.` and `..` included, and the parent form hands back a proper name |
| `Vfs.FileSystem.PathOf` | fs/vfs.c:254-279 | the node's absolute path, refused exactly when deeper than 32 or too long |
| `Vfs.FileSystem.PathAndBack` | fs/vfs.c:242-279 | printing a node's path and resolving the text gives the node back, wherever the working directory is |
| `Vfs.FileSystem.MakeAt` | shell/fscmd.c:104-112 | making a node at a path keeps the tree in shape, fails exactly where the parent does not resolve, the name is taken or there is no memory, and afterwards the path resolves to the new node |

## Left out

- Struct-valued loads, assignments and parameters, `sizeof` of a type name, declarations, typedefs and statement parsing; the compiler theorems start from resolved variables.
- Kernel functions that read or write the program's memory: a kernel call has arguments, a result and a place in the trace, and clobbers the caller-saved registers.
- Source programs that read uninitialised bytes, leave their memory or run out of stack: they have no meaning in `Csemantics`, and nothing is claimed about their code.
- Emitter.Generator.GenStmt: where the stack of break targets was overrun (`over`) the rest of the contract is as if it were longer; what the write destroys is not followed.
- Codegen.Generate: nothing is promised once the stack of break targets was overrun, except that it was.
- Correctness.GenerateCorrectly: for programs whose loops and switches nest at most 64 deep.
- Emitter.Generator.GenFunc: as `GenStmt`; the correctness theorems also ask for at most 8 parameters.
- Cache maintenance, the jump into the buffer, flags other than those the emitted conditions look at, and the code buffer as part of data memory.
- Emitter.Generator.ResolveBranches: of a word patched past the end of the buffer the model keeps only that it happened, not what it overwrote.
- ExprParser.Cursor.Unary: `sizeof` takes an expression here, not a type name.
- Parser error recovery: an error stops the parse.
- ap_post, ap_spawn and proc_create_arg test and change some fields before interrupts are masked; each is one step here, which is what the suppressed preemption of the actor pump gives.
- ActorInvariant.EnvOk: without force-kill, sweep and reset of actors, and without handlers run outside their actor's process; others block and exit without the lock; a new process's stack is a fresh block, which `StackHeap` derives.
- Proc.Scheduler.TryLock: without the watchdog that steals a lock held too long. Priorities, names and register frames of processes are left out too.
- ReadyList.ApplyOk: for blocking and exiting under the condition that `ReadyList.BlockOk` and `ReadyList.ExitOk` prove exact.
- ActorSlot.Slot.Post: one slot; the drop for an index out of range is in `ActorInvariant.PostOk`.
- Liveness of calls: that every handler ends is not claimed; of a request or reply that is lost `ActorReplies.CallsAccounted` says how.
- ActorReplies.MailInOrder: for actors that do not select; `ActorReplies.ScanTakesOldest` says what a select takes.
- Tcp.RequestHandedOver: for a worker that is idle while the request arrives; otherwise it is handed over when the worker has become idle and no lower slot waits (`Tcp.TcpServer.Flush`).
- Heap.FirstFitHeap.Freemem: memory is 8-byte words at multiples of 8; a start that is not a multiple of 8 is answered as the code does, but what it writes is not followed further.
- Heap.FirstFitHeap.Getmem: the optimiser may reorder overlapping header accesses of different types; the order here is the source's.
- StackHeap.RunningStackUnfreed: about the free list alone; with sizes that are not multiples of 16 header writes can reach blocks in use (`Heap.LiveWordLost`), and `StackMemory` is for multiples of 16.
- Paging.DemandPager.Fault: only the leaf tables of the window; the two upper levels are fixed after start-up, and TLB maintenance is left out.
- Paging.DemandPager.Replay: bytes only; wider accesses are several bytes.
- Tcp.TcpServer.HandleSegment: sequence numbers do not wrap, the parsing of frames and of HTTP is a parameter, and the response goes to whoever holds the slot when the worker ends.
- Raster.Segment: coordinates do not overflow 32 bits; clipping and frame-buffer writes are left out.
- Vfs.FileSystem.ResolveWalk: a relative path needs the working directory to exist; once it is removed the code follows a dangling pointer. Child lists are sequences, file contents are left out.
- Device drivers, timers, window drawing, the language model, BASIC, HTTP routes, and the FAT32 bridge.
