# AVEO offload runtime: request engine, calls, memory

AVEO lets a host program (VH) call functions on a vector engine (VE). Host threads push commands into the
queue of a context; a progress loop sends them over a FIFO message channel (URPC), matches replies with
commands, and stores results that are collected by request id. This project models that machinery and proves
what it promises. `dafny verify dfyconfig.toml` checks everything.

| file | what it holds |
|---|---|
| Memory.dfy, Bits.dfy | byte memories and block copies; bitwise operators and fields of a word |
| Protocol.dfy | commands, messages, VE handlers, effects of replies, footprints, one-after-the-other execution |
| Engine.dfy | a context as a state machine: one step per mutex-protected action, any interleaving is a run |
| EngineInv.dfy, EngineChains.dfy | the invariants every step keeps |
| EngineTheorems.dfy | conservation, order, barrier, delivery, abort, chains, joins |
| Sequential.dfy | clean runs equal executing the pushed commands one after the other |
| Turns.dfy | what each kind of request does and returns in its turn, said with kernels, VH functions and handlers |
| Races.dfy | when no command is sent too early: what a caller can check at each push |
| Transfer.dfy | fragment plans of memory transfers |
| Marshalling.dfy | class `CallArgs`: stack image, registers, copy-out |
| LargeCall.dfy | a call split into write, call, read and join does what one message would do |
| Submissions.dfy | what a submission pushes and the run it performs: chains, blocks of large calls |
| CommQueue.dfy, Context.dfy | classes `CommQueue` and `Context`: the imperative code, proved to perform runs of the engine |
| Outcomes.dfy | what the status of a transfer or a large call stands for, whatever went wrong |
| EndToEnd.dfy | from the submission of a call, with its arguments as they were then, to its result |
| Scenarios.dfy | runs from a fresh context: calls that get through, and runs that show where the promises end |
| VePeer.dfy | class `VePeer`: the message handlers on the VE, in place on an array |
| Hmem.dfy | tagged addresses, class `ProcTable` (process slots), routing of copies |
| Symbols.dfy | class `ProcSymbols`: the symbol cache against the VE's resolver |

How the parts fit: `Engine.Step` lists what threads, progress loop and VE can do; `Engine.Reachable` is every
state any interleaving can lead to. The theorems quantify over all of them. The methods of `Context` return the
steps of the engine they performed, from the state before to the state after, so theorems about runs hold across
calls of the object. The application may write host memory between submissions (`HostWrite`); `Sequential.After` is
the world in which a command gets its turn when the application's pushes and writes are done one after the other.
What the code hears from outside (how URPC takes a message, whether the receiver is up, whether the progress lock is free,
whether the process on the VE is gone) is an `Oracle` that answers each question in turn, and the channel has a number of
send slots; so contracts say what the code does with each answer.

`Engine.History` is not read by any step. Two of its bits are conditions of theorems about memory contents. `clean` says
that nothing was refused, raised or lost, nobody took a result another command was to pick up, and the application wrote
to no memory an unfinished command uses. `raced` says that a command was sent while one in flight was to write host memory
it reads. A caller keeps it down by checking, at each push, that no unfinished command which no VH command separates from
the new one writes what that one reads (`Races.SafeToPush`); after waiting for a request its buffer may be used again.

The main result about calls: what `Context.CallAsync` ensures for an accepted call is `Submissions.Called`. If moreover
the OUT buffers overlap neither each other (`OutsApart`) nor the stack buffer (`Private`, which new memory gives), the
call is `EndToEnd.CallSubmitted` (`CalledIsSubmitted`), and any later clean run that did not race finds it `UnderWay`. When
the request id that was returned is about to run as the join (`LargeCallAsync`) or its reply is received
(`SmallCallAsync`), the kernel has run with the registers and the stack image of the arguments as they were at submission,
and every OUT buffer is about to have what it left.

## What the code does not promise

These are properties one might expect. Each is shown to fail, and is given its exact condition where there is one.

- A join reports OK although the call was never accepted (`JoinWithoutCall`) or although the read of its results was
  not, and then fills the OUT buffers with old bytes (`JoinWithoutRead`); it stands for the whole call if and only if
  the call and every transfer it needs were accepted (`JoinStandsForAll`).
- A request may be sent before the reply to an earlier one has brought what it reads (`HazardMatters`). Memory contents
  are those of the program order if no command was sent that early (`AsyncIsSequential`), and none is if each push was
  safe when it was made (`CarefulNeverRaces`), in particular if the program text has no hazards (`HazardFreeNeverRaces`).
- Arguments that are only copied out, from the ninth on, do not get their pointers to the VE unless something else
  is copied in (`SlotDelivered`).
- The size assertion in `setup` holds if and only if the unrounded size is below 2^31, because an `int` is
  accumulated (`SizeAgreement`).
- A negative scalar narrower than 8 bytes is sign-extended in a register and zero-extended in a stack slot
  (`SlotAgreesWithRegister`).
- Fragment or cut settings from the environment can make the fragment size zero (`FragPositive`, `FragCanBeZero`);
  the transfer loop ends if and only if it is not (`LoopEnds`).
- Tagging an address is undone exactly for VE addresses below 2^59 (`TagRoundTrip`).
- The address of a process that has exited may lead to the next process created (`StaleAddress`); it leads to its
  owner if and only if that has not exited (`AddressLeadsToOwner`).
- `veo_alloc_hmem` counts slots, not processes: the number of slots is the largest number of processes that were alive
  at once (`SlotsArePeak`), so after more than 16 it fails for good (`HmemFailsForGood`), even for the only one left
  (`SeventeenProcesses`).

The documentation's cut threshold and maximum send fragment differ from the code; the code is followed.

## Model

| member | source | states |
|---|---|---|
| EngineInv.StepKeeps | src/Context.cpp:151-262 | Every step of a submitting thread, the progress loop or the VE keeps the whole invariant: queue = tail of push history, in-flight map, wire, ledger and book agree, sessions, order and barrier hold. |
| EngineInv.ReachableInv | src/Context.cpp:151-262 | The invariant holds in every state that any interleaving reaches from a fresh context. |
| EngineTheorems.Conservation | src/Context.hpp:77-85 | Request queue, in-flight map, the loop's hand and completion map never share an id and hold none twice; `rem_reqid` is exactly the waitable ids among them plus those being submitted; anything else pushed was delivered or is nowait. |
| EngineTheorems.InsertsAreFresh | src/Command.hpp:128-143 | No insertion into in-flight or completion map ever finds its key taken, so none silently drops a command. |
| EngineTheorems.DeliveredOnce | src/Context.cpp:661-676 | Over every further run a delivered result stays delivered to the same recipient and every later attempt gets ERROR. |
| EngineTheorems.NeverIssued | src/Context.cpp:664-667 | An id that was not issued yields ERROR and changes nothing. |
| EngineTheorems.TruthfulPeek | src/Context.cpp:661-676 | No stored result is UNFINISHED; UNFINISHED is reported exactly for owed ids being submitted, queued, in hand or in flight; any other owed id is reported with the result it ended with. |
| EngineTheorems.FifoRefinement | src/Context.cpp:202-233 | Without abort, started commands, the popped one and the queue are together the push history, through put-backs, delayed VH commands and concurrent pushes. |
| EngineTheorems.VHBarrier | src/Context.cpp:204-217 | When a VH command may run, nothing is in flight and everything pushed before it is finished. |
| EngineTheorems.SynchronizeIsBarrier | src/Context.cpp:320-329 | Once the marker's result can be picked up, every request pushed before it is finished, aborted or not. |
| EngineTheorems.BlockContiguity | src/Context.hpp:123-124 | Pushes of one holding of the submit lock are adjacent, by one thread, in push order and, without abort, in start order. |
| EngineTheorems.OneSession | src/Context.hpp:242-244 | While a thread holds the submit lock only it pushes, and the holding ends only with its own last unlock. |
| EngineTheorems.AbortIsTotal | src/Command.cpp:136-152 | After an abort nothing is queued or in flight; every owed id whose command was pushed has a result; ready results are unchanged, the others are ERROR; replies without a command occur only after an abort. |
| EngineTheorems.ChainOkMeansAll | src/AsyncTransfer.cpp:79-99 | If the last id of a chain ends OK, all fragments were answered without error and each intermediate id was consumed by its successor, so it is neither in the completion map nor owed. |
| EngineTheorems.ChainSound | src/AsyncTransfer.cpp:154-189 | The last id of a chain ends OK if and only if every fragment was sent and answered without error. |
| EngineTheorems.JoinSound | src/Context.cpp:552-586 | A join that ran saw only finished parts, consumed them, reports OK exactly if all parts ended OK, never UNFINISHED, and returns the value of the call part. |
| EngineTheorems.JoinOkParts | src/Context.cpp:552-586 | A join that reports OK found every part it names OK and took its result, whatever other threads collected. |
| EngineTheorems.FreedOnceAndLast | src/Context.cpp:565-567 | A command releases its stack buffer at most once; only joins and calls that are alone release one; when a join has, everything pushed before it is finished. |
| EngineTheorems.JoinCopies | src/Context.cpp:563-566 | A join whose read part did not end OK, or that copies nothing out, leaves host memory alone; without a read part it copies out of the stack buffer. |
| EngineTheorems.TransferReturnsZero | src/AsyncTransfer.cpp:79-99 | A chain whose last request ends OK returns 0. |
| EngineTheorems.ExceptionEndsAll | src/Context.cpp:168-197 | After an exception on the VE its request has EXCEPTION with the code the VE sent (or minus the command for a transfer), the context has given up, and everything else that was in flight has ERROR. |
| EngineTheorems.NowaitLeavesNothing | src/Context.cpp:184-186 | The answer to a request nobody waits for is in no map: it is neither owed nor in the completion map. |
| EngineChains.ReachableChains | src/Context.cpp:552-586 | In every reachable state each outcome, status and value, follows from how the command ended and what it picked up, and only commands that ran picked anything up, and only what they refer to. |
| Sequential.AsyncIsSequential | src/Context.cpp:151-262 | Every clean run that has drained and in which no command was sent while one in flight was to write what it reads leaves exactly the VE and host memories of executing the pushed commands and the application's writes between them one after the other, and every command ended OK. |
| Sequential.AfterIsExec | src/Context.cpp:151-262 | Without such writes that is plain execution of the commands in push order. |
| Sequential.ReachableSim | src/Context.cpp:151-262 | At every moment of a clean run that has not raced host and VE memory are those of prefixes of the sequential execution, and finished calls hold their sequential values. |
| Turns.TurnEffect | src/veo_urpc.c:182-217 | What a request does to both memories in its turn: a transfer is one copy, a VH function changes exactly its block as the function says, another request changes VE memory as its handler does, a call without stack runs its kernel. |
| Turns.TurnInProgram | src/Context.cpp:151-262 | The world of the next turn is that effect with the writes the application made in between. |
| Turns.RequestValue | src/Context.cpp:636-659 | In a clean run that has not raced every finished request ended OK and returned what its VH function, VE handler or kernel returns in the world of its turn (0 for handlers that acknowledge). |
| Races.CarefulNeverRaces | src/Context.cpp:202-233 | If from a state in which everything is finished each push is safe when it is made (no unfinished command, not separated by a VH command, writes what it reads), no command is ever sent too early. |
| Races.SentInTheClear | src/Context.cpp:218-233 | The step behind it: what is in flight is never separated by a VH command from the command being sent, so commands kept apart at their pushes are apart when sent. |
| Races.HazardFreeNeverRaces | src/Context.cpp:202-233 | A program in which no VE command reads what an earlier one, not separated by a VH command, writes never races, however it is run. |
| Transfer.FragPositive | src/AsyncTransfer.cpp:246-254 | The fragment size is positive if and only if the base size is not zero (large transfers) or the transfer has at least as many bytes as parts (small ones). |
| Transfer.FragCanBeZero | src/AsyncTransfer.cpp:242-245 | Settings from the environment for which it is zero. |
| Transfer.LoopEnds | src/AsyncTransfer.cpp:262-274 | The transfer loop reaches zero bytes to go after some number of rounds if and only if there is nothing to transfer or the fragment size is positive. |
| Transfer.DefaultFrags | src/AsyncTransfer.cpp:318-339 | With defaults fragments are never empty, read fragments stay within the base size and write fragments within 5/4 of it rounded up to words. |
| Transfer.DefaultCounts | src/AsyncTransfer.cpp:246-263 | Below five base fragments the defaults give at most 6 read and 5 write fragments. |
| Transfer.DefaultParts | src/AsyncTransfer.cpp:246-254 | Below five base fragments a default transfer has 1, 2, 4 or 5 (reads) and 1, 2, 3 or 4 (writes) fragments, by its size against two thirds, one and two MiB, or one more for the rounding. |
| Transfer.LongTransfers | src/AsyncTransfer.cpp:236-246 | From five fragments on the fragment size is the one set by the user, or 1 or 4 MiB by the capacity of the channel. |
| Transfer.PiecesTile | src/AsyncTransfer.cpp:256-277 | The pieces of the loop follow each other without gap or overlap, cover the transfer exactly, and none is empty or longer than the fragment size. |
| Transfer.WriteIsOneCopy | src/AsyncTransfer.cpp:341-362 | Executing the fragments of a write is one copy from host to VE. |
| Transfer.ReadIsOneCopy | src/AsyncTransfer.cpp:256-277 | Executing the fragments of a read is one copy from VE to host. |
| Transfer.WriteReadRoundTrip | src/AsyncTransfer.cpp:292-366 | Writing a buffer and reading it back, with the different plans of the two directions, returns its bytes. |
| Marshalling.SetValueIsWrite | src/CallArgs.cpp:52-72 | `set_value` inside the image writes the little-endian bytes and zeros up to the word, and changes no other byte. |
| Marshalling.StackArgPlacement | src/CallArgs.cpp:178-199 | A stack argument has a word-aligned region in the image behind the parameter area, apart from all other regions, holding its IN bytes or zeros. |
| Marshalling.SlotHolds | src/CallArgs.cpp:89-101 | Every argument from the ninth on reads back from its slot: the address of its data, or the scalar zero-extended. |
| Marshalling.RegisterHolds | src/CallArgs.cpp:85-87 | Each of the first eight arguments in its register: a scalar sign-extended to 64 bits, a stack argument as the address at which its bytes (or zeros) are in the image. |
| Marshalling.ArgumentArrives | src/CallArgs.cpp:174-199 | In the memory and registers a kernel starts with, every argument is found: scalars by value, stack arguments by a pointer, in a register or a slot, to the caller's bytes. |
| Marshalling.SlotAgreesWithRegister | src/CallArgs.cpp:85-100 | A scalar read back from the slot of one call and from the register of another is the same 64 bits if and only if it is not negative or 8 bytes wide. |
| Marshalling.SizeAgreement | src/CallArgs.cpp:302-333 | The precomputed size equals the length of the image if and only if the unrounded size is below 2^31. |
| Marshalling.CopyOutDelivers | src/CallArgs.cpp:208-222 | Copy-out sets each OUT or INOUT buffer to the bytes at its place in the returned stack. |
| Marshalling.CopyOutElsewhere | src/CallArgs.cpp:345-366 | Copy-out changes no byte outside those buffers. |
| Marshalling.LastOutWins | src/CallArgs.cpp:345-366 | Where OUT buffers overlap each byte comes from the last argument that covers it. |
| Marshalling.IdentityRoundTrip | src/CallArgs.cpp:345-366 | If the VE changes nothing, every INOUT buffer keeps its bytes. |
| Marshalling.SlotDelivered | src/CallArgs.cpp:178-199 | A slot reaches the kernel, whatever VE memory held before, if and only if something is copied in. |
| Marshalling.PageCheck | src/Context.cpp:481-485 | The page check accepts a call if and only if image and 512 KiB reserve lie in the 64 MiB page of the stack pointer below it, which bounds the size. |
| Marshalling.CallArgs.SetStackImage | src/CallArgs.cpp:178-199 | One argument extends the partial image to the next one, leaving earlier slots and data alone, and reports its directions. |
| Marshalling.CallArgs.SumSizes | src/CallArgs.cpp:302-308 | The size computed up front, with its `int` accumulator written out. |
| Marshalling.CallArgs.GetStackImage | src/CallArgs.cpp:299-327 | The loop builds exactly the image, records where each argument is, and the copy flags. |
| Marshalling.CallArgs.Setup | src/CallArgs.cpp:329-340 | The assertion holds if and only if the size is below 2^31; then buffer, size, top and flags are those of the image. |
| Marshalling.CallArgs.GetRegVal | src/CallArgs.cpp:283-292 | The first eight arguments as register values: sign-extended scalars and data addresses. |
| Marshalling.CallArgs.CopyOuts | src/CallArgs.cpp:345-366 | The copy-out closures are one per OUT or INOUT argument, at its offset in the image. |
| LargeCall.SingleMessage | src/veo_urpc_vh.cpp:45-97 | A call that fits into one message runs the kernel on the whole image and copies out what it left. |
| LargeCall.MessageFits | src/veo_urpc_vh.cpp:52-58 | A call message with stack never exceeds the capacity of the channel, and fills it unless it carries the whole stack. |
| LargeCall.FitsOneExactly | src/Context.cpp:504-523 | A call is sent in one message if and only if it copies no stack or 40 bytes, the registers and the stack fit; of a split call the head fills the message exactly. |
| LargeCall.SplitRefinesCall | src/Context.cpp:517-566 | Extra write, call with the clamped head, extra read and join leave VE memory, and host memory outside the stack buffer, as the single call of unlimited size would, with the same value. |
| LargeCall.AfterBlock | src/Context.cpp:529-590 | A block of commands whose memory the application leaves alone acts as a whole: writes made in between may as well have come after it. |
| LargeCall.LargeCallEndToEnd | src/Context.cpp:517-595 | In every clean run, when the join runs the interleaved machinery has done exactly that to the world in which the block began, apart from later writes of the application, and the join returns OK with the kernel's value. |
| LargeCall.OutBufferDelivered | src/veo_urpc_vh.cpp:111-122 | After a call each OUT or INOUT buffer holds the VE bytes at the argument's address. |
| LargeCall.RestUnchanged | src/CallArgs.cpp:208-222 | Every other host byte outside the stack buffer, IN buffers included, is unchanged. |
| EndToEnd.BytesForNext | src/Context.cpp:151-262 | In a state of a clean run that has not raced, host bytes that no unfinished command writes are in the turn of the next command what they are now. |
| EndToEnd.CalledIsSubmitted | src/Context.cpp:604-613 | What callAsync ensures for an accepted call, with OUT buffers apart from each other and from the stack buffer, is all the theorems below start from: one request for the whole call, or a split block. |
| EndToEnd.SubmittedIsUnderWay | src/Context.cpp:604-613 | From the state of submission, any further clean run that has not raced: the requests of the call are in their place, and its image is reserved for it until they are all pushed. |
| EndToEnd.KernelReceives | src/veo_urpc_ve.c:187-225 | When the VE gets to a call sent in one message, the kernel starts with the registers of the arguments, the VE memory of its turn and, if anything is copied in, their image as it was at submission on its stack; it finds every argument, stack arguments by pointers to the caller's bytes. |
| EndToEnd.SplitKernelReceives | src/Context.cpp:529-537 | The same for the call part of a split call: the head in the message and the rest sent before make the whole image. |
| EndToEnd.SplitCallDelivers | src/Context.cpp:475-595 | A split call, followed through any run from the state in which its arguments were taken: its join returns OK with the value of the kernel run on those registers and that image, VE memory is as the kernel left it, every OUT and INOUT buffer holds the bytes at the pointer the kernel got for it, and no other host byte outside the stack buffer changed except by the application. |
| EndToEnd.SimpleCallDelivers | src/Context.cpp:508-515 | The same for a call that fits into one message, at the reception of its reply. |
| EndToEnd.LargeCallAsync | src/Context.cpp:475-613 | Both ends of a large call together: from what callAsync ensures to the moment the id it returned is about to run, given that all parts were accepted and OUT buffers overlap neither each other nor the stack buffer. |
| EndToEnd.SmallCallAsync | src/Context.cpp:508-613 | Both ends of a call in one message, to the reception of the reply for the id that was returned. |
| EndToEnd.SplitBlockHazardFree | src/Context.cpp:529-590 | The block of a split call has no hazards of its own. |
| Outcomes.TransferVerdict | src/AsyncTransfer.cpp:256-280 | The id a fragmented transfer returns ends OK exactly if all its fragments were answered without error. |
| Outcomes.SplitCallVerdict | src/Context.cpp:552-586 | Whatever failed in the run, the join of a split call reports OK exactly if every fragment and the call were answered without error, returns the call's value, and on OK no other id of the block is owed or in the completion map. |
| Outcomes.JoinStandsForAll | src/Context.cpp:530-586 | For a block of doCallAsync, complete or not, whose join ended OK: the call and every fragment of the transfers it needs were pushed and answered if and only if the join names the call and each needed transfer. |
| Outcomes.SplitCallFrees | src/Context.cpp:565-567 | The stack buffer of a split call is released by its join only, once, and then all its other requests are finished. |
| Scenarios.SplitCallHappens | src/Context.cpp:529-613 | A run from a fresh context that meets every hypothesis of LargeCallAsync, with its conclusion for the one argument. |
| Scenarios.SimpleCallHappens | src/Context.cpp:508-613 | A run that meets those of KernelReceives and then of SmallCallAsync, with its conclusion. |
| Scenarios.JoinWithoutRead | src/Context.cpp:542-567 | A run in which the read part was not accepted: the join ends OK and the OUT buffer gets the old bytes of the host's stack buffer. |
| Scenarios.JoinWithoutCall | src/Context.cpp:536-541 | A run in which a join without any part ends OK. |
| Scenarios.HazardMatters | src/AsyncTransfer.cpp:58-77 | A clean run that raced, of two requests whose memories differ from sequential execution. |
| Scenarios.ReuseAfterWait | test/test_async_mem.c:27-48 | The same two requests with a wait in between: the second push is safe, the run does not race although the program text has a hazard, and memory is that of sequential execution. |
| CommQueues.CommQueue.PushRequest | src/Command.cpp:81-86 | Appends at the back. |
| CommQueues.CommQueue.PushRequestFront | src/Command.cpp:88-92 | Puts back at the front. |
| CommQueues.CommQueue.TryPopRequest | src/Command.cpp:94-98 | Takes the front, or nothing from an empty queue. |
| CommQueues.CommQueue.PushInFlight | src/Command.cpp:108-113 | Inserts under the request number, keeping an entry already there. |
| CommQueues.CommQueue.PopInFlight | src/Command.cpp:115-119 | Removes and returns the entry, if any. |
| CommQueues.CommQueue.PushCompletion | src/Command.cpp:121-124 | Inserts under the command id, keeping an entry already there. |
| CommQueues.CommQueue.PeekCompletion | src/Command.cpp:126-129 | Removes and returns the result, if any. |
| CommQueues.CommQueue.CancelAll | src/Command.cpp:136-152 | Both drains: queue and in-flight map end empty, their commands complete with ERROR, ready results stay. |
| CommQueues.CommQueue.EmptyInFlight | src/Command.hpp:215-218 | Whether nothing is in flight. |
| Contexts.Context.constructor | src/Context.cpp:75-80 | A new context is an initial state of the engine. |
| Contexts.Context.PeekResult | src/Context.cpp:661-676 | Owed-check, removal from both books, status and value: the engine's Peek. |
| Contexts.Context.ResultFunction | src/AsyncTransfer.cpp:154-189 | The result functions of transfers, calls and generic requests compute the engine's answer and its effect on host memory. |
| Contexts.Context.RunFunction | src/Context.cpp:552-586 | The functions of VH commands, joins included, compute the engine's answer and effect. |
| Contexts.Context.TakeReply | src/Context.cpp:168-197 | Receiving a reply performs Receive and Complete, or throws; it shrinks the in-flight map. |
| Contexts.Context.SubmitFunction | src/AsyncTransfer.cpp:58-74 | Asks URPC once: taken, it performs Submit; on -EAGAIN it leaves everything alone; otherwise it refuses with ERROR and -1. |
| Contexts.Context.HandleVH | src/Context.cpp:204-217 | A VH command runs exactly if nothing is in flight and the caller may run it; otherwise it goes back to the front. |
| Contexts.Context.HandleVE | src/Context.cpp:218-233 | A VE command is in flight, back at the front, or completed with ERROR. |
| Contexts.Context.PeerLost | src/Context.cpp:235-258 | The peer is found lost exactly in an idle round whose number is a multiple of 100 and in which its process is gone. |
| Contexts.Context.GiveUp | src/Context.cpp:187-189 | The engine's abort: both containers empty, state EXIT. |
| Contexts.Context.ProgressNolock | src/Context.cpp:151-262 | The loop performs a run of the engine and leaves the submitters' state alone; rounds that moved something plus 2*requests+inflight left never exceed 2*requests+inflight at the start. It returns 0 only if no reply waits and no slot is free, the queue is empty, or URPC did not take the last message; 1 only with a delayed VH command at the front; -1 only after giving up. With free slots and messages taken it ends with an empty queue or a VH command at its front. Without leave to it runs no VH command. |
| Contexts.Context.Progress | src/Context.cpp:130-144 | Does nothing with requests in flight; otherwise tries the progress lock and, if it gets it, runs the loop to its end without VH commands. |
| Contexts.Context.TryProgress | src/Context.cpp:688-693 | Runs the loop to its end, without VH commands, exactly if the progress lock is free. |
| Contexts.Context.ProgressExec | src/Context.cpp:307-312 | Repeated calls of the loop, VH commands included, perform a run that leaves the submitters' state alone; once the queue is inactive every pushed command is finished; otherwise the last call ended as ProgressNolock says. |
| Contexts.InactiveMeansDone | src/Command.hpp:219-222 | Outside the loop, nothing queued or in flight means exactly that every pushed command is finished. |
| Contexts.Context.IsAlive | src/Context.hpp:93-104 | The context has not given up and the receiver says it is up; the receiver is asked only in the first case. |
| Contexts.Context.Enqueue | src/Context.hpp:77-85 | Id issue, nowait removal and push under the lock perform a run that appends exactly one command. |
| Contexts.Context.Fragments | src/AsyncTransfer.cpp:256-280 | The loop performs a run that pushes one request per piece, each naming the one before it, returns the last id and calls progress once; an invalid id means that the context was found dead and fewer requests than pieces were pushed. |
| Contexts.Context.AsyncMem | src/AsyncTransfer.cpp:292-366 | asyncReadMem and asyncWriteMem: the chain above with the right fragment size, or one empty command for size zero. |
| Contexts.Context.Request | src/Context.hpp:165-250 | Turned down exactly if the context is dead; otherwise one push, then progress: on an idle context with the progress lock free the loop has run to its end. |
| Contexts.Context.SimpleCallAsync | src/Context.cpp:403-465 | Turned down exactly for address zero or a dead context, else pushes exactly the call and makes progress. |
| Contexts.Context.CallVHAsync | src/Context.cpp:636-659 | Turned down exactly for a null function or a dead context; otherwise pushes one VH command. |
| Contexts.Context.SplitParts | src/Context.cpp:530-595 | Write chain, call, read chain and join are pushed in this order, then progress; the join names what was accepted, a transfer it does not name has fewer requests than pieces, and a part is missing only if the context was found dead. |
| Submissions.AcceptedIsWhole | src/Context.cpp:530-595 | If the join shows that all parts were accepted, the block is the whole split call with its links. |
| Contexts.Context.DoCallAsync | src/Context.cpp:475-595 | Turned down exactly for address zero, another page or, for a fitting call, a dead context; a fitting call is one request; any other is a split block pushed by one thread in one session of the submit lock. |
| Contexts.Context.CallAsync | src/Context.cpp:604-613 | Sets up the arguments, puts their image of the moment into the stack buffer and submits the call with their registers, flags and copy-outs; says exactly when it is turned down and when the assertion on the size fails. |
| Contexts.Context.LockSubmit | src/Context.hpp:123-123 | Takes the recursive submit lock; the outermost taking opens a new session. |
| Contexts.Context.UnlockSubmit | src/Context.hpp:124-124 | Releases it. |
| Contexts.Context.CallPeekResult | src/Context.cpp:688-695 | Tries the progress lock and runs the loop to its end if it gets it, then one collect of the state reached. |
| VePeers.VePeer.SendBuffHandler | src/veo_urpc.c:182-197 | Copies the buffer in place and acknowledges, as the protocol says. |
| VePeers.VePeer.RecvBuffHandler | src/veo_urpc.c:205-217 | Sends back the bytes asked for. |
| VePeers.VePeer.CopyBackWords | src/veo_urpc_ve.c:257-259 | The word loop brings back whole words of the stack and leaves a shorter tail of the buffer. |
| VePeers.VePeer.CallHandler | src/veo_urpc_ve.c:196-225 | A call without stack. |
| VePeers.VePeer.CallStackHandler | src/veo_urpc_ve.c:187-270 | Copy-in, call, copy-back and reply are those of the protocol for all three kinds of stack calls. |
| Hmem.MacrosByFields | src/veo_hmem_macros.h:26-37 | The macros' bit operations are flag, identifier and address fields of the word. |
| Hmem.TagRoundTrip | src/veo_hmem_macros.h:32-37 | Untagging a tagged address gives it back if and only if it is below 2^59; then the identifier is right too. |
| Hmem.TagWithOffset | src/veo_hmem_macros.h:32-37 | An in-buffer offset keeps flag and identifier and moves the VE address. |
| Hmem.IdentifierIsStable | src/ProcHandle.cpp:143-164 | Over every sequence of creations and exits with slot reuse a process keeps its identifier, and it is its only slot, until it exits. |
| Hmem.SlotsNeverShrink | src/ProcHandle.cpp:225-233 | The number of slots, which the limit of 16 is compared with, never falls. |
| Hmem.LowestFree | src/ProcHandle.cpp:151-163 | A new process gets the lowest free identifier, and nobody else's changes. |
| Hmem.SlotsArePeak | src/ProcHandle.cpp:143-164 | Over every sequence of creations and exits it is the largest number of processes that were alive at once. |
| Hmem.HmemFailsForGood | src/veo_api.cpp:340-345 | The limit is exceeded if and only if more than 16 were alive at once, and then stays exceeded whoever exits. |
| Hmem.SeventeenProcesses | src/veo_api.cpp:340-345 | 17 creations and 16 exits: the process that is left cannot allocate. |
| Hmem.StaysDistinct | src/ProcHandle.cpp:151-163 | No process is ever in two slots. |
| Hmem.HmemDecodes | src/veo_api.cpp:329-370 | Any address in a buffer of a process that still exists leads to that process and the original VE address, however many came and went. |
| Hmem.HmemCpyHost | src/veo_api.cpp:512-523 | Copies between such a buffer and host memory go to the owner, both ways. |
| Hmem.HmemCpyVe | src/veo_api.cpp:527-540 | Copies between two such buffers stay in the process if it is the same, and are refused otherwise. |
| Hmem.RouteByAddress | src/veo_api.cpp:512-540 | Where any copy goes, for all addresses by their values: host to host, to or from the process in the named slot, within one process, refused, or to an exited process. |
| Hmem.AddressLeadsToOwner | src/ProcHandle.cpp:143-233 | An address in a buffer of a process leads to that process if and only if it has not exited, however many came and went. |
| Hmem.StaleAddress | src/ProcHandle.cpp:151-163 | A sequence in which the address of an exited process leads to the one that reuses its slot. |
| Hmem.ProcTable.Search | src/ProcHandle.cpp:64-65 | First slot with a value. |
| Hmem.ProcTable.Create | src/ProcHandle.cpp:143-164 | First free slot, or a new one at the end. |
| Hmem.ProcTable.GetProcIdentifier | src/ProcHandle.cpp:58-73 | Index of the process, or -1. |
| Hmem.ProcTable.Exit | src/ProcHandle.cpp:225-233 | Clears the slot and no other. |
| Hmem.ProcTable.GetProcHandle | src/ProcHandle.cpp:189-193 | Out of range, null, or the process. |
| Hmem.ProcTable.AllocHmem | src/veo_api.cpp:329-370 | Succeeds exactly with at most 16 slots, an allocated address and a known process; then it is tagged with its identifier. |
| Hmem.ProcTable.HmemCpy | src/veo_api.cpp:504-548 | The branches of the copy route as specified. |
| Symbols.GetSymHandler | src/veo_urpc.c:113-142 | The resolver: first static entry for the name, else the library's symbol, else zero. |
| Symbols.FirstStaticWins | src/veo_urpc.c:129-138 | The first static entry for a name is the answer, whatever library is asked. |
| Symbols.NoStaticEntry | src/veo_urpc.c:122-127 | Without one it is the symbol of the open library, or zero. |
| Symbols.LibraryIs | src/ProcHandle.cpp:244-295 | Over every run a library is open exactly while it was loaded more often than unloaded, and a handle used again has the symbols of the new library. |
| Symbols.ProcSymbols.LoadLibrary | src/ProcHandle.cpp:244-263 | Cached answers stay right when a library is opened under a new or reused handle. |
| Symbols.ProcSymbols.DropNames | src/ProcHandle.cpp:275-283 | Exactly the names of the library leave the cache. |
| Symbols.ProcSymbols.UnloadLibrary | src/ProcHandle.cpp:271-295 | Drop, then close: the cache stays coherent. |
| Symbols.ProcSymbols.GetSym | src/ProcHandle.cpp:304-337 | Returns what the VE would answer now; zero only if that is the answer or the VE could not be asked. |
| Symbols.ProcSymbols.RunAll | src/ProcHandle.cpp:244-337 | Over every sequential run of loads, unloads and lookups each answer is the resolver's at its place in the run. |
| Symbols.DropIsNeeded | src/ProcHandle.cpp:275-283 | Without the drop a reused handle gives a stale answer. |

## Left out

- Modelling decisions: collecting is one step; taking a reply and its result function are one step, and so are sending and entering the in-flight map, the three peeks of a join, and `cancelAll` (which takes no queue mutex).
- The URPC channel is FIFO with exactly one well-formed reply per message and increasing request numbers; slots, DMA and payload packing are not part of this model.
- Answers from outside are asked for when the code asks; the VE serves messages only while the loop looks for replies.
- Request ids do not wrap. VH functions do not submit requests; each works on one block of host memory, which may be all of it.
- The application writes host memory in single steps; its reads are not steps.
- Buffers named in a request lie inside the memories and memories keep their size; a message has room for the registers and a multiple of 8 bytes.
- Methods of `Context` run alone; interleaving with other threads is the state machine's part, where every action is a step of its own.
- Ids that were issued but not pushed at an abort have no result yet; nowait commands that are cancelled or refused stay in the completion map for good. Both are visible in `AbortIsTotal` and `Conservation`.
- Wake-ups and liveness of waiters (`waitRequest`, `waitCompletion`, `callWaitResult`): safety and delivery are claimed, not that every waiter wakes.
- Contexts.Context.ProgressExec: the number of calls of the loop is bounded by a parameter, because the VE may take any number of them.
- `synchronize` tests its id against 0 instead of VEO_REQUEST_ID_INVALID; the theorem is about the case in which it waits.
- The stack pointer check of the VE call handler and the handshake that asks for the stack pointer.
- A lock that stays taken because an exception leaves `progress` or `callPeekResult` without unlocking.
- Hooks, `veo_alloc_mem_async`, `veo_free_mem_async`, VESHM, DMA, process and thread management, `ve2velibh`, environment parsing.
- Float and double arguments are scalars given by their bytes; argument lists have no holes.
- Sequential.AsyncIsSequential: one direction only; a command sent too early may still find the bytes it should, so that races matter is shown by `HazardMatters` and not by an equivalence.
- Marshalling.CallArgs.Setup: sizes from 2^62 on, which no std::string reaches, are excluded.
- Symbols.ProcSymbols.RunAll: an unload between the request of another thread's lookup and its cache entry is not modelled.
