# io-bluetooth, verified

A Dafny model of io-bluetooth, a Rust crate for Bluetooth sockets on Linux and Windows, and proofs about it.
`dafny verify dfyconfig.toml` checks everything.

The model covers the parts of the crate with state, loops or arithmetic: who owns which descriptor and when it is
closed, the close-on-exec fallback with its shared atomic flag, the deadline loop of the timed connect, the timeout
conversions, the address codec, and the two ways of discovering devices.

## How it is built

**The kernel is an adversary.** `Kernel.Step` says which answers a system call may give. Every call may fail with any
error number at any time; descriptors are numbered as the kernel likes; connections arrive when they like, and one in
progress is made, fails or breaks on its own; time passes between any two steps, also between a reading of the clock and
the call that uses it. A descriptor carries close-on-exec; nonblocking mode, timeouts, connection state, the pending
error and the reference count belong to the open file description. `close` frees the number even when it reports an
error. A `poll` that reports an event names at least one, and what it reports is related to the connection only by two
implications: POLLOUT alone means connected, POLLHUP means broken. The same relation serves one thread
(`Processes.Process`, a class whose methods are the crate's, with loops and early returns) and many (`Concurrency`, a
state machine over single calls). On Windows, where `WindowsSocket` has a kernel of its own, `select` is related to the
connection in the same way: writable means connected, in error means failed; and only a nonblocking socket answers
`connect` with WSAEWOULDBLOCK.

**The two views are tied together.** `Program` says, call by call and reading of the clock by reading, what a thread
does inside each operation. In the imperative methods `Process.Syscall` accepts only the call that `Program` expects at
that point, and a method must reach `Done` with the result it returns; so the concurrent machine interleaves exactly the
code of those methods. Each imperative operation also states its whole effect on the tables, and the log records every
call with the worlds before and after it: a process that is ready for an operation has a log that is a run of the kernel
(`Processes.KernelRunTo`), and every operation keeps it one.

| file | part of the crate |
|---|---|
| Base, Durations | results, `Duration`, checked and saturating u64 steps |
| Timeouts, Addresses | pure conversions of both platforms, `BtAddr` |
| Deadline | the runs of the Unix deadline loop, over every clock and every `poll` |
| Kernel, Program, Process | the environment, the operations call by call, one thread |
| FileDescs, UnixSocket, UnixConnect, UnixDiscovery | src/sys/unix |
| ConnectAnswers, Realized | what the answers of a timed connect prove, and the runs of the kernel behind its loop |
| SysCommon, BtApi | src/sys_common/bt.rs, src/bt/mod.rs |
| Concurrency, Configured | any number of threads, call by call |
| Runs, Results, Errors, Deliveries, TimedRuns | what holds over whole runs |
| Witnesses | runs that attain the bounds |
| WindowsSocket, WindowsDiscovery | src/sys/windows/bt.rs |

## What the proofs say

*Ownership.* In every run of any number of threads, the user and the rest of the process, live `FileDesc` values own
pairwise distinct open descriptors; every descriptor the crate opened is closed by it exactly once, given away by
`into_raw` exactly once, still owned, or was left open by a discovery whose inquiry failed, and those are exactly as
many as the failed inquiries; some run has one. No close ever hits a descriptor of somebody else. Closing again after
EINTR, which the source rejects in a comment, would.

*Close-on-exec.* Everything handed to the user has it. A descriptor without it is foreign, belongs to a discovery, was
leaked by one, or is in the hands of a call that made it through an older kernel call a moment ago; some run shows that
window.

*Results.* In every interleaving a listener comes back of its own protocol, bound with SO_REUSEADDR to its own address
and listening, a stream of its own protocol connected to its own address, a stream of a timed connect in blocking mode
with its connection to that address tried and, when the answers prove it, made, an accepted stream connected to the peer
reported with it; and nobody else refers to the description.

*Errors.* Every operation reports the error of its own call that failed, the last one apart from the `close` on its way
out; the contracts say so by the log, and say which call follows which: `F_DUPFD` after EINVAL, `socket` without
SOCK_CLOEXEC after EINVAL, `accept` after ENOSYS, and after no other answer. A timed connect returns what its last call
means by itself (`UnixConnect.VerdictIsJudged`). In every interleaving a thread returns the error of its own last call
(`Errors.ErrorIsOfItsOwnCall`).

*Accepted connections.* Over any part of any run, with any number of threads and clones of a listener, the connections
that leave its queue are the next ones that arrived, in order; and those that went to the crate are, as a multiset of
descriptors with their peers, exactly what it returned with that peer, what it closed because marking failed, and what
calls still hold.

*The flag.* `TRY_CLOEXEC` is modelled by its stores in their order and a view of them for every thread. Each thread
suffers at most one rejected probe in any run whatever the kernel does, so a run has at most as many as threads, and for
every number of threads some run has that many.

*The deadline.* A run polls at most `WorstPolls(timeout)` times plus once per interruption, and `WorstPolls` is exact:
from every world some run of the kernel makes the loop poll that often. The interval of every `poll` is computed from a
reading of the clock that lies before the deadline and between the answer of the `poll` before and the call, and,
counted from that reading, it ends less than 1 ms after the deadline. So the exit is below the deadline + 1 ms + the
wait between the answer before and the last `poll` + what that `poll` was late. When no time is lost, every `poll` waits
for exactly what is left when it is made and the connect is over less than 1 ms after its timeout, however often it was
interrupted (`UnixConnect.PromptConnectIsOnTime`); a nanosecond less than that is attained
(`Realized.PromptOvershootHappens`). The loop makes up for no wait: for every delay some run of the kernel, with
punctual polls, overshoots by the whole delay more (`Realized.DelayAddsToOvershoot`). In every run of the concurrent
machine, too, a thread polls with its own last reading, leaves its loop by that bound and polls no more often.

*Where code and intent differ.* The documentation calls a zero timeout an error; the code refuses it exactly when the
connection is still in progress (`SysCommon.ZeroTimeoutIsRefusedIff`, `SysCommon.ZeroTimeoutMaySucceed`, and
`WindowsSocket.ZeroTimeoutIsRefusedIff`, `WindowsSocket.ZeroTimeoutMaySucceed`). The deadline loop takes every event
without POLLHUP for success. Its answers prove the connection exactly when `connect` succeeded at once or the last event
was POLLOUT alone; after any other event, such as POLLOUT with POLLERR, the same answers come from a kernel that
connected and from one that did not (`ConnectAnswers.OkMeansConnectedIff`, `ConnectAnswers.OtherEventsDecideNothing`).
On Windows an Ok is a connection exactly when `connect` succeeded at once or `select` found the socket writable; when
`select` found it in error and SO_ERROR is zero the connection is broken, and the call is Ok all the same
(`WindowsSocket.OkIsConnectionIff`, `WindowsSocket.OkWithoutConnectionHappens`). The Windows wait is the one asked for
exactly when the seconds fit 31 bits (`Timeouts.SelectTimevalIsExactIffSecondsFit`). Windows discovery loops for ever
exactly when some result asks for a growth that wraps the 32-bit length (`WindowsDiscovery.EndsIffFits`). Both
discoveries leave a handle open on one error path, and only there: after a failed inquiry
(`UnixDiscovery.DiscoverDevices`, `Witnesses.LeakIsReal`) and after a failed lookup
(`WindowsDiscovery.LeakIffLookupFailed`, `WindowsDiscovery.LeakHappens`). The comment on `dur2timeout` says that only
more than u32::MAX milliseconds becomes infinite; exactly u32::MAX does too (`Timeouts.Dur2TimeoutExtremes`).

## Model

| member | source | states |
|---|---|---|
| Runs.RunKeepsInv | src/sys/unix/fd.rs:236-306 | the ownership, close-on-exec, borrowing, sharing and flag invariants hold in every state of every interleaved run |
| Concurrency.NextKeepsInv | src/sys/unix/fd.rs:236-306 | one action of any thread, of the user or of the rest of the process keeps the invariant |
| Concurrency.ResumeShape | src/sys/unix/fd.rs:257-282 | a call that opens gives its thread the descriptor, a close takes it, any other is about the thread's own |
| Runs.ReturnedDescriptorIsOwned | src/sys/unix/fd.rs:257-282 | what a call returns is open, close-on-exec, owned by that value alone; a duplicate shares its source's description |
| Runs.FailedCallLeavesNothing | src/sys/unix/fd.rs:257-282 | a failing call returns owning nothing, and all that is open belongs to somebody else or was leaked by a failed inquiry |
| Runs.LeakableOnlyInFlight | src/sys/unix/fd.rs:257-261 | a descriptor without close-on-exec is foreign, leaked by an inquiry, or held by a call that has just made it or is a discovery |
| Runs.OlderCallsLeaveAWindow | src/sys/unix/fd.rs:282 | every success of the older calls opens an unmarked descriptor |
| Witnesses.WindowIsReal | src/sys/unix/bt.rs:67-69 | some run has an unmarked descriptor of the crate open |
| Witnesses.LeakIsReal | src/sys/unix/bt.rs:352-354 | some run of route, open and a failed inquiry ends with the adapter's descriptor open and owned by nobody |
| Runs.CloseHitsOnlyItsOwn | src/sys/unix/fd.rs:298-306 | each close hits an open descriptor owned by the closing value and by nobody else |
| Runs.ClosedOncePerOpening | src/sys/unix/fd.rs:298-306 | between two closes of a number it was opened again |
| Runs.RetriedCloseHitsForeign | src/sys/unix/fd.rs:300-305 | closing again after EINTR can close a descriptor opened by somebody else |
| Runs.DescriptorsAreConserved | src/sys/unix/fd.rs:33-46 | over any run: opened = closed + given away + leaked + still owned, leaked = failed inquiries, and open = owned + foreign + leaked |
| Runs.LeakedStaysOpen | src/sys/unix/bt.rs:352-354 | what a failed inquiry leaves open is never closed |
| Runs.QuietStatesHoldNoStrays | src/sys/unix/fd.rs:298-306 | with no call in progress, exactly the user's handles, the foreign descriptors and those leaked by failed inquiries are open |
| Runs.HandleKeepsItsFile | src/sys/unix/fd.rs:33-46 | a live handle keeps its number and its open file description |
| Runs.ClonesSeeTheSame | src/bt/mod.rs:435-442 | two handles on one description see the same mode, options and state in every later state |
| Results.ReturnedIsConfigured | src/sys_common/bt.rs:83-191 | in every interleaving a returned listener or stream, timed ones included, is of the protocol, at or connected to the address, and in the state that the call its thread began last promises, on a description of its own |
| Results.ReturnedIsOfItsCall | src/sys_common/bt.rs:83-191 | what a call returns, duplicates included, has the goal, the source or the listener of the call that its thread began last |
| Errors.ErrorIsOfItsOwnCall | src/sys/unix/bt.rs:57-190 | in every interleaving the error that a call or a discovery returns is the one that its thread's last call failed with, a close on the way out not counted; in a timed connect also the one that SO_ERROR names, the one of its connect, a zero timeout in progress, and TimedOut by a reading past the deadline |
| Errors.ConnectIsRemembered | src/sys/unix/bt.rs:111-125 | in every interleaving what a timed connect remembers of `connect` while it restores the mode is the answer that its thread got last |
| Configured.NextKeepsWellMade | src/sys_common/bt.rs:83-191 | no action of anybody spoils the configuration of a socket still inside a call |
| Configured.OthersLeaveIt | src/sys/unix/fd.rs:33-46 | a call on another descriptor leaves one with a description of its own untouched |
| Deliveries.ConnectionsAreAccountedFor | src/sys/unix/bt.rs:77-107 | over any part of any run, what the crate took and held from a queue is what it returned with that peer, closed, and still holds |
| Deliveries.TakenIsReturnedClosedOrHeld | src/sys/unix/bt.rs:77-107 | from the start of a run, every connection the crate took is in exactly one of the three parts |
| Deliveries.QueueIsAccountedFor | src/sys/unix/bt.rs:77-107 | over any part of any run while the listener's description lives: what left the queue is the next slice of what arrived, and the crate's part of it, with its descriptors, is what it returned with that very peer, closed, and still holds |
| Runs.AtMostOneFailedProbePerThread | src/sys/unix/fd.rs:262-281 | after one rejected probe a thread never probes again |
| Runs.FlagOnlyFalls | src/sys/unix/fd.rs:262-281 | with stores in any order and loads of any store not before the thread's view, a thread that read or stored false never reads true |
| Runs.FailedProbesAtMostThreads | src/sys/unix/fd.rs:262-281 | all rejected probes of a run are at most its threads |
| Witnesses.ProbeBoundIsAttained | src/sys/unix/fd.rs:264-278 | for every n some run of n threads has n rejected probes |
| Kernel.EffectKeepsValid | src/sys/unix/fd.rs:298-306 | reference counts stay exact through every call, so a description lives as long as its last descriptor |
| Kernel.CloseUndoesAdds | src/sys_common/bt.rs:83-100 | closing the one descriptor an attempt added restores the tables |
| Kernel.CloseUndoesDuplicate | src/sys/unix/fd.rs:257-261 | closing a fresh duplicate restores the tables |
| Kernel.InterruptionIsAbsorbed | src/sys/unix/mod.rs:30-41 | an interrupted and repeated call has the effect of one uninterrupted call |
| Processes.Process.CvtR | src/sys/unix/mod.rs:30-41 | the same call until it is not interrupted; returns that last answer, with the effect of one call |
| FileDescs.MarkCloexec | src/sys/unix/fd.rs:186-191 | sets the flag of this descriptor and nothing else, or reports the error of the one call and changes nothing |
| FileDescs.Drop | src/sys/unix/fd.rs:298-306 | closes exactly once, whatever the close reports |
| FileDescs.MakeFileDesc | src/sys/unix/fd.rs:257-261 | a marked descriptor, or a closed one and the error of the marking |
| FileDescs.Duplicate | src/sys/unix/fd.rs:236-283 | on Ok one close-on-exec descriptor on the source's description, on Err unchanged tables and the error of the call that failed; the flag decides the first call, only EINVAL lowers it and makes F_DUPFD the next call |
| UnixSocket.NewSocket | src/sys/unix/bt.rs:41-75 | a fresh close-on-exec socket, RFCOMM for RFCOMM and L2CAP for L2CAP, or unchanged tables and the error of the call that failed; made without SOCK_CLOEXEC exactly after EINVAL |
| UnixSocket.AcceptSocket | src/sys/unix/bt.rs:77-107 | on Ok the head of the queue with its own address, close-on-exec; on Err no descriptor, at most the head gone, and the error of the last call that is no close; accept is called exactly after ENOSYS |
| UnixSocket.SetSocketNonblocking | src/sys/unix/bt.rs:291-294 | sets the description's mode and nothing else, or fails and changes nothing |
| UnixSocket.TakeError | src/sys/unix/bt.rs:296-303 | hands out the pending error and clears it; a code of zero is no error, any other is that error, and a failed call its own |
| UnixSocket.SetSocketTimeout | src/sys/unix/bt.rs:238-268 | one call stores the converted timeout of one direction, or its error is reported; a zero is refused without a call |
| UnixSocket.SocketTimeout | src/sys/unix/bt.rs:270-279 | one call returns what the description stores for that direction, or its error is reported |
| UnixSocket.TimeoutSeenThroughDuplicates | src/bt/mod.rs:435-442 | a timeout set through one descriptor is read through its duplicates, other direction and other sockets unaffected |
| UnixDiscovery.DiscoverDevices | src/sys/unix/bt.rs:328-364 | route, open, inquiry for 256 responses, close, each only after the one before; the inquiry's devices in order, exactly when every call succeeds; else the last call's error; the adapter's descriptor stays open exactly after a failed inquiry |
| UnixConnect.TryConnect | src/sys/unix/bt.rs:110-125 | mode change, connect, mode change; a failed mode change outranks the answer of connect |
| UnixConnect.AwaitConnection | src/sys/unix/bt.rs:147-190 | the interval of every poll is computed from a reading between the answer of the poll before and its call, the runs are those of `Deadline.Legal`, the loop leaves at the clock of its run and not before its last answer, terminates, and returns what its last call answered: the error of a poll or of SO_ERROR that failed, the one that SO_ERROR names, one of its own if it names none, TimedOut if the matter is open, Ok on any event without POLLHUP |
| UnixConnect.ConnectTimeout | src/sys/unix/bt.rs:109-191 | the calls made, in order, and the result by the last of them, read from the calls alone; TimedOut only once the timeout has passed; an error pending on the description when SO_ERROR is read is the one returned; connect is called in nonblocking mode and poll in blocking mode, which is restored unless a mode change failed; the connection state on Ok, the exit bounded by the clocks of the calls, bounded polls; a log that was a run of the kernel stays one |
| UnixConnect.FollowingIsOnTime | src/sys/unix/bt.rs:149-169 | every interval is read before the deadline and, counted from its reading, ends less than 1 ms after it; the exit is below deadline + 1 ms + the wait between the answer before and the last poll + that poll's lateness |
| UnixConnect.PromptConnectIsOnTime | src/sys/unix/bt.rs:149-169 | when each call follows the answer before at once and the last poll is not late, the connect is over less than 1 ms after its timeout and every poll waits for exactly what is left when it is made |
| UnixConnect.OkIffConnects | src/sys/unix/bt.rs:127-190 | that verdict is Ok exactly when connected at once or ready without hang-up, with both mode changes done |
| UnixConnect.VerdictIsJudged | src/sys/unix/bt.rs:109-190 | any calls that make up a timed connect have that order, and its verdict is what the last of them means by itself |
| UnixConnect.ModesAreRightInRuns | src/sys/unix/bt.rs:110-125 | in every kernel run of such calls the socket is nonblocking when connect is called and blocking at every poll |
| UnixConnect.PendingIsReturned | src/sys/unix/bt.rs:180-185 | in every kernel run of such calls an error pending when SO_ERROR is read is the one returned |
| UnixConnect.TimedOutIsLate | src/sys/unix/bt.rs:147-155 | the loop gives up only once the whole timeout has passed since the mode was restored |
| ConnectAnswers.OkMeansConnectedIff | src/sys/unix/bt.rs:127-187 | all kernel runs with the answers of an Ok end connected exactly when `connect` succeeded at once or the last event was POLLOUT alone |
| ConnectAnswers.OtherEventsDecideNothing | src/sys/unix/bt.rs:177-187 | after any other event, two kernel runs with the same calls and answers, one connected and one not |
| ConnectAnswers.UndecidedRunsExist | src/sys/unix/bt.rs:177-187 | from any given world, for any non-zero timeout and any given event with a bit set but POLLHUP, POLLOUT alone excepted: a run of the kernel that starts there, ends on that event with an Ok, and is undecided |
| Deadline.PollIntervalIsExact | src/sys/unix/bt.rs:158-167 | the saturating steps give min(max(1, remaining ms), INT_MAX), never zero or negative |
| Deadline.NextInterval | src/sys/unix/bt.rs:158-167 | the argument of poll as a function of limit and elapsed time over unbounded integers: the milliseconds left rounded down, but at least 1 and at most 2^31 - 1 |
| Deadline.ExpiryUsesAPoll | src/sys/unix/bt.rs:149-176 | a poll that expires strictly lowers the number of polls left |
| Deadline.PollsAreBounded | src/sys/unix/bt.rs:149-190 | polls are at most interruptions plus `WorstPolls` of the timeout |
| Deadline.WorstPollsInClosedForm | src/sys/unix/bt.rs:149-190 | `WorstPolls` is 1 + ceil((timeout - 1 ms) / (INT_MAX ms)) above 1 ms |
| Deadline.WorstPollsIsAtMost | src/sys/unix/bt.rs:149-190 | that is at most floor(timeout in ms / INT_MAX) + 2 |
| Deadline.WorstPollsIsAttained | src/sys/unix/bt.rs:149-190 | for every timeout some run without interruptions polls that often |
| Realized.LegalRunsHappen | src/sys/unix/bt.rs:147-190 | every legal and complete run of the loop is its run on some run of the kernel, from any world with as many signals as it has interruptions |
| Realized.WorstPollsHappens | src/sys/unix/bt.rs:149-190 | from any world and for every non-zero timeout some run of the kernel makes `connect_timeout` poll `WorstPolls` times |
| Deadline.OvershootIsUnderAMillisecond | src/sys/unix/bt.rs:150-169 | elapsed time at exit is below timeout + 1 ms + lateness of the last poll |
| Deadline.OvershootIsAttained | src/sys/unix/bt.rs:150-169 | a punctual poll can overshoot by 1 ms less one nanosecond |
| Realized.OvershootHappens | src/sys/unix/bt.rs:150-169 | from any world some run of the kernel overshoots by that much with a poll made and answered promptly |
| Realized.PromptOvershootHappens | src/sys/unix/bt.rs:150-169 | from any world with a signal to come some run of the kernel in which no time is lost is over 1 ms less a nanosecond after the timeout |
| Realized.DelayAddsToOvershoot | src/sys/unix/bt.rs:150-169 | for every delay between the last reading and its poll, some run of the kernel with a punctual poll overshoots by the whole delay more |
| TimedRuns.PollsAreOfTimelyReadings | src/sys/unix/bt.rs:149-169 | in every state of every run a thread about to poll in a timed connect last read the clock, and its interval is that of this very reading, before its deadline, and ends, from it, less than 1 ms after the deadline |
| TimedRuns.LoopsLeaveOnTime | src/sys/unix/bt.rs:149-187 | in every run a thread leaves its loop below deadline + 1 ms + the wait between the answer before and its last poll + that poll's lateness, the deadline counted from its own first reading; without a poll only once the deadline has passed |
| TimedRuns.PollsOfTimedConnectAreBounded | src/sys/unix/bt.rs:149-190 | over any stretch of any run that a thread spends in the loop its polls are at most its interruptions plus `WorstPolls` |
| SysCommon.BindOnce | src/sys_common/bt.rs:83-100 | on Ok one listener of the protocol, bound with SO_REUSEADDR on and backlog 128, on Err unchanged tables and the error of the call that failed |
| SysCommon.ConnectTo | src/sys_common/bt.rs:169-178 | on Ok one socket of the protocol connected to the address, on Err unchanged tables and the error of the call that failed |
| SysCommon.ConnectSocket | src/sys_common/bt.rs:173 | the connect attempt's result is its first answer that is not an interruption |
| SysCommon.AcceptStream | src/sys_common/bt.rs:102-112 | the accepted stream has the listener's protocol; an error is that of the last call that is no close |
| SysCommon.ConnectToTimed | src/sys_common/bt.rs:180-191 | exactly when the timed connect shown by the calls, which are a run of the kernel and on time, succeeds, one close-on-exec blocking socket of the protocol, the one those calls were made on, connected to the address if the answers prove it, which they do exactly if every kernel run alike ends connected; else unchanged tables and the error that those calls mean, or that of the call that failed to make the socket |
| SysCommon.ZeroTimeoutMaySucceed | src/bt/mod.rs:213 | from any world some run of the kernel that connects at once makes a zero timeout succeed |
| SysCommon.ZeroTimeoutIsRefusedIff | src/sys/unix/bt.rs:127-145 | a zero timeout is InvalidInput exactly when the connection is in progress, and never polls |
| BtApi.EachAddr | src/bt/mod.rs:485-503 | tries a prefix in order up to the first success, by bind for listeners and by connect for streams; one descriptor on Ok, for the last address tried, none on Err, with the error of the last call that failed; by the recorded operations every attempt found the first one's tables and every failed one left them |
| BtApi.CombineIsFirstSuccess | src/bt/mod.rs:485-503 | Ok exactly when some address succeeds, then the first; else the last error; InvalidInput of its own only for no address |
| BtApi.TryClone | src/bt/mod.rs:440-442 | another handle of the same protocol on the same description, or unchanged tables and the error of the call that failed |
| Timeouts.Dur2TimeoutIsCappedCeiling | src/sys/windows/mod.rs:30-56 | min(ceil(ns / 10^6), 2^32 - 1) for every Duration, overflowing ones included |
| Timeouts.Dur2TimeoutIsMonotone | src/sys/windows/mod.rs:30-56 | a longer Duration never gives a shorter timeout |
| Timeouts.Dur2TimeoutExtremes | src/sys/windows/mod.rs:30-56 | zero only for the zero Duration; infinite exactly above 2^32 - 2 ms |
| Timeouts.WinRoundTrip | src/sys/windows/bt.rs:289-315 | None exactly for None, stored as 0; otherwise rounded up by less than 1 ms, or 4294967.295 s; idempotent |
| Timeouts.UnixRoundTrip | src/sys/unix/bt.rs:238-279 | never loses a timeout; truncated to microseconds with a floor of one, seconds clamped, no wrap or carry; idempotent |
| Timeouts.SelectTimevalIsExactIffSecondsFit | src/sys/windows/bt.rs:169-176 | the low 32 bits of the seconds with a sign, and the microseconds or one for nothing; the wait is max(1, floor(ns / 1000)) microseconds exactly when seconds fit 31 bits; never zero; negative iff bit 31 is set |
| Timeouts.SelectTimevalTruncates | src/sys/windows/bt.rs:170 | 2^32 seconds become one microsecond |
| Addresses.PackWeighsBytes | src/sys/windows/bt.rs:454-460 | the packed value is the sum of byte i times 256^i |
| Addresses.UnpackPack | src/bt/mod.rs:13-18 | unpacking a packed address gives it back |
| Addresses.PackUnpack | src/sys/windows/bt.rs:462-467 | repacking any u64 keeps exactly its low 48 bits |
| Addresses.DisplayShowsPackedValue | src/bt/mod.rs:31-39 | six pairs of lower-case digits with colons between them, and read as hexadecimal the packed value, so the text determines the address |
| WindowsSocket.Socket.SetTimeout | src/sys/windows/bt.rs:289-304 | stores the encoded timeout of one direction; a zero is refused without a call |
| WindowsSocket.Socket.Timeout | src/sys/windows/bt.rs:306-315 | decodes what that direction stores |
| WindowsSocket.Socket.ConnectTimeout | src/sys/windows/bt.rs:126-205 | the calls made, in order, and the result by the last of them, the error of every one that fails included; connect is called in nonblocking mode and select in blocking mode, which is restored unless a mode change failed |
| WindowsSocket.CallsNameThePeer | src/sys/windows/bt.rs:129-189 | in the calls of any timed connect every connect names the address asked for and every select gets a non-zero time |
| WindowsSocket.JudgedInRightModes | src/sys/windows/bt.rs:127-149 | in any calls of a timed connect that can follow each other the socket is nonblocking while it connects and blocking while it waits |
| WindowsSocket.ZeroTimeoutIsRefusedIff | src/sys/windows/bt.rs:156-167 | a zero timeout is refused exactly when connect would block |
| WindowsSocket.ZeroTimeoutMaySucceed | src/bt/mod.rs:213 | a socket that connects at once makes a zero timeout succeed, connected |
| WindowsSocket.OkIsConnectionIff | src/sys/windows/bt.rs:129-202 | whatever became of the connection that explains the answers of an Ok, it is made exactly when `connect` succeeded at once or `select` reported writable, and broken otherwise |
| WindowsSocket.OkWithoutConnectionHappens | src/sys/windows/bt.rs:196-202 | for every non-zero timeout an Ok over a broken connection is possible |
| WindowsDiscovery.DiscoverDevices | src/sys/windows/bt.rs:376-445 | for every provider: Ok means the address of each of its results at its place and that it fits, else the failing call's error; still going is what `After` says; one that fits needs at most its results and new maxima in turns; never offers more bytes than the buffer has; the handle leaks exactly on an error inside the loop |
| WindowsDiscovery.LeakIffLookupFailed | src/sys/windows/bt.rs:427-445 | of any calls that end a discovery, the handle is left open exactly when the last one is a lookup that failed |
| WindowsDiscovery.LeakHappens | src/sys/windows/bt.rs:434 | for every provider and every error but the two that the loop handles, some discovery ends with the handle open |
| WindowsDiscovery.KeepsGrowing | src/sys/windows/bt.rs:403-438 | a faulting turn of the method is a turn of `After`, and a provider that fits pays for it with a new maximum |
| WindowsDiscovery.DecodedIsPointwise | src/sys/windows/bt.rs:419-425 | result i is the address of the provider's result i, none lost or repeated |
| WindowsDiscovery.GrowForOne | src/sys/windows/bt.rs:430-433 | a retry costs one new maximum and the grown buffer holds the result asked for |
| WindowsDiscovery.GrowthCovers | src/sys/windows/bt.rs:430-433 | a resize strictly grows to at least the need, or wraps to length zero from 2^32 - 8 on |
| WindowsDiscovery.EndsIffFits | src/sys/windows/bt.rs:403-438 | the loop ends exactly when no result asks for a growth that wraps |
| WindowsDiscovery.FitsByBound | src/sys/windows/bt.rs:430-433 | needs below 2^32 - 8 always end, a need above 2^32 - 8 never does |

## Left out

- Processes.Process.CvtR: assumes that only finitely many calls are interrupted (any number); the source loops for ever otherwise. Every finite part of such an endless run is a run of the concurrent machine, so the results over runs hold for it too.
- WindowsDiscovery.DiscoverDevices: watches the loop for a given number of turns, any number, since `EndsIffFits` shows that it does not end for every provider.
- UnixDiscovery.DiscoverDevices: takes the inquiry's responses as written to the front of the buffer and no more than its 256 entries.
- UnixSocket.NewSocket: assumes that a kernel accepting SOCK_CLOEXEC sets the flag, as the code does; only F_DUPFD_CLOEXEC may lie.
- A connection in progress settles when somebody looks at its socket by `poll` or SO_ERROR, not at the moment before.
- A `FileDesc` adopted from a raw number, and code outside the crate that closes or changes a number the crate owns.
- Rust's ownership rules are taken as given: a handle is neither dropped nor given away while a call borrows it.
- Kernel rounding of stored timeouts: the option store returns what was written.
- Transfers (`send`, `recv`, `peek` and their variants, `read`, `write`), `shutdown`, socket names and `Debug`: single calls.
- The memory layout of socket addresses, the RFCOMM channel (always 1), the poll event mask and the inquiry duration.
- Winsock initialisation, and creating, accepting and duplicating Windows sockets: the same ownership pattern with one kernel path.
- Targets other than Linux and 64-bit Windows.
