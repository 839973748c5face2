# Distributed File Sync: a verified model

A peer-to-peer program keeps one folder equal on every node of a local network. A watcher thread diffs the folder against
its last snapshot and buffers what it found; a handler thread replays the buffer into the node's file table, broadcasts it,
and works through the messages of other nodes, pulling files over TCP; a discoverer and a table manager take care of nodes
that join. This project models those threads, the protocol between nodes and the algorithms inside, and proves what every
run of them keeps, where it ends, and when it does not end well.

| file | contents |
|---|---|
| `Base.dfy` | paths, hashes, changes, the key order of a map, runs of a state machine |
| `DirectoryDiff.dfy` | the two diffs and the replay loop |
| `EraseLoop.dfy` | the loop that erases while it iterates |
| `WatchPipeline.dfy` | watcher, buffer, handler and `dirLock`: the small-step machine and the class that refines to it |
| `FileTransfer.dfy` | the stop-and-wait transfer |
| `PacketCodec.dfy` | packets |
| `Hashing.dfy` | `getFileHash` with its 64-bit arithmetic |
| `FolderListing.dfy` | the recursive listing, the tables made from it, how a node starts |
| `RequestFiles.dfy` | skip, pull or delete, one change at a time |
| `Mailbox.dfy` | ownership of messages between three threads |
| `JoinHandshake.dfy` | newcomer and one existing node, seen alone |
| `Network.dfy` | any number of nodes with four threads each: events, runs, the shape every run keeps |
| `NodePipeline.dfy` | one node of a run: the watch pipeline, what its threads wait for, the packets behind its messages |
| `Propagation.dfy`, `Preservation.dfy` | the invariant of a file being spread, and that every event keeps it |
| `Convergence.dfy` | the measure every event lowers, and the disks a quiet network has |
| `Knots.dfy` | threads that wait for each other: how runs end, and that a knot is for good |
| `Schedules.dfy` | particular runs: a message worked off, handlers that ask each other |
| `SingleOrigin.dfy` | instance: agreeing nodes, one batch of user changes |
| `OriginPair.dfy`, `OriginBlocks.dfy`, `OriginWaits.dfy` | when its handlers can block each other: two nodes, schedules, the exact condition |
| `NetworkJoin.dfy`, `JoinLoses.dfy`, `JoinWaits.dfy` | instance: a newcomer joins a network |
| `ProgramRules.dfy` | both instances with the program's own hash and transfer |

Where the program updates an object, an array or a packet step by step, the model is a class or a method with its loop,
proved against a function; the properties are proved about that function. Threads are state machines whose steps are the
program's critical sections or single assignments, and results about them quantify over every finite run.

A request is two events, sent and collected, and a third serves it: it is collected when the peer's discoverer is idle and
served when the peer's handler is, and until then the asking thread holds `dirLock` and waits without limit, as the code
does. So a run of the network ends in one of two ways: quiet, with nothing on the way, in a buffer or in hand, or in a knot,
threads that wait for each other for good. The results say where every disk is when it is quiet, and from the inputs alone
whether a knot can be reached.

Three things the program makes of a file are parameters of the network results (`Rules`): the hash its watcher announces,
the hash a receiver recomputes for its skip test, and what a peer has after a transfer. Where every disk ends is stated
exactly in terms of them, and assumes of them only that a second transfer of a transferred file loses nothing more.
`ProgramRules` puts the program's own in their place.

## Where the code and its documentation differ

The model follows the code.

- The repository's README.md, line 15, says the existing node's file wins for a path known to both. The filter at
  Node.cpp:435-449 erases at `i` and then increments, so every second one of neighbouring edits is requested after all;
  `JoinLoses.NetworkWinsIff` gives the exact condition and `ProgramRules.TwoEmptyFilesOverwrite` an input.
- Line 3 promises files of any size. Lengths and positions are 32 bits at Node.cpp:112-116; `CompleteIffTransferable` gives
  the exact lengths, and `HugeFileIsLost` shows what becomes of a file of 2^32 bytes, on its own node too. A table of 65536
  entries or more is cut as well (`WholeTableIffSmall`).
- Nothing in the documentation says that a node can stop serving. A handler that waits for a file serves nobody
  (Node.cpp:236-286, 299-314), so handlers can wait for each other; `OriginWaits.BlocksIff` and `JoinWaits.BlocksIff` say
  from which inputs on.
- Line 39 says the sender seeks to the client's position. It never does; it is correct because every chunk it reads is
  written before the next one is read.
- Line 47 says each character is multiplied by a prime and that the path is relative to the shared folder. The multiplier
  is the list index 0..9, path characters are not multiplied, and the path is relative to Documents (FileHelper.cpp:61-90).
- The skip test at Node.cpp:408 joins folder and path with a separator although the path starts with one, so the recomputed
  hash sees one character more than the announced one and never recognises the file that was announced (`NeverRecognised`).
- `packet id reference.txt` gives 101 as the receiver's answer with its position; the code sends 101 as the end of the file, and
  the answer has no id. Packets with id 2 are no longer sent.
- `size_t` is written in two places and read back as 32 bits; the model takes it as 32 bits wide.

## Model

| member | source | states |
|---|---|---|
| SingleOrigin.EveryInterleavingSettles | Distributed File Sync/Distributed File Sync/Node.cpp:185-207 | In a network of any size that agrees, after one batch of user changes at one node: every interleaving of watchers, flushes, requests and message handling, the re-broadcasts of the receivers included, has at most `Bound` events (an explicit number). One that can go no further has every disk at its outcome (other nodes have the origin's file as a transfer leaves it; so has the origin where its own file comes back cut) and every table and snapshot to match, or has left threads that wait for each other for good. |
| SingleOrigin.ConvergesIff | Distributed File Sync/Distributed File Sync/Node.cpp:277-286 | The settled disks of two or more nodes all equal what the user made of the origin's if and only if every edit is distinguishable, by the announced hash (the watcher notices) and by the hash the receiver recomputes (no receiver skips), and every new or edited file survives a transfer. |
| SingleOrigin.DistinguishablePaths | Distributed File Sync/Distributed File Sync/Node.cpp:408-411 | The condition on hashes says of every changed path exactly that its change reaches the other nodes; an added or deleted path always does. |
| SingleOrigin.SomeRunSettles | Distributed File Sync/Distributed File Sync/Node.cpp:348-352 | Whatever the inputs, some run brings every disk to its outcome. |
| OriginWaits.BlocksIff | Distributed File Sync/Distributed File Sync/Node.cpp:299-314 | Whatever arrives whole or cut, as long as no node recognises a file it was given when that is announced: some run brings threads to wait for each other for good if and only if (three nodes or more) the receivers' watchers notice some file they are given, or (two nodes) the origin's watcher notices a file that comes back and another file comes back as well. |
| OriginWaits.CanBlockIfWhole | Distributed File Sync/Distributed File Sync/Node.cpp:108-145 | If every new or edited file arrives whole, that condition is: three nodes or more, and some file is sent about. |
| OriginBlocks.ThreeCanBlock | Distributed File Sync/Distributed File Sync/Node.cpp:277-286 | The schedule behind it for three or more nodes: two receivers pull the file, both announce it, and each handler then asks the other for it. |
| OriginBlocks.TwoCanBlock | Distributed File Sync/Distributed File Sync/Node.cpp:400-423 | The schedule for two nodes: the peer scans between two pulls and so announces two files one after the other; the origin works off one, announces what it was given, and asks for the other while the peer asks back. |
| OriginWaits.NeverBlocks | Distributed File Sync/Distributed File Sync/Node.cpp:299-314 | In all other cases no reachable state has threads that wait for each other for good, whatever the skip test recognises. |
| OriginPair.OnceStep | Distributed File Sync/Distributed File Sync/Node.cpp:400-423 | Behind it, for two nodes and one file that comes back: its one announcement is in at most one place, still to be made, in the peer's buffer, with the origin, or dealt with, and the origin waits only for it; every event keeps that. |
| OriginWaits.EveryRunGoesOn | Distributed File Sync/Distributed File Sync/Node.cpp:348-352 | There no run is a dead end: each can be continued until nothing is left to do and every disk is at its outcome. |
| ProgramRules.SourceConvergesIff | Distributed File Sync/Distributed File Sync/FileHelper.cpp:61-90 | With `getFileHash` and the stop-and-wait transfer: all settled disks equal the origin's if and only if every edit is distinguishable and every new or edited file is shorter than 2^32 bytes or has a length mod 2^32 above 2^32 - 1024. |
| ProgramRules.SourceBlocksIff | Distributed File Sync/Distributed File Sync/Node.cpp:404-416 | With the program's hash and transfer that condition is exact for all files that, as they arrive, have with their path fewer than 2^52 characters; nothing is assumed of the skip test. For transferable lengths it is: three nodes or more, and some file is sent about. |
| ProgramRules.HugeFileIsLost | Distributed File Sync/Distributed File Sync/Node.cpp:112-117 | An input that fails: a new file of 2^32 bytes. The other node ends with an empty file, and so does the node where the user put it, unless its skip test takes the empty file for its own. |
| ProgramRules.InvisibleEditStays | Distributed File Sync/Distributed File Sync/FileHelper.cpp:61-90 | With the program's own hash, an edit that keeps the size and touches only characters at positions divisible by ten never leaves its node. |
| ProgramRules.OneByteEdit | Distributed File Sync/Distributed File Sync/FileHelper.cpp:61-90 | An input: any edit of a one-byte file, read as it is stored. Two nodes settle on different files. |
| ProgramRules.PlainDistinguishable | Distributed File Sync/Distributed File Sync/FileHelper.cpp:61-90 | For seven-bit files in the range without wrap-around the condition on hashes is one on file weights: every edit changes size plus weighted byte sum, and not by exactly one separator. |
| NetworkJoin.ArrivalSettles | Distributed File Sync/Distributed File Sync/Node.cpp:56-71 | A newcomer joins any number of agreeing nodes, its arrival reaching each of them at any time, also after the node has pulled from others. With the intended filter, or with edits apart, every interleaving of watchers, handlers, discoverers and table managers has at most `Bound` events; one that can go no further has every disk where path by path it should be and every table and snapshot to match, or has left threads that wait for each other for good. |
| NetworkJoin.WonIff | Distributed File Sync/Distributed File Sync/Node.cpp:429-452 | With the intended filter, or with edits apart, a settled network has the newcomer's files overridden by the network's on every node if and only if the two hashes tell the files apart and every file that one side needs from the other survives the transfer. |
| JoinLoses.SomeRunSettles | Distributed File Sync/Distributed File Sync/Node.cpp:348-352 | There, whatever the hashes confuse and whatever arrives cut, some run brings every disk where it should be. |
| JoinLoses.NetworkWinsIff | Distributed File Sync/Distributed File Sync/Node.cpp:435-449 | With the filter loop as written and files that arrive whole: every settled state that can be reached is won and no file of the network's is ever off all disks, if and only if the hashes tell the files apart and edits are apart. For one existing node the latter is: its diff has no two adjacent edits. For more, whose diffs change as they pull from each other: there is at most one edit. |
| JoinLoses.NetworkLoses | Distributed File Sync/Distributed File Sync/Node.cpp:435-449 | If edits are not apart some run, built event by event, overwrites one of the network's files on every node, after which no continuation restores it. |
| JoinLoses.GoneStays | Distributed File Sync/Distributed File Sync/Node.cpp:395-427 | Where every remaining copy of a path is the newcomer's, whole or as it arrived, it stays so over every run. |
| ProgramRules.TwoEmptyFilesOverwrite | Distributed File Sync/Distributed File Sync/Node.cpp:435-449 | An input, with the program's own hash and transfer and any number of existing nodes: two empty files of the newcomer's where the network has one-byte files. Some run leaves an empty file in place of the network's everywhere. |
| ProgramRules.SourceJoinIsSound | Distributed File Sync/Distributed File Sync/Node.cpp:108-145 | With the program's transfer, nothing is assumed of a join but that the paths of both sides together fit a table. |
| ProgramRules.SourceJoinIsWhole | Distributed File Sync/Distributed File Sync/Node.cpp:108-145 | With the program's transfer, that every file needed arrives whole is the condition on lengths above. |
| JoinWaits.BlocksIff | Distributed File Sync/Distributed File Sync/Node.cpp:66-71 | With edits apart, for files that arrive whole and are not recognised: some run brings threads to wait for each other for good if and only if an existing node needs a file of the newcomer's, and there is another existing node, another such file, or a file the newcomer needs. |
| JoinWaits.CanBlockBlocks | Distributed File Sync/Distributed File Sync/Node.cpp:354-372 | The three schedules behind it: two existing nodes that announce the same pull to each other; newcomer and existing node that announce what they pulled from each other; a discoverer still pulling and the newcomer's handler. |
| JoinWaits.EveryRunGoesOn | Distributed File Sync/Distributed File Sync/Node.cpp:348-352 | In all other cases no run is a dead end: each can be continued until nothing is left to do and every disk is where it should be. |
| Knots.QuietOrKnotted | Distributed File Sync/Distributed File Sync/Node.cpp:299-314 | A state of the network in which nothing can happen is quiet, or some threads of it each have something in hand and wait for another of them. |
| Knots.KnotStays | Distributed File Sync/Distributed File Sync/Node.cpp:299-314 | Threads that wait for each other do so for good: over every continuation the same jobs stay in the same hands and the network is never quiet. |
| Knots.GoesOn | Distributed File Sync/Distributed File Sync/Node.cpp:348-352 | Where no knot can be reached, every state can be continued to a quiet one. |
| Schedules.WorkOff | Distributed File Sync/Distributed File Sync/Node.cpp:395-427 | With the sender's serving threads idle, a job in hand can be worked off without a break; the disk becomes what pulling every change makes of it and nothing else in the network changes. |
| Schedules.Settles | Distributed File Sync/Distributed File Sync/Node.cpp:348-352 | From any state of the invariant with idle threads, working off one message at a time ends quiet. |
| Convergence.EventLowers | Distributed File Sync/Distributed File Sync/Node.cpp:185-207 | Every event of the network lowers one natural-number measure made of files not yet arrived, unsnapped paths, buffered changes and the work left in every message. |
| Convergence.EveryRunSettles | Distributed File Sync/Distributed File Sync/Node.cpp:185-207 | From every state of the invariant: no run is longer than the measure, and where nothing is left to do every node is settled. |
| Preservation.EventKeepsInv | Distributed File Sync/Distributed File Sync/Node.cpp:277-286 | Every event, of any thread and any message, keeps the network invariant: disks only move from their first file to what a transfer leaves of the spread one, only true and backed changes are announced, tables tell nothing false, and a change is on its way to every node it has not reached. |
| Preservation.QuietPath | Distributed File Sync/Distributed File Sync/Node.cpp:395-427 | When nothing is left to do, every path of every node has arrived. |
| Network.RunKeepsShape | Distributed File Sync/Distributed File Sync/Node.cpp:400-423 | Over every run of the network each thread has one job in hand, one thread at most waits under a node's lock, and the mailbox holds one table. |
| NodePipeline.RunIsPipelineRun | Distributed File Sync/Distributed File Sync/Node.cpp:395-427 | Every run of the network, seen from one node, is a run of the watch pipeline: scans and flushes are its sections, a request that is sent takes `dirLock`, being served is the pull and the release; the lock is held exactly while a job of the node waits, the broadcasts are what the node flushed and the log what it detected. |
| NodePipeline.NodesAgree | Distributed File Sync/Distributed File Sync/Node.cpp:186-207 | So over every run of the network, whatever the other nodes do: with no request of the node under way, replaying its buffer onto its table gives its snapshot at a path if and only if the path agreed at the start or was detected since; broadcasts and buffer are the detected changes, once each, in order. |
| NodePipeline.NothingWhileWaiting | Distributed File Sync/Distributed File Sync/Node.cpp:397-417 | From the moment a request is sent until it is served, over every run, disk, snapshot, table and buffer of the node stay as they are and the lock is held: nothing is scanned, replayed, broadcast or pulled. |
| NodePipeline.ServedAtLast | Distributed File Sync/Distributed File Sync/Node.cpp:397-417 | The event that serves it changes the disk at that one path, by the sender's disk as it is then, and frees the lock; snapshot, table and buffer still stay. |
| NodePipeline.OneThingAtATime | Distributed File Sync/Distributed File Sync/Node.cpp:348-382 | A thread with a job in hand takes part in no event but those that go on with this job: it collects, flushes, opens and serves nothing else. |
| NodePipeline.InHandGoesOn | Distributed File Sync/Distributed File Sync/Node.cpp:299-314 | What a job in hand waits for, exactly: the lock before its next change, the peer's discoverer to collect its request, the peer's handler to serve it; and that it asks unless the change is a deletion or the skip test fires. |
| NodePipeline.IdleThreadsServe | Distributed File Sync/Distributed File Sync/Node.cpp:51-81 | An idle thread is kept from its messages by nothing, a held lock included; a scan and a flush are possible exactly with the lock free and something to do. |
| NodePipeline.AnsweredByPacket | Distributed File Sync/Distributed File Sync/Node.cpp:93-98 | The newcomer is sent the table that reading the packet of the node's own table yields. |
| NodePipeline.FlushedByPacket | Distributed File Sync/Distributed File Sync/Node.cpp:200-202 | Every other node receives the list that reading the packet of the buffer yields. |
| NodePipeline.NewerTableStays | Distributed File Sync/Distributed File Sync/Node.cpp:225-228 | A table that finds the mailbox full takes the place of the one in it; that one is lost and every other message stays. |
| WatchPipeline.AgreementOverAllRuns | Distributed File Sync/Distributed File Sync/Node.cpp:186-207 | Over every interleaving of watcher, handler, pulling thread and user: whenever `dirLock` is free, replaying the buffer onto the handler's table gives the watcher's snapshot at a path if and only if the path agreed at the start or has been detected since; broadcasts followed by the buffer are the detected changes, once each, in order. |
| WatchPipeline.CachesAgree | Distributed File Sync/Distributed File Sync/Node.cpp:186-207 | With an unchanged directory between the constructor and the first scan the two caches agree modulo the buffer, and are equal when it is empty. |
| WatchPipeline.EarlyChangeStaysUnseen | Distributed File Sync/Distributed File Sync/DirectoryMonitor.cpp:30-66 | Without that assumption a path that changed in between stays wrong in the handler's table until somebody touches it again. |
| WatchPipeline.StepKeepsInv | Distributed File Sync/Distributed File Sync/Node.cpp:186-207 | Every single step, failed `try_lock` included, keeps lock discipline, agreement and the account of changes. |
| WatchPipeline.FlushIsItsSteps | Distributed File Sync/Distributed File Sync/Node.cpp:186-207 | The handler's small steps add up to: apply the buffer, broadcast it, empty it. |
| WatchPipeline.ScanIsItsSteps | Distributed File Sync/Distributed File Sync/DirectoryMonitor.cpp:56-65 | The watcher's small steps add up to: append the diff, replace the snapshot. |
| WatchPipeline.FlushIsAtomic | Distributed File Sync/Distributed File Sync/Node.cpp:186-207 | Under every interleaving with the other threads and the user, a handler that got the lock has, when it gives it back, done exactly the whole section. |
| WatchPipeline.ScanIsAtomic | Distributed File Sync/Distributed File Sync/DirectoryMonitor.cpp:56-65 | Under every interleaving, a watcher that got the lock has appended the difference between its two snapshots and touched neither table nor broadcasts. |
| WatchPipeline.UnderAPull | Distributed File Sync/Distributed File Sync/Node.cpp:397-417 | Over every run in which a pulling thread keeps the lock only the directory changes; a `try_lock` that fails does nothing. |
| WatchPipeline.OnlyTheHolder | Distributed File Sync/Distributed File Sync/Node.cpp:186-186 | While somebody holds the lock nobody else takes a step, but for the user and for a `try_lock` without effect; a free lock can be taken by any of the three threads, and nothing else can happen. |
| WatchPipeline.SyncedFolder.GetDirectoryChanges | Distributed File Sync/Distributed File Sync/DirectoryMonitor.cpp:81-117 | The two loops return the snapshot diff and the snapshot becomes the directory. |
| WatchPipeline.SyncedFolder.WatchOnce | Distributed File Sync/Distributed File Sync/DirectoryMonitor.cpp:56-65 | One turn of the watch loop is the machine's scan section, lock released. |
| WatchPipeline.SyncedFolder.FlushChanges | Distributed File Sync/Distributed File Sync/Node.cpp:186-207 | The update loop, broadcast and clear are the machine's flush section; a held lock makes it do nothing at all. |
| DirectoryDiff.GetMergeChanges | Distributed File Sync/Distributed File Sync/DirectoryMonitor.cpp:119-149 | The loop over the foreign map returns the one list that describes the difference in ascending key order (`OnlyMergeDiff`). |
| DirectoryDiff.OnlyMergeDiff | Distributed File Sync/Distributed File Sync/DirectoryMonitor.cpp:119-149 | A list with one right change per differing path of the foreign map, in ascending order of the paths, is the merge diff: members and order determine it. |
| DirectoryDiff.MergeDiffAscends | Distributed File Sync/Distributed File Sync/DirectoryMonitor.cpp:125-126 | The merge diff names its paths in ascending order. |
| DirectoryDiff.SnapshotDiffAscends | Distributed File Sync/Distributed File Sync/DirectoryMonitor.cpp:88-114 | The directory diff has additions and edits first, in ascending order, then the deletions, in ascending order. |
| Base.BeforeIff | Distributed File Sync/Distributed File Sync/DirectoryMonitor.cpp:88-88 | That order: at the first difference the smaller unit decides, and a proper prefix comes first. |
| DirectoryDiff.SnapshotDiffDescribes | Distributed File Sync/Distributed File Sync/DirectoryMonitor.cpp:81-117 | Every differing path has exactly one change, of the right kind and hash; equal paths have none; nothing else is in the list. |
| DirectoryDiff.MergeDiffDescribes | Distributed File Sync/Distributed File Sync/DirectoryMonitor.cpp:119-149 | The host/foreign diff describes the step from the host to the host overridden by the foreign map, and holds no deletion. |
| DirectoryDiff.ApplyAt | Distributed File Sync/Distributed File Sync/Node.cpp:189-199 | After a replay a path has what the last change mentioning it says, or its old entry. |
| DirectoryDiff.DescribedReplay | Distributed File Sync/Distributed File Sync/Node.cpp:189-199 | Replaying any description of the difference between two tables turns the one into the other. |
| DirectoryDiff.PermutedDescription | Distributed File Sync/Distributed File Sync/DirectoryMonitor.cpp:81-117 | Any permutation of a description describes the same difference. |
| DirectoryDiff.DiffThenReplay | Distributed File Sync/Distributed File Sync/Node.cpp:189-199 | Diff, shuffle, replay: the old table becomes the new one. |
| DirectoryDiff.MergeThenReplay | Distributed File Sync/Distributed File Sync/DirectoryMonitor.cpp:119-149 | The same for the host/foreign diff: the foreign entries override the host's. |
| DirectoryDiff.OverloadsAgree | Distributed File Sync/Distributed File Sync/DirectoryMonitor.cpp:119-149 | The host/foreign diff is the directory diff with its deletions removed, order included. |
| EraseLoop.DropUnwanted | Distributed File Sync/Distributed File Sync/Node.cpp:435-449 | The in-place loop, erasing at `i` and still incrementing, terminates and keeps exactly the changes `Survivors` selects. |
| EraseLoop.RunKeepsHalf | Distributed File Sync/Distributed File Sync/Node.cpp:435-449 | Of a run of n neighbouring doomed changes exactly the second, fourth, ... stay: n/2 of them, rounded down. |
| EraseLoop.WantedOnesSurvive | Distributed File Sync/Distributed File Sync/Node.cpp:435-449 | No wanted change is lost, and their order is kept. |
| EraseLoop.LoopIsFilterIff | Distributed File Sync/Distributed File Sync/Node.cpp:435-449 | The loop is the intended filter if and only if no two doomed changes are neighbours. |
| EraseLoop.DoomedSurvivor | Distributed File Sync/Distributed File Sync/Node.cpp:435-449 | Whenever two are, a change that should have gone is still there. |
| EraseLoop.NothingDoomed | Distributed File Sync/Distributed File Sync/Node.cpp:435-449 | A list without doomed changes, such as the newcomer's, passes unchanged. |
| JoinHandshake.OrderDoesNotMatter | Distributed File Sync/Distributed File Sync/Node.cpp:66-71 | When the two sides ask for different paths, every interleaving of their pulls leaves the disks each would have had alone, pulling from the other's first disk. |
| JoinHandshake.IntendedOutcome | Distributed File Sync/Distributed File Sync/Node.cpp:429-452 | With the intended filter both disks end path by path as computed, for all rules and all table sizes, whichever side pulls first. |
| JoinHandshake.IntendedWinsIff | Distributed File Sync/Distributed File Sync/Node.cpp:429-452 | With tables below 65536 entries both disks end as the newcomer's files overridden by the existing node's if and only if the hashes tell the files apart and every file needed arrives whole. |
| JoinHandshake.SlippedEdit | Distributed File Sync/Distributed File Sync/Node.cpp:435-449 | With two adjacent edits in the existing node's diff there is an order of pulls in which the existing node's file is overwritten, whatever else the hashes confuse. |
| JoinHandshake.JoinIff | Distributed File Sync/Distributed File Sync/Node.cpp:429-452 | With the loop as written and tables below 65536 entries, the existing node wins under every order of the pulls if and only if its diff has no two adjacent edits, the hashes tell the files apart and every file needed arrives whole. |
| JoinHandshake.TwoEditsLose | Distributed File Sync/Distributed File Sync/Node.cpp:435-449 | The smallest failing case: two paths known to both sides with different files. |
| JoinHandshake.LaterEditSlips | Distributed File Sync/Distributed File Sync/Node.cpp:435-449 | Which of the two slips through: the loop drops the edit whose path comes first and asks for the other. |
| JoinHandshake.NewcomerDropsNothing | Distributed File Sync/Distributed File Sync/Node.cpp:371-371 | The newcomer's side of the loop changes nothing. |
| JoinHandshake.DealWithHashTable | Distributed File Sync/Distributed File Sync/Node.cpp:429-452 | The method puts diff, filter loop and requests together: the disk becomes what pulling the survivors makes of it, the sender's disk being any at each request. |
| JoinHandshake.RequestedPath | Distributed File Sync/Distributed File Sync/Node.cpp:429-452 | What that is at each path it asks for: the path has one request, for what the table lists and the node lacks or has with another hash; the file stays if the skip test fires or the sender lacks it, and otherwise is what a transfer makes of the sender's file at that request. |
| RequestFiles.ReplayOutcome | Distributed File Sync/Distributed File Sync/Node.cpp:395-427 | For any change list whose last word on a path agrees with the sender's disk: an unmentioned path is untouched; a mentioned one ends as what a transfer makes of the sender's file, unless every change for it looks like the file already there, in which case it stays. |
| RequestFiles.AgreesIff | Distributed File Sync/Distributed File Sync/Node.cpp:395-427 | Receiver and sender agree on a mentioned path if and only if a stuck path holds the sender's file already, and one that is not stuck has a file that arrives whole. |
| RequestFiles.SoundSkipTestSuffices | Distributed File Sync/Distributed File Sync/Node.cpp:408-411 | If the skip test fires only on equal content for each path's last change and files arrive whole, the receiver ends with the sender's file at every mentioned path and its own everywhere else. |
| RequestFiles.PullServed | Distributed File Sync/Distributed File Sync/Node.cpp:395-427 | Outcome at a path the sender has, for any list, repeated changes included. |
| RequestFiles.PullUnserved | Distributed File Sync/Distributed File Sync/Node.cpp:320-323 | At a path the sender lacks, abandoned requests change nothing and only a deletion deletes. |
| RequestFiles.PullAllTwice | Distributed File Sync/Distributed File Sync/Node.cpp:395-427 | Working through one list twice is working through it once. |
| RequestFiles.PullEachOfOne | Distributed File Sync/Distributed File Sync/Node.cpp:395-427 | When the sender's disk stays as it is, the loop's outcome is the one all results above are about. |
| RequestFiles.PullEachLast | Distributed File Sync/Distributed File Sync/Node.cpp:395-427 | With a sender whose disk is another at each request and any list: the last change for a path decides, on what the earlier ones left there and on the sender's disk at that moment. |
| RequestFiles.PullEachAt | Distributed File Sync/Distributed File Sync/Node.cpp:395-427 | In a list that names no path twice each path ends as its one change says: deleted, as it was, or what a transfer makes of the sender's file at that request. |
| RequestFiles.PullEachOthers | Distributed File Sync/Distributed File Sync/Node.cpp:395-427 | A path the list does not name keeps its file. |
| RequestFiles.WholeIffTransferable | Distributed File Sync/Distributed File Sync/Node.cpp:299-336 | Every file arrives whole if and only if every length passes the 32-bit comparison of the transfer. |
| RequestFiles.Requester.NegotiateTCPTransfer | Distributed File Sync/Distributed File Sync/Node.cpp:299-336 | Through encoded request, decoded reply and the transfer the receiver gets the delivered bytes at that path, or nothing changes when the peer lacks the file. |
| RequestFiles.Requester.RequestFiles | Distributed File Sync/Distributed File Sync/Node.cpp:395-427 | The loop leaves the lock free and the disk that the three rows above determine at every path, the sender's disk being any at each request. |
| FileTransfer.TransferOverAllRuns | Distributed File Sync/Distributed File Sync/Node.cpp:108-183 | In every run of the two parties: client file a prefix of the source, position its length as a 32-bit word, at most one message in flight, never more than three moves per chunk plus three; a run of that length has closed both ends with exactly the delivered prefix in ceil(delivered/1024) data packets; a shorter one can go on. |
| FileTransfer.CompleteIffTransferable | Distributed File Sync/Distributed File Sync/Node.cpp:108-145 | The client ends with the source file if and only if it is shorter than 2^32 bytes or its length mod 2^32 exceeds 2^32 - 1024. |
| FileTransfer.DeliveredIs | Distributed File Sync/Distributed File Sync/Node.cpp:112-125 | What is delivered of other files: chunks of 1024 bytes until the length mod 2^32 is reached. |
| FileTransfer.ReceivedWhole | Distributed File Sync/Distributed File Sync/Node.cpp:108-145 | What a peer has after a transfer is the file itself exactly for those lengths, and passing it on loses nothing more. |
| FileTransfer.NeverStuck | Distributed File Sync/Distributed File Sync/Node.cpp:108-183 | Until both ends are closed exactly one move is possible. |
| FileTransfer.MoveKeepsInv | Distributed File Sync/Distributed File Sync/Node.cpp:116-138 | Every move keeps cursor, positions, client file and the one message in step, and brings the end one move closer. |
| FileTransfer.LoopTest | Distributed File Sync/Distributed File Sync/Node.cpp:116-117 | At every chunk boundary the 32-bit loop test is exactly "there is still something to deliver". |
| FileTransfer.PrefixWhateverArrives | Distributed File Sync/Distributed File Sync/Node.cpp:152-172 | Below 2^32 bytes the receiver keeps a growing prefix of the source under any faithful packets, repeated, reordered or with gaps, and reports its length. |
| FileTransfer.RobustIffBelowWord | Distributed File Sync/Distributed File Sync/Node.cpp:152-172 | That tolerance holds if and only if the file is shorter than 2^32 bytes; beyond, one late duplicate breaks it. |
| FileTransfer.SendFile | Distributed File Sync/Distributed File Sync/Node.cpp:108-145 | The loop, driving the client, terminates with the delivered prefix and the exact number of data packets. |
| FileTransfer.Client.Receive | Distributed File Sync/Distributed File Sync/Node.cpp:158-171 | The client writes a packet only at its own position and answers with the position it then has. |
| Mailbox.OwnershipOverAllRuns | Distributed File Sync/Distributed File Sync/Node.cpp:209-231 | Over every interleaving of discoverer, handler and table manager each allocated message is in exactly one place, is disposed at most once, is never read after it was disposed or overwritten; with the mutex free the flag is up exactly when the slot is full. |
| Mailbox.MailboxOrder | Distributed File Sync/Distributed File Sync/Node.cpp:354-382 | Processed tables are pid-1 messages in arrival order; once everything is drained the newest has been processed. |
| Mailbox.OverwritingIsHarmless | Distributed File Sync/Distributed File Sync/Node.cpp:354-372 | If all existing nodes answer with one table, a newcomer whose mailbox is drained has the same disk as one that had worked through every answer, none overwritten: what pulling the filtered request list of that one table makes of it. |
| Mailbox.RequestedIs | Distributed File Sync/Distributed File Sync/Node.cpp:429-452 | That request list is exactly what the table lists and the newcomer's own table lacks or has with another hash. |
| Mailbox.StepKeepsInv | Distributed File Sync/Distributed File Sync/Node.cpp:209-231 | Each atomic step keeps numbering, coherence of flag, slot and mutex, the count of copies, and the order of tables. |
| Mailbox.HandlerStepAhead | Distributed File Sync/Distributed File Sync/Node.cpp:209-231 | The handler never has a choice, and waits only for a message or for the mutex. |
| Mailbox.ManagerStepAhead | Distributed File Sync/Distributed File Sync/Node.cpp:356-381 | Nor has the table manager, which waits only for the mutex; having looked, it looks away exactly if the slot is empty. |
| Mailbox.PacketsFindTheirBranch | Distributed File Sync/Distributed File Sync/Node.cpp:64-81 | A packet with an answered table, a request or a broadcast is queued under the id, 1, 5 or 6, by which the handler picks its branch, with what the sender put in. |
| Mailbox.MessageHub.CollectUdpTraffic | Distributed File Sync/Distributed File Sync/Node.cpp:73-81 | A received packet whose first byte is not 0 becomes a new message at the back of the queue, with that byte as its id and what reading the packet yields. |
| Mailbox.MessageHub.HandleUdp | Distributed File Sync/Distributed File Sync/Node.cpp:209-295 | One turn of the handler is the corresponding run of atomic steps; a request is answered with the file or called off, a broadcast is worked off change by change, anything else leaves the disk alone; an empty queue changes nothing. |
| Mailbox.MessageHub.ManageTable | Distributed File Sync/Distributed File Sync/Node.cpp:356-381 | One turn of the table manager is the corresponding run of atomic steps, and the node's disk becomes what working through the table in the slot makes of it. |
| PacketCodec.ChangeRoundTrip | Distributed File Sync/Distributed File Sync/fileChangePacket.cpp:27-32 | A change with a path below 2^32 characters comes back as it was and leaves exactly the bytes behind it. |
| PacketCodec.ChangesRoundTrip | Distributed File Sync/Distributed File Sync/fileChangePacket.cpp:33-61 | So does every list of fewer than 2^32 changes. |
| PacketCodec.ChangeLayout | Distributed File Sync/Distributed File Sync/fileChangePacket.cpp:27-32 | Length, each character, hash and type stand where the format puts them. |
| PacketCodec.ChangesLayout | Distributed File Sync/Distributed File Sync/fileChangePacket.cpp:33-42 | A broadcast is the byte 6, the number of changes in four bytes, most significant first, then the changes. |
| PacketCodec.AnyKindByte | Distributed File Sync/Distributed File Sync/fileChangePacket.cpp:3-23 | Whatever the type byte: 0 and 1 are additions and deletions, everything else is read as an edit. |
| PacketCodec.IntLayout | Distributed File Sync/Distributed File Sync/fileChangePacket.cpp:27-32 | Byte k of an integer counts the multiples of 256 to the power of the number of bytes behind it. |
| PacketCodec.ReadInt | Distributed File Sync/Distributed File Sync/fileChangePacket.cpp:62-71 | Every byte sequence is the encoding of the number it is read as. |
| PacketCodec.NegotiationRoundTrip | Distributed File Sync/Distributed File Sync/Node.cpp:238-259 | Request and reply, with the embedded change, come back as sent. |
| PacketCodec.NegotiationLayout | Distributed File Sync/Distributed File Sync/Node.cpp:412-414 | A request is the byte 5, the change, two bytes of port; a reply has the flag in place of the 5. |
| PacketCodec.AnyFlag | Distributed File Sync/Distributed File Sync/Node.cpp:317-323 | Any flag but 0 calls the transfer off. |
| PacketCodec.ReadsBack | Distributed File Sync/Distributed File Sync/Node.cpp:219-289 | Arrival, answer, request and broadcast begin with 0, 1, 5 and 6; by that byte each is taken for what it is, and says what the sender put in. |
| PacketCodec.TableRoundTrip | Distributed File Sync/Distributed File Sync/Node.cpp:455-476 | Decoding a table into a map overrides it by the first (size mod 65536) entries in key order and leaves the other entries unread. |
| PacketCodec.WholeTableIffSmall | Distributed File Sync/Distributed File Sync/Node.cpp:455-476 | The whole table arrives if and only if it has fewer than 65536 entries. |
| PacketCodec.TableLayout | Distributed File Sync/Distributed File Sync/Node.cpp:455-462 | A table is the number of its entries in two bytes, as far as they hold it, then the entries in key order. |
| PacketCodec.EntryLayout | Distributed File Sync/Distributed File Sync/Node.cpp:458-460 | Each entry is the length of the path in four bytes, four for each character, eight for the hash; then the others follow. |
| PacketCodec.FirstOnTheWire | Distributed File Sync/Distributed File Sync/Node.cpp:455-462 | Of a longer table the smallest keys are sent: each one cut off comes after all that are on the wire. |
| PacketCodec.Packet.PutChange | Distributed File Sync/Distributed File Sync/fileChangePacket.cpp:27-32 | Appends one encoded change to the packet. |
| PacketCodec.Packet.GetChange | Distributed File Sync/Distributed File Sync/fileChangePacket.cpp:62-71 | Consumes exactly one change from the cursor, or reports that the packet ends too early. |
| PacketCodec.Packet.PutChanges | Distributed File Sync/Distributed File Sync/fileChangePacket.cpp:33-42 | Appends the encoded list, element by element. |
| PacketCodec.Packet.GetChanges | Distributed File Sync/Distributed File Sync/fileChangePacket.cpp:44-61 | Reads pid, count and the elements into the vector, consuming exactly what the decoder does. |
| PacketCodec.Packet.PutEntries | Distributed File Sync/Distributed File Sync/Node.cpp:458-460 | The entry loop appends path and hash of each key, in the order given. |
| PacketCodec.Packet.PutTable | Distributed File Sync/Distributed File Sync/Node.cpp:455-462 | Appends the 16-bit count and all entries in key order. |
| PacketCodec.Packet.GetTable | Distributed File Sync/Distributed File Sync/Node.cpp:465-476 | Reads the counted entries into the map that is passed in. |
| Hashing.GetFileHash | Distributed File Sync/Distributed File Sync/FileHelper.cpp:61-90 | Size, path loop and content loop compute the fold that `StepCases` determines for all characters. |
| Hashing.HashPath | Distributed File Sync/Distributed File Sync/FileHelper.cpp:69-71 | The path loop, characters cut to signed 8 bits. |
| Hashing.HashText | Distributed File Sync/Distributed File Sync/FileHelper.cpp:77-85 | The content loop: the index that is multiplied in is, at byte k, k mod 10. |
| Hashing.StepCases | Distributed File Sync/Distributed File Sync/FileHelper.cpp:70-84 | Every step of the two loops takes a reduced hash through one of five cases of wrapping at 2^64 and reducing; what a character adds is the one number from -128 to 127 equal to it mod 256, in the content loop times k mod 10. |
| Hashing.HighByteSubtracts | Distributed File Sync/Distributed File Sync/FileHelper.cpp:81-81 | An input: bytes 0 and 0xE9 at path \a hash to 168, the second byte subtracting 23. |
| Hashing.BelowModulus | Distributed File Sync/Distributed File Sync/FileHelper.cpp:67-85 | Once anything is folded in, the hash is below UINT64_MAX - 1000, for all inputs. |
| Hashing.EveryTenthByteIsIgnored | Distributed File Sync/Distributed File Sync/FileHelper.cpp:80-84 | Bytes at positions divisible by ten do not affect the result, wrap-around included. |
| Hashing.InvisibleEdit | Distributed File Sync/Distributed File Sync/FileHelper.cpp:61-90 | Two files that differ only there have one hash. |
| Hashing.ClosedFormIff | Distributed File Sync/Distributed File Sync/FileHelper.cpp:61-90 | For seven-bit characters the hash is size + path sum + sum of (k mod 10) * byte k if and only if that number is below the modulus. |
| Hashing.PracticalSizes | Distributed File Sync/Distributed File Sync/FileHelper.cpp:61-90 | It is whenever 1144 * size + 127 * path length is. |
| Hashing.PathOrderIsLost | Distributed File Sync/Distributed File Sync/FileHelper.cpp:69-71 | There, permuting the path does not change the hash. |
| Hashing.SkipTestMeaning | Distributed File Sync/Distributed File Sync/Node.cpp:408-411 | There, the receiver's skip test asks whether two weights are exactly one separator apart, so it never fires on the very file announced. |
| Hashing.NeverRecognised | Distributed File Sync/Distributed File Sync/Node.cpp:408-411 | Outside that range too, wrap-around included, for every path and file below 2^52 characters together: the recomputed hash of a file is not the announced one. |
| Hashing.HashesInRange | Distributed File Sync/Distributed File Sync/Node.cpp:408-411 | There, announced and recomputed hash of one file differ by the separator's code. |
| FolderListing.GetFilepaths | Distributed File Sync/Distributed File Sync/FileHelper.cpp:17-34 | The recursive loop returns the listing characterised by `ListingIsExact`. |
| FolderListing.ListingIsExact | Distributed File Sync/Distributed File Sync/FileHelper.cpp:17-34 | For any tree with proper names: every file reached by a chain of names and nothing else, each once; relative paths start with a separator and give the absolute path back. |
| FolderListing.ListedOnce | Distributed File Sync/Distributed File Sync/FileHelper.cpp:17-34 | No path is listed twice. |
| FolderListing.ConstructTable | Distributed File Sync/Distributed File Sync/Node.cpp:6-11 | Assigning entry by entry builds the table of the listing. |
| FolderListing.CreateFileHashes | Distributed File Sync/Distributed File Sync/DirectoryMonitor.cpp:69-79 | Inserting entry by entry builds the table of the listing. |
| FolderListing.OneTablePerListing | Distributed File Sync/Distributed File Sync/DirectoryMonitor.cpp:69-79 | A listing has only one such table, so both constructions agree. |
| FolderListing.BuildBothTables | Distributed File Sync/Distributed File Sync/Node.cpp:6-11 | Over one directory tree the constructor's table and the watcher's first snapshot are equal. |
| FolderListing.StartUp | Distributed File Sync/Distributed File Sync/Node.cpp:6-11 | A node starts with the table of the directory as the constructor lists it and the snapshot of the directory as the watcher finds it; they are equal if nothing changed in between. |
| FolderListing.ListedHashIsAnnounced | Distributed File Sync/Distributed File Sync/FileHelper.cpp:117-120 | For a folder inside Documents the table's hash is the one the skip test compares with. |

## Left out

- SFML, sockets, ports, timeouts, connection set-up and lost or truncated packets: channels deliver every message; the code defines no recovery.
- Malformed packets beyond "the packet ends too early".
- Windows notifications, their loss or merging: the network model lets the watcher scan at any time.
- Text-mode newline translation: a file's bytes and the characters read from it are related by a parameter.
- Directories as such, permissions and file-system failures: a disk is a map from path to contents.
- Console output, thread creation, user name and Documents path.
- Unlocked reads of `fileHashes` by the discoverer and the table manager: each step is atomic.
- Conflicting edits at several nodes at once, and editing one path again before the network is quiet: the protocol promises no convergence there.
- SingleOrigin.EveryInterleavingSettles: messages carry changes, not bytes; that encoding loses nothing is `PacketCodec.ChangesRoundTrip`, and a broadcast is assumed to fit its datagram.
- JoinWaits.BlocksIff: assumes that files arrive whole and that edits are apart.
- NetworkJoin.ArrivalSettles: assumes that all paths of both sides together fit the 16-bit count of a table; two newcomers at once are not modelled.
- EraseLoop.DropUnwanted: the index is an unbounded integer, the program's an `int`.
- JoinHandshake.JoinIff: assumes tables below 65536 entries, and for its failing half that an edit that slips through is acted on and arrives as something else; without them `JoinHandshake.IntendedOutcome` says what is left on either disk.
- JoinLoses.NetworkWinsIff: assumes files that arrive whole, and for its failing half that an edit that slips through is acted on and noticed where it arrives; without that `NetworkJoin.ArrivalSettles` says what is left on each disk.
- Mailbox.OverwritingIsHarmless: compares every table with the table the newcomer started with; `Network` lets that table change in between.
