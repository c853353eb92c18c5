# iSulad: a verified model

iSulad is a container engine: a daemon, a command line client, and one `isulad-shim`
process per container that keeps the container's output. This project models the parts
of it whose correctness is least obvious and proves what they are for.

- **The container log of the shim** (`LogSegments`, `ContainerLog`). Output arrives in
  arbitrary chunks and is cut into log records through one fixed cache per stream. The
  records are those of a simple greedy segmentation of the whole stream, whatever the
  chunks were; the cache always has room, exactly because a chunk is at most half of it.
- **Log rotation** (`LogRotation`, `LogRetention`, `ShimLog`). Records go to a
  size-bounded live file and a numbered family of older ones. Read from the highest
  number down, the family is a suffix of everything that was accepted, record by record;
  with working renames it is exactly the last groups of records that fill a file.
- **The mailbox** (`Mailbox`, `MailboxRuns`, `MailboxShutdown`, `MailboxHistory`).
  Publishers, one dispatcher thread, subscribers and consumers share reference-counted messages. Over
  every interleaving the count is the number of references, subscribers see one common
  order, and what can still be dispatched after a shutdown is known exactly.
- **Merging of NRI plugin replies** (`NriClaims`, `NriLists`, `NriResult`, `NriReply`,
  `NriKeys`, `PluginResult`). The replies of many plugins are folded into one result with
  an owner per field. Every invariant survives calls that fail part way, since the caller goes on
  after them (`src/daemon/nri/nri_adaption.cc:393`).
- **The JSON printer of `isula inspect`** (`JsonText`, `JsonRoundTrip`, `JsonFormatted`,
  `InspectFormat`), against a reader for sections 4 to 7 of RFC 8259.
- **The command line parser** (`CommandLine`, `CommandLineLaws`, `CommandParser`).
- **The id and name manager** (`IdNameManager`): two sets under their own locks, with
  rollback across them, one call at a time and interleaved.
- **Syslog tags** (`SyslogTag`): the in-place expansion of `{{item}}`.
- **Attached clients** (`AttachFanout`): who receives the container's output while
  clients attach and leave.

Code that changes things in place is a class or a method with loops, proved equal to a
specification function; the theorems are then about that function. Interleavings are step
systems in which each critical section is one step.

Where the code and its comments disagree the model follows the code. The comment at
`src/cmd/isulad-shim/terminal.c:163-167` speaks of a smallest log file of 16k, the code
uses 4k (`src/cmd/isulad-shim/process.c:57`).

Some expected properties do not hold of the code; each is stated with a concrete input
and with the exact condition under which it does hold.

- A second flush of a stream writes its last record again exactly when the cache ended in
  a newline (`LogSegments.FlushTwice`), which short reads can bring about
  (`ContainerLog.SecondFlushRepeats`).
- A log file can outgrow its bound exactly when the live file has to be set aside and its
  rename is refused (`LogRotation.SizesAfter`, `LogRotation.FamilySizes`,
  `LogRotation.OversizedFile`).
- A printed tree reads back exactly when its keys need no escaping, because keys are
  printed unescaped, its strings hold no NUL, because they are printed as C strings, and
  its numbers are valid (`JsonRoundTrip.PrintedTreeReadsBack`,
  `JsonRoundTrip.QuoteInKey`).
- Messages behind the shutdown marker can be dispatched once the marker is lost: when the
  read lock is refused for it, or the queue is cleared again
  (`MailboxShutdown.RefusedLockLosesMarker`, `MailboxShutdown.SecondClearLosesMarker`).
  These are the only steps that do that (`MailboxShutdown.SealLostIff`), and a later
  message can be dispatched exactly when there is no marker any more
  (`MailboxShutdown.SealedIff`, `MailboxShutdown.LateMessageIff`).
- No reply may set both realtime fields of the CPU resources, because they share one
  owner (`NriClaims.RealtimeClash`, `NriClaims.RequestGranted`,
  `NriResult.LingeringRefusal`).
- An adjustment of a list that removes all of it and adds nothing fails, because no array
  of size zero is handed out (`src/utils/cutils/utils.c:77-79`), and the rest of the
  plugin's reply is dropped (`NriLists.AdjustedResult`, `NriResult.RemovalAlone`).
- A granted request leaves all it asks for exactly if it has no huge page limits and no
  unified keys (`NriClaims.LeavesAllIff`, `NriKeys.UnifiedIsLost`). Limits are never
  copied; keys are appended to a map that is never allocated
  (`src/daemon/nri/nri_result.cc:584`, `src/daemon/nri/nri_result.cc:873`,
  `src/daemon/common/nri/nri_utils.c:390`). Both only get an owner.
- A reply with hooks always fails, and keeps no more than its mounts and environment
  (`src/daemon/nri/nri_result.cc:490`, `NriResult.HooksFail`).
- Lists are tracked from the first scalar or cgroups path on, and agree with their owners
  from then on exactly when they were empty at that moment (`NriResult.TrackingStarts`,
  `NriResult.UntrackedDuplicate`).
- A slot can be owned although nothing was collected for it: exactly the slots an update
  reached before it failed (`NriResult.UpdateLingers`, `NriResult.LingeringRefusal`).
- An attach request that is answered with -1 because its input cannot be watched leaves
  its client on the list (`AttachFanout.AnswerAgrees`, `AttachFanout.RefusedClientStays`).
- An empty syslog tag is refused, because no buffer of size zero is handed out
  (`src/utils/buffer/buffer.c:29-31`, `SyslogTag.ParseSyslogTag`).

## Model

| member | source | states |
|---|---|---|
| `LogSegments.SegmentsCanonical` | src/cmd/isulad-shim/terminal.c:277-351 | the greedy segmentation loses no byte, and each of its records ends at its first newline or is a full cache, except a shorter last one |
| `LogSegments.SegmentsUnique` | src/cmd/isulad-shim/terminal.c:277-351 | it is the only list of records of that shape with those bytes |
| `LogSegments.FeedIsPrefix` | src/cmd/isulad-shim/terminal.c:302-350 | one data call writes the first records of the segmentation of cache, chunk and any future bytes, and leaves a cache from which the others follow |
| `LogSegments.FeedIsTheAnswer` | src/cmd/isulad-shim/terminal.c:302-350 | a data call gives the one answer in which every record is a line with its newline or a full cache, the records and a newline-free rest below capacity are the cache and what fits of the chunk, and that rest followed by the bytes that did not fit is the new cache |
| `LogSegments.FlushIsRest` | src/cmd/isulad-shim/terminal.c:319-340 | a flush writes the segmentation of what the cache holds |
| `LogSegments.FlushTwice` | src/cmd/isulad-shim/terminal.c:331-340 | a second flush writes nothing if and only if the cache was empty or did not end in a newline |
| `LogSegments.FeedSettled` | src/cmd/isulad-shim/terminal.c:305-350 | for chunks of at most n bytes, 2n at most the capacity plus one, a data call keeps the invariant that the fill is below capacity and the cache has no newline or holds less than n bytes |
| `LogSegments.RunSettled` | src/cmd/isulad-shim/terminal.c:305-350 | the invariant holds after every sequence of such calls |
| `LogSegments.RoomIff` | src/cmd/isulad-shim/terminal.c:302-350 | for a cache of any size: every sequence of chunks of at most n bytes leaves room in the cache if and only if 2n is at most the capacity plus one |
| `LogSegments.FullDrops` | src/cmd/isulad-shim/terminal.c:305-318 | on a full cache a chunk has no effect at all, so its bytes are lost |
| `ContainerLog.WrittenSound` | src/cmd/isulad-shim/terminal.c:277-351 | every write call keeps both caches below capacity and settled |
| `ContainerLog.RecordsAreCanonical` | src/cmd/isulad-shim/terminal.c:277-351 | after any interleaved reads of both streams, ended by one flush of each, a stream's records are the segmentation of its bytes |
| `ContainerLog.ChunkingIndependence` | src/cmd/isulad-shim/terminal.c:277-351 | two runs give a stream the same records if and only if they read the same bytes on it, however chunked and interleaved |
| `ContainerLog.Conservation` | src/cmd/isulad-shim/terminal.c:305-350 | at every moment the records of a stream followed by its cache are exactly the bytes received, and both caches have room |
| `ContainerLog.CallAppends` | src/cmd/isulad-shim/terminal.c:277-351 | a call only adds records, behind all earlier ones of both streams, all of them its own stream's, and leaves the other stream's cache alone |
| `ContainerLog.RecordsStay` | src/cmd/isulad-shim/terminal.c:277-351 | whatever is read later, the records written so far stay the first ones |
| `ContainerLog.LinesAreWritten` | src/cmd/isulad-shim/terminal.c:302-350 | after every read of a run each complete line among the bytes that fitted is in a record: what is held of them has no newline |
| `ContainerLog.SecondFlushRepeats` | src/cmd/isulad-shim/terminal.c:331-350 | reads of at most two bytes after which one more flush of both streams writes the last record of standard output again |
| `ContainerLog.FinishedRecords` | src/cmd/isulad-shim/process.c:1678-1682 | the two flushes at exit write what is left of each stream and nothing else |
| `ContainerLog.Terminal.constructor` | src/cmd/isulad-shim/terminal.c:277-290 | both caches start empty |
| `ContainerLog.Terminal.EmitLines` | src/cmd/isulad-shim/terminal.c:323-329 | the scanning loop writes one record per newline and returns where the unfinished line begins |
| `ContainerLog.Terminal.Fill` | src/cmd/isulad-shim/terminal.c:305-318 | copies as much of the chunk as fits, never past the end of the cache, and says how much is left over |
| `ContainerLog.Terminal.ShiftDown` | src/cmd/isulad-shim/terminal.c:342-346 | moves the unfinished line to the front |
| `ContainerLog.Terminal.Append` | src/cmd/isulad-shim/terminal.c:347-350 | appends the left-over bytes behind it |
| `ContainerLog.Terminal.Drain` | src/cmd/isulad-shim/terminal.c:319-346 | scan, write of a full or final cache, and shift together do what the specification's scan or flush does |
| `ContainerLog.Terminal.WriteStream` | src/cmd/isulad-shim/terminal.c:295-351 | a whole call on one stream equals its specification, and both copies stay inside the cache |
| `ContainerLog.Terminal.Write` | src/cmd/isulad-shim/terminal.c:277-351 | a call for any stream, with data, with an empty read or as a flush, changes records and caches as specified and leaves the other stream alone |
| `LogRotation.RenameOldIsShift` | src/cmd/isulad-shim/terminal.c:46-76 | the downward loop of renames is an order-preserving shift by one, with the files below a missing number closing up to it and the highest one overwritten |
| `LogRotation.ShiftRead` | src/cmd/isulad-shim/terminal.c:54-71 | with a free number above, the loop loses and reorders nothing, even when it is stopped by a refused rename |
| `LogRotation.RenameOldAged` | src/cmd/isulad-shim/terminal.c:46-76 | the loop loses at most the file with the highest number, as a whole |
| `LogRotation.DumpAged` | src/cmd/isulad-shim/terminal.c:78-117 | so does a complete rotation, whichever renames are refused |
| `LogRotation.WriteKeeps` | src/cmd/isulad-shim/terminal.c:136-180 | a write adds its record at the end, whole or cropped to a file, or not at all, and otherwise loses at most the oldest file |
| `LogRotation.AcceptedIs` | src/cmd/isulad-shim/terminal.c:136-180 | a record that fits the live file is accepted whole; one that does not is accepted up to the size of a file, unless an older file cannot be moved: then, and only then, nothing of it is |
| `LogRotation.FamilyIsSuffix` | src/cmd/isulad-shim/terminal.c:136-180 | over every run with any refused renames, the family read from the oldest file on is a suffix of what was there and what was accepted, with no record split between files |
| `LogRetention.FamilyIsLatest` | src/cmd/isulad-shim/terminal.c:136-180 | with working renames the files are exactly the last groups of the records, the newest in the live file and one per number below max(2, maxFile), where a record joins the last group unless that would outgrow a file; so nothing is lost while there are no more groups than files |
| `LogRetention.GroupsHoldAll` | src/cmd/isulad-shim/terminal.c:136-180 | the groups hold all records in order, each whole unless it is longer than a file |
| `LogRotation.AllAccepted` | src/cmd/isulad-shim/terminal.c:136-180 | with working renames every record is accepted, whole if it fits a file and cropped otherwise |
| `LogRotation.SizesAfter` | src/cmd/isulad-shim/terminal.c:136-180 | all files stay within the size bound if and only if it was not the case that the live file had to be set aside and its rename was refused |
| `LogRotation.FamilyNumber` | src/cmd/isulad-shim/process.c:971-1023 | over every run, whatever renames are refused, there are at most max(2, maxFile) files |
| `LogRotation.FamilySizes` | src/cmd/isulad-shim/terminal.c:136-180 | over every run all files stay within the size bound throughout if and only if no write is stuck with a live file that has to be set aside and cannot be; with working renames none is |
| `LogRotation.OversizedFile` | src/cmd/isulad-shim/terminal.c:98-117 | a full live file whose rename is refused takes one more byte |
| `LogRotation.LogTerminal.constructor` | src/cmd/isulad-shim/terminal.c:353-365 | files that are already there keep their content, and a missing live file is created empty |
| `LogRotation.LogTerminal.RenameFile` | src/cmd/isulad-shim/terminal.c:62-70 | a rename moves a file over its target, and a missing source is no error |
| `LogRotation.LogTerminal.RenameOldLogFile` | src/cmd/isulad-shim/terminal.c:46-76 | the loop over the real files equals the specified shift, with the same failure |
| `LogRotation.LogTerminal.DumpLogFile` | src/cmd/isulad-shim/terminal.c:78-117 | rotation equals its specification, including a live file that cannot be renamed and is reopened for appending |
| `LogRotation.LogTerminal.JsonDataWrite` | src/cmd/isulad-shim/terminal.c:136-180 | a write leaves the files the specification says and fails exactly when nothing was accepted |
| `ShimLog.PipelineKeepsLatest` | src/cmd/isulad-shim/terminal.c:223-351 | end to end: for every chunked input of both streams and every encoding of records, the encoded canonical records are all accepted, and the files are exactly the last groups of them that there are numbers for, within size and number |
| `ShimLog.PipelineKeepsSuffix` | src/cmd/isulad-shim/terminal.c:223-351 | end to end whatever renames are refused: the files hold a suffix of the accepted records, and there are at most max(2, maxFile) of them |
| `Mailbox.ReferencesStep` | src/daemon/mailbox/message_queue.c:49-93 | every step of any participant changes the number of references to a message exactly by what it creates, takes and gives up |
| `Mailbox.NoUnderflow` | src/daemon/mailbox/mailbox_message.c:44-97 | when counts are exact, a reference is only taken from or given up on a message that is still counted |
| `Mailbox.CountedStep` | src/daemon/mailbox/mailbox_message.c:23-97 | every step keeps counts exact, and keeps it true that destroyed payloads are those of freed messages, each destroyed once |
| `Mailbox.MailboxMessage.constructor` | src/daemon/mailbox/mailbox_message.c:23-42 | a new message has one reference and an undestroyed payload |
| `Mailbox.MailboxMessage.Ref` | src/daemon/mailbox/mailbox_message.c:44-66 | the count grows by one as in the step system; the call fails, changing nothing, exactly at INT_MAX or when the mutex is refused |
| `Mailbox.MailboxMessage.Unref` | src/daemon/mailbox/mailbox_message.c:68-97 | the last reference frees the message and destroys its payload once, as in the step system; with a refused mutex nothing changes |
| `MailboxRuns.InvariantKept` | src/daemon/mailbox/message_queue.c:31-96 | counting, queueing order and broadcast order hold together along every run |
| `MailboxRuns.CountsAreExact` | src/daemon/mailbox/mailbox_message.c:44-97 | over every interleaving in which no queue is cleared of messages: a count is the number of references in queues and with holders, no referenced message is freed, and a payload is destroyed exactly when the last reference went, once |
| `MailboxRuns.NeverUnderflows` | src/daemon/mailbox/mailbox_message.c:79-84 | in no reachable state can a step release a message whose count is zero |
| `MailboxRuns.BroadcastOrder` | src/daemon/mailbox/message_queue.c:49-93 | what a subscriber popped followed by its queue is the contiguous run of messages dispatched between its subscribe and unsubscribe, in publish order and without duplicates |
| `MailboxRuns.SubscribersAgree` | src/daemon/mailbox/message_queue.c:49-93 | two subscribers see the same message at every place of their common interval |
| `MailboxHistory.HistoryIs` | src/daemon/mailbox/message_queue.c:49-204 | a subscriber has left, is destroyed, missed a message, had its queue cleared or got no marker, and the mailbox lost a message or dropped one from a queue, if and only if an action of the run did that |
| `MailboxHistory.MadeBySubscribe` | src/daemon/mailbox/message_queue.c:154-182 | every subscriber was made by a subscribe action of the run |
| `MailboxHistory.LeavesForGood` | src/daemon/mailbox/message_queue.c:177-204 | after an unsubscribe action the subscriber is not in the table again; all it took and still has queued was dispatched between its two actions, and is exactly that if no push to it failed and it was neither shut nor destroyed |
| `MailboxHistory.StaysServed` | src/daemon/mailbox/message_queue.c:49-93 | without an unsubscribe action it stays in the table and gets, in the same way, all that was dispatched since it subscribed, except a message being dispatched that has not reached it yet |
| `MailboxShutdown.ShutdownIsFinal` | src/daemon/mailbox/message_queue.c:63-92 | once the dispatcher hands the marker on nothing is ever dispatched again |
| `MailboxShutdown.MarkerReachesAll` | src/daemon/mailbox/message_subscriber.c:68-76 | when the marker's broadcast ends, the queue of every registered subscriber is the marker alone, or empty because its consumer took the marker or that very push failed |
| `MailboxShutdown.SealLostIff` | src/daemon/mailbox/message_queue.c:49-93 | while a marker is ahead of everything outside a set of messages, a step of anyone ends that if and only if it clears the queue before the marker is taken, or is a refused lock for the marker with no other marker in its place |
| `MailboxShutdown.SealedThroughout` | src/daemon/mailbox/message_queue.c:49-93 | along every run that holds at every moment if and only if no step of the run is such a step |
| `MailboxShutdown.NothingBehindMarker` | src/daemon/mailbox/message_queue.c:49-93 | every run without such a step dispatches only messages of the set |
| `MailboxShutdown.ShutdownSeals` | src/daemon/mailbox/message_queue.c:140-152 | from the moment the marker is queued, every run without such a step dispatches only messages that were in line before it |
| `MailboxShutdown.SealedIff` | src/daemon/mailbox/message_queue.c:49-93 | for every state and set of existing messages: no run without clearing and refused locks for the marker dispatches a message outside the set if and only if a marker is ahead of all of them |
| `MailboxShutdown.LateMessageIff` | src/daemon/mailbox/message_queue.c:49-93 | in every reachable state such a run can dispatch a message created later if and only if no marker is queued and the dispatcher is not about to stop |
| `MailboxShutdown.RefusedLockLosesMarker` | src/daemon/mailbox/message_queue.c:58-61 | a run in which the read lock is refused for the marker, after which a message behind it is dispatched |
| `MailboxShutdown.SecondClearLosesMarker` | src/daemon/mailbox/message_queue.c:140-152 | a run in which the queue is cleared with the marker in it, after which a new message is dispatched, with every lock granted |
| `NriClaims.ClaimIsWriteOnce` | src/daemon/nri/nri_result.cc:602-897 | a claim that succeeds or fails only adds scalars and owners, each new scalar is a requested one owned by the claiming plugin, and no ownership of a list entry changes |
| `NriClaims.RequestGranted` | src/daemon/nri/nri_result.cc:602-897 | every request is granted if and only if none of its scalars' slots is owned, it does not set both realtime fields, and, if the container has an owners entry by then, its page sizes and unified keys are distinct and unowned |
| `NriClaims.GrantedIsCollected` | src/daemon/nri/nri_result.cc:602-897 | a granted request leaves the old scalars with its own written over them |
| `NriClaims.KeyedNotCollected` | src/daemon/nri/nri_result.cc:843-875 | no request, granted or not, changes the collected huge page limits or unified keys |
| `NriClaims.LeavesAllIff` | src/daemon/nri/nri_result.cc:602-897 | a granted request leaves all it asks for if and only if it asks for no huge page limits and no unified keys |
| `NriClaims.ClaimKeepsKeys` | src/daemon/nri/nri_result.cc:843-875 | a request, granted or not, takes no page size and no unified key from its owner, and those it adds are the plugin's |
| `NriClaims.ClaimReaches` | src/daemon/nri/nri_result.cc:602-897 | a request, granted or not, comes to own exactly the slots it reaches before the first conflict |
| `NriClaims.ClaimTouches` | src/daemon/nri/nri_result.cc:602-897 | a request leaves an owners entry if and only if there was one or it sets a scalar |
| `NriClaims.RealtimeClash` | src/daemon/nri/nri_result.cc:784-812 | a request with both realtime fields fails whatever was collected before |
| `NriLists.AdjustedResult` | src/daemon/nri/nri_result.cc:266-349 | the list is the old one without the keys marked for removal, followed by the additions, or by an initial part of them on a failure; an adjustment succeeds if and only if nothing was asked, or something is left and, in a tracked container, the added keys are distinct and each owned one is also removed and present |
| `NriLists.AdjustedAgrees` | src/daemon/nri/nri_result.cc:351-434 | when a list has distinct keys that are exactly the owned ones, an adjustment keeps that, even one stopped by a conflict |
| `NriResult.ApplyIsWriteOnce` | src/daemon/nri/nri_result.cc:103-138 | a call, successful or not, changes no collected scalar and no owner of any container, and what it adds it owns |
| `NriResult.CollectedOnce` | src/daemon/nri/nri_result.cc:602-897 | over every sequence of calls a collected scalar and its owner never change again |
| `NriKeys.KeyOwnedOnce` | src/daemon/nri/nri_result.cc:843-875 | over every sequence of calls the owner of a page size or unified key never changes again |
| `NriKeys.NeverCollected` | src/daemon/nri/nri_result.cc:843-875 | over every sequence of calls no huge page limit and no unified key is collected for any container |
| `NriKeys.UnifiedIsLost` | src/daemon/nri/nri_result.cc:856-875 | a first reply with one unified key succeeds and leaves nothing |
| `NriResult.OwnerIsSetter` | src/daemon/nri/nri_result.cc:602-897 | the owner of every collected scalar is the plugin of the very call that set it, and its name is not empty |
| `NriResult.TrackedForGood` | src/daemon/nri/nri_result.cc:266-575 | once a container's list of mounts, environment, devices or limits agrees with its owners, every later call keeps that |
| `NriResult.TrackingStarts` | src/daemon/nri/nri_result.cc:577-595 | resources create the container's owners if and only if they set a scalar, a cgroups path if and only if it is not empty, and a list then agrees with the owners if and only if it was still empty |
| `NriResult.RemovalAlone` | src/daemon/nri/nri_result.cc:320-328 | a first reply whose mounts are one removal fails and changes nothing, whatever else it asks for |
| `NriResult.HooksFail` | src/daemon/nri/nri_result.cc:436-491 | a reply with hooks fails in every state, and its devices, resources, path, limits and updates are dropped |
| `NriResult.UntrackedDuplicate` | src/daemon/nri/nri_result.cc:331-339 | two plugins that add the same mount before that both succeed and the mount is collected twice |
| `NriResult.UpdateLeaves` | src/daemon/nri/nri_result.cc:956-1057 | a rejected request changes nothing; one that is granted adds its scalars to the one entry of its container, and so all it asks for if and only if it asks for nothing else; one that is not granted leaves that entry's resources unchanged; no other entry changes; and a request is let pass if and only if it is granted or its failure is to be ignored |
| `NriResult.UpdateLingers` | src/daemon/nri/nri_result.cc:1018-1057 | after an update a slot is owned without a collected scalar if and only if it was before, or the update is not granted and reached that free slot |
| `NriResult.AdjustNeverLingers` | src/daemon/nri/nri_result.cc:577-595 | resources of the container being created never leave a slot like that |
| `NriResult.LingeringRefusal` | src/daemon/nri/nri_result.cc:1018-1057 | a failing update with both realtime fields and a memory limit, after which another plugin is refused the memory limit that nobody set |
| `NriResult.IndexAlways` | src/daemon/nri/nri_result.cc:956-1057 | after every sequence of calls the reply lists exactly the entries of the update map, each once and never the container being handled, and an entry ignores failure if and only if all accepted requests for it do |
| `NriReply.ReplyCollected` | src/daemon/nri/nri_result.cc:103-198 | a successful reply to a creation: each of the four lists is the old one without the reply's own removals followed by its own additions, the scalars and the path are the old ones with the reply's own written over them, and all its update requests are accepted in order |
| `NriReply.ReplyStops` | src/daemon/nri/nri_result.cc:140-198 | any other reply stops at one part: a part has changed only if all parts before it are done, a list that is not done is as before or has its removals and a beginning of its additions, and no update is touched unless the whole adjustment is done; then the first requests are accepted, up to some point |
| `NriReply.ReplyScalars` | src/daemon/nri/nri_result.cc:577-595 | successful or not, it leaves every scalar of the container being created, and each new one is asked for with that value |
| `NriReply.OtherReplies` | src/daemon/nri/nri_result.cc:103-138 | replies to an update or a stop, or without an adjustment, leave lists and adjusted resources, accept the first requests in order, and all of them if they succeed; a reply to another event or of a nameless plugin fails and changes nothing |
| `NriReply.ReplyLands` | src/daemon/nri/nri_result.cc:956-1057 | for every other container: collected scalars stay, each new one was asked for by a request of the reply with that value, and if the reply succeeds every scalar of a request that does not ignore failure is there with its value |
| `NriReply.AdjustSucceeds` | src/daemon/nri/nri_result.cc:140-198 | an adjustment succeeds if and only if, seen from before it, it has no hooks and no annotation conflict, every list keeps or adds something and adds no key that is taken, its resources and path are free, and so are its limits once the container has owners |
| `NriReply.ReplySucceeds` | src/daemon/nri/nri_result.cc:103-138 | a reply succeeds if and only if its plugin has a name, its event is one of the three, its adjustment is granted, and each request is for another container and is granted, asks for nothing or ignores failure |
| `PluginResult.ContainerUpdate.constructor` | src/daemon/nri/nri_result.cc:995-1006 | a fresh update has the request's id and flag and no resources |
| `PluginResult.PluginResult.constructor` | src/daemon/nri/nri_result.cc:54-65 | nothing is collected and nobody owns anything |
| `PluginResult.PluginResult.ClaimScalars` | src/daemon/nri/nri_result.cc:616-841 | claims the given scalars in order up to the first conflict, keeping what was claimed before it |
| `PluginResult.PluginResult.ClaimEntryKeys` | src/daemon/nri/nri_result.cc:843-875 | claims one owner per page size, or per unified key, up to the first conflict, and copies neither |
| `PluginResult.PluginResult.ClaimAndCopyResources` | src/daemon/nri/nri_result.cc:602-897 | the whole claim equals the specified one and touches only the owners of this container |
| `PluginResult.Split` | src/daemon/nri/nri_result.cc:282-293 | separates the additions, in order, from the keys marked for removal |
| `PluginResult.PluginResult.ClearEntries` | src/daemon/nri/nri_result.cc:295-325 | rebuilds the list without the removed keys and gives up their ownership |
| `PluginResult.PluginResult.AddEntries` | src/daemon/nri/nri_result.cc:327-346 | appends entry by entry, claiming each when the container is tracked, up to the first conflict |
| `PluginResult.PluginResult.AdjustEntries` | src/daemon/nri/nri_result.cc:266-349 | mounts, environment and devices: the in-place adjustment equals its specification, also when it stops at a conflict or because the list it leaves is empty |
| `PluginResult.PluginResult.AdjustRlimitEntries` | src/daemon/nri/nri_result.cc:918-954 | limits are claimed and appended as specified |
| `PluginResult.PluginResult.AdjustAllResources` | src/daemon/nri/nri_result.cc:577-595 | a request's resources are claimed for the container being created as specified |
| `PluginResult.PluginResult.AdjustPath` | src/daemon/nri/nri_result.cc:899-916 | the cgroups path is claimed and set as specified |
| `PluginResult.PluginResult.AdjustAll` | src/daemon/nri/nri_result.cc:140-197 | the parts of an adjustment are applied in order up to the first that fails, and the earlier ones stay |
| `PluginResult.PluginResult.GetContainerUpdate` | src/daemon/nri/nri_result.cc:980-1016 | finds or creates the one entry for a container, refuses the container being handled, and joins the flag |
| `PluginResult.PluginResult.UpdateContainerResources` | src/daemon/nri/nri_result.cc:1018-1057 | works on a copy, and replaces the entry's resources only on success |
| `PluginResult.PluginResult.UpdateContainers` | src/daemon/nri/nri_result.cc:956-978 | goes through the requests up to the first rejected one, or the first failed one whose failure is not to be ignored |
| `PluginResult.PluginResult.ApplyReply` | src/daemon/nri/nri_result.cc:103-138 | the result after one plugin's reply equals the specified one for every event, so the theorems on runs hold of the code's fields |
| `JsonRoundTrip.EscapedReads` | src/cmd/isula/inspect_format.c:176-235 | every string, escaped by the printer and closed by a quote, reads back as itself |
| `JsonRoundTrip.KeyReads` | src/cmd/isula/inspect_format.c:286-333 | a key that needs no escaping reads back as itself |
| `JsonRoundTrip.OnlyCleanKeys` | src/cmd/isula/inspect_format.c:286-333 | no other key does, whatever follows it |
| `JsonRoundTrip.ReadsBack` | src/cmd/isula/inspect_format.c:382-415 | a clean tree reads back at any indent, leaving the text behind it |
| `JsonRoundTrip.OnlyClean` | src/cmd/isula/inspect_format.c:382-415 | a tree that reads back is clean |
| `JsonRoundTrip.PrintedTreeReadsBack` | src/cmd/isula/inspect_format.c:420-427 | the text of a tree at any indent reads back as that tree if and only if it is clean: its keys need no escaping, its strings hold no NUL and its numbers are valid |
| `JsonRoundTrip.QuoteInKey` | src/cmd/isula/inspect_format.c:286-333 | an object with a quote in a key does not read back, at any indent |
| `JsonRoundTrip.ShownTreesReadBack` | src/cmd/isula/inspect_format.c:429-469 | without a format the whole output reads back as the array of the shown trees if and only if all of them are clean in that sense |
| `JsonFormatted.FormattedReadsBack` | src/cmd/isula/inspect_format.c:429-469 | with a format that asks for JSON the output reads back tree by tree if and only if all trees are clean |
| `JsonFormatted.UnquotedText` | src/cmd/isula/inspect_format.c:176-235 | without JSON format a tree is printed as with it, except that each string stands as its escaped text without quotes |
| `JsonFormatted.BareStringReads` | src/cmd/isula/inspect_format.c:176-235 | such a string, up to its first NUL, is got back from its text by the escapes of JSON, and is its text when it has nothing to escape |
| `JsonFormatted.FormattedIsShown` | src/cmd/isula/inspect_format.c:429-469 | any output with a format, whichever flags the trees have, is the JSON output of what is shown for each tree |
| `InspectFormat.Stdout.PrintIndent` | src/cmd/isula/inspect_format.c:273-284 | puts an optional newline and the indent |
| `InspectFormat.Stdout.PutEscaped` | src/cmd/isula/inspect_format.c:190-226 | puts the escape of one character, through the shared hex buffer where there is no short one, and leaves that buffer usable |
| `InspectFormat.Stdout.PrintString` | src/cmd/isula/inspect_format.c:176-235 | the character loop puts the quoted, escaped C string, or the bare one without JSON format |
| `InspectFormat.Stdout.PrintObject` | src/cmd/isula/inspect_format.c:286-333 | puts an object's text with each member on its own line and commas between them |
| `InspectFormat.Stdout.PrintArray` | src/cmd/isula/inspect_format.c:335-380 | puts an array's text the same way |
| `InspectFormat.Stdout.PrintAux` | src/cmd/isula/inspect_format.c:382-415 | puts the text of any tree, indented first if it is a top-level object or array |
| `InspectFormat.Stdout.ShowResult` | src/cmd/isula/inspect_format.c:429-469 | puts the framed list of all trees without a format, one tree per line with one, and nothing for no tree and a format |
| `CommandLineLaws.ArgumentWindow` | src/cmd/command_parser.c:376-416 | parsing only ever drops arguments from the front: what is left is a suffix of what was given, on success and on failure |
| `CommandLineLaws.FindLongIs` | src/cmd/command_parser.c:339-361 | in a table with distinct non-empty names free of '=', the option found is the one named by the text before the first '=' |
| `CommandLineLaws.TableOrder` | src/cmd/command_parser.c:376-416 | two orders of such a table, with distinct letters too, parse every command line alike |
| `CommandLineLaws.OneSetting` | src/cmd/command_parser.c:187-374 | one setting, by letter or by name, as a bare flag, a flag with one of the words for true and false, a value joined by '=' or in the next argument: it does what is meant, written out without the parser, and parsing goes on behind it; or it fails there, exactly if the word is none of those or the option's callback refuses the value or is missing |
| `CommandLineLaws.SettingsRoundTrip` | src/cmd/command_parser.c:187-416 | any list of accepted settings, each written in any of these ways, performs exactly those settings in order |
| `CommandLineLaws.TrailingUntouched` | src/cmd/command_parser.c:376-416 | and then returns the trailing arguments as they were, behind `--` or from the first that is no option |
| `CommandLineLaws.ExitsAt` | src/cmd/command_parser.c:312-374 | an argument that no option of the table has a name or a letter for makes the process exit, and so does `--help`, with nothing done for it |
| `CommandLineLaws.ValueMissing` | src/cmd/command_parser.c:281-374 | an option that needs a value and is the last argument fails and does nothing |
| `CommandLineLaws.FirstOneWins` | src/cmd/command_parser.c:312-361 | where names or letters are shared, the option that comes first in the table is taken |
| `CommandLineLaws.ClusterIsSingles` | src/cmd/command_parser.c:281-329 | a cluster of flag letters has the same outcome as the same flags given one per argument |
| `CommandLineLaws.FlagsFirst` | src/cmd/command_parser.c:281-329 | flag letters in front of any other option of a cluster do what they do alone |
| `CommandLineLaws.ValueInCluster` | src/cmd/command_parser.c:281-310 | an option with a value inside a cluster takes the next argument, and the letters behind it go on as options; it fails exactly if the value is not accepted |
| `CommandParser.Command.constructor` | src/cmd/command_parser.c:123-134 | the window is the whole argument list |
| `CommandParser.Command.ReadOptionArg` | src/cmd/command_parser.c:166-185 | the value is the attached text or else the next argument, which is consumed; without one it fails and nothing is consumed |
| `CommandParser.Command.GetBoolOptionData` | src/cmd/command_parser.c:187-203 | a flag stores its own value, or the boolean of the attached word, or fails on another word |
| `CommandParser.Command.GetOptionData` | src/cmd/command_parser.c:205-266 | each kind of option stores, copies or hands on its value as specified |
| `CommandParser.Command.ParseOptions` | src/cmd/command_parser.c:281-310 | the first option with the letter is served with what is behind it; an unknown letter changes nothing |
| `CommandParser.Command.ParseShortArg` | src/cmd/command_parser.c:312-329 | a cluster is parsed as specified and ends, each turn taking letters away |
| `CommandParser.Command.ParseLongArg` | src/cmd/command_parser.c:331-374 | a long argument is parsed as specified, including help and the unknown option |
| `CommandParser.Command.Parse` | src/cmd/command_parser.c:376-416 | the loop over the argument vector equals the specified parse, with position and count always one window of the arguments, and returns the rest |
| `IdNameManager.Manager.TryAddId` | src/daemon/common/id_name_manager.c:196-213 | adds a valid id that is not there, and otherwise changes nothing |
| `IdNameManager.Manager.TryAddName` | src/daemon/common/id_name_manager.c:237-254 | the same for names |
| `IdNameManager.Manager.TryRemoveId` | src/daemon/common/id_name_manager.c:217-233 | removes a valid id that is there; no id at all is a success |
| `IdNameManager.Manager.TryRemoveName` | src/daemon/common/id_name_manager.c:258-274 | the same for names |
| `IdNameManager.Manager.GetNewId` | src/daemon/common/id_name_manager.c:276-305 | reserves the first free valid draw of at most ten that comes before the source fails, or nothing |
| `IdNameManager.FirstFreeIs` | src/daemon/common/id_name_manager.c:276-305 | the draw used is a free, valid id with only draws before it that are taken or no id; none is used if and only if all draws, or all before the source fails, are taken or no id |
| `IdNameManager.Manager.AddEntryWithExistingId` | src/daemon/common/id_name_manager.c:307-330 | reserves both or neither; succeeds if and only if both are given, valid and free |
| `IdNameManager.Manager.AddEntryWithNewId` | src/daemon/common/id_name_manager.c:332-390 | reserves a fresh id and the name, or the id as the name, or neither; succeeds if and only if there is a fresh id and the name is valid and free |
| `IdNameManager.Manager.RemoveEntry` | src/daemon/common/id_name_manager.c:392-404 | removes both independently and succeeds if and only if everything given was there |
| `IdNameManager.Manager.Rename` | src/daemon/common/id_name_manager.c:406-423 | exchanges the names; succeeds if and only if the new one is valid and free, even when the old one was not there |
| `IdNameManager.HeldStep` | src/daemon/common/id_name_manager.c:88-160 | every step of any caller keeps it true that each element of the sets is held by exactly one reservation, live or in flight |
| `IdNameManager.ReservationsAreSafe` | src/daemon/common/id_name_manager.c:307-423 | over every interleaving no two live reservations share an id or a name, and when no call is in flight the sets are exactly the ids and names of the live ones, so failed calls leave nothing behind |
| `IdNameManager.RemovalsNeverMiss` | src/daemon/common/id_name_manager.c:307-423 | a rollback, rename or removal always finds what it takes out, and finds it valid |
| `IdNameManager.ExistingIdIsRun` | src/daemon/common/id_name_manager.c:307-330 | the call with a given id is a run of the steps, with the sets and the success its method has |
| `IdNameManager.NewIdIsRun` | src/daemon/common/id_name_manager.c:332-390 | so are the calls with a fresh id, for every sequence of draws |
| `IdNameManager.RenameIsRun` | src/daemon/common/id_name_manager.c:406-423 | so is a rename by the owner of a reservation |
| `IdNameManager.RemoveIsRun` | src/daemon/common/id_name_manager.c:392-404 | so is a removal by its owner |
| `SyslogTag.FindPair` | src/cmd/options/opt_log.c:306-322 | the first occurrence of a doubled character, if there is one |
| `SyslogTag.ExpandReplaces` | src/cmd/options/opt_log.c:305-341 | however a tag comes apart into texts, items and a tail without opener, the expansion replaces exactly those items |
| `SyslogTag.ExpandSucceeds` | src/cmd/options/opt_log.c:305-341 | the expansion gives a text if and only if the tag comes apart like that, all items are accepted, and the text is the tag with them replaced |
| `SyslogTag.BracesBack` | src/cmd/options/opt_log.c:305-341 | with an item parser that puts the braces back the expansion is the identity if and only if every opener is closed |
| `SyslogTag.StrStr` | src/cmd/options/opt_log.c:307-322 | searches the working copy up to its NUL |
| `SyslogTag.ReadUpTo` | src/cmd/options/opt_log.c:312-332 | reads a part by overwriting one character with NUL, and restores the copy |
| `SyslogTag.ParseSyslogTag` | src/cmd/options/opt_log.c:283-348 | the in-place scanner returns the expansion of every non-empty tag, and fails exactly when that does or the tag is empty |
| `AttachFanout.AtMostSixteen` | src/cmd/isulad-shim/process.c:563-568 | over every sequence of events at most 16 clients are attached |
| `AttachFanout.ClientFate` | src/cmd/isulad-shim/process.c:365-455 | a client is on the list if and only if its request was let in and no event dropped it since; then it has received exactly the output of both streams read since it joined, in callback order; a dropped one has received a prefix of that |
| `AttachFanout.DaemonGets` | src/cmd/isulad-shim/process.c:383-391 | the daemon's two descriptors each receive their own stream in order, all of it until the first failed write |
| `AttachFanout.DaemonOpen` | src/cmd/isulad-shim/process.c:383-391 | each of the two descriptors is open if and only if no write of its stream to it has failed |
| `AttachFanout.AnswerAgrees` | src/cmd/isulad-shim/process.c:587-608 | the answer is 0 exactly when the client is on the list, if and only if a request that was let in could also be watched |
| `AttachFanout.RefusedClientStays` | src/cmd/isulad-shim/process.c:594-603 | a request answered with -1 whose client receives the next output |
| `AttachFanout.Process.WriteClients` | src/cmd/isulad-shim/process.c:400-406 | the loop that removes failing clients while it walks the list writes to every client once and keeps the others in order |
| `AttachFanout.Process.StdoutCb` | src/cmd/isulad-shim/process.c:365-409 | output is written to the daemon while its descriptor is open, and to every client; an empty read changes nothing |
| `AttachFanout.Process.StderrCb` | src/cmd/isulad-shim/process.c:411-455 | the same with the daemon's error descriptor; clients receive it on the same FIFO |
| `AttachFanout.Process.GetAttachFifoItem` | src/cmd/isulad-shim/common.c:384-410 | finds the first client that has the descriptor, and none for a descriptor that is not positive |
| `AttachFanout.Process.AttachStdinFails` | src/cmd/isulad-shim/process.c:357-362 | the end of a client's input takes that client off the list |
| `AttachFanout.Process.AttachCb` | src/cmd/isulad-shim/process.c:532-610 | a request is let in below the limit and put at the front, and answered as specified |

## Left out

- System calls, epoll, fork and sockets: a read is an arbitrary chunk, a write or rename an outcome given as a parameter.
- The JSON text of a log record and its time stamp (`src/cmd/isulad-shim/terminal.c:182-268`): an arbitrary encoding of records to bytes.
- The syslog branch of the container log, and a missing terminal.
- The overlapping `memcpy` at `src/cmd/isulad-shim/terminal.c:343` is modelled as a move.
- LogRotation.LogTerminal.JsonDataWrite: failing `write`, `open` and `fstat` calls are not modelled, because what the disk then holds is up to the system.
- ContainerLog.RecordsAreCanonical: speaks of runs that end with one flush per stream, because that is how the shim ends; a second flush is the subject of `LogSegments.FlushTwice`.
- MailboxRuns.CountsAreExact: only for runs in which no queue that holds messages is cleared, because the function a queue is given to release its elements is that of the payload (`src/daemon/mailbox/mailbox.c:68`); and in which no release is refused the message's mutex, because it then leaks its reference (`src/daemon/mailbox/mailbox_message.c:75-78`), a case only `Mailbox.MailboxMessage.Unref` has.
- MailboxRuns.InvariantKept: a subscriber is destroyed only after it left the table, took the marker, or the dispatcher stopped. Once the topic is unregistered `mailbox_unsubscribe` has no effect (`src/daemon/mailbox/mailbox.c:158-161`), so a consumer that then gives up before it took the marker destroys a subscriber that the dispatcher may still visit; such runs are not in the model.
- The mailbox's queue, subscriber table and dispatcher are values changed by steps and not objects, because the property is about interleavings; only a message is an object.
- Registration of topics, the validity checks of topics, and the blocking and timeouts of queues.
- The dispatcher's sequence of locks beyond its one read lock per broadcast.
- NRI annotations (their outcome is a parameter), the contents of hooks, plugin launch and registration, conversion to and from CRI.
- The 17 scalar claims of `src/daemon/nri/nri_result.cc:616-897`, written out one by one there, are one loop over a table of fields here.
- PluginResult.PluginResult.GetContainerUpdate: a fresh update has empty resources. This is an assumption the code does not meet: nothing fills the `linux` part that `src/daemon/common/nri/nri_utils.c:478-497` leaves null, and `src/daemon/nri/nri_result.cc:1036` goes through it.
- PluginResult.PluginResult.UpdateContainerResources: the entry has resources, under the same assumption; and copies are faithful.
- `GetReplyResources`, and the order of a request's unified map; it is not null, and its keys are distinct because it is a map.
- NriResult.IndexAlways: the list of accepted requests it speaks about is a history kept by the model and not a field of the source.
- Loading JSON and finding a path in it (`src/cmd/isula/inspect_format.c:47-174`), and the regular expressions of `--format`.
- The reader refuses `\u` escapes of surrogates, which the printer never writes; trees are never null.
- InspectFormat.Stdout.ShowResult: a format comes with one flag per tree, as its caller passes it (`src/cmd/isula/information/inspect.c:298-301`).
- An option named `help` is taken to be a flag; callbacks of options are parameters; `exit` is an outcome.
- The help texts, and the conversions behind options (`src/cmd/command_parser.c:418-702`).
- What counts as an id and a name, and the random source, are parameters; the query whether both exist is left out.
- IdNameManager.ReservationsAreSafe: callers remove and rename only what they reserved, as the daemon does; and no mutex of a set is refused. A refused one in a removal (`src/daemon/common/id_name_manager.c:149-152`) leaves the element in place, so a rollback would leave its id behind.
- IdNameManager.Manager.TryRemoveId: the refused mutex is not modelled, as said above.
- IdNameManager.Manager.TryRemoveName: the refused mutex is not modelled, as said above.
- The item parser of syslog tags (`src/daemon/executor/container_cb/execution_create.c:254-277`) is a parameter, and memory is never exhausted.
- How an attach request is checked before it is let in (`src/cmd/isulad-shim/process.c:482-523`), and the client's input towards the container.
- AttachFanout.ClientFate: descriptors that are open at the same time are different, as the system guarantees.
- The client library, the daemon's configuration and start-up, SELinux labels.
