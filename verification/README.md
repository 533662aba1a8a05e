# Verified models of the network-protocol projects

Dafny models of three of the repository's programs, with proofs about every run
of them: the publish/subscribe broker, the multi-threaded chat server, and the
FTP server and client. Each program appears twice. A class holds its globals and
runs its code on them in place. A function, or a step system, says what that code
computes, so that whole runs and interleavings can be reasoned about.

`dafny verify dfyconfig.toml` checks everything.

## The broker

Topics are append-only logs. A subscriber holds, per topic, a flag and a read
cursor. The publisher appends, the receiver toggles, and the sender, when woken,
replays each subscribed log from its cursor.

* `BrokerModel.dfy` has the shared state as a value, `Broker.dfy` the code on it.
* `BrokerEpochs.dfy` takes each wake-up as one step, which is what its lock is
  for. A reference that knows no cursors (each subscription epoch is owed the
  whole log as of its last wake-up) is proved equal to what cursors deliver.
* `BrokerMicro.dfy` cuts the sender's loop and the receiver's block wherever
  another thread can run. The publisher holds a different mutex and the receiver
  none (its lock is commented out at line 478). Subscribing again is two writes,
  the flag at line 501 and the cursor at line 502; an epoch begins with the
  second. Within an epoch nothing is repeated or reordered, and what is skipped is
  counted exactly. An epoch is free of gaps if and only if none of three races has
  hit it: an append between the last failing size test and the second reading of
  the size at line 397, a reset of the cursor while the sender is past the start
  of the log, or the start of sending from a cursor copied before a reset.
* `BrokerReplays.dfy` counts from the first of the two writes, where the user is
  subscribed again. From there on repeats do reach the subscriber, exactly when
  something was sent between the two writes and the first entry of the log after
  the second. And what an epoch has skipped it never gets.
* `BrokerRaces.dfy` has runs of each kind.
* `BrokerReduction.dfy` shows that with proper exclusion every interleaving of
  the loop's pieces ends like a run with undivided wake-ups and the same publishes
  and toggles, and `BrokerConverse.dfy` that every such run is that of some
  interleaving, so a woken sender does serve its topics. `BrokerExclusion.dfy` shows
  that subscribers get exactly-once delivery back. `BrokerPairs.dfy` shows how little one subscription needs: other
  topics, other users and even appends during the send loop may interleave freely.

## The chat server

Slots `front..rear` inclusive are occupied, and `front == rear` counts as empty,
so the queue always holds back its newest message. The capacity is a parameter
of the model; the server's is 100.

* `RingModel.dfy` and `MessageQueue.dfy` are the queue as a value and in place.
  `isFull` compares with `rear + 1` without the modulo, so it overlooks a full
  queue that starts at slot 0.
* `RingRuns.dfy` shows that the code is first in, first out exactly on the runs
  that never enqueue in that state, that each such enqueue loses exactly a
  queueful, and that with the modulo every run is first in, first out.
* `ChatSystem.dfy` interleaves the threads at the unlocked tests, between the two
  assignments of the first enqueue, and at each send. A run is first in, first out
  throughout exactly when no message is inserted into a full queue and the newest
  is never removed. The receivers' test is not stable. The sender's is, unless it
  was made between those two assignments and nothing else has been enqueued since.
* `ChatBroadcast.dfy` follows each message to each client. The sender sends from
  the slot itself, so a send made while every slot is occupied carries the message
  a whole queueful later. A client has the dequeued stream from its connection on
  if and only if no such send was made to it. An earlier client's stream ends with
  a later one's except in two arrangements, of connections or of sends.
* `ChatProgress.dfy` shows that the server gets on: a faultless run can always
  continue until every message but the newest is dequeued and sent to every client,
  unless the sender has passed a test that no longer holds; and a receiver that finds
  the queue not full can get its message in.
* `ChatRaces.dfy` has runs of each kind, for any capacity.

## The FTP server and client

* `Text.dfy` and `Strtok.dfy` have tokens, decimal printing and `atoi`, and
  `strtok` (section 7.24.5.8 of ISO/IEC 9899:2011) over a character buffer.
* `HostPort.dfy` has the host-port fields of sections 4.1.2 and 5.3.2 of RFC 959
  and the two replies that carry a port. The parser's `if(value)` guard skips a
  zero field together with the shift it stands for, so a port survives the text
  exactly when its low byte is not zero or it is zero altogether. Every port of
  the server's table does.
* `Listing.dfy` has the directory listing, packed and unpacked, and
  `DataMessage.dfy` a file on its way through an uncleared buffer and a C string.
* `FtpCommands.dfy` has the command table that both programs read: each word in any
  case, and nothing else.
* `FtpSession.dfy` and `FtpRuns.dfy` are the server and all its runs: when a
  transfer is granted, how mode selections are used up, and when a transfer
  closes. QUIT leaves the data thread of an open mode waiting. A later transfer may
  wake it instead of its own, and then joins one that never ends; so a transfer
  closes whichever is woken if and only if no mode was ever dropped by QUIT.
  `FtpAbandoned.dfy` has a session that hangs. `FtpHistory.dfy` tells every answer,
  and the path, the transfer type and the place in the port table, from the requests
  and answers before it alone: in particular who is let in.
* `FtpClient.dfy` and `FtpSystem.dfy` are the client, and both sides over two
  first-in, first-out channels: lockstep, agreement on the data port, and progress. The client starts a data thread for every PASV or
  PORT, accepted or refused. They share one address, which each overwrites before
  it waits; all wait on one condition, a transfer wakes any one of them, and joins
  the latest. Some wake-up completes a transfer if and only if no PASV was refused
  since the mode was selected, and every one does if and only if none was refused
  at all. `FtpRefusal.dfy` has runs for both orders: after a later refusal every
  wake-up ends the client, after an earlier one some leave it in the join for ever.
* `FtpTransfer.dfy` follows the data from the line the user enters to the file
  written, and `FtpProgress.dfy` characterises the histories that client and server
  get through from prompt to prompt.

Where code and documentation differ the model follows the code. The 150 reply has
no text, because the text is composed in another buffer. The directory test at
FTP/server.c:474 is the wrong way round and accepts almost any name. CWD appends
the name to the path without a separator.

## Model

| member | source | states |
|---|---|---|
| `BrokerThreads.Broker.RegisterMessage` | publisher and subscriber architecture/broker.cpp:518-537 | a message is appended to its topic's log, created if new; nothing else changes |
| `BrokerThreads.Broker.HandlePublisher` | publisher and subscriber architecture/broker.cpp:189-211 | the publisher's critical section appends and always broadcasts: both of its failure branches are unreachable |
| `BrokerThreads.Broker.HandleReceiver` | publisher and subscriber architecture/broker.cpp:480-505 | a request creates the entry as on and unread, or turns it off keeping the cursor, or on again from the start |
| `BrokerThreads.Broker.SendFrom` | publisher and subscriber architecture/broker.cpp:388-396 | sends the log from the cursor on, in order, on that subscriber's socket only |
| `BrokerThreads.Broker.HandleSender` | publisher and subscriber architecture/broker.cpp:367-403 | an undisturbed wake-up serves each of the user's topics once, in the order the map is traversed |
| `BrokerEpochs.CursorsRefineEpochs` | publisher and subscriber architecture/broker.cpp:377-400 | on every run the flag, the cursor and everything sent are what the cursor-free reference owes |
| `BrokerEpochs.ExactlyOnceInOrder` | publisher and subscriber architecture/broker.cpp:377-400 | in every reachable state what was sent since the latest activation is the log up to the cursor, in order, without gap or repeat |
| `BrokerEpochs.StreamIsPrefixPerEpoch` | publisher and subscriber architecture/broker.cpp:486-504 | the whole stream is one prefix of the published messages per epoch; epochs are half the toggles rounded up; the flag is on after an odd number |
| `BrokerEpochs.WakeCatchesUp` | publisher and subscriber architecture/broker.cpp:383-399 | after a wake-up every subscribed topic has been delivered in full |
| `BrokerEpochs.MissedWakeupsOnlyDelay` | publisher and subscriber architecture/broker.cpp:370-399 | runs that differ in their wake-ups only, and end in one, leave the same flags, cursors and current deliveries |
| `BrokerMicro.AtMostOnceInOrder` | publisher and subscriber architecture/broker.cpp:377-399 | under every interleaving, from one setting of the cursor to the start of the log to the next, strictly increasing log indices are sent, and everything sent is what the final log holds there |
| `BrokerMicro.CursorAccountsForLosses` | publisher and subscriber architecture/broker.cpp:381-397 | the stored cursor equals the messages sent in the epoch plus those that races skipped, with the two writes of a re-subscription apart |
| `BrokerMicro.GapFreeIffRaceFree` | publisher and subscriber architecture/broker.cpp:381-397 | an epoch has received everything up to its cursor if and only if none of the three races has hit it, the reset of the cursor between copy and store among them |
| `BrokerMicro.SenderReadsInBounds` | publisher and subscriber architecture/broker.cpp:388-392 | the sender never indexes past the end of a log |
| `BrokerReplays.RepeatsIffEarlyThenFirst` | publisher and subscriber architecture/broker.cpp:501-502 | from the flag going on, repeats or a wrong order reach the subscriber if and only if something was sent between the two writes and the first entry of the log after them |
| `BrokerReplays.RaceFreeEpochRepeatsEarly` | publisher and subscriber architecture/broker.cpp:501-502 | in a race-free epoch what was sent between the writes is repeated as soon as the cursor has moved |
| `BrokerReplays.SkippedForGood` | publisher and subscriber architecture/broker.cpp:381-397 | a message below the cursor that an epoch has not been sent is not sent in it, whatever happens later |
| `BrokerReduction.ExclusionMakesWakesAtomic` | publisher and subscriber architecture/broker.cpp:367-403 | with appends and the receivers' blocks kept out of the loop, every interleaving ends in the state of a run with undivided wake-ups that has the same publishes and toggles in the same order |
| `BrokerConverse.UndividedRunsHappen` | publisher and subscriber architecture/broker.cpp:367-403 | conversely, every run with undivided wake-ups is that of some interleaving with exclusion, which ends in the same state with the sender back at its wait: a sender that is woken enters its loop, serves every topic and leaves |
| `BrokerPairs.PairSeesUndividedWakes` | publisher and subscriber architecture/broker.cpp:377-400 | with only three moments of one user and topic kept apart, and everything else interleaved, that user sees of that topic what a run with undivided wake-ups and the same publishes and toggles shows |
| `BrokerExclusion.ExclusionGivesExactlyOnce` | publisher and subscriber architecture/broker.cpp:367-403 | with exclusion each epoch's log is delivered exactly once and in order up to the cursor |
| `BrokerExclusion.ExclusionIsRaceFree` | publisher and subscriber architecture/broker.cpp:367-403 | exclusion rules out all three races |
| `BrokerExclusion.ExclusionNeverRepeats` | publisher and subscriber architecture/broker.cpp:478-504 | with exclusion nothing is repeated or reordered from the flag going on |
| `BrokerRaces.AppendRaceLosesMessage` | publisher and subscriber architecture/broker.cpp:388-397 | a run in which a message published during a wake-up is stepped over, and no continuation within the epoch sends it |
| `BrokerRaces.ResubscribeRaceLosesReplay` | publisher and subscriber architecture/broker.cpp:478-504 | a run in which re-subscribing during a wake-up delivers nothing of the replay, and no continuation within the epoch does |
| `BrokerRaces.WakeBetweenWritesRepeats` | publisher and subscriber architecture/broker.cpp:501-502 | a run in which a subscriber that has just subscribed again is sent the second message, the first and the second again, with no race in the epoch |
| `BrokerRaces.SentAfterUnsubscribing` | publisher and subscriber architecture/broker.cpp:383-394 | a run after which a message published to someone who has already unsubscribed is still sent |
| `MessageQueue.ChatServer.constructor` | Socket (Multi Threaded)/server.c:25-28 | a new queue is empty |
| `MessageQueue.ChatServer.IsFull` | Socket (Multi Threaded)/server.c:198-205 | reports a queue with every slot occupied, except one that starts at slot 0 |
| `MessageQueue.ChatServer.IsEmpty` | Socket (Multi Threaded)/server.c:207-213 | reports a queue of at most one message |
| `MessageQueue.ChatServer.Enqueue` | Socket (Multi Threaded)/server.c:215-233 | appends while a slot is free; refuses or, in the overlooked state, replaces everything when not |
| `MessageQueue.ChatServer.Dequeue` | Socket (Multi Threaded)/server.c:235-251 | hands out the slot of the oldest message and drops it, unless at most one message is left |
| `MessageQueue.ChatServer.Receive` | Socket (Multi Threaded)/server.c:175-183 | the message is stamped with the receiver's id and enqueued |
| `MessageQueue.ChatServer.SenderTurn` | Socket (Multi Threaded)/server.c:151-161 | one dequeued message goes to every connected client |
| `RingModel.FullMeansAllOccupied` | Socket (Multi Threaded)/server.c:197-213 | isFull with the modulo reports exactly a queue with every slot occupied, as written it misses the one from slot 0 on, and isEmpty reports at most one message |
| `RingModel.DequeuedSlotLifetime` | Socket (Multi Threaded)/server.c:243-250 | after a dequeue from n occupied slots the returned address denotes that message for the next capacity - n messages, and the one after them overwrites it |
| `RingRuns.EachSeamLosesCapacity` | Socket (Multi Threaded)/server.c:198-226 | on every run the messages lost are capacity times the enqueues in the overlooked state |
| `RingRuns.FifoIffNoSeam` | Socket (Multi Threaded)/server.c:198-251 | accepted = dequeued followed by the contents, on a run as written if and only if it never enqueues in the overlooked state, and on every run with the modulo |
| `RingRuns.NewestIsHeldBack` | Socket (Multi Threaded)/server.c:207-251 | the dequeued stream is a proper prefix of the accepted one, short of exactly the newest message when the queue reports empty |
| `RingRuns.OneMoreThanCapacityLosesAll` | Socket (Multi Threaded)/server.c:198-226 | filling a fresh queue and enqueueing once more loses the whole queue |
| `ChatSystem.FifoIffFaultless` | Socket (Multi Threaded)/server.c:215-251 | with tests and critical sections as separate steps: accepted = dequeued followed by the contents at every moment of a run, if and only if nothing is inserted into a full queue and the newest message is never removed |
| `ChatSystem.QueueHolds` | Socket (Multi Threaded)/server.c:215-251 | in such a run also what the sender's slot denotes, and that a test made outside the first enqueue finds two messages |
| `ChatSystem.EmptyTestIsStable` | Socket (Multi Threaded)/server.c:240-247 | when the sender can take the lock its test has become false exactly if it was made halfway through the first enqueue and nothing else was enqueued |
| `ChatSystem.UnderrunNeedsHalfwayTest` | Socket (Multi Threaded)/server.c:223-226 | a run whose sender never tests there never removes the newest message |
| `ChatSystem.FifoOneAtATime` | Socket (Multi Threaded)/server.c:218-226 | with the receivers' test inside the lock and the modulo in place, every run is first in, first out exactly up to removals of the newest message, and always if the sender never tests halfway |
| `ChatSystem.UserOrderKept` | Socket (Multi Threaded)/server.c:175-183 | on every run, under a user's id the queue has accepted what that user's receiver got past its test, in order, all but a last message waiting for the lock; and without a fault they come out in that order |
| `ChatBroadcast.SendSendsDequeuedUnlessFull` | Socket (Multi Threaded)/server.c:153-159 | each send carries the dequeued message while a slot is free, and the accepted one a queueful later otherwise |
| `ChatBroadcast.EveryClientGetsItsCourse` | Socket (Multi Threaded)/server.c:151-161 | at every moment of a faultless run a client has been sent one message per dequeued one since it connected, in order; the wrong ones number exactly its sends with every slot occupied, and it has the dequeued stream itself if and only if there were none |
| `ChatBroadcast.EarlierEndsWithLater` | Socket (Multi Threaded)/server.c:106-133 | an earlier client's stream ends with a later one's if and only if their connections were not in one particular arrangement and no broadcast sent to the earlier with a slot free and then to the later with every slot occupied |
| `ChatProgress.SenderGetsThroughIff` | Socket (Multi Threaded)/server.c:151-161 | a faultless run that leaves the lock free can go on, with nothing more accepted and no fault, until all messages but the newest are dequeued and every client has had its turn with each of them since it connected, if and only if the test that the sender may have passed still holds |
| `ChatProgress.ReceiverGetsIn` | Socket (Multi Threaded)/server.c:175-183 | a receiver that finds the queue not full, with the lock free, can get its message accepted behind all earlier ones |
| `ChatRaces.HalfwayTestUnderruns` | Socket (Multi Threaded)/server.c:223-226 | a run from the start in which the sender tests between the two assignments, removes the only message, and leaves a queue that looks full of slots never written |
| `ChatRaces.TwoReceiversOverrun` | Socket (Multi Threaded)/server.c:218-226 | a run from the start in which two receivers test before either inserts and a full queue is lost, with the modulo or without |
| `ChatRaces.FullQueueReachesWire` | Socket (Multi Threaded)/server.c:153-159 | a faultless run from the start in which a client is sent the newest message in place of the oldest |
| `ChatRaces.FillsUpBetweenSends` | Socket (Multi Threaded)/server.c:153-159 | a faultless run from the start in which one broadcast sends two clients different messages |
| `ChatRaces.BroadcastPassesByFirst` | Socket (Multi Threaded)/server.c:106-133 | a faultless run from the start after which an earlier client has been sent nothing and a later one a message |
| `Text.TokensByStrtok` | FTP/server.c:342-364 | calling strtok again and again yields the maximal delimiter-free pieces, in order |
| `Text.SplitAt` | FTP/client.c:242-246 | tokenising is additive at any delimiter |
| `Text.AtoiOfPrint` | FTP/client.c:194 | atoi recovers every integer that was printed |
| `StrtokModel.Strtok.Next` | FTP/server.c:342-364 | one call in the buffer: the first token, terminated in place, and the position after its delimiter |
| `StrtokModel.Strtok.NextToken` | FTP/server.c:342-364 | the same call as one step through the tokens |
| `HostPort.ParseFields` | FTP/server.c:342-366 | the in-place loop fails exactly on a field of more than three characters, and otherwise finds the base-256 value of the non-zero fields from the fifth on |
| `HostPort.ParsePortArgument` | FTP/server.c:342-366 | the PORT argument yields a port exactly when no comma- or space-separated field is longer than three characters, and then the one above |
| `HostPort.StandardHostPort` | FTP/server.c:347-362 | on six fields in 0..255 the loop finds p1*256+p2 if and only if p2 is not zero or p1 is |
| `HostPort.ClientDataPort` | FTP/client.c:161-196 | the port the client's data thread takes from a reply: the fields after the bar for PASV, the number after the colon for PORT |
| `HostPort.PassiveReading` | FTP/server.c:332 | what the client's character-level reading makes of the printed reply, for every port number |
| `HostPort.PassiveRoundTrip` | FTP/client.c:162-189 | the client recovers the port if and only if its low byte is not zero or it is zero |
| `HostPort.PassivePortsAgree` | FTP/server.c:93 | every port of the passive table is recovered |
| `HostPort.ActivePortsAgree` | FTP/server.c:376 | every number the server read from PORT is recovered |
| `Listing.Concatenate` | FTP/server.c:544 | the second string is placed over the terminator of the first, in the buffer |
| `Listing.GetDirectoryEntries` | FTP/server.c:531-550 | the buffer holds each name after a bar, in order |
| `Listing.ShowEntries` | FTP/client.c:240-247 | the client prints the tokens of what it received |
| `Listing.TokensOfPacked` | FTP/client.c:242-246 | unpacking sees each name on its own |
| `Listing.ListingRoundTrip` | FTP/server.c:539-545 | the client shows exactly the names, in order, if and only if none is empty or holds a bar or white space |
| `Listing.ListingArrivesIff` | FTP/server.c:531-550 | the names come through if and only if each can be listed and all of them, a bar before each, fit the buffer with a terminator |
| `DataMessage.GetStreamFromFile` | FTP/server.c:450-465 | the buffer holds the file as far as it fits, then what the memory held before |
| `DataMessage.NewBody` | FTP/server.c:523-529 | the message holds the text up to its first terminator, copied in the buffer |
| `DataMessage.FileArrivesIff` | FTP/server.c:437 | a file arrives unchanged if and only if it holds no terminator, has at most 1023 characters, and the memory behind it happens to begin with a terminator |
| `DataMessage.FileCutAtTerminator` | FTP/server.c:527 | a file with a terminator in it is cut there |
| `FtpSession.ToLowercase` | FTP/server.c:516-521 | in place, the characters 65 to 90 are raised by 32 and nothing else changes |
| `FtpCommands.InterpretIff` | FTP/server.c:492-514 | a string is read as a command if and only if it has the length of its word and each character is the word's in either case, and as unknown if and only if it fits none of the nine |
| `FtpSession.EntryTestIsRightIff` | FTP/server.c:467-482 | exactly when the directory test agrees with membership |
| `FtpSession.FtpServer.constructor` | FTP/server.c:75-94 | a new session is not logged in |
| `FtpSession.FtpServer.Execute` | FTP/server.c:166-385 | for every command, state and argument: the replies sent and returned, whether it returns at all from the join, and the whole new state, data threads included |
| `FtpSession.FtpServer.Serve` | FTP/server.c:142-159 | one turn of the request loop sends those replies in order |
| `FtpHistory.StateByHistory` | FTP/server.c:276-335 | on every run the path is "./" and the first words of the CWDs answered 226, in order; the type is binary if and only if the latest TYPE answered 200 was i or I; and the place in the port table is the number of PASVs answered 227 or 500 |
| `FtpHistory.AnsweredByHistory` | FTP/server.c:166-385 | the replies to every request of every run, by the requests and answers before it: USER is answered 331 exactly for the account's name while none is accepted, PASS 230 exactly for its password after the name and while none is accepted, and so for every command |
| `FtpHistory.TransfersAreAuthorized` | FTP/server.c:170-274 | every transfer granted comes after a USER with the account's name, a PASS with its password and an accepted PASV or PORT, in that order |
| `FtpRuns.SecondReplyIffLatestWoken` | FTP/server.c:211-274 | a first reply of class 1 is sent exactly for a transfer, whose data thread never finds a command it cannot serve; the second follows exactly when the latest data thread is not left waiting, and the server is stuck otherwise |
| `FtpRuns.AbandonedThreadsWait` | FTP/server.c:290-294 | until the server is stuck, one thread waits for the open mode, the latest started, and one for every mode dropped by QUIT |
| `FtpRuns.ClosesIffNothingAbandoned` | FTP/server.c:218-239 | which wake-up closes a granted transfer with 226; all of them do if and only if no mode was ever dropped by QUIT |
| `FtpAbandoned.AbandonedThreadHangsServer` | FTP/server.c:218-226 | a session from the start in which the thread of a dropped mode is woken and the reply of class 1 is never followed by another |
| `FtpRuns.SelectionsAreConserved` | FTP/server.c:211-274 | on every run accepted modes = transfers + modes abandoned by QUIT + the one still open |
| `FtpRuns.TranscriptExplains` | FTP/server.c:170-274 | the login state is determined by the replies since the last QUIT, in both directions |
| `FtpRuns.TransferIffModeSelected` | FTP/server.c:211-274 | a transfer is granted if and only if a user name, a password and a mode were accepted in that order since the last QUIT and the mode is unused |
| `FtpRuns.EveryTransferIsPreceded` | FTP/server.c:170-274 | in any run every transfer granted, closed or not, has such a history before it |
| `FtpRuns.PassivePortsInStep` | FTP/server.c:318-335 | passive ports come from the table in order and the client reads back the port the data thread was given |
| `FtpRuns.ActivePortsInStep` | FTP/server.c:336-379 | after an accepted PORT both data threads have the same number |
| `FtpClientModel.FtpClient.Callback` | FTP/client.c:259-344 | for each command sent and reply received: whether the client goes on to a transfer, to its prompt or to its end, and the data thread it starts, which puts the port it reads into the shared address, whether the reply accepts or refuses |
| `FtpClientModel.FtpClient.ProcessData` | FTP/client.c:220-253 | what arrives is kept; a listing is printed token by token, a file goes under the requested name with a suffix; the thread ends, and the client goes on only if the latest thread has ended |
| `FtpClientModel.FtpClient.ReadRequest` | FTP/client.c:127-147 | lines are read up to the first with a known command, which becomes the request; for RETR its second word is kept as the file's name |
| `FtpClientModel.FirstKnownIsFirst` | FTP/client.c:132-138 | that line starts with a known command and every line before it with an unknown one |
| `FtpClientModel.RequestIsTwoWords` | FTP/client.c:128-142 | the command is read from the line's first word, and the request's body is its second, or empty |
| `FtpSystem.AlwaysInLockstep` | FTP/client.c:104-148 | the possible positions of client, server and both channels in every run |
| `FtpSystem.PromptMeansQuiet` | FTP/client.c:104-148 | at the prompt both channels are empty and the server waits; a request in flight reads as the command the client sent |
| `FtpSystem.ThreadsAlwaysFit` | FTP/client.c:198-211 | in every run, refused or not: just while a mode is open exactly one waiting thread was started for its acceptance, and the shared address holds the server's port if that thread is the latest and port 0 if not |
| `FtpSystem.UselessIffRefused` | FTP/client.c:330-338 | a useless thread is waiting if and only if a PASV was ever refused |
| `FtpSystem.LatestIffRefusedSince` | FTP/client.c:330-338 | while a mode is open the latest thread was started for a refusal if and only if a PASV was refused since the mode was accepted |
| `FtpSystem.TransferOnOnePort` | FTP/client.c:206-216 | the one port that any wake-up for a transfer connects to: the server's if no PASV was refused since the mode was selected, 0 otherwise |
| `FtpSystem.SomeWakeCompletesIff` | FTP/client.c:215-279 | some wake-up completes a transfer if and only if no PASV was refused since the mode was selected (and the port is not 0) |
| `FtpSystem.EveryWakeCompletesIff` | FTP/client.c:278-279 | a transfer completes whichever thread is woken for it if and only if no PASV was ever refused (and the port is not 0); and there always is a thread to wake |
| `FtpSystem.WakeOutcome` | FTP/client.c:215-279 | a wake-up connects if and only if no PASV was refused since the mode was selected and the port is not 0, completes if and only if moreover the thread is the latest, otherwise leaves the client joining for ever, and if it does not connect ends the client with the server accepting for ever |
| `FtpSystem.EveryCommandProceeds` | FTP/client.c:266-324 | on every run some step is possible until the client is at its prompt or has ended, and every step brings it closer |
| `FtpSystem.StopsOnlyAfterRefusal` | FTP/client.c:266-344 | the client fails or hangs only after a refused PASV or PORT, or in a transfer on port 0 |
| `FtpProgress.GetsThroughIffPassable` | FTP/client.c:104-148 | while the table of passive ports lasts, some run takes the user from prompt to prompt with exactly a given history served if and only if every request in it can be entered and, by the server's answers, it has no QUIT, no refused PORT, and no transfer granted on port 0 or after a PASV refused since its mode was selected |
| `FtpTransfer.SessionIsRun` | FTP/server.c:142-159 | in the whole system the server is in the state that the requests it has served put it in by themselves, and it never gets stuck |
| `FtpTransfer.DataArrives` | FTP/client.c:220-224 | in every run what is on its way, and then what the client holds, answers the line entered last as the server found things when it served it |
| `FtpTransfer.ClientGetsWhatServerHad` | FTP/client.c:220-248 | a client that has received its data has the file at the path that the granted CWDs made and the name that its line asked for, if and only if that file holds no terminator and fits, with one behind it; and it shows the server's names if and only if each can be listed and they fit |
| `FtpTransfer.WrittenUnderItsName` | FTP/client.c:226-236 | the file is written under the second word of the RETR line that asked for it, followed by the suffix |
| `FtpRefusal.LaterRefusalEndsClient` | FTP/client.c:206-216 | a run from the start, with a PASV accepted and then one refused, to a listing for which either wake-up ends the client |
| `FtpRefusal.EarlierRefusalHangsClient` | FTP/client.c:278-279 | a run from the start, with a PASV refused and then one accepted, to a listing that one wake-up completes and the other carries over with the client left joining for ever |

## Left out

- Sockets, connecting, sleeping, printing, signals and process exit: sends and receives are whole messages on first-in, first-out channels.
- Fixed text buffers: topics, contents, names and paths are unbounded strings; only the buffers for listings and files keep their size.
- Integer overflow: cursors, indices and the accumulated port are unbounded; C leaves a PORT argument with very many fields undefined.
- Memory faults: the uninitialised reply buffer, pointers to loop locals handed to threads, and data races inside maps, vectors and slots; each access to a map entry, log entry or slot is one step, the assignment of a new pair at broker.cpp:489 included.
- The order of a map's keys: `BrokerThreads.Broker.HandleSender` visits the topics in any order, of which the sorted one is an instance.
- Reading zero bytes from a closed connection: the broker's receiver would toggle the empty topic and the FTP server would answer an empty command, for ever.
- Places for clients not yet connected: the server sends to descriptor 0 for them; the model sends nothing.
- A refused PORT makes the client's data thread read its port through a null pointer; in the model that ends the client.
- RETR and CWD without an argument pass a null pointer to strcmp; the model takes it for an empty name.
- RETR of a name that passes the directory test but cannot be opened makes the server copy from a null pointer; the model gives no data.
- File and directory reading: files by their paths and listings are inputs, and a directory that cannot be opened is not among them; where a text overruns its message C promises nothing, and the model gives no data.
- Waking before waiting: a data thread is taken to be waiting when it is signalled, a signal to wake exactly one, and the server's to listen by the time the client's connects; nobody else listens on a port the client tries.
- EveryWakeCompletesIff: takes the server's binding of a data port to succeed, as `FtpSystem.SomeWakeCompletesIff` and `FtpSystem.WakeOutcome` do; the server never closes one, so a PORT that names a number used before ends it at FTP/server.c:402-406, and after one it may not use it listens elsewhere.
- StopsOnlyAfterRefusal: leaves those two cases out for the same reason, as does `FtpProgress.GetsThroughIffPassable`.
- The port table's end: past it the server reads an arbitrary number, an input of the model; `FtpSystem` results on ports and threads speak of runs that have not gone past it.
- The single-threaded echo server, the chat client, the publisher and the subscriber programs, and the broker's id and port counters: input/output loops and counters with nothing beyond their own text to state.
