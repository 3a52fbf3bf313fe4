# Verified model of the channel layer and the evaluation fixture

This project models the parts of the system whose correctness does not show on
a plain reading: the protocols of the IM channel layer (`backend/app/channels`),
the evaluation fixture and release gate (`backend/app/evals`), the startup
migration of ownerless threads (`backend/app/gateway/app.py`) and the `.env`
merge of the setup wizard (`scripts/wizard/writer.py`).

Three forms are used. Protocols between tasks, threads and callbacks are
labelled step systems: a state, an `Enabled` predicate, a `Step` function, and
theorems about every sequence of enabled steps; the dictionaries they share are
also modelled as classes (`ThreadCreation.Manager`, `RunningCard.Adapter`,
`FeishuBatching.Batches`) whose methods take the protocol one step further.
Objects that are updated in place are classes whose methods are tied to
specification functions. Pure code is functions and lemmas. Clocks, network
outcomes and message arrival are parameters or nondeterministic; chat
platforms, the Gateway and the document store are small states with contracts.

| module | component |
|---|---|
| `ThreadCreation` | double-checked thread creation under a lock registry that is popped while others may wait: how many creations |
| `DistinctThreads` | the same protocol: how many different threads |
| `Conversations` | the same protocol: which messages share a thread, in terms of channel, chat, topic and connection |
| `Dedupe` | the TTL- and capacity-bounded inbound dedupe index |
| `StreamText`, `Turn`, `Streaming` | merging of delta and cumulative chunks; what is read from a state of the agent, and which states make the readers raise; the throttled streaming reply |
| `TurnTexts`, `FinalTexts` | the same readers and replies, described by what the messages, the state and the stream say: reply text, files, chunks, final message |
| `FeishuBatching`, `RunningCard`, `Clarifications` | the three Feishu protocols |
| `FileGroups`, `CardTexts` | which files come in one inbound message; which card shows what, and why |
| `TreeDiff`, `Fixture`, `Decimal` | the tree diff, the idempotent domain store, and the theorem that joins them |
| `Codec`, `MediaKey` | base16, base64 and PKCS#7 (sections 4, 5 and 8 of RFC 4648, section 6.3 of RFC 5652); the WeChat media key |
| `Telegram` | in-place stream editing against a platform that shows messages and refuses over-long text, one send at a time |
| `StreamEdits` | the same streams with sends interleaved at their awaits, evictions, and calls that fail but are carried out |
| `EditTexts` | the same runs: which text is sent, recorded and shown |
| `ChannelStore` | printing, splitting, listing and removing conversation keys |
| `EnvFile`, `Text` | `.env` reading and merging; Python's `strip` |
| `Gate` | quality score and release gate |
| `Migration` | the paginated walk that rewrites what it walks over |
| `DiscordSplit` | splitting long messages |
| `Sequences`, `Wrappers` | sequences without repeats; optional values |

## Results that are not simply "it works"

- Thread creation makes at most one successful create call per conversation in
  every interleaving **if and only if** every message is read from and written
  to the same slot, two messages share a slot exactly when they share a lock
  key, and nothing can fail (`ThreadCreation.AtMostOneIff`). The comment in the
  code that dropping the registry entry is safe holds only then: a message with
  a connection but no owner, two connections in one group chat, or one failed
  create each give a run with two creations.
- For messages whose channel and chat hold no colon, two finished tasks have one
  minted thread only if their messages belong to one conversation: one
  connection, chat and topic, or, unlinked, one channel, chat and topic. This
  holds in every run, whatever fails; the one exception is a connection without
  an owner (`Conversations.OneThreadOneConversation`). For harmless messages it is
  an equivalence (`Conversations.SameThreadIff`).
- A creation with a preferred id may come back with a thread that exists
  already. All ids a conversation obtains are the same thread in every
  interleaving **if and only if** all its messages prefer the same id, or one
  lock guards it: nothing can fail, its readers store where they read and share
  a lock key, and every other message with that key stores there too and reads
  a slot nobody writes (`DistinctThreads.OneThreadIff`).
- A streaming reply ends in one non-empty final message **if and only if** no
  state was kept or the kept one is readable (`Streaming.ReplyShape`); a last
  state whose messages are null, for instance, ends it without one
  (`Streaming.NullMessagesSilence`). With the error text the caller then sends
  every message is answered (`Streaming.EveryMessageIsAnswered`).
- Of a readable kept state the final message carries the mark, the reply text and
  the files that resolved; presented files are named after the reply text; the
  streamed text or an error text stands in only when there is neither
  (`FinalTexts.FinalOfState`, `FinalTexts.FinalOfStream`).
- A delta stream is concatenated faithfully if and only if no chunk is a suffix
  or a full extension of the text so far (`StreamText.DeltasConcatenateIff`).
- Trying the hex parser or the base64 parser first never makes a difference,
  for any value at all (`MediaKey.OrderIsIrrelevant`).
- A `.env` round trip holds if and only if every pair is well formed; an empty
  key is harmless (`EnvFile.ReadAfterWriteIff`).
- A key of the channel store can be split back if and only if channel name and
  chat id hold no colon and the topic is not empty (`ChannelStore.SplitRecoversIff`).
  Conversations of a set of chats never share a key if and only if no chat's
  printed form runs into another's at a colon (`ChannelStore.KeysTellApartIff`).
- The tree diff of two mappings is empty if and only if they differ at most
  along empty keys from the root (`TreeDiff.EmptyIffSameButEmptyKeys`); a mapping
  can change without a report if and only if it has an empty key
  (`TreeDiff.EveryChangeShowsIff`). Of trees without one at the root the report is
  exactly the places where they differ (`TreeDiff.ReportedIff`).
- Pending clarifications are handed out as they should be, whatever the history,
  if and only if the clock readings of the consumers never go back
  (`Clarifications.ClockMustNotGoBack`, with the producers' readings free). When
  producers and consumers read one clock, the exact condition is that nothing
  that expired at one reading is fresh again at a later one
  (`Clarifications.SharedClockIff`); the code reads the wall clock.
- A file message joins the pending batch of its conversation if and only if that
  was opened at most 0.75 seconds before (`FileGroups.JoinsIff`), and everything
  queued in that time, while its timer has not fired, becomes one inbound message
  (`FileGroups.OneBatch`, `FileGroups.OneInbound`).
- A final answer patches the running card whenever there is one; it comes as a new
  card only if there was none to be had or the patch failed, and some card of its
  source then shows it (`CardTexts.EverySendHasItsReason`, `CardTexts.FinalIsShown`).
- Timers left over from closed Feishu batches are harmless in every
  interleaving if and only if no conversation sees a message id twice
  (`FeishuBatching.StaleTimersInertIff`), and at rest every message has been
  published exactly once if and only if no preparation failed
  (`FeishuBatching.QuiescentMeansAllPublished`).
- For each Telegram stream, whatever the other streams do: what the tracker
  records is what the message shows, and every piece of a delivered final text
  stays, in every interleaving if and only if the stream's own sends never
  overlap and none of its own failed calls is carried out
  (`StreamEdits.TruthfulIff`, `StreamEdits.FinalsStandIff`). A timed-out edit
  that took effect, followed by a failing replacement, is enough. A final send
  can be delivered if and only if it is tracked or fits one message
  (`Telegram.Channel.Send`). On a platform that is up, every update that is not
  throttled is shown.
- A question shown to the user is marked as a pending clarification if and only
  if a clarification call is the turn's last word; a hidden control message
  after it hides the mark but not the question
  (`Turn.QuestionIsPendingIff`, `Turn.HiddenControlHidesQuestion`).
- The startup migration reaches every thread for every page size if rewritten
  items stay or move to the front of the listing; if they move to the end,
  every store of `n` threads is migrated if and only if one page holds them all
  (`Migration.EveryThreadOnce`, `Migration.EndListingIff`).

## Model

| member | source | states |
|---|---|---|
| ThreadCreation.AtMostOneIff | backend/app/channels/manager.py:1366-1394 | for any set of messages that may arrive, whatever ids are stored beforehand: in every interleaving of any number of tasks at most one create call per conversation succeeds, exactly when the messages are coherent (read slot is write slot; same slot iff same lock key) and nothing can fail |
| ThreadCreation.RunKeepsInv | backend/app/channels/manager.py:1366-1394 | every reachable state of a safe world: locks have one owner, all waiters of an unstored conversation share the registered lock, and what each task knows is true |
| ThreadCreation.FinishedTasksAgree | backend/app/channels/manager.py:1366-1394 | every finished task returns the one id obtained for its conversation, which is the stored one |
| ThreadCreation.NoDeadlock | backend/app/channels/manager.py:1381-1394 | while some task is unfinished, some step other than an arrival or a failure is possible |
| ThreadCreation.OneConversationIsSafe | backend/app/channels/manager.py:1272-1299 | messages of one connection, chat and topic, with an owner whenever there is a connection, form a safe world |
| ThreadCreation.MismatchedSlotsDuplicate | backend/app/channels/manager.py:1272-1299 | a message read from one slot and stored in another leads to a second creation |
| ThreadCreation.SplitLocksDuplicate | backend/app/channels/manager.py:1380-1381 | two lock keys for one slot lead to two creations |
| ThreadCreation.SharedLockDuplicates | backend/app/channels/manager.py:1380-1394 | two slots behind one lock key (two connections in one group chat) lead to two creations for one of them |
| ThreadCreation.StrandedWaiterDuplicates | backend/app/channels/manager.py:1390-1394 | a waiter whose lock is no longer registered does not exclude the next arrival |
| ThreadCreation.FailureDuplicates | backend/app/channels/manager.py:1382-1394 | one failing create strands the waiters of its own conversation, and two threads result |
| DistinctThreads.OneThreadIff | backend/app/channels/manager.py:1303-1394 | for any set of messages and any stored ids: in every interleaving all ids obtained for a conversation are one thread, exactly when any two messages of one slot prefer the same id or one lock guards the slot |
| DistinctThreads.RunKeepsGuard | backend/app/channels/manager.py:1366-1394 | a guarded slot has one creation in every run, whatever happens in other slots: until an id is stored there every task with its lock key waits on the registered lock |
| DistinctThreads.RunKeepsPin | backend/app/channels/manager.py:1305-1360 | if all readers of a slot prefer one id, every id obtained for it is that one, or the id stored before the run |
| DistinctThreads.StoredElsewhere | backend/app/channels/manager.py:1272-1299 | a reader that stores elsewhere leaves its conversation to the next reader, who gets another thread |
| DistinctThreads.SeparateLocks | backend/app/channels/manager.py:1380-1381 | readers of one slot with different lock keys get two threads |
| DistinctThreads.FailureStrands | backend/app/channels/manager.py:1382-1394 | after one failure a stranded waiter and a newcomer get two threads, unless both prefer the same id |
| DistinctThreads.GuestStrands | backend/app/channels/manager.py:1380-1394 | a message of another slot with the same lock key, storing elsewhere, pops the lock under the readers |
| DistinctThreads.FindingGuestStrands | backend/app/channels/manager.py:1380-1394 | so does one whose own id is stored by somebody else while it waits, although its own id would have been stored in the readers' slot |
| ThreadCreation.Manager.LookupThreadId | backend/app/channels/manager.py:1272-1279 | finds the id stored for the message's own conversation, which `Conversations.ReadTogetherIff` describes by its fields; the invariant is kept |
| ThreadCreation.Manager.RegisteredLock | backend/app/channels/manager.py:1380-1381 | the task waits on the registered lock, registering a fresh one if there is none; the invariant is kept |
| ThreadCreation.Manager.StoreThreadId | backend/app/channels/manager.py:1281-1299 | the id is stored for the conversation that `Conversations.StoredForIff` describes by its fields, and for no other; the invariant is kept |
| ThreadCreation.Manager.DropLock | backend/app/channels/manager.py:1390-1394 | the registry entry goes although others may wait on its lock; the invariant is kept in a safe world |
| Conversations.LocalSlotIff | backend/app/channels/manager.py:1272-1299 | unlinked messages with colon-free channel and chat read and write one key exactly when channel, chat and topic agree, an empty topic counting as none |
| Conversations.ReadTogetherIff | backend/app/channels/manager.py:1272-1279 | two messages look their thread up in one place exactly when they belong to one conversation: connection, chat and topic when linked, channel, chat and topic otherwise, never one of each |
| Conversations.StoredForIff | backend/app/channels/manager.py:1272-1299 | the thread stored for one message is the one found for another exactly when they belong to one conversation, unless the first has a connection without an owner |
| Conversations.OneCreationIff | backend/app/channels/manager.py:1366-1394 | at most one creation per conversation in every interleaving, exactly under a condition on the fields of the messages and the absence of failures |
| Conversations.Maker | backend/app/channels/manager.py:1303-1394 | in every run from an empty store, each minted id is stored only where its maker stores and returned only to readers of that place or its maker |
| Conversations.OneThreadOneConversation | backend/app/channels/manager.py:1272-1394 | in every run from an empty store, failures included: two finished tasks with one minted id have messages of one conversation, a connection without an owner excepted |
| Conversations.SameThreadIff | backend/app/channels/manager.py:1272-1394 | for harmless messages without preferred ids: two finished tasks return one id exactly when their messages belong to one conversation |
| Conversations.CreatedIff | backend/app/channels/manager.py:1366-1394 | in every run a finished task answers `created` exactly when its own request made the thread |
| Dedupe.Index.IsDuplicate | backend/app/channels/manager.py:1102-1129 | answers "duplicate" iff the key survives trimming, inserts it otherwise; no key, no change |
| Dedupe.Index.EvictExpired | backend/app/channels/manager.py:1110-1115 | pops exactly the leading run of expired entries |
| Dedupe.Index.EvictExcess | backend/app/channels/manager.py:1116-1117 | keeps exactly the newest 4096 entries |
| Dedupe.Index.Release | backend/app/channels/manager.py:1131-1141 | removes the key's entry and nothing else |
| Dedupe.LogKeepsInv | backend/app/channels/manager.py:1102-1141 | over every history each entry stems from the last acceptance of its key, in order, and every live key is present, expired or pushed out by 4096 others |
| Dedupe.IndexStaysBounded | backend/app/channels/manager.py:1102-1141 | under a clock that does not go back the index is chronological, without repeats, at most 4097 entries |
| Dedupe.DuplicateIsRecent | backend/app/channels/manager.py:1102-1141 | "duplicate" is only answered for a key accepted at most 600 s ago and not released since |
| Dedupe.AcceptedAgainNeeds4096 | backend/app/channels/manager.py:1102-1141 | a key is accepted again within the TTL without release only after at least 4096 other keys were accepted |
| StreamText.MergeExtends | backend/app/channels/manager.py:356-366 | a merge extends the buffer, ends with the chunk, and repeating the chunk changes nothing; an extension replaces the buffer and a suffix adds nothing |
| StreamText.CumulativeEndsAtLast | backend/app/channels/manager.py:356-366 | a stream of growing snapshots ends at its last snapshot |
| StreamText.DeltasConcatenateIff | backend/app/channels/manager.py:356-366 | a stream of deltas gives their concatenation exactly when no chunk is a suffix or full extension of the text before it |
| StreamText.FoldedNeverLonger | backend/app/channels/manager.py:356-366 | merging never gives more text than concatenating |
| StreamText.Buffers.Accumulate | backend/app/channels/manager.py:385-419 | merges the chunk into its own message's buffer, reports the new text and id; unusable events change nothing |
| StreamText.BufferIsFold | backend/app/channels/manager.py:369-419 | over any event sequence a message's buffer is its own chunks merged in order, untouched by other messages |
| StreamText.BuffersOnlyGrow | backend/app/channels/manager.py:385-419 | no buffer ever loses or rewrites text |
| Turn.ExtractResponseText | backend/app/channels/manager.py:210-263 | the text of the last message of the current turn that has one, or nothing when a value it meets on the way makes the code raise |
| Turn.HasCurrentTurnClarification | backend/app/channels/manager.py:276-304 | whether the current turn ends in a clarification |
| Turn.JoinBlocks | backend/app/channels/manager.py:251-262 | the text blocks of a content list joined, or nothing exactly when a text is no string |
| Turn.ExtractArtifacts | backend/app/channels/manager.py:422-454 | the files presented in the current turn, newest message first, or nothing when a value it meets makes the code raise |
| Turn.CollectPaths | backend/app/channels/manager.py:445-453 | the files one message presents, or nothing exactly when its calls cannot be looped over or the arguments of a presenting call are no mapping |
| Turn.ReadTextIff | backend/app/channels/manager.py:210-263 | the text is read exactly when every message of the turn looked at, up to the one that has it, has text blocks with string texts |
| Turn.ReadFilesIff | backend/app/channels/manager.py:422-454 | the files are read exactly when every message of the turn can be searched |
| Turn.ReadsIff | backend/app/channels/manager.py:210-454 | all readers come through exactly on the readable states, a condition on the messages of the turn alone |
| Turn.SomeStatesRaise | backend/app/channels/manager.py:221-449 | null messages, a null block text, null tool calls and null call arguments each make a reader raise |
| Turn.OnlyTheCurrentTurn | backend/app/channels/manager.py:210-454 | nothing said before the user's last visible message is ever read, nor can it make a reader raise |
| Turn.ClarifiesIff | backend/app/channels/manager.py:276-304 | a turn counts as ending in a clarification exactly when a clarification call is followed by silence only |
| Turn.QuestionIsPendingIff | backend/app/channels/manager.py:210-304 | a shown question is marked as pending exactly when that call, or a later one without a question, is the last word |
| Turn.HiddenControlHidesQuestion | backend/app/channels/manager.py:228-287 | after a hidden control message the question is shown but not marked |
| TurnTexts.MessageIsRead | backend/app/channels/manager.py:210-263 | what a message says, kind by kind, and which messages are the user's |
| TurnTexts.ReplyIsLastWord | backend/app/channels/manager.py:210-263 | the reply text is what the last message of the turn that says anything says, and empty exactly when none does |
| TurnTexts.FileIff | backend/app/channels/manager.py:422-454 | a path counts as an artifact exactly when a `present_files` call of an agent message of the turn lists it as a string |
| TurnTexts.LaterFilesFirst | backend/app/channels/manager.py:437-454 | the files of later messages come first |
| TurnTexts.ChunkOfMessage | backend/app/channels/manager.py:385-419 | a chunk of an agent's message goes, with its text, to the message with its id |
| TurnTexts.ChunkWithoutId | backend/app/channels/manager.py:399-419 | without an id it goes to the message the stream is at, or to the default one |
| TurnTexts.ChunkOfTool | backend/app/channels/manager.py:407-409 | what tools say is no text of the agent |
| Streaming.HandleEvent | backend/app/channels/manager.py:1609-1623 | keeps buffers, current id, latest text and last state equal to those of the events seen; values data that is no state changes nothing; raises exactly on a clarifying state whose text cannot be read, having kept that state |
| Streaming.Listen | backend/app/channels/manager.py:1604-1651 | the loop publishes the due updates of the events it gets through, and raises exactly if it does not get through all |
| Streaming.HandleStreamingChat | backend/app/channels/manager.py:1572-1700 | publishes the due updates and then, if the kept state can be read, one final message, whether the stream ends, raises, is cancelled or is busy; which text, mark and files it carries is stated by `FinalTexts.FinalOfState` and `FinalTexts.FinalOfStream` |
| Streaming.HandleMessage | backend/app/channels/manager.py:1151-1197 | the caller releases the dedupe key and sends its error text, given to the letter, exactly when a state was kept that cannot be read |
| Streaming.ReadSnapshot | backend/app/channels/manager.py:1617-1662 | what is read from a state is the reply text, clarification mark and files of its messages; nothing exactly when a reader raises |
| Streaming.BuildFinal | backend/app/channels/manager.py:1658-1700 | the final message of any reply, none when reading the state raises; its contents are stated by `FinalTexts.FinalOfState` and `FinalTexts.FinalOfStream` |
| Streaming.OnlyReplyIsText | backend/app/channels/manager.py:1659-1662 | without a state, the made-up one reads back as the streamed text, unmarked and without files |
| Streaming.UpdatesAreThrottled | backend/app/channels/manager.py:1625-1651 | consecutive updates show different text and are at least 1 s apart or at least 60 characters longer |
| Streaming.FinalIsNotEmpty | backend/app/channels/manager.py:1658-1700 | the final text is never empty, with or without artifacts, error or snapshot |
| Streaming.ReplyShape | backend/app/channels/manager.py:1585-1700 | for every event stream, clock and ending: throttled non-final updates and then one non-empty final message, exactly when no state was kept or the kept one is readable; otherwise the updates alone |
| Streaming.NullMessagesSilence | backend/app/channels/manager.py:1616-1662 | a stream whose one state has null messages publishes nothing |
| Streaming.PoisonIsNeverAnswered | backend/app/channels/manager.py:1617-1662 | a state the loop itself raises on also ends the reply without a final message |
| Streaming.EveryMessageIsAnswered | backend/app/channels/manager.py:1151-1197 | with the caller's error text every message gets throttled updates and then one non-empty final message |
| Streaming.HeldBackOnlyByThrottle | backend/app/channels/manager.py:1625-1651 | remark: after any event with text the last update shows it, or is under a second old and fewer than 60 characters behind |
| Streaming.UpdatesByTimeAndGrowth | backend/app/channels/manager.py:1604-1651 | in every stream: at most one update, plus one per second, plus one per 60 characters by which the latest text has grown in all |
| Streaming.OnlySwitchesShorten | backend/app/channels/manager.py:1609-1623 | the latest text gets shorter only where another message, or a question, takes its place |
| Streaming.UpdatesAreBounded | backend/app/channels/manager.py:1604-1651 | for replies of any number of messages: at most one update, plus one per second, plus one per 60 characters of the longest text times the number of switches and one |
| Streaming.UpdatesAreFew | backend/app/channels/manager.py:1604-1651 | in a single-message reply: at most one update, plus one per second, plus one per 60 characters of its text |
| Streaming.LatestIsTheBuffer | backend/app/channels/manager.py:1612-1623 | in a single-message reply the latest text is that message's buffer |
| Streaming.LatestOnlyGrows | backend/app/channels/manager.py:1612-1623 | in a single-message reply the shown text only grows by extension |
| FinalTexts.FinalOfState | backend/app/channels/manager.py:637-1700 | for every stream that kept a readable state: the mark is that of the state, the attachments are its files that resolved; without files the text is the reply text, with files it begins with the reply text and names each file after it; the streamed text, or the busy or error text if the stream raised, is shown exactly when there is neither text nor file |
| FinalTexts.FinalOfStream | backend/app/channels/manager.py:1658-1700 | for every stream without a state: the streamed text, else the busy, error or no-response text |
| FinalTexts.FinalWithOneFile | backend/app/channels/manager.py:469-664 | with one presented file, to the letter: the reply text, a blank line and the file's name |
| FinalTexts.BasenameIs | backend/app/channels/manager.py:469-476 | the name of a file is what follows the last slash of its path |
| FinalTexts.KeptIsTheLastState | backend/app/channels/manager.py:1616-1623 | the state the final message is read from is that of the last state event the loop came to |
| FinalTexts.LatestFollows | backend/app/channels/manager.py:1609-1623 | how each event changes the latest text: a message to its buffer, a clarifying state to its question, nothing else |
| FinalTexts.UpdateShowsLatest | backend/app/channels/manager.py:1625-1651 | every progress update shows, with the cursor, the latest text after one of the events |
| FeishuBatching.Batches.Queue | backend/app/channels/feishu.py:756-799 | within 0.75 seconds of its opening the pending batch of the conversation gains the message (id, text and file at the end, same anchor, no timer, nothing handed over); otherwise a batch with that one message takes its place, a timer is asked for and the old batch is handed over; takes the protocol one step and keeps its invariant |
| FeishuBatching.Batches.Pop | backend/app/channels/feishu.py:801-809 | takes the batch only if the anchor matches |
| FeishuBatching.Batches.Flush | backend/app/channels/feishu.py:811-825 | a timer takes the batch of its anchor, if it is still pending, for preparation; takes the protocol one step and keeps its invariant |
| FeishuBatching.RunKeepsInv | backend/app/channels/feishu.py:756-847 | every interleaving of queueing, scheduling, handing over, timers, publishing and failing preparations keeps batches well formed, arrivals partitioned, batches conserved and timers set |
| FeishuBatching.NothingLostNothingDoubled | backend/app/channels/feishu.py:756-825 | a conversation's arrivals are its closed batches in order followed by the pending one, each message with its one file, and every closed batch is in exactly one place |
| FeishuBatching.QuiescentMeansPublishedOrLost | backend/app/channels/feishu.py:756-847 | with no timer outstanding and nothing in flight, published and lost batches together hold every queued message exactly once |
| FeishuBatching.QuiescentMeansAllPublished | backend/app/channels/feishu.py:756-847 | at rest every queued message of every conversation is published exactly once, exactly when no preparation failed |
| FeishuBatching.EveryBatchHasItsTimer | backend/app/channels/feishu.py:784-799 | every pending batch has an outstanding timer with its anchor whenever the lark thread is between messages |
| FeishuBatching.StaleTimerDoesNothing | backend/app/channels/feishu.py:801-825 | with distinct message ids, the timer of a replaced or flushed batch only disappears |
| FeishuBatching.StaleTimersInertIff | backend/app/channels/feishu.py:801-825 | for any messages: left-over timers are harmless in every interleaving of their arrival exactly when no conversation sees a message id twice |
| FeishuBatching.QueuedIs | backend/app/channels/feishu.py:756-799 | the same for the pending batches as a whole: no other conversation's batch changes |
| FileGroups.JoinsIff | backend/app/channels/feishu.py:764-799 | in every reachable state a queued message joins the pending batch exactly when that was opened at most 0.75 s earlier, and otherwise opens its own and closes the old one |
| FileGroups.OneBatch | backend/app/channels/feishu.py:756-799 | in every run, whatever else happens: a message that opens a batch and all its conversation queues within 0.75 s of it, no timer of the batch having fired, are in one batch, in order |
| FileGroups.OneInbound | backend/app/channels/feishu.py:801-825 | when the timer then fires, one inbound message with all these ids and files is handed over |
| RunningCard.RunKeepsInv | backend/app/channels/feishu.py:497-593 | every interleaving of starts, completions, callbacks and sends keeps at most one creation in flight per source, cards owned by their source, and the count of cards since the last final send equal to the record |
| RunningCard.AtMostOneInFlight | backend/app/channels/feishu.py:507-525 | two creations in flight for one source are the same one, and no card is recorded meanwhile |
| RunningCard.AtMostOneCardBetweenFinals | backend/app/channels/feishu.py:497-593 | between two final sends at most one running card is created for a source |
| RunningCard.SendsPatchOwnCards | backend/app/channels/feishu.py:545-574 | a send only patches a card that replies to its own source message |
| RunningCard.Adapter.EnsureRunningCardStarted | backend/app/channels/feishu.py:507-520 | starts a creation, with the given text ("thinking..." for an inbound message), exactly when neither a card nor a task is recorded; the invariant is kept |
| RunningCard.Adapter.CardReplied | backend/app/channels/feishu.py:497-505 | records the new card, never over another one; the invariant is kept |
| RunningCard.Adapter.FinalizeTask | backend/app/channels/feishu.py:522-525 | forgets the task only if it is still the recorded one; the invariant is kept |
| RunningCard.Adapter.BeginSend | backend/app/channels/feishu.py:545-586 | a recorded card is patched, a recorded creation is awaited; with neither, a final message is sent as a reply and a progress update starts a creation; the invariant is kept |
| RunningCard.Adapter.EndSend | backend/app/channels/feishu.py:588-591 | a final send drops the record and resets the count of created cards |
| CardTexts.EverySendHasItsReason | backend/app/channels/feishu.py:545-591 | in every run each send is where it is for a reason found in its last move: it patches the card that was recorded or that the awaited creation brought, and replies with a new card only if it is final and there was no card or the patch failed |
| CardTexts.FinalIsShown | backend/app/channels/feishu.py:545-593 | in every run a finished final send shows its text on the card it patched, or on a new card of its source, until another send patches that card; except for a reply that came back without a card id |
| CardTexts.ShowsUntilPatched | backend/app/channels/feishu.py:497-593 | a card shows what it shows until a send patches it |
| CardTexts.CreationShows | backend/app/channels/feishu.py:497-505 | a creation that brings a card records it, and it shows the text the creation was started with |
| Clarifications.Store.Remember | backend/app/channels/feishu.py:631-653 | only a final clarifying message naming user, topic, thread, source and card is queued, at the end of its own queue |
| Clarifications.Store.Consume | backend/app/channels/feishu.py:662-682 | hands out the first fresh entry, drops it and everything before it, leaves other queues alone and no empty queue behind |
| Clarifications.RememberedIff | backend/app/channels/feishu.py:631-653 | what a message leaves behind, field by field, and when it leaves nothing |
| Clarifications.QueueIsHeld | backend/app/channels/feishu.py:631-682 | each chat and user has a queue of its own: operations on others never touch it |
| Clarifications.AnswerIsOwn | backend/app/channels/feishu.py:631-682 | over any operations on any chats and users: what a consumer is handed was left behind by an earlier message to its own chat and user, at most 1800 s before |
| Clarifications.AnswerIsDue | backend/app/channels/feishu.py:669-682 | the answer is the oldest one not older than 1800 s, and nothing exactly when all are older |
| Clarifications.OldestFreshIsHandedOut | backend/app/channels/feishu.py:631-682 | over every history with a consumer clock that does not go back, a consumer gets the oldest clarification remembered, not handed out and still fresh, and nothing exactly when there is none |
| Clarifications.HandedOutOnce | backend/app/channels/feishu.py:631-682 | everything remembered is outstanding or was handed out, exactly once |
| Clarifications.ClockBackLoses | backend/app/channels/feishu.py:669-682 | for two consumers in a row: some clarification is missed exactly when the second clock reading is behind the first |
| Clarifications.ClockMustNotGoBack | backend/app/channels/feishu.py:662-682 | for any sequence of consumer clock readings, those of the producers being free: every consumer of every history with these readings gets what it should exactly when the readings never go back |
| Clarifications.SharedClockIff | backend/app/channels/feishu.py:631-682 | for any readings of one clock shared by producers and consumers: every consumer of every history with these readings gets what it should exactly when nothing that expired at one reading is fresh again at a later one |
| Clarifications.PrefixThins | backend/app/channels/feishu.py:662-682 | under such a clock whatever the queue has dropped is stale at every later reading |
| Clarifications.ReviveLoses | backend/app/channels/feishu.py:669-682 | under any other clock some history loses a clarification that is fresh for a consumer |
| TreeDiff.EmptyIffEqual | backend/app/evals/fixture_api.py:145-159 | the diff is empty exactly when the trees are equal, given a prefix or mapping roots one of which has no empty key |
| TreeDiff.EmptyIffSameButEmptyKeys | backend/app/evals/fixture_api.py:145-159 | for all trees: without a prefix the diff is empty exactly when they differ at most along empty keys from the root |
| TreeDiff.EveryChangeShowsIff | backend/app/evals/fixture_api.py:145-159 | every change of a mapping is reported exactly when it has no empty key |
| TreeDiff.EmptyKeyHidesAChange | backend/app/evals/fixture_api.py:145-159 | an instance: a leaf below an empty root key |
| TreeDiff.DiffIsSymmetric | backend/app/evals/fixture_api.py:145-159 | swapping the trees does not change the report |
| TreeDiff.LeafReportedIffChanged | backend/app/evals/fixture_api.py:135-159 | with dot-free keys a leaf path of both trees is reported exactly when its value differs |
| TreeDiff.OnlyDifferencesAreReported | backend/app/evals/fixture_api.py:135-159 | with dot-free keys a reported path is one where the trees differ |
| TreeDiff.ReportedDiffers | backend/app/evals/fixture_api.py:135-159 | every reported path is the dotted form of a key path at which the trees differ |
| TreeDiff.DottedIsInjective | backend/app/evals/fixture_api.py:135-143 | distinct dot-free key paths have distinct dotted forms |
| TreeDiff.LeafPathsIff | backend/app/evals/fixture_api.py:135-143 | the leaf paths of any tree are the dotted forms of the key paths to its leaves |
| TreeDiff.ReportedIff | backend/app/evals/fixture_api.py:135-159 | for any two trees without empty keys at the root (or below a prefix): the diff is exactly the dotted forms of the places where a leaf differs, or of the leaves, or the place itself if it has none, of what only one of them has |
| Fixture.FixtureStore.Reset | backend/app/evals/fixture_api.py:176-189 | refused iff the thread is bound to another trial; otherwise the trial is started over as `Fixture.ResetStartsOver` and `Fixture.SeedsAre` describe |
| Fixture.FixtureStore.UpdateDisplayName | backend/app/evals/fixture_api.py:200-241 | every refusal in the order of the code, replay of used keys, and the new state of the one trial; `Fixture.AcceptedIff`, `RefusedBecause` and `AcceptedRenames` state what these are |
| Fixture.AcceptedIff | backend/app/evals/fixture_api.py:213-236 | on a reachable trial a fresh key is accepted exactly when the scenario does not reject, the site exists, target, actor, scope, action and site are those of the trial, and the name is a string that is not blank |
| Fixture.RefusedBecause | backend/app/evals/fixture_api.py:213-236 | and is refused with the reason that names what is wrong; a version is never unreadable |
| Fixture.AcceptedRenames | backend/app/evals/fixture_api.py:236-241 | an accepted update gives the site the stripped name and the next version, answers that version, and changes nothing else; a refused one changes nothing |
| Fixture.NameOfLastUse | backend/app/evals/fixture_api.py:213-241 | after every run from an empty store, a site reached by an update bears the stripped name of the last update that first used its key there |
| Fixture.ResetStartsOver | backend/app/evals/fixture_api.py:176-189 | a reset that is not refused seeds the trial afresh, forgets its keys, binds the thread and leaves all other trials alone |
| Fixture.SeedsAre | backend/app/evals/fixture_api.py:107-132 | which sites each scenario is seeded with, field by field |
| Fixture.ProjectsAre | backend/app/evals/fixture_api.py:121-131 | and which projects |
| Fixture.RunKeepsTrialsOk | backend/app/evals/fixture_api.py:170-241 | in every run a site's version is one plus the number of distinct keys applied to it, unreached sites are as seeded, ids and projects never change |
| Fixture.UsedKeysPersist | backend/app/evals/fixture_api.py:200-241 | until the trial is reset a used key keeps its body and answer |
| Fixture.UsedKeyIsInert | backend/app/evals/fixture_api.py:213-219 | after any run, replaying a used key gives the original result or, with another body, a refusal, and changes nothing |
| Fixture.OtherTrialsUnaffected | backend/app/evals/fixture_api.py:170-241 | operations on other trials leave a trial and its thread bindings as they were |
| Fixture.ResetMovesIff | backend/app/evals/fixture_api.py:176-189 | a reset moves a bound thread exactly when it was bound to the empty trial id |
| Fixture.BoundThreadStays | backend/app/evals/fixture_api.py:176-189 | over every run a thread bound to a (non-empty) trial id stays there |
| Fixture.MovableIff | backend/app/evals/fixture_api.py:176-241 | some run moves a bound thread exactly when it was bound to the empty trial id |
| Fixture.BindingsAreFinal | backend/app/evals/fixture_api.py:176-272 | in every run of requests that came through the route, each binding is to an existing trial and never changes |
| Fixture.ReportIsExact | backend/app/evals/fixture_api.py:107-287 | after any run the changed paths are exactly the version of each site reached by an update plus the name of each site renamed, all within the trial's scope |
| Fixture.ReportOfTrial | backend/app/evals/fixture_api.py:145-159 | the same for any trial that satisfies the store invariant |
| Fixture.NothingUnexpectedIff | backend/app/evals/fixture_api.py:283-287 | no unexpected change exactly when the expectation names those paths |
| Decimal.ParsePrint | backend/app/evals/fixture_api.py:238-238 | reading a printed version number gives it back |
| Decimal.PrintIs | backend/app/evals/fixture_api.py:238-238 | digits come most significant first, without leading zeros |
| Codec.FromHexOfHex | backend/app/channels/wechat.py:1199-1217 | base16 decoding undoes encoding in either letter case |
| Codec.ReadBase64 | backend/app/channels/wechat.py:1143-1182 | decoding undoes padded base64 of any bytes, strict or lenient |
| Codec.DecodersOfBase64 | backend/app/channels/wechat.py:1170-1182 | what the standard and the URL-safe decoder make of either alphabet |
| Codec.CompletingPads | backend/app/channels/wechat.py:1170-1182 | completing the padding turns unpadded text into padded text and leaves padded text alone |
| Codec.ReadLength | backend/app/channels/wechat.py:1170-1182 | the number of bytes read from text without '=' depends on its digit count alone |
| Codec.DecodeAscii | backend/app/channels/wechat.py:1148-1168 | UTF-8 decoding undoes ASCII encoding |
| Codec.KnownBase64 | backend/app/channels/wechat.py:114-115 | the first test vectors of section 10 of RFC 4648 |
| Codec.KnownHex | backend/app/channels/wechat.py:1199-1217 | base16 test vectors of section 10 of RFC 4648 |
| Codec.KnownAlphabets | backend/app/channels/wechat.py:1170-1182 | the two digits in which the alphabets of sections 4 and 5 of RFC 4648 differ |
| MediaKey.HexTextIsNoBase64Key | backend/app/channels/wechat.py:1143-1218 | text that reads as the hex of a key never reads as base64 of one, although it may be valid base64 |
| MediaKey.OrderIsIrrelevant | backend/app/channels/wechat.py:1185-1218 | the preferred parser makes no difference for any value |
| MediaKey.ParseReadsEveryForm | backend/app/channels/wechat.py:1143-1218 | hex, base64 of the bytes and base64 of hex text, bare or in double or single quotes, in either alphabet, case and padding and with whitespace around, give the key back under both orders |
| MediaKey.OutboundKeyRoundTrips | backend/app/channels/wechat.py:114-115 | the channel reads back the keys it writes |
| MediaKey.RawKeyIff | backend/app/channels/wechat.py:1190-1218 | raw bytes are a key exactly when there are sixteen of them |
| MediaKey.SingleFieldIff | backend/app/channels/wechat.py:1220-1237 | a payload whose single field holds a written key resolves to it exactly under one of the six field names |
| MediaKey.NestedFieldIff | backend/app/channels/wechat.py:1220-1237 | the same for a field of a nested `media` |
| MediaKey.ResolveLooksInOrder | backend/app/channels/wechat.py:1220-1237 | the fields are looked through in the order aeskey, aes_key_hex, aes_key, aesKey, encrypt_key, encryptKey, nested media |
| MediaKey.ResolveAllIsFirstKey | backend/app/channels/wechat.py:1220-1237 | whatever the fields say, the key found is that of the first value that reads as one in the order hex fields, base64 fields, nested media, next payload |
| MediaKey.ResolveFindsTheFirstKey | backend/app/channels/wechat.py:1220-1237 | a key is found exactly when some value reads as it and no value of higher precedence reads as any key |
| MediaKey.PaddingRoundTrips | backend/app/channels/wechat.py:74-77 | the announced size is the size after PKCS#7 padding, and unpadding gives the content back |
| Telegram.SplitJoins | backend/app/channels/telegram.py:334-336 | the pieces concatenate to the text; all but the last have exactly 4096 characters, the last at most that |
| Telegram.FinalReadsAsText | backend/app/channels/telegram.py:197-214 | messages showing the pieces read together as the text |
| Telegram.Channel.Register | backend/app/channels/telegram.py:309-317 | the newest entry replaces the key's old one, at most 256 stay and these are the newest, and every tracked text is still what its message shows |
| Telegram.Channel.StartStream | backend/app/channels/telegram.py:161-168 | a started stream is tracked with the text its message shows, always when the platform is up; a failed send changes nothing; no over-long text is offered |
| Telegram.Channel.UpdateTracked | backend/app/channels/telegram.py:170-195 | run alone: inside the interval (3 s in groups, 1 s elsewhere) nothing happens; otherwise, on a platform that is up, the entry and its message show the new text; no other message changes and no over-long text is offered |
| Telegram.Channel.SendStreamUpdate | backend/app/channels/telegram.py:140-195 | on a platform that is up, with text and outside the interval: afterwards the key is tracked, and its message shows the text, cut to 4096 characters with an ellipsis; inside the interval or without text nothing happens; other streams and messages are untouched |
| Telegram.Channel.SendNewMessage | backend/app/channels/telegram.py:232-252 | one new message or none after all attempts, recorded as the chat's last one |
| Telegram.Channel.EditFinalChunk | backend/app/channels/telegram.py:216-230 | applied iff the message now shows the text, always when the platform is up; otherwise nothing changed |
| Telegram.Channel.PlaceFirst | backend/app/channels/telegram.py:202-211 | the first piece is shown by the streamed message, or by a new one only if that could not be edited |
| Telegram.Channel.SendRest | backend/app/channels/telegram.py:213-214 | the other pieces are shown in order by new messages |
| Telegram.Channel.Finalize | backend/app/channels/telegram.py:197-214 | on success the pieces of the final text are shown in order by distinct messages, and no other message changes; it succeeds whenever the platform is up and never offers over-long text |
| Telegram.Channel.Send | backend/app/channels/telegram.py:117-138 | run alone: every send keeps the tracker true and bounded; on a platform that is up a progress update outside the interval is shown by the stream's message, and a final send is delivered exactly when it is not an untracked text over the limit, the only over-long text ever offered; a tracked final send that succeeds shows the whole text |
| StreamEdits.TruthfulIff | backend/app/channels/telegram.py:117-230 | for each stream, over every interleaving with any others: whenever it is tracked and quiet its recorded text is what its message shows, exactly when its own sends do not overlap and none of its own failed calls is carried out |
| StreamEdits.FinalsStandIff | backend/app/channels/telegram.py:133-230 | for each stream, over every interleaving: every piece of every delivered final text stays what its message shows, under exactly the same condition |
| StreamEdits.RunKeepsInv | backend/app/channels/telegram.py:117-230 | for a stream without overlap and half-failed calls of its own, whatever the others do: one holder per entry, closed entries are untracked, and each job and entry tells the truth about its message |
| StreamEdits.RunKeepsKnown | backend/app/channels/telegram.py:117-230 | in every world whatever is held or tracked exists and stays with its stream, and messages stay with the entry they were sent for |
| StreamEdits.OverlapLies | backend/app/channels/telegram.py:177-195 | two overlapping updates answered in the wrong order leave a wrong record |
| StreamEdits.HalfFailureLies | backend/app/channels/telegram.py:183-195 | an edit that times out after taking effect, with a failing replacement, leaves a wrong record |
| StreamEdits.OverlapLosesFinal | backend/app/channels/telegram.py:133-135 | an update still in flight overwrites the final text |
| StreamEdits.HalfFailureLosesFinal | backend/app/channels/telegram.py:183-214 | then a final text equal to the record is taken to be shown already |
| EditTexts.EveryJobStems | backend/app/channels/telegram.py:117-230 | in every run and world each send puts up what it was asked to: an update its text, a final send pieces that join to its text |
| EditTexts.DeliveredJoins | backend/app/channels/telegram.py:133-230 | a final text that counts as delivered was put up in pieces that join to it, and a stream without overlap and half-failed calls still shows them |
| EditTexts.RecordedWasAsked | backend/app/channels/telegram.py:140-195 | whatever the tracker records was asked for by an update of its own stream |
| EditTexts.ProgressIsPutUp | backend/app/channels/telegram.py:161-195 | an update whose send comes back has shown its text in a new message, and its entry is for that message and text |
| EditTexts.AnswerIsRecorded | backend/app/channels/telegram.py:177-195 | an update whose edit is carried out, or not needed, is recorded with its text; a rate-limited one is dropped; a failed one goes into a new message |
| EditTexts.FinalTakesTheEntry | backend/app/channels/telegram.py:133-211 | a final send ends the tracking of its stream and starts from the tracked message, which is edited exactly when it does not show the first piece |
| ChannelStore.SplitRecoversIff | backend/app/channels/store.py:75-78 | splitting a key gives the conversation back exactly when channel and chat hold no ':' and the topic is not empty |
| ChannelStore.KeysAreInjective | backend/app/channels/store.py:75-78 | distinct such conversations never share a key |
| ChannelStore.ColonInChatCollides | backend/app/channels/store.py:75-78 | an instance of the next |
| ChannelStore.ColonInChatCollidesIff | backend/app/channels/store.py:75-78 | two chats of one channel share a key under some topics exactly when one id continues the other at a colon |
| ChannelStore.ShareAKeyIff | backend/app/channels/store.py:75-78 | the same for chats of any channels, by what their keys start with |
| ChannelStore.KeysTellApartIff | backend/app/channels/store.py:75-78 | for any set of chats: their conversations never share a key exactly when no two of the chats clash |
| ChannelStore.InChatIffSplit | backend/app/channels/store.py:109-137 | removing a chat selects exactly the keys that split back to that chat, with any topic |
| ChannelStore.ListingRecovers | backend/app/channels/store.py:139-153 | with any filter, the listing is exactly the stored conversations of the wanted channel with their entries, in order, topics with colons included |
| ChannelStore.ChannelIsKept | backend/app/channels/store.py:139-153 | a filter keeps each conversation of the channel as often as it is stored, and no other |
| ChannelStore.NoFilterKeepsAll | backend/app/channels/store.py:139-153 | without a filter, or with an empty one, nothing is missing |
| ChannelStore.Store.GetThreadId | backend/app/channels/store.py:82-85 | finds the entry of the conversation's key, or nothing |
| ChannelStore.Store.SetThreadId | backend/app/channels/store.py:87-107 | writes that entry, keeps its creation time and place, leaves all others |
| ChannelStore.Store.Remove | backend/app/channels/store.py:109-137 | with a topic one key goes, without one exactly the chat's keys, the others staying in order; answers whether anything went |
| ChannelStore.Store.ListEntries | backend/app/channels/store.py:139-153 | lists what `ListingRecovers` describes |
| EnvFile.ReadEnvFile | scripts/wizard/writer.py:32-44 | the map of the assignments, the last one winning |
| EnvFile.MergeExisting | scripts/wizard/writer.py:57-67 | rewrites assignments of wanted keys in place and records which were seen |
| EnvFile.AppendNew | scripts/wizard/writer.py:69-71 | appends the pairs not yet seen, in order |
| EnvFile.WriteEnvFile | scripts/wizard/writer.py:47-73 | the merged lines, joined and ended by a newline |
| EnvFile.ReadAfterWriteIff | scripts/wizard/writer.py:32-73 | for every file, reading after writing gives the old map overridden by the pairs exactly when all pairs are well formed |
| EnvFile.LinesSurvive | scripts/wizard/writer.py:57-71 | comments, blank and unrelated lines stay in place, duplicates of a wanted key are all rewritten |
| EnvFile.WritingTwiceIsWritingOnce | scripts/wizard/writer.py:47-73 | a second write with the same pairs leaves the text as it is |
| EnvFile.SplitFlat | scripts/wizard/writer.py:55-73 | splitting the written text gives the lines back |
| EnvFile.AssignmentIsWellFormed | scripts/wizard/writer.py:38-43 | whatever a line assigns is well formed |
| EnvFile.LineAssigns | scripts/wizard/writer.py:38-43 | a line assigns what is around its first "=", stripped |
| EnvFile.NothingAssignedIff | scripts/wizard/writer.py:38-41 | blank lines, comments and lines without "=" assign nothing, and only they |
| EnvFile.AppendedInOrder | scripts/wizard/writer.py:69-71 | new pairs are appended in their order |
| EnvFile.BreaksAt | scripts/wizard/writer.py:37-55 | the ten characters that break a line |
| Gate.Accumulate | backend/app/evals/gate.py:23-30 | the loop earns each present dimension's weighted average and the weight available |
| Gate.QualityScore | backend/app/evals/gate.py:19-33 | the score and the parts, for any score list |
| Gate.EvaluateGate | backend/app/evals/gate.py:36-94 | status, recommendation and reasons for any score list |
| Gate.QualityInRange | backend/app/evals/gate.py:19-33 | the quality score lies in [0, 10] |
| Gate.RaisingNeverHurts | backend/app/evals/gate.py:19-94 | raising one numeric score never worsens the recommendation |
| Gate.IncompleteNeverHelps | backend/app/evals/gate.py:19-33 | adding a score without a number at any position never raises an available quality score |
| Gate.OrderNeverMatters | backend/app/evals/gate.py:19-94 | the order of the scores decides neither the quality score nor the recommendation |
| Gate.ReleaseIff | backend/app/evals/gate.py:36-94 | "release" exactly when every hard-gate score passed and the quality score is there and reaches the minimum |
| Gate.ConditionalIff | backend/app/evals/gate.py:76-80 | "conditional" exactly when no hard-gate score failed or is incomplete and the quality score is below the minimum but reaches the conditional threshold |
| Gate.HoldIff | backend/app/evals/gate.py:36-94 | "hold" in exactly all other cases |
| Gate.StatusIs | backend/app/evals/gate.py:52-84 | when status and hard-gate status are failed or incomplete |
| Gate.CountsAre | backend/app/evals/gate.py:46-87 | the failures and gaps reported count the failed and the incomplete hard-gate scores |
| Gate.P1Is | backend/app/evals/gate.py:48-49 | of any two scores: the P1 score is the average of those of priority P1 with a number and not incomplete, and missing when there is none |
| Gate.SelectedOne | backend/app/evals/gate.py:24-48 | which scores count as hard-gate scores of a status, for the P1 score and for a dimension, one by one |
| Gate.SelectedInOrder | backend/app/evals/gate.py:24-48 | and list by list, in order |
| Gate.ReasonsAre | backend/app/evals/gate.py:52-87 | each reason of the scores at fault is reported, once, and no other |
| Gate.ReasonsGrow | backend/app/evals/gate.py:52-87 | in the order of their first appearance |
| Gate.WeightsAre | backend/app/evals/gate.py:10-30 | the weights 3, 2, 2, 1.5, 1 and 0.5 of the six dimensions and the names that count for each |
| Gate.QualityOfSix | backend/app/evals/gate.py:10-33 | with one score per dimension the quality is their weighted mean, on a scale of ten |
| Gate.ShareIsAverage | backend/app/evals/gate.py:23-30 | two scores of one dimension count by their average |
| Gate.PartsAre | backend/app/evals/gate.py:23-30 | the parts reported, by dimension |
| Migration.Store.Search | backend/app/gateway/app.py:142-142 | one page of the listing with current values |
| Migration.Store.Put | backend/app/gateway/app.py:164-164 | rewrites one item, which stays, moves to the front or moves to the end of the listing |
| Migration.MigrateBatch | backend/app/gateway/app.py:145-149 | the ownerless items of a page are rewritten and counted in turn, while rewriting moves items in the listing |
| Migration.MigratePage | backend/app/gateway/app.py:141-150 | one round of the loop is one step of the walk |
| Migration.Migrate | backend/app/gateway/app.py:132-166 | for every store, page size and listing the loop ends, and does and counts what the walk `Pages` does until it is over |
| Migration.WalkIsDone | backend/app/gateway/app.py:132-152 | the walk is over after at most one page more than there are threads |
| Migration.WalkEndsOnce | backend/app/gateway/app.py:143-152 | the walk has one end: whenever it is over, store, visited threads and count are the same |
| Migration.EveryThreadOnce | backend/app/gateway/app.py:132-166 | the walk visits each thread exactly once, gives exactly the ownerless ones to the admin and returns their number; if rewritten items move to the end, when one page holds the store |
| Migration.EndListingIff | backend/app/gateway/app.py:132-166 | if rewritten items move to the end: every store of n threads is migrated exactly when n is at most the page size |
| Migration.NextThreadIsSkipped | backend/app/gateway/app.py:145-149 | the thread after a full page of ownerless ones is then never migrated |
| Migration.SecondRunIsIdleIff | backend/app/gateway/app.py:152-166 | a second walk over the migrated store returns 0 exactly when the admin id is not empty or nothing was ownerless |
| Migration.NothingElseChanges | backend/app/gateway/app.py:141-150 | at any point of the walk, for every page size and listing: no thread is lost or new, and none changes but in its owner, from none to the admin |
| Migration.OrphansGoToAdmin | backend/app/gateway/app.py:132-166 | when the walk is over each thread without an owner, or with an empty one, belongs to the admin, all others are as they were |
| DiscordSplit.LastNewline | backend/app/channels/discord.py:634-636 | the last newline within the limit, if it is not at the start |
| DiscordSplit.CutOne | backend/app/channels/discord.py:634-638 | a chunk of 1 to 2000 characters, cut at the last newline within the limit if there is one past the start, then only newlines, then the rest |
| DiscordSplit.SplitText | backend/app/channels/discord.py:626-643 | the text is the chunks in order separated only by runs of newlines, each of 1 to 2000 characters; a text that fits is one chunk |

## Left out

- SDK and HTTP calls of all adapters, AES, MD5 and JWT, JSON and YAML libraries, and all disk persistence: only their outcomes appear.
- `/new`, `/goal`, shutdown and user commands: they bypass or end the protocols modelled here.
- Discord's `_record_thread_mapping`, `_build_ilink_client_version` and `_inbound_dedupe_key`: they would only add easy members; the dedupe model takes the key as given.
- ThreadCreation.AtMostOneIff: counts create calls that succeed; two calls with one preferred id obtain one thread, and `DistinctThreads.OneThreadIff` counts threads. A Gateway that hands out an empty id is not modelled.
- ThreadCreation.RunKeepsInv: a create call, its conflict check and its result are one step; the class `Manager` shows the dictionaries, while waiting on a lock stays in the step system.
- FeishuBatching.RunKeepsInv: the main loop is taken to be running, so every scheduled coroutine is eventually able to run.
- RunningCard.RunKeepsInv: waits, patches and replies stay in the step system; sends without a source message, which create a plain card, are left out.
- FileGroups.OneBatch: the delay of a timer is not modelled; a timer may fire at any time, and the statement is about runs in which it has not yet.
- CardTexts.FinalIsShown: a patch that raises is taken to have changed nothing, and a reply without a card id shows nothing the model can name.
- Conversations.OneThreadOneConversation: about minted ids and a store that starts empty; a preferred id is one thread wherever it is preferred. Connection, chat and topic are taken to address one record of the connection repository.
- Clarifications.OldestFreshIsHandedOut: restoring the thread mapping after a consumed clarification is left out.
- Streaming.HandleStreamingChat: which artifacts resolve to files is a given of each state, since it depends on the disk; errors of publishing and of resolving files are left out.
- Streaming.HandleMessage: the reply of a stream only; commands, rejected identities and configuration errors, which have texts of their own, are left out.
- Turn.ExtractResponseText: values that JSON cannot hold are left out.
- StreamText.Buffers.Accumulate: a list- or mapping-valued message `type` counts as not a tool message.
- Telegram.Channel.UpdateTracked: runs without interleaving and a failed call changes nothing on the platform; both are lifted in `StreamEdits`.
- Telegram.Channel.Send: as `UpdateTracked`; reply-to targets are ignored and the stream key is the pair it is printed from. A platform that refuses empty text is not modelled.
- StreamEdits.TruthfulIff: chat ids and the throttle clock are left out; throttling and eviction may happen at any time. A rate-limited call is never carried out. A send, whose message nobody knows before it returns, is one step.
- Fixture.FixtureStore.Reset: request fields the store never reads, locking and the HTTP layer are left out, except that a routed request has a non-empty trial id.
- Gate.QualityScore: numbers are reals and rounding is any monotone function that fixes 0 and 10.
- Gate.OrderNeverMatters: over reals; a sum of floats may depend on the order of its terms, so the code keeps this only up to float rounding.
- Migration.Migrate: a thread is its metadata `user_id` and the rest; nobody else writes to the store meanwhile.
- MediaKey.PaddingRoundTrips: encryption itself is not part of this model.
