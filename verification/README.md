# Steno, verified

Steno archives conversations. Live channels and push keys write into one archive of sources, chats and messages; an
address book names the people in it; queues download and analyse attachments; agents and the portal page through the
result. This project models the parts of Steno where a mistake would silently change or lose what was archived, and
proves what the code keeps.

Run `dafny verify dfyconfig.toml` in this directory to check everything.

## How the model is laid out

- **The archive.** `ArchiveTypes` holds the rows. `Ingest`, `Disputes` and `Import` say how one message, edit, delete,
  dispute or batch changes the tables, as functions. `ArchiveStore` is the same written as the services write it: a
  class whose methods change the tables statement by statement, with `message_disputes` kept apart from `messages`
  (`Tables` joins the two) and a batch that is rolled back by hand; every method is proved equal to its function.
  `Runs` makes each transaction one step of a transition system. The theorems are about all batches and all runs:
  `Consistency`, `Conservation`, `PushStamps`, `RunningBudget`, `Convergence`, `Replay`, `Tokens`, `ReviewWindow`,
  `SameInstant`, `PurgeLaws`, `Tombstones`, `RoundTrip`; `Capacity` and `PushFold` serve them. `BatchLaws`,
  `ReviewLaws`, `LiveLaws`, `ExportLaws`, `CapacityLaws` and `Provenance` tell what a batch, a review, a live event and
  an export leave behind in the columns themselves, without the functions that define them.
- **The address book.** `People` and `Populate` are the functions, `AddressBook` the class. `PhoneMerge` proves that
  iterated merging reaches the connected components, `OnePass` exactly when one pass is enough, `PopulateAgain` when a
  second sync changes nothing, `Hidden` that hidden people stay hidden. `PhoneBridge`, `SyncLaws`, `MergeLaws` and
  `NameLaws` say in numbers, names and dates who is joined, who stays and who is called what.
- **Reading.** `Paging` proves keyset paging against the plain sorted list, `Listings` applies it to transcripts over a
  changing archive and to the history export, `ChatPages` to the chat list, whose order changes under it
  (`ChatActivity`), `OrderLaws` says what the lists show and in which order. `Linkify` and `Grouping` are the
  transcript's two scanners, and `LinkLaws` says what becomes a link.
- **Background work.** `Queues` bounds a retry queue by the attempts left in it; `MediaQueue` and `Analysis` are the two
  drains, `Analysis` with its daily spending cap, `QueueLaws` and `SpendLaws` say why each row ended as it did and what
  was paid for it; `Coalesce` and `SingleFlight` are the two schedulers as microtask steps.
- **Connections.** `Lifecycle` is the connection table with portal and worker processes interleaved statement by
  statement, `LifecycleSafety` what no interleaving breaks, `Reconnect` what a new attempt may delete, `RecoveryLaws`
  who is let back in, `LoginLaws` what a pairing row shows, `RecoveryRuns` a recovery from end to end,
  `ConnectionTable` the operations as a class.

Times are integers. A database id is a fresh serial number, never handed out twice. A hash is taken to be injective: a
dispute's fingerprint is its text, a review token is the tuple that is hashed. A thrown error restores the tables. What
comes from outside (the clock, a download, a provider's answer, the rows a SELECT returned and their order where the
code leaves it open) is a parameter, and every theorem is for all its values.

## What turned out not to hold

- **One merging pass is not always idempotent**, though the comment at lib/services/people.ts:1072 says so. A pass
  reads its groups once, so a group whose oldest holder is already gone merges nobody. `OnePass.OrderMatters` is a book
  of three people that one pass closes in one order of its numbers and leaves open in the other. The query fixes no
  order, so what a caller can rely on is `OnePass.EveryOrderClosesIff`: one pass is enough in every order if and only
  if everyone who is not the oldest of the component shares a cross-channel number with the one who is.
  `PopulateAgain.PopulateTwiceInEveryOrder` says the same of the whole sync, and `PopulateAgain.SecondSyncMerges` is a
  second sync that still merges; `OnePass.PassClosesIff` and `PopulateAgain.PopulateTwice` are exact for one order.
- **A review token leaves one gap.** What a reviewer saw is exactly what a matching token settles, but more can have
  been shown in between. `ReviewWindow.SeenThroughoutIff` is exact: the archive showed just what the reviewer saw at
  every moment if and only if no accepted push in between carried an undated copy of the message with another text.
  It takes some push at the very millisecond of the conflict mark (`Tokens.NothingMovedBetween`);
  `SameInstant.ThreeKeys` is a run from the empty archive where it happens.
- **Connect can throw on a fresh instance.** `createSetupConnection` ignores a failed attempt that was never revoked,
  but the unique index does not: `LifecycleSafety.SetupThrowsIff`, and `LifecycleSafety.SetupCanThrow` for a run.
- **An archive can be deleted behind the owner's back**, though the comment at lib/services/connections.ts:121-126 says
  never. A new attempt reads the rows, looks for a chat of each and clears it in three statements.
  `Reconnect.ArchiveDeletedIff` is exact: a row that holds a chat is deleted if and only if the look found none, and
  then its login completed after the read and its first chat was stored after the look. `Reconnect.ArchiveCanBeDeleted`
  is a run; `Reconnect.ActiveDeletedIff` says the same of active rows.
- **A chat can be missed while the chat list is paged.** Its activity only moves forward, so it is never returned twice,
  but it can jump over a cursor: `ChatPages.ChatListPages` says that a chat listed at every read is missed exactly then.
- **A kick that lands between the last check and the reset is dropped** by `coalesceRuns`: `Coalesce.KickIsDropped`,
  with a trace in `Coalesce.AKickIsDropped`; every earlier one is served, `Coalesce.KickIsServed`.
- **Tombstones do not travel.** A delete of a message the archive never saw is a no-op, so an export imported into an
  empty source brings back its messages and none of its deletes: `RoundTrip.ExportImportExport`.

## Model

| member | source | states |
|---|---|---|
| Consistency.ReachableConsistent | lib/services/disputes.ts:9-28 | From an empty archive, after any run of imports, live traffic, reviews, purges and administration: a message is marked as conflicted exactly when it has a candidate; every candidate sits on an undeleted message, carries its current revision and differs from its text; the table is within 10,000 candidates and 512 MiB; push sources are unique; every message has its chat and does not postdate the chat's last activity |
| Consistency.ApplyKeeps | lib/services/ingest.ts:112-186 | Every single transaction keeps that invariant, from any archive that has it |
| Consistency.CaptureKeeps | lib/services/disputes.ts:12-28 | Capturing a dispute keeps the invariant, and a carried budget that covered the table still covers it |
| CapacityLaws.StaysWithinLimits | lib/services/disputes.ts:9-28 | In every archive reachable from an empty one, however its candidates are listed, there are at most 10,000 of them and their texts together have at most 536,870,912 bytes of UTF-8 |
| CapacityLaws.RefusedIff | lib/services/disputes.ts:12-28 | A disagreement is refused exactly when the message is live and says something else, this key has not said this against this revision before, and one more candidate would be too many or its text too much |
| CapacityLaws.RecordsIff | lib/services/disputes.ts:12-28 | What is not refused marks the message and is counted once more, or for the first time at that instant; the message, the other candidates and all other messages stay; nothing happens to a message that is gone, deleted or says the same |
| CapacityLaws.Utf8Decodes | lib/services/disputes.ts:122-124 | The byte count is that of an encoding that can be read back: its first byte gives the length, the others continue, and together they give the character |
| Conservation.ImportConserves | lib/services/import.ts:125-159 | An accepted batch: inserted plus duplicates is the number of entries, edited plus conflicts at most the duplicates, the conflict list is cut at twenty, and the source's live rows grow by exactly inserted minus deleted |
| BatchLaws.BatchCounts | lib/services/import.ts:137-151 | The counters of an accepted batch count its entries by what each met: a place without a message, a later date than the live row has, or another text without a date; the conflicts named are the first twenty, in the order of the batch |
| BatchLaws.BatchRefused | lib/services/import.ts:125-133 | A batch is refused for its key exactly when the key is unknown, revoked or may not push, and whatever is refused changes nothing |
| BatchLaws.BatchSource | lib/services/import.ts:99-156 | An accepted batch is received by the live push source of its channel and account, or by a new one created by its key; that row takes the batch's label and says when, by which key and with how many conflicts; every other source stays |
| BatchLaws.BatchRooms | lib/services/ingest.ts:63-74 | A chat of that source afterwards: its activity is the latest instant it had or an entry brings, its title the last an entry gives it, and its kind and channel those it was first stored with |
| BatchLaws.BatchBrings | lib/services/import.ts:112-151 | A place without a message takes its immutable columns from the first entry that names it, with no media, with the pushed payload or the two-field stand-in, and credited to the key |
| BatchLaws.BatchBuries | lib/services/import.ts:152-156 | After the entries, the deletes bury exactly the live messages of the source that they reach, each with its text, and count them; every other message stays as the entries left it |
| PushFold.EntriesCore | lib/services/import.ts:137-151 | Seen from one message, folding a batch is folding the entries that name it: first writer wins, then strictly newer dated entries, and a tombstone never moves |
| PushFold.ImportCore | lib/services/import.ts:125-159 | The same for a whole accepted batch that does not delete the message |
| Convergence.EditsConverge | lib/services/import.ts:137-151 | Over any accepted batches that never delete the message: with no dated entry its first text stands undated; otherwise, where equal dates agree, it is exactly its latest dated entry, whatever the order, the split and the undated copies |
| Convergence.HistoriesAgree | lib/services/ingest.ts:112-119 | Two histories with the same dated versions end with the same text and date, whatever their orders, batches, keys and undated entries |
| Replay.ReplayChangesNothing | lib/services/import.ts:125-159 | The same batch again, by any key: nothing inserted, edited or deleted; no message changes but for conflict marks and the candidates its undated, disagreeing copies leave; no title and no last activity changes; the messages and chats of other sources are untouched |
| Replay.CandidatesSettle | lib/services/import.ts:145-150 | From the second import of a batch on, the set of candidates is a fixed point |
| PushStamps.BatchStamps | lib/services/ingest.ts:207-213 | After an accepted batch a chat exists if it did before or an entry names it; the chats of its source that an entry or a delete names carry its instant and key, and every other chat is as it was |
| Provenance.EverythingWasSent | lib/services/ingest.ts:85-160 | In every archive reachable from an empty one, each stored text was sent for its very place by whoever it is credited to: in an accepted push of that key, by the channel, or by a rewrite without a key; and each candidate by its key |
| RunningBudget.BudgetRefinesRecount | lib/services/disputes.ts:12-28 | Carrying a budget through a batch gives exactly the verdict, tables and result of recounting message_disputes before every insert |
| RunningBudget.RunningBudgetCovers | lib/services/import.ts:136-151 | After any number of entries the running budget is at least the true count and byte total |
| Tokens.TokenSeesTheSame | lib/services/disputes.ts:45-72 | If a review succeeds with a token issued earlier, the row and its full candidate set are, column for column, what was shown when it was issued |
| Tokens.NothingMovedBetween | lib/services/disputes.ts:45-72 | At every step in between, the message kept its text and revision and every candidate shown; it was unchanged altogether if no batch ran at the instant of the conflict mark |
| Tokens.TokenOnlyOnce | lib/services/disputes.ts:58-72 | No token succeeds twice, whatever happens between the two uses |
| ReviewLaws.KeepKeeps | lib/services/disputes.ts:58-72 | With the current token, Keep leaves the text, its date and its credit, and no tombstone |
| ReviewLaws.RemoveBuries | lib/services/disputes.ts:58-72 | With the current token, Remove makes a tombstone dated now that keeps the text and its credit |
| ReviewLaws.AcceptTakes | lib/services/disputes.ts:58-72 | With the current token, Accept succeeds exactly if some candidate has that id; the live row then has the text and the key of that candidate and the later of now and its previous date |
| ReviewLaws.ReviewTouchesOne | lib/services/disputes.ts:58-72 | A review changes no other message and nothing else, and nothing at all unless it is resolved; it is stale exactly when the message is not live and disputed or the token is not the current one |
| Provenance.AcceptedWasPushed | lib/services/disputes.ts:58-72 | Over any run from an empty archive, a text stored by accepting a candidate was carried for that place by an accepted push of the key it is credited to |
| Tokens.RunGrows | lib/services/ingest.ts:112-134 | Over any run a message's revision never falls, its immutable columns never change, and its text changes only with its revision |
| ReviewWindow.SeenThroughoutIff | lib/services/disputes.ts:45-72 | For a token that was shown and later succeeds: the message and its candidates were exactly as shown at every moment in between if and only if no accepted push into its source in between carried an undated copy of it with another text |
| ReviewWindow.ImportAt | lib/services/import.ts:137-159 | One batch, seen from an undeleted message: it moves to a later revision; or else it gains a candidate or an occurrence exactly if the batch is accepted into its source with an opposing undated copy, and is otherwise untouched |
| SameInstant.MoreWasShown | lib/services/disputes.ts:45-47 | For every message disputed at an instant, a batch of one opposing undated copy by a further key at that instant shows one more candidate, and after that key is revoked and purged the old token is answered, for every action, as it would have been at once |
| SameInstant.ThreeKeys | lib/services/disputes.ts:45-119 | A run from the empty archive, of batches the push door admits, in which that happens: a token shown before succeeds although the archive had shown something else in between |
| PurgeLaws.PurgeIsExact | lib/services/disputes.ts:93-119 | A purge removes exactly the undeleted messages the key delivered, the key's candidates and those on removed messages; keeps every other row but for the mark and revision of messages that lost their last candidate; drops a source exactly if it is a push source, was concerned and holds no row; and counts the removed messages and the sources left empty |
| PurgeLaws.PreviewIsExact | lib/services/disputes.ts:80-91 | The preview names, with its revision, every live message the key delivered, and every candidate of the key or against a message it delivered, and nothing else |
| PurgeLaws.PurgeRunsIff | lib/services/disputes.ts:93-97 | A purge runs exactly for a revoked key that could push and, if a preview is expected, while that is still the preview; otherwise nothing changes |
| PurgeLaws.PurgeSparesRooms | lib/services/disputes.ts:109-116 | Chat rows go only with their source, and no key changes |
| PurgeLaws.PurgeTwice | lib/services/disputes.ts:93-119 | A second purge of the same key changes nothing and reports nothing |
| PurgeLaws.TouchedIsConcerned | lib/services/disputes.ts:80-91 | The sources a preview lists are those with a live row of the key, a candidate of the key, or a candidate on one of its rows |
| Tombstones.BuriedForever | lib/services/ingest.ts:163-186 | Over every run a tombstoned row is never revived, rewritten, disputed or removed while its source is not deleted outright, and no purge removes that source |
| RoundTrip.OwnExportIsIdle | lib/services/chat-export.ts:41-152 | Re-importing any part of a chat's export into its own source, in any order: every entry is a duplicate, all other counts are zero, no message, candidate, title, kind or last activity changes |
| RoundTrip.ExportImportExport | lib/services/chat-export.ts:41-152 | A pushed chat's export, uploaded in any order, split and repetition into an empty source, exports again as the same set of messages field for field, with the same title and kind and no deletes |
| RoundTrip.PlaceReadsBack | lib/services/import.ts:112-159 | After any of those uploads each place is empty until its entry was sent and a faithful copy of it from then on |
| ExportLaws.ExportIsExact | lib/services/chat-export.ts:41-152 | An export has one entry per live row of the chat, with its columns, and no other; the raw payload is there exactly if a known key delivered the row; the count is the number of entries; the deletes are exactly the tombstones |
| ExportLaws.ExportNamesSource | lib/services/chat-export.ts:41-152 | The export names the source and its mode, and its account only where the pusher chose it |
| ExportLaws.NothingLeaks | lib/services/chat-export.ts:104-118 | Two archives that differ only in the raw payload of rows no known key delivered, in the account of sources that are not pushed, and in disputes, have equal exports |
| LiveLaws.LiveEditIff | lib/services/ingest.ts:125-160 | A live edit of a stored message applies if and only if the message is not deleted and the edit names no actor, the owner for an owner's message, or by a nonblank id the contact whose message it is; then exactly its text is stored, dated now and credited to the channel; every other message stays |
| LiveLaws.LiveEditOfUnknown | lib/services/ingest.ts:125-160 | A live edit of an unknown message stores it whole where an edit is the whole message, and nothing otherwise |
| LiveLaws.LiveRecordStores | lib/services/ingest.ts:85-99 | A live message is stored column by column the first time, and changes no message after that |
| LiveLaws.LiveDeleteIff | lib/services/ingest.ts:163-186 | A live delete buries a message if and only if it is not deleted, is in a chat the delete may search, and the same authorship holds; the tombstone keeps the text; every other message stays |
| LiveLaws.CommonIffReach | lib/services/ingest.ts:163-186 | The chats a delete without a chat may search are those whose id is an integer from -999999999999 on |
| ArchiveStore.Archive.UpsertChat | lib/services/ingest.ts:63-74 | The chat row after an upsert: a new title replaces, a null one never blanks, last activity only moves forward, nothing else changes |
| ArchiveStore.Archive.RecordMessage | lib/services/ingest.ts:85-99 | The tables and the answer after recording: first writer wins, and the existing text and tombstone are reported |
| ArchiveStore.Archive.ApplyPushedEdit | lib/services/ingest.ts:112-119 | An edit applies exactly to an undeleted message with no strictly newer or equal edit, bumps its revision and clears its candidates |
| ArchiveStore.Archive.ApplyEdit | lib/services/ingest.ts:125-160 | A live edit applies to the author's own undeleted row; otherwise it is dropped, or recorded where the channel's edit is the whole message |
| ArchiveStore.Archive.ApplyDelete | lib/services/ingest.ts:163-186 | The loop over target chats tombstones exactly the addressed, undeleted rows the actor may delete, and counts them |
| ArchiveStore.Archive.CaptureDispute | lib/services/disputes.ts:12-28 | The tables and the budget after a capture, or the refusal with nothing changed |
| ArchiveStore.Archive.PendingBudget | lib/services/disputes.ts:122-124 | Summing message_disputes row by row gives the number of candidates of the joined messages and their UTF-8 bytes |
| ArchiveStore.Archive.GetDispute | lib/services/disputes.ts:48-57 | Shows a message with its candidates and its token exactly when it is live and marked |
| ArchiveStore.Archive.ResolveDispute | lib/services/disputes.ts:58-72 | A resolution needs the current token and, to accept, a stored candidate; it settles the row, bumps the revision and clears the candidates, and keeps the invariant |
| ArchiveStore.Archive.WithdrawCandidates | lib/services/disputes.ts:98-103 | Deleting one key's candidates and then settling each message left with none, in any order, is withdrawing the key from every message |
| ArchiveStore.Archive.SweepSources | lib/services/disputes.ts:108-116 | Visiting the touched sources one by one removes exactly the push sources left empty and counts every one left empty |
| ArchiveStore.Archive.PurgeRevokedKey | lib/services/disputes.ts:93-119 | The whole transaction: refused unless the key is a revoked push key and the preview is current; otherwise candidates, messages and sources go as specified |
| ArchiveStore.Archive.UpsertSource | lib/services/import.ts:99-110 | Finds the one live push source of that type and id and refreshes its label, or makes it |
| ArchiveStore.Archive.FoldEntries | lib/services/import.ts:134-151 | The loop over the messages with its counters, touched chats and carried budget computes the fold, or stops at the first refused capture |
| ArchiveStore.Archive.ApplyDeletes | lib/services/import.ts:152-154 | The loop over the deletes buries what each addresses and adds up the counts |
| ArchiveStore.Archive.MarkChatPushes | lib/services/ingest.ts:207-213 | The two loops, a lookup per delete and an update per touched chat, stamp exactly the touched chats and those of the deletes that exist |
| ArchiveStore.Archive.ImportBatch | lib/services/import.ts:125-159 | The whole batch and its result, or every table as it was; the invariant holds afterwards |
| PhoneMerge.PassShrinksUnlessClosed | lib/services/people.ts:967-1001 | A pass returns 0 exactly when no number held on both channels spans two live non-owner people, and then changes nothing; otherwise the address book shrinks by exactly the number returned |
| PhoneMerge.PassesEnd | lib/services/people.ts:967-1001 | k passes that each merged something leave at least k fewer people, so iterating ends |
| PhoneMerge.MergingReachesClosure | lib/services/people.ts:896-1001 | Passes in any orders that end closed: two identities end with one person exactly when their holders were connected by cross-channel numbers; every identity is kept, on a person who exists; the survivors are the oldest of each component, with the owner's alias exactly if a member had one, and notes exactly if a member had them; hidden people and the owner keep their identities |
| PhoneMerge.MergeDerived | lib/services/people.ts:896-921 | One merge of connected people keeps the account of who stands for whom, whose name it is and whose notes |
| OnePass.EveryOrderClosesIff | lib/services/people.ts:967-1001 | One pass leaves no cross-channel number on two people, in every order of its groups, if and only if everyone but the oldest of each component shares a cross-channel number with that oldest |
| OnePass.PassClosesIff | lib/services/people.ts:967-1001 | For one given order: a pass closes the book if and only if everyone but the oldest of each component is in some group whose oldest holder no earlier group merged away |
| OnePass.PassRemoves | lib/services/people.ts:988-1000 | The people a pass over its stale groups deletes are exactly those, and nobody else's owner flag, archive flag or birthday changes |
| OnePass.OnePassCloses | lib/services/people.ts:967-1001 | One pass reaches the closure whenever bridged numbers with a common holder have the same oldest holder, whatever the order |
| OnePass.OneNumberOnePass | lib/services/people.ts:967-1001 | In particular when nobody holds two different numbers |
| OnePass.OrderMatters | lib/services/people.ts:967-1001 | A book of three people in a row, with distinct identity keys, that the pass closes in one order of its two numbers and leaves open in the other |
| PhoneBridge.EdgeIsBridge | lib/services/people.ts:967-1001 | Two people are joined by a number exactly if each has it and a visible contact has it on each channel |
| PhoneBridge.JidStoresNumber | lib/services/people.ts:94-101 | Linking a WhatsApp id made of digits, without a number, stores the number the id is |
| PhoneBridge.OtherIdsStoreNone | lib/services/people.ts:94-101 | Any other WhatsApp id, linked without a number, stores none |
| PhoneBridge.TypedNumberStores | lib/services/people.ts:89-93 | Linking any id with a number whose digits are the same stores the same number |
| PhoneBridge.LinkedPairMeets | lib/services/people.ts:457-488 | Two visible people linked to the two ids of one number are one person after passes that end closed |
| SyncLaws.SyncJoins | lib/services/people.ts:1080-1121 | Two new contacts, one on each channel, whose numbers have the same digits are one person after a sync that leaves the book closed, even where the WhatsApp one has its number in its id alone |
| SyncLaws.LoopMakesPerson | lib/services/people.ts:1086-1116 | A nameable candidate nobody holds and nobody hidden has the number of becomes a visible person of its own, under the name it came with, cut to 100 characters |
| SyncLaws.SyncCounts | lib/services/people.ts:1080-1121 | The people added and merged by a sync account for the difference in the number of people |
| MergeLaws.MergeIsExact | lib/services/people.ts:896-921 | When a merge is refused, and column by column what it leaves otherwise |
| MergeLaws.SurvivorsAreEarliest | lib/services/people.ts:967-1001 | After passes that end closed a person is still there exactly if nobody it was connected to was created earlier, or at the same instant with a smaller id |
| MergeLaws.AttachedToEarliest | lib/services/people.ts:1051-1103 | A new contact whose number hidden people have becomes an identity of the earliest of them |
| MergeLaws.OwnerIsEarliestHolder | lib/services/people.ts:231-277 | Where nobody is the owner, the earliest visible holder of an own account becomes the owner and takes the other holders in; where nobody holds one, a new person does |
| NameLaws.IdentitiesFollow | lib/services/people.ts:930-955 | An identity takes the trimmed name and the number of its newest contact row, each only where that row has one, and nothing else changes |
| NameLaws.NamesFollow | lib/services/people.ts:1010-1037 | A person whose name follows the contact list takes the newest name of its first identity that has one, cut to 100 characters, if it is usable; nobody else is renamed, and nothing but names changes |
| NameLaws.RenamesCount | lib/services/people.ts:1010-1037 | The count of renames is the number of people whose row changed |
| NameLaws.TrimIsMiddle | lib/services/people.ts:74-83 | Trimming takes white space off both ends and nothing else |
| Hidden.HiddenStaysHidden | lib/services/people.ts:1080-1121 | In every pass hidden people keep their row and every identity they hold, and no identity is dropped |
| Hidden.AttachedToHidden | lib/services/people.ts:1089-1110 | A nameable contact or direct chat that nobody holds, with a number a hidden person held, ends with the oldest hidden person holding that number |
| PopulateAgain.PopulateTwice | lib/services/people.ts:1070-1121 | Over an unchanged archive a second sync creates nobody; it returns (0, 0, 0) if and only if it changes nothing, and if and only if everyone but the oldest of each component, in the book the first merge started from, was in a group whose oldest holder was still there at its turn |
| PopulateAgain.PopulateTwiceInEveryOrder | lib/services/people.ts:1070-1121 | The second sync returns (0, 0, 0) and changes nothing, in every order of both merges, if and only if everyone but the oldest of each component shares a cross-channel number with that oldest when the first merge starts |
| PopulateAgain.SecondSyncMerges | lib/services/people.ts:1070-1121 | The three people in a row: after a first sync the second one, over an unchanged archive, still does not return (0, 0, 0) |
| PopulateAgain.OneNumberPopulatesOnce | lib/services/people.ts:1070-1121 | That holds, and the first sync leaves the book closed, if nobody holds two numbers when the merge starts |
| PopulateAgain.OneOwnerStays | lib/services/people.ts:231-277 | A sync never makes a second owner |
| PopulateAgain.EnsureOwnerOwns | lib/services/people.ts:231-277 | Afterwards there is one owner row, every account id is linked, and none is held by a visible person other than the owner unless the owner is hidden |
| AddressBook.AddressBook.MergePeople | lib/services/people.ts:896-921 | Merges two unhidden people unless the first is the owner: identities re-pointed, an owner's alias outranks a channel name, notes fill an empty box, the first row deleted |
| AddressBook.AddressBook.LinkIdentity | lib/services/people.ts:457-488 | Links a trimmed, unheld id, with its normalised number or the one its JID carries, or says why not |
| AddressBook.AddressBook.ReadGroups | lib/services/people.ts:968-987 | The groups read row by row are exactly the holders of each number on each channel, and no bridged number is missing |
| AddressBook.AddressBook.MergeByPhone | lib/services/people.ts:967-1001 | The imperative pass over a stale snapshot is the specified pass, for some order that lists every bridged number |
| AddressBook.AddressBook.EnsureOwnerPerson | lib/services/people.ts:231-277 | Promotes, finds or makes the owner's row, folds in every holder and links every account |
| AddressBook.AddressBook.ArchivedPeopleByPhone | lib/services/people.ts:1051-1068 | The map holds, for every number, the oldest hidden person with it, and no other number |
| AddressBook.AddressBook.PopulateChannel | lib/services/people.ts:1086-1116 | The loop over one channel's candidates, with the links read before it and the hidden numbers read before both channels |
| AddressBook.AddressBook.RefreshIdentities | lib/services/people.ts:930-955 | Names and numbers follow the newest contact row and are never cleared by it |
| AddressBook.AddressBook.ChannelNameFor | lib/services/people.ts:827-858 | The name of the first linked identity, by channel and link order, that has a named contact row |
| AddressBook.AddressBook.RefreshChannelNames | lib/services/people.ts:1010-1037 | Renames exactly the visible non-owner people who follow their channel and whose channel has a different, usable name, and counts them |
| AddressBook.AddressBook.PopulatePeople | lib/services/people.ts:1080-1121 | The whole sync, in its order, equals the specified one, and keeps what it relies on: links to existing people, one owner row, distinct identity keys |
| Paging.PageCovers | lib/services/queries.ts:582-603 | One page is in order, beyond its cursor and part of the table, and whatever it leaves out is beyond the next cursor |
| Paging.FixedTableIsSorted | lib/services/people.ts:339-361 | Following nextCursor to null over a fixed table gives the plain sorted list, in exactly max(1, ceil(n / limit)) pages |
| Paging.FixedTableEnds | lib/services/queries.ts:447-481 | No session over a fixed table is longer than that, and it is complete exactly when it is that long |
| Paging.NothingTwice | lib/services/queries.ts:505-520 | Whatever happens to the table between pages, what is shown is strictly in order, so nothing is shown twice |
| Paging.LiveThroughoutShown | lib/services/queries.ts:505-520 | A key present at every page is shown by the end |
| Paging.ClampLimit | lib/services/queries.ts:124-125 | A limit is always between 1 and 200, and one in that range is kept |
| Listings.CursorRoundTrip | lib/services/queries.ts:400-412 | A cursor decodes to the key it was made from, for any instant and any id |
| Listings.NewestStrictTotal | lib/services/queries.ts:590-591 | Newest first, ties by id, is a strict total order |
| Listings.ByNameStrictTotal | lib/services/people.ts:331-361 | The address book's order, by lower-cased name and then id, is a strict total order |
| Listings.TranscriptPages | lib/services/queries.ts:505-603 | Over any run of archive steps between the pages: every message live at each page read is returned exactly once, no message id is returned twice, and none that was live at no read |
| ChatPages.ChatListPages | lib/services/queries.ts:447-481 | Over any run of archive steps between the pages: no chat is returned twice, each is listed at the read of its page, and a chat listed at every read is missed if and only if between two reads its activity moved from behind the cursor to it or before it |
| ChatActivity.RunMoves | lib/services/ingest.ts:63-74 | Over any run a chat's last activity only moves forward and its channel and kind never change; a chat goes only with its source, and a source that is gone does not come back |
| Paging.MissedIff | lib/services/queries.ts:447-481 | For any table and any item that is always in it and only moves to the front: it is missed by a complete session if and only if it jumps over a cursor |
| Listings.HistoryPage | lib/services/history.ts:116-121 | One page of events under a cursor and an upper end is the head of the sorted rest |
| Listings.HistoryCsv | lib/services/history.ts:140-151 | The export loop over a fixed history emits every event once, newest first |
| Listings.ExportBounded | lib/services/history.ts:140-151 | While events come and go between pages: none is exported twice, none is newer than the first, and every one that stays is exported |
| OrderLaws.TranscriptOrder | lib/services/queries.ts:505-603 | The pages of a transcript run newest first through messages of the chat, not deleted and sent between the two instants when some page was read, and whatever is so throughout is among them |
| OrderLaws.ChatListOrder | lib/services/queries.ts:447-481 | Each page of the chat list runs newest activity first through chats that passed every filter when it was read |
| OrderLaws.HistoryInOrder | lib/services/history.ts:140-151 | The history lists every event once, newest first, by descending id within one instant |
| OrderLaws.HistoryWithin | lib/services/history.ts:116-121 | A page of the history holds nothing newer than its upper end and only what is older than its cursor |
| OrderLaws.AddressBookInOrder | lib/services/people.ts:331-361 | The address book lists everyone once, by name and by id within one name |
| Queues.DrainsInTime | lib/services/media.ts:127-219 | A queue of n jobs with at most max attempts each, batch at a time, is empty after floor(max * n / batch) + max passes |
| MediaQueue.DownloadsSettle | lib/services/media.ts:127-219 | n downloadable rows are all done or failed within floor(maxAttempts * n / batch) + maxAttempts passes, however many older stranded rows there are and whatever each download comes to |
| MediaQueue.StrandedUntouched | lib/services/media.ts:114-125 | A row whose connection is not live is never touched |
| QueueLaws.OldestFirst | lib/services/media.ts:149-158 | A pass takes pending rows with a live session only; one it leaves out is younger than each it takes, and its batch is full |
| QueueLaws.WhyItEnded | lib/services/media.ts:162-216 | At every moment of every run: a row is done only after a download of at most 100 MiB, which is its size; failed only because it is larger or because its attempts are used up; and otherwise has thrown as often as it was tried |
| QueueLaws.PendingSplits | lib/services/media.ts:139-158 | Every pending row of an undeleted message is either downloadable or counted as skipped |
| MediaQueue.Drain.ProcessPendingMedia | lib/services/media.ts:127-219 | The pass updates exactly the oldest downloadable rows, each by what its attempt came to, and counts done, failed and stranded rows |
| Analysis.SpendIsCapped | lib/services/media-analysis.ts:285-306 | At every moment of every run with a limit of at least 1, the billed rows of the trailing 24 hours number at most limit - 1 + 2 * batch |
| SingleFlight.SpendIsCappedAnyhow | worker/drains.ts:18-24 | However calls of the pass, its awaits, refusals, rejections and resets interleave, at most one is under way, and the cap holds without assuming that passes do not overlap |
| SingleFlight.TurnMoves | worker/drains.ts:18-24 | A call moves the rows and its pass as the pass does, no other call with it, and waiting, giving up and resetting touch no row |
| SingleFlight.ZeroNeverBillsAnyhow | worker/drains.ts:18-24 | A limit of 0 lets no call past the gate and never bills, in every interleaving |
| Analysis.CostsStay | lib/services/media-analysis.ts:166-193 | A recorded cost never becomes null, and a row with a cost always has a completion time |
| Analysis.ZeroNeverBills | lib/services/media-analysis.ts:291-294 | A limit of 0 never opens a pass and never bills |
| Analysis.AnalysesSettle | lib/services/media-analysis.ts:94-193 | The same bound per medium for the analysis queue, when every terminal write lands |
| SpendLaws.SettledByWork | lib/services/media-analysis.ts:121-193 | In every run: a finished row was finished by a result at the cost and instant it shows, a skipped one was skipped then, a broken one has used up its attempts, and any cost is what work on that row came to |
| SpendLaws.EventDecides | lib/services/media-analysis.ts:121-193 | One event changes a row only by working on it: its state, cost, attempts and completion time are then those of the outcome, and every paid outcome is recorded |
| SpendLaws.DaySpendIsCapped | lib/services/media-analysis.ts:242-247 | In every run with a limit of at least 1, the rows paid for within the last 86,400,000 ms are fewer than limit + 2 * batch |
| SpendLaws.BoundIsMet | lib/services/media-analysis.ts:285-306 | A run that meets that bound, with a limit of one and batches of one; a day later nothing counts |
| SpendLaws.PassOpens | lib/services/media-analysis.ts:291-306 | A pass opens exactly below the limit, with the media that are switched on, each once |
| SpendLaws.OldestAnalysedFirst | lib/services/media-analysis.ts:100-119 | A fetch takes waiting rows of its medium; one it leaves out is younger than each it takes, and its batch is full; one that fails takes none |
| Analysis.AnalysisQueue.ProcessPendingAnalyses | lib/services/media-analysis.ts:94-193 | One row after the other, each left as its outcome says, and the summary counts them by it |
| Coalesce.AlwaysSane | lib/services/media.ts:93-104 | In every interleaving at most one call is in flight, calls never exceed kicks, and callers wait exactly while a cycle runs |
| Coalesce.CallsBalance | lib/services/media.ts:93-104 | In every interleaving: `fn` is called exactly at a kick that finds nothing running and where a cycle goes round again, and each call is in flight until it resolves or rejects |
| Coalesce.KickIsServed | lib/services/media.ts:93-104 | Absent a rejection, a kick that lands before the running call's continuation is followed by a run that starts after it |
| Coalesce.KickIsDropped | lib/services/media.ts:93-104 | Once a cycle is settled, no kick before the reset starts a run, and the reset forgets them all |
| Coalesce.AKickIsDropped | lib/services/media.ts:93-104 | A trace where it happens: two kicks, one run, and nothing left waiting |
| Coalesce.JoinedSettleLast | lib/services/media.ts:93-104 | Joined callers settle only at the reset, with nothing in flight and no rerun to come |
| Coalesce.Coalescer.Kick | lib/services/media.ts:99-103 | Starts a cycle when idle and otherwise asks for a rerun |
| Coalesce.Coalescer.Finally | lib/services/media.ts:102 | Clears the cycle and the rerun it may still have been asked for, and settles every caller |
| LifecycleSafety.RevokedForever | lib/services/connections.ts:323-338 | A revoked row stays revoked at the same instant, with no session, QR or password, for as long as it exists, in every interleaving |
| LifecycleSafety.OneClaimBeforeTheFirstKey | lib/services/connections.ts:90-119 | While no key has ever been minted, at most one archive pairing is pending or active across both channels |
| LifecycleSafety.HandedOnce | lib/services/recovery.ts:90-138 | Each recovery key is handed to at most one claimer |
| RecoveryLaws.OnlyTheOwnerRecovers | lib/services/recovery.ts:90-138 | In every interleaving: a matched verdict, a stored recovery key and a key handed out go back to a report of an account that had logged in before on an archive row of the same channel |
| RecoveryLaws.TheOwnerIsMatched | lib/services/recovery.ts:98-104 | While a row exists that logged in as an archive with an account, reporting that account for an open pending recovery row of the channel is judged a match |
| RecoveryLaws.SessionsAreOfLogins | lib/services/login.ts:92-110 | In every interleaving: the account and the session of a row are those of one login of that row, an active row has both, and a pending row neither |
| RecoveryLaws.AccountLasts | lib/services/login.ts:92-110 | A row that logged in keeps its account for as long as it exists |
| RecoveryRuns.JudgedInOne | lib/services/recovery.ts:90-126 | An attempt judged with nothing in between: the owner of the archive has a new key stored, anyone else none, and the row is revoked and says which |
| RecoveryRuns.ClaimedInOne | lib/services/recovery.ts:130-138 | A stored key of a matched attempt goes to the claimer and is gone; any other claim changes nothing |
| RecoveryRuns.BegunInOne | lib/services/recovery.ts:41-49 | An attempt begins exactly on a configured channel where some archive row has an account; it replaces the open attempts of that channel, and no other row changes |
| RecoveryRuns.CancelledInOne | lib/services/recovery.ts:140-145 | An open attempt called off is revoked with its reason; no other row changes |
| LoginLaws.StepShows | lib/services/login.ts:50-121 | Every step of every process, on one row: when its code, its question, its password and its error appear, change and go |
| LoginLaws.ShownWasPut | lib/services/login.ts:50-121 | In every interleaving: a stored password was submitted while the row was pairing and asked for it, a code was published for it, each with its instant, and a row asks only because it was told to |
| LoginLaws.SecretIsTaken | lib/services/login.ts:65-73 | Taking a stored password with nothing in between forgets it with its instant, and changes nothing else |
| LoginLaws.ConnectedInOne | lib/services/connections.ts:128-158 | On a channel without an open archive row, a configured instance with a key gets one blank pending row |
| LifecycleSafety.StepKeeps | lib/services/login.ts:50-121 | Every statement of every process keeps the revoked rows empty, the unique index, the single claim and the single whereabouts of each recovery key |
| LifecycleSafety.SetupThrowsIff | lib/services/connections.ts:90-108 | When a browser may go on, Connect throws if and only if its channel still has an open failed row, and then changes nothing; otherwise the new row is the only claim |
| LifecycleSafety.SetupCanThrow | lib/services/connections.ts:90-108 | A run where it throws: the browser's own attempt failed, and Connect is pressed again |
| Reconnect.ArchiveDeletedIff | lib/services/connections.ts:121-141 | In every interleaving: clearing deletes a row that holds a chat if and only if it is next and the look at it found none; its first chat was then stored after that look, on an active row the attempt had read as not active and whose login completed since |
| Reconnect.ActiveDeletedIff | lib/services/connections.ts:121-141 | In every interleaving: clearing deletes an active row if and only if it is next and the look at it found no chat; its login then completed after the rows were read |
| Reconnect.ActiveWasReadDead | lib/services/connections.ts:131-141 | Whatever a new attempt is about to clear was not active when it read the rows, and if it is active now its login completed after that |
| Reconnect.ChatCameAfterTheLook | lib/services/connections.ts:138-141 | A row found empty held no chat at the look, and if it holds one now, that was stored after the look on an active row |
| Reconnect.ArchiveCanBeDeleted | lib/services/connections.ts:121-141 | A run in which an active row that holds a chat is deleted |
| ConnectionTable.Connections.TakeLoginSecret | lib/services/login.ts:65-73 | Returns the stored password exactly if the row is open and it is at most five minutes old, and forgets it either way |
| ConnectionTable.Connections.RecordPasswordRejected | lib/services/login.ts:80-83 | On an open row, says that the password was rejected and asks for another |
| ConnectionTable.Connections.CompleteLogin | lib/services/login.ts:92-110 | Succeeds exactly on a row still pending and unrevoked |
| ConnectionTable.Connections.SubmitLoginPassword | lib/services/connections.ts:313-322 | Accepts a password exactly on an open pending row that asked for one |
| ConnectionTable.Connections.RevokeConnection | lib/services/connections.ts:329-338 | One update moves the status, the instant and every secret, exactly on an open row |
| ConnectionTable.Connections.CreateSetupConnection | lib/services/connections.ts:90-108 | The claim check, the delete and the insert are one: refused, replaced or rolled back |
| ConnectionTable.Connections.ClaimRecoveryKey | lib/services/recovery.ts:130-138 | Hands out a key never handed out before, or changes nothing |
| ConnectionTable.Connections.CompleteRecovery | lib/services/recovery.ts:90-126 | A verdict exactly on a pending recovery row, matched exactly if an archive row of the channel reported the account |
| Linkify.LinkifyLosesNothing | lib/transcript.ts:70-98 | For every text the segments concatenate back to it, none is empty, no two texts are adjacent, and the links are in order the regex matches with trailing punctuation peeled, ending in nothing that should have come off |
| Linkify.MatchesCover | lib/transcript.ts:70-78 | Every position where the pattern matches lies inside one of the matches |
| Linkify.PeelsOnlyTrailing | lib/transcript.ts:79-90 | Each character peeled was listed punctuation or a closing bracket too many at its turn |
| LinkLaws.MatchIff | lib/transcript.ts:70-71 | A match begins exactly where no word character stands before it and http://, https:// or www., in any case, is followed by a character that may be in a link |
| LinkLaws.MatchTakes | lib/transcript.ts:70-71 | It takes every such character up to the first white space, angle bracket or quote |
| LinkLaws.KeepsTheLongest | lib/transcript.ts:79-90 | What is kept of a match is its longest beginning that ends neither in the listed punctuation nor in a closing bracket that opens nowhere |
| LinkLaws.LinksLead | lib/transcript.ts:93-94 | Every link is nonempty, ends in neither, and leads to its own text, with https:// before it if it names no protocol |
| Linkify.Linkify | lib/transcript.ts:73-98 | The scanner with its loops computes those segments |
| Grouping.GroupRuns | lib/transcript.ts:34-49 | The loop cuts the messages into maximal runs of one sender, labelled by their first message |
| Grouping.RunsSpeak | lib/transcript.ts:34-49 | Everything in a run is by one speaker and the next run by another; a run is labelled by the stored name of its messages, or by the address book's name for the person with the channel's own only where it differs |
| Grouping.GroupByDate | lib/transcript.ts:52-61 | The loop cuts the messages into maximal runs of one date |
| Grouping.RunsUnique | lib/transcript.ts:34-61 | There is only one way to cut a list into maximal runs |

## Left out

- Validation of a batch, truncation of over-long titles, JSON and base64 encodings, SHA-256, full-text ranking, mention rewriting and the displayed titles: library and database semantics.
- History events, telemetry, logging, cookies, redirects, pages and routes, file writes and removals.
- The channel bindings, the session manager, WebAuthn and the cryptography of secrets: calls into code the model does not contain.
- Two writes inside one transaction see one clock reading: the model passes one instant to a whole batch.
- The order of messages in an export file: an export is a set of entries, and the round trips hold for every order.
- `markConflict` has no caller and is not a step; conflict marks from before candidates existed are not in the initial archive.
- `deleteConnection` appears as the steps that drop a source or a row; its file removal does not.
- Collecting the identity candidates from the contact cache, direct chats and senders: the candidates of a channel are a parameter, one per trimmed id, and what counts as a usable name is one too.
- Suggestions, dismissals, aliases typed by the owner, hiding and restoring people: other operations on the same tables.
- Two processes inside one `populatePeople`: it is one sequential pass.
- Listings.CursorRoundTrip: decoding is modelled for plain decimal instants, the only ones a cursor carries; the other spellings that JavaScript's Number() reads are not.
- Text is a sequence of Unicode scalar values, not UTF-16 code units; name order is by code point.
- Coalesce.AlwaysSane: a kick runs `fn` and records the cycle in one step, so an `fn` that kicks its own coalescer before its first await, which would put two calls in flight, is outside the events; `SingleFlight` makes a call in one step too.
- The schedule of `buildDrains`: due times, intervals and the shutdown flag.
- ChatPages.ChatListPages: filters by channel, kind and source; the title filter is SQL over displayed titles, and every chat row the modelled writes make has its last activity set.
- SameInstant.MoreWasShown: a batch of one entry; ReviewWindow.SeenThroughoutIff is exact for every batch.
- Analysis.AnalysesSettle: assumes that terminal writes land, because a row whose write fails is left as it was and taken again.
- `createConnection`, `startRecovery` and `cancelRecovery` are steps of the transition system and not methods of the class; rows of push sources are not in the connection model.
- A claim's cookie, the rate limits and the session of the browser that makes it.
