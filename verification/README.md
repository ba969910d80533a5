# Telegram Desktop: the algorithms and protocols behind the interface

These modules model parts of Telegram Desktop whose whole logic is visible in its sources, and prove what they
promise. Each source file's code keeps its form: what the program changes step by step is a class or a method with
loops here, proved against functions that say what it means; the theorems are lemmas about those functions, over all
inputs or all runs.

| file | what it models |
|---|---|
| `Sha1.dfy` | the packer's SHA-1, against FIPS 180-4 |
| `Envelope.dfy` | the signed update package: the packer's writer and the client's reader |
| `TraceReader.dfy` | the reader of allocation traces, with its carry-over buffer |
| `MessageData.dfy` | requests for messages by id, gathered and called back |
| `DialogsLoad.dfy` | loading the dialog lists folder by folder |
| `Album.dfy` | albums: files load, upload and get cancelled until the group is sent |
| `Forwarding.dfy` | forwarding messages in batches, and the stars that a text and its forwards cost |
| `StickerSets.dfy` | saving the order of sticker sets, and the requests that tell the server |
| `Translit.dfy` | UTF-8 after RFC 3629, and the Latin dictionary of the passcode estimator |
| `Mesh.dfy` | binary meshes, their text form, and the way back |
| `UpdatePlan.dfy` | the Linux updater's walk over the unpacked update, and `mkpath` |
| `FrameQueue.dfy` | the web app shell's events for its frame |
| `Ripple.dfy` | the web app shell's ripple colours |
| `Decimal.dfy` | the Windows updater's decimal parser |
| `Common.dfy` | optional values; words and their little-endian bytes |

A protocol is a state and its possible events: requests are numbered, and any request in flight may be answered or
fail at any time. `Inv` is what every step keeps, `Reaches` and `Run` are the runs. The classes named as in the source
(`ApiWrap`, `TraceReader`, `Page`, `Updater`, ...) do each step in place; `Now()` (or `Lib()` and `Net()`) is their
state as a value, and each method says which step of the specification it is. Handlers that are just one such step are
grouped below under one of them. Fields declared `ghost`, and the lists
of everything ever given, sent or posted, are records for the proofs.

## What does not hold as it stands

- SHA-1: the upper half of the length stays zero, so the padding is the standard's exactly below 2^29 bytes
  (`PackerSha1.PaddingIsStandard`).
- Albums: dropping a file that cannot be read does not look whether the rest can go out
  (storage/localimageloader.cpp:1297-1308), and the handlers of a failed upload only report it
  (storage/file_upload.cpp:258-275, apiwrap.cpp:5231-5233, 5315-5317). So an album may never be sent though files of it
  are uploaded and nothing is under way; `AlbumSpec.StuckRun` and `AlbumSpec.FailedRun` are such runs.
  `AlbumSpec.StuckExactly` says which steps get an album there, `AlbumSpec.AtRest` which albums are left in the end and
  why.
- A dialog list whose request is answered with "not modified" is never asked for again, as its load state goes on
  waiting for that request (`DialogsLoadSpec.StallsExactly`: then, and for no other reason;
  `DialogsLoadSpec.StalledForever`; `DialogsLoadSpec.StallRun` is such a run).
- Stars: the price of a batch is cut to an `int`, so a price too large for it may come out negative
  (`ForwardSpec.ChargeWraps`). `ForwardSpec.ChargedExactly` and `ForwardSpec.StarsInAll` say when the total is right all
  the same.
- Meshes: the tools' comment calls the round trip byte-identical; it is so exactly if all rows are whole
  (`ObjFormat.RoundTrip`), and for floats that are numbers.
- Update: files whose name is `Telegram` in any case of letters all go to the name of the binary, so two files can
  share a target (`UpdatePlanSpec.SameTarget` says when, `UpdatePlanSpec.SameTargetTwice` is such an update).

## Model

| member | source | states |
|---|---|---|
| PackerSha1.HashSha1 | Telegram/SourceFiles/_other/packer.cpp:122-158 | writes the digest of the message as this code pads it, for every length the 32-bit counters allow, and for fewer than 2^29 bytes the SHA-1 of FIPS 180-4; the rest of the destination stays |
| PackerSha1.PaddingIsStandard | Telegram/SourceFiles/_other/packer.cpp:137-149 | the packer's padding is that of section 5.1.1 of FIPS 180-4 exactly for messages of fewer than 2^29 bytes |
| PackerSha1.Sha1PartHash | Telegram/SourceFiles/_other/packer.cpp:86-118 | one block changes the chain as section 6.1.2 of FIPS 180-4 says, schedule first, though the words are computed in place during the rounds |
| PackerSha1.RunRounds | Telegram/SourceFiles/_other/packer.cpp:87-108 | the five round loops are the 80 rounds of the standard on the schedule of the 16 words given |
| PackerSha1.Choose | Telegram/SourceFiles/_other/packer.cpp:104-105 | combining with "or" is the Ch function, which combines with "exclusive or" |
| PackerSha1.Majority | Telegram/SourceFiles/_other/packer.cpp:107 | the three-way "or" is the Maj function |
| PackerSha1.ShiftSwap | Telegram/SourceFiles/_other/packer.cpp:89-97 | one turn of the round loop is one step of section 6.1.2 on the five working variables |
| PackerSha1.ScheduleWord | Telegram/SourceFiles/_other/packer.cpp:99-101 | the word written in place is the next word of the standard's schedule |
| PackerSha1.LoadBlock | Telegram/SourceFiles/_other/packer.cpp:128-133 | the 16 words hold the block, most significant byte first |
| PackerSha1.OrByte | Telegram/SourceFiles/_other/packer.cpp:141 | or-ing a byte into place sets it and keeps the other bytes |
| PackerSha1.HashAll | Telegram/SourceFiles/_other/packer.cpp:127-149 | whole blocks, then the tail: the chain over all blocks of the padded message |
| PackerSha1.HashTail | Telegram/SourceFiles/_other/packer.cpp:137-149 | both tail cases, fewer than 56 bytes left or more, hash exactly the one or two last blocks of the padded message |
| PackerSha1.LoadTail | Telegram/SourceFiles/_other/packer.cpp:137-143 | or-ing bytes into cleared words gives the tail followed by 0x80 and zeros, most significant byte first |
| PackerSha1.WriteDigest | Telegram/SourceFiles/_other/packer.cpp:151-157 | the 20 bytes of the chain in order, written backwards, and nothing beyond them |
| EnvelopeFormat.DecodeExact | Telegram/SourceFiles/core/update_verify.cpp:609-735 | reading left to right gives an envelope exactly for the bytes that envelope is written as, with all sizes and codes within the limits and no byte left over |
| EnvelopeFormat.HeaderLayout | Telegram/SourceFiles/_other/packer.cpp:278-313 | the first 27 bytes of a file: `TDUP`, the format, the codes, the version and the time |
| EnvelopeFormat.BodyLayout | Telegram/SourceFiles/_other/packer.cpp:278-313 | where the manifest, its signature, the signatures and the payload are, each after its size |
| EnvelopeFormat.LimitsMean | Telegram/SourceFiles/core/update_verify.cpp:31-35 | the limits in numbers |
| EnvelopeFormat.EncodeInjective | Telegram/SourceFiles/_other/packer.cpp:278-313 | two envelopes with fields below 2^32 bytes are written the same only if they are the same in every field |
| EnvelopeFormat.SignedRegionIsPrefix | Telegram/SourceFiles/core/update_verify.cpp:675-676 | the region that gets signed is the beginning of the file, up to the end of the manifest |
| EnvelopeFormat.ResigningKeepsTheRest | Telegram/SourceFiles/_other/packer.cpp:529-537 | new signatures leave the signed bytes and every other field as they were, and the result is readable exactly if the signatures are within the limits |
| Packer.BuildV2Envelope | Telegram/SourceFiles/_other/packer.cpp:278-313 | appending field by field gives the encoding of the envelope |
| Packer.AppendLeU32 | Telegram/SourceFiles/_other/packer.cpp:164-172 | appends the four bytes of a word, least significant first |
| Packer.ParseEnvelope | Telegram/SourceFiles/core/update_verify.cpp:609-735 | the reader with its offset accepts what the decoder accepts, and returns the envelope and its signed region |
| Packer.Reader.ReadU32 | Telegram/SourceFiles/core/update_verify.cpp:435-444 | takes the next word, exactly if four bytes are left |
| Packer.Reader.ReadU64 | Telegram/SourceFiles/core/update_verify.cpp:446-453 | takes the next double word, exactly if it is there |
| Packer.Reader.ReadBytes | Telegram/SourceFiles/core/update_verify.cpp:455-464 | takes so many bytes, exactly if they are left |
| Packer.Reader.ReadSignatures | Telegram/SourceFiles/core/update_verify.cpp:699-722 | takes so many signatures with their key ids, each size within its limit |
| Packer.ParseHeader | Telegram/SourceFiles/core/update_verify.cpp:617-661 | takes magic, format, channel, target, version and time, exactly if they are right |
| Packer.EmbedV2Signatures | Telegram/SourceFiles/_other/packer.cpp:479-545 | exactly unsigned packages of the expected channel get the signatures, when there are any and the clients' check accepts the outcome; the result is the same envelope with them |
| TraceReading.TraceReader.Run | cmake/linux_allocation_tracer/linux_allocation_trace_reader.cpp:181-203 | however the reads split the file, the reader ends as one pass over the whole file: same map, counters, time and printed lines |
| TraceReading.TraceReader.Consume | cmake/linux_allocation_tracer/linux_allocation_trace_reader.cpp:193-201 | one turn parses the carry and what was read as one piece and leaves the unread rest, which is under 29 bytes, at the front of the buffer |
| TraceReading.TraceReader.Parse | cmake/linux_allocation_tracer/linux_allocation_trace_reader.cpp:120-163 | the pointer loop applies the records in order up to the first incomplete one or a bad command, and returns how many bytes that was |
| TraceReading.TraceReader.ParseRealloc | cmake/linux_allocation_tracer/linux_allocation_trace_reader.cpp:91-107 | the realloc record at the pointer: unknown, moved or in place; the other two kinds of records have methods of the same form |
| TraceReading.TraceReader.PrintState | cmake/linux_allocation_tracer/linux_allocation_trace_reader.cpp:41-67 | prints nothing before the first record, else the sum over the map modulo 2^64 and the unknown frees |
| TraceReading.TraceReader.MoveToFront | cmake/linux_allocation_tracer/linux_allocation_trace_reader.cpp:198-201 | moves the unread rest to the front of the buffer, though the two places may overlap |
| TraceSpec.ParseSplit | cmake/linux_allocation_tracer/linux_allocation_trace_reader.cpp:120-163 | parsing may stop after any part of the bytes and go on from the unread rest, which is under 29 bytes |
| TraceSpec.ReadBalanced | cmake/linux_allocation_tracer/linux_allocation_trace_reader.cpp:69-118 | whatever bytes a file holds: live entries, frees and warnings of repeated entries add up to mallocs and unknown reallocs |
| TraceSpec.HeapTracked | cmake/linux_allocation_tracer/linux_allocation_trace_reader.cpp:41-118 | on the trace of an allocator that returns fresh addresses and releases only live or null ones, the map ends as the heap and every printed total is the bytes live at that moment |
| TraceSpec.ParseEncoded | cmake/linux_allocation_tracer/linux_allocation_trace_reader.cpp:120-163 | parsing the bytes of a list of records replays exactly these records and leaves nothing |
| TraceSpec.RecordLayout | cmake/linux_allocation_tracer/linux_allocation_trace_reader.cpp:84-118 | where the time, sizes and addresses are in the bytes of a record |
| TraceSpec.CountersExactly | cmake/linux_allocation_tracer/linux_allocation_trace_reader.cpp:84-118 | the counters add up to the numbers of records of each kind |
| TraceSpec.RecordMeans | cmake/linux_allocation_tracer/linux_allocation_trace_reader.cpp:69-118 | a repeated entry keeps its old size and is warned about; a moved one loses its old address; unknown ones are counted |
| TraceSpec.TickMeans | cmake/linux_allocation_tracer/linux_allocation_trace_reader.cpp:140-153 | a second that ends is shown with the sum of what is live, a clock set back is warned about |
| TraceSpec.GarbageMeans | cmake/linux_allocation_tracer/linux_allocation_trace_reader.cpp:129-135 | any other command ends the reading, printed as a signed character |
| MessageDataSpec.CallbacksConserved | Telegram/SourceFiles/apiwrap.cpp:639-770 | in every run each callback is waiting in a table, about to be called or has run, exactly as often as it was given |
| MessageDataSpec.NeverForgotten | Telegram/SourceFiles/apiwrap.cpp:639-652 | an entry that was not asked for yet has a resolve scheduled |
| MessageDataSpec.RequestsDisjoint | Telegram/SourceFiles/apiwrap.cpp:684-738 | no message is asked for by two requests in flight |
| MessageDataSpec.QuietMeansDone | Telegram/SourceFiles/apiwrap.cpp:684-770 | once all requests are answered, the scheduled resolve has run and the calls are made, every callback given has run |
| MessageDataSpec.WaitsUntilAnswered | Telegram/SourceFiles/apiwrap.cpp:639-770 | in every run the callbacks given for a message wait, in their order, at that message in the table of that channel, or the one for all else, until a request in flight that asks for it there is answered; whatever waits is asked for or has a resolve scheduled |
| MessageDataSpec.CalledInOrder | Telegram/SourceFiles/apiwrap.cpp:740-770 | in every run callbacks become due only by answers, each for the messages its request asked for, and run in that order |
| MessageDataSpec.RequestChanges | Telegram/SourceFiles/apiwrap.cpp:639-652 | a request leaves all other messages and all other tables as they were, and schedules a resolve exactly if no request in flight asks for the message |
| MessageDataSpec.ChannelsAreNeeded | Telegram/SourceFiles/apiwrap.cpp:764-766 | in every run a channel has a table only while something waits in it |
| MessageDataSpec.RunKeeps | Telegram/SourceFiles/apiwrap.cpp:639-770 | every step keeps the invariant behind these: tables, requests in flight and the callbacks between them agree |
| MessageDataApi.ApiWrap.RequestMessageData | Telegram/SourceFiles/apiwrap.cpp:639-652 | adds the callback to its entry and schedules a resolve unless the entry is already asked for |
| MessageDataApi.CollectMessageIds | Telegram/SourceFiles/apiwrap.cpp:654-665 | the ids of exactly the entries not asked for, in order |
| MessageDataApi.TagUntagged | Telegram/SourceFiles/apiwrap.cpp:702-707 | tags exactly these entries |
| MessageDataApi.ApiWrap.ResolveTable | Telegram/SourceFiles/apiwrap.cpp:709-737 | one request for all untagged entries of a table, if there are any |
| MessageDataApi.TakeFor | Telegram/SourceFiles/apiwrap.cpp:747-763 | takes out exactly the entries of the request, and their callbacks in order |
| MessageDataApi.ApiWrap.ResolveMessageDatas | Telegram/SourceFiles/apiwrap.cpp:684-738 | asks for all untagged entries of each table in one request and tags them with it; empty channel tables go |
| MessageDataApi.ApiWrap.FinalizeMessageDataRequest | Telegram/SourceFiles/apiwrap.cpp:740-770 | takes the entries of the request out of their table and lines up their callbacks in order |
| DialogsLoadSpec.OneRequestEach | Telegram/SourceFiles/apiwrap.cpp:914-993 | in every run a folder has at most one list request and one pinned request of its load state in flight |
| DialogsLoadSpec.FailureHandlerIsSafe | Telegram/SourceFiles/apiwrap.cpp:983-985 | a list request in flight has a load state that still waits for it, so the failure handler may dereference it |
| DialogsLoadSpec.PostedOncePerState | Telegram/SourceFiles/apiwrap.cpp:1084-1148 | for each folder, load states made, lists arrived and pinned answers arrived each equal "list done" posted plus what a live state holds: posted once a load state, for both halves, and at once |
| DialogsLoadSpec.StallsExactly | Telegram/SourceFiles/apiwrap.cpp:921-993 | whatever the client calls and the server answers, a load state comes to wait for nothing exactly when its list request is answered with "not modified" |
| DialogsLoadSpec.StalledForever | Telegram/SourceFiles/apiwrap.cpp:921-993 | in every run from there it stays so, and no request for that list is ever in flight again |
| DialogsLoadSpec.StallRun | Telegram/SourceFiles/apiwrap.cpp:946-951 | such a run from the start: the main list is asked for and found not modified |
| DialogsLoadSpec.GoesOn | Telegram/SourceFiles/apiwrap.cpp:946-1025 | in every run, when a list is answered or the client asks to go on, and no exceptions are loading: the main list is asked for, has stalled, or waits for its date; once it is in, the same without a date holds of the archive, if it is wished for |
| DialogsLoadSpec.NextPageAsked | Telegram/SourceFiles/apiwrap.cpp:964-1016 | after a slice of the main list the next one is asked for exactly if no exceptions are loading and the slice does not reach down to a date that was set |
| DialogsLoadSpec.AnswerMeans | Telegram/SourceFiles/apiwrap.cpp:946-981 | not modified changes nothing; the last of a list completes its half, and the state if the other half is there; a slice moves the offset there |
| DialogsLoadSpec.RequestAsks | Telegram/SourceFiles/apiwrap.cpp:914-993 | asking makes the state of a folder from the top, asks for its list unless it waits for one or a date holds it up, and for its pinned dialogs along with it |
| DialogsLoadSpec.BlockedGoesOn | Telegram/SourceFiles/apiwrap.cpp:1150-1160 | going on moves the date a slice further down than the main list is, and asks for it |
| DialogsLoadSpec.MainListFirst | Telegram/SourceFiles/apiwrap.cpp:1007-1022 | nothing is asked while exceptions are loading, and of no folder before the main list is in |
| DialogsLoadSpec.ReloadsInFlight | Telegram/SourceFiles/apiwrap.cpp:1118-1125 | in every run the reloads known of are exactly those in flight |
| DialogsLoadSpec.ReachableKeeps | Telegram/SourceFiles/apiwrap.cpp:914-1160 | every reachable state satisfies the invariant behind these |
| DialogsLoadApi.ApiWrap.RequestMoreDialogs | Telegram/SourceFiles/apiwrap.cpp:921-993 | asks for a list only if its state exists, waits for nothing and is not blocked by date, and for pinned dialogs along with it |
| DialogsLoadApi.ApiWrap.DialogsReceived | Telegram/SourceFiles/apiwrap.cpp:946-983 | the answer to a list request: the step of the specification, keeping the invariant |
| DialogsLoadApi.ApiWrap.PinnedDialogsFinished | Telegram/SourceFiles/apiwrap.cpp:1103-1148 | the end of a pinned request, good or bad: the step of the specification, keeping the invariant |
| DialogsLoadApi.ApiWrap.DialogsFailed | Telegram/SourceFiles/apiwrap.cpp:983-985 | the load state is there, and may ask again; keeps the invariant, as the other entry points (asking, reloading, blocking by date) do, each a step of the specification |
| AlbumSpec.DispatchedOnce | Telegram/SourceFiles/apiwrap.cpp:5572-5685 | over every interleaving of loading, uploading, cancelling and answers a group goes out at most once |
| AlbumSpec.DispatchedWhole | Telegram/SourceFiles/apiwrap.cpp:5572-5685 | what goes out is never empty and is exactly the files not dropped by then, in the order they were chosen, each with the media its own upload brought |
| AlbumSpec.AssertionsNeverFire | Telegram/SourceFiles/apiwrap.cpp:5539-5570 | a finished upload of a message that exists finds its album and its empty place; a loaded, unreadable or cancelled file finds its place too |
| AlbumSpec.SentAsItIs | Telegram/SourceFiles/apiwrap.cpp:5572-5685 | in every run: ephemeral sends go to the ephemeral messages, other paid albums as paid, the rest as a single media exactly if they have one and else as a group; the first and third leave no album and no answer to come, the albums of the others stay, marked as sent, exactly until they are answered |
| AlbumSpec.SendsAs | Telegram/SourceFiles/apiwrap.cpp:5539-5570 | one step sends at most one album, that of the message that was uploaded or cancelled, in the way asked for; an answer is awaited from then until it comes |
| AlbumSpec.PaidAsMade | Telegram/SourceFiles/apiwrap.cpp:5617-5619 | whether an album is paid for is as it was made |
| AlbumSpec.RecordsTell | Telegram/SourceFiles/apiwrap.cpp:5539-5570 | the files chosen, dropped and uploaded, and what each upload brought, are as the events say |
| AlbumSpec.StuckExactly | Telegram/SourceFiles/storage/localimageloader.cpp:1297-1308 | for every step and album: it is unsent and waits for nothing afterwards exactly if it did before and the step is not about it, or the step makes it of no files, drops an unreadable file or fails an upload with nothing else pending, or ends the last pending upload (by its end or by cancelling it) while another one has failed |
| AlbumSpec.AtRest | Telegram/SourceFiles/apiwrap.cpp:5539-5685 | in every run that ends with nothing under way: the albums left are exactly those with a failed upload not cancelled and those nothing looked at since they lost a file or were made of none; none of them was sent, each of their files is uploaded or failed, and every other group went out or has no file left |
| AlbumSpec.StuckRun | Telegram/SourceFiles/storage/localimageloader.cpp:449-453 | a run after which nothing is under way and an uploaded file was not sent, as the other file could not be read |
| AlbumSpec.FailedRun | Telegram/SourceFiles/apiwrap.cpp:5231-5233 | another such run: the second file is read, but its upload fails |
| AlbumApi.ApiWrap.SendAlbumIfReady | Telegram/SourceFiles/apiwrap.cpp:5572-5685 | the loop over the items decides as the specification does: wait, give up, or send as ephemeral, paid, single or group, with the medias in order |
| AlbumApi.ApiWrap.SendAlbumWithCancelled | Telegram/SourceFiles/apiwrap.cpp:5554-5570 | removes the item of a message that goes, if its album is still there, and tries to send; keeps the invariant |
| AlbumApi.ApiWrap.SendFiles | Telegram/SourceFiles/apiwrap.cpp:4411-4417 | a new album with an item for each task, in order; keeps the invariant |
| AlbumApi.ApiWrap.UploadAlbumMediaDone | Telegram/SourceFiles/apiwrap.cpp:5239-5318 | an upload of a message that is gone changes nothing; else its album gets the media; keeps the invariant, as the other handlers (a file read or unreadable, an upload failed, an answer) do, each a step of the specification |
| ForwardSpec.RequestsPartition | Telegram/SourceFiles/apiwrap.cpp:4010-4155 | the requests are non-empty, as long in random ids as in ids, neighbours differ in peer or kind, every message has its request's peer and kind, and the ids in order are those of the collected messages |
| ForwardSpec.SentOldestFirst | Telegram/SourceFiles/data/data_messages.h:26-33 | of two messages sent the first is older, or as old and of a lower peer, or of the same and not of a greater id; the requests carry, in this order, the lookup id of an ephemeral message and the id of any other |
| ForwardSpec.MusicInOrder | Telegram/SourceFiles/apiwrap.cpp:3902-3910 | the saved music of two drafts in a row is that of the first and then that of the second |
| ForwardSpec.GroupedFine | Telegram/SourceFiles/history/history_item_helpers.cpp:670-689 | cutting into runs loses and reorders nothing, and makes runs of one kind (and peer) that are as long as can be |
| ForwardSpec.OnlyOneGrouping | Telegram/SourceFiles/apiwrap.cpp:4112-4155 | there is only one way to cut the messages like that |
| ForwardSpec.OnlyOneOrder | Telegram/SourceFiles/data/data_messages.h:26-33 | ordering messages by position has only one outcome, whatever algorithm does it |
| ForwardSpec.CollectedAll | Telegram/SourceFiles/history/history_item_helpers.cpp:675-681 | collected are exactly the messages that are no saved music and, if ephemeral, can be looked up, as often as they were chosen |
| ForwardSpec.CallbackExactlyOnce | Telegram/SourceFiles/apiwrap.cpp:4072-4104 | in any order of replies: the callback has run once if every request has been answered and none failed, and not at all otherwise |
| ForwardSpec.StarsInAll | Telegram/SourceFiles/apiwrap.cpp:4019-4031 | a text in k parts and n forwarded messages pay min(approved, (k + n) * price) together exactly if each request's own product fits an `int`, or the products as cut use up what the text left: enough in all, and no last few of them less than nothing |
| ForwardSpec.ChargedExactly | Telegram/SourceFiles/apiwrap.cpp:4019-4031 | the same for the requests alone, however the messages are cut into them |
| ForwardSpec.ChargeWraps | Telegram/SourceFiles/apiwrap.cpp:4020-4031 | two messages at a price of 2^30: the request pays less than nothing instead of what was approved |
| ForwardSpec.WrapsExactly | Telegram/SourceFiles/apiwrap.cpp:4020-4022 | cut to an `int` a product is the number of that range that differs by a multiple of 2^32 |
| ForwardApi.CollectForwardRanges | Telegram/SourceFiles/history/history_item_helpers.cpp:670-689 | the ranges are the runs of one kind of the messages in order of position that can be forwarded |
| ForwardApi.Sending.ForwardMessages | Telegram/SourceFiles/apiwrap.cpp:3894-4155 | sends one request a run of one peer and kind, with the random ids in order, each paid from what is left; the callback counter counts them, or the callback runs at once if nothing is sent |
| ForwardApi.Sending.ForwardRange | Telegram/SourceFiles/apiwrap.cpp:4114-4154 | takes a range message by message, sending whenever the peer changes and at the end |
| ForwardApi.Sending.Take | Telegram/SourceFiles/apiwrap.cpp:4144-4152 | one message joins those accumulated, after these are sent if it comes from another peer |
| ForwardApi.Sending.TakeMusic | Telegram/SourceFiles/apiwrap.cpp:3902-3910 | erasing while going through the draft takes out exactly the saved music, in order |
| ForwardApi.Sending.RequestDone | Telegram/SourceFiles/apiwrap.cpp:4077-4092 | a good answer counts down, and the last one calls; a bad one leaves the counter, so that it never reaches zero (`RequestFailed`) |
| ForwardApi.Sending.SendParts | Telegram/SourceFiles/apiwrap.cpp:4928-4935 | each part of a text pays the price while the approved stars last |
| ForwardApi.Sending.SendMessage | Telegram/SourceFiles/apiwrap.cpp:4758-5066 | the stars spent on a text and what is forwarded with it, in all, and exactly when they are what all of it costs, within what was approved; with an error nothing is forwarded |
| StickerSetsSpec.SavedOrder | Telegram/SourceFiles/apiwrap.cpp:1704-1847 | the new order is the one asked for without sets that no longer exist; its sets are installed, other sets of the kind are not unless archived; other orders stay; no set is left that nothing needs |
| StickerSetsSpec.SavedAlone | Telegram/SourceFiles/apiwrap.cpp:1704-1847 | what becomes of each set depends only on itself and on whether it is in the order or removed: gone, uninstalled, unmarked, placed or as it was |
| StickerSetsSpec.SavedFields | Telegram/SourceFiles/apiwrap.cpp:1704-1847 | field by field, what becomes of a set that is in the order, is removed, is archived, is of the kind, or is needed |
| StickerSetsSpec.SavedGone | Telegram/SourceFiles/apiwrap.cpp:1705-1718 | a set that goes with the recent stickers is gone when either of the recent sets is removed |
| StickerSetsSpec.OthersUntouched | Telegram/SourceFiles/apiwrap.cpp:1786-1797 | sets of other kinds that are not mentioned stay as they are |
| StickerSetsSpec.RecentLeft | Telegram/SourceFiles/apiwrap.cpp:1704-1750 | recent stickers lose exactly those of removed sets, in order, or all when the recent ones are removed |
| StickerSetsSpec.WithoutInOrder | Telegram/SourceFiles/apiwrap.cpp:1743-1750 | what is left of two lists in a row is what is left of each in turn |
| StickerSetsSpec.KnownInOrder | Telegram/SourceFiles/apiwrap.cpp:1799-1833 | the sets of an order that exist are picked one after another |
| StickerSetsSpec.AsksExactly | Telegram/SourceFiles/apiwrap.cpp:1729-1827 | the server is told to uninstall exactly the removed sets that were there then and not archived, to install exactly the archived ones in the order, and to clear the recent stickers, attached or not, exactly if the recent set of that list is removed |
| StickerSetsSpec.InFlightAfterSave | Telegram/SourceFiles/apiwrap.cpp:1628-1827 | right after a save there are in flight the earlier requests that were not tracked for the kind or for recent stickers, those the save asks, and the order if none of these is about a set |
| StickerSetsSpec.RecentTrackedAfterSave | Telegram/SourceFiles/apiwrap.cpp:1729-1736 | and the request to clear either list of recent stickers is tracked exactly if there is one |
| StickerSetsSpec.AnswerInFlight | Telegram/SourceFiles/apiwrap.cpp:1671-1681 | an answer takes its request out of flight and, exactly if it is the last about a set of the kind, puts the order in |
| StickerSetsSpec.OrderSentOnce | Telegram/SourceFiles/apiwrap.cpp:1635-1681 | in every run, whatever else changes the sets meanwhile, since an order was saved it has been sent exactly once if nothing about the sets of its kind is in flight, and not yet if something is |
| StickerSetsSpec.OneReorderInFlight | Telegram/SourceFiles/apiwrap.cpp:1628-1669 | in every such run, while an order is on its way nothing else of that kind is |
| StickerSetsApi.ApiWrap.SaveStickerSets | Telegram/SourceFiles/apiwrap.cpp:1612-1885 | the loops over the removed sets, all sets, the order and all sets again do what the specification says, to the sets and to the requests |
| StickerSetsApi.ApiWrap.StickerSetDisenabled | Telegram/SourceFiles/apiwrap.cpp:1671-1681 | an answer about a set; the last one sends the order; the answers about an order and about recent stickers have methods of the same form |
| StickerSetsApi.ApiWrap.EraseRecent | Telegram/SourceFiles/apiwrap.cpp:1743-1750 | erasing while going through the list keeps exactly the stickers not in the set, in order |
| StickerSetsApi.ApiWrap.RemoveSet | Telegram/SourceFiles/apiwrap.cpp:1704-1784 | one removed set: clearing recent stickers, or uninstalling and forgetting it if nothing needs it |
| StickerSetsApi.ApiWrap.PlaceSet | Telegram/SourceFiles/apiwrap.cpp:1800-1833 | one set of the order: installed, dated and brought back from the archive unless removed |
| StickerSetsApi.ApiWrap.Purge | Telegram/SourceFiles/apiwrap.cpp:1835-1847 | forgets exactly the sets that nothing needs |
| Utf8.EncodeDecodes | Telegram/SourceFiles/_other/zxcvbn_translit.cpp:24-63 | the octets of a scalar value after section 3 of RFC 3629 are well-formed after section 4 and carry that value |
| Utf8.DecodeEncodes | Telegram/SourceFiles/_other/zxcvbn_translit.cpp:24-63 | well-formed octets carry a scalar value and are its octets |
| Utf8.WellFormedValue | Telegram/SourceFiles/_other/zxcvbn_translit.cpp:51-62 | for a first octet and its tails, the checks of minimum, surrogates and maximum are exactly the syntax of section 4 |
| Utf8.OnePrefix | Telegram/SourceFiles/_other/zxcvbn_translit.cpp:30-50 | at one place at most one prefix is a character |
| Utf8.EncodeAllInjective | Telegram/SourceFiles/_other/zxcvbn_translit.cpp:65-85 | different texts have different octets |
| ZxcvbnTranslit.DecodeUtf8 | Telegram/SourceFiles/_other/zxcvbn_translit.cpp:24-63 | accepts at a position exactly if a well-formed character begins there, and returns its length and value |
| ZxcvbnTranslit.PointsExactly | Telegram/SourceFiles/_other/zxcvbn_translit.cpp:65-85 | a text has these values exactly if it is their encoding |
| ZxcvbnTranslit.MapWord | Telegram/SourceFiles/_other/zxcvbn_translit.cpp:65-85 | succeeds exactly on well-formed words whose characters all have Latin forms that make at least two letters, and returns these in order |
| Transliteration.MappedExactly | Telegram/SourceFiles/ui/passcode_strength_translit.cpp:15-50 | exactly ASCII, U+0400 to U+045F, U+0490 and U+0491 have Latin forms, and upper and lower case the same |
| Transliteration.CasesPair | Telegram/SourceFiles/ui/passcode_strength_translit.cpp:32-41 | which capital letters go with which small ones |
| Transliteration.SomeForms | Telegram/SourceFiles/ui/passcode_strength_translit.cpp:16-23 | some letters from both ends of the alphabet and of the others |
| BinobjFormat.UnpackedExactly | Telegram/cmake/binobj2obj.py:34-55 | a binary mesh is read exactly if it is what that mesh is packed into, with nothing left over |
| BinobjFormat.PackedLayout | Telegram/cmake/obj2binobj.py:60-69 | where each count, float and index is in the file, and in which bytes |
| ObjFormat.RoundTrip | Telegram/cmake/binobj2obj.py:57-80 | a binary mesh printed and packed again gives the same bytes exactly if its rows are whole, for any way of writing numbers that loses nothing |
| ObjFormat.PrintedRead | Telegram/cmake/obj2binobj.py:35-58 | reading the printed text gives the mesh without what makes no whole row; so indices, -1 among them, survive |
| ObjFormat.PrintedLines | Telegram/cmake/binobj2obj.py:57-80 | the text line by line: two comments, then `v`, `vt`, `vn` and `f` lines with their numbers |
| ObjFormat.LineMeans | Telegram/cmake/obj2binobj.py:36-58 | what a line adds, by its tag, and when it cannot be read |
| ObjFormat.VertexMeans | Telegram/cmake/obj2binobj.py:50-54 | each index of a vertex is one less than its field, and -1 for an empty or missing one |
| ObjFormat.EmptyFields | Telegram/cmake/obj2binobj.py:50-54 | so for `1//2`, `1/2` and `1` |
| ObjFormat.FieldsJoin | Telegram/cmake/obj2binobj.py:50 | the fields have no slashes, and make the text again when joined by them |
| ObjFormat.SplitAtSpace | Telegram/cmake/obj2binobj.py:37 | splitting at one space and then what is on either side splits all |
| ObjFormat.FanTriangles | Telegram/cmake/obj2binobj.py:56-58 | a face of n vertices makes n - 2 triangles from the first vertex and neighbours in order; a triangle stays itself |
| ObjFormat.LosslessIsPossible | Telegram/cmake/binobj2obj.py:57 | there are ways of writing numbers that lose nothing |
| MeshTools.Binobj2Obj | Telegram/cmake/binobj2obj.py:26-82 | the reader with its cursor and the printing loops give the text of the mesh, or stop exactly where the file is no mesh |
| MeshTools.Obj2Binobj | Telegram/cmake/obj2binobj.py:25-71 | the line loop gathers the mesh and packs it, or stops at a line or a number that does not fit |
| MeshTools.Triangulate | Telegram/cmake/obj2binobj.py:56-58 | the loop makes the fan |
| MeshTools.Reader.ReadFloats | Telegram/cmake/binobj2obj.py:40-44 | takes so many floats at the cursor, exactly if the count is no less than zero and they are there |
| MeshTools.PrintMesh | Telegram/cmake/binobj2obj.py:58-80 | the comments, then a line for each whole row of positions, texture coordinates, normals and corners |
| MeshTools.ParseLine | Telegram/cmake/obj2binobj.py:36-58 | one line: nothing, a comment, numbers for one of the lists, a face, or something unknown |
| MeshTools.WriteMesh | Telegram/cmake/obj2binobj.py:60-69 | packs the mesh, exactly if its counts and indices fit 32 bits |
| UpdateProcess.ParsePositiveInteger | Telegram/SourceFiles/_other/updater_win.cpp:106-119 | accepts exactly texts of digits alone with a value from 1 to 2^64 - 1, returns it, and never wraps around |
| UpdateProcess.Parent.ParseUpdateProcess | Telegram/SourceFiles/_other/updater_win.cpp:123-138 | accepts exactly two such texts, the first at most 2^32 - 1; otherwise neither output changes |
| Decimals.ShownValue | Telegram/SourceFiles/_other/updater_win.cpp:106-119 | the usual way of writing a number has that number as its value |
| Decimals.ValueOfDigits | Telegram/SourceFiles/_other/updater_win.cpp:106-119 | each digit stands for its place among the ten, and is worth ten times as much with every digit after it |
| UpdatePlanSpec.PlanExactly | Telegram/SourceFiles/_other/updater_linux.cpp:255-313 | each regular file outside `tdata`, other than the ready file, is planned exactly once, and nothing else is |
| UpdatePlanSpec.SameTarget | Telegram/SourceFiles/_other/updater_linux.cpp:290-299 | two files share a target exactly if the binary has another name, and each of them is called `Telegram` in some case of letters or has that name |
| UpdatePlanSpec.SameTargetTwice | Telegram/SourceFiles/_other/updater_linux.cpp:290-299 | an update with `Telegram` and `telegram` at the top: both are wanted, with one target |
| UpdatePlanSpec.NoCaseExactly | Telegram/SourceFiles/_other/updater_linux.cpp:220-224 | texts are equal without case exactly if they agree letter by letter, A to Z with a to z |
| UpdatePlanSpec.UpdaterExactly | Telegram/SourceFiles/_other/updater_linux.cpp:291-294 | a file is refused as the updater exactly if its place is the updater's, letter by letter up to case |
| UpdatePlanSpec.NoDots | Telegram/SourceFiles/_other/updater_linux.cpp:279 | no wanted file is reached through `.` or `..` |
| UpdatePlanSpec.TextInjective | Telegram/SourceFiles/_other/updater_linux.cpp:281 | different paths are different texts, so no file is planned under another's name |
| UpdatePlanSpec.TdataExactly | Telegram/SourceFiles/_other/updater_linux.cpp:283-284 | the prefix check on texts skips exactly `tdata` at the top and what is in it |
| UpdatePlanSpec.ReadyExactly | Telegram/SourceFiles/_other/updater_linux.cpp:300-301 | the ready file is left out exactly if it was found and is at the top; the old place has none |
| UpdatePlanWalk.Updater.Update | Telegram/SourceFiles/_other/updater_linux.cpp:255-313 | the walk ends, and succeeds exactly if every directory can be read and no file would replace the updater; then the plan holds all files and directories, directories after those they are in, every file in one of them or at the top |
| UpdatePlanWalk.Updater.ScanEntry | Telegram/SourceFiles/_other/updater_linux.cpp:278-310 | one entry: skipped, queued, planned with its source and target, or refused as the updater |
| UpdatePlanWalk.Updater.ScanDir | Telegram/SourceFiles/_other/updater_linux.cpp:277-312 | all entries of a directory add to the plan and the queue just what is in it, or one would replace the updater |
| Mkpath.MakePath | Telegram/SourceFiles/_other/updater_linux.cpp:198-218 | tries each directory on the way and then the path itself, in order, up to the first that cannot be made; the buffer is as before after each cut |
| Mkpath.OnTheWayExactly | Telegram/SourceFiles/_other/updater_linux.cpp:203-217 | on the way are exactly the beginnings of the path before a slash that ends a name |
| Mkpath.ShorterFirst | Telegram/SourceFiles/_other/updater_linux.cpp:203-217 | directories are tried after those they are in |
| FrameQueueSpec.QueueIsCurrent | Telegram/Resources/bot_webview_shell_html/page.js:147-162 | in every run what waits is for the current frame, nothing waits for a loaded frame, and at most 64 events wait |
| FrameQueueSpec.SentInOrder | Telegram/Resources/bot_webview_shell_html/page.js:132-145 | a frame is sent only events posted for it, each once and in the order they were posted |
| FrameQueueSpec.NothingElseIsLost | Telegram/Resources/bot_webview_shell_html/page.js:147-162 | an event for the current frame is waiting or was sent, unless 64 newer ones for that frame pushed it out or the frame's origin must be known and is not |
| FrameQueueSpec.OldestMakesRoom | Telegram/Resources/bot_webview_shell_html/page.js:156-158 | with 64 events waiting, the oldest makes room for the new one |
| FrameQueueSpec.SilentUntilLoaded | Telegram/Resources/bot_webview_shell_html/page.js:132-207 | on every run from a frame that is not loaded, or is about to reload: until it or a newer frame loads nothing is sent, whatever is posted and whichever older frames load |
| FrameQueueSpec.SendMeans | Telegram/Resources/bot_webview_shell_html/page.js:132-145 | an event goes out exactly if the frame is there, is of its generation, and its origin is known where it matters |
| FrameQueueSpec.PostMeans | Telegram/Resources/bot_webview_shell_html/page.js:147-162 | a loaded frame is sent the event at once, unless its origin matters and is not known; for any other it waits, and of more than 64 the oldest goes |
| FrameQueueSpec.LoadMeans | Telegram/Resources/bot_webview_shell_html/page.js:893-901 | the load of the current frame sends it all that waits, that of any other does nothing |
| FrameQueueSpec.ReloadMeans | Telegram/Resources/bot_webview_shell_html/page.js:916-932 | a loaded frame that can reload is asked to and given time, any other gives way to a new one |
| FrameQueueSpec.NewFrameMeans | Telegram/Resources/bot_webview_shell_html/page.js:874-910 | a new frame is of the next generation, not loaded, with nothing waiting and no timer |
| FrameQueueSpec.HeardMeans | Telegram/Resources/bot_webview_shell_html/page.js:793-816 | what a frame says counts only from the current one, and from its origin where that matters |
| FrameQueueSpec.NextKeeps | Telegram/Resources/bot_webview_shell_html/page.js:869-932 | every step keeps the invariant behind these |
| FrameQueuePage.Page.PostToFrame | Telegram/Resources/bot_webview_shell_html/page.js:147-162 | queues or sends an event as the specification does, with the trimming loop |
| FrameQueuePage.Page.FlushPendingEvents | Telegram/Resources/bot_webview_shell_html/page.js:200-207 | sends all that waits, in order, to the frame it was meant for |
| FrameQueuePage.Page.ReloadFrame | Telegram/Resources/bot_webview_shell_html/page.js:916-932 | asks a frame that can to reload and sets the timer, else makes a new one; the other entry points are steps of the same form |
| FrameQueuePage.Page.FrameLoad | Telegram/Resources/bot_webview_shell_html/page.js:893-901 | the load of an older frame changes nothing; that of the current one sends what waits |
| Ripple.Mixed | Telegram/Resources/bot_webview_shell_html/page.js:291-337 | before rounding, the detour through hue and saturation multiplies every channel by the next brightness over the old one, in all six sextants; black becomes grey 32 |
| Ripple.ButtonRippleForBackground | Telegram/Resources/bot_webview_shell_html/page.js:284-338 | exactly `#` and six hexadecimal digits are a colour, and the ripple is its scaled channels |
| Ripple.ShownExactly | Telegram/Resources/bot_webview_shell_html/page.js:277-338 | the ripple is a colour again, and its channels are the scaled ones rounded: no clamp changes them |
| Ripple.RippleExactly | Telegram/Resources/bot_webview_shell_html/page.js:284-338 | in whole numbers: each channel is the nearest to its share of the new brightness, 32 below the old one exactly if that is above 128 and else 32 above, and the brightest gets just that |
| Ripple.HexDigits | Telegram/Resources/bot_webview_shell_html/page.js:277-290 | the digits of both cases stand for 0 to 15, and small ones are written |
| Ripple.HexByteExactly | Telegram/Resources/bot_webview_shell_html/page.js:277-282 | always two digits, of the rounded value clamped to a byte |
| Ripple.NextValueInRange | Telegram/Resources/bot_webview_shell_html/page.js:306-308 | the next brightness is between 32 and 223, so clamping it does nothing |
| Ripple.Hue | Telegram/Resources/bot_webview_shell_html/page.js:291-304 | the hue in sixths of a circle, with the sextant of each order of the channels |
| Ripple.Detour | Telegram/Resources/bot_webview_shell_html/page.js:305-333 | chroma, the wave of the hue and the offset give each channel its share, for every order of the channels |

## Left out

- PackerSha1.HashSha1: does not say what happens from 2^32 - 64 bytes on, because there `block + 64` wraps around and the loop reads beyond the data.
- Packer.ParseEnvelope: does not model the texts of the errors; Packer.EmbedV2Signatures takes the signatures as given, without reading or making them, and the clients' check as a function.
- TraceReading.TraceReader.Run: prints lines as values; the local time and the grouping of digits are not modelled, and the three counters printed last are fields.
- MessageDataSpec.RunKeeps: a channel's table is one of many known by name; the order in which the channels' tables are gone through is any order.
- DialogsLoadSpec.ReachableKeeps: takes the offset found in a slice as given, and what the rest of the session answers when asked whether more dialogs are needed.
- AlbumSpec.DispatchedWhole: does not model captions, which move to the next item when the first one is removed, nor music that is sent file by file.
- ForwardSpec.StarsInAll: for drafts without saved music; what saved music costs is decided by code that gets a copy of the allowance. The stars left are a number without bounds, so adding a negative charge to them does not overflow.
- ForwardApi.Sending.SendParts: takes the number of parts as given; how a long text is cut is not modelled.
- ForwardApi.Sending.ForwardMessages: sends requests as values, without flags, topics, scheduling or local messages, and saved music by its id alone; answers come after all requests are sent, as they do in one thread.
- StickerSetsApi.ApiWrap.SaveStickerSets: does not model what is written to storage, nor the refresh after an order is refused; flags that saving never reads or writes are not part of a set.
- ZxcvbnTranslit.MapWord: reading lines, taking their first word and leaving out four words of markup are not modelled.
- ObjFormat.RoundTrip: how numbers are written and read is a parameter that loses nothing; floats that are not numbers are left out, as their text does not tell them apart.
- MeshTools.Obj2Binobj: other spaces than those of ASCII do not separate words.
- UpdatePlanWalk.Updater.Update: does not say which of the two failures comes first; the tree is finite and does not change meanwhile; copying, its retries, permissions and clearing up are not modelled.
- FrameQueuePage.Page.PostToFrame: a frame that is in the page always has a window; events are numbers, and the viewport's and the buttons' own events are posts like any other.
- Ripple.Mixed: computes with real numbers; the rounding of floating point is not modelled.
- The network layer, the cloud drafts, message histories and the server: requests are numbers that get answered or fail.
- Windows, boxes, layout and animation; the other request wrappers; the build scripts: their logic is user interface, or easy.
- RSA, Ed25519, LZMA and OpenSSL, and manifests: calls into code that is not part of the repository's own logic.
