# peripety in Dafny

peripety collects storage-related kernel and journal messages into typed
*storage events*, enriches them with what it knows about the block device
they concern (its wwid, its path, the devices that own it) and lets users
query and monitor them. This project models the sequential rules at the
heart of that system and proves properties of them:

- the enumerations and errors of the library and their encodings
  (log severities, storage subsystems, block types, the ten error kinds
  and their C codes);
- event selection: the journal-backed event iterator and its filters, the
  daemon's routing of events to parsers, and the `prpt` tool's match
  predicate;
- block-hierarchy construction: classifying a kernel name, the
  device-mapper lookup by uuid prefix, owner lists and their flattening,
  partitions, the listing of all blocks and the SCSI helpers;
- record parsing and enrichment: the `/dev/kmsg` record parser and
  classifier, the SCSI, file-system and multipath parsers of the daemon,
  the multipath plugin and the journal record the daemon writes.

The repository holds two snapshots of the code. The files directly under
`src/peripety`, `src/peripetyd` and `src/prpt` are the newer one; those
under their `src/` subdirectories are the older one, with their own event
and block record shapes. Each snapshot is modelled against its own types:

| module | file | models |
|---|---|---|
| `Common` | common.dfy | `Option`/`Result` and the `str` operations the code uses |
| `Errors` | errors.dfy | `src/peripety/error.rs` |
| `Severity` | severity.dfy | `LogSeverity` (both snapshots declare it identically) |
| `SdJournal` | sdjournal.dfy | `src/sdjournal/src/lib.rs` |
| `Event` | event.dfy | `src/peripety/event.rs` |
| `OldEvent` | old_event.dfy | `src/peripety/src/event.rs` |
| `ScsiText` | scsi_text.dfy | the text helpers shared by `src/peripety/src/scsi.rs`, `src/peripety/src/blk_info.rs` and `src/peripetyd/src/{scsi,data}.rs` |
| `Blk` | blk.dfy | `src/peripety/blk_info.rs` and `src/peripety/dm.rs` |
| `OldBlkData` | old_blk_data.dfy | the record types of `src/peripety/src/blk_info.rs` |
| `OldScsi` | old_scsi.dfy | `src/peripety/src/scsi.rs` |
| `OldBlk` | old_blk.dfy | `src/peripety/src/blk_info.rs` and `src/peripety/src/dm.rs` |
| `DaemonBlk` | daemon_blk.dfy | `src/peripetyd/src/{data,scsi,dm}.rs` |
| `Routing` | routing.dfy | the parser-routing test of both daemons |
| `JournalRecord` | journal_record.dfy | the loops of both `send_to_journald` functions |
| `OldDaemon` | old_daemon.dfy | `src/peripetyd/src/{main,scsi,fs,mpath}.rs` |
| `Daemon` | daemon.dfy | `src/peripetyd/{main,scsi,fs}.rs` |
| `Cli` | cli.dfy | `src/prpt/prpt.rs` |
| `OldCli` | old_cli.dfy | `src/prpt/src/main.rs` |
| `Kmsg` | kmsg.dfy | `src/plugins/kmsg/src/main.rs` |
| `MpathPlugin` | mpath_plugin.dfy | `src/plugins/mpath/src/main.rs` |
| `CApi` | c_api.dfy | `src/peripety_c/lib.rs` |

Everything the code learns from outside is a parameter: sysfs, `/dev` and
the mount table are `Host` values whose fields are functions (directory
listings, link targets, file contents, uuids, mount points); each
libsystemd call is the return code it gives; serde_json decoding, chrono's
local-time parsing and the current time, the host name and the multipath
listing are oracle arguments. Where the code iterates over a `HashMap`, the
iteration order is an argument: a duplicate-free list of the map's keys.

Code that changes state step by step is modelled as methods with loops
(the journal record builders, the owner accumulation of `blk_info_get_dm`,
the kmsg line loop, the multipath search, the parsers' in-place updates,
the daemon's settings loop), each proved equal to a specification function
whose properties are proved as lemmas. The journal handle and the event
iterator are classes whose methods update their fields; the C binding uses
nullable references for pointers and an `Allocations` object for the live
boxes.

Some behaviour is shared between snapshots and stated once:
- the older `LogSeverity::from_str` is the newer one arm for arm, so
  `OldEvent` uses `Severity.LogSeverity` and `Event.ParseSeverity`, and
  the rows for `Event.ParseSeverity*` cover src/peripety/src/event.rs:23-41
  as well;
- the older tool's `since_cliopt_to_journald_timestamp`
  (src/prpt/src/main.rs:100-126) is the newer tool's word for word and is
  `Cli.SinceToTimestamp`;
- `pretty_wwid` and `scsi_host_id_of_scsi_id` are identical in
  src/peripety/src/scsi.rs, src/peripetyd/src/scsi.rs and
  src/peripetyd/src/data.rs, and are `ScsiText.PrettyWwidIsClean` and
  `ScsiText.ScsiHostId`;
- the routing test is the same in both daemons and is `Routing.Required`.

Where the source does not compile against its own types the model follows
its evident intent:
- the older daemon and plugins use `dev_name`, `owners_names` and
  `extention`, which the older `StorageEvent` does not declare, so
  `OldEvent.StorageEvent` carries `devName`, `ownersNames` and one
  `extension` map;
- the newer `StorageEvent` declares `cur_blk_info` and
  `hierarchy_blk_info`, but every consumer in that snapshot reads and
  writes `blk_info`, so it has one `blkInfo` field;
- the older `BlkInfo` lacks the `preferred_blk_path`, `transport_id` and
  `owners_transport_ids` fields its `dm.rs` and `scsi.rs` set, so the model
  includes them;
- `PERIPETY_INVALID_ARGUMENT`, used but undefined at
  src/peripety_c/lib.rs:176, is `PERIPETY_ERR_INVALID_ARGUMENT`, 9;
- `peripety_event_get_next` moves the converted error into a box and then
  reads its `code` (src/peripety_c/lib.rs:201-205), so the code returned is
  that of the boxed error (`CApi.EventGetNext`);
- `peripety_event_get_next` declares its event out-parameter `pe` as
  `*mut *mut _PeripetyError` (src/peripety_c/lib.rs:185) and never stores
  the event it reads into it; `CApi.EventGetNextIntended` gives `pe` the
  event type and stores the event read through it;
- the kmsg plugin assigns a numeric time to the string `timestamp` field,
  so the time stamp is a string argument;
- the older daemon's SCSI lookup builds its `BlkInfo` without a name or
  owner names, so the model gives it the kernel name and the disk's name.

## Model

| member | source | states |
|---|---|---|
| Errors.Display | src/peripety/error.rs:19-38 | an error prints as its message alone, whatever its kind |
| Errors.DisplayForgetsKind | src/peripety/error.rs:24-34 | two errors of different kinds with the same text print identically |
| Errors.FromSdJournal | src/peripety/error.rs:40-44 | every journal failure converts to a `LogAccessError` that prints as the journal error's rendering |
| Severity.Level | src/peripety/event.rs:45-55 | the discriminant is at most 7 exactly for the RFC 5424 severities and is 255 exactly for `Unknown` |
| Severity.FromLevel | src/peripety/event.rs:45-55 | for every valid discriminant the severity found has that discriminant |
| Severity.LevelRoundTrip | src/peripety/event.rs:45-55 | discriminant then severity gives back the severity: the discriminant identifies it |
| Severity.BelowIsStrictTotalOrder | src/peripety/event.rs:42-55 | the derived ordering is irreflexive, transitive and total, with `Unknown` above every RFC severity |
| SdJournal.NewClibraryError | src/sdjournal/src/lib.rs:76-84 | the error keeps the message and the return code and explains the negated code |
| SdJournal.SplitField | src/sdjournal/src/lib.rs:280-285 | a field splits at its first `=` into a key without `=` and a value that concatenate back to the field; no split exactly when there is no `=` |
| SdJournal.FieldRoundTrip | src/sdjournal/src/lib.rs:426-428 | a `key=value` text sent for a key without `=` reads back as the same pair |
| SdJournal.EnumerateLastWins | src/sdjournal/src/lib.rs:262-301 | in the entry map a key holds the value of the last field reply that carries it |
| SdJournal.EnumerateKeeps | src/sdjournal/src/lib.rs:262-301 | a key no field reply carries keeps the value it had before the enumeration |
| SdJournal.EnumerateKeysFromFields | src/sdjournal/src/lib.rs:262-301 | every key of the entry map comes from some field reply (or was there before) |
| SdJournal.NextEntrySkipsRetries | src/sdjournal/src/lib.rs:343-372 | append and invalidate wake-ups are invisible: the outcome is decided by the first turn that is not a retry |
| SdJournal.NextEntryReadsOnlyAfterNext | src/sdjournal/src/lib.rs:343-379 | an entry is returned only when, after retries only, `sd_journal_next` reported one, and it is the current entry's map |
| SdJournal.Journal.Open | src/sdjournal/src/lib.rs:199-219 | a non-zero open code is the `sd_journal_open` error; otherwise a fresh journal with no matches, at the head, with the maximal wait timeout |
| SdJournal.Journal.AddMatch | src/sdjournal/src/lib.rs:388-404 | a filter with NUL is a `NulError`, a negative code the `sd_journal_add_match` error; the match is recorded exactly on success |
| SdJournal.Journal.SeekRealtimeUsec | src/sdjournal/src/lib.rs:406-418 | succeeds exactly for a non-negative code, and only then moves the cursor to the time given |
| SdJournal.Journal.SeekTail | src/sdjournal/src/lib.rs:320-338 | fails with the seek error, else with the skip error; succeeds exactly when both codes are non-negative; the cursor is at the tail once the seek succeeded |
| SdJournal.Journal.GetLogEntryMap | src/sdjournal/src/lib.rs:255-313 | the loop computes the entry map of the field replies, and a success always carries the real-time stamp under `__REALTIME_TIMESTAMP` |
| SdJournal.Journal.GetNextEntry | src/sdjournal/src/lib.rs:340-380 | the loop computes the next-entry outcome, and an entry is read only after `sd_journal_next` reported one |
| SdJournal.SendJournalList | src/sdjournal/src/lib.rs:421-445 | a pair whose text holds NUL fails before sending; otherwise every pair is sent as `key=value` in order and the call fails exactly for a negative send code |
| Event.ParseSeverity | src/peripety/event.rs:57-75 | a parse never yields `Unknown`, and a rejected text gives `LogSeverityParseError` naming the text |
| Event.ParseSeverityLevels | src/peripety/event.rs:61-68 | the digit of each RFC 5424 severity parses to that severity |
| Event.ParseSeverityWords | src/peripety/event.rs:60-68 | every severity word but NOTICE is accepted in any case |
| Event.ParseSeverityIgnoresCase | src/peripety/event.rs:60 | a text and its lower-cased form parse to the same severity, or are both rejected |
| Event.OnlyDigitParsesToNotice | src/peripety/event.rs:60-66 | `Notice` comes from "5" and from nothing else; "notice", "NOTICE" and "Notice" are rejected |
| Event.UpperHasNoLowerLetter | src/peripety/event.rs:60 | an upper-cased text holds no lower-case letter, so a mixed-case arm can never match |
| Event.UpperOfDigitText | src/peripety/event.rs:60-68 | only the digit text itself upper-cases to a digit text |
| Event.ParseSeverityIntended | src/peripety/event.rs:57-75 | with the fifth arm spelled NOTICE: never `Unknown`; a rejection names the text |
| Event.ParseSeverityIntendedWords | src/peripety/event.rs:61-68 | the corrected parser accepts every severity word in any case and returns its severity |
| Event.ParseSeverityIntendedOnlyWords | src/peripety/event.rs:61-72 | the corrected parser accepts only a severity's digit or its word up to case |
| Event.ParseSubSystem | src/peripety/event.rs:92-111 | a parse never yields `Unknown` or `Other`; a rejected text gives `StorageSubSystemParseError` naming the text |
| Event.SubSystemRoundTrip | src/peripety/event.rs:92-129 | printing any subsystem but `Unknown` and `Other` and parsing the text gives it back |
| Event.ParseSubSystemReadsName | src/peripety/event.rs:94-104 | an accepted text is its subsystem's printed name up to case |
| Event.SubSystemNameInjective | src/peripety/event.rs:113-129 | the eleven printed names are pairwise distinct |
| Event.DefaultEvent | src/peripety/event.rs:148-165 | the default event has `Unknown` severity and subsystem, empty strings and extension, and the default block info |
| Event.FromJsonString | src/peripety/event.rs:180-189 | succeeds exactly when the JSON decoder does, with its event; a failure is `JsonDeserializeError` with the decoder's message |
| Event.FromSlice | src/peripety/event.rs:190-208 | invalid UTF-8 is a `JsonDeserializeError`; otherwise the text without its trailing NULs is decoded as JSON |
| Event.FromSliceIgnoresNulPadding | src/peripety/event.rs:191-194 | NUL padding after the text makes no difference to the decoded event |
| Event.TimeStrToU64 | src/peripety/event.rs:319-327 | succeeds exactly when the local-time parse does; otherwise `InvalidArgument` with the fixed message |
| Event.TimeStrToU64Decodes | src/peripety/event.rs:320-322 | within the `u64` range the stamp is seconds times 10^6 plus microseconds |
| Event.SinceToTimestamp | src/peripety/event.rs:329-355 | every failure is `InvalidArgument` with the fixed message |
| Event.SinceKeywordsIgnoreCase | src/peripety/event.rs:330-348 | TODAY and YESTERDAY are recognised in any case |
| Event.SinceDateGetsMidnight | src/peripety/event.rs:350-354 | a text with ':' is parsed as given; any other text gets " 00:00:00" appended |
| Event.FilterStep | src/peripety/event.rs:279-316 | a failed filter changes nothing; wwid and severity filters only join the kept filters and never fail; a match filter fails exactly on a NUL in its text (`NulError`) or a negative code (the `sd_journal_add_match` error); `Since` succeeds exactly when its date converts and the seek code is non-negative, then moves the cursor to that time, and otherwise fails with the conversion error or the `sd_journal_seek_realtime_usec` error; only the event type, subsystem and event id filters add matches |
| Event.FiltersStepSuccess | src/peripety/event.rs:269-277 | when every filter applies, kept filters and journal matches are the old ones followed by those of the filters, in filter order |
| Event.FiltersStepStopsAtFailure | src/peripety/event.rs:273-275 | on failure the state is what the filters before the failing one made of it; nothing earlier is undone |
| Event.NextEvent | src/peripety/event.rs:241-255 | every error handed out is a `LogAccessError` |
| Event.NextEventSkips | src/peripety/event.rs:242-250 | leading entries without a decodable JSON field are passed over |
| Event.NextEventIsFirstDecodable | src/peripety/event.rs:242-253 | an event handed out is the decoded JSON of the first entry that decodes, and every entry before it was passed over |
| Event.StorageEventIter.New | src/peripety/event.rs:259-267 | succeeds exactly when the journal opens and the peripety match is added; then a fresh iterator with no wait timeout, only that match, at the head, no kept filters; a failure is `LogAccessError` |
| Event.StorageEventIter.ApplyFilter | src/peripety/event.rs:279-316 | the iterator's new state and the result are those of the filter step from the old state |
| Event.StorageEventIter.ApplyFilters | src/peripety/event.rs:269-277 | the loop gives the state and result of applying the filters in order, stopping at the first failure |
| Event.StorageEventIter.Next | src/peripety/event.rs:238-256 | the pull loop computes the next-event outcome over the journal's answers |
| Event.StorageEventIter.Monitor | src/peripety/event.rs:221-230 | succeeds exactly when no step fails, and a failure is the error of the first failing step (open, peripety match, a filter, tail seek, the skip back); a success keeps the kept filters and the matches of all filters, and sits at the tail |
| Event.MonitorSucceedsExactly | src/peripety/event.rs:221-267 | the first-failure error of `monitor` is absent exactly when the journal opens, the peripety match is added, every filter applies and both tail-seek codes are non-negative; a failure outside the filters is a `LogAccessError` |
| OldEvent.ParseSubSystem | src/peripety/src/event.rs:57-73 | a parse never yields `Unknown`, `Other` or `FsJbd2`; a rejected text gives `StorageSubSystemParseError` naming the text |
| OldEvent.SubSystemRoundTrip | src/peripety/src/event.rs:57-90 | the printed name parses back for every subsystem but `Unknown`, `Other` and `FsJbd2`, and "jbd2" is refused |
| OldEvent.DefaultEvent | src/peripety/src/event.rs:112-131 | the default event has `Unknown` severity and subsystem and every string, list and map empty |
| OldEvent.FromSlice | src/peripety/src/event.rs:163-182 | invalid UTF-8 is a `JsonDeserializeError`; otherwise the text without trailing NULs decodes, or its failure is a `JsonDeserializeError` |
| OldEvent.FromSliceIgnoresNulPadding | src/peripety/src/event.rs:164-167 | NUL padding after the text makes no difference to the decoded event |
| ScsiText.SplitPartitionSound | src/peripety/src/scsi.rs:64-66 | a name the partition pattern splits is a disk name followed by a non-empty digit string, which make up the name |
| ScsiText.SplitPartitionComplete | src/peripety/src/scsi.rs:64-66 | every `sd<letters><digits>` name is split back into its disk name and partition number |
| ScsiText.DiskNameIsWhole | src/peripety/src/scsi.rs:64 | a whole-disk name `sd<letters>` is not taken for a partition |
| ScsiText.DigitGroupsUnique | src/peripety/src/blk_info.rs:102-124 | a text matches the digit-group pattern for one group count at most, so no SCSI address is a `major:minor` number |
| ScsiText.StrictGroupsHaveNoEmptyField | src/peripety/src/blk_info.rs:102 | a SCSI address neither starts with a colon nor holds two colons in a row |
| ScsiText.StrictGroupsAreLoose | src/peripetyd/src/data.rs:96 | the older daemon's SCSI address pattern accepts every address the intended pattern accepts |
| ScsiText.ScsiIdPatternAsWrittenTakesDoubleColon | src/peripetyd/src/data.rs:96 | the pattern as written accepts `1::2:3:4`, which the intended pattern refuses |
| ScsiText.ScsiHostId | src/peripety/src/scsi.rs:408-414 | the host id is the colon-free text before the first colon, and there is none exactly when the address has no colon |
| ScsiText.FcTargetId | src/peripety/src/scsi.rs:294-295 | the FC target id is the text before the last colon, and there is none exactly when the address has no colon |
| ScsiText.ScsiAddressParts | src/peripety/src/scsi.rs:294-295 | for `H:C:T:L` the host id is `H` and the target id is `H:C:T` |
| ScsiText.CollapseBlanks | src/peripety/src/scsi.rs:45-48 | after replacing each run of spaces and tabs with a dash, no space or tab is left |
| ScsiText.StripBackslashZeros | src/peripety/src/scsi.rs:49-53 | the trailing run of backslash-zero is removed: the result is a prefix that never ends with backslash-zero |
| ScsiText.PrettyWwidIsClean | src/peripety/src/scsi.rs:44-54 | a pretty WWID holds no space or tab and never ends with backslash-zero |
| ScsiText.StripScsiPrefix | src/peripetyd/scsi.rs:12-14 | one leading `+scsi:` is removed when present, and the name is unchanged otherwise |
| ScsiText.SenseRewrite | src/peripetyd/scsi.rs:19-33 | the event type changes exactly for `SCSI_SENSE_KEY` with a medium or hardware error sense key, into the matching type |
| OldBlkData.TypeNameInjective | src/peripety/src/blk_info.rs:24-34 | the five block-type display strings are pairwise distinct |
| Blk.TypeNameInjective | src/peripety/blk_info.rs:25-37 | the seven block-type display strings are pairwise distinct |
| Blk.Default | src/peripety/blk_info.rs:51-64 | the default descriptor has type `Unknown`, empty strings, no uuid or mount point and no owners |
| Blk.HolderDmName | src/peripety/dm.rs:8-22 | a holder is returned exactly when the holders directory is readable, has a first entry with a readable name, and that name starts with `dm-`; it is that first entry |
| Blk.DmTypeOf | src/peripety/dm.rs:36-44 | the type is `DmLvm`, `DmMultipath` or `Partition` exactly when the uuid starts with `LVM-`, `mpath-` or `part`, and `Dm` otherwise |
| Blk.SlaveOwner | src/peripety/dm.rs:55-67 | a slave entry contributes one owner exactly when its name is readable and resolves, and that owner is its descriptor |
| Blk.DmOwnersStep | src/peripety/dm.rs:55-67 | the owners are the resolvable slaves in directory order, one entry at a time |
| Blk.DmOwners | src/peripety/dm.rs:55-67 | every slave entry that is readable and resolves without the holder redirect is an owner, and every owner is such a slave |
| Blk.GetDm | src/peripety/dm.rs:26-82 | succeeds exactly when the uuid file exists, the name and uuid read, the slave directory lists and some slave resolves; the owners are then exactly DmOwners of the slave listing and an empty owner list is the `not supported blk` `InternalBug`; a success has path equal to the preferred path under `/dev/mapper/`, the type its uuid names, and no uuid, mount point or transport id; a missing uuid file is `InternalBug` |
| Blk.MajorMinorToBlkName | src/peripety/blk_info.rs:335-360 | every failure to resolve a device number is `InternalBug` |
| Blk.Resolve | src/peripety/blk_info.rs:152-248 | `_new`: tries absolute path, `sd` name, `H:C:T:L`, `dm-`, `major:minor`, uuid link and WWID scan in that order, else `NoSupport`; each branch is stated by the Resolve* lemmas below |
| Blk.ResolveAbsolutePath | src/peripety/blk_info.rs:157-176 | a missing absolute path is `BlockNoExists`, one that cannot be canonicalised `NoSupport`; otherwise its canonical name is resolved |
| Blk.ResolveDiskName | src/peripety/blk_info.rs:179-188 | an `sd` name goes to its dm holder unless the check is skipped or there is none, and to the SCSI lookup otherwise |
| Blk.ResolveScsiAddress | src/peripety/blk_info.rs:190-198 | an `H:C:T:L` address is resolved through the disk it names, and a failed lookup is that failure |
| Blk.ResolveDmName | src/peripety/blk_info.rs:200-203 | a `dm-` name goes to the device-mapper lookup |
| Blk.ResolveMajorMinor | src/peripety/blk_info.rs:205-213 | a `major:minor` number is resolved through the name its `/sys/dev/block` link points at, and a failed lookup is that failure |
| Blk.ResolveUuidLink | src/peripety/blk_info.rs:215-219 | a name of no other form with a `/dev/disk/by-uuid` link is resolved as that link, so it is `NoSupport` when the link cannot be canonicalised and otherwise resolves as its canonical name |
| Blk.ResolveFallsThrough | src/peripety/blk_info.rs:215-247 | a name of no known form with no uuid link is scanned by SCSI wwid, or is `NoSupport` when the disk list is unreadable |
| Blk.WwidScan | src/peripety/blk_info.rs:221-247 | the scan over `/sys/class/scsi_disk` entries; WwidScanFound states what a hit is and WwidScanMiss what a miss gives |
| Blk.WwidScanMiss | src/peripety/blk_info.rs:221-247 | a wwid scan that matches nothing and reads nothing that fails ends in `NoSupport` |
| Blk.WwidScanFound | src/peripety/blk_info.rs:221-242 | a disk the WWID scan finds is a listed `scsi_disk` entry whose WWID file reads and pretty-prints to the name sought, and the result is `new` of that entry |
| Blk.FlatAppend | src/peripety/blk_info.rs:66-73 | flattening distributes over concatenation of owner lists |
| Blk.FlatPreOrder | src/peripety/blk_info.rs:66-73 | each top-level owner appears, still carrying its own owners, right after all nodes of the owners before it, and is followed at once by the flattening of its owners |
| Blk.FlatKeepsTopLevelOrder | src/peripety/blk_info.rs:68-71 | top-level owners keep their relative order in the flattened list |
| Blk.Flat | src/peripety/blk_info.rs:66-73 | every top-level owner is in the flattened list, which is never shorter than the owner list |
| Blk.FlatCountsNodes | src/peripety/blk_info.rs:66-73 | the flattened list has exactly one entry per node of the owner forest, every owner counted with all of its nested owners |
| Blk.FlattenOwners | src/peripety/blk_info.rs:66-73 | the push-then-append loop computes the pre-order flattening |
| Blk.New | src/peripety/blk_info.rs:76-92 | `BlkInfo::new`: `_new` without the skip, then uuid, mount point and flattened owners, as NewEnriches states |
| Blk.NewEnriches | src/peripety/blk_info.rs:76-92 | `new` keeps what `_new` found, looks up a missing uuid, consults the mount table exactly when a uuid is known, and flattens the owners |
| Blk.NewBlkInfo | src/peripety/blk_info.rs:76-92 | updating the descriptor field by field gives the enriched descriptor |
| Blk.PushSlave | src/peripety/dm.rs:55-67 | one turn of the slave loop appends the slave's descriptor when it resolves |
| Blk.ResolveSlaves | src/peripety/dm.rs:55-67 | the slave loop collects the resolvable slaves in directory order |
| Blk.BlkInfoGetDm | src/peripety/dm.rs:26-82 | the field-by-field construction gives the device-mapper descriptor |
| Blk.NamesPartition | src/peripety/blk_info.rs:113-123 | every readable name goes to exactly one of the dm list and the other list, by its `dm-` prefix |
| Blk.Names | src/peripety/blk_info.rs:113-122 | the names collected are exactly the names of the readable directory entries |
| Blk.NewAllLength | src/peripety/blk_info.rs:127-143 | a successful resolution of a name list gives one descriptor per name |
| Blk.NewAllPointwise | src/peripety/blk_info.rs:127-143 | each descriptor is the one `BlkInfo::new` gives for the name at the same position |
| Blk.NewAllFails | src/peripety/blk_info.rs:128-142 | a failure for any name makes the whole resolution fail |
| Blk.NewAll | src/peripety/blk_info.rs:127-143 | a failure is the failure `new` gives for one of the names |
| Blk.Retained | src/peripety/blk_info.rs:135 | after the removals exactly the names not claimed remain |
| Blk.RetainedTwice | src/peripety/blk_info.rs:130-136 | removing one claimed list after another is removing both at once |
| Blk.ListShape | src/peripety/blk_info.rs:94-146 | a listing holds the descriptor of every dm device in directory order, then that of every other device no listed multipath device claims, in directory order |
| Blk.ListSpec | src/peripety/blk_info.rs:94-146 | what `list` returns; ListShape, ListSpecParts and ListDropsMultipathPaths state its contents and order |
| Blk.ListSpecParts | src/peripety/blk_info.rs:125-145 | a listing is the resolved dm devices followed by the resolved kept others |
| Blk.ListDropsMultipathPaths | src/peripety/blk_info.rs:129-137 | no device listed after the dm devices is, by kernel name, a path of a listed multipath device |
| Blk.KeptOthersAreNotDm | src/peripety/blk_info.rs:116-120 | the devices listed after the dm devices are no dm devices |
| Blk.SplitBlockNames | src/peripety/blk_info.rs:113-123 | the first loop of `list` sends the dm names to one list and all other names to the other, in order |
| Blk.RetainUnclaimed | src/peripety/blk_info.rs:130-136 | the `retain` calls for one multipath device remove exactly the basenames of its paths |
| Blk.NewEach | src/peripety/blk_info.rs:141-143 | the last loop of `list` resolves each remaining name, stopping at the first error |
| Blk.ResolveDms | src/peripety/blk_info.rs:127-139 | the dm loop resolves each dm device and removes the paths of each multipath device from the other names |
| Blk.List | src/peripety/blk_info.rs:94-146 | `list` computes the listing specification |
| OldScsi.ScsiIdToBlkName | src/peripety/src/scsi.rs:10-42 | a missing `device/block` folder is `BlockNoExists`; a name is found exactly when the folder is listable with a readable first entry, and it is that entry |
| OldScsi.ByIdMatches | src/peripety/src/scsi.rs:157-171 | every alias collected resolves to the raw block path, every readable entry that resolves to it is collected, and nothing but listed entries is |
| OldScsi.ByIdMatchesAppend | src/peripety/src/scsi.rs:157-171 | aliases are collected in directory order: the matches of a listing split in two are the first half's followed by the second's |
| OldScsi.ByIdMatchesNone | src/peripety/src/scsi.rs:157-171 | a listing in which no entry resolves to the raw path yields no alias |
| OldScsi.ByIdMatchesFirst | src/peripety/src/scsi.rs:157-171 | the first entry that resolves to the raw path is the first match |
| OldScsi.FirstWwn | src/peripety/src/scsi.rs:172-176 | the position found is the first alias starting with `wwn-`, and there is none exactly when no alias does |
| OldScsi.PickPreferred | src/peripety/src/scsi.rs:172-181 | without aliases the raw path; otherwise the first `wwn-` alias, or the first alias when none starts with `wwn-` |
| OldScsi.PickWwn | src/peripety/src/scsi.rs:172-176 | when some alias starts with `wwn-`, the chosen path is a `/dev/disk/by-id/wwn-` one |
| OldScsi.PickAlias | src/peripety/src/scsi.rs:157-181 | when some entry resolves to the raw path the choice is a `/dev/disk/by-id` alias of it, a `wwn-` one when such an entry starts with `wwn-` |
| OldScsi.PreferredPath | src/peripety/src/scsi.rs:153-182 | the preferred path is the raw path or a `/dev/disk/by-id` alias that resolves to it; it is such an alias whenever a readable entry resolves to the raw path, a `wwn-` one whenever a `wwn-` entry does, and the raw path when the folder cannot be read |
| OldScsi.PreferredPathFirstAlias | src/peripety/src/scsi.rs:157-181 | with no `wwn-` alias, the preferred path is the first entry in directory order that resolves to the raw path |
| OldScsi.GetPreferredBlkPath | src/peripety/src/scsi.rs:153-182 | the collecting loop and the `wwn-` search compute the preferred path |
| OldScsi.ScsiIdOfDisk | src/peripety/src/scsi.rs:416-436 | the address is found exactly when the disk's `device` link is readable with a name; every failure is `InternalBug` |
| OldScsi.ReadAll | src/peripety/src/scsi.rs:264-285 | the reads succeed exactly when every attribute file reads, and then the map has exactly the keys inserted |
| OldScsi.IscsiInfo | src/peripety/src/scsi.rs:245-286 | a success has exactly the keys address, port, tpgt, target_name and iface_name; a session lookup failure is passed on |
| OldScsi.FcInfo | src/peripety/src/scsi.rs:288-334 | a success has exactly the keys target_wwpn, host_wwpn, speed and port_state; an address without a colon is refused with `InternalBug` |
| OldScsi.WithTransport | src/peripety/src/scsi.rs:358-375 | the driver name with the transport's attributes is well formed for the transport it names |
| OldScsi.TransportInfo | src/peripety/src/scsi.rs:344-378 | a success always holds the driver name and the keys its transport needs |
| OldScsi.GetTransportId | src/peripety/src/scsi.rs:380-406 | formatting fails exactly when the transport lookup fails |
| OldScsi.TransportIdFields | src/peripety/src/scsi.rs:382-405 | an iSCSI id splits at its commas into address, port, tpgt, target name and interface name, an FC id into host and target port names (values without commas); other hosts get the empty id |
| OldScsi.PartitionPath | src/peripety/src/scsi.rs:75-93 | a partition of a plain disk is under `/dev`; one of a multipath device is `<mpath>-part<n>` when it exists, else `<mpath><n>`, else `BlockNoExists` |
| OldScsi.PartitionFrom | src/peripety/src/scsi.rs:64-117 | a partition gets wwid `<disk>-part<n>`, type `Partition`, the disk put in front of its wwid, type and path lists (not the transport ids), and the uuid alias as preferred path when it has a uuid |
| OldScsi.PartitionKeepsListsParallel | src/peripety/src/scsi.rs:106-115 | inserting the disk at index 0 keeps the wwid, type and path lists the same length, one longer than the disk's |
| OldScsi.PartitionInfo | src/peripety/src/scsi.rs:74-116 | filling in the descriptor then inserting the disk gives the partition descriptor |
| OldScsi.WholeDisk | src/peripety/src/scsi.rs:120-150 | a whole disk has type `Scsi`, no owners, no uuid or mount point, a `/dev/` path and a pretty wwid; with no wwid file under either form the result is `InternalBug`; a failing address lookup, wwid read or transport id is passed on; otherwise the wwid is the pretty form of the wwid file read (the address's when it has one, else the disk's), the path `/dev/` plus the disk found for the address or the name itself, the preferred path that path's preferred alias and the transport id that disk's |
| OldBlk.New | src/peripety/src/blk_info.rs:49-57 | succeeds exactly when `_new` does; with a uuid the descriptor gains it and the mount point, and without one it is `_new`'s result unchanged |
| OldBlk.NewBlkInfo | src/peripety/src/blk_info.rs:49-57 | setting the uuid and mount point step by step gives `new`'s descriptor |
| OldBlk.Resolve | src/peripety/src/blk_info.rs:63-159 | the older `_new`: the same dispatch order and error kinds as the newer one; its branches are stated by the OldBlk.Resolve* lemmas below |
| OldBlk.ResolveAbsolutePath | src/peripety/src/blk_info.rs:68-87 | a missing absolute path is `BlockNoExists` with its message, one that cannot be canonicalised `NoSupport`; otherwise its canonical name is resolved |
| OldBlk.ResolveDiskName | src/peripety/src/blk_info.rs:90-99 | an `sd` name goes to its dm holder unless the check is skipped; a partition name is described through its disk |
| OldBlk.ResolveScsiAddress | src/peripety/src/blk_info.rs:100-108 | an `H:C:T:L` address is resolved through the disk it names, and a failed lookup is that failure |
| OldBlk.ResolveDmName | src/peripety/src/blk_info.rs:110-113 | a `dm-` name goes to the device-mapper lookup |
| OldBlk.ResolveMajorMinor | src/peripety/src/blk_info.rs:115-123 | a `major:minor` number is resolved through the name its `/sys/dev/block` link points at, and a failed lookup is that failure |
| OldBlk.ResolveUuidLink | src/peripety/src/blk_info.rs:125-129 | a name of no other form with a `/dev/disk/by-uuid` link is resolved as that link, so it is `NoSupport` when the link cannot be canonicalised and otherwise resolves as its canonical name |
| OldBlk.ResolveFallsThrough | src/peripety/src/blk_info.rs:126-158 | a name of no known form with no uuid link is scanned by SCSI wwid, or is `NoSupport` when the disk list is unreadable |
| OldBlk.WwidScan | src/peripety/src/blk_info.rs:132-158 | the older WWID scan; WwidScanFound states what a hit is |
| OldBlk.WwidScanFound | src/peripety/src/blk_info.rs:132-153 | a disk the WWID scan finds is a listed `scsi_disk` entry whose WWID file reads and pretty-prints to the name sought, and the result is `new` of that entry |
| OldBlk.GetScsi | src/peripety/src/scsi.rs:60-151 | `blk_info_get_scsi`: a partition described through its disk, or a whole disk; GetScsiShape and the OldScsi partition and whole-disk members state both cases |
| OldBlk.GetScsiShape | src/peripety/src/scsi.rs:60-151 | only a name of partition shape gets type `Partition`; a partition fails with its disk's failure, and the disk's wwid heads its owners; a whole disk has no owners |
| OldBlk.NewSkipExtra | src/peripety/src/blk_info.rs:59-61 | `new_skip_extra` is `_new` with the holder check skipped and no uuid or mount enrichment; SkipWithoutHolders states that it agrees with `_new` when no holder exists |
| OldBlk.SkipWithoutHolders | src/peripety/src/blk_info.rs:59-61 | when no disk has a dm holder, `new_skip_extra` finds what `_new` finds: they differ only by the holder redirect |
| OldBlk.AddOwner | src/peripety/src/dm.rs:71-79 | one push keeps the lists aligned and free of repeats, adds the owner's wwid and path exactly, only appends, and grows wwids and types together |
| OldBlk.DmTypeOf | src/peripety/src/dm.rs:33-50 | the type is `DmLvm`, `DmMultipath` or `Partition` exactly for the `LVM-`, `mpath-` and `part` prefixes, and never `Scsi` |
| OldBlk.GetDm | src/peripety/src/dm.rs:27-130 | a missing uuid file, an unreadable slave directory and an empty owner wwid list are `InternalBug` (the last with the fixed "not supported blk" message); a failed name or uuid read is that failure; a success has the wwid read from the uuid file, the path `/dev/mapper/<name>` equal to the preferred path, the type its uuid names, at least one owner wwid, and no uuid or mount point |
| OldBlk.SubAccGrows | src/peripety/src/dm.rs:84-112 | the inner loop only appends and keeps the lists aligned and free of repeats |
| OldBlk.AddSlaveGrows | src/peripety/src/dm.rs:70-113 | one slave only appends and keeps the lists aligned and free of repeats |
| OldBlk.DmOwnersAccGrows | src/peripety/src/dm.rs:61-115 | the slave loop only appends and keeps the lists aligned and free of repeats |
| OldBlk.SubAccHolds | src/peripety/src/dm.rs:84-112 | every owner path of a dm slave that canonicalises and resolves is held after the inner loop |
| OldBlk.AddSlaveHolds | src/peripety/src/dm.rs:70-113 | a slave that resolves is held afterwards, and so is each owner of a dm slave that resolves: one level of expansion |
| OldBlk.DmOwnersAccHolds | src/peripety/src/dm.rs:61-115 | everything any slave entry brings in is held at the end of the loop |
| OldBlk.GetDmOwners | src/peripety/src/dm.rs:61-122 | the owners of a dm device are aligned wwid and type lists without repeats, no path repeats, and hold every resolvable slave and every resolvable owner of a dm slave; conversely every wwid and path held is that of a resolvable slave or of a resolvable owner of a dm slave |
| OldBlk.PushOwner | src/peripety/src/dm.rs:71-79 | the two `contains`-guarded pushes compute the owner step |
| OldBlk.SubAccStep | src/peripety/src/dm.rs:84-112 | each owner path is canonicalised and pushed when it resolves, in order |
| OldBlk.ExpandSlave | src/peripety/src/dm.rs:84-112 | the inner loop computes the expansion of a dm slave's owner paths |
| OldBlk.PushSlave | src/peripety/src/dm.rs:62-113 | one turn of the outer loop computes the slave step |
| OldBlk.DmOwnersAccStep | src/peripety/src/dm.rs:61-115 | the slave loop takes the entries one at a time, in directory order |
| OldBlk.CollectOwners | src/peripety/src/dm.rs:61-115 | the outer loop computes the owner lists from empty lists |
| OldBlk.BlkInfoGetDm | src/peripety/src/dm.rs:27-130 | the step-by-step construction gives the device-mapper descriptor |
| DaemonBlk.SysfsRead | src/peripetyd/src/data.rs:276-298 | an unopenable file reads as ""; otherwise the text itself when it has no final newline, else the text without one final newline |
| DaemonBlk.SysfsReadKeepsInnerNewline | src/peripetyd/src/data.rs:286-288 | only one newline is removed: a text ending in two still ends in one |
| DaemonBlk.Read | src/peripetyd/src/data.rs:276-298 | reading into a buffer and popping a final newline computes the read |
| DaemonBlk.MajorMinorToBlkName | src/peripetyd/src/data.rs:198-220 | a failed link read gives nothing; otherwise the name the link points at |
| DaemonBlk.ScsiIdToBlkName | src/peripetyd/src/data.rs:222-245 | a non-empty result is the readable first entry of the address's `device/block` folder, and that entry is returned whenever it exists |
| DaemonBlk.GetScsi | src/peripetyd/src/scsi.rs:18-69 | a descriptor found has four owner lists of one length and a `/dev/` path; a name that is no partition is found exactly when the address or the disk form has a wwid file, with the pretty form of that file's text as wwid, type `Scsi`, no owners, and as path `/dev/` plus the disk found for the address or the name itself |
| DaemonBlk.GetScsiPartition | src/peripetyd/src/scsi.rs:22-43 | a partition resolves exactly when its disk does, to wwid `<disk>-part<n>`, type `Partition`, path `/dev/<kdev>` and the disk as its single owner; its name is the partition's kernel name and its one owner name the disk's |
| DaemonBlk.GetScsiWwidIsClean | src/peripetyd/src/scsi.rs:57-66 | a whole disk's wwid holds no space or tab and never ends with backslash-zero |
| DaemonBlk.AddOwner | src/peripetyd/src/dm.rs:54-61 | an owner whose wwid is there changes nothing; otherwise its wwid, type, name and path are appended together, keeping the four lists parallel and wwids distinct |
| DaemonBlk.PathsRepeatUnderTwoWwids | src/peripetyd/src/dm.rs:54-61 | paths are de-duplicated only through their wwids: two wwids naming one path both record it |
| DaemonBlk.DmTypeOf | src/peripetyd/src/dm.rs:18-32 | the type is `DmLvm` for `LVM-`, `DmMultipath` for `mpath-`, and `Dm` otherwise; there is no `Partition` case |
| DaemonBlk.GetDm | src/peripetyd/src/dm.rs:11-104 | a descriptor is found exactly when the dm uuid exists, the slave directory is readable and the slaves yield at least one owner; it has the uuid file's text as wwid, the type that uuid names, the name file's text as name, path `/dev/mapper/<name>` and the owner lists the slave walk collects |
| DaemonBlk.New | src/peripetyd/src/data.rs:84-111 | the daemon's `BlkInfo::new` dispatch for a given SCSI-address pattern; NewWellFormed, DispatchIntended and ScsiIdRouteAsWritten state it |
| DaemonBlk.ScsiIdRouteAsWritten | src/peripetyd/src/data.rs:95-100 | as written, `1::2:3:4` is sent to the SCSI lookup, while the intended dispatch finds nothing for it |
| DaemonBlk.DispatchIntended | src/peripetyd/src/data.rs:84-111 | with the intended pattern a name that is neither `dm-` nor `sd` reaches the SCSI lookup exactly when it is `H:C:T:L`, a `major:minor` number is never one, and anything else gives nothing |
| DaemonBlk.AsWrittenTakesEveryAddress | src/peripetyd/src/data.rs:95-100 | the pattern as written still routes every real SCSI address as intended |
| DaemonBlk.SubAccGrows | src/peripetyd/src/dm.rs:66-91 | the inner loop only appends and keeps the lists parallel with distinct wwids |
| DaemonBlk.AddSlaveGrows | src/peripetyd/src/dm.rs:53-92 | one slave only appends and keeps the lists parallel with distinct wwids |
| DaemonBlk.DmOwnersAccGrows | src/peripetyd/src/dm.rs:44-94 | the slave loop only appends and keeps the lists parallel with distinct wwids |
| DaemonBlk.SubAccHolds | src/peripetyd/src/dm.rs:66-91 | the wwid of every owner path of a dm slave that canonicalises and resolves is held after the inner loop |
| DaemonBlk.AddSlaveHolds | src/peripetyd/src/dm.rs:53-92 | a slave that resolves is held, and so is each resolvable owner one level below a dm slave |
| DaemonBlk.DmOwnersAccHolds | src/peripetyd/src/dm.rs:44-94 | everything any slave entry brings in is held at the end of the loop |
| DaemonBlk.GetDmOwners | src/peripetyd/src/dm.rs:44-98 | the owners of a dm device are four lists of one length without repeated wwids, holding every resolvable slave and its resolvable owners one level down; conversely every wwid and path held is that of a resolvable slave or of a resolvable owner of a dm slave |
| DaemonBlk.NewWellFormed | src/peripetyd/src/data.rs:84-111 | every descriptor the dispatch returns has four owner lists of one length |
| DaemonBlk.PushOwner | src/peripetyd/src/dm.rs:54-61 | the guarded pushes compute the owner step |
| DaemonBlk.SubAccStep | src/peripetyd/src/dm.rs:66-91 | each owner path is canonicalised and pushed when it resolves, in order |
| DaemonBlk.ExpandSlave | src/peripetyd/src/dm.rs:66-91 | the inner loop computes the expansion of a dm slave's owner paths |
| DaemonBlk.PushSlave | src/peripetyd/src/dm.rs:45-92 | one turn of the outer loop computes the slave step |
| DaemonBlk.DmOwnersAccStep | src/peripetyd/src/dm.rs:44-94 | the slave loop takes the entries one at a time, in directory order |
| DaemonBlk.CollectOwners | src/peripetyd/src/dm.rs:44-94 | the outer loop computes the owner lists from empty lists |
| DaemonBlk.BlkInfoGetDm | src/peripetyd/src/dm.rs:11-104 | the step-by-step construction, with the type set by prefix after the fact, gives the device-mapper descriptor |
| Routing.TargetsExact | src/peripetyd/main.rs:114-129 | a parser receives the event exactly when it lists the event's kind and either has no subsystem list or lists the event's subsystem; targets are visited once each, in parser order |
| Routing.Route | src/peripetyd/src/main.rs:88-100 | the loop over the parsers sends the event to exactly the targets, in parser order |
| Routing.RequiredBySubscription | src/peripetyd/src/main.rs:89-96 | a parser subscribed to one kind and a subsystem list takes exactly that kind from exactly those subsystems |
| JournalRecord.Tagged | src/peripetyd/src/main.rs:30-38 | one journal field per value, in order, all under the one key |
| JournalRecord.ExtFields | src/peripetyd/main.rs:54-56 | one field per extension entry, in iteration order, named `EXT_` and the upper-cased key, holding the entry's value |
| JournalRecord.PushAll | src/peripetyd/src/main.rs:30-32 | an owner loop appends exactly the tagged values to the record built so far |
| JournalRecord.PushExtension | src/peripetyd/main.rs:54-56 | the extension loop appends exactly the `EXT_` fields to the record built so far |
| OldDaemon.JournalShape | src/peripetyd/src/main.rs:22-46 | the record has 9 fields plus one per owner wwid, name and path and per extension entry; IS_PERIPETY, the numeric PRIORITY and MESSAGE (even empty) come first, the owner wwids, names and paths follow as three groups, then the `EXT_` fields, and EVENT_TYPE, EVENT_ID, SUB_SYSTEM close it |
| OldDaemon.SendToJournald | src/peripetyd/src/main.rs:22-46 | the record pushed field by field is the record described by JournalShape |
| OldDaemon.Subscriptions | src/peripetyd/src/main.rs:63-96 | with the filters the three parsers declare, only raw events are routed to them: SCSI events to scsi, ext4 and xfs events to fs (never jbd2), multipath events to mpath |
| OldDaemon.ScsiParse | src/peripetyd/src/scsi.rs:83-116 | the older SCSI `parse_event` as a value; ScsiParseEffect states when it sends and what it sends |
| OldDaemon.ScsiParseEffect | src/peripetyd/src/scsi.rs:83-116 | an event is passed on exactly when its device, with one `+scsi:` removed, resolves; it then carries that device's path and wwid and `scsi_id`, keeps every other extension entry and field, and its type changes only from SCSI_SENSE_KEY to the medium or hardware error type |
| OldDaemon.ParseScsiEvent | src/peripetyd/src/scsi.rs:83-116 | overwriting the clone's fields one after another gives the event ScsiParseEffect describes |
| OldDaemon.FsParse | src/peripetyd/src/fs.rs:59-82 | the older file-system `parse_event` as a value, resolving through `BlkInfo::new` with the pattern as written; FsParseEffect states it |
| OldDaemon.FsParseEffect | src/peripetyd/src/fs.rs:59-82 | an event is passed on exactly when its device resolves (through `BlkInfo::new` with the SCSI address pattern as written) and has a uuid; the uuid becomes the wwid, the device's own wwid and path head the owner lists (which stay of one length), `mount_point` is added exactly when known, and nothing else changes |
| OldDaemon.ParseFsEvent | src/peripetyd/src/fs.rs:59-82 | the field updates with the two front insertions give the event FsParseEffect describes |
| OldDaemon.MpathInfo | src/peripetyd/src/mpath.rs:12-54 | only the first holder is examined; a result exists exactly when that holder's dm uuid starts with `mpath-`, and is the dm name with the uuid minus that prefix |
| OldDaemon.MpathParse | src/peripetyd/src/mpath.rs:56-79 | the multipath `parse_event` as a value; MpathParseEffect states it |
| OldDaemon.MpathParseEffect | src/peripetyd/src/mpath.rs:56-79 | only path-failed and path-reinstated events whose path sits under a multipath device are passed on; they name the device under `/dev/mapper`, carry its wwid, always record `blk_major_minor`, add `blk_name` exactly when the number resolves, keep every other extension entry (and a `blk_name` already there when the number does not resolve) with no other key added, and change nothing else |
| OldDaemon.ParseMpathEvent | src/peripetyd/src/mpath.rs:56-79 | the in-place updates give the event MpathParseEffect describes |
| Daemon.OwnerFieldsAt | src/peripetyd/main.rs:46-52 | the `k`-th owner contributes its OWNERS_WWIDS field at position `2k` and its OWNERS_PATHS field right after it |
| Daemon.JournalShape | src/peripetyd/main.rs:36-63 | the record has 8 fields, plus MESSAGE when the message is non-empty, two per owner and one per extension entry; IS_PERIPETY and the numeric PRIORITY open it, owner wwid and path fields alternate, the `EXT_` fields follow, and EVENT_TYPE, EVENT_ID, SUB_SYSTEM and JSON close it |
| Daemon.JournalMessage | src/peripetyd/main.rs:40-42 | a MESSAGE field is in the record exactly when the event's message is not empty |
| Daemon.SendToJournald | src/peripetyd/main.rs:36-63 | the record pushed field by field is the record described by JournalShape |
| Daemon.ApplyConf | src/peripetyd/main.rs:77-90 | after a reload stdout notification is on exactly when configured `true`, and journal saving is off exactly when configured `false` |
| Daemon.InitialFlagsAreDefaults | src/peripetyd/main.rs:74-89 | the settings the loop starts with are the ones an empty configuration gives |
| Daemon.ReloadForgets | src/peripetyd/main.rs:77-90 | after a step carrying a configuration, what is delivered no longer depends on the settings before it |
| Daemon.DeliveriesOfEvents | src/peripetyd/main.rs:92-129 | with no reload, every event is delivered once and in order, to stdout exactly when notification is on, to the journal exactly when saving is on, and to exactly the parsers taking synthetic events of its subsystem |
| Daemon.Turn | src/peripetyd/main.rs:76-129 | one loop turn takes a pending reload and then delivers the received event under the settings now in force |
| Daemon.HandleEvents | src/peripetyd/main.rs:69-131 | a finite run of the loop, starting from the default settings, yields the deliveries DeliveriesOfEvents and ReloadForgets describe |
| Daemon.BlkInfoEvent | src/peripetyd/main.rs:328-346 | a block announcement is an Info event of the peripety subsystem, type PERIPETY_BLK_INFO, carrying the block, with message and raw message `Found block '<path>' '<wwid>'` plus ` mounted at '<mount point>'` when one is known |
| Daemon.Announce | src/peripetyd/main.rs:328-346 | the event one turn of the loop builds field by field, with the text in one of its two formats, is the announcement BlkInfoEvent describes |
| Daemon.DumpBlkInfos | src/peripetyd/main.rs:325-352 | one announcement per listed block, in list order |
| Daemon.Subscriptions | src/peripetyd/fs.rs:73-82 | the SCSI parser takes only raw SCSI events; the file-system parser takes only raw ext4, xfs and jbd2 events |
| Daemon.ScsiParse | src/peripetyd/scsi.rs:7-42 | the SCSI `parse_event` as a value; ScsiParseEffect and ScsiParseKdev state it |
| Daemon.ScsiParseEffect | src/peripetyd/scsi.rs:7-42 | host events and failed lookups send nothing; otherwise the event carries the descriptor found without the dm redirect, a type changed only from SCSI_SENSE_KEY to the medium or hardware error type, the message `<raw_msg>, wwid: '<wwid>'`, and nothing else changes |
| Daemon.ScsiParseKdev | src/peripetyd/scsi.rs:9-15 | a `+scsi:host` device is dropped before any lookup, and any other `+scsi:` device is looked up without that prefix |
| Daemon.ParseScsiEvent | src/peripetyd/scsi.rs:7-42 | the in-place updates give the event ScsiParseEffect describes |
| Daemon.DataMode | src/peripetyd/fs.rs:37-48 | each of the four known captures is named `journalled`, `ordered`, `writeback` or `no_journal`, exactly that capture gets that name, and every other capture is `unknown` |
| Daemon.FsEnrich | src/peripetyd/fs.rs:8-50 | the file-system `parse_event` up to the message loop; FsEnrichSent and FsEnrichEffect state when it sends and what it sends |
| Daemon.FsEnrichSent | src/peripetyd/fs.rs:9-50 | an event comes out exactly when the block resolves with a uuid and, for an ext4 mount, a data mode was captured |
| Daemon.FsEnrichEffect | src/peripetyd/fs.rs:21-50 | the event carries the descriptor and `<raw_msg>, blk_wwid: '<w>', blk_path: '<p>'`; its extension gains the uuid, the mount point when known, an ext4 mount's named data mode, keeps every other entry (a `mount_point` when none is known, a `data_mode` outside an ext4 mount) and gains no other key |
| Daemon.EnrichedExtension | src/peripetyd/fs.rs:21-50 | the three extension updates add the uuid, the known mount point and an ext4 mount's named data mode, keep every other entry, and add no other key |
| Daemon.WithPiecesSplit | src/peripetyd/fs.rs:51-53 | appending the pieces of a key list is appending those of its first part and then those of the rest |
| Daemon.FsParse | src/peripetyd/fs.rs:7-61 | the whole file-system `parse_event` for a given HashMap iteration order; FsParseEffect states it |
| Daemon.FsParseEffect | src/peripetyd/fs.rs:7-61 | the parser's event is the enriched one whose message has one `, <key>: '<value>'` piece per extension entry appended, in iteration order, and nothing else differs |
| Daemon.Enrich | src/peripetyd/fs.rs:8-50 | the lookup, the uuid check, the inserts and the data-mode rename give the enriched event FsEnrichSent and FsEnrichEffect describe, or nothing |
| Daemon.ParseFsEvent | src/peripetyd/fs.rs:7-61 | the enrichment followed by the message loop gives the event FsParseEffect describes |
| Cli.SeverityThreshold | src/prpt/prpt.rs:211-215 | a severity threshold admits exactly the severities whose level is not above its own, so `Unknown` never passes a known threshold |
| Cli.BlkFilterOverrides | src/prpt/prpt.rs:228-240 | as written, a debug event of the chosen block is shown even when only errors were asked for |
| Cli.AsWrittenIgnoresFilters | src/prpt/prpt.rs:209-240 | as written, once a block filter is given the verdict does not depend on the severity, subsystem or type filters |
| Cli.SelectedNarrows | src/prpt/prpt.rs:209-240 | the intended verdict (every given filter passes) never shows more than the written one, agrees with it without a block filter, and only narrows as filters are added |
| Cli.DisplayMessage | src/prpt/prpt.rs:243-247 | the text shown is the parsed message when there is one and the raw message otherwise |
| Cli.HandleEvent | src/prpt/prpt.rs:208-283 | the event is shown exactly when the written verdict holds, with the text DisplayMessage picks |
| Cli.TimeStr | src/prpt/prpt.rs:91-100 | a time stamp exists exactly when the text parses as a local time, and it is the library's own conversion of that text |
| Cli.SinceRules | src/prpt/prpt.rs:102-128 | only the exact lower-case `today` and `yesterday` mean midnight of that day; a text with ':' is parsed as given and any other is parsed with ` 00:00:00` appended |
| Cli.FindBlkFirst | src/prpt/prpt.rs:438-476 | the search finds a block exactly when some listed block has the wwid or mount point asked for, itself or through a direct owner, and returns the first such listed block |
| Cli.GetBlkInfoFinds | src/prpt/prpt.rs:450-476 | a `/dev` argument resolves exactly when the block resolves; any other argument yields a listed block that answers it, and `Specified block not found` only when no listed block does |
| Cli.SearchListing | src/prpt/prpt.rs:458-470 | the nested loop over the listing and each block's owners returns the block FindBlkFirst describes |
| Cli.GetBlkInfoOf | src/prpt/prpt.rs:450-476 | the method returns the result GetBlkInfoFinds describes |
| Cli.LastSlash | src/prpt/prpt.rs:384 | the position found holds the last '/', and there is none exactly when the path holds no '/' |
| Cli.Basename | src/prpt/prpt.rs:384-401 | the simple listing's name exists exactly when the path holds a '/', and is the slash-free text after one |
| Cli.OwnLines | src/prpt/prpt.rs:383-418 | a block prints one line in a simple listing exactly when its path holds a '/', none otherwise, and seven lines in a full listing |
| Cli.OwnLinesPrefixed | src/prpt/prpt.rs:383-418 | every line a block prints starts with the prefix it was given |
| Cli.ShowOwnersLines | src/prpt/prpt.rs:419-434 | below a top-level block each owner prints at most one line in a simple listing and eight in a full one, every line indented by two spaces or empty |
| Cli.SimpleListingSize | src/prpt/prpt.rs:371-436 | a top-level block's simple listing has at most one line for it and one per direct owner; its full listing has seven lines, plus a header and eight lines per owner when it has owners |
| OldCli.MatchIsConjunction | src/prpt/src/main.rs:213-236 | the verdict is the conjunction of the four one-filter verdicts, so no filter order matters; with no filter every event is shown, and adding a filter never shows more |
| OldCli.BlkFilter | src/prpt/src/main.rs:232-236 | the block filter admits exactly the events whose device is the block or whose owner wwids include it |
| OldCli.DisplayMessage | src/prpt/src/main.rs:251-255 | the text shown is the parsed message when there is one and the raw message otherwise |
| OldCli.HandleEvent | src/prpt/src/main.rs:212-266 | the event is shown exactly when all four filters pass, with the text DisplayMessage picks |
| Kmsg.DefaultKmsg | src/plugins/kmsg/src/main.rs:31-43 | a fresh record has debug severity, the kernel facility, sequence and time 0, flag '-', and no message or dictionary |
| Kmsg.Header | src/plugins/kmsg/src/main.rs:60-70 | a header match splits the line at its first ';' into a non-empty prefix without ';' and a non-empty message that give the line back |
| Kmsg.HeaderComplete | src/plugins/kmsg/src/main.rs:60-70 | every line of that shape matches, with exactly its two parts |
| Kmsg.Subline | src/plugins/kmsg/src/main.rs:71-79 | a dictionary line is one white-space character, then a non-empty key without '=' up to the first '=', then a non-empty value, and gives the line back |
| Kmsg.SublineComplete | src/plugins/kmsg/src/main.rs:71-79 | every line of that shape matches, with exactly its key and value |
| Kmsg.PriBits | src/plugins/kmsg/src/main.rs:90-93 | on a byte, the mask `0b111` keeps the remainder by 8, the mask `0b1111_1000` with a shift by 3 gives the quotient by 8, and the two give the byte back |
| Kmsg.PriSplit | src/plugins/kmsg/src/main.rs:90-93 | the severity bits (at most 7) and the facility bits (at most 31) of a one-byte PRI give it back as facility times 8 plus severity |
| Kmsg.ParseChar | src/plugins/kmsg/src/main.rs:96 | the flag parses exactly when its field is one character |
| Kmsg.ApplyHeaderKeepsDict | src/plugins/kmsg/src/main.rs:82-99 | reading the header never touches the dictionary and does not depend on it |
| Kmsg.FirstHeader | src/plugins/kmsg/src/main.rs:80-100 | the header is the first line of the header's shape, and there is none when no line has it |
| Kmsg.Scan | src/plugins/kmsg/src/main.rs:80-108 | the line loop of `gen_kmsg` as a left fold; ScanIsReading, FirstHeader, SublinesHas, SublinesLastWins and ScanAbortStays state what it reads |
| Kmsg.ScanIsReading | src/plugins/kmsg/src/main.rs:80-108 | the loop reads its message and prefix fields from the first header-shaped line only, and every other line, before or after it, as a possible dictionary line |
| Kmsg.SublinesHas | src/plugins/kmsg/src/main.rs:102-107 | the dictionary holds a key exactly when some line other than the header gives it |
| Kmsg.SublinesLastWins | src/plugins/kmsg/src/main.rs:102-107 | the dictionary holds the value of the last line giving the key |
| Kmsg.ScanAbortStays | src/plugins/kmsg/src/main.rs:89-97 | once a prefix field fails to parse the plugin stops, whatever lines follow |
| Kmsg.GenKmsg | src/plugins/kmsg/src/main.rs:57-114 | `gen_kmsg`; GenKmsgKept and GenKmsgNeedsHeader state when a record is kept and what it holds |
| Kmsg.GenKmsgKept | src/plugins/kmsg/src/main.rs:57-114 | a kept record has the first header's message and the kernel facility; its severity is the PRI when the prefix has four fields and debug otherwise; its dictionary is that of the other lines |
| Kmsg.GenKmsgNeedsHeader | src/plugins/kmsg/src/main.rs:109-113 | without a header line no record is kept |
| Kmsg.GenKmsgOf | src/plugins/kmsg/src/main.rs:57-114 | the single pass with the `parsed` flag computes the record ScanIsReading and GenKmsgKept describe |
| Kmsg.ThinDevice | src/plugins/kmsg/src/main.rs:140-151 | a thin-pool message yields a `major:minor` device number right after the thin prefix |
| Kmsg.ThinDeviceComplete | src/plugins/kmsg/src/main.rs:141-143 | every `device-mapper: thin: M:m:…` message yields `M:m` |
| Kmsg.ThinDeviceSound | src/plugins/kmsg/src/main.rs:141-143 | the device number found is followed in the message by a ':' |
| Kmsg.MpathPath | src/plugins/kmsg/src/main.rs:153-161 | a multipath match yields `Failing` or `Reinstating` and a `major:minor` device number |
| Kmsg.MpathPathComplete | src/plugins/kmsg/src/main.rs:153-161 | the two path messages the kernel writes, closed by one more character, are matched with their action and device number |
| Kmsg.MpathGap | src/plugins/kmsg/src/main.rs:155 | the pattern accepts any white-space character between `device-mapper:` and `multipath:` |
| Kmsg.MpathPathTakesLastDigit | src/plugins/kmsg/src/main.rs:159 | without the closing character the final `.` takes the last digit: `…Failing path 8:16` names `8:1` |
| Kmsg.ThinGuard | src/plugins/kmsg/src/main.rs:140-152 | a message naming a thin-pool device passes the thin guard and never the multipath one |
| Kmsg.ToEventWhen | src/plugins/kmsg/src/main.rs:116-190 | a record becomes an event exactly when it is a SCSI record with a `+scsi:` device, or has no subsystem and is a thin-pool message naming a device or a multipath path failure or reinstatement |
| Kmsg.Classify | src/plugins/kmsg/src/main.rs:119-179 | `Scsi` exactly for a `scsi` SUBSYSTEM with a `+scsi:` DEVICE; `LvmThin` exactly for a record without SUBSYSTEM whose thin-pool message names a device; `Multipath` exactly for one without SUBSYSTEM, not a thin-pool message, whose multipath message matches; only multipath records get an event type, one of the two path types; an unknown subsystem sets nothing |
| Kmsg.ToEventFields | src/plugins/kmsg/src/main.rs:119-189 | the event keeps the record's severity and message and the time given, sets no wwid, and names the device as its class found it: a SCSI name with every leading `+scsi:` removed, or a `major:minor` with the multipath event type |
| Kmsg.MpathOtherGapIsDropped | src/plugins/kmsg/src/main.rs:152-162 | a multipath message whose first gap is not a plain space fails the guard and is dropped, although the pattern would accept it |
| Kmsg.KmsgToStorageEvent | src/plugins/kmsg/src/main.rs:116-190 | filling a default event field by field gives the event ToEventWhen and ToEventFields describe |
| Kmsg.Forward | src/plugins/kmsg/src/main.rs:220-226 | an event sent carries the host name and a known subsystem |
| Kmsg.EmittedEvents | src/plugins/kmsg/src/main.rs:213-227 | the loop sends at most one event per record read, each with the host name and a known subsystem |
| Kmsg.Handle | src/plugins/kmsg/src/main.rs:220-226 | one turn parses, classifies and stamps the record as Forward describes |
| Kmsg.Run | src/plugins/kmsg/src/main.rs:213-227 | the loop over the records read sends the events EmittedEvents describes, in order |
| MpathPlugin.FirstInPaths | src/plugins/mpath/src/main.rs:10-20 | the path found has the device number and is listed; none is found exactly when no listed path has it |
| MpathPlugin.FirstInGroupsFound | src/plugins/mpath/src/main.rs:9-25 | the path found has the device number and lies in one of the groups; none is found exactly when no path of any group has it |
| MpathPlugin.FirstMatchSpec | src/plugins/mpath/src/main.rs:8-29 | the search finds a path exactly when some multipath device has one with the device number, and the device found is the first such in the listing |
| MpathPlugin.HandledEffect | src/plugins/mpath/src/main.rs:6-30 | a matched event takes the multipath device's wwid and name and records `path_name` and `path_major_minor`, keeping every other entry; an unmatched event is unchanged |
| MpathPlugin.Forwarded | src/plugins/mpath/src/main.rs:37-40 | the handled event is sent back exactly when it has a wwid |
| MpathPlugin.ForwardedWhen | src/plugins/mpath/src/main.rs:6-40 | an event is sent back exactly when it matched a multipath device with a wwid, or matched none and already had a wwid |
| MpathPlugin.SearchPaths | src/plugins/mpath/src/main.rs:10-20 | the innermost loop finds the path FirstInPaths describes |
| MpathPlugin.SearchGroups | src/plugins/mpath/src/main.rs:9-25 | the middle loop finds the path FirstInGroupsFound describes |
| MpathPlugin.HandleEvent | src/plugins/mpath/src/main.rs:6-30 | the three nested loops update the event as HandledEffect describes |
| MpathPlugin.SentEvents | src/plugins/mpath/src/main.rs:34-41 | at most one event goes back per event received, in order, each with a wwid |
| MpathPlugin.Serve | src/plugins/mpath/src/main.rs:32-42 | the loop sends back the events SentEvents describes |
| CApi.Code | src/peripety_c/lib.rs:101-112 | every error kind has a code between 1 and 10 |
| CApi.ErrorOfCode | src/peripety_c/lib.rs:40-50 | a C caller reads an error back exactly from the codes 1 to 10, with the message it was given |
| CApi.CodeBijective | src/peripety_c/lib.rs:101-112 | the ten kinds and the codes 1 to 10 correspond one to one: a kind comes back from its code, and every code in range is the code of the kind read back from it |
| CApi.CodeIdentifiesKind | src/peripety_c/lib.rs:101-112 | two errors share a code exactly when they are of the same kind |
| CApi.CMessage | src/peripety_c/lib.rs:90-100 | the C message holds no NUL: it is the error's text when that has none, and the fixed `BUG: …` message otherwise |
| CApi.ErrorToCRecovers | src/peripety_c/lib.rs:89-114 | a C caller reads back the error exactly when its message holds no NUL, and otherwise its kind with the fixed message |
| CApi.NewErrorBox | src/peripety_c/lib.rs:131-134 | boxing an error hands the caller a new box holding its C form and records that box as live, and nothing else |
| CApi.IterNew | src/peripety_c/lib.rs:116-137 | a null error out-pointer gives a null iterator and changes nothing; otherwise the error is cleared and exactly one of a new live iterator (when the journal opens and takes the match) and a new live LogAccessError box is handed back |
| CApi.IterFree | src/peripety_c/lib.rs:139-148 | a null iterator is ignored; any other is no longer live, and nothing else is released |
| CApi.ErrorFree | src/peripety_c/lib.rs:150-160 | a null error is ignored; any other is no longer live, and nothing else is released |
| CApi.ErrorMsgGet | src/peripety_c/lib.rs:162-171 | a null error gives a null string, any other its message |
| CApi.ErrorCodeGet | src/peripety_c/lib.rs:173-180 | a null error gives the invalid-argument code, any other its code |
| CApi.ErrorGetters | src/peripety_c/lib.rs:162-180 | the code and message read from a boxed library error give that error back, and a null error reads as an invalid argument with no message |
| CApi.GetNextAsWritten | src/peripety_c/lib.rs:196-210 | as written, the reply never carries an event |
| CApi.EventLostAsWritten | src/peripety_c/lib.rs:196-199 | as written, a call that read an event replies exactly as one that found the journal exhausted, while the intended reply tells them apart |
| CApi.GetNextIntendedReports | src/peripety_c/lib.rs:182-211 | with the event stored, the caller tells the outcomes apart: an event with OK, the end with OK and nothing, a failure with its code and the error boxed and readable back; the written reply is this reply without the event |
| CApi.EventGetNext | src/peripety_c/lib.rs:182-211 | a null out-pointer gives the invalid-argument code and changes nothing; otherwise both out-pointers are cleared, the iterator is advanced, and only a failure is stored, in a new live box |
| CApi.EventGetNextIntended | src/peripety_c/lib.rs:182-211 | as EventGetNext, but an event read is stored through `pe` in a new live box |

## Left out

- Threads, channels and `parser_start` spawning in both daemons: only the routing test each parser declares and what one parser does to one event are modelled; the channel sends are the results returned.
- sysfs, `/dev`, `/proc/mounts`, `canonicalize`, `read_link`, the uuid and mount-point lookups, the iSCSI and FC attribute files, the host name, the clock, `dmmp::mpaths_get` and `/dev/kmsg` reads are oracle parameters, not modelled.
- The systemd journal library is modelled through the return codes and data its calls hand back; pointer handling and `strerror_r` are not modelled, and the `Display` of `SdJournalError`, which calls itself, is not modelled (a `describe` function stands for its text).
- serde_json and toml: decoding an event is an oracle, `to_json_string*` output is an argument (the newer journal record's JSON field), and configuration loading (`conf.rs` in both daemons) is not modelled; the daemon's settings loop takes the parsed configuration as input.
- The regular expression engine and the built-in pattern table of `src/peripetyd/buildin_regex.rs` are not modelled; the fixed patterns the shown code compiles are written out as functions in `ScsiText` and `Kmsg`.
- Printing, `to_stdout!`, libnotify notifications and `to_json_string_pretty` output in both `prpt` tools and the daemons are not modelled: `HandleEvent` returns the text it would show, and the `info` listing is modelled as lines (`Cli.ShowBlk`) with JSON text from an oracle.
- `arg_match_to_cliopt` in both tools (clap argument plumbing) is not modelled; the options are a `CliOpt` value.
- `StorageEvent::query` (which seeks the journal head) is not modelled; the iterator's `monitor` and pull loop are.
- The UDP stdout plugin, the print macros and the module wiring are I/O or declarations only and are not modelled; the header's add-filter and accessor functions have no implementation in the C binding and are not modelled.
- Freeing a box is modelled as removing it from the set of live boxes; use after free and double free are outside the model.
- Unicode: upper- and lower-casing, white space (`char::is_whitespace`, the regex class `\s`) and digits (the regex class `\d` in the kmsg device-number patterns at src/plugins/kmsg/src/main.rs:142 and :159) are ASCII only, so a device number written in non-ASCII digits, which those patterns accept, is not matched by `Kmsg.ThinDevice` or `Kmsg.MpathPath`.
- The kmsg plugin reads into a fixed 8193-byte buffer and decodes the whole buffer; the model takes the record's text, without the NUL padding after it.
- Panics (`unwrap`, `expect`) are modelled as the operation giving nothing (`None`) or stopping (`Aborted`), not as a process abort.
- Blk.NewBlkInfo, OldBlk.NewBlkInfo, DaemonBlk.GetDm: the mutual recursion between the name dispatch and the device-mapper lookup has no structural measure, so the lookups carry a `fuel` bound; with no fuel left the recursive step fails (`InternalBug`, or nothing in the older daemon), which the source never does.
- Daemon.FsParseEffect: states the message for a given iteration order of the extension map; which order a `HashMap` uses is not modelled, and likewise for the `EXT_` fields of both journal records.
- Daemon.DumpBlkInfos: takes the block listing as given; the `expect` on a failed listing is not modelled.
- Kmsg.GenKmsgKept: states the message, severity, facility and dictionary of a kept record, not its sequence number, time or flag fields.
- CApi.IterNew: states the error's code and that it is a fresh live box, not the message text, which comes from the journal library's error text.
- CApi.EventGetNext: takes the iterator as a non-null `IterBox`; `peripety_event_get_next` checks `pe` and `error` for null but dereferences `iter` unchecked, so a null iterator is undefined behaviour in the source and outside the model (likewise for CApi.EventGetNextIntended).
- Cli.SinceRules and Event.SinceToTimestamp: the dates of today and yesterday come from the `Clock` oracle; the arithmetic of `Local::now() - Duration::days(1)` is not modelled.

## Findings

| source | as written | input that shows it | evidently intended | confidence | as-written member | corrected member |
|---|---|---|---|---|---|---|
| src/peripety/event.rs:60-66 | the input is upper-cased and then compared with `"Notice"`, which has lower-case letters, so only `"5"` gives `Notice` | `"notice"` (and `"NOTICE"`) is a `LogSeverityParseError` | `"NOTICE"` in any case gives `Notice`, like the other seven names | not executed | Event.OnlyDigitParsesToNotice | Event.ParseSeverityIntended |
| src/peripetyd/src/data.rs:96 | the SCSI address pattern begins each group with `(:?`, an optional colon, so it also accepts doubled colons | `"1::2:3:4"` is taken as a SCSI address | `(?:`, a plain group: exactly four digit runs joined by single colons | not executed | DaemonBlk.ScsiIdRouteAsWritten | DaemonBlk.DispatchIntended |
| src/prpt/prpt.rs:228-240 | a `--blk` filter sets the verdict anew, discarding what the severity, subsystem and type filters decided | `--blk` of a block with `--severity error` still shows that block's debug events | every given filter must pass, as in the older tool | not executed | Cli.BlkFilterOverrides | Cli.SelectedNarrows |
| src/peripety_c/lib.rs:196-199 | an event read is dropped and `*pe` stays null, so the call replies as for an exhausted journal | a journal holding one decodable event: the reply is `PERIPETY_OK` with `*pe` null | the event is boxed and stored through `pe` | not executed | CApi.EventLostAsWritten | CApi.GetNextIntendedReports |

The corrected dispatch is stated beside the one as written, but the file-system parser of the older daemon (`OldDaemon.FsParse`) calls the lookup at `src/peripetyd/src/data.rs:84-111` as written, so it uses the pattern as written; `DaemonBlk.AsWrittenTakesEveryAddress` shows the two patterns route every real `H:C:T:L` address alike.
