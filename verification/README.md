# Settlement gateway: a verified model

A Dafny 4.11 model of the gateway that builds, sends and tracks settlement files under NETA IDD Part 1,
with proofs about it. `dafny verify dfyconfig.toml` checks everything.

## What is modelled

**The file codec (sections 2.2.1 to 2.2.4 of NETA IDD Part 1).** One builder and one recursive-descent parser
serve every flow, driven by a tree of record specs. `Digits`, `Scaling` and `Decimals` hold the arithmetic of
`str()`, `int()` and `Decimal` digit by digit; `Fields` the data types; `Checksum` the XOR of section 2.2.2;
`Lines` splitting and joining; `FlowSpec` the specs; `FileCodec` build and parse. `RoundTrip` proves that a built
file comes back exactly when its values are faithful, `Ambiguity` drops the condition on the flow for one on the
file, `BuildSuccess` says when build succeeds, `Corruption` that no one-byte substitution is accepted, `Grammar` that
whatever is accepted obeys the flow and loses no line, `CodecLoops` that the loops over a shared queue compute the
recursive functions, and `Notifications` carries all this to ECVN and WMAN notifications. `Delivered` regroups
delivered volumes.

**The submission protocol (section 2.2.8).** `FileTables` holds the rows and the transactions on them.
`Allocation` runs reservations statement by statement, by any number of workers, with crashes, and shows that they
refine the atomic transaction. `FileStates` separates the read of a file's state from its conditional update.
`SendRuns` is a machine of senders, transport failures and retries over any way of rendering and naming files;
`Archive` and `Sender` are the way the gateway does it. `Items` and `ItemRuns` are the rows inside the files and the
feedback on them. `Intents`, `IntentService`, `ServiceLoops` and `Submissions` are the service above: the service is
proved over any submitter that keeps its side, and the gateway's submitter is proved to be one. `Together` runs senders
and submitters in one machine, `Outcomes` says what can still become of an intent, and `Journeys` holds runs of the
whole service from empty books.

**On their own:** `SpecGenerator` (levelled rows into record forests) and `Deadlines` (settlement periods over an
abstract local midnight).

The clock, local midnight, what transport answers, the secret store and the choice of channel are parameters. The
archive is a write-once map. An exception is a failed result, with what was committed before it left in place.

## What the proofs found

- `abs()` works in a 28-digit context, so a longer decimal may be sent as another number without an error. The exact
  condition is `KeepsAllDigits`.
- A greedy reader needs less than pairwise distinct record types: no type may both stand inside a record and follow
  it. `Unambiguous` says this of a flow, `Clear` of one file, and a file that is not clear never comes back.
- A test flag that is the empty text, a time with microseconds and an empty text item build but do not come back.
- `reserve_file` does not compare the channel of a superseded file: a correction of a file of another channel can
  carry a number its own channel never gave. The exact condition is in `CorrectionKeepsSeries`.
- Once a channel's counter has rolled over, `sequence_gaps` may report numbers that were never given. It does so
  exactly while `Straddles` holds: live files on both sides of the roll-over, and the counter not yet gone round.
- `Sender.retry` admits a file in SENT, hands it over again, and cannot record either outcome.
- An intent whose first delivery of any flow failed can never become ACTED: the resend leaves its item PENDING, and
  reconciling writes PENDING back to the flow. With every flow sent, that and a rejected item are all that stands in
  the way (`CanStillAct`).
- The unique key of a notification does not name the BM Unit. A second unit traded in the same period, revision and
  authorisation has its ECVN sent and then refused as a row, and each retry sends another file.
- The reference code of an ECVN has no room for a revision of three digits: from revision 100 on it cannot be built.
- `open_periods` is complete up to a horizon of 45 hours and not beyond.
- The transition table for intents in `intents.py` is not consulted by the service. The only changes the service can
  make that are not in it are RECEIVED to PARTIAL, and PARTIAL or ACTING back to RECEIVED; `ReconcileChange` says
  exactly when an intent goes back, and `FailedIntentGoesBack` is a run that does. The model follows the service.

## Reading the model

A reachable state is one that some sequence of steps leads to from empty tables, and the main theorems are about all
of them. `After` is the state after a sequence of steps, `Possible` says that each is enabled when it comes. `Sound`
lists what a generic machine asks of its environment; `NetaOfficeIsSound` and `SubmitterIsSound` discharge it. In the
files machine a correction must go out on the channel of the file it supersedes, which `reserve_file` leaves to its
caller. No handler in the repository accepts a wholesale activity row, so that acceptance is an event of its own.

## Model

| member | source | states |
|---|---|---|
| Decimals.SameNumberIsNumeric | src/consus_elexon_settlement/idd/fields.py:90-127 | Two decimals have one canonical form exactly when they are the same multiple of any unit fine enough for both; this grounds "equal" everywhere else. |
| Decimals.RoundedExactly | src/consus_elexon_settlement/idd/fields.py:90-127 | `abs()` in the 28-digit context keeps a decimal exactly when the digits it rounds away are zeros. |
| Decimals.EncodeIsCanonical | src/consus_elexon_settlement/idd/fields.py:90-127 | Encoding succeeds exactly on the finite values that, after `abs()`, fit n-d whole digits and d places, and then gives the text of their canonical form. |
| Decimals.EncodeSucceeds | src/consus_elexon_settlement/idd/fields.py:90-127 | For values that keep all their digits, encoding succeeds if and only if the value is finite and fits decimal(n,d). |
| Decimals.EncodeIsInjective | src/consus_elexon_settlement/idd/fields.py:90-127 | Among values that keep all their digits, equal numbers have one text and different numbers different texts. |
| Decimals.ReadEncoded | src/consus_elexon_settlement/idd/fields.py:233-240 | An encoded decimal reads back as the same number if and only if it keeps all its digits, and then as its literal in lowest terms. |
| Decimals.EncodedIsWellWritten | src/consus_elexon_settlement/idd/fields.py:90-127 | The text obeys section 2.2.3: no needless leading zero, no zero at the end of a fraction, no bare point, no signed zero. |
| Decimals.ExcessPrecisionIsDropped | src/consus_elexon_settlement/idd/fields.py:90-127 | A 29-digit value just over 1 is encoded as "1" without an error: the exactness above is not implied by success. |
| Fields.EncodedIsClean | src/consus_elexon_settlement/idd/fields.py:159-185 | No encoded value holds a separator or a character outside the printable range. |
| Fields.ValueRoundTrip | src/consus_elexon_settlement/idd/fields.py:207-267 | A value that encodes to a non-empty text always parses, never as absent, and comes back equal if and only if it is faithful (whole seconds, GMT, all digits kept, ...). |
| Fields.FieldRoundTrip | src/consus_elexon_settlement/idd/fields.py:270-277 | The same for a data item with its presence: it comes back if and only if the value is faithful, and absent exactly when its text is empty. |
| Checksum.ComputeRecordChecksum | src/consus_elexon_settlement/idd/checksum.py:39-44 | The loop over four-byte sections computes the XOR of the zero-padded big-endian sections. |
| Checksum.ShiftAndPad | src/consus_elexon_settlement/idd/checksum.py:13-18 | The shift-and-pad pseudocode of section 2.2.2, byte by byte with its padding at the end, computes the same number. |
| Checksum.ComputeFileChecksum | src/consus_elexon_settlement/idd/checksum.py:56-65 | The accumulating loop gives the XOR over all records, or fails exactly when some record is not valid. |
| Checksum.RecordNoticesChange | src/consus_elexon_settlement/idd/checksum.py:39-44 | Changing any one byte of a record changes its checksum. |
| Checksum.FileNoticesChange | src/consus_elexon_settlement/idd/checksum.py:56-65 | Changing any one byte of any record changes the checksum of the file. |
| Checksum.RepeatedRecordCancels | src/consus_elexon_settlement/idd/checksum.py:56-65 | A record written twice leaves the checksum as it was: the checksum alone does not see it. |
| Lines.SplitRecordJoined | src/consus_elexon_settlement/idd/file.py:152-162 | Splitting a joined record of n fields free of separators gives the n fields back. |
| Lines.SplitRecordShape | src/consus_elexon_settlement/idd/file.py:152-162 | A line that splits into n fields starts with its type and a separator, ends with one, and has n + 1 of them. |
| Lines.EmptyRecordHasOneField | src/consus_elexon_settlement/idd/file.py:147-149 | A record of no fields is written like a record of one empty field, and read as one. |
| FlowSpec.DistinctIsUnambiguous | src/consus_elexon_settlement/idd/model.py:116-140 | Flows whose record types are pairwise distinct are unambiguous for a greedy reader. |
| RoundTrip.HeaderRoundTrip | src/consus_elexon_settlement/idd/file.py:82-112 | A header that encodes is always parsed back with its file type and sequence number, and is the same header exactly when its time is in whole seconds and its test flag is not the empty text. |
| RoundTrip.LineRoundTrip | src/consus_elexon_settlement/idd/file.py:234-244 | One built line parses back, with the items of the node, exactly when the values are faithful. |
| RoundTrip.GroupRoundTrip | src/consus_elexon_settlement/idd/file.py:247-264 | For any nesting, any number already read and any lines that may follow, the lines of a group parse back into a forest, and the same forest exactly when it is faithful. |
| RoundTrip.FileRoundTrip | src/consus_elexon_settlement/idd/file.py:212-312 | For every unambiguous, well-formed flow: what build made, parse turns back into the same header and forest if and only if the header and every value are faithful. |
| RoundTrip.SequenceSurvives | src/consus_elexon_settlement/idd/file.py:212-229 | Whatever the flow and the values, a built file carries the sequence number of its header. |
| RoundTrip.AmbiguousFlowLosesStructure | src/consus_elexon_settlement/idd/file.py:247-264 | With a type that may stand inside a record and after it, a built file parses into another forest: the condition on flows is needed. |
| Ambiguity.FileComesBackWhen | src/consus_elexon_settlement/idd/file.py:212-312 | For every well-formed flow, ambiguous or not: a built file comes back as the same header and forest if and only if its values are faithful and no group ends before a record of a type it has still to read. |
| Ambiguity.GroupComesBackWhen | src/consus_elexon_settlement/idd/file.py:247-264 | The same for a group at any depth, whatever lines follow it. |
| Ambiguity.UnambiguousIsClear | src/consus_elexon_settlement/idd/file.py:247-264 | In an unambiguous flow every forest that builds ends its groups so. |
| Ambiguity.AmbiguousFlowsLoseFiles | src/consus_elexon_settlement/idd/file.py:247-264 | Where cardinalities stand in the way of nothing, an ambiguous flow has a file with faithful values that is built and does not come back: the condition on flows is needed. |
| BuildSuccess.BuildSucceeds | src/consus_elexon_settlement/idd/file.py:212-229 | A file is built if and only if the file type matches, every header field fits its item, and the body divides into maximal runs in spec order with permitted cardinalities and items that fit, at every level; no encoding or checksum error is left. |
| BuildSuccess.GroupBuildsWhen | src/consus_elexon_settlement/idd/file.py:189-209 | The greedy builder succeeds on a group exactly when its nodes can be cut into one run for each spec, in order, each as long as its type lasts and of a permitted length, with nodes that fit. |
| BuildSuccess.EncodesWhen | src/consus_elexon_settlement/idd/fields.py:90-185 | A value encodes exactly when it fits its data type: characters, edges and length of a text, digits of a number, canonical form of a decimal. |
| BuildSuccess.HeaderEncodesWhen | src/consus_elexon_settlement/idd/file.py:82-112 | A header encodes exactly when its ids fit and its time is in GMT. |
| CodecLoops.BuildGroupLines | src/consus_elexon_settlement/idd/file.py:189-209 | The loops that pop nodes off a shared queue, spec after spec and run after run, compute the recursive builder. |
| CodecLoops.BuildRun | src/consus_elexon_settlement/idd/file.py:189-209 | The lines of one run of nodes are what stands before the lines of the rest of the group. |
| CodecLoops.TakeRun | src/consus_elexon_settlement/idd/file.py:189-209 | A run is the longest stretch of nodes of one type at the head of the queue, and leaves the rest on it. |
| CodecLoops.ParseGroupNodes | src/consus_elexon_settlement/idd/file.py:247-264 | The loops that pop lines off a shared queue compute the recursive parser, and leave on the queue exactly the lines it does. |
| Corruption.NoSubstitutionAccepted | src/consus_elexon_settlement/idd/file.py:267-312 | Substituting any one byte of a built file by any other, at any position, gives a file that parse refuses, for whatever flow it is parsed as. |
| Corruption.ChangedBytes | src/consus_elexon_settlement/idd/file.py:267-312 | What one changed byte does to the records: a record changed, cut in two, run together with the next, or no longer terminated. |
| Corruption.ChangedFooter | src/consus_elexon_settlement/idd/file.py:267-312 | A footer with one changed character is no footer, or declares another count or checksum. |
| Corruption.ChangedBeforeFooter | src/consus_elexon_settlement/idd/file.py:267-312 | One change before the footer breaks the count or the checksum that the footer declares. |
| Grammar.GroupConserves | src/consus_elexon_settlement/idd/file.py:247-264 | What a group of lines parses into conforms to the specs, its preorder is the lines taken, one node a line, and the lines left over are the rest. |
| Grammar.ParsedFileConforms | src/consus_elexon_settlement/idd/file.py:267-312 | Every accepted file has its records in spec order with permitted cardinalities and all mandatory items, one node for each body record, and a declared count of the tree size plus two. |
| Grammar.CountRecords | src/consus_elexon_settlement/inbound/reports.py:60-72 | Counting with a stack gives the size of the forest at every level. |
| Notifications.VolumeEncodes | src/consus_elexon_settlement/flows/ecvn.py:70-87 | The constructor bound on a contract volume implies that decimal(10,3) accepts it with all its digits. |
| Notifications.EcvnBuilds | src/consus_elexon_settlement/flows/ecvn.py:125-160 | An ECVN that passed its constructor builds if and only if its ids and key fit their text items. |
| Notifications.EcvnRoundTrip | src/consus_elexon_settlement/flows/ecvn.py:163-189 | It comes back from the file exactly when no id is empty and the header is faithful, and from_nodes then reads the notification that was sent, its volumes in lowest terms. |
| Notifications.WmanRoundTrip | src/consus_elexon_settlement/flows/wman.py:71-101 | The same for a wholesale market activity notification. |
| Notifications.EcvnFlowIsFit | src/consus_elexon_settlement/idd/spec.py:1041-1152 | The E0041001 flow meets the conditions of the round trip. |
| FileTables.Database.AllocateSequence | src/consus_elexon_settlement/db.py:81-102 | Gives the counter of the channel and moves it on, or nothing where there is no channel. |
| FileTables.Database.ReserveFile | src/consus_elexon_settlement/db.py:126-182 | Performs the reservation transaction or, on any error, leaves channels and files as they were and spends only the id. |
| FileTables.Database.MoveFile | src/consus_elexon_settlement/db.py:765-777 | A guarded transition changes the one row along an edge of the table, or changes nothing and says why. |
| FileTables.Database.RecordBuiltRow | src/consus_elexon_settlement/db.py:185-197 | Marks a RESERVED row built with its checksum, count and URI, and is silent otherwise. |
| FileTables.Database.MarkUnacknowledged | src/consus_elexon_settlement/db.py:283-298 | Exactly the rows in SENT with a sending time before the limit move, along an edge of the table and in nothing but their state; their ids are returned, every other row is untouched, and nothing is overdue afterwards. |
| FileTables.SequenceGaps | src/consus_elexon_settlement/db.py:200-218 | Lists, in order and without repeats, exactly the numbers between two live ones of the channel that no live file has. |
| Allocation.CommitIsAtomic | src/consus_elexon_settlement/db.py:126-182 | A commit of the interleaved statements has the effect of the whole transaction run alone on the committed tables. |
| Allocation.StepsAreAtomic | src/consus_elexon_settlement/db.py:126-182 | Every step of every worker leaves the committed tables as they were or equals one undisturbed transaction: a crash between allocation and insert burns no number. |
| Allocation.StepIsSafe | src/consus_elexon_settlement/db.py:81-102 | Locks, numbers read, uniqueness of live numbers and the links of corrections survive every step. |
| Allocation.NumbersFollowOn | src/consus_elexon_settlement/db.py:81-182 | Under any interleaving, the k-th committed plain reservation of a channel carries (first + k) mod 10^9, the counter goes on from there, corrections carry their predecessor's number on its channel, no number is live twice, and the log is the rows. |
| Allocation.GapsAreSuperseded | src/consus_elexon_settlement/db.py:200-218 | In every reachable state the gaps are the numbers between live ones whose every file is SUPERSEDED; all of them were given if and only if the channel does not straddle a roll-over: counter rolled over, not gone round, and live numbers on both sides. |
| Allocation.CorrectionKeepsSeries | src/consus_elexon_settlement/db.py:147-160 | A correction keeps its channel to the numbers given on it if and only if the superseded file has one of them, as it has on the same channel: reserve_file leaves that to its caller. |
| Allocation.CorrectionAcrossChannels | src/consus_elexon_settlement/db.py:147-160 | A reachable state and a correction across channels that reserve_file accepts and that puts a number on a channel that was never given there. |
| Allocation.RolloverIsReportedAsGap | src/consus_elexon_settlement/db.py:200-218 | A channel that starts at the last number straddles a roll-over after two reservations, and then every number in between is reported though none was given. |
| Allocation.ReservationGoesThrough | src/consus_elexon_settlement/db.py:126-182 | With no transaction under way, a reservation runs through to its commit and the tables become what reserve_file makes of them. |
| FileStates.StatesFollowTheTable | src/consus_elexon_settlement/states.py:93-101 | With reads and conditional updates as separate steps of any number of workers, what is stored for a file is always a path of the transition table from RESERVED. |
| FileStates.AppliedOnce | src/consus_elexon_settlement/db.py:806-816 | An edge other than SEND_FAILED to itself is applied to a file at most once in a whole run, whoever does it. |
| FileStates.StaleReadFails | src/consus_elexon_settlement/db.py:765-777 | Once a file has left the state a worker read, the worker's update changes no row, however long it waits. |
| FileStates.OneWorkerWins | src/consus_elexon_settlement/db.py:239-280 | Of two workers that read one state, the first to update wins and the other changes nothing, whenever it comes. |
| FileStates.BothFailuresCount | src/consus_elexon_settlement/db.py:244-256 | Two workers may both record a failed attempt on one read of SEND_FAILED; both attempts are counted. |
| Archive.KeysDiffer | src/consus_elexon_settlement/archive.py:41-55 | Two files never share an archive key, whatever their names and dates. |
| Archive.FilenamesDiffer | src/consus_elexon_settlement/db.py:105-117 | Files sent under role codes of one length never share a file name. |
| Archive.Store.Put | src/consus_elexon_settlement/archive.py:87-98 | An object is never overwritten; otherwise it is stored and the URI returned leads back to its bytes. |
| Archive.Store.Get | src/consus_elexon_settlement/archive.py:100-107 | Reads the object a URI names, in its own bucket. |
| Archive.UriRoundTrip | src/consus_elexon_settlement/archive.py:149-155 | Splitting the URI of a key gives the bucket and the key back. |
| SendRuns.StepIsSafe | src/consus_elexon_settlement/outbound/sender.py:99-216 | Every step of every sender, crash and retry keeps each file's bytes under its own key with its own number, and the wire to those bytes. |
| SendRuns.PutNeverCollides | src/consus_elexon_settlement/outbound/sender.py:149-150 | The write-once archive never refuses a file being sent. |
| SendRuns.BuildOnceSendMany | src/consus_elexon_settlement/outbound/sender.py:99-216 | In every reachable state every hand-off carries the archived bytes of its file under the name of its row; two hand-offs of one file are identical. |
| SendRuns.OnlySendsAllocate | src/consus_elexon_settlement/outbound/sender.py:168-200 | No step but the start of a first send takes an id or a number or adds a row. |
| SendRuns.RunsGrow | src/consus_elexon_settlement/archive.py:127-143 | Over any run no archived object is lost or changed, no file gets another number or name, and no hand-off is undone. |
| SendRuns.RetrySendsTheSameBytes | src/consus_elexon_settlement/outbound/sender.py:168-216 | A retry hands over the archived bytes once. From BUILT and SEND_FAILED the outcome is recorded; from SENT neither outcome can be, and the call raises. |
| SendRuns.SendIsARun | src/consus_elexon_settlement/outbound/sender.py:99-166 | One undisturbed call of send is a run of the machine, as far as it gets. |
| SendRuns.SendReturnsWhen | src/consus_elexon_settlement/outbound/sender.py:99-166 | A send returns, delivered or not, exactly when the reservation succeeds, the file is built and its footer can be read back: nothing after that can fail. |
| SendRuns.Gateway.Send | src/consus_elexon_settlement/outbound/sender.py:99-166 | Reserve, render, archive, record and hand over in place: the new rows, archive and wire, and the result, also where a step raises. |
| SendRuns.Gateway.Retry | src/consus_elexon_settlement/outbound/sender.py:168-200 | Looks the file up, reads its bytes back and hands them over, or raises and changes nothing. |
| SendRuns.Gateway.DeliverFile | src/consus_elexon_settlement/outbound/sender.py:202-216 | One hand-off and the record of its outcome. |
| Sender.DeclaredOfBuilt | src/consus_elexon_settlement/outbound/sender.py:219-247 | What is recorded from the footer of a built file is its number of records and the checksum of those before the footer. |
| Sender.RetryReadsTheStore | src/consus_elexon_settlement/archive.py:100-107 | What a retry reads is what the archive gives for the URI of the row. |
| Sender.NetaOfficeIsSound | src/consus_elexon_settlement/outbound/sender.py:124-150 | Building, archive keys, URIs and the header read back meet what the machine asks: distinct keys, URIs that lead back, and bytes that carry their number. |
| Sender.FilesAreSentAsBuilt | src/consus_elexon_settlement/outbound/sender.py:99-216 | For every run of senders, failures and retries of NETA files: each hand-off is the bytes under the file's key, their header has the row's sequence number, and hand-offs of one file are identical. |
| Items.ItemTables.SubmitItems | src/consus_elexon_settlement/db.py:416-448 | Moves the pending items of one table and file, and their pending periods, in two updates. |
| Items.ItemTables.Reject | src/consus_elexon_settlement/db.py:326-355 | Rejects a notification with its periods and the loop of named reasons, or changes nothing. |
| Items.ItemTables.AcceptItem | src/consus_elexon_settlement/db.py:631-637 | Accepts an item and its submitted periods, or changes nothing. |
| Items.ItemTables.RejectUnits | src/consus_elexon_settlement/db.py:358-395 | Exactly the wholesale rows still submitted for the period, or for one unit of it, are rejected with the reason cut to 80 characters, and no other row is touched; the unit of each is returned, one for each row. |
| Items.ExplainGivesLast | src/consus_elexon_settlement/db.py:347-355 | A named period ends with the last reason given for it. |
| Items.UnnamedKeepsReason | src/consus_elexon_settlement/db.py:347-355 | A period that is not named keeps what the notification's rejection gave it. |
| ItemRuns.PeriodsAgree | src/consus_elexon_settlement/db.py:315-355 | In every reachable state periods agree with their item: equal for notifications; for expected and delivered volumes equal, or REJECTED under a SUBMITTED or ACCEPTED parent. |
| ItemRuns.ItemsFollowTheWire | src/consus_elexon_settlement/outbound/submissions.py:233-243 | In every reachable state an item, or a period of it, that is not PENDING belongs to a file in SENT, UNACKNOWLEDGED, RECEIPT_ACKED or SUPERSEDED that was handed over successfully. |
| ItemRuns.ClosedForGood | src/consus_elexon_settlement/states.py:103-111 | No feedback, submission or sweep ever moves an item that was accepted or rejected. |
| Together.StepIsSafe | src/consus_elexon_settlement/outbound/submissions.py:74-111 | Senders, crashes, retries, submitters and feedback in one run keep what each relies on: what a send reports to its submitter is so. |
| Together.ItemsWereSent | src/consus_elexon_settlement/outbound/submissions.py:87-99 | In every state that senders and submitters reach together, an item that is not PENDING is in a file with a successful hand-off of its archived bytes, under its name and with its number. |
| SendRuns.StepsGoForward | src/consus_elexon_settlement/outbound/sender.py:99-216 | Every step of any sender only moves files forward and the wire on, which is all that items rely on. |
| SendRuns.SendWentOut | src/consus_elexon_settlement/outbound/sender.py:99-166 | A send that returns delivered has put its file on the wire and its row in SENT. |
| SendRuns.NotedWentOut | src/consus_elexon_settlement/outbound/sender.py:202-216 | So does the last step of a send or a retry that other steps came between. |
| Intents.ResolveMeans | src/consus_elexon_settlement/intents.py:178-216 | The derived state is ACTED exactly when every flow is accepted, terminal only then or past the deadline, and waiting or partly rejected when nothing can be retried. |
| Intents.RetryableFlows | src/consus_elexon_settlement/intents.py:219-229 | Lists exactly the flows that are PENDING or FAILED, each once. |
| IntentService.CommandIsSafe | src/consus_elexon_settlement/service.py:112-286 | Files, items, flows and intents stay consistent under act, retry, reconcile, feedback and whatever submissions go on beside them. |
| IntentService.ActedMeansAccepted | src/consus_elexon_settlement/service.py:470-497 | In every reachable state an ACTED intent has all three flows ACCEPTED, each with a file and one item behind it, and that item is ACCEPTED. |
| IntentService.ReconcileActs | src/consus_elexon_settlement/service.py:499-553 | Reconciling a file of an open intent makes it ACTED exactly when the item behind the file is accepted and the other two flows are. |
| IntentService.IntentsFollowFlows | src/consus_elexon_settlement/service.py:470-497 | In every run an intent that is not terminal is in the state its flows resolve to: the stored state never disagrees with the flows. |
| IntentService.FinalForGood | src/consus_elexon_settlement/service.py:499-553 | Over any run terminal intents and ACCEPTED or REJECTED flows are never touched again, and the file of a flow never changes. |
| IntentService.CallsAreDisciplined | src/consus_elexon_settlement/service.py:199-272 | Each act or retry hands over only for flows that were PENDING or FAILED when it began, each at most once, with the file the flow has or a new one, strictly before gate closure; nothing else in the service hands anything over. |
| IntentService.RetryDiscipline | src/consus_elexon_settlement/service.py:199-286 | Over any run every hand-off is before its gate closure, and once a flow has a file only that file is ever handed over for it. |
| IntentService.RepeatsChangeNothing | src/consus_elexon_settlement/service.py:112-154 | A stream of acts with repeated keys, among retries and feedback, leads to the same books, calls and wire as the stream without the later repeats. |
| IntentService.StrandedForGood | src/consus_elexon_settlement/outbound/submissions.py:217-231 | Once the first delivery of a flow has failed, no run of retries and feedback makes its intent ACTED: the resend leaves the item PENDING. |
| IntentService.FailedDeliveryStrands | src/consus_elexon_settlement/outbound/submissions.py:87-99 | A first send that returns undelivered leaves a flow in just that position. |
| IntentService.ReconcileWritesPending | src/consus_elexon_settlement/service.py:641-673 | Reconciling such a file writes PENDING back to the flow, even after a delivered resend. |
| Outcomes.CanStillAct | src/consus_elexon_settlement/service.py:499-553 | An open intent with its three files can still become ACTED if and only if no flow is stranded and no item rejected: then answers reconciled before gate closure bring it there, and otherwise no run of any commands does. |
| Outcomes.DeclinedForGood | src/consus_elexon_settlement/service.py:499-553 | Once the item of a flow is rejected, no run makes its intent ACTED. |
| Outcomes.StrandedGoesBack | src/consus_elexon_settlement/service.py:641-673 | An open intent whose three first deliveries failed returns to RECEIVED when its files are reconciled, whatever was resent meanwhile. |
| Outcomes.ReconcileChange | src/consus_elexon_settlement/service.py:499-553 | Reconciling makes an intent ACTED only from ACTING, and RECEIVED exactly when the flow is stranded, the others are pending and the gate is open. |
| Outcomes.ChangesOffTheTable | src/consus_elexon_settlement/intents.py:123-130 | In every reachable state and for every command, the only changes of an intent's state outside its transition table are RECEIVED to PARTIAL by a retry, and PARTIAL or ACTING to RECEIVED by a reconciliation. |
| Outcomes.FirstChange | src/consus_elexon_settlement/service.py:112-154 | A new intent goes from RECEIVED to ACTING or PARTIAL, or to MISSED after gate closure. |
| ServiceLoops.Service.SendOutstanding | src/consus_elexon_settlement/service.py:220-265 | The loop over the outstanding flows, each resent or built and recorded, computes the pass. |
| ServiceLoops.Service.InsertFlows | src/consus_elexon_settlement/service.py:586-594 | Inserts the missing flow rows as PENDING and leaves those that are there. |
| ServiceLoops.Service.ActOn | src/consus_elexon_settlement/service.py:112-154 | Records an intent or recognises its key, checks the deadline, sends, and settles the state. |
| ServiceLoops.Service.RetryIntent | src/consus_elexon_settlement/service.py:156-197 | Refuses unknown and terminal intents, misses late ones, and otherwise sends what is outstanding. |
| ServiceLoops.Service.ReconcileFile | src/consus_elexon_settlement/service.py:499-553 | Reads the flow's state back from the items and settles the intent, unless it is terminal. |
| Submissions.SubmitterIsSound | src/consus_elexon_settlement/outbound/submissions.py:74-243 | Sending, inserting one row and marking it if delivered keeps the submitter's side: one new file, at most one hand-off, one row for it, submitted only if delivered. |
| Submissions.KeysCollide | src/consus_elexon_settlement/service.py:298-320 | Two intents have one notification key if and only if day, period, revision and both authorisation ids agree; they are then the same intent only if the unit agrees too. |
| Submissions.EcvnIsRecordedWhen | src/consus_elexon_settlement/outbound/submissions.py:113-136 | An ECVN whose send returned is recorded under its file if and only if its key is new; otherwise it has been handed over all the same, no row exists for its file, and the flow is FAILED with no file, so the next retry sends another. |
| Submissions.EcvnIsLostWhen | src/consus_elexon_settlement/outbound/submissions.py:113-136 | Over any list of submissions: an ECVN handed over is lost if and only if one recorded before it was for the same day, period, revision and authorisation, whatever its unit. |
| Submissions.SentFileGoesOutAgain | src/consus_elexon_settlement/outbound/sender.py:193-216 | Resending a file already in SENT hands it over once more and leaves the flow FAILED. |
| Journeys.GatewayIntentGetsActed | src/consus_elexon_settlement/service.py:112-154 | For every intent whose ECVN and WMAN the gateway can make, before its gate closes, there is a run from empty books to ACTED, with the files built and archived as the gateway does it. |
| Journeys.IntentGetsActed | src/consus_elexon_settlement/service.py:199-286 | The same over any sound office and any jobs that can be built, from any books with room for three files. |
| Journeys.FailedIntentGoesBack | src/consus_elexon_settlement/service.py:199-286 | A run in which all three deliveries fail is PARTIAL after the first attempt and RECEIVED after its files are reconciled: two changes off the table, both reachable. |
| Journeys.GatewayLosesSecondUnit | src/consus_elexon_settlement/outbound/submissions.py:113-136 | For every two intents on two units with one business key: submitted from an empty depot, the second ECVN is handed over and lost. |
| Journeys.ReferenceFits | src/consus_elexon_settlement/service.py:304-310 | The reference code of an ECVN fits its ten characters if and only if the revision is below 100. |
| Delivered.GroupByIs | src/consus_elexon_settlement/flows/delivered.py:150-153 | The ordered dictionary filled pair by pair has one entry for each distinct key in first-seen order, holding the pairs of that key in order. |
| Delivered.FillTree | src/consus_elexon_settlement/flows/delivered.py:150-153 | The loop over nested ordered dictionaries groups by GSP group and, within each, by BM Unit. |
| Delivered.RegroupingPermutes | src/consus_elexon_settlement/flows/delivered.py:142-175 | Regrouping neither loses nor invents a pair, and regrouping the result changes nothing. |
| Delivered.RegroupingIsStable | src/consus_elexon_settlement/flows/delivered.py:142-175 | Within each group and unit the pairs keep their order; there is one node for each distinct group and unit, in first-seen order. |
| Delivered.NodesReadBack | src/consus_elexon_settlement/flows/delivered.py:200-237 | from_nodes of to_nodes is the notification with its pairs regrouped, and passes the constructor. |
| SpecGenerator.ParsedForests | tools/gen_spec.py:118-207 | For every accepted sheet, the records of each flow in preorder are its record rows; every record is nested in, and every item is in, the latest record still open; items have distinct keys in row order; no row is lost. |
| SpecGenerator.ParsedLevelsIncrease | tools/gen_spec.py:155-162 | Levels strictly increase from a record to the records in it. |
| SpecGenerator.AcceptedSheets | tools/gen_spec.py:124-207 | A sheet is accepted if and only if every row fits: it has a level and a file type before it, a record is marked G, an item has an owner, a known presence and a key new to its owner. |
| SpecGenerator.PoppedIsOpen | tools/gen_spec.py:155-171 | After popping, the stack holds exactly the records that no row since, nor the row itself, has closed. |
| SpecGenerator.ParseRows | tools/gen_spec.py:118-207 | The loop with the stack popped in place computes the parser. |
| Deadlines.NextBeginsAtEnd | src/consus_elexon_settlement/deadlines.py:74-92 | A period ends where the next begins, across midnight too. |
| Deadlines.ClosuresIncrease | src/consus_elexon_settlement/deadlines.py:95-97 | Periods do not overlap, and starts and gate closures are strictly in order of date and period, both ways. |
| Deadlines.PeriodsTile | src/consus_elexon_settlement/deadlines.py:51-92 | Every instant lies in one period and no other. |
| Deadlines.OpenPeriods | src/consus_elexon_settlement/deadlines.py:177-196 | Returns in order and without repeats exactly the periods of three days whose gates close within the horizon. |
| Deadlines.ThreeDaysSuffice | src/consus_elexon_settlement/deadlines.py:177-196 | Those are all the periods closing within the horizon if and only if it ends before the first gate of the fourth day. |
| Deadlines.FortyFiveHoursSuffice | src/consus_elexon_settlement/deadlines.py:177-196 | Which is so for every horizon up to 45 hours, whatever the clocks do. |
| Deadlines.LongerHorizonMisses | src/consus_elexon_settlement/deadlines.py:177-196 | And for no longer one: with two short days to come, a period is missed. |

## Left out

- FTP, GPG, GCS, Pub/Sub, HTTP, command line and environment wiring: input and output only.
- Postgres itself: rows, row locks, conditional updates, commit and rollback are modelled, SQL is not. Waiting is an
  action that is not enabled; deadlock detection is not modelled.
- Time zones: a datetime is aware and in GMT, or naive; conversion from other zones is not modelled, and `strftime`
  is taken to pad the year to four digits.
- The reader of decimals and dates is strict, where `Decimal()` and `strptime` accept more; nothing is claimed about
  building what was parsed. `int()` is modelled with its spaces, sign and underscores.
- Decimal exponents are unbounded: the limits of the decimal context are not modelled.
- The generated spec tables: the theorems hold for all well-formed flows, and only E0041001 and E0511001 are written
  out. The SVAA spec is not part of this model.
- SpecGenerator.ParseRows: the dictionaries that the original nests by reference are values, and the stack holds row
  numbers; aliasing between the stack and the forest is expressed by the spine of the forest.
- The slug of an item name in `tools/gen_spec.py`: a row carries its key. Text emission is pure formatting.
- Router, receiver, handlers, ADT replies, EMS events and migrations: field mapping, lookups and logging; feedback
  enters as the database functions it ends in.
- `deliver` and `register_default_sev`: the same send, record and mark, without flows to resolve.
- Acts, retries and feedback are atomic commands; interleaving is modelled for the counter, the file states, the
  senders and the items.
- ServiceLoops.Service.ActOn: attempts and time stamps of intents and the detail text are not kept.
- `mark_unacknowledged` alerts and the urgency levels of a deadline: wording and thresholds only.
