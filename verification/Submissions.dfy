// The submitter behind the service: a file sent, its row inserted, and marked if it was delivered.
module Submissions {
  import opened Wrappers
  import opened Digits
  import opened Checksum
  import opened Fields
  import opened FileTables
  import opened SendRuns
  import opened Items
  import opened Intents
  import opened IntentService

  // --- keys -----------------------------------------------------------------------------

  // str.format with 02d
  function TwoDigits(n: nat): string {
    if n < 10 then "0" + NatText(n) else NatText(n)
  }

  // The reference code of an intent's ECVN: date, period and revision.
  function Reference(i: Intent): string
    requires i.Valid()
  {
    TwoDigits(i.day.year % 100) + TwoDigits(i.day.month) + TwoDigits(i.day.day) + TwoDigits(i.slot) + TwoDigits(i.revision)
  }

  function KeyOf(i: Intent): BusinessKey {
    BusinessKey(i.ecvnaaId, i.ecvnEcvnaaId, if i.Valid() then Reference(i) else "", i.day)
  }

  // Texts that read back tell the numbers apart.
  lemma TwoDigitsDiffer(m: nat, n: nat)
    requires TwoDigits(m) == TwoDigits(n)
    ensures m == n
  {
    TwoDigitsRead(m);
    TwoDigitsRead(n);
  }

  lemma TwoDigitsRead(n: nat)
    ensures AllDigits(TwoDigits(n)) && Digits.Value(TwoDigits(n)) == n
    ensures n < 100 ==> |TwoDigits(n)| == 2
  {
    DigitCount(n, 1);
    DigitCount(n, 2);
    assert Pow10(2) == 100 && Pow10(1) == 10;
    if n < 10 {
      var t := NatText(n);
      assert t == [t[0]] && ("0" + t)[..1] == "0" && ("0" + t)[1] == t[0];
    }
  }

  lemma SamePrefix(p: string, a: string, b: string, x: string, y: string)
    requires |a| == |b| && p + a + x == p + b + y
    ensures a == b && x == y
  {
    var s, t := p + a + x, p + b + y;
    assert a == s[|p|..|p| + |a|] && b == t[|p|..|p| + |b|];
    assert x == s[|p| + |a|..] && y == t[|p| + |b|..];
  }

  // The day is in the key beside the reference; the reference tells period and revision apart.
  lemma ReferencesDiffer(i: Intent, j: Intent)
    requires i.Valid() && j.Valid() && i.day == j.day
    ensures Reference(i) == Reference(j) <==> i.slot == j.slot && i.revision == j.revision
  {
    var p := TwoDigits(i.day.year % 100) + TwoDigits(i.day.month) + TwoDigits(i.day.day);
    assert Reference(i) == p + TwoDigits(i.slot) + TwoDigits(i.revision);
    assert Reference(j) == p + TwoDigits(j.slot) + TwoDigits(j.revision);
    TwoDigitsRead(i.slot);
    TwoDigitsRead(j.slot);
    if Reference(i) == Reference(j) {
      SamePrefix(p, TwoDigits(i.slot), TwoDigits(j.slot), TwoDigits(i.revision), TwoDigits(j.revision));
      TwoDigitsDiffer(i.slot, j.slot);
      TwoDigitsDiffer(i.revision, j.revision);
    }
  }

  predicate SameBusiness(i: Intent, j: Intent) {
    && i.day == j.day && i.slot == j.slot && i.revision == j.revision
    && i.ecvnaaId == j.ecvnaaId && i.ecvnEcvnaaId == j.ecvnEcvnaaId
  }

  // Two notifications have one key exactly when day, period, revision and authorisation ids are the same:
  // the unit is in no part of it, though it tells intents apart.
  lemma KeysCollide(i: Intent, j: Intent)
    requires i.Valid() && j.Valid()
    ensures KeyOf(i) == KeyOf(j) <==> SameBusiness(i, j)
    ensures KeyOf(i) == KeyOf(j) ==> (i.TheKey() == j.TheKey() <==> i.unit == j.unit)
  {
    if i.day == j.day {
      ReferencesDiffer(i, j);
    }
  }

  // --- submitting -------------------------------------------------------------------------

  function NewRow(i: Intent, f: FlowName, file: nat): Item {
    var unit, slot := i.unit, if i.slot > 0 then i.slot else 0;
    var periods := if f.WmanFlow? then map[] else map[slot := Period(Pending, None)];
    Item(TableOf(f), file, i.day, slot, unit, Pending, None, periods)
  }

  // The rows of one submission: the notification's key is unique.
  function InsertRow(d: Depot, i: Intent, f: FlowName, file: nat): Option<Depot> {
    if f.EcvnFlow? && KeyOf(i) in d.keys then None
    else Some(d.(items := d.items[d.nextItem := NewRow(i, f, file)], nextItem := d.nextItem + 1,
                 keys := if f.EcvnFlow? then d.keys + {KeyOf(i)} else d.keys))
  }

  // _mark
  function Marked(d: Depot, f: FlowName, file: nat, delivered: bool): Depot {
    if delivered then d.(items := Submit(d.items, TableOf(f), file)) else d
  }

  // What follows a send that returned.
  function Enter(d: Depot, world: World, sending: Sending, i: Intent, f: FlowName, delivered: bool): (Depot, Sending) {
    match sending
    case Raised => (d.(world := world), Raised)
    case Done(file, _) =>
      match InsertRow(d.(world := world), i, f, file)
      case None => (d.(world := world), Raised)
      case Some(inserted) => (Marked(inserted, f, file, delivered), sending)
  }

  // wman, ecvn and sev: the file is sent before any row is inserted.
  function SubmitWhole(o: Office, job: Option<Job>, d: Depot, i: Intent, f: FlowName, delivered: bool,
                       at: int): (Depot, Sending) {
    match job
    case None => (d, Raised)
    case Some(j) =>
      var (world, sending) := SendWhole(o, d.world, j, delivered, at);
      Enter(d, world, sending, i, f, delivered)
  }

  function ResendWhole(o: Office, d: Depot, file: nat, delivered: bool, at: int): (Depot, Sending) {
    var (world, sending) := RetryWhole(o, d.world, file, delivered, at);
    (d.(world := world), sending)
  }

  // The submitter over an office; `jobs` makes the file of a flow, or raises where there is no channel,
  // no key, or no flow of that type.
  function TheSubmitter(o: Office, jobs: (Intent, FlowName, int) -> Option<Job>,
                        closure: (Date, int) -> Option<int>): Submitter {
    Submitter((d: Depot, i: Intent, f: FlowName, delivered: bool, at: int) => SubmitWhole(o, jobs(i, f, at), d, i, f, delivered, at),
              (d: Depot, file: nat, delivered: bool, at: int) => ResendWhole(o, d, file, delivered, at),
              closure)
  }

  // --- it keeps its side --------------------------------------------------------------------

  predicate FilesFit(world: World) {
    forall f :: f in world.t.files ==> f < world.nextId
  }

  predicate OneMore(world: World, after: World, id: nat, delivered: bool) {
    |after.wire| == |world.wire| + 1 && after.wire[|world.wire|].id == id && after.wire[|world.wire|].delivered == delivered
  }

  lemma DeliverMoves(world: World, id: nat, payload: Bytes, delivered: bool, at: int)
    requires id in world.t.files
    ensures var (after, sending) := Deliver(world, id, payload, delivered, at);
            && Forward(world, after) && after.nextId == world.nextId && after.t.files.Keys == world.t.files.Keys
            && OneMore(world, after, id, delivered)
            && (sending == Raised || sending == Done(id, delivered))
  {
    NotedGoesForward(HandedOver(world, id, payload, delivered), id, delivered, at);
  }

  // What a send does to the world: a new id, at most one hand-off and that of the new file.
  predicate SendFits(world: World, after: World, sending: Sending, delivered: bool) {
    && Forward(world, after) && after.nextId == world.nextId + 1 && FilesFit(after)
    && (after.wire == world.wire || OneMore(world, after, world.nextId, delivered))
    && (sending.Done? ==> sending == Done(world.nextId, delivered) && OneMore(world, after, world.nextId, delivered))
  }

  lemma StoredFits(world: World, reserved: World, stored: World, id: nat, payload: Bytes, delivered: bool, at: int)
    requires FilesFit(world) && Forward(world, reserved) && id == world.nextId && id in stored.t.files
    requires reserved.nextId == id + 1 && FilesFit(reserved) && reserved.wire == world.wire
    requires Forward(reserved, stored) && stored.nextId == reserved.nextId
    requires stored.t.files.Keys == reserved.t.files.Keys
    requires stored.wire == reserved.wire
    ensures var (after, sending) := Deliver(stored, id, payload, delivered, at); SendFits(world, after, sending, delivered)
  {
    DeliverMoves(stored, id, payload, delivered, at);
  }

  lemma RecordingFits(o: Office, reserved: World, id: nat, payload: Bytes, count: int, checksum: int)
    requires id in reserved.t.files
    ensures var key := o.KeyOf(reserved.t.files[id], id);
            var stored := reserved.(objects := reserved.objects[key := payload]);
            var recorded := stored.(t := RecordBuilt(stored.t, id, checksum, count, o.uri(key)));
            && Forward(reserved, recorded) && recorded.nextId == reserved.nextId && recorded.wire == reserved.wire
            && recorded.t.files.Keys == reserved.t.files.Keys
            && Forward(reserved, stored)
  {
  }

  lemma ReservingIs(world: World, q: Request)
    requires FilesFit(world)
    ensures var r := Reserving(world, q);
            Forward(world, r) && r.nextId == world.nextId + 1 && FilesFit(r) && r.wire == world.wire
  {
    ReservingGoesForward(world, q);
    if Reserve(world.t, world.nextId, q).Success? {
      ReservedRows(world.t, world.nextId, q);
    }
  }

  lemma SendWholeFits(o: Office, world: World, job: Job, delivered: bool, at: int)
    requires FilesFit(world)
    ensures SendFits(world, SendWhole(o, world, job, delivered, at).0, SendWhole(o, world, job, delivered, at).1, delivered)
  {
    var id, q := world.nextId, RequestFor(job);
    var reserved := Reserving(world, q);
    ReservingIs(world, q);
    if Reserve(world.t, id, q).Success? && id in reserved.t.files {
      var payload := o.render(job, reserved.t.files[id].sequence);
      var key := o.KeyOf(reserved.t.files[id], id);
      if payload.Some? && key !in reserved.objects {
        RecordingFits(o, reserved, id, payload.value, 0, 0);
        if o.declared(payload.value).Some? {
          var (count, checksum) := o.declared(payload.value).value;
          RecordingFits(o, reserved, id, payload.value, count, checksum);
          var stored := reserved.(objects := reserved.objects[key := payload.value]);
          StoredFits(world, reserved, stored.(t := RecordBuilt(stored.t, id, checksum, count, o.uri(key))), id, payload.value, delivered, at);
        }
      }
    }
  }

  lemma RetryWholeFits(o: Office, world: World, id: nat, delivered: bool, at: int)
    requires FilesFit(world)
    ensures var (after, sending) := RetryWhole(o, world, id, delivered, at);
            && Forward(world, after) && after.nextId == world.nextId && FilesFit(after)
            && (after.wire == world.wire || OneMore(world, after, id, delivered))
            && (sending.Done? ==> sending == Done(id, delivered) && OneMore(world, after, id, delivered))
  {
    if RetryPayload(o, world, id).Some? {
      DeliverMoves(world, id, RetryPayload(o, world, id).value, delivered, at);
    }
  }

  // A row inserted for a new file is the only one of its file.
  lemma InsertedRow(d: Depot, world: World, i: Intent, f: FlowName, delivered: bool)
    requires DepotFits(d) && Forward(d.world, world) && world.nextId == d.world.nextId + 1 && FilesFit(world)
    requires InsertRow(d.(world := world), i, f, d.world.nextId).Some?
    ensures var after := Marked(InsertRow(d.(world := world), i, f, d.world.nextId).value, f, d.world.nextId, delivered);
            && Grown(d, after) && after.world == world
            && RowsOf(after.items, d.world.nextId, TableOf(f)) == {d.nextItem}
            && Behind(after.items, d.world.nextId, f, if delivered then Submitted else Pending)
  {
    var file := d.world.nextId;
    var inserted := InsertRow(d.(world := world), i, f, file).value;
    var after := Marked(inserted, f, file, delivered);
    assert after.items.Keys == d.items.Keys + {d.nextItem};
    forall j | j in d.items ensures after.items[j] == d.items[j] {
      assert d.items[j].file < file;
    }
    assert after.items[d.nextItem].file == file && after.items[d.nextItem].table == TableOf(f);
  }

  lemma EnterFits(d: Depot, world: World, sending: Sending, i: Intent, f: FlowName, delivered: bool)
    requires DepotFits(d) && SendFits(d.world, world, sending, delivered)
    ensures SubmitFits(d, f, Enter(d, world, sending, i, f, delivered), delivered)
  {
    assert Grown(d, d.(world := world));
    if sending.Done? && InsertRow(d.(world := world), i, f, d.world.nextId).Some? {
      InsertedRow(d, world, i, f, delivered);
    }
  }

  lemma SubmitKeeps(o: Office, job: Option<Job>, d: Depot, i: Intent, f: FlowName, delivered: bool, at: int)
    requires DepotFits(d)
    ensures SubmitFits(d, f, SubmitWhole(o, job, d, i, f, delivered, at), delivered)
  {
    if job.Some? {
      var (world, sending) := SendWhole(o, d.world, job.value, delivered, at);
      SendWholeFits(o, d.world, job.value, delivered, at);
      EnterFits(d, world, sending, i, f, delivered);
    }
  }

  lemma ResendKeeps(o: Office, d: Depot, file: nat, delivered: bool, at: int)
    requires DepotFits(d)
    ensures ResendFits(d, file, ResendWhole(o, d, file, delivered, at), delivered)
  {
    RetryWholeFits(o, d.world, file, delivered, at);
  }

  lemma SubmitterIsSound(o: Office, jobs: (Intent, FlowName, int) -> Option<Job>, closure: (Date, int) -> Option<int>)
    ensures TheSubmitter(o, jobs, closure).Sound()
  {
    var s := TheSubmitter(o, jobs, closure);
    forall d: Depot, i: Intent, f: FlowName, ok: bool, at: int | DepotFits(d) ensures SubmitFits(d, f, s.submit(d, i, f, ok, at), ok) {
      SubmitKeeps(o, jobs(i, f, at), d, i, f, ok, at);
    }
    forall d: Depot, file: nat, ok: bool, at: int | DepotFits(d) ensures ResendFits(d, file, s.resend(d, file, ok, at), ok) {
      ResendKeeps(o, d, file, ok, at);
    }
  }

  // --- ECVNs and their rows -----------------------------------------------------------------

  // What becomes of an ECVN whose send returned: exactly when its key is new it is recorded, under the
  // file it went out in; otherwise it has been handed over too, but no row is inserted, and the flow is
  // FAILED without a file, so that the next retry sends another.
  lemma EcvnIsRecordedWhen(o: Office, job: Job, d: Depot, i: Intent, row: FlowRow, delivered: bool, at: int)
    requires DepotFits(d) && row.file.None? && SendWhole(o, d.world, job, delivered, at).1.Done?
    ensures var r := SubmitWhole(o, Some(job), d, i, EcvnFlow, delivered, at);
            && HandsOver(d, r.0, d.world.nextId, delivered)
            && (r.1.Done? <==> KeyOf(i) !in d.keys)
            && r.0.keys == d.keys + {KeyOf(i)}
            && (KeyOf(i) !in d.keys ==>
                  && RecordFlow(row, r.1).file == Some(d.world.nextId)
                  && exists n :: RowsOf(r.0.items, d.world.nextId, Notification) == {n})
            && (KeyOf(i) in d.keys ==>
                  && RecordFlow(row, r.1) == FlowRow(FlowFailed, None, row.attempts + 1)
                  && r.0.items == d.items && RowsOf(r.0.items, d.world.nextId, Notification) == {})
  {
    SendWholeFits(o, d.world, job, delivered, at);
    SubmitKeeps(o, Some(job), d, i, EcvnFlow, delivered, at);
    if KeyOf(i) in d.keys {
      assert forall n :: n in d.items ==> d.items[n].file < d.world.nextId;
    }
  }

  // One submission after another.
  datatype Submission = Submission(job: Option<Job>, intent: Intent, flow: FlowName, delivered: bool, at: int)

  function SubmitOne(o: Office, d: Depot, s: Submission): (Depot, Sending) {
    SubmitWhole(o, s.job, d, s.intent, s.flow, s.delivered, s.at)
  }

  function SubmitAll(o: Office, d: Depot, list: seq<Submission>): Depot {
    if list == [] then d else SubmitOne(o, SubmitAll(o, d, list[..|list| - 1]), list[|list| - 1]).0
  }

  // The intents whose ECVNs were recorded, in order.
  function RecordedEcvns(o: Office, d: Depot, list: seq<Submission>): seq<Intent> {
    if list == [] then []
    else
      var front, last := list[..|list| - 1], list[|list| - 1];
      RecordedEcvns(o, d, front)
      + if last.flow.EcvnFlow? && SubmitOne(o, SubmitAll(o, d, front), last).1.Done? then [last.intent] else []
  }

  lemma {:induction false} SubmitAllFits(o: Office, d: Depot, list: seq<Submission>)
    requires DepotFits(d)
    ensures DepotFits(SubmitAll(o, d, list))
  {
    if list != [] {
      var n := |list| - 1;
      SubmitAllFits(o, d, list[..n]);
      SubmitKeeps(o, list[n].job, SubmitAll(o, d, list[..n]), list[n].intent, list[n].flow, list[n].delivered, list[n].at);
    }
  }

  function KeysOf(intents: seq<Intent>): set<BusinessKey> {
    set i | i in intents :: KeyOf(i)
  }

  lemma KeysOfMore(intents: seq<Intent>, more: seq<Intent>)
    ensures KeysOf(intents + more) == KeysOf(intents) + KeysOf(more)
  {
    forall i | i in intents ensures KeyOf(i) in KeysOf(intents + more) {
      assert i in intents + more;
    }
    forall i | i in more ensures KeyOf(i) in KeysOf(intents + more) {
      assert i in intents + more;
    }
  }

  // The keys of a depot that began without any are those of the ECVNs recorded in it.
  lemma {:induction false} KeysAreRecorded(o: Office, d: Depot, list: seq<Submission>)
    requires d.keys == {}
    ensures SubmitAll(o, d, list).keys == KeysOf(RecordedEcvns(o, d, list))
  {
    if list != [] {
      var front, last := list[..|list| - 1], list[|list| - 1];
      KeysAreRecorded(o, d, front);
      SubmittedKeys(o, SubmitAll(o, d, front), last);
      KeysOfMore(RecordedEcvns(o, d, front), [last.intent]);
      assert KeysOf([last.intent]) == {KeyOf(last.intent)};
    }
  }

  lemma {:induction false} RecordedAreValid(o: Office, d: Depot, list: seq<Submission>)
    requires forall k :: 0 <= k < |list| ==> list[k].intent.Valid()
    ensures forall i :: i in RecordedEcvns(o, d, list) ==> i.Valid()
  {
    if list != [] {
      RecordedAreValid(o, d, list[..|list| - 1]);
    }
  }

  lemma SubmittedKeys(o: Office, d: Depot, s: Submission)
    ensures var r := SubmitOne(o, d, s);
            r.0.keys == if s.flow.EcvnFlow? && r.1.Done? then d.keys + {KeyOf(s.intent)} else d.keys
  {
  }

  // Over any list of submissions: an ECVN that is handed over is lost, without a row, exactly when one
  // recorded before it was for the same day, period, revision and authorisation, whatever its unit.
  lemma EcvnIsLostWhen(o: Office, d: Depot, list: seq<Submission>, s: Submission)
    requires DepotFits(d) && d.keys == {} && s.flow.EcvnFlow? && s.job.Some?
    requires s.intent.Valid() && forall k :: 0 <= k < |list| ==> list[k].intent.Valid()
    requires SendWhole(o, SubmitAll(o, d, list).world, s.job.value, s.delivered, s.at).1.Done?
    ensures var before := SubmitAll(o, d, list);
            var (after, sending) := SubmitOne(o, before, s);
            && HandsOver(before, after, before.world.nextId, s.delivered)
            && (sending == Raised <==> exists j :: j in RecordedEcvns(o, d, list) && SameBusiness(j, s.intent))
  {
    SubmitAllFits(o, d, list);
    EcvnIsRecordedWhen(o, s.job.value, SubmitAll(o, d, list), s.intent, FlowRow(FlowPending, None, 0), s.delivered, s.at);
    KeysAreRecorded(o, d, list);
    RecordedAreValid(o, d, list);
    SameKeyIn(RecordedEcvns(o, d, list), s.intent);
  }

  lemma SameKeyIn(intents: seq<Intent>, i: Intent)
    requires i.Valid() && forall j :: j in intents ==> j.Valid()
    ensures KeyOf(i) in KeysOf(intents) <==> exists j :: j in intents && SameBusiness(j, i)
  {
    forall j | j in intents ensures KeyOf(j) == KeyOf(i) <==> SameBusiness(j, i) {
      KeysCollide(j, i);
    }
  }

  // A file that is already in SENT goes out once more, and the flow is recorded as failed.
  lemma SentFileGoesOutAgain(o: Office, d: Depot, file: nat, row: FlowRow, delivered: bool, at: int)
    requires o.Sound() && WorldFits(o, d.world) && RetryPayload(o, d.world, file).Some?
    requires d.world.t.files[file].state == Sent && row.file == Some(file)
    ensures var r := ResendWhole(o, d, file, delivered, at);
            && HandsOver(d, r.0, file, delivered)
            && RecordFlow(row, r.1) == FlowRow(FlowFailed, Some(file), row.attempts + 1)
  {
    RetrySendsTheSameBytes(o, d.world, file, delivered, at);
  }
}
