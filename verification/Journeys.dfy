// Runs of the whole service from empty books: an intent that is acted, one whose deliveries fail, and a
// second unit whose notification is lost.
module Journeys {
  import opened Wrappers
  import opened Digits
  import opened Checksum
  import opened Fields
  import opened FileCodec
  import opened FileTables
  import opened Intents
  import opened IntentService
  import opened Submissions
  import opened Outcomes
  import A = Archive
  import B = BuildSuccess
  import D = Decimals
  import N = Notifications
  import P = Sender
  import S = SendRuns
  import I = Items

  // --- room for more files ---------------------------------------------------------------

  // Ids and numbers are left for so many files, and no number of a channel has been given twice.
  predicate Room(world: S.World, channels: set<nat>, n: nat) {
    && world.nextId + n <= Pow10(12)
    && (forall c :: c in channels ==> c in world.t.next && world.t.next[c] + n <= MAX_SEQUENCE)
    && (forall f :: f in world.t.files ==>
          && f < world.nextId
          && (world.t.files[f].channel in channels ==> world.t.files[f].sequence < world.t.next[world.t.files[f].channel]))
  }

  // A first file on one of these channels that can be built with any number.
  ghost predicate Goes(o: S.Office, job: S.Job, channels: set<nat>) {
    && job.channel.id in channels && |job.channel.fromRole| == 2 && job.supersedes.None?
    && forall n: Sequence :: S.Sendable(o, job, n)
  }

  predicate InOrder(o: S.Office, world: S.World) {
    S.WorldFits(o, world) && S.WireFits(o, world)
  }

  lemma NameFits(role: string, id: nat)
    requires |role| == 2 && id < Pow10(12)
    ensures MakeFilename(role, id).Some?
  {
    DigitCount(id, 12);
  }

  lemma RoomToReserve(world: S.World, channels: set<nat>, n: nat, q: Request)
    requires Room(world, channels, n + 1) && q.channel in channels && |q.roleCode| == 2 && q.supersedes.None?
    ensures Reserve(world.t, world.nextId, q).Success?
    ensures var t := Reserve(world.t, world.nextId, q).value;
            && t.next == world.t.next[q.channel := world.t.next[q.channel] + 1]
            && t.files.Keys == world.t.files.Keys + {world.nextId}
            && t.files[world.nextId].channel == q.channel && t.files[world.nextId].sequence == world.t.next[q.channel]
            && forall f :: f in world.t.files ==> t.files[f] == world.t.files[f]
  {
    NameFits(q.roleCode, world.nextId);
    assert world.nextId !in world.t.files;
  }

  // Nothing but states, checksums and URIs of rows changes.
  predicate SameNumbers(world: S.World, after: S.World) {
    && after.nextId == world.nextId && after.t.next == world.t.next && after.t.files.Keys == world.t.files.Keys
    && forall f :: f in world.t.files ==>
         after.t.files[f].channel == world.t.files[f].channel && after.t.files[f].sequence == world.t.files[f].sequence
  }

  lemma DeliveryKeepsNumbers(world: S.World, id: nat, payload: Bytes, delivered: bool, at: int)
    requires id in world.t.files
    ensures SameNumbers(world, S.Deliver(world, id, payload, delivered, at).0)
  {
  }

  lemma RecordingKeepsNumbers(world: S.World, id: nat, checksum: int, count: int, uri: string)
    ensures SameNumbers(world, world.(t := RecordBuilt(world.t, id, checksum, count, uri)))
  {
  }

  lemma SentTables(o: S.Office, world: S.World, job: S.Job, delivered: bool, at: int)
    requires Reserve(world.t, world.nextId, S.RequestFor(job)).Success?
    ensures SameNumbers(S.Reserving(world, S.RequestFor(job)), S.SendWhole(o, world, job, delivered, at).0)
  {
    var id, reserved := world.nextId, S.Reserving(world, S.RequestFor(job));
    if id in reserved.t.files {
      var payload := o.render(job, reserved.t.files[id].sequence);
      if payload.Some? && o.declared(payload.value).Some? {
        var stored := reserved.(objects := reserved.objects[o.KeyOf(reserved.t.files[id], id) := payload.value]);
        var uri := o.uri(o.KeyOf(reserved.t.files[id], id));
        var (count, checksum) := o.declared(payload.value).value;
        RecordingKeepsNumbers(stored, id, checksum, count, uri);
        DeliveryKeepsNumbers(stored.(t := RecordBuilt(stored.t, id, checksum, count, uri)), id, payload.value, delivered, at);
      }
    }
  }

  lemma RoomLeft(world: S.World, reserved: S.World, after: S.World, channels: set<nat>, n: nat, c: nat)
    requires Room(world, channels, n + 1) && c in channels && SameNumbers(reserved, after)
    requires reserved.nextId == world.nextId + 1 && reserved.t.next == world.t.next[c := world.t.next[c] + 1]
    requires reserved.t.files.Keys == world.t.files.Keys + {world.nextId}
    requires reserved.t.files[world.nextId].channel == c && reserved.t.files[world.nextId].sequence == world.t.next[c]
    requires forall f :: f in world.t.files ==> reserved.t.files[f] == world.t.files[f]
    ensures Room(after, channels, n)
  {
  }

  lemma RoomAfterSend(o: S.Office, world: S.World, channels: set<nat>, n: nat, job: S.Job, delivered: bool, at: int)
    requires Room(world, channels, n + 1)
    requires job.channel.id in channels && |job.channel.fromRole| == 2 && job.supersedes.None?
    ensures Room(S.SendWhole(o, world, job, delivered, at).0, channels, n)
  {
    RoomToReserve(world, channels, n, S.RequestFor(job));
    SentTables(o, world, job, delivered, at);
    RoomLeft(world, S.Reserving(world, S.RequestFor(job)), S.SendWhole(o, world, job, delivered, at).0, channels, n, job.channel.id);
  }

  lemma SendIsDone(o: S.Office, world: S.World, channels: set<nat>, n: nat, job: S.Job, delivered: bool, at: int)
    requires o.Sound() && S.WorldFits(o, world) && Room(world, channels, n + 1) && Goes(o, job, channels)
    ensures S.SendWhole(o, world, job, delivered, at).1.Done?
  {
    RoomToReserve(world, channels, n, S.RequestFor(job));
    S.SendReturnsWhen(o, world, job, delivered, at);
  }

  // A send with room to spare returns.
  lemma SendGoes(o: S.Office, world: S.World, channels: set<nat>, n: nat, job: S.Job, delivered: bool, at: int)
    requires o.Sound() && InOrder(o, world) && Room(world, channels, n + 1) && Goes(o, job, channels)
    ensures var (after, sending) := S.SendWhole(o, world, job, delivered, at);
            sending.Done? && InOrder(o, after) && Room(after, channels, n)
  {
    SendIsDone(o, world, channels, n, job, delivered, at);
    S.SendKeepsOrder(o, world, job, delivered, at);
    RoomAfterSend(o, world, channels, n, job, delivered, at);
  }

  // --- one submission ------------------------------------------------------------------------

  lemma SubmissionGoes(o: S.Office, d: Depot, channels: set<nat>, n: nat, job: S.Job, i: Intent, f: FlowName,
                       delivered: bool, at: int)
    requires o.Sound() && DepotFits(d) && InOrder(o, d.world) && Room(d.world, channels, n + 1) && Goes(o, job, channels)
    requires f.EcvnFlow? ==> KeyOf(i) !in d.keys
    ensures var (after, sending) := SubmitWhole(o, Some(job), d, i, f, delivered, at);
            && sending == S.Done(d.world.nextId, delivered) && DepotFits(after)
            && InOrder(o, after.world) && Room(after.world, channels, n)
            && after.keys == if f.EcvnFlow? then d.keys + {KeyOf(i)} else d.keys
  {
    SendGoes(o, d.world, channels, n, job, delivered, at);
    SubmitKeeps(o, Some(job), d, i, f, delivered, at);
  }

  // --- a first pass ----------------------------------------------------------------------------

  // A flow that was sent for the first time: with a file, its item submitted if the file was delivered.
  predicate SentOnce(b: Books, k: (nat, FlowName), delivered: bool) {
    && k in b.flows && b.flows[k].file.Some? && b.flows[k].file.value < b.depot.world.nextId
    && b.flows[k].state == (if delivered then FlowSent else FlowFailed)
    && Behind(b.depot.items, b.flows[k].file.value, k.1, if delivered then I.Submitted else I.Pending)
  }

  lemma SentOnceStill(b: Books, after: Books, k: (nat, FlowName), delivered: bool)
    requires SentOnce(b, k, delivered) && k in after.flows && after.flows[k] == b.flows[k] && Grown(b.depot, after.depot)
    ensures SentOnce(after, k, delivered)
  {
    GrownKeepsRows(b.depot, after.depot, b.flows[k].file.value, TableOf(k.1));
  }

  // The jobs of an intent's flows can all be built.
  ghost predicate JobsGo(o: S.Office, jobs: (Intent, FlowName, int) -> Option<S.Job>, channels: set<nat>, i: Intent,
                         now: int) {
    forall f: FlowName :: jobs(i, f, now).Some? && Goes(o, jobs(i, f, now).value, channels)
  }

  lemma FirstTry(o: S.Office, jobs: (Intent, FlowName, int) -> Option<S.Job>, closure: (Date, int) -> Option<int>,
                 b: Books, id: nat, f: FlowName, delivered: bool, now: int, channels: set<nat>, n: nat)
    requires o.Sound() && DepotFits(b.depot) && InOrder(o, b.depot.world) && Room(b.depot.world, channels, n + 1)
    requires id in b.intents && (id, f) in b.flows && b.flows[(id, f)].file.None?
    requires JobsGo(o, jobs, channels, b.intents[id].intent, now)
    requires f.EcvnFlow? ==> KeyOf(b.intents[id].intent) !in b.depot.keys
    ensures var after := Booked(b, id, f, now, Try(TheSubmitter(o, jobs, closure), b, id, f, delivered, now));
            && SentOnce(after, (id, f), delivered) && Grown(b.depot, after.depot)
            && InOrder(o, after.depot.world) && Room(after.depot.world, channels, n)
            && after.depot.keys <= b.depot.keys + (if f.EcvnFlow? then {KeyOf(b.intents[id].intent)} else {})
  {
    var i := b.intents[id].intent;
    var job := jobs(i, f, now);
    SubmissionGoes(o, b.depot, channels, n, job.value, i, f, delivered, now);
    SubmitKeeps(o, job, b.depot, i, f, delivered, now);
  }

  // The books after a part of a first pass.
  predicate PartSent(o: S.Office, b: Books, id: nat, list: seq<FlowName>, delivered: map<FlowName, bool>,
                     channels: set<nat>, n: nat, key: BusinessKey) {
    && (forall f :: f in list ==> SentOnce(b, (id, f), Answer(delivered, f)))
    && DepotFits(b.depot) && InOrder(o, b.depot.world) && Room(b.depot.world, channels, n)
    && (EcvnFlow !in list ==> key !in b.depot.keys)
  }

  lemma NextTry(o: S.Office, jobs: (Intent, FlowName, int) -> Option<S.Job>, closure: (Date, int) -> Option<int>,
                b: Books, id: nat, front: seq<FlowName>, f: FlowName, delivered: map<FlowName, bool>, now: int,
                channels: set<nat>, n: nat)
    requires o.Sound() && id in b.intents && (id, f) in b.flows && b.flows[(id, f)].file.None? && f !in front
    requires JobsGo(o, jobs, channels, b.intents[id].intent, now)
    requires PartSent(o, b, id, front, delivered, channels, n + 1, KeyOf(b.intents[id].intent))
    ensures var after := Booked(b, id, f, now, Try(TheSubmitter(o, jobs, closure), b, id, f, Answer(delivered, f), now));
            PartSent(o, after, id, front + [f], delivered, channels, n, KeyOf(b.intents[id].intent))
  {
    FirstTry(o, jobs, closure, b, id, f, Answer(delivered, f), now, channels, n);
    var after := Booked(b, id, f, now, Try(TheSubmitter(o, jobs, closure), b, id, f, Answer(delivered, f), now));
    forall g | g in front + [f] ensures SentOnce(after, (id, g), Answer(delivered, g)) {
      if g != f {
        SentOnceStill(b, after, (id, g), Answer(delivered, g));
      }
    }
  }

  lemma {:induction false} FirstPass(o: S.Office, jobs: (Intent, FlowName, int) -> Option<S.Job>,
                                     closure: (Date, int) -> Option<int>, b: Books, id: nat, list: seq<FlowName>,
                                     delivered: map<FlowName, bool>, now: int, channels: set<nat>, n: nat)
    requires o.Sound() && FlowsFit(b) && id in b.intents && NoRepeats(list)
    requires forall f :: f in list ==> (id, f) in b.flows && b.flows[(id, f)].file.None?
    requires JobsGo(o, jobs, channels, b.intents[id].intent, now)
    requires PartSent(o, b, id, [], delivered, channels, n + |list|, KeyOf(b.intents[id].intent))
    ensures PartSent(o, SendAll(TheSubmitter(o, jobs, closure), b, id, list, delivered, now), id, list, delivered,
                     channels, n, KeyOf(b.intents[id].intent))
  {
    if list != [] {
      var s, m := TheSubmitter(o, jobs, closure), |list| - 1;
      var front, f := list[..m], list[m];
      assert list == front + [f];
      SubmitterIsSound(o, jobs, closure);
      FirstPass(o, jobs, closure, b, id, front, delivered, now, channels, n + 1);
      BeforeTry(s, b, id, front, f, delivered, now);
      NextTry(o, jobs, closure, SendAll(s, b, id, front, delivered, now), id, front, f, delivered, now, channels, n);
    }
  }

  // --- the first act ---------------------------------------------------------------------------

  // What it takes for the first attempt at an intent to get three files out.
  ghost predicate CanGo(o: S.Office, jobs: (Intent, FlowName, int) -> Option<S.Job>,
                        closure: (Date, int) -> Option<int>, d: Depot, i: Intent, now: int, channels: set<nat>, n: nat) {
    && o.Sound() && DepotFits(d) && InOrder(o, d.world) && Room(d.world, channels, n + 3)
    && KeyOf(i) !in d.keys && JobsGo(o, jobs, channels, i, now)
    && i.Valid() && closure(i.day, i.slot).Some? && now < closure(i.day, i.slot).value
  }

  lemma ActIsReachable(s: Submitter, d: Depot, i: Intent, delivered: map<FlowName, bool>, now: int)
    requires s.Sound() && DepotFits(d) && i.Valid()
    ensures Reachable(s, Act(s, Start(d), i, delivered, now)) && Safe(Act(s, Start(d), i, delivered, now))
  {
    var c := ActOn(i, delivered, now);
    assert IntentService.Allowed(Start(d), c) && Possible(s, Do(s, Start(d), c), []);
    OneCommand(s, Start(d), c, []);
    ReachableIsSafe(s, Act(s, Start(d), i, delivered, now));
  }

  // The books as the first pass begins.
  function FirstBooks(d: Depot, i: Intent, closure: int): Books {
    Books(d, map[1 := IntentRow(i, Received, closure)],
          map[(1, EcvnFlow) := FlowRow(FlowPending, None, 0), (1, SevFlow) := FlowRow(FlowPending, None, 0),
              (1, WmanFlow) := FlowRow(FlowPending, None, 0)], 2, [])
  }

  const IN_ORDER: seq<FlowName> := [EcvnFlow, SevFlow, WmanFlow]

  lemma FirstBooksAre(d: Depot, i: Intent, closure: int)
    ensures var r := Recorded(Start(d), i, closure); r.(flows := EnsureFlows(r.flows, 1)) == FirstBooks(d, i, closure)
  {
    var r := Recorded(Start(d), i, closure);
    assert EnsureFlows(r.flows, 1) == FirstBooks(d, i, closure).flows;
  }

  lemma FirstList(d: Depot, i: Intent, closure: int)
    ensures RetryableFlows(FlowStates(FirstBooks(d, i, closure), 1)) == IN_ORDER
  {
    AllFlowStates(FirstBooks(d, i, closure), 1);
  }

  lemma FirstBooksFit(d: Depot, i: Intent, closure: int)
    ensures FlowsFit(FirstBooks(d, i, closure)) && NoRepeats(IN_ORDER)
  {
  }

  lemma ActIsAnAttempt(s: Submitter, d: Depot, i: Intent, delivered: map<FlowName, bool>, now: int, c: int)
    requires s.closure(i.day, i.slot) == Some(c)
    ensures Act(s, Start(d), i, delivered, now) == Attend(s, Recorded(Start(d), i, c), 1, delivered, now)
  {
    assert WithKey(Start(d).intents, i.TheKey()) == {};
  }

  lemma ActIsAPass(s: Submitter, d: Depot, i: Intent, delivered: map<FlowName, bool>, now: int, c: int)
    requires s.closure(i.day, i.slot) == Some(c) && now < c
    ensures Act(s, Start(d), i, delivered, now)
         == Settle(SendAll(s, FirstBooks(d, i, c), 1, IN_ORDER, delivered, now), 1, now)
  {
    ActIsAnAttempt(s, d, i, delivered, now, c);
    FirstBooksAre(d, i, c);
    FirstList(d, i, c);
  }

  lemma NothingSentYet(o: S.Office, jobs: (Intent, FlowName, int) -> Option<S.Job>, closure: (Date, int) -> Option<int>,
                       d: Depot, i: Intent, c: int, delivered: map<FlowName, bool>, now: int, channels: set<nat>, n: nat)
    requires CanGo(o, jobs, closure, d, i, now, channels, n)
    ensures PartSent(o, FirstBooks(d, i, c), 1, [], delivered, channels, n + |IN_ORDER|, KeyOf(i))
    ensures forall f :: f in IN_ORDER ==> (1, f) in FirstBooks(d, i, c).flows && FirstBooks(d, i, c).flows[(1, f)].file.None?
  {
  }

  lemma SettledIsSent(b: Books, id: nat, list: seq<FlowName>, delivered: map<FlowName, bool>, now: int)
    requires id in b.intents && forall f :: f in list ==> SentOnce(b, (id, f), Answer(delivered, f))
    ensures forall f :: f in list ==> SentOnce(Settle(b, id, now), (id, f), Answer(delivered, f))
  {
    forall f | f in list ensures SentOnce(Settle(b, id, now), (id, f), Answer(delivered, f)) {
      assert SentOnce(b, (id, f), Answer(delivered, f));
    }
  }

  lemma FlowsOfFirstAct(o: S.Office, jobs: (Intent, FlowName, int) -> Option<S.Job>,
                        closure: (Date, int) -> Option<int>, d: Depot, i: Intent, delivered: map<FlowName, bool>, now: int,
                        channels: set<nat>, n: nat)
    requires CanGo(o, jobs, closure, d, i, now, channels, n)
    ensures var b := Act(TheSubmitter(o, jobs, closure), Start(d), i, delivered, now);
            && 1 in b.intents && b.intents[1].intent == i && now < b.intents[1].closure
            && forall f :: f in REQUIRED ==> SentOnce(b, (1, f), Answer(delivered, f))
  {
    var s, c := TheSubmitter(o, jobs, closure), closure(i.day, i.slot).value;
    FirstBooksFit(d, i, c);
    ActIsAPass(s, d, i, delivered, now, c);
    NothingSentYet(o, jobs, closure, d, i, c, delivered, now, channels, n);
    FirstPass(o, jobs, closure, FirstBooks(d, i, c), 1, IN_ORDER, delivered, now, channels, n);
    SettledIsSent(SendAll(s, FirstBooks(d, i, c), 1, IN_ORDER, delivered, now), 1, IN_ORDER, delivered, now);
  }

  lemma StartIsSafe(d: Depot)
    requires DepotFits(d)
    ensures Safe(Start(d)) && RetriesAreStranded(Start(d)) && Start(d).nextIntent == 1
  {
  }

  lemma FirstState(s: Submitter, d: Depot, i: Intent, delivered: map<FlowName, bool>, now: int)
    requires s.Sound() && DepotFits(d) && s.closure(i.day, i.slot).Some? && now < s.closure(i.day, i.slot).value
    ensures var b := Act(s, Start(d), i, delivered, now); 1 in b.intents && b.intents[1].state in {Acting, Partial}
  {
    var c := s.closure(i.day, i.slot).value;
    StartIsSafe(d);
    ActIsAnAttempt(s, d, i, delivered, now, c);
    FirstChange(s, Start(d), i, c, delivered, now);
  }

  // The first act: the intent is recorded, and each flow has a file that went out or failed to.
  lemma FirstAct(o: S.Office, jobs: (Intent, FlowName, int) -> Option<S.Job>, closure: (Date, int) -> Option<int>,
                 d: Depot, i: Intent, delivered: map<FlowName, bool>, now: int, channels: set<nat>, n: nat)
    returns (b: Books)
    requires CanGo(o, jobs, closure, d, i, now, channels, n)
    ensures Reachable(TheSubmitter(o, jobs, closure), b) && Safe(b) && Waiting(b, 1, now)
    ensures b.intents[1].intent == i && b.intents[1].state in {Acting, Partial}
    ensures forall f :: f in REQUIRED ==> SentOnce(b, (1, f), Answer(delivered, f))
  {
    var s := TheSubmitter(o, jobs, closure);
    SubmitterIsSound(o, jobs, closure);
    FirstState(s, d, i, delivered, now);
    FlowsOfFirstAct(o, jobs, closure, d, i, delivered, now, channels, n);
    ActIsReachable(s, d, i, delivered, now);
    b := Act(s, Start(d), i, delivered, now);
    AllSent(b, i, delivered, now);
  }

  lemma AllSent(b: Books, i: Intent, delivered: map<FlowName, bool>, now: int)
    requires 1 in b.intents && now < b.intents[1].closure && b.intents[1].state in {Acting, Partial}
    requires forall f :: f in REQUIRED ==> SentOnce(b, (1, f), Answer(delivered, f))
    ensures Waiting(b, 1, now)
  {
  }

  // --- journeys ---------------------------------------------------------------------------------

  const ALL: map<FlowName, bool> := map[EcvnFlow := true, SevFlow := true, WmanFlow := true]
  const NONE: map<FlowName, bool> := map[]

  lemma DeliveredIsHopeful(b: Books)
    requires Safe(b) && 1 in b.intents && forall f :: f in REQUIRED ==> SentOnce(b, (1, f), Answer(ALL, f))
    ensures Hopeful(b, 1)
  {
    forall f | f in REQUIRED ensures !Stranded(b, (1, f)) && !Declined(b, (1, f)) {
      assert SentOnce(b, (1, f), Answer(ALL, f));
      var i := OneItem(b, (1, f));
      assert i in RowsOf(b.depot.items, b.flows[(1, f)].file.value, TableOf(f));
    }
  }

  lemma EndsActed(s: Submitter, b: Books, now: int) returns (after: Books)
    requires Reachable(s, b) && Safe(b) && Waiting(b, 1, now) && Hopeful(b, 1)
    ensures Reachable(s, after) && 1 in after.intents && after.intents[1].state == Acted
  {
    after := AnswerAll(s, b, 1, now);
    ReachableOn(s, b, after, now);
  }

  // An intent whose three files go out can be acted: there is a run of the service that ends so.
  lemma IntentGetsActed(o: S.Office, jobs: (Intent, FlowName, int) -> Option<S.Job>,
                        closure: (Date, int) -> Option<int>, d: Depot, i: Intent, now: int, channels: set<nat>)
    returns (b: Books)
    requires CanGo(o, jobs, closure, d, i, now, channels, 0)
    ensures Reachable(TheSubmitter(o, jobs, closure), b)
    ensures 1 in b.intents && b.intents[1].state == Acted
  {
    var s := TheSubmitter(o, jobs, closure);
    var first := FirstAct(o, jobs, closure, d, i, ALL, now, channels, 0);
    DeliveredIsHopeful(first);
    b := EndsActed(s, first, now);
  }

  // One whose three deliveries fail is partial after the first attempt, and received again once its files
  // have been reconciled: both changes are off its transition table.
  lemma FailedIntentGoesBack(o: S.Office, jobs: (Intent, FlowName, int) -> Option<S.Job>,
                             closure: (Date, int) -> Option<int>, d: Depot, i: Intent, now: int, channels: set<nat>)
    returns (first: Books, b: Books)
    requires CanGo(o, jobs, closure, d, i, now, channels, 0)
    ensures Reachable(TheSubmitter(o, jobs, closure), first) && 1 in first.intents && first.intents[1].state == Partial
    ensures Reachable(TheSubmitter(o, jobs, closure), b) && 1 in b.intents && b.intents[1].state == Received
    ensures !IntentEdge(Received, Partial) && !IntentEdge(Partial, Received)
  {
    var s := TheSubmitter(o, jobs, closure);
    first := FirstAct(o, jobs, closure, d, i, NONE, now, channels, 0);
    SubmitterIsSound(o, jobs, closure);
    FailedIsPartial(s, first);
    b := EndsReceived(s, first, now);
  }

  lemma EndsReceived(s: Submitter, b: Books, now: int) returns (after: Books)
    requires Reachable(s, b) && Safe(b) && Waiting(b, 1, now) && AllStranded(b, 1)
    ensures Reachable(s, after) && 1 in after.intents && after.intents[1].state == Received
  {
    after := StrandedGoesBack(s, b, 1, now);
    ReachableOn(s, b, after, now);
  }

  lemma FailedIsPartial(s: Submitter, b: Books)
    requires s.Sound() && Reachable(s, b) && 1 in b.intents && !Terminal(b.intents[1].state)
    requires forall f :: f in REQUIRED ==> SentOnce(b, (1, f), Answer(NONE, f))
    ensures b.intents[1].state == Partial && AllStranded(b, 1)
  {
    ReachableStrands(s, b);
    assert DerivedFor(b, 1) && SentOnce(b, (1, EcvnFlow), Answer(NONE, EcvnFlow));
    AllFlowStates(b, 1);
    assert FlowStates(b, 1)[EcvnFlow] == FlowFailed;
    forall f | f in FlowStates(b, 1) ensures FlowStates(b, 1)[f] == FlowFailed {
      assert SentOnce(b, (1, f), Answer(NONE, f));
    }
    forall f | f in REQUIRED ensures Stranded(b, (1, f)) {
      assert SentOnce(b, (1, f), Answer(NONE, f));
    }
  }

  // --- a second unit ----------------------------------------------------------------------------

  // Two intents for one business key, on two units: the first ECVN is recorded, the second is handed over
  // and lost, and its flow is left FAILED without a file.
  lemma SecondUnitIsLost(o: S.Office, d: Depot, i: Intent, j: Intent, first: S.Job, second: S.Job,
                         channels: set<nat>, at: int)
    requires o.Sound() && DepotFits(d) && d.keys == {} && InOrder(o, d.world) && Room(d.world, channels, 2)
    requires Goes(o, first, channels) && Goes(o, second, channels)
    requires i.Valid() && j.Valid() && SameBusiness(i, j)
    ensures var (once, sent) := SubmitWhole(o, Some(first), d, i, EcvnFlow, true, at);
            var (twice, lost) := SubmitWhole(o, Some(second), once, j, EcvnFlow, true, at);
            && sent == S.Done(d.world.nextId, true) && (exists n :: RowsOf(once.items, d.world.nextId, I.Notification) == {n})
            && HandsOver(once, twice, once.world.nextId, true) && twice.items == once.items
            && RecordFlow(FlowRow(FlowPending, None, 0), lost) == FlowRow(FlowFailed, None, 1)
  {
    var untried := FlowRow(FlowPending, None, 0);
    SubmissionGoes(o, d, channels, 1, first, i, EcvnFlow, true, at);
    SendGoes(o, d.world, channels, 1, first, true, at);
    EcvnIsRecordedWhen(o, first, d, i, untried, true, at);
    var once := SubmitWhole(o, Some(first), d, i, EcvnFlow, true, at).0;
    KeysCollide(i, j);
    SendGoes(o, once.world, channels, 0, second, true, at);
    EcvnIsRecordedWhen(o, second, once, j, untried, true, at);
  }

  // --- the gateway's own files --------------------------------------------------------------------

  // A channel whose ids fit the header.
  predicate ChannelFits(c: S.Channel) {
    && |c.fromRole| == 2 && B.TextFits(c.fromRole, Some(2)) && B.TextFits(c.fromParticipant, Some(8))
    && B.TextFits(c.toRole, Some(2)) && B.TextFits(c.toParticipant, Some(8)) && B.TextFits(c.testFlag, Some(4))
  }

  lemma HeaderOfJobFits(j: S.Job, n: Sequence)
    requires ChannelFits(j.channel) && B.TextFits(j.flow.fileType, Some(8))
    ensures HeaderRecord(P.HeaderFor(j, n)).Some?
  {
    B.HeaderEncodesWhen(P.HeaderFor(j, n));
  }

  // A file that builds with every number goes, and its footer is read back.
  lemma BuiltGoes(bucket: A.Bucket, j: S.Job, channels: set<nat>)
    requires j.channel.id in channels && |j.channel.fromRole| == 2 && j.supersedes.None?
    requires forall n: Sequence :: Build(j.flow, P.HeaderFor(j, n), j.body).Success?
    ensures Goes(P.NetaOffice(bucket), j, channels)
  {
    forall n: Sequence ensures S.Sendable(P.NetaOffice(bucket), j, n) {
      P.DeclaredOfBuilt(j.flow, P.HeaderFor(j, n), j.body);
    }
  }

  lemma DigitsFit(t: string, limit: nat)
    requires AllDigits(t)
    ensures B.TextFits(t, Some(limit)) <==> |t| <= limit
  {
    assert t != "" ==> IsDigit(t[0]) && IsDigit(t[|t| - 1]);
  }

  lemma ReferenceIsDigits(i: Intent)
    requires i.Valid()
    ensures AllDigits(Reference(i)) && |Reference(i)| == 8 + |TwoDigits(i.revision)|
  {
    TwoDigitsRead(i.day.year % 100);
    TwoDigitsRead(i.day.month);
    TwoDigitsRead(i.day.day);
    TwoDigitsRead(i.slot);
    TwoDigitsRead(i.revision);
  }

  // The reference code has room for a revision of two digits.
  lemma ReferenceFits(i: Intent)
    requires i.Valid()
    ensures B.TextFits(Reference(i), Some(10)) <==> i.revision < 100
  {
    ReferenceIsDigits(i);
    DigitsFit(Reference(i), 10);
    DigitCount(i.revision, 2);
    DigitCount(i.revision, 1);
    assert Pow10(2) == 100 && Pow10(1) == 10;
  }

  // _send_ecvn and _send_wman
  function EcvnOf(i: Intent): N.Ecvn
    requires i.Valid()
  {
    N.Ecvn(i.ecvnaaId, i.ecvnEcvnaaId, Reference(i), i.day, [N.ContractVolume(i.slot, i.contracted)], Some(i.day))
  }

  function WmanOf(i: Intent): N.Wman {
    N.Wman(i.day, i.slot, [N.ActiveUnit(i.unit, true)])
  }

  // An intent whose notifications their constructors let through, with ids that fit their items.
  predicate Buildable(i: Intent, key: string) {
    && i.Valid() && i.revision < 100
    && N.ContractVolume(i.slot, i.contracted).Valid()
    && B.TextFits(i.ecvnaaId, Some(10)) && B.TextFits(i.ecvnEcvnaaId, Some(10)) && B.TextFits(key, Some(10))
    && B.TextFits(i.unit, Some(11))
  }

  function EcvnJob(c: S.Channel, i: Intent, key: string, day: Date, at: Time): S.Job
    requires i.Valid()
  {
    S.Job(c, N.ECVN_FLOW, N.EcvnNodes(EcvnOf(i), key), day, at, None)
  }

  function WmanJob(c: S.Channel, i: Intent, day: Date, at: Time): S.Job {
    S.Job(c, N.WMAN_FLOW, N.WmanNodes(WmanOf(i)), day, at, None)
  }

  lemma EcvnIdsFit(i: Intent, key: string)
    requires Buildable(i, key)
    ensures EcvnOf(i).Valid() && N.IdsFit(EcvnOf(i), key)
  {
    var e := EcvnOf(i);
    ReferenceFits(i);
    B.EncodesWhen(Text(e.ecvnaaId), N.TEXT10);
    B.EncodesWhen(Text(key), N.TEXT10);
    B.EncodesWhen(Text(e.ecvnEcvnaaId), N.TEXT10);
    B.EncodesWhen(Text(e.referenceCode), N.TEXT10);
  }

  lemma EcvnGoes(bucket: A.Bucket, c: S.Channel, i: Intent, key: string, day: Date, at: Time, channels: set<nat>)
    requires ChannelFits(c) && c.id in channels && Buildable(i, key)
    ensures Goes(P.NetaOffice(bucket), EcvnJob(c, i, key, day, at), channels)
  {
    var j := EcvnJob(c, i, key, day, at);
    EcvnIdsFit(i, key);
    forall n: Sequence ensures Build(j.flow, P.HeaderFor(j, n), j.body).Success? {
      HeaderOfJobFits(j, n);
      N.EcvnBuilds(P.HeaderFor(j, n), EcvnOf(i), key);
    }
    BuiltGoes(bucket, j, channels);
  }

  lemma WmanGoes(bucket: A.Bucket, c: S.Channel, i: Intent, key: string, day: Date, at: Time, channels: set<nat>)
    requires ChannelFits(c) && c.id in channels && Buildable(i, key)
    ensures Goes(P.NetaOffice(bucket), WmanJob(c, i, day, at), channels)
  {
    var j := WmanJob(c, i, day, at);
    B.EncodesWhen(Text(i.unit), N.TEXT11);
    forall n: Sequence ensures Build(j.flow, P.HeaderFor(j, n), j.body).Success? {
      HeaderOfJobFits(j, n);
      N.WmanRoundTrip(P.HeaderFor(j, n), WmanOf(i));
    }
    BuiltGoes(bucket, j, channels);
  }

  // The gateway's jobs; the file of an expected volume is whatever is given.
  function GatewayJobs(c: S.Channel, key: string, sev: S.Job, day: Date, at: Time): (Intent, FlowName, int) -> Option<S.Job> {
    (i: Intent, f: FlowName, now: int) =>
      match f
      case EcvnFlow => if i.Valid() then Some(EcvnJob(c, i, key, day, at)) else None
      case SevFlow => Some(sev)
      case WmanFlow => Some(WmanJob(c, i, day, at))
  }

  // Nothing sent, and a channel to send on.
  function EmptyDepot(channel: nat, first: Sequence): Depot {
    Depot(S.World(Tables(map[channel := first], map[]), 1, map[], []), map[], 1, {})
  }

  lemma EmptyHasRoom(o: S.Office, channel: nat, first: Sequence, n: nat)
    requires first + n <= MAX_SEQUENCE && n < 10
    ensures var d := EmptyDepot(channel, first);
            DepotFits(d) && InOrder(o, d.world) && Room(d.world, {channel}, n)
  {
    DigitCount(10, 12);
  }

  lemma GatewayCanGo(bucket: A.Bucket, c: S.Channel, key: string, sev: S.Job, day: Date, at: Time, first: Sequence,
                     closure: (Date, int) -> Option<int>, i: Intent, now: int)
    requires ChannelFits(c) && Buildable(i, key) && Goes(P.NetaOffice(bucket), sev, {c.id}) && first + 3 <= MAX_SEQUENCE
    requires closure(i.day, i.slot).Some? && now < closure(i.day, i.slot).value
    ensures CanGo(P.NetaOffice(bucket), GatewayJobs(c, key, sev, day, at), closure, EmptyDepot(c.id, first), i, now, {c.id}, 0)
  {
    var o, jobs := P.NetaOffice(bucket), GatewayJobs(c, key, sev, day, at);
    P.NetaOfficeIsSound(bucket);
    EmptyHasRoom(o, c.id, first, 3);
    EcvnGoes(bucket, c, i, key, day, at, {c.id});
    WmanGoes(bucket, c, i, key, day, at, {c.id});
    forall f: FlowName ensures jobs(i, f, now).Some? && Goes(o, jobs(i, f, now).value, {c.id}) {
    }
  }

  // For every intent the gateway can make files of, before its gate closes: a run from empty books that
  // ends with the intent acted.
  lemma GatewayIntentGetsActed(bucket: A.Bucket, c: S.Channel, key: string, sev: S.Job, day: Date, at: Time,
                               first: Sequence, closure: (Date, int) -> Option<int>, i: Intent, now: int)
    returns (b: Books)
    requires ChannelFits(c) && Buildable(i, key) && Goes(P.NetaOffice(bucket), sev, {c.id}) && first + 3 <= MAX_SEQUENCE
    requires closure(i.day, i.slot).Some? && now < closure(i.day, i.slot).value
    ensures Reachable(TheSubmitter(P.NetaOffice(bucket), GatewayJobs(c, key, sev, day, at), closure), b)
    ensures 1 in b.intents && b.intents[1].state == Acted
  {
    GatewayCanGo(bucket, c, key, sev, day, at, first, closure, i, now);
    b := IntentGetsActed(P.NetaOffice(bucket), GatewayJobs(c, key, sev, day, at), closure, EmptyDepot(c.id, first), i, now, {c.id});
  }

  // For every two intents on two units for one business key: the ECVN of the second is lost.
  lemma GatewayLosesSecondUnit(bucket: A.Bucket, c: S.Channel, key: string, day: Date, time: Time, first: Sequence,
                               i: Intent, j: Intent, at: int)
    requires ChannelFits(c) && Buildable(i, key) && Buildable(j, key) && SameBusiness(i, j) && i.unit != j.unit
    requires first + 2 <= MAX_SEQUENCE
    ensures var o, d := P.NetaOffice(bucket), EmptyDepot(c.id, first);
            var once := SubmitWhole(o, Some(EcvnJob(c, i, key, day, time)), d, i, EcvnFlow, true, at).0;
            var (twice, lost) := SubmitWhole(o, Some(EcvnJob(c, j, key, day, time)), once, j, EcvnFlow, true, at);
            && i.TheKey() != j.TheKey() && HandsOver(once, twice, once.world.nextId, true)
            && lost == S.Raised && twice.items == once.items
  {
    var o, d := P.NetaOffice(bucket), EmptyDepot(c.id, first);
    P.NetaOfficeIsSound(bucket);
    EmptyHasRoom(o, c.id, first, 2);
    EcvnGoes(bucket, c, i, key, day, time, {c.id});
    EcvnGoes(bucket, c, j, key, day, time, {c.id});
    SecondUnitIsLost(o, d, i, j, EcvnJob(c, i, key, day, time), EcvnJob(c, j, key, day, time), {c.id}, at);
  }

  // There are such intents and channels.
  lemma SomeIntentIsBuildable(unit: string)
    requires unit == "U" || unit == "V"
    ensures ChannelFits(S.Channel(1, "VT", "P", "EC", "E", ""))
    ensures Buildable(Intent(Date(2025, 1, 1), 1, unit, D.Finite(false, 0, 0), D.Finite(false, 0, 0), "A", "B", 1), "K")
  {
    var i := Intent(Date(2025, 1, 1), 1, unit, D.Finite(false, 0, 0), D.Finite(false, 0, 0), "A", "B", 1);
    DigitCount(0, 1);
    assert D.Abs(i.contracted) == D.Finite(false, 0, 0);
  }
}
