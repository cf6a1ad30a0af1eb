// The intent service, over any submitter that keeps its side: recording, sending, retrying, reconciling.
module IntentService {
  import opened Wrappers
  import opened Fields
  import opened FileTables
  import opened SendRuns
  import opened Items
  import opened ItemRuns
  import opened Intents

  // --- the submitter ------------------------------------------------------------------

  // The key of 0003_correlation.sql: authorisation ids, reference code and effective date.
  datatype BusinessKey = BusinessKey(ecvnaaId: string, ecvnEcvnaaId: string, reference: string, from: Date)

  // What submissions write to.
  datatype Depot = Depot(world: World, items: map<nat, Item>, nextItem: nat, keys: set<BusinessKey>)

  function TableOf(f: FlowName): Table {
    match f
    case EcvnFlow => Notification
    case SevFlow => Sev
    case WmanFlow => Wman
  }

  // Items are inserted for files that have been reserved.
  predicate DepotFits(d: Depot) {
    && (forall i :: i in d.items ==> i < d.nextItem && d.items[i].file < d.world.nextId)
    && (forall f :: f in d.world.t.files ==> f < d.world.nextId)
  }

  // What any submission, send or sweep may do: files go forward, and rows are inserted for new files only.
  predicate Grown(d: Depot, after: Depot) {
    && Forward(d.world, after.world)
    && d.world.nextId <= after.world.nextId
    && (forall i :: i in d.items ==> i in after.items && after.items[i] == d.items[i])
    && (forall i :: i in after.items && i !in d.items ==> after.items[i].file >= d.world.nextId)
    && DepotFits(after)
  }

  // The items of one table in one file.
  function RowsOf(items: map<nat, Item>, file: nat, table: Table): set<nat> {
    set i | i in items && items[i].file == file && items[i].table == table
  }

  predicate HandsOver(d: Depot, after: Depot, id: nat, delivered: bool) {
    && |after.world.wire| == |d.world.wire| + 1
    && after.world.wire[|d.world.wire|].id == id
    && after.world.wire[|d.world.wire|].delivered == delivered
  }

  // The items of a flow in a file are in this state.
  predicate Behind(items: map<nat, Item>, file: nat, f: FlowName, state: ItemState) {
    forall i :: i in RowsOf(items, file, TableOf(f)) ==> items[i].state == state
  }

  // A first send takes a new file; a send that returns has handed it over and inserted its one row, which
  // is submitted only if the file was delivered.
  ghost predicate SubmitFits(d: Depot, f: FlowName, r: (Depot, Sending), delivered: bool) {
    && Grown(d, r.0)
    && (r.0.world.wire == d.world.wire || HandsOver(d, r.0, d.world.nextId, delivered))
    && (r.1.Done? ==>
          && r.1 == Done(d.world.nextId, delivered) && d.world.nextId < r.0.world.nextId
          && HandsOver(d, r.0, d.world.nextId, delivered)
          && (exists i :: RowsOf(r.0.items, d.world.nextId, TableOf(f)) == {i})
          && Behind(r.0.items, d.world.nextId, f, if delivered then Submitted else Pending))
  }

  // A resend hands the same file over, and touches no row of an item.
  predicate ResendFits(d: Depot, file: nat, r: (Depot, Sending), delivered: bool) {
    && Grown(d, r.0) && r.0.items == d.items && r.0.world.nextId == d.world.nextId
    && (r.0.world.wire == d.world.wire || HandsOver(d, r.0, file, delivered))
    && (r.1.Done? ==> r.1 == Done(file, delivered) && HandsOver(d, r.0, file, delivered))
  }

  datatype Submitter = Submitter(
    submit: (Depot, Intent, FlowName, bool, int) -> (Depot, Sending),
    resend: (Depot, nat, bool, int) -> (Depot, Sending),
    closure: (Date, int) -> Option<int>)
  {
    ghost predicate Sound() {
      && (forall d: Depot, i: Intent, f: FlowName, ok: bool, at: int ::
            DepotFits(d) ==> SubmitFits(d, f, submit(d, i, f, ok, at), ok))
      && (forall d: Depot, file: nat, ok: bool, at: int ::
            DepotFits(d) ==> ResendFits(d, file, resend(d, file, ok, at), ok))
    }
  }

  // --- the books ------------------------------------------------------------------------

  datatype IntentRow = IntentRow(intent: Intent, state: IntentState, closure: int)

  datatype FlowRow = FlowRow(state: FlowState, file: Option<nat>, attempts: nat)

  // A hand-off that the service brought about.
  datatype Call = Call(intent: nat, flow: FlowName, file: nat, resent: bool, now: int)

  datatype Books = Books(
    depot: Depot, intents: map<nat, IntentRow>, flows: map<(nat, FlowName), FlowRow>, nextIntent: nat, calls: seq<Call>)

  function FlowStates(b: Books, id: nat): map<FlowName, FlowState> {
    map f | f in REQUIRED && (id, f) in b.flows :: b.flows[(id, f)].state
  }

  function WithKey(intents: map<nat, IntentRow>, key: Key): set<nat> {
    set id | id in intents && intents[id].intent.TheKey() == key
  }

  // _ensure_flows
  function EnsureFlows(flows: map<(nat, FlowName), FlowRow>, id: nat): map<(nat, FlowName), FlowRow> {
    (map f | f in REQUIRED :: (id, f) := FlowRow(FlowPending, None, 0)) + flows
  }

  // _record_flow
  function RecordFlow(row: FlowRow, sending: Sending): FlowRow {
    match sending
    case Raised => FlowRow(FlowFailed, row.file, row.attempts + 1)
    case Done(file, delivered) => FlowRow(if delivered then FlowSent else FlowFailed, Some(file), row.attempts + 1)
  }

  function Try(s: Submitter, b: Books, id: nat, f: FlowName, delivered: bool, now: int): (Depot, Sending)
    requires id in b.intents && (id, f) in b.flows
  {
    match b.flows[(id, f)].file
    case Some(file) => s.resend(b.depot, file, delivered, now)
    case None => s.submit(b.depot, b.intents[id].intent, f, delivered, now)
  }

  // The books after one flow was tried.
  function Booked(b: Books, id: nat, f: FlowName, now: int, r: (Depot, Sending)): Books
    requires (id, f) in b.flows
  {
    var row, n := b.flows[(id, f)], |r.0.world.wire|;
    b.(depot := r.0,
       flows := b.flows[(id, f) := RecordFlow(row, r.1)],
       calls := if n > |b.depot.world.wire| then b.calls + [Call(id, f, r.0.world.wire[n - 1].id, row.file.Some?, now)] else b.calls)
  }

  // The loop of _send_flows over the outstanding flows; `delivered` is what transport answers for each.
  function SendAll(s: Submitter, b: Books, id: nat, list: seq<FlowName>, delivered: map<FlowName, bool>,
                   now: int): (r: Books)
    requires id in b.intents && forall f :: f in list ==> (id, f) in b.flows
    ensures r.intents == b.intents && r.nextIntent == b.nextIntent && r.flows.Keys == b.flows.Keys
  {
    if list == [] then b
    else
      var n := |list| - 1;
      var before := SendAll(s, b, id, list[..n], delivered, now);
      Booked(before, id, list[n], now, Try(s, before, id, list[n], Answer(delivered, list[n]), now))
  }

  function Answer(delivered: map<FlowName, bool>, f: FlowName): bool {
    f in delivered && delivered[f]
  }

  function SetState(b: Books, id: nat, state: IntentState): Books
    requires id in b.intents
  {
    b.(intents := b.intents[id := b.intents[id].(state := state)])
  }

  // _resolve: the state derived from the flows.
  function Settle(b: Books, id: nat, now: int): Books
    requires id in b.intents
  {
    SetState(b, id, Resolve(FlowStates(b, id), now >= b.intents[id].closure))
  }

  // _send_flows
  function SendFlows(s: Submitter, b: Books, id: nat, delivered: map<FlowName, bool>, now: int): Books
    requires id in b.intents
  {
    var ready := b.(flows := EnsureFlows(b.flows, id));
    Settle(SendAll(s, ready, id, RetryableFlows(FlowStates(ready, id)), delivered, now), id, now)
  }

  // --- commands ---------------------------------------------------------------------------

  // _record
  function Recorded(b: Books, intent: Intent, closure: int): Books {
    b.(intents := b.intents[b.nextIntent := IntentRow(intent, Received, closure)], nextIntent := b.nextIntent + 1)
  }

  // The deadline is looked at before anything is attempted: after gate closure the intent is missed.
  function Attend(s: Submitter, b: Books, id: nat, delivered: map<FlowName, bool>, now: int): Books
    requires id in b.intents
  {
    if now >= b.intents[id].closure then SetState(b, id, Missed) else SendFlows(s, b, id, delivered, now)
  }

  // act. A key already recorded sends nothing; a period that does not exist raises before anything is
  // recorded; a late intent is recorded as missed.
  function Act(s: Submitter, b: Books, intent: Intent, delivered: map<FlowName, bool>, now: int): Books {
    if WithKey(b.intents, intent.TheKey()) != {} then b
    else
      match s.closure(intent.day, intent.slot)
      case None => b
      case Some(closure) =>
        Attend(s, Recorded(b, intent, closure), b.nextIntent, delivered, now)
  }

  // retry. An unknown or terminal intent raises.
  function Retry(s: Submitter, b: Books, id: nat, delivered: map<FlowName, bool>, now: int): Books {
    if id !in b.intents || Terminal(b.intents[id].state) then b
    else Attend(s, b, id, delivered, now)
  }

  function FlowsOf(flows: map<(nat, FlowName), FlowRow>, file: nat): set<(nat, FlowName)> {
    set k | k in flows && flows[k].file == Some(file)
  }

  // _flow_state_from_items: a row that is missing reads as sent, and a pending one as pending.
  function FlowStateOf(items: map<nat, Item>, file: nat, f: FlowName): FlowState {
    var rows := RowsOf(items, file, TableOf(f));
    if rows == {} then FlowSent
    else
      match items[Lowest(rows)].state
      case Accepted => FlowAccepted
      case Rejected => FlowRejected
      case Submitted => FlowSent
      case Pending => FlowPending
  }

  // reconcile_intent, for the flow that has the file.
  function ReconcileFlow(b: Books, k: (nat, FlowName), file: nat, now: int): Books
    requires k in b.flows && k.0 in b.intents
  {
    if Terminal(b.intents[k.0].state) then b
    else
      var state := FlowStateOf(b.depot.items, file, k.1);
      Settle(b.(flows := b.flows[k := b.flows[k].(state := state)]), k.0, now)
  }

  ghost function Reconcile(b: Books, file: nat, now: int): Books {
    if FlowsOf(b.flows, file) == {} then b
    else
      var k :| k in FlowsOf(b.flows, file);
      if k.0 in b.intents then ReconcileFlow(b, k, file, now) else b
  }

  // What feedback does to the items.
  function Heard(d: Depot, e: Event): Depot
    requires IsFeedback(e) && ItemRuns.Enabled(Desk(d.world, d.items, d.nextItem, []), e)
  {
    d.(items := ItemRuns.Next(Desk(d.world, d.items, d.nextItem, []), e).items)
  }

  datatype Command =
    | ActOn(intent: Intent, delivered: map<FlowName, bool>, now: int)
    | RetryOf(id: nat, delivered: map<FlowName, bool>, now: int)
    | ReconcileFile(file: nat, now: int)
    | Feedback(e: Event)
    | Beside(after: Depot)

  ghost predicate Allowed(b: Books, c: Command) {
    match c
    case ActOn(intent, _, _) => intent.Valid()
    case Feedback(e) => IsFeedback(e) && ItemRuns.Enabled(Desk(b.depot.world, b.depot.items, b.depot.nextItem, []), e)
    case Beside(after) => Grown(b.depot, after)
    case _ => true
  }

  ghost function Do(s: Submitter, b: Books, c: Command): Books
    requires Allowed(b, c)
  {
    match c
    case ActOn(intent, delivered, now) => Act(s, b, intent, delivered, now)
    case RetryOf(id, delivered, now) => Retry(s, b, id, delivered, now)
    case ReconcileFile(file, now) => Reconcile(b, file, now)
    case Feedback(e) => b.(depot := Heard(b.depot, e))
    case Beside(after) => b.(depot := after)
  }

  ghost predicate Possible(s: Submitter, b: Books, cs: seq<Command>)
    decreases |cs|
  {
    cs == [] || (Allowed(b, cs[0]) && Possible(s, Do(s, b, cs[0]), cs[1..]))
  }

  ghost function After(s: Submitter, b: Books, cs: seq<Command>): Books
    requires Possible(s, b, cs)
    decreases |cs|
  {
    if cs == [] then b else After(s, Do(s, b, cs[0]), cs[1..])
  }

  function Start(depot: Depot): Books {
    Books(depot, map[], map[], 1, [])
  }

  // --- what every command keeps ---------------------------------------------------------------

  ghost predicate FlowFits(d: Depot, f: FlowName, row: FlowRow) {
    && (row.file.Some? ==>
          && row.file.value < d.world.nextId
          && exists i :: RowsOf(d.items, row.file.value, TableOf(f)) == {i})
    && (row.state == FlowAccepted ==> row.file.Some? && Behind(d.items, row.file.value, f, Accepted))
    && (row.state == FlowRejected ==> row.file.Some? && Behind(d.items, row.file.value, f, Rejected))
  }

  predicate IntentFits(b: Books, id: nat)
    requires id in b.intents
  {
    && id < b.nextIntent
    && (b.intents[id].state == Acted ==> forall f :: f in REQUIRED ==> (id, f) in b.flows && b.flows[(id, f)].state == FlowAccepted)
  }

  ghost predicate FlowsFit(b: Books) {
    && (forall k :: k in b.flows ==> k.0 in b.intents && FlowFits(b.depot, k.1, b.flows[k]))
    && (forall j, k :: j in b.flows && k in b.flows && b.flows[j].file.Some? && b.flows[j].file == b.flows[k].file ==> j == k)
  }

  // The three flow rows of an intent are inserted together.
  predicate Complete(flows: map<(nat, FlowName), FlowRow>) {
    forall k, f :: k in flows && f in REQUIRED ==> (k.0, f) in flows
  }

  ghost predicate Safe(b: Books) {
    && DepotFits(b.depot)
    && FlowsFit(b)
    && Complete(b.flows)
    && (forall id :: id in b.intents ==> IntentFits(b, id))
  }

  lemma GrownKeepsRows(d: Depot, after: Depot, file: nat, table: Table)
    requires Grown(d, after) && file < d.world.nextId
    ensures RowsOf(after.items, file, table) == RowsOf(d.items, file, table)
  {
  }

  lemma FlowFitsStill(d: Depot, after: Depot, f: FlowName, row: FlowRow)
    requires Grown(d, after) && FlowFits(d, f, row)
    ensures FlowFits(after, f, row)
  {
    if row.file.Some? {
      GrownKeepsRows(d, after, row.file.value, TableOf(f));
    }
  }

  // A try leaves the flow sent or failed, with the file it had or with a new one.
  lemma TryFits(s: Submitter, b: Books, id: nat, f: FlowName, delivered: bool, now: int)
    requires s.Sound() && DepotFits(b.depot) && id in b.intents && (id, f) in b.flows
    requires FlowFits(b.depot, f, b.flows[(id, f)])
    ensures var row, r := b.flows[(id, f)], Try(s, b, id, f, delivered, now);
            && Grown(b.depot, r.0)
            && FlowFits(r.0, f, RecordFlow(row, r.1))
            && (row.file.Some? ==> RecordFlow(row, r.1).file == row.file)
            && (row.file.None? && RecordFlow(row, r.1).file.Some? ==> RecordFlow(row, r.1).file.value == b.depot.world.nextId)
            && (r.0.world.wire == b.depot.world.wire
                || HandsOver(b.depot, r.0, if row.file.Some? then row.file.value else b.depot.world.nextId, delivered))
  {
    var row := b.flows[(id, f)];
    if row.file.Some? {
      assert ResendFits(b.depot, row.file.value, s.resend(b.depot, row.file.value, delivered, now), delivered);
      GrownKeepsRows(b.depot, s.resend(b.depot, row.file.value, delivered, now).0, row.file.value, TableOf(f));
    } else {
      assert SubmitFits(b.depot, f, s.submit(b.depot, b.intents[id].intent, f, delivered, now), delivered);
    }
  }

  // A change of one flow row and what lies under it.
  lemma OneRowFits(b: Books, k: (nat, FlowName), depot: Depot, row: FlowRow)
    requires DepotFits(b.depot) && FlowsFit(b) && k in b.flows && Grown(b.depot, depot) && FlowFits(depot, k.1, row)
    requires row.file == b.flows[k].file || (row.file.Some? && row.file.value >= b.depot.world.nextId)
    ensures FlowsFit(b.(depot := depot, flows := b.flows[k := row]))
  {
    forall j | j in b.flows ensures FlowFits(depot, j.1, b.flows[j]) {
      FlowFitsStill(b.depot, depot, j.1, b.flows[j]);
    }
  }

  // What a service call keeps of everything but one intent.
  predicate OthersKept(b: Books, after: Books, id: nat) {
    && after.flows.Keys == b.flows.Keys
    && (forall k :: k in b.flows && k.0 != id ==> after.flows[k] == b.flows[k])
    && (forall k :: k in b.flows && b.flows[k].file.Some? ==> after.flows[k].file == b.flows[k].file)
  }

  lemma GrownTwice(a: Depot, b: Depot, c: Depot)
    requires Grown(a, b) && Grown(b, c)
    ensures Grown(a, c)
  {
    assert forall i :: 0 <= i < |a.world.wire| ==> c.world.wire[i] == a.world.wire[i];
  }

  lemma GrownNone(d: Depot)
    requires DepotFits(d)
    ensures Grown(d, d)
  {
  }

  lemma BookedFits(b: Books, id: nat, f: FlowName, now: int, r: (Depot, Sending))
    requires DepotFits(b.depot) && FlowsFit(b) && (id, f) in b.flows && Grown(b.depot, r.0)
    requires FlowFits(r.0, f, RecordFlow(b.flows[(id, f)], r.1))
    requires b.flows[(id, f)].file.Some? ==> RecordFlow(b.flows[(id, f)], r.1).file == b.flows[(id, f)].file
    requires b.flows[(id, f)].file.None? && RecordFlow(b.flows[(id, f)], r.1).file.Some? ==>
               RecordFlow(b.flows[(id, f)], r.1).file.value == b.depot.world.nextId
    ensures FlowsFit(Booked(b, id, f, now, r)) && OthersKept(b, Booked(b, id, f, now, r), id)
  {
    OneRowFits(b, (id, f), r.0, RecordFlow(b.flows[(id, f)], r.1));
  }

  lemma {:induction false} SendAllFits(s: Submitter, b: Books, id: nat, list: seq<FlowName>,
                                       delivered: map<FlowName, bool>, now: int)
    requires s.Sound() && DepotFits(b.depot) && FlowsFit(b) && id in b.intents
    requires forall f :: f in list ==> (id, f) in b.flows
    ensures var after := SendAll(s, b, id, list, delivered, now);
            Grown(b.depot, after.depot) && FlowsFit(after) && OthersKept(b, after, id)
  {
    if list == [] {
      GrownNone(b.depot);
    } else {
      var n := |list| - 1;
      SendAllFits(s, b, id, list[..n], delivered, now);
      var before := SendAll(s, b, id, list[..n], delivered, now);
      var r := Try(s, before, id, list[n], Answer(delivered, list[n]), now);
      TryFits(s, before, id, list[n], Answer(delivered, list[n]), now);
      BookedFits(before, id, list[n], now, r);
      GrownTwice(b.depot, before.depot, r.0);
    }
  }

  lemma Ensured(flows: map<(nat, FlowName), FlowRow>, id: nat)
    ensures forall f :: f in REQUIRED ==> (id, f) in EnsureFlows(flows, id)
    ensures forall k :: k in flows ==> k in EnsureFlows(flows, id) && EnsureFlows(flows, id)[k] == flows[k]
    ensures forall k :: k in EnsureFlows(flows, id) && k !in flows ==>
              k.0 == id && EnsureFlows(flows, id)[k] == FlowRow(FlowPending, None, 0)
  {
  }

  lemma EnsuredIsComplete(flows: map<(nat, FlowName), FlowRow>, id: nat)
    requires Complete(flows)
    ensures Complete(EnsureFlows(flows, id))
  {
    Ensured(flows, id);
  }

  lemma EnsuredFits(b: Books, id: nat)
    requires FlowsFit(b) && Complete(b.flows) && id in b.intents
    ensures FlowsFit(b.(flows := EnsureFlows(b.flows, id))) && Complete(EnsureFlows(b.flows, id))
  {
    Ensured(b.flows, id);
    EnsuredIsComplete(b.flows, id);
    MoreFlowsFit(b, EnsureFlows(b.flows, id), id);
  }

  // New rows without a file fit.
  lemma MoreFlowsFit(b: Books, flows: map<(nat, FlowName), FlowRow>, id: nat)
    requires FlowsFit(b) && id in b.intents
    requires forall k :: k in b.flows ==> k in flows && flows[k] == b.flows[k]
    requires forall k :: k in flows && k !in b.flows ==> k.0 == id && flows[k] == FlowRow(FlowPending, None, 0)
    ensures FlowsFit(b.(flows := flows))
  {
    forall k | k in flows ensures k.0 in b.intents && FlowFits(b.depot, k.1, flows[k]) {
      if k in b.flows {
        assert FlowFits(b.depot, k.1, b.flows[k]);
      }
    }
  }

  // Every intent but one.
  predicate OthersFit(b: Books, id: nat) {
    forall j :: j in b.intents && j != id ==> IntentFits(b, j)
  }

  lemma OthersFitStill(b: Books, after: Books, id: nat)
    requires OthersFit(b, id) && b.nextIntent <= after.nextIntent
    requires forall j :: j in after.intents && j != id ==> j in b.intents && after.intents[j] == b.intents[j]
    requires forall k :: k in b.flows && k.0 != id ==> k in after.flows && after.flows[k] == b.flows[k]
    ensures OthersFit(after, id)
  {
    forall j | j in after.intents && j != id ensures IntentFits(after, j) {
      assert IntentFits(b, j);
    }
  }

  // Settling an intent whose flows are all there: it is acted only if all of them are accepted.
  lemma SettleIsSafe(b: Books, id: nat, now: int)
    requires DepotFits(b.depot) && FlowsFit(b) && Complete(b.flows) && OthersFit(b, id)
    requires id in b.intents && id < b.nextIntent && forall f :: f in REQUIRED ==> (id, f) in b.flows
    ensures Safe(Settle(b, id, now))
  {
    var after := Settle(b, id, now);
    SettledFits(b, id, now);
    OthersFitStill(b, after, id);
    forall j | j in after.intents ensures IntentFits(after, j) {
      assert j != id ==> IntentFits(after, j);
    }
  }

  lemma AllFlowStates(b: Books, id: nat)
    requires forall f :: f in REQUIRED ==> (id, f) in b.flows
    ensures FlowStates(b, id) != map[]
    ensures forall f :: f in REQUIRED ==> f in FlowStates(b, id) && FlowStates(b, id)[f] == b.flows[(id, f)].state
  {
    assert EcvnFlow in REQUIRED;
    assert EcvnFlow in FlowStates(b, id);
  }

  lemma SettledFits(b: Books, id: nat, now: int)
    requires id in b.intents && id < b.nextIntent && forall f :: f in REQUIRED ==> (id, f) in b.flows
    ensures IntentFits(Settle(b, id, now), id)
  {
    AllFlowStates(b, id);
    ResolveMeans(FlowStates(b, id), now >= b.intents[id].closure);
  }

  lemma SendFlowsIsSafe(s: Submitter, b: Books, id: nat, delivered: map<FlowName, bool>, now: int)
    requires s.Sound() && id in b.intents && id < b.nextIntent
    requires DepotFits(b.depot) && FlowsFit(b) && Complete(b.flows) && OthersFit(b, id)
    ensures Safe(SendFlows(s, b, id, delivered, now))
  {
    var ready := b.(flows := EnsureFlows(b.flows, id));
    Ensured(b.flows, id);
    EnsuredFits(b, id);
    OthersFitStill(b, ready, id);
    SentIsSafe(s, ready, id, RetryableFlows(FlowStates(ready, id)), delivered, now);
  }

  lemma SentIsSafe(s: Submitter, b: Books, id: nat, list: seq<FlowName>, delivered: map<FlowName, bool>, now: int)
    requires s.Sound() && id in b.intents && id < b.nextIntent
    requires DepotFits(b.depot) && FlowsFit(b) && Complete(b.flows) && OthersFit(b, id)
    requires forall f :: f in REQUIRED ==> (id, f) in b.flows
    requires forall f :: f in list ==> (id, f) in b.flows
    ensures Safe(Settle(SendAll(s, b, id, list, delivered, now), id, now))
  {
    SendAllFits(s, b, id, list, delivered, now);
    var sent := SendAll(s, b, id, list, delivered, now);
    OthersFitStill(b, sent, id);
    SettleIsSafe(sent, id, now);
  }

  lemma AttendIsSafe(s: Submitter, b: Books, id: nat, delivered: map<FlowName, bool>, now: int)
    requires s.Sound() && id in b.intents && id < b.nextIntent
    requires DepotFits(b.depot) && FlowsFit(b) && Complete(b.flows) && OthersFit(b, id)
    ensures Safe(Attend(s, b, id, delivered, now))
  {
    if now < b.intents[id].closure {
      SendFlowsIsSafe(s, b, id, delivered, now);
    } else {
      MissedIsSafe(b, id);
    }
  }

  lemma MissedIsSafe(b: Books, id: nat)
    requires DepotFits(b.depot) && FlowsFit(b) && Complete(b.flows) && OthersFit(b, id) && id in b.intents
    requires id < b.nextIntent
    ensures Safe(SetState(b, id, Missed))
  {
    OthersFitStill(b, SetState(b, id, Missed), id);
    forall j | j in b.intents ensures IntentFits(SetState(b, id, Missed), j) {
      assert j != id ==> IntentFits(SetState(b, id, Missed), j);
    }
  }

  lemma RecordedFits(b: Books, intent: Intent, closure: int)
    requires Safe(b)
    ensures b.nextIntent !in b.intents
    ensures FlowsFit(Recorded(b, intent, closure)) && OthersFit(Recorded(b, intent, closure), b.nextIntent)
  {
    var r, id := Recorded(b, intent, closure), b.nextIntent;
    assert id !in b.intents by {
      assert id in b.intents ==> IntentFits(b, id);
    }
    forall j | j in b.intents ensures IntentFits(r, j) {
      assert IntentFits(b, j);
    }
  }

  lemma ActIsSafe(s: Submitter, b: Books, intent: Intent, delivered: map<FlowName, bool>, now: int)
    requires s.Sound() && Safe(b)
    ensures Safe(Act(s, b, intent, delivered, now))
  {
    var closure := s.closure(intent.day, intent.slot);
    if closure.Some? {
      RecordedFits(b, intent, closure.value);
      AttendIsSafe(s, Recorded(b, intent, closure.value), b.nextIntent, delivered, now);
    }
  }

  lemma RetryIsSafe(s: Submitter, b: Books, id: nat, delivered: map<FlowName, bool>, now: int)
    requires s.Sound() && Safe(b)
    ensures Safe(Retry(s, b, id, delivered, now))
  {
    if id in b.intents {
      assert IntentFits(b, id);
      AttendIsSafe(s, b, id, delivered, now);
    }
  }

  // The state read from the items is accepted or rejected only if the item behind the file is.
  lemma FlowStateFits(d: Depot, row: FlowRow, f: FlowName)
    requires FlowFits(d, f, row) && row.file.Some?
    ensures FlowFits(d, f, row.(state := FlowStateOf(d.items, row.file.value, f)))
  {
    var i :| RowsOf(d.items, row.file.value, TableOf(f)) == {i};
    assert i in RowsOf(d.items, row.file.value, TableOf(f));
    assert Lowest({i}) in {i};
  }

  lemma ReconcileFlowIsSafe(b: Books, k: (nat, FlowName), file: nat, now: int)
    requires Safe(b) && k in b.flows && k.0 in b.intents && b.flows[k].file == Some(file)
    ensures Safe(ReconcileFlow(b, k, file, now))
  {
    var row := b.flows[k].(state := FlowStateOf(b.depot.items, file, k.1));
    ReadBackFits(b, k, row);
    SettleIsSafe(b.(flows := b.flows[k := row]), k.0, now);
  }

  lemma ReadBackFits(b: Books, k: (nat, FlowName), row: FlowRow)
    requires Safe(b) && k in b.flows && k.0 in b.intents && b.flows[k].file.Some?
    requires row == b.flows[k].(state := FlowStateOf(b.depot.items, b.flows[k].file.value, k.1))
    ensures var after := b.(flows := b.flows[k := row]);
            FlowsFit(after) && Complete(after.flows) && OthersFit(after, k.0) && k.0 < b.nextIntent
  {
    FlowStateFits(b.depot, b.flows[k], k.1);
    GrownNone(b.depot);
    OneRowFits(b, k, b.depot, row);
    assert IntentFits(b, k.0);
    OthersFitStill(b, b.(flows := b.flows[k := row]), k.0);
  }

  lemma ReconcileIsSafe(b: Books, file: nat, now: int)
    requires Safe(b)
    ensures Safe(Reconcile(b, file, now))
  {
    if FlowsOf(b.flows, file) != {} {
      var k :| k in FlowsOf(b.flows, file) && Reconcile(b, file, now) == if k.0 in b.intents then ReconcileFlow(b, k, file, now) else b;
      ReconcileFlowIsSafe(b, k, file, now);
    }
  }

  lemma HeardFits(d: Depot, e: Event, f: FlowName, row: FlowRow)
    requires IsFeedback(e) && ItemRuns.Enabled(Desk(d.world, d.items, d.nextItem, []), e)
    requires FlowFits(d, f, row)
    ensures FlowFits(Heard(d, e), f, row)
  {
    var after := Heard(d, e);
    FeedbackOnlyMoves(Desk(d.world, d.items, d.nextItem, []), e);
    if row.file.Some? {
      assert RowsOf(after.items, row.file.value, TableOf(f)) == RowsOf(d.items, row.file.value, TableOf(f));
    }
  }

  lemma FeedbackIsSafe(b: Books, e: Event)
    requires Safe(b) && Allowed(b, Feedback(e))
    ensures Safe(b.(depot := Heard(b.depot, e)))
  {
    var after := b.(depot := Heard(b.depot, e));
    FeedbackOnlyMoves(Desk(b.depot.world, b.depot.items, b.depot.nextItem, []), e);
    forall k | k in b.flows ensures FlowFits(after.depot, k.1, b.flows[k]) {
      HeardFits(b.depot, e, k.1, b.flows[k]);
    }
    forall id | id in b.intents ensures IntentFits(after, id) {
      assert IntentFits(b, id);
    }
  }

  lemma BesideIsSafe(b: Books, depot: Depot)
    requires Safe(b) && Grown(b.depot, depot)
    ensures Safe(b.(depot := depot))
  {
    forall k | k in b.flows ensures FlowFits(depot, k.1, b.flows[k]) {
      FlowFitsStill(b.depot, depot, k.1, b.flows[k]);
    }
    forall id | id in b.intents ensures IntentFits(b.(depot := depot), id) {
      assert IntentFits(b, id);
    }
  }

  lemma CommandIsSafe(s: Submitter, b: Books, c: Command)
    requires s.Sound() && Safe(b) && Allowed(b, c)
    ensures Safe(Do(s, b, c))
  {
    match c {
      case ActOn(intent, delivered, now) => ActIsSafe(s, b, intent, delivered, now);
      case RetryOf(id, delivered, now) => RetryIsSafe(s, b, id, delivered, now);
      case ReconcileFile(file, now) => ReconcileIsSafe(b, file, now);
      case Feedback(e) => FeedbackIsSafe(b, e);
      case Beside(after) => BesideIsSafe(b, after);
    }
  }

  lemma {:induction false} RunsAreSafe(s: Submitter, b: Books, cs: seq<Command>)
    requires s.Sound() && Safe(b) && Possible(s, b, cs)
    ensures Safe(After(s, b, cs))
    decreases |cs|
  {
    if cs != [] {
      CommandIsSafe(s, b, cs[0]);
      RunsAreSafe(s, Do(s, b, cs[0]), cs[1..]);
    }
  }

  // Some sequence of commands leads from empty books to these.
  ghost predicate Reachable(s: Submitter, b: Books) {
    exists depot: Depot, cs: seq<Command> ::
      DepotFits(depot) && Possible(s, Start(depot), cs) && After(s, Start(depot), cs) == b
  }

  lemma ReachableIsSafe(s: Submitter, b: Books)
    requires s.Sound() && Reachable(s, b)
    ensures Safe(b)
  {
    var depot: Depot, cs: seq<Command> :|
      DepotFits(depot) && Possible(s, Start(depot), cs) && After(s, Start(depot), cs) == b;
    RunsAreSafe(s, Start(depot), cs);
  }

  // --- acted means accepted ---------------------------------------------------------------------

  // In every reachable state an intent that is acted has all three flows accepted, each with a file and
  // one item behind it, and that item is accepted.
  lemma ActedMeansAccepted(s: Submitter, b: Books, id: nat, f: FlowName)
    requires s.Sound() && Reachable(s, b) && id in b.intents && b.intents[id].state == Acted && f in REQUIRED
    ensures (id, f) in b.flows && b.flows[(id, f)].state == FlowAccepted && b.flows[(id, f)].file.Some?
    ensures exists i :: RowsOf(b.depot.items, b.flows[(id, f)].file.value, TableOf(f)) == {i}
                        && b.depot.items[i].state == Accepted
  {
    ReachableIsSafe(s, b);
    assert IntentFits(b, id) && FlowFits(b.depot, f, b.flows[(id, f)]);
    var i :| RowsOf(b.depot.items, b.flows[(id, f)].file.value, TableOf(f)) == {i};
    assert i in RowsOf(b.depot.items, b.flows[(id, f)].file.value, TableOf(f));
  }

  lemma ReadBackIs(d: Depot, row: FlowRow, f: FlowName)
    requires FlowFits(d, f, row) && row.file.Some?
    ensures FlowStateOf(d.items, row.file.value, f) == FlowAccepted <==> Behind(d.items, row.file.value, f, Accepted)
    ensures FlowStateOf(d.items, row.file.value, f) == FlowRejected <==> Behind(d.items, row.file.value, f, Rejected)
    ensures FlowStateOf(d.items, row.file.value, f) == FlowPending <==> Behind(d.items, row.file.value, f, Pending)
  {
    var i :| RowsOf(d.items, row.file.value, TableOf(f)) == {i};
    assert i in RowsOf(d.items, row.file.value, TableOf(f)) && Lowest({i}) in {i};
  }

  lemma SettledActs(b: Books, id: nat, now: int)
    requires id in b.intents && forall f :: f in REQUIRED ==> (id, f) in b.flows
    ensures Settle(b, id, now).intents[id].state == Acted <==> forall f :: f in REQUIRED ==> b.flows[(id, f)].state == FlowAccepted
  {
    AllFlowStates(b, id);
    ResolveMeans(FlowStates(b, id), now >= b.intents[id].closure);
    assert forall f :: f in FlowStates(b, id) ==> f in REQUIRED;
  }

  // Reconciling a file of an open intent makes it acted exactly when its item is accepted and the other
  // two flows are.
  lemma ReconcileActs(b: Books, k: (nat, FlowName), file: nat, now: int)
    requires Safe(b) && k in b.flows && b.flows[k].file == Some(file) && !Terminal(b.intents[k.0].state)
    ensures ReconcileFlow(b, k, file, now).intents[k.0].state == Acted <==>
              Behind(b.depot.items, file, k.1, Accepted)
              && forall f :: f in REQUIRED && f != k.1 ==> b.flows[(k.0, f)].state == FlowAccepted
  {
    assert FlowFits(b.depot, k.1, b.flows[k]);
    ReadBackIs(b.depot, b.flows[k], k.1);
    ReadBackActs(b, k, FlowStateOf(b.depot.items, file, k.1), now);
  }

  lemma ReadBackActs(b: Books, k: (nat, FlowName), state: FlowState, now: int)
    requires k in b.flows && k.0 in b.intents && Complete(b.flows)
    ensures Settle(b.(flows := b.flows[k := b.flows[k].(state := state)]), k.0, now).intents[k.0].state == Acted <==>
              state == FlowAccepted && forall f :: f in REQUIRED && f != k.1 ==> b.flows[(k.0, f)].state == FlowAccepted
  {
    var changed := b.(flows := b.flows[k := b.flows[k].(state := state)]);
    SettledActs(changed, k.0, now);
    assert k == (k.0, k.1);
    assert k.1 == EcvnFlow || k.1 == SevFlow || k.1 == WmanFlow;
    assert forall f :: f in REQUIRED && f != k.1 ==> changed.flows[(k.0, f)] == b.flows[(k.0, f)];
  }

  // --- what is final stays --------------------------------------------------------------------------

  predicate Final(s: FlowState) {
    s == FlowAccepted || s == FlowRejected
  }

  // What was asked is never changed, and a terminal intent not at all.
  predicate IntentsKept(intents: map<nat, IntentRow>, after: map<nat, IntentRow>) {
    forall id :: id in intents ==>
      && id in after && after[id].intent == intents[id].intent && after[id].closure == intents[id].closure
      && (Terminal(intents[id].state) ==> after[id] == intents[id])
  }

  // A final flow is untouched, and a file once recorded for a flow stays the flow's file.
  predicate FlowsKept(flows: map<(nat, FlowName), FlowRow>, after: map<(nat, FlowName), FlowRow>) {
    forall k :: k in flows ==>
      && k in after
      && (Final(flows[k].state) ==> after[k] == flows[k])
      && (flows[k].file.Some? ==> after[k].file == flows[k].file)
  }

  predicate FinalKept(b: Books, after: Books) {
    IntentsKept(b.intents, after.intents) && FlowsKept(b.flows, after.flows)
  }

  lemma {:induction false} SendAllLeaves(s: Submitter, b: Books, id: nat, list: seq<FlowName>,
                                         delivered: map<FlowName, bool>, now: int)
    requires id in b.intents && forall f :: f in list ==> (id, f) in b.flows
    ensures var after := SendAll(s, b, id, list, delivered, now);
            forall k :: k in b.flows && !(k.0 == id && k.1 in list) ==> after.flows[k] == b.flows[k]
  {
    if list != [] {
      SendAllLeaves(s, b, id, list[..|list| - 1], delivered, now);
    }
  }

  lemma ListIsRetryable(b: Books, id: nat)
    ensures forall f :: f in RetryableFlows(FlowStates(b, id)) ==> (id, f) in b.flows && Intents.Retryable(b.flows[(id, f)].state)
  {
  }

  lemma SendAllKeepsFinal(s: Submitter, b: Books, id: nat, list: seq<FlowName>, delivered: map<FlowName, bool>,
                          now: int)
    requires s.Sound() && DepotFits(b.depot) && FlowsFit(b) && id in b.intents
    requires forall f :: f in list ==> (id, f) in b.flows && Intents.Retryable(b.flows[(id, f)].state)
    ensures FlowsKept(b.flows, SendAll(s, b, id, list, delivered, now).flows)
  {
    SendAllFits(s, b, id, list, delivered, now);
    SendAllLeaves(s, b, id, list, delivered, now);
  }

  lemma EnsuredKeepsFinal(flows: map<(nat, FlowName), FlowRow>, id: nat)
    ensures FlowsKept(flows, EnsureFlows(flows, id))
  {
    Ensured(flows, id);
  }

  lemma SendFlowsKeepsFlows(s: Submitter, b: Books, id: nat, delivered: map<FlowName, bool>, now: int)
    requires s.Sound() && id in b.intents && DepotFits(b.depot) && FlowsFit(b) && Complete(b.flows)
    ensures FlowsKept(b.flows, SendFlows(s, b, id, delivered, now).flows)
  {
    var ready := b.(flows := EnsureFlows(b.flows, id));
    var list := RetryableFlows(FlowStates(ready, id));
    EnsuredKeepsFinal(b.flows, id);
    EnsuredFits(b, id);
    ListIsRetryable(ready, id);
    SendAllKeepsFinal(s, ready, id, list, delivered, now);
    KeptTwice(b.flows, ready.flows, SendAll(s, ready, id, list, delivered, now).flows);
  }

  lemma KeptTwice(a: map<(nat, FlowName), FlowRow>, b: map<(nat, FlowName), FlowRow>, c: map<(nat, FlowName), FlowRow>)
    requires FlowsKept(a, b) && FlowsKept(b, c)
    ensures FlowsKept(a, c)
  {
  }

  // A call sets the state of its own intent and touches no other.
  lemma SendFlowsIntents(s: Submitter, b: Books, id: nat, delivered: map<FlowName, bool>, now: int)
    requires id in b.intents
    ensures exists state :: SendFlows(s, b, id, delivered, now).intents == b.intents[id := b.intents[id].(state := state)]
    ensures SendFlows(s, b, id, delivered, now).nextIntent == b.nextIntent
  {
  }

  lemma SendFlowsKeepsFinal(s: Submitter, b: Books, id: nat, delivered: map<FlowName, bool>, now: int)
    requires s.Sound() && id in b.intents && !Terminal(b.intents[id].state)
    requires DepotFits(b.depot) && FlowsFit(b) && Complete(b.flows)
    ensures FinalKept(b, SendFlows(s, b, id, delivered, now))
  {
    SendFlowsKeepsFlows(s, b, id, delivered, now);
    SendFlowsIntents(s, b, id, delivered, now);
  }

  lemma AttendKeepsFinal(s: Submitter, b: Books, id: nat, delivered: map<FlowName, bool>, now: int)
    requires s.Sound() && id in b.intents && !Terminal(b.intents[id].state)
    requires DepotFits(b.depot) && FlowsFit(b) && Complete(b.flows)
    ensures FinalKept(b, Attend(s, b, id, delivered, now))
  {
    if now < b.intents[id].closure {
      SendFlowsKeepsFinal(s, b, id, delivered, now);
    }
  }

  lemma RecordedKeepsFinal(b: Books, intent: Intent, closure: int)
    requires b.nextIntent !in b.intents
    ensures FinalKept(b, Recorded(b, intent, closure))
  {
  }

  // A first attempt adds its intent to the books and keeps what was in them.
  lemma FirstKeepsFinal(s: Submitter, b: Books, intent: Intent, closure: int, delivered: map<FlowName, bool>, now: int)
    requires s.Sound() && b.nextIntent !in b.intents
    requires DepotFits(b.depot) && FlowsFit(Recorded(b, intent, closure)) && Complete(b.flows)
    ensures var after := Attend(s, Recorded(b, intent, closure), b.nextIntent, delivered, now);
            FinalKept(b, after) && b.nextIntent in after.intents && after.intents[b.nextIntent].intent == intent
  {
    var r := Recorded(b, intent, closure);
    RecordedKeepsFinal(b, intent, closure);
    AttendKeepsFinal(s, r, b.nextIntent, delivered, now);
    FinalKeptTwice(b, r, Attend(s, r, b.nextIntent, delivered, now));
  }

  lemma NewIntentIsNew(b: Books, intent: Intent, closure: int)
    requires Safe(b)
    ensures b.nextIntent !in b.intents && FlowsFit(Recorded(b, intent, closure))
  {
    RecordedFits(b, intent, closure);
  }

  // An act on this key changes nothing any more: it is recorded, or its period does not exist.
  predicate Spent(s: Submitter, b: Books, key: Key) {
    WithKey(b.intents, key) != {} || s.closure(key.day, key.slot).None?
  }

  // After an act its key is recorded, or its period does not exist.
  lemma ActKeepsFinal(s: Submitter, b: Books, intent: Intent, delivered: map<FlowName, bool>, now: int)
    requires s.Sound() && Safe(b)
    ensures FinalKept(b, Act(s, b, intent, delivered, now))
    ensures Spent(s, Act(s, b, intent, delivered, now), intent.TheKey())
  {
    var closure := s.closure(intent.day, intent.slot);
    if closure.Some? && WithKey(b.intents, intent.TheKey()) == {} {
      NewIntentIsNew(b, intent, closure.value);
      FirstKeepsFinal(s, b, intent, closure.value, delivered, now);
      assert b.nextIntent in WithKey(Act(s, b, intent, delivered, now).intents, intent.TheKey());
    }
  }

  lemma RetryKeepsFinal(s: Submitter, b: Books, id: nat, delivered: map<FlowName, bool>, now: int)
    requires s.Sound() && Safe(b)
    ensures FinalKept(b, Retry(s, b, id, delivered, now))
  {
    if id in b.intents && !Terminal(b.intents[id].state) {
      AttendKeepsFinal(s, b, id, delivered, now);
    }
  }

  lemma ReconcileFlowKeepsFinal(b: Books, k: (nat, FlowName), file: nat, now: int)
    requires Safe(b) && k in b.flows && k.0 in b.intents && b.flows[k].file == Some(file)
    ensures FinalKept(b, ReconcileFlow(b, k, file, now))
  {
    assert FlowFits(b.depot, k.1, b.flows[k]);
    ReadBackKeepsFinal(b.depot, b.flows[k], k.1);
  }

  // A final flow reads back as what it is.
  lemma ReadBackKeepsFinal(d: Depot, row: FlowRow, f: FlowName)
    requires FlowFits(d, f, row) && row.file.Some?
    ensures Final(row.state) ==> FlowStateOf(d.items, row.file.value, f) == row.state
  {
    ReadBackIs(d, row, f);
  }

  lemma ReconcileKeepsFinal(b: Books, file: nat, now: int)
    requires Safe(b)
    ensures FinalKept(b, Reconcile(b, file, now))
  {
    if FlowsOf(b.flows, file) != {} {
      var k :| k in FlowsOf(b.flows, file) && Reconcile(b, file, now) == if k.0 in b.intents then ReconcileFlow(b, k, file, now) else b;
      ReconcileFlowKeepsFinal(b, k, file, now);
    }
  }

  lemma CommandKeepsFinal(s: Submitter, b: Books, c: Command)
    requires s.Sound() && Safe(b) && Allowed(b, c)
    ensures FinalKept(b, Do(s, b, c))
  {
    match c {
      case ActOn(intent, delivered, now) => ActKeepsFinal(s, b, intent, delivered, now);
      case RetryOf(id, delivered, now) => RetryKeepsFinal(s, b, id, delivered, now);
      case ReconcileFile(file, now) => ReconcileKeepsFinal(b, file, now);
      case _ =>
    }
  }

  lemma FinalKeptTwice(a: Books, b: Books, c: Books)
    requires FinalKept(a, b) && FinalKept(b, c)
    ensures FinalKept(a, c)
  {
  }

  // Over any run of acts, retries, feedback and whatever goes on beside them.
  lemma {:induction false} FinalForGood(s: Submitter, b: Books, cs: seq<Command>)
    requires s.Sound() && Safe(b) && Possible(s, b, cs)
    ensures FinalKept(b, After(s, b, cs))
    decreases |cs|
  {
    if cs != [] {
      CommandKeepsFinal(s, b, cs[0]);
      CommandIsSafe(s, b, cs[0]);
      FinalForGood(s, Do(s, b, cs[0]), cs[1..]);
      FinalKeptTwice(b, Do(s, b, cs[0]), After(s, b, cs));
    }
  }

  // --- an intent never disagrees with its flows -------------------------------------------------------

  // The stored state of an intent is what its flows make it, or it is terminal.
  predicate DerivedFor(b: Books, id: nat)
    requires id in b.intents
  {
    Terminal(b.intents[id].state) || b.intents[id].state == Resolve(FlowStates(b, id), false)
  }

  predicate Derived(b: Books) {
    forall id :: id in b.intents ==> DerivedFor(b, id)
  }

  // Only this intent and its flows were touched.
  predicate OnlyTouches(b: Books, after: Books, id: nat) {
    && (forall j :: j in after.intents && j != id ==> j in b.intents && after.intents[j] == b.intents[j])
    && (forall k :: k in after.flows && k.0 != id ==> k in b.flows && after.flows[k] == b.flows[k])
    && (forall k :: k in b.flows && k.0 != id ==> k in after.flows)
  }

  lemma OthersStayDerived(b: Books, after: Books, id: nat)
    requires Derived(b) && OnlyTouches(b, after, id)
    requires id in after.intents ==> DerivedFor(after, id)
    ensures Derived(after)
  {
    forall j | j in after.intents && j != id ensures DerivedFor(after, j) {
      assert DerivedFor(b, j);
      assert FlowStates(after, j) == FlowStates(b, j);
    }
  }

  lemma SettledIsDerived(b: Books, id: nat, now: int)
    requires id in b.intents
    ensures DerivedFor(Settle(b, id, now), id)
  {
    var flows := FlowStates(b, id);
    assert FlowStates(Settle(b, id, now), id) == flows;
    if flows != map[] {
      ResolveMeans(flows, now >= b.intents[id].closure);
    }
  }

  lemma TouchedTwice(a: Books, b: Books, c: Books, id: nat)
    requires OnlyTouches(a, b, id) && OnlyTouches(b, c, id)
    ensures OnlyTouches(a, c, id)
  {
  }

  lemma EnsureTouches(b: Books, id: nat)
    ensures OnlyTouches(b, b.(flows := EnsureFlows(b.flows, id)), id)
  {
    Ensured(b.flows, id);
  }

  lemma SendAllTouches(s: Submitter, b: Books, id: nat, list: seq<FlowName>, delivered: map<FlowName, bool>, now: int)
    requires s.Sound() && DepotFits(b.depot) && FlowsFit(b) && id in b.intents
    requires forall f :: f in list ==> (id, f) in b.flows
    ensures OnlyTouches(b, SendAll(s, b, id, list, delivered, now), id)
  {
    SendAllFits(s, b, id, list, delivered, now);
  }

  lemma SendFlowsTouches(s: Submitter, b: Books, id: nat, delivered: map<FlowName, bool>, now: int)
    requires s.Sound() && id in b.intents && DepotFits(b.depot) && FlowsFit(b) && Complete(b.flows)
    ensures OnlyTouches(b, SendFlows(s, b, id, delivered, now), id)
  {
    var ready := b.(flows := EnsureFlows(b.flows, id));
    var list := RetryableFlows(FlowStates(ready, id));
    EnsureTouches(b, id);
    EnsuredFits(b, id);
    ListIsRetryable(ready, id);
    SendAllTouches(s, ready, id, list, delivered, now);
    var sent := SendAll(s, ready, id, list, delivered, now);
    TouchedTwice(b, ready, sent, id);
    TouchedTwice(b, sent, Settle(sent, id, now), id);
  }

  lemma AttendIsDerived(s: Submitter, b: Books, id: nat, delivered: map<FlowName, bool>, now: int)
    requires s.Sound() && id in b.intents && DepotFits(b.depot) && FlowsFit(b) && Complete(b.flows)
    ensures OnlyTouches(b, Attend(s, b, id, delivered, now), id) && id in Attend(s, b, id, delivered, now).intents
    ensures DerivedFor(Attend(s, b, id, delivered, now), id)
  {
    if now < b.intents[id].closure {
      var ready := b.(flows := EnsureFlows(b.flows, id));
      ListIsRetryable(ready, id);
      SendFlowsTouches(s, b, id, delivered, now);
      SettledIsDerived(SendAll(s, ready, id, RetryableFlows(FlowStates(ready, id)), delivered, now), id, now);
    }
  }

  lemma FirstIsDerived(s: Submitter, b: Books, intent: Intent, closure: int, delivered: map<FlowName, bool>, now: int)
    requires s.Sound() && Derived(b) && DepotFits(b.depot) && FlowsFit(Recorded(b, intent, closure))
    requires Complete(b.flows)
    ensures Derived(Attend(s, Recorded(b, intent, closure), b.nextIntent, delivered, now))
  {
    var r, id := Recorded(b, intent, closure), b.nextIntent;
    assert OnlyTouches(b, r, id);
    AttendIsDerived(s, r, id, delivered, now);
    var after := Attend(s, r, id, delivered, now);
    TouchedTwice(b, r, after, id);
    OthersStayDerived(b, after, id);
  }

  lemma ActIsDerived(s: Submitter, b: Books, intent: Intent, delivered: map<FlowName, bool>, now: int)
    requires s.Sound() && Safe(b) && Derived(b)
    ensures Derived(Act(s, b, intent, delivered, now))
  {
    var closure := s.closure(intent.day, intent.slot);
    if closure.Some? {
      NewIntentIsNew(b, intent, closure.value);
      FirstIsDerived(s, b, intent, closure.value, delivered, now);
    }
  }

  lemma RetryIsDerived(s: Submitter, b: Books, id: nat, delivered: map<FlowName, bool>, now: int)
    requires s.Sound() && Safe(b) && Derived(b)
    ensures Derived(Retry(s, b, id, delivered, now))
  {
    if id in b.intents && !Terminal(b.intents[id].state) {
      AttendIsDerived(s, b, id, delivered, now);
      OthersStayDerived(b, Attend(s, b, id, delivered, now), id);
    }
  }

  lemma ReconcileFlowIsDerived(b: Books, k: (nat, FlowName), file: nat, now: int)
    requires Derived(b) && k in b.flows && k.0 in b.intents
    ensures Derived(ReconcileFlow(b, k, file, now))
  {
    if !Terminal(b.intents[k.0].state) {
      var changed := b.(flows := b.flows[k := b.flows[k].(state := FlowStateOf(b.depot.items, file, k.1))]);
      SettledIsDerived(changed, k.0, now);
      OthersStayDerived(b, Settle(changed, k.0, now), k.0);
    }
  }

  lemma ReconcileIsDerived(b: Books, file: nat, now: int)
    requires Derived(b)
    ensures Derived(Reconcile(b, file, now))
  {
    if FlowsOf(b.flows, file) != {} {
      var k :| k in FlowsOf(b.flows, file) && Reconcile(b, file, now) == if k.0 in b.intents then ReconcileFlow(b, k, file, now) else b;
      if k.0 in b.intents {
        ReconcileFlowIsDerived(b, k, file, now);
      }
    }
  }

  // In every reachable state an intent that is not terminal is in the state its flows resolve to before
  // the deadline, so it never disagrees with them.
  lemma {:induction false} IntentsFollowFlows(s: Submitter, b: Books, cs: seq<Command>)
    requires s.Sound() && Safe(b) && Derived(b) && Possible(s, b, cs)
    ensures Derived(After(s, b, cs))
    decreases |cs|
  {
    if cs != [] {
      CommandIsDerived(s, b, cs[0]);
      CommandIsSafe(s, b, cs[0]);
      IntentsFollowFlows(s, Do(s, b, cs[0]), cs[1..]);
    }
  }

  lemma CommandIsDerived(s: Submitter, b: Books, c: Command)
    requires s.Sound() && Safe(b) && Derived(b) && Allowed(b, c)
    ensures Derived(Do(s, b, c))
  {
    match c {
      case ActOn(intent, delivered, now) => ActIsDerived(s, b, intent, delivered, now);
      case RetryOf(id, delivered, now) => RetryIsDerived(s, b, id, delivered, now);
      case ReconcileFile(file, now) => ReconcileIsDerived(b, file, now);
      case Feedback(e) => SameRowsDerived(b, Heard(b.depot, e));
      case Beside(after) => SameRowsDerived(b, after);
    }
  }

  lemma SameRowsDerived(b: Books, depot: Depot)
    requires Derived(b)
    ensures Derived(b.(depot := depot))
  {
    forall id | id in b.intents ensures DerivedFor(b.(depot := depot), id) {
      assert DerivedFor(b, id);
      assert FlowStates(b.(depot := depot), id) == FlowStates(b, id);
    }
  }

  // --- retry discipline -----------------------------------------------------------------------------

  // A hand-off for a flow: of the file it has, or of a new one where it has none.
  predicate CallFits(row: FlowRow, c: Call, nextId: nat) {
    if row.file.Some? then c.resent && c.file == row.file.value else !c.resent && c.file >= nextId
  }

  // What one pass over a list of flows adds: at most one hand-off for each flow of the list, and nothing
  // else on the wire.
  predicate Handed(b: Books, after: Books, id: nat, list: seq<FlowName>, now: int) {
    && b.calls <= after.calls
    && |after.depot.world.wire| - |b.depot.world.wire| == |after.calls| - |b.calls|
    && (forall j :: |b.calls| <= j < |after.calls| ==>
          && after.calls[j].intent == id && after.calls[j].flow in list && after.calls[j].now == now
          && after.depot.world.wire[|b.depot.world.wire| + j - |b.calls|].id == after.calls[j].file
          && (id, after.calls[j].flow) in b.flows
          && CallFits(b.flows[(id, after.calls[j].flow)], after.calls[j], b.depot.world.nextId))
    && (forall i, j :: |b.calls| <= i < j < |after.calls| ==> after.calls[i].flow != after.calls[j].flow)
  }

  predicate NoRepeats(list: seq<FlowName>) {
    forall i, j :: 0 <= i < j < |list| ==> list[i] != list[j]
  }

  lemma BookedHands(b: Books, before: Books, id: nat, list: seq<FlowName>, f: FlowName, now: int, r: (Depot, Sending),
                    delivered: bool)
    requires Handed(b, before, id, list, now) && f !in list && (id, f) in b.flows && (id, f) in before.flows
    requires before.flows[(id, f)] == b.flows[(id, f)] && b.depot.world.nextId <= before.depot.world.nextId
    requires before.depot.world.wire <= r.0.world.wire
    requires r.0.world.wire == before.depot.world.wire
          || HandsOver(before.depot, r.0, if b.flows[(id, f)].file.Some? then b.flows[(id, f)].file.value else before.depot.world.nextId, delivered)
    ensures Handed(b, Booked(before, id, f, now, r), id, list + [f], now)
  {
    var after := Booked(before, id, f, now, r);
    forall j | |b.calls| <= j < |after.calls|
      ensures after.depot.world.wire[|b.depot.world.wire| + j - |b.calls|].id == after.calls[j].file
    {
      if j < |before.calls| {
        assert before.depot.world.wire[|b.depot.world.wire| + j - |b.calls|].id == before.calls[j].file;
      }
    }
  }

  lemma TryHands(s: Submitter, b: Books, before: Books, id: nat, list: seq<FlowName>, f: FlowName, ok: bool, now: int)
    requires s.Sound() && DepotFits(before.depot) && id in before.intents && (id, f) in b.flows
    requires (id, f) in before.flows
    requires Handed(b, before, id, list, now) && f !in list && b.depot.world.nextId <= before.depot.world.nextId
    requires before.flows[(id, f)] == b.flows[(id, f)] && FlowFits(before.depot, f, b.flows[(id, f)])
    ensures Handed(b, Booked(before, id, f, now, Try(s, before, id, f, ok, now)), id, list + [f], now)
  {
    TryFits(s, before, id, f, ok, now);
    BookedHands(b, before, id, list, f, now, Try(s, before, id, f, ok, now), ok);
  }

  // A flow that was not tried yet is as it was when the pass began.
  lemma BeforeTry(s: Submitter, b: Books, id: nat, front: seq<FlowName>, f: FlowName, delivered: map<FlowName, bool>,
                  now: int)
    requires s.Sound() && DepotFits(b.depot) && FlowsFit(b) && id in b.intents && (id, f) in b.flows
    requires f !in front && forall g :: g in front ==> (id, g) in b.flows
    ensures var before := SendAll(s, b, id, front, delivered, now);
            && DepotFits(before.depot) && b.depot.world.nextId <= before.depot.world.nextId
            && before.flows[(id, f)] == b.flows[(id, f)] && FlowFits(before.depot, f, b.flows[(id, f)])
  {
    SendAllFits(s, b, id, front, delivered, now);
    SendAllLeaves(s, b, id, front, delivered, now);
    FlowFitsStill(b.depot, SendAll(s, b, id, front, delivered, now).depot, f, b.flows[(id, f)]);
  }

  lemma HandsOneMore(s: Submitter, b: Books, id: nat, front: seq<FlowName>, f: FlowName,
                     delivered: map<FlowName, bool>, now: int)
    requires s.Sound() && DepotFits(b.depot) && FlowsFit(b) && id in b.intents && (id, f) in b.flows
    requires f !in front && forall g :: g in front ==> (id, g) in b.flows
    requires Handed(b, SendAll(s, b, id, front, delivered, now), id, front, now)
    ensures var before := SendAll(s, b, id, front, delivered, now);
            Handed(b, Booked(before, id, f, now, Try(s, before, id, f, Answer(delivered, f), now)), id, front + [f], now)
  {
    BeforeTry(s, b, id, front, f, delivered, now);
    TryHands(s, b, SendAll(s, b, id, front, delivered, now), id, front, f, Answer(delivered, f), now);
  }

  lemma {:induction false} SendAllHands(s: Submitter, b: Books, id: nat, list: seq<FlowName>,
                                        delivered: map<FlowName, bool>, now: int)
    requires s.Sound() && DepotFits(b.depot) && FlowsFit(b) && id in b.intents
    requires NoRepeats(list) && forall f :: f in list ==> (id, f) in b.flows
    ensures Handed(b, SendAll(s, b, id, list, delivered, now), id, list, now)
  {
    if list != [] {
      var n := |list| - 1;
      var front, f := list[..n], list[n];
      SendAllHands(s, b, id, front, delivered, now);
      assert list == front + [f];
      HandsOneMore(s, b, id, front, f, delivered, now);
    }
  }

  // What a command hands over: only for flows that were outstanding when it began, each once and with
  // the file it has, and strictly before the gate closure of its intent.
  ghost predicate Disciplined(b: Books, after: Books, now: int) {
    && b.calls <= after.calls
    && |after.depot.world.wire| - |b.depot.world.wire| == |after.calls| - |b.calls|
    && forall j :: |b.calls| <= j < |after.calls| ==>
         && after.depot.world.wire[|b.depot.world.wire| + j - |b.calls|].id == after.calls[j].file
         && after.calls[j].now == now
         && after.calls[j].intent in after.intents && now < after.intents[after.calls[j].intent].closure
         && WasOutstanding(b, after.calls[j])
         && forall i :: |b.calls| <= i < j ==> after.calls[i].flow != after.calls[j].flow
  }

  predicate WasOutstanding(b: Books, c: Call) {
    if (c.intent, c.flow) in b.flows
    then Intents.Retryable(b.flows[(c.intent, c.flow)].state) && CallFits(b.flows[(c.intent, c.flow)], c, b.depot.world.nextId)
    else !c.resent && c.file >= b.depot.world.nextId
  }

  lemma SendFlowsDisciplined(s: Submitter, b: Books, id: nat, delivered: map<FlowName, bool>, now: int)
    requires s.Sound() && id in b.intents && DepotFits(b.depot) && FlowsFit(b) && Complete(b.flows)
    requires now < b.intents[id].closure
    ensures Disciplined(b, SendFlows(s, b, id, delivered, now), now)
  {
    var ready := b.(flows := EnsureFlows(b.flows, id));
    var list := RetryableFlows(FlowStates(ready, id));
    Ensured(b.flows, id);
    EnsuredFits(b, id);
    ListIsRetryable(ready, id);
    SendAllHands(s, ready, id, list, delivered, now);
    HandedIsDisciplined(b, ready, SendAll(s, ready, id, list, delivered, now), id, list, now);
  }

  lemma HandedIsDisciplined(b: Books, ready: Books, sent: Books, id: nat, list: seq<FlowName>, now: int)
    requires Handed(ready, sent, id, list, now) && ready.depot == b.depot && ready.calls == b.calls
    requires forall f :: f in list ==> (id, f) in ready.flows && Intents.Retryable(ready.flows[(id, f)].state)
    requires forall k :: k in b.flows ==> k in ready.flows && ready.flows[k] == b.flows[k]
    requires forall k :: k in ready.flows && k !in b.flows ==> ready.flows[k] == FlowRow(FlowPending, None, 0)
    requires id in sent.intents && now < sent.intents[id].closure
    ensures Disciplined(b, Settle(sent, id, now), now)
  {
    forall j | |b.calls| <= j < |sent.calls| ensures WasOutstanding(b, sent.calls[j]) {
      CallWasOutstanding(b, ready, sent.calls[j], id, list);
    }
  }

  lemma CallWasOutstanding(b: Books, ready: Books, c: Call, id: nat, list: seq<FlowName>)
    requires c.intent == id && c.flow in list && ready.depot == b.depot
    requires (id, c.flow) in ready.flows && Intents.Retryable(ready.flows[(id, c.flow)].state)
    requires CallFits(ready.flows[(id, c.flow)], c, ready.depot.world.nextId)
    requires (id, c.flow) in b.flows ==> ready.flows[(id, c.flow)] == b.flows[(id, c.flow)]
    requires (id, c.flow) !in b.flows ==> ready.flows[(id, c.flow)] == FlowRow(FlowPending, None, 0)
    ensures WasOutstanding(b, c)
  {
  }

  // Every act and every retry is disciplined, and nothing else the service does hands anything over.
  lemma CallsAreDisciplined(s: Submitter, b: Books, c: Command)
    requires s.Sound() && Safe(b) && Allowed(b, c)
    ensures c.ActOn? || c.RetryOf? ==> Disciplined(b, Do(s, b, c), c.now)
    ensures !(c.ActOn? || c.RetryOf?) ==> Do(s, b, c).calls == b.calls
    ensures c.ReconcileFile? || c.Feedback? ==> Do(s, b, c).depot.world.wire == b.depot.world.wire
  {
    match c {
      case ActOn(intent, delivered, now) => ActIsDisciplined(s, b, intent, delivered, now);
      case RetryOf(id, delivered, now) => RetryIsDisciplined(s, b, id, delivered, now);
      case ReconcileFile(file, now) => ReconcileHandsNothing(b, file, now);
      case _ =>
    }
  }

  lemma DisciplinedFrom(b: Books, r: Books, after: Books, now: int)
    requires Disciplined(r, after, now) && r.depot == b.depot && r.flows == b.flows && r.calls == b.calls
    ensures Disciplined(b, after, now)
  {
  }

  lemma HandsNothing(b: Books, after: Books, now: int)
    requires after.depot == b.depot && after.calls == b.calls
    ensures Disciplined(b, after, now)
  {
  }

  lemma AttendIsDisciplined(s: Submitter, b: Books, id: nat, delivered: map<FlowName, bool>, now: int)
    requires s.Sound() && id in b.intents && DepotFits(b.depot) && FlowsFit(b) && Complete(b.flows)
    ensures Disciplined(b, Attend(s, b, id, delivered, now), now)
  {
    if now < b.intents[id].closure {
      SendFlowsDisciplined(s, b, id, delivered, now);
    } else {
      HandsNothing(b, Attend(s, b, id, delivered, now), now);
    }
  }

  lemma ActIsDisciplined(s: Submitter, b: Books, intent: Intent, delivered: map<FlowName, bool>, now: int)
    requires s.Sound() && Safe(b)
    ensures Disciplined(b, Act(s, b, intent, delivered, now), now)
  {
    var closure := s.closure(intent.day, intent.slot);
    HandsNothing(b, b, now);
    if closure.Some? {
      var r := Recorded(b, intent, closure.value);
      NewIntentIsNew(b, intent, closure.value);
      AttendIsDisciplined(s, r, b.nextIntent, delivered, now);
      DisciplinedFrom(b, r, Attend(s, r, b.nextIntent, delivered, now), now);
    }
  }

  lemma RetryIsDisciplined(s: Submitter, b: Books, id: nat, delivered: map<FlowName, bool>, now: int)
    requires s.Sound() && Safe(b)
    ensures Disciplined(b, Retry(s, b, id, delivered, now), now)
  {
    HandsNothing(b, b, now);
    if id in b.intents {
      AttendIsDisciplined(s, b, id, delivered, now);
    }
  }

  lemma ReconcileHandsNothing(b: Books, file: nat, now: int)
    ensures Reconcile(b, file, now).calls == b.calls && Reconcile(b, file, now).depot == b.depot
  {
  }

  // Every hand-off so far was made before the gate closure of its intent.
  predicate InTime(b: Books) {
    forall j :: 0 <= j < |b.calls| ==>
      b.calls[j].intent in b.intents && b.calls[j].now < b.intents[b.calls[j].intent].closure
  }

  // Every hand-off for this flow from the n-th on was of this file, as it was archived.
  predicate OnlyResent(calls: seq<Call>, n: nat, k: (nat, FlowName), file: nat) {
    forall j :: n <= j < |calls| && (calls[j].intent, calls[j].flow) == k ==> calls[j].resent && calls[j].file == file
  }

  lemma CommandIsInTime(s: Submitter, b: Books, c: Command)
    requires s.Sound() && Safe(b) && Allowed(b, c) && InTime(b)
    ensures InTime(Do(s, b, c)) && b.calls <= Do(s, b, c).calls
  {
    CallsAreDisciplined(s, b, c);
    CommandKeepsFinal(s, b, c);
    if c.ActOn? || c.RetryOf? {
      InTimeAfter(b, Do(s, b, c), c.now);
    } else {
      InTimeStill(b, Do(s, b, c));
    }
  }

  lemma InTimeAfter(b: Books, after: Books, now: int)
    requires InTime(b) && Disciplined(b, after, now) && IntentsKept(b.intents, after.intents)
    ensures InTime(after) && b.calls <= after.calls
  {
    forall j | 0 <= j < |after.calls|
      ensures after.calls[j].intent in after.intents
      ensures after.calls[j].now < after.intents[after.calls[j].intent].closure
    {
      if j < |b.calls| {
        assert after.calls[j] == b.calls[j];
      }
    }
  }

  lemma InTimeStill(b: Books, after: Books)
    requires InTime(b) && after.calls == b.calls && IntentsKept(b.intents, after.intents)
    ensures InTime(after)
  {
  }

  lemma CommandOnlyResends(s: Submitter, b: Books, c: Command, k: (nat, FlowName), file: nat)
    requires s.Sound() && Safe(b) && Allowed(b, c) && k in b.flows && b.flows[k].file == Some(file)
    ensures OnlyResent(Do(s, b, c).calls, |b.calls|, k, file)
  {
    CallsAreDisciplined(s, b, c);
  }

  lemma ResentInTwo(first: seq<Call>, second: seq<Call>, third: seq<Call>, k: (nat, FlowName), file: nat)
    requires first <= second <= third
    requires OnlyResent(second, |first|, k, file) && OnlyResent(third, |second|, k, file)
    ensures OnlyResent(third, |first|, k, file)
  {
    forall j | |first| <= j < |third| && (third[j].intent, third[j].flow) == k ensures third[j].resent && third[j].file == file {
      if j < |second| {
        assert third[j] == second[j];
      }
    }
  }

  // Over any run: every hand-off is made before its gate closes, and once a flow has a file, nothing but
  // that file is ever handed over for it.
  lemma {:induction false} RetryDiscipline(s: Submitter, b: Books, cs: seq<Command>, k: (nat, FlowName), file: nat)
    requires s.Sound() && Safe(b) && InTime(b) && Possible(s, b, cs) && k in b.flows && b.flows[k].file == Some(file)
    ensures var after := After(s, b, cs);
            && InTime(after) && b.calls <= after.calls
            && k in after.flows && after.flows[k].file == Some(file)
            && OnlyResent(after.calls, |b.calls|, k, file)
    decreases |cs|
  {
    if cs != [] {
      var n := Do(s, b, cs[0]);
      CommandIsSafe(s, b, cs[0]);
      CommandIsInTime(s, b, cs[0]);
      CommandKeepsFinal(s, b, cs[0]);
      CommandOnlyResends(s, b, cs[0], k, file);
      RetryDiscipline(s, n, cs[1..], k, file);
      ResentInTwo(b.calls, n.calls, After(s, b, cs).calls, k, file);
    }
  }

  // --- a message delivered twice ---------------------------------------------------------------------

  // The stream without the acts whose key came before.
  function DropRepeats(cs: seq<Command>, seen: set<Key>): seq<Command> {
    if cs == [] then []
    else
      match cs[0]
      case ActOn(intent, _, _) =>
        if intent.TheKey() in seen then DropRepeats(cs[1..], seen)
        else [cs[0]] + DropRepeats(cs[1..], seen + {intent.TheKey()})
      case _ => [cs[0]] + DropRepeats(cs[1..], seen)
  }

  lemma SpentStays(s: Submitter, b: Books, after: Books, key: Key)
    requires IntentsKept(b.intents, after.intents) && Spent(s, b, key)
    ensures Spent(s, after, key)
  {
    if WithKey(b.intents, key) != {} {
      var id :| id in WithKey(b.intents, key);
      assert id in WithKey(after.intents, key);
    }
  }

  // At-least-once delivery collapses to once: with later repeats left out, a stream of acts, retries and
  // feedback leads to the same books, the same wire and the same hand-offs.
  lemma {:induction false} RepeatsChangeNothing(s: Submitter, b: Books, cs: seq<Command>, seen: set<Key>)
    requires s.Sound() && Safe(b) && Possible(s, b, cs) && forall key :: key in seen ==> Spent(s, b, key)
    ensures Possible(s, b, DropRepeats(cs, seen)) && After(s, b, DropRepeats(cs, seen)) == After(s, b, cs)
    decreases |cs|
  {
    if cs != [] {
      var c, n := cs[0], Do(s, b, cs[0]);
      CommandIsSafe(s, b, c);
      CommandKeepsFinal(s, b, c);
      forall key | key in seen ensures Spent(s, n, key) {
        SpentStays(s, b, n, key);
      }
      var dropped := c.ActOn? && c.intent.TheKey() in seen;
      var more := if c.ActOn? then seen + {c.intent.TheKey()} else seen;
      if c.ActOn? {
        ActKeepsFinal(s, b, c.intent, c.delivered, c.now);
      }
      RepeatsChangeNothing(s, n, cs[1..], more);
      var rest := DropRepeats(cs[1..], more);
      if dropped {
        assert more == seen && Spent(s, b, c.intent.TheKey()) && n == b;
        assert DropRepeats(cs, seen) == rest;
      } else {
        assert DropRepeats(cs, seen) == [c] + rest && ([c] + rest)[1..] == rest;
      }
    }
  }

  // --- what a failed delivery leads to ------------------------------------------------------------------

  // A flow whose file was built, and whose item is still pending.
  predicate Stranded(b: Books, k: (nat, FlowName)) {
    && k in b.flows && b.flows[k].file.Some?
    && Behind(b.depot.items, b.flows[k].file.value, k.1, Pending)
  }

  lemma StrandedStays(d: Depot, after: Depot, f: FlowName, row: FlowRow, again: FlowRow)
    requires FlowFits(d, f, row) && row.file.Some? && again.file == row.file
    requires Behind(d.items, row.file.value, f, Pending)
    requires Grown(d, after) || (OnlyMovesSubmitted(d.items, after.items) && after.world == d.world)
    ensures Behind(after.items, again.file.value, f, Pending)
  {
    var file, table := row.file.value, TableOf(f);
    if Grown(d, after) {
      GrownKeepsRows(d, after, file, table);
    } else {
      assert RowsOf(after.items, file, table) == RowsOf(d.items, file, table);
    }
  }

  lemma SendFlowsGrows(s: Submitter, b: Books, id: nat, delivered: map<FlowName, bool>, now: int)
    requires s.Sound() && id in b.intents && DepotFits(b.depot) && FlowsFit(b) && Complete(b.flows)
    ensures Grown(b.depot, SendFlows(s, b, id, delivered, now).depot)
  {
    var ready := b.(flows := EnsureFlows(b.flows, id));
    EnsuredFits(b, id);
    ListIsRetryable(ready, id);
    SendAllFits(s, ready, id, RetryableFlows(FlowStates(ready, id)), delivered, now);
  }

  lemma AttendGrows(s: Submitter, b: Books, id: nat, delivered: map<FlowName, bool>, now: int)
    requires s.Sound() && id in b.intents && DepotFits(b.depot) && FlowsFit(b) && Complete(b.flows)
    ensures Grown(b.depot, Attend(s, b, id, delivered, now).depot)
  {
    if now < b.intents[id].closure {
      SendFlowsGrows(s, b, id, delivered, now);
    } else {
      GrownNone(b.depot);
    }
  }

  lemma ActGrows(s: Submitter, b: Books, intent: Intent, delivered: map<FlowName, bool>, now: int)
    requires s.Sound() && Safe(b)
    ensures Grown(b.depot, Act(s, b, intent, delivered, now).depot)
  {
    var closure := s.closure(intent.day, intent.slot);
    GrownNone(b.depot);
    if closure.Some? {
      NewIntentIsNew(b, intent, closure.value);
      AttendGrows(s, Recorded(b, intent, closure.value), b.nextIntent, delivered, now);
    }
  }

  lemma RetryGrows(s: Submitter, b: Books, id: nat, delivered: map<FlowName, bool>, now: int)
    requires s.Sound() && Safe(b)
    ensures Grown(b.depot, Retry(s, b, id, delivered, now).depot)
  {
    GrownNone(b.depot);
    if id in b.intents {
      AttendGrows(s, b, id, delivered, now);
    }
  }

  // What a command does to the depot.
  lemma DepotMoves(s: Submitter, b: Books, c: Command)
    requires s.Sound() && Safe(b) && Allowed(b, c)
    ensures var after := Do(s, b, c).depot;
            Grown(b.depot, after) || (OnlyMovesSubmitted(b.depot.items, after.items) && after.world == b.depot.world)
  {
    match c {
      case ActOn(intent, delivered, now) => ActGrows(s, b, intent, delivered, now);
      case RetryOf(id, delivered, now) => RetryGrows(s, b, id, delivered, now);
      case ReconcileFile(file, now) =>
        ReconcileHandsNothing(b, file, now);
        GrownNone(b.depot);
      case Feedback(e) => FeedbackOnlyMoves(Desk(b.depot.world, b.depot.items, b.depot.nextItem, []), e);
      case Beside(after) =>
    }
  }

  lemma CommandKeepsStranded(s: Submitter, b: Books, c: Command, k: (nat, FlowName))
    requires s.Sound() && Safe(b) && Allowed(b, c) && Stranded(b, k)
    ensures Stranded(Do(s, b, c), k)
  {
    CommandKeepsFinal(s, b, c);
    DepotMoves(s, b, c);
    assert FlowFits(b.depot, k.1, b.flows[k]);
    StrandedStays(b.depot, Do(s, b, c).depot, k.1, b.flows[k], Do(s, b, c).flows[k]);
  }

  lemma StrandedIsNotActed(b: Books, k: (nat, FlowName))
    requires Safe(b) && Stranded(b, k)
    ensures b.flows[k].state != FlowAccepted
    ensures k.0 in b.intents && b.intents[k.0].state != Acted
  {
    assert FlowFits(b.depot, k.1, b.flows[k]) && IntentFits(b, k.0);
    var i :| RowsOf(b.depot.items, b.flows[k].file.value, TableOf(k.1)) == {i};
    assert i in RowsOf(b.depot.items, b.flows[k].file.value, TableOf(k.1));
    assert k.1 == EcvnFlow || k.1 == SevFlow || k.1 == WmanFlow;
  }

  // Once the first delivery of a flow has failed, no retry, resend or feedback ever makes its intent acted:
  // a resend leaves the item pending, and a pending item is never accepted.
  lemma {:induction false} StrandedForGood(s: Submitter, b: Books, cs: seq<Command>, k: (nat, FlowName))
    requires s.Sound() && Safe(b) && Stranded(b, k) && Possible(s, b, cs)
    ensures Stranded(After(s, b, cs), k)
    ensures k.0 in After(s, b, cs).intents && After(s, b, cs).intents[k.0].state != Acted
    decreases |cs|
  {
    if cs == [] {
      StrandedIsNotActed(b, k);
    } else {
      CommandKeepsStranded(s, b, cs[0], k);
      CommandIsSafe(s, b, cs[0]);
      StrandedForGood(s, Do(s, b, cs[0]), cs[1..], k);
    }
  }

  lemma FailedDeliveryStrands(s: Submitter, b: Books, id: nat, f: FlowName, now: int)
    requires s.Sound() && Safe(b) && id in b.intents && (id, f) in b.flows && b.flows[(id, f)].file.None?
    requires Try(s, b, id, f, false, now).1.Done?
    ensures Stranded(Booked(b, id, f, now, Try(s, b, id, f, false, now)), (id, f))
  {
    assert SubmitFits(b.depot, f, s.submit(b.depot, b.intents[id].intent, f, false, now), false);
  }

  // Reconciling such a file writes PENDING back to the flow, even after a resend that was delivered.
  lemma ReconcileWritesPending(b: Books, k: (nat, FlowName), now: int)
    requires Safe(b) && Stranded(b, k) && k.0 in b.intents && !Terminal(b.intents[k.0].state)
    ensures ReconcileFlow(b, k, b.flows[k].file.value, now).flows[k].state == FlowPending
  {
    assert FlowFits(b.depot, k.1, b.flows[k]);
    ReadBackIs(b.depot, b.flows[k], k.1);
  }
}
