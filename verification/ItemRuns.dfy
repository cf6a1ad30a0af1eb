// Submitters and feedback side by side: items against files, while senders and sweeps go on elsewhere.
module ItemRuns {
  import opened Wrappers
  import opened Fields
  import opened FileTables
  import opened SendRuns
  import opened Items

  // A submitter after its send returned, and after it inserted its rows.
  datatype Clerk =
    | Free
    | Returned(file: nat, delivered: bool, table: Table, rows: seq<Item>)
    | Entered(file: nat, delivered: bool, table: Table)

  datatype Desk = Desk(world: World, items: map<nat, Item>, nextItem: nat, clerks: seq<Clerk>)

  datatype Event =
    | Elsewhere(after: World)
    | SendReturned(w: nat, file: nat, delivered: bool, table: Table, rows: seq<Item>)
    | InsertRows(w: nat, refused: bool)
    | MarkRows(w: nat)
    | Abandon(w: nat)
    | AcceptOne(table: Table, id: nat)
    | RejectNote(id: nat, reason: string, named: seq<(nat, string)>)
    | RejectWhole(table: Table, id: nat, reason: string)
    | RejectSlot(table: Table, id: nat, slot: nat)
    | RejectActivity(day: Date, slot: nat, unit: Option<string>, reason: string)
    | AcceptActivity(id: nat)

  function InsertAll(items: map<nat, Item>, next: nat, rows: seq<Item>): map<nat, Item>
    decreases |rows|
  {
    if rows == [] then items else InsertAll(items[next := rows[0]], next + 1, rows[1..])
  }

  predicate Enabled(d: Desk, e: Event) {
    match e
    // Any number of steps of any senders, and acknowledgements and sweeps.
    case Elsewhere(after) => Forward(d.world, after)
    // What Sender.send returns of a file it sent.
    case SendReturned(w, file, delivered, table, rows) =>
      && w < |d.clerks| && d.clerks[w].Free?
      && file in d.world.t.files && (delivered ==> WentOut(d.world, file))
      && forall r :: r in rows ==> Fresh(r) && r.file == file && r.table == table
    case InsertRows(w, _) => w < |d.clerks| && d.clerks[w].Returned?
    case MarkRows(w) => w < |d.clerks| && d.clerks[w].Entered?
    case Abandon(w) => w < |d.clerks|
    case RejectWhole(table, _, _) => table.Sev? || table.DeliveredVolume?
    case RejectSlot(table, _, _) => table.Sev? || table.DeliveredVolume?
    case _ => true
  }

  function OrSame(items: map<nat, Item>, r: Result<map<nat, Item>, ItemError>): map<nat, Item> {
    match r
    case Success(after) => after
    case Failure(_) => items
  }

  function Next(d: Desk, e: Event): Desk
    requires Enabled(d, e)
  {
    match e
    case Elsewhere(after) => d.(world := after)
    case SendReturned(w, file, delivered, table, rows) => d.(clerks := d.clerks[w := Returned(file, delivered, table, rows)])
    case InsertRows(w, refused) =>
      var k := d.clerks[w];
      if refused then d.(clerks := d.clerks[w := Free])
      else d.(items := InsertAll(d.items, d.nextItem, k.rows), nextItem := d.nextItem + |k.rows|,
              clerks := d.clerks[w := Entered(k.file, k.delivered, k.table)])
    case MarkRows(w) =>
      var k := d.clerks[w];
      d.(items := if k.delivered then Submit(d.items, k.table, k.file) else d.items, clerks := d.clerks[w := Free])
    case Abandon(w) => d.(clerks := d.clerks[w := Free])
    case AcceptOne(table, id) => d.(items := OrSame(d.items, Accept(d.items, table, id)))
    case RejectNote(id, reason, named) => d.(items := OrSame(d.items, RejectNotification(d.items, id, reason, named)))
    case RejectWhole(table, id, reason) => d.(items := OrSame(d.items, RejectVolume(d.items, table, id, reason)))
    case RejectSlot(table, id, slot) => d.(items := RejectPeriod(d.items, table, id, slot))
    case RejectActivity(day, slot, unit, reason) => d.(items := RejectWman(d.items, day, slot, unit, reason))
    case AcceptActivity(id) => d.(items := OrSame(d.items, AcceptWman(d.items, id)))
  }

  predicate Possible(d: Desk, events: seq<Event>)
    decreases |events|
  {
    events == [] || (Enabled(d, events[0]) && Possible(Next(d, events[0]), events[1..]))
  }

  function After(d: Desk, events: seq<Event>): Desk
    requires Possible(d, events)
    decreases |events|
  {
    if events == [] then d else After(Next(d, events[0]), events[1..])
  }

  function Start(world: World, clerks: nat): Desk {
    Desk(world, map[], 1, seq(clerks, _ => Free))
  }

  // --- what every event keeps -------------------------------------------------------------

  // An item that has been submitted is in a file that went out.
  predicate OnWire(world: World, i: Item) {
    && i.file in world.t.files
    && (i.state != Pending ==> WentOut(world, i.file))
  }

  predicate AllOnWire(world: World, items: map<nat, Item>) {
    forall i :: i in items ==> OnWire(world, items[i])
  }

  predicate ClerkFits(world: World, k: Clerk) {
    match k
    case Free => true
    case Returned(file, delivered, table, rows) =>
      && file in world.t.files && (delivered ==> WentOut(world, file))
      && forall r :: r in rows ==> Fresh(r) && r.file == file && r.table == table
    case Entered(file, delivered, _) => delivered ==> WentOut(world, file)
  }

  predicate Safe(d: Desk) {
    && (forall i :: i in d.items ==> i < d.nextItem)
    && AllAgree(d.items)
    && AllOnWire(d.world, d.items)
    && (forall w :: 0 <= w < |d.clerks| ==> ClerkFits(d.world, d.clerks[w]))
  }

  lemma ElsewhereIsSafe(d: Desk, after: World)
    requires Safe(d) && Forward(d.world, after)
    ensures Safe(d.(world := after))
  {
    forall i | i in d.items ensures OnWire(after, d.items[i]) {
      assert OnWire(d.world, d.items[i]);
      if d.items[i].state != Pending {
        WentOutStill(d.world, after, d.items[i].file);
      }
    }
    forall w | 0 <= w < |d.clerks| ensures ClerkFits(after, d.clerks[w]) {
      var k := d.clerks[w];
      assert ClerkFits(d.world, k);
      if !k.Free? && k.delivered {
        WentOutStill(d.world, after, k.file);
      }
    }
  }

  lemma {:induction false} InsertKeeps(world: World, items: map<nat, Item>, next: nat, rows: seq<Item>, file: nat)
    requires AllAgree(items) && AllOnWire(world, items) && file in world.t.files
    requires forall i :: i in items ==> i < next
    requires forall r :: r in rows ==> Fresh(r) && r.file == file
    ensures var after := InsertAll(items, next, rows);
            AllAgree(after) && AllOnWire(world, after) && forall i :: i in after ==> i < next + |rows|
    decreases |rows|
  {
    if rows != [] {
      FreshAgrees(rows[0]);
      assert forall r :: r in rows[1..] ==> r in rows;
      InsertKeeps(world, items[next := rows[0]], next + 1, rows[1..], file);
    }
  }

  lemma InsertIsSafe(d: Desk, w: nat, refused: bool)
    requires Safe(d) && Enabled(d, InsertRows(w, refused))
    ensures Safe(Next(d, InsertRows(w, refused)))
  {
    assert ClerkFits(d.world, d.clerks[w]);
    InsertKeeps(d.world, d.items, d.nextItem, d.clerks[w].rows, d.clerks[w].file);
  }

  lemma MarkIsSafe(d: Desk, w: nat)
    requires Safe(d) && Enabled(d, MarkRows(w))
    ensures Safe(Next(d, MarkRows(w)))
  {
    var k := d.clerks[w];
    assert ClerkFits(d.world, k);
    SubmitAgrees(d.items, k.table, k.file);
    forall i | i in d.items ensures k.delivered ==> OnWire(d.world, Submit(d.items, k.table, k.file)[i]) {
      assert OnWire(d.world, d.items[i]);
    }
  }

  // Feedback changes the state of no item that is still pending.
  predicate OnlyMovesSubmitted(items: map<nat, Item>, after: map<nat, Item>) {
    && after.Keys == items.Keys
    && forall i :: i in items ==>
         && after[i].file == items[i].file && after[i].table == items[i].table
         && (after[i].state == items[i].state || (items[i].state == Submitted && after[i].state in {Accepted, Rejected}))
  }

  lemma FeedbackKeeps(d: Desk, after: map<nat, Item>)
    requires Safe(d) && AllAgree(after) && OnlyMovesSubmitted(d.items, after)
    ensures Safe(d.(items := after))
  {
    forall i | i in after ensures OnWire(d.world, after[i]) {
      assert OnWire(d.world, d.items[i]);
    }
  }

  predicate IsFeedback(e: Event) {
    e.AcceptOne? || e.RejectNote? || e.RejectWhole? || e.RejectSlot? || e.RejectActivity? || e.AcceptActivity?
  }

  lemma FeedbackOnlyMoves(d: Desk, e: Event)
    requires IsFeedback(e) && Enabled(d, e)
    ensures OnlyMovesSubmitted(d.items, Next(d, e).items)
  {
  }

  lemma AcceptIsSafe(d: Desk, table: Table, id: nat)
    requires Safe(d)
    ensures Safe(d.(items := OrSame(d.items, Accept(d.items, table, id))))
  {
    if Accept(d.items, table, id).Success? {
      AcceptAgrees(d.items, table, id);
    }
    FeedbackKeeps(d, OrSame(d.items, Accept(d.items, table, id)));
  }

  lemma RejectIsSafe(d: Desk, table: Table, id: nat, reason: string)
    requires Safe(d)
    ensures Safe(d.(items := OrSame(d.items, RejectVolume(d.items, table, id, reason))))
  {
    if RejectVolume(d.items, table, id, reason).Success? {
      RejectVolumeAgrees(d.items, table, id, reason);
    }
    FeedbackKeeps(d, OrSame(d.items, RejectVolume(d.items, table, id, reason)));
  }

  lemma RejectSlotIsSafe(d: Desk, table: Table, id: nat, slot: nat)
    requires Safe(d) && (table.Sev? || table.DeliveredVolume?)
    ensures Safe(d.(items := RejectPeriod(d.items, table, id, slot)))
  {
    RejectPeriodAgrees(d.items, table, id, slot);
    FeedbackKeeps(d, RejectPeriod(d.items, table, id, slot));
  }

  lemma NoteIsSafe(d: Desk, id: nat, reason: string, named: seq<(nat, string)>)
    requires Safe(d)
    ensures Safe(d.(items := OrSame(d.items, RejectNotification(d.items, id, reason, named))))
  {
    if RejectNotification(d.items, id, reason, named).Success? {
      RejectNotificationAgrees(d.items, id, reason, named);
    }
    FeedbackKeeps(d, OrSame(d.items, RejectNotification(d.items, id, reason, named)));
  }

  lemma RejectActivityIsSafe(d: Desk, day: Date, slot: nat, unit: Option<string>, reason: string)
    requires Safe(d)
    ensures Safe(d.(items := RejectWman(d.items, day, slot, unit, reason)))
  {
    RejectWmanAgrees(d.items, day, slot, unit, reason);
    FeedbackKeeps(d, RejectWman(d.items, day, slot, unit, reason));
  }

  lemma AcceptActivityIsSafe(d: Desk, id: nat)
    requires Safe(d)
    ensures Safe(d.(items := OrSame(d.items, AcceptWman(d.items, id))))
  {
    if AcceptWman(d.items, id).Success? {
      assert Agrees(d.items[id]);
    }
    FeedbackKeeps(d, OrSame(d.items, AcceptWman(d.items, id)));
  }

  lemma EventIsSafe(d: Desk, e: Event)
    requires Safe(d) && Enabled(d, e)
    ensures Safe(Next(d, e))
  {
    match e {
      case Elsewhere(after) => ElsewhereIsSafe(d, after);
      case InsertRows(w, refused) => InsertIsSafe(d, w, refused);
      case MarkRows(w) => MarkIsSafe(d, w);
      case AcceptOne(table, id) => AcceptIsSafe(d, table, id);
      case RejectNote(id, reason, named) => NoteIsSafe(d, id, reason, named);
      case RejectWhole(table, id, reason) => RejectIsSafe(d, table, id, reason);
      case RejectSlot(table, id, slot) => RejectSlotIsSafe(d, table, id, slot);
      case RejectActivity(day, slot, unit, reason) => RejectActivityIsSafe(d, day, slot, unit, reason);
      case AcceptActivity(id) => AcceptActivityIsSafe(d, id);
      case _ =>
    }
  }

  lemma {:induction false} RunsAreSafe(d: Desk, events: seq<Event>)
    requires Safe(d) && Possible(d, events)
    ensures Safe(After(d, events))
    decreases |events|
  {
    if events != [] {
      EventIsSafe(d, events[0]);
      RunsAreSafe(Next(d, events[0]), events[1..]);
    }
  }

  ghost predicate Reachable(d: Desk) {
    exists world: World, clerks: nat, events: seq<Event> ::
      Possible(Start(world, clerks), events) && After(Start(world, clerks), events) == d
  }

  lemma ReachableIsSafe(d: Desk)
    requires Reachable(d)
    ensures Safe(d)
  {
    var world: World, clerks: nat, events :| Possible(Start(world, clerks), events) && After(Start(world, clerks), events) == d;
    RunsAreSafe(Start(world, clerks), events);
  }

  // In every reachable state the periods of an item agree with it.
  lemma PeriodsAgree(d: Desk, i: nat, p: nat)
    requires Reachable(d) && i in d.items && p in d.items[i].periods
    ensures PeriodAgrees(d.items[i].table, d.items[i].state, d.items[i].periods[p].state)
  {
    ReachableIsSafe(d);
    assert Agrees(d.items[i]);
  }

  // In every reachable state an item that is no longer pending, or has a period that is not, belongs to
  // a file that was handed over successfully and has not gone back.
  lemma ItemsFollowTheWire(d: Desk, i: nat)
    requires Reachable(d) && i in d.items
    requires d.items[i].state != Pending || exists p :: p in d.items[i].periods && d.items[i].periods[p].state != Pending
    ensures d.items[i].file in d.world.t.files
    ensures d.world.t.files[d.items[i].file].state in {Sent, Unacknowledged, ReceiptAcked, Superseded}
    ensures WasDelivered(d.world.wire, d.items[i].file)
  {
    ReachableIsSafe(d);
    assert Agrees(d.items[i]) && OnWire(d.world, d.items[i]);
  }

  // --- accepted and rejected are for good -----------------------------------------------------

  predicate Closed(s: ItemState) {
    s == Accepted || s == Rejected
  }

  lemma {:induction false} InsertAllKeeps(items: map<nat, Item>, next: nat, rows: seq<Item>, i: nat)
    requires i in items && i < next
    ensures i in InsertAll(items, next, rows) && InsertAll(items, next, rows)[i] == items[i]
    decreases |rows|
  {
    if rows != [] {
      InsertAllKeeps(items[next := rows[0]], next + 1, rows[1..], i);
    }
  }

  lemma EventsKeepClosed(d: Desk, e: Event, i: nat)
    requires Safe(d) && Enabled(d, e) && i in d.items && Closed(d.items[i].state)
    ensures i in Next(d, e).items && Next(d, e).items[i].state == d.items[i].state
  {
    if e.InsertRows? && !e.refused {
      InsertAllKeeps(d.items, d.nextItem, d.clerks[e.w].rows, i);
    }
  }

  // No feedback, submission or sweep ever moves an item that was accepted or rejected.
  lemma {:induction false} ClosedForGood(d: Desk, events: seq<Event>, i: nat)
    requires Safe(d) && Possible(d, events) && i in d.items && Closed(d.items[i].state)
    ensures i in After(d, events).items && After(d, events).items[i].state == d.items[i].state
    decreases |events|
  {
    if events != [] {
      EventsKeepClosed(d, events[0], i);
      EventIsSafe(d, events[0]);
      ClosedForGood(Next(d, events[0]), events[1..], i);
    }
  }
}
