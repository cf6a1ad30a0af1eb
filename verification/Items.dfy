// Notifications, expected volumes, delivered volumes and wholesale activity: the rows, their periods,
// and the feedback that moves them.
module Items {
  import opened Wrappers
  import opened Fields
  import opened FileTables
  import opened SendRuns

  // --- rows ---------------------------------------------------------------------------

  datatype ItemState = Pending | Submitted | Accepted | Rejected

  predicate ItemEdge(from: ItemState, to: ItemState) {
    match from
    case Pending => to == Submitted
    case Submitted => to == Accepted || to == Rejected
    case _ => false
  }

  // The tables: the first three have period rows, the last is flat.
  datatype Table = Notification | Sev | DeliveredVolume | Wman

  datatype Period = Period(state: ItemState, reason: Option<string>)

  datatype Item = Item(
    table: Table, file: nat, day: Date, slot: nat, unit: string,
    state: ItemState, reason: Option<string>, periods: map<nat, Period>)

  datatype ItemError = NoItem | IllegalMove

  // reason[:80]
  function Cut(reason: string): string {
    if |reason| <= 80 then reason else reason[..80]
  }

  // A row as the submitter inserts it.
  predicate Fresh(i: Item) {
    && i.state == Pending && i.reason.None?
    && (forall p :: p in i.periods ==> i.periods[p].state == Pending)
    && (i.table.Wman? ==> i.periods == map[])
  }

  // UPDATE .. SET state WHERE state, over the period rows of one item; a reason is written where one is given.
  function Cascade(periods: map<nat, Period>, from: ItemState, to: ItemState, reason: Option<string>): map<nat,
                   Period> {
    map p | p in periods ::
      if periods[p].state == from
      then Period(to, if reason.Some? then reason else periods[p].reason)
      else periods[p]
  }

  // --- operations -----------------------------------------------------------------------

  // submit_items: the items of one table that a file carries, and their periods.
  function Submit(items: map<nat, Item>, table: Table, file: nat): map<nat, Item> {
    map i | i in items ::
      if items[i].table == table && items[i].file == file
      then items[i].(state := if items[i].state == Pending then Submitted else items[i].state,
                     periods := Cascade(items[i].periods, Pending, Submitted, None))
      else items[i]
  }

  // _move_item_locked
  function MoveItem(items: map<nat, Item>, table: Table, id: nat, to: ItemState, reason: Option<string>): Result<Item,
                    ItemError> {
    if id !in items || items[id].table != table then Failure(NoItem)
    else if !ItemEdge(items[id].state, to) then Failure(IllegalMove)
    else Success(items[id].(state := to, reason := if reason.Some? && reason.value != "" then Some(Cut(reason.value)) else None))
  }

  // accept_notification, accept_sev and accept_delivered
  function Accept(items: map<nat, Item>, table: Table, id: nat): Result<map<nat, Item>, ItemError> {
    match MoveItem(items, table, id, Accepted, None)
    case Failure(e) => Failure(e)
    case Success(i) => Success(items[id := i.(periods := Cascade(i.periods, Submitted, Accepted, None))])
  }

  // Named periods get their own reason; a period that is not there is passed over.
  function Explain(periods: map<nat, Period>, named: seq<(nat, string)>): map<nat, Period> {
    if named == [] then periods
    else
      var last := named[|named| - 1];
      var before := Explain(periods, named[..|named| - 1]);
      if last.0 in before then before[last.0 := before[last.0].(reason := Some(Cut(last.1)))] else before
  }

  // reject_notification
  function RejectNotification(items: map<nat, Item>, id: nat, reason: string,
                              named: seq<(nat, string)>): Result<map<nat, Item>, ItemError> {
    match MoveItem(items, Notification, id, Rejected, Some(reason))
    case Failure(e) => Failure(e)
    case Success(i) =>
      Success(items[id := i.(periods := Explain(Cascade(i.periods, Submitted, Rejected, Some(Cut(reason))), named))])
  }

  // reject_sev and reject_delivered without a settlement period
  function RejectVolume(items: map<nat, Item>, table: Table, id: nat, reason: string): Result<map<nat, Item>,
                        ItemError> {
    match MoveItem(items, table, id, Rejected, Some(reason))
    case Failure(e) => Failure(e)
    case Success(i) => Success(items[id := i.(periods := Cascade(i.periods, Submitted, Rejected, None))])
  }

  // reject_sev and reject_delivered for one settlement period: the item stays as it is.
  function RejectPeriod(items: map<nat, Item>, table: Table, id: nat, slot: nat): map<nat, Item> {
    if id in items && items[id].table == table && slot in items[id].periods && items[id].periods[slot].state == Submitted
    then items[id := items[id].(periods := items[id].periods[slot := items[id].periods[slot].(state := Rejected)])]
    else items
  }

  predicate WmanMatches(i: Item, day: Date, slot: nat, unit: Option<string>) {
    i.table.Wman? && i.day == day && i.slot == slot && i.state == Submitted && (unit.Some? ==> i.unit == unit.value)
  }

  // reject_wman: every matching row that is still submitted.
  function RejectWman(items: map<nat, Item>, day: Date, slot: nat, unit: Option<string>, reason: string): map<nat,
                      Item> {
    map i | i in items ::
      if WmanMatches(items[i], day, slot, unit) then items[i].(state := Rejected, reason := Some(Cut(reason))) else items[i]
  }

  // No handler accepts a wholesale activity row; this is the acceptance that would.
  function AcceptWman(items: map<nat, Item>, id: nat): Result<map<nat, Item>, ItemError> {
    match MoveItem(items, Wman, id, Accepted, None)
    case Failure(e) => Failure(e)
    case Success(i) => Success(items[id := i])
  }

  // --- items and periods agree ------------------------------------------------------------

  // What the state of an item says of its periods.
  predicate PeriodAgrees(table: Table, parent: ItemState, period: ItemState) {
    match table
    case Notification => period == parent
    case Wman => false
    case _ => period == parent || (period == Rejected && (parent == Submitted || parent == Accepted))
  }

  predicate Agrees(i: Item) {
    forall p :: p in i.periods ==> PeriodAgrees(i.table, i.state, i.periods[p].state)
  }

  predicate AllAgree(items: map<nat, Item>) {
    forall i :: i in items ==> Agrees(items[i])
  }

  lemma FreshAgrees(i: Item)
    requires Fresh(i)
    ensures Agrees(i)
  {
  }

  lemma SubmitAgrees(items: map<nat, Item>, table: Table, file: nat)
    requires AllAgree(items)
    ensures AllAgree(Submit(items, table, file))
  {
    forall i | i in items ensures Agrees(Submit(items, table, file)[i]) {
      assert Agrees(items[i]);
    }
  }

  lemma AcceptAgrees(items: map<nat, Item>, table: Table, id: nat)
    requires AllAgree(items) && Accept(items, table, id).Success?
    ensures AllAgree(Accept(items, table, id).value)
  {
    assert Agrees(items[id]);
  }

  lemma {:induction false} ExplainKeepsStates(periods: map<nat, Period>, named: seq<(nat, string)>)
    ensures Explain(periods, named).Keys == periods.Keys
    ensures forall p :: p in periods ==> Explain(periods, named)[p].state == periods[p].state
  {
    if named != [] {
      ExplainKeepsStates(periods, named[..|named| - 1]);
    }
  }

  lemma RejectNotificationAgrees(items: map<nat, Item>, id: nat, reason: string, named: seq<(nat, string)>)
    requires AllAgree(items) && RejectNotification(items, id, reason, named).Success?
    ensures AllAgree(RejectNotification(items, id, reason, named).value)
  {
    assert Agrees(items[id]);
    var i := MoveItem(items, Notification, id, Rejected, Some(reason)).value;
    var cascaded := Cascade(i.periods, Submitted, Rejected, Some(Cut(reason)));
    ExplainKeepsStates(cascaded, named);
    assert Agrees(i.(periods := Explain(cascaded, named)));
  }

  lemma RejectVolumeAgrees(items: map<nat, Item>, table: Table, id: nat, reason: string)
    requires AllAgree(items) && RejectVolume(items, table, id, reason).Success?
    ensures AllAgree(RejectVolume(items, table, id, reason).value)
  {
    assert Agrees(items[id]);
  }

  lemma RejectPeriodAgrees(items: map<nat, Item>, table: Table, id: nat, slot: nat)
    requires AllAgree(items) && (table.Sev? || table.DeliveredVolume?)
    ensures AllAgree(RejectPeriod(items, table, id, slot))
  {
    if id in items {
      assert Agrees(items[id]);
    }
  }

  lemma RejectWmanAgrees(items: map<nat, Item>, day: Date, slot: nat, unit: Option<string>, reason: string)
    requires AllAgree(items)
    ensures AllAgree(RejectWman(items, day, slot, unit, reason))
  {
    forall i | i in items ensures Agrees(RejectWman(items, day, slot, unit, reason)[i]) {
      assert Agrees(items[i]);
    }
  }

  predicate Names(named: seq<(nat, string)>, p: nat) {
    exists k :: 0 <= k < |named| && named[k].0 == p
  }

  // A period not named keeps the reason it was given with the notification's.
  lemma {:induction false} UnnamedKeepsReason(periods: map<nat, Period>, named: seq<(nat, string)>, p: nat)
    requires p in periods && !Names(named, p)
    ensures Explain(periods, named).Keys == periods.Keys && Explain(periods, named)[p] == periods[p]
  {
    if named != [] {
      var n := |named| - 1;
      assert forall k :: 0 <= k < n ==> named[..n][k] == named[k];
      UnnamedKeepsReason(periods, named[..n], p);
    }
  }

  // A period named in a rejection has its own reason, the last one given for it.
  lemma {:induction false} ExplainGivesLast(periods: map<nat, Period>, named: seq<(nat, string)>, p: nat, k: nat)
    requires p in periods && k < |named| && named[k].0 == p && !Names(named[k + 1..], p)
    ensures Explain(periods, named).Keys == periods.Keys
    ensures Explain(periods, named)[p].reason == Some(Cut(named[k].1))
  {
    var n := |named| - 1;
    ExplainKeepsStates(periods, named[..n]);
    if k < n {
      assert named[k + 1..][n - k - 1] == named[n];
      var later := named[..n][k + 1..];
      forall i | 0 <= i < |later| ensures later[i].0 != p {
        assert later[i] == named[k + 1..][i];
      }
      ExplainGivesLast(periods, named[..n], p, k);
    }
  }

  // --- the tables in place ------------------------------------------------------------------

  class ItemTables {
    var items: map<nat, Item>

    constructor ()
      ensures items == map[]
    {
      items := map[];
    }

    method SubmitItems(table: Table, file: nat)
      modifies this
      ensures items == Submit(old(items), table, file)
    {
      var submitted := map i | i in items ::
        if items[i].table == table && items[i].file == file && items[i].state == Pending
        then items[i].(state := Submitted) else items[i];
      items := map i | i in submitted ::
        if submitted[i].table == table && submitted[i].file == file
        then submitted[i].(periods := Cascade(submitted[i].periods, Pending, Submitted, None)) else submitted[i];
      assert items == Submit(old(items), table, file);
    }

    // The loop over the named periods, and nothing kept of it where the move is refused.
    method Reject(id: nat, reason: string, named: seq<(nat, string)>) returns (error: Option<ItemError>)
      modifies this
      ensures match RejectNotification(old(items), id, reason, named)
              case Success(after) => items == after && error == None
              case Failure(e) => items == old(items) && error == Some(e)
    {
      var moved := MoveItem(items, Notification, id, Rejected, Some(reason));
      if moved.Failure? {
        return Some(moved.error);
      }
      var item := moved.value;
      ghost var cascaded := Cascade(item.periods, Submitted, Rejected, Some(Cut(reason)));
      var periods := Cascade(item.periods, Submitted, Rejected, Some(Cut(reason)));
      for k := 0 to |named|
        invariant periods == Explain(cascaded, named[..k])
      {
        assert named[..k + 1][..k] == named[..k];
        if named[k].0 in periods {
          periods := periods[named[k].0 := periods[named[k].0].(reason := Some(Cut(named[k].1)))];
        }
      }
      assert named[..|named|] == named;
      items := items[id := item.(periods := periods)];
      return None;
    }

    method AcceptItem(table: Table, id: nat) returns (error: Option<ItemError>)
      modifies this
      ensures match Accept(old(items), table, id)
              case Success(after) => items == after && error == None
              case Failure(e) => items == old(items) && error == Some(e)
    {
      var moved := MoveItem(items, table, id, Accepted, None);
      if moved.Failure? {
        return Some(moved.error);
      }
      items := items[id := moved.value];
      items := items[id := items[id].(periods := Cascade(items[id].periods, Submitted, Accepted, None))];
      return None;
    }

    // The rows still submitted for the period, or for one unit of it, are rejected and no other row is
    // touched; the unit of every row rejected is returned, one for each row.
    method RejectUnits(day: Date, slot: nat, unit: Option<string>, reason: string)
      returns (units: seq<string>, ghost rows: seq<nat>)
      modifies this
      ensures items.Keys == old(items.Keys)
      ensures forall i :: i in rows <==>
                && i in old(items) && old(items)[i].table == Wman && old(items)[i].state == Submitted
                && old(items)[i].day == day && old(items)[i].slot == slot
                && (unit.Some? ==> old(items)[i].unit == unit.value)
      ensures forall i :: i in rows ==>
                items[i] == old(items)[i].(state := Rejected, reason := Some(Cut(reason)))
                && ItemEdge(old(items)[i].state, items[i].state)
      ensures forall i :: i in items && i !in rows ==> items[i] == old(items)[i]
      ensures |units| == |rows| && forall k :: 0 <= k < |rows| ==> units[k] == old(items)[rows[k]].unit
      ensures forall j, k :: 0 <= j < k < |rows| ==> rows[j] != rows[k]
      ensures items == RejectWman(old(items), day, slot, unit, reason)
    {
      var left := set i | i in items && WmanMatches(items[i], day, slot, unit);
      ghost var matching := left;
      units, rows := [], [];
      while left != {}
        invariant left <= matching && forall i :: i in rows <==> i in matching - left
        invariant |units| == |rows| && forall k :: 0 <= k < |rows| ==> rows[k] in items && units[k] == items[rows[k]].unit
        invariant forall j, k :: 0 <= j < k < |rows| ==> rows[j] != rows[k]
        decreases left
      {
        var i :| i in left;
        assert i !in rows;
        units, rows, left := units + [items[i].unit], rows + [i], left - {i};
      }
      items := RejectWman(items, day, slot, unit, reason);
    }
  }
}
