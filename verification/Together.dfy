// Senders and submitters in one run: a send that comes to its end tells its submitter, which inserts and
// marks the rows of its file, while other senders, sweeps and feedback go on.
module Together {
  import opened Wrappers
  import opened FileTables
  import opened Items
  import S = SendRuns
  import R = ItemRuns

  datatype Machine = Machine(senders: S.Machine, items: map<nat, Item>, nextItem: nat, clerks: seq<R.Clerk>) {
    function Desk(): R.Desk {
      R.Desk(senders.world, items, nextItem, clerks)
    }
  }

  datatype Step =
    // Any step of any sender, and any move of a file.
    | Sending(s: S.Step)
    // The last step of a send whose outcome was recorded: it returns to its submitter.
    | Returns(w: nat, at: int, clerk: nat, table: Table, rows: seq<Item>)
    // Rows inserted and marked, and feedback.
    | Filing(e: R.Event)

  predicate Enabled(m: Machine, step: Step) {
    match step
    case Sending(s) => S.Enabled(m.senders, s)
    case Returns(w, at, clerk, table, rows) =>
      && S.Enabled(m.senders, S.Note(w, at)) && clerk < |m.clerks| && m.clerks[clerk].Free?
      && (var k := m.senders.workers[w];
          && Move(m.senders.world.t, k.id, S.Outcome(k.delivered, at)).Success?
          && forall r :: r in rows ==> Fresh(r) && r.file == k.id && r.table == table)
    case Filing(e) => !e.Elsewhere? && !e.SendReturned? && R.Enabled(m.Desk(), e)
  }

  function Next(o: S.Office, m: Machine, step: Step): Machine
    requires Enabled(m, step)
  {
    match step
    case Sending(s) => m.(senders := S.Next(o, m.senders, s))
    case Returns(w, at, clerk, table, rows) =>
      var k := m.senders.workers[w];
      m.(senders := S.Next(o, m.senders, S.Note(w, at)),
         clerks := m.clerks[clerk := R.Returned(k.id, k.delivered, table, rows)])
    case Filing(e) =>
      var d := R.Next(m.Desk(), e);
      m.(items := d.items, nextItem := d.nextItem, clerks := d.clerks)
  }

  predicate Possible(o: S.Office, m: Machine, steps: seq<Step>)
    decreases |steps|
  {
    steps == [] || (Enabled(m, steps[0]) && Possible(o, Next(o, m, steps[0]), steps[1..]))
  }

  function After(o: S.Office, m: Machine, steps: seq<Step>): Machine
    requires Possible(o, m, steps)
    decreases |steps|
  {
    if steps == [] then m else After(o, Next(o, m, steps[0]), steps[1..])
  }

  function Start(first: map<nat, Sequence>, workers: nat, clerks: nat): Machine {
    Machine(S.Start(first, workers), map[], 1, seq(clerks, _ => R.Free))
  }

  // --- what every step keeps --------------------------------------------------------------

  predicate Safe(o: S.Office, m: Machine) {
    S.Safe(o, m.senders) && R.Safe(m.Desk())
  }

  // To the items, whatever senders do goes on elsewhere.
  lemma SendingIsSafe(o: S.Office, m: Machine, s: S.Step)
    requires o.Sound() && Safe(o, m) && S.Enabled(m.senders, s)
    ensures Safe(o, m.(senders := S.Next(o, m.senders, s)))
  {
    S.StepIsSafe(o, m.senders, s);
    S.StepsGoForward(o, m.senders, s);
    R.ElsewhereIsSafe(m.Desk(), S.Next(o, m.senders, s).world);
  }

  // What a send tells its submitter is so: a file reported as delivered went out.
  lemma ReturnIsSafe(o: S.Office, m: Machine, w: nat, at: int, clerk: nat, table: Table, rows: seq<Item>)
    requires o.Sound() && Safe(o, m) && Enabled(m, Returns(w, at, clerk, table, rows))
    ensures Safe(o, Next(o, m, Returns(w, at, clerk, table, rows)))
  {
    var k, noted := m.senders.workers[w], S.Next(o, m.senders, S.Note(w, at));
    SendingIsSafe(o, m, S.Note(w, at));
    if k.delivered {
      S.NotedWentOut(o, m.senders, w, at);
    }
    var e := R.SendReturned(clerk, k.id, k.delivered, table, rows);
    R.EventIsSafe(m.(senders := noted).Desk(), e);
  }

  lemma StepIsSafe(o: S.Office, m: Machine, step: Step)
    requires o.Sound() && Safe(o, m) && Enabled(m, step)
    ensures Safe(o, Next(o, m, step))
  {
    match step {
      case Sending(s) => SendingIsSafe(o, m, s);
      case Returns(w, at, clerk, table, rows) => ReturnIsSafe(o, m, w, at, clerk, table, rows);
      case Filing(e) => FilingIsSafe(o, m, e);
    }
  }

  lemma FilingIsSafe(o: S.Office, m: Machine, e: R.Event)
    requires Safe(o, m) && Enabled(m, Filing(e))
    ensures Safe(o, Next(o, m, Filing(e)))
  {
    R.EventIsSafe(m.Desk(), e);
    assert Next(o, m, Filing(e)).Desk() == R.Next(m.Desk(), e);
  }

  lemma {:induction false} RunsAreSafe(o: S.Office, m: Machine, steps: seq<Step>)
    requires o.Sound() && Safe(o, m) && Possible(o, m, steps)
    ensures Safe(o, After(o, m, steps))
    decreases |steps|
  {
    if steps != [] {
      StepIsSafe(o, m, steps[0]);
      RunsAreSafe(o, Next(o, m, steps[0]), steps[1..]);
    }
  }

  // Some run of some senders and submitters leads from empty tables, archive and wire to this state.
  ghost predicate Reachable(o: S.Office, m: Machine) {
    exists first: map<nat, Sequence>, workers: nat, clerks: nat, steps: seq<Step> ::
      Possible(o, Start(first, workers, clerks), steps) && After(o, Start(first, workers, clerks), steps) == m
  }

  lemma StartIsSafe(o: S.Office, first: map<nat, Sequence>, workers: nat, clerks: nat)
    ensures Safe(o, Start(first, workers, clerks))
  {
  }

  lemma ReachableIsSafe(o: S.Office, m: Machine)
    requires o.Sound() && Reachable(o, m)
    ensures Safe(o, m)
  {
    var first: map<nat, Sequence>, workers: nat, clerks: nat, steps: seq<Step> :|
      Possible(o, Start(first, workers, clerks), steps) && After(o, Start(first, workers, clerks), steps) == m;
    StartIsSafe(o, first, workers, clerks);
    RunsAreSafe(o, Start(first, workers, clerks), steps);
  }

  // The hand-off of these bytes of a file succeeded.
  predicate Delivered(world: S.World, h: nat, id: nat) {
    h < |world.wire| && world.wire[h].id == id && world.wire[h].delivered
  }

  predicate Moved(i: Item) {
    i.state != Pending || exists p :: p in i.periods && i.periods[p].state != Pending
  }

  lemma MovedWentOut(world: S.World, i: Item)
    requires Agrees(i) && R.OnWire(world, i) && Moved(i)
    ensures S.WentOut(world, i.file)
  {
  }

  // A file that went out was handed over successfully, with its archived bytes.
  lemma HandOffOf(o: S.Office, world: S.World, file: nat) returns (h: nat)
    requires S.WireFits(o, world) && S.WentOut(world, file)
    ensures Delivered(world, h, file) && S.HandOffFits(o, world, world.wire[h])
    ensures world.t.files[file].state in {Sent, Unacknowledged, ReceiptAcked, Superseded}
  {
    h :| h < |world.wire| && world.wire[h].id == file && world.wire[h].delivered;
  }

  // In every state that senders and submitters reach together: an item that is not pending, or has a period
  // that is not, is in a file that was handed over successfully, with the bytes in the archive under its key
  // and the number of its row, and that has not gone back since.
  lemma ItemsWereSent(o: S.Office, m: Machine, i: nat) returns (h: nat)
    requires o.Sound() && Reachable(o, m) && i in m.items && Moved(m.items[i])
    ensures var world, file := m.senders.world, m.items[i].file;
            && Delivered(world, h, file)
            && S.Holds(o, world, file, world.wire[h].payload)
            && world.wire[h].filename == world.t.files[file].filename
            && world.t.files[file].state in {Sent, Unacknowledged, ReceiptAcked, Superseded}
  {
    SafeWhenReached(o, m, i);
    MovedWentOut(m.senders.world, m.items[i]);
    h := HandOffOf(o, m.senders.world, m.items[i].file);
  }

  lemma SafeWhenReached(o: S.Office, m: Machine, i: nat)
    requires o.Sound() && Reachable(o, m) && i in m.items
    ensures S.WireFits(o, m.senders.world) && Agrees(m.items[i]) && R.OnWire(m.senders.world, m.items[i])
  {
    ReachableIsSafe(o, m);
  }
}
