// The state of a file under any number of workers: the read of a state and the conditional update that
// follows it are separate steps, and sweeps, corrections and record_built come in between.
module FileStates {
  import opened Wrappers
  import opened FileTables

  datatype Actor = Worker(w: nat) | Builder | Sweeper | Correction

  // One stored change of a file's state, and whose it was.
  datatype Event = Event(actor: Actor, from: FileState, to: FileState)

  datatype Row = Row(file: File, trace: seq<Event>)

  // A worker between its read and its update.
  datatype Mover = Idle | Moving(id: nat, c: Change, seen: FileState)

  datatype Tracker = Tracker(rows: map<nat, Row>, movers: seq<Mover>)

  datatype Step =
    | Create(id: nat, file: File)
    | ReadState(w: nat, id: nat, c: Change)
    | Update(w: nat)
    | Crash(w: nat)
    | Build(id: nat, checksum: int, recordCount: int, uri: string)
    | SweepAll(olderThan: int)
    | Supersede(id: nat)

  function Apply(r: Row, actor: Actor, c: Change): Row {
    Row(Changed(r.file, c), r.trace + [Event(actor, r.file.state, Target(c))])
  }

  // reserve_file marks the corrected file whatever its state; marking it again changes nothing.
  function Mark(r: Row): Row {
    if r.file.state == Superseded then r
    else Row(r.file.(state := Superseded), r.trace + [Event(Correction, r.file.state, Superseded)])
  }

  function SweepRow(r: Row, olderThan: int): Row {
    if Overdue(r.file, olderThan) then Apply(r, Sweeper, ToUnacknowledged) else r
  }

  predicate Enabled(t: Tracker, s: Step) {
    match s
    case Create(id, file) => id !in t.rows && file.state == Reserved
    case ReadState(w, id, _) => w < |t.movers| && t.movers[w].Idle? && id in t.rows
    case Update(w) => w < |t.movers| && t.movers[w].Moving? && t.movers[w].id in t.rows
    case Crash(w) => w < |t.movers|
    case Build(_, _, _, _) => true
    case SweepAll(_) => true
    case Supersede(id) => id in t.rows
  }

  function Next(t: Tracker, s: Step): Tracker
    requires Enabled(t, s)
  {
    match s
    case Create(id, file) => t.(rows := t.rows[id := Row(file, [])])
    case ReadState(w, id, c) =>
      // An illegal transition raises at once.
      var seen := t.rows[id].file.state;
      if Edge(seen, Target(c)) then t.(movers := t.movers[w := Moving(id, c, seen)]) else t
    case Update(w) =>
      // WHERE id = .. AND state = seen; no row updated means an error.
      var k := t.movers[w];
      var r := t.rows[k.id];
      Tracker(if r.file.state == k.seen then t.rows[k.id := Apply(r, Worker(w), k.c)] else t.rows, t.movers[w := Idle])
    case Crash(w) => t.(movers := t.movers[w := Idle])
    case Build(id, checksum, recordCount, uri) =>
      if id in t.rows && t.rows[id].file.state == Reserved
      then t.(rows := t.rows[id := Apply(t.rows[id], Builder, ToBuilt(checksum, recordCount, uri))])
      else t
    case SweepAll(olderThan) => t.(rows := map id | id in t.rows :: SweepRow(t.rows[id], olderThan))
    case Supersede(id) => t.(rows := t.rows[id := Mark(t.rows[id])])
  }

  predicate Possible(t: Tracker, run: seq<Step>)
    decreases |run|
  {
    run == [] || (Enabled(t, run[0]) && Possible(Next(t, run[0]), run[1..]))
  }

  function After(t: Tracker, run: seq<Step>): Tracker
    requires Possible(t, run)
    decreases |run|
  {
    if run == [] then t else After(Next(t, run[0]), run[1..])
  }

  function Start(workers: nat): Tracker {
    Tracker(map[], seq(workers, _ => Idle))
  }

  // --- every change is an edge ------------------------------------------------------------

  // The changes stored for a file lead from RESERVED to its state along edges of the table.
  predicate Path(trace: seq<Event>, state: FileState) {
    if trace == [] then state == Reserved
    else
      var e := trace[|trace| - 1];
      e.to == state && Edge(e.from, e.to) && Path(trace[..|trace| - 1], e.from)
  }

  predicate MoverFits(rows: map<nat, Row>, k: Mover) {
    k.Moving? ==> k.id in rows && Edge(k.seen, Target(k.c))
  }

  predicate Safe(t: Tracker) {
    && (forall id :: id in t.rows ==> Path(t.rows[id].trace, t.rows[id].file.state))
    && (forall w :: 0 <= w < |t.movers| ==> MoverFits(t.rows, t.movers[w]))
  }

  lemma PathGrows(r: Row, actor: Actor, to: FileState)
    requires Path(r.trace, r.file.state) && Edge(r.file.state, to)
    ensures Path(r.trace + [Event(actor, r.file.state, to)], to)
  {
    assert (r.trace + [Event(actor, r.file.state, to)])[..|r.trace|] == r.trace;
  }

  lemma RowKeepsPath(r: Row, olderThan: int)
    requires Path(r.trace, r.file.state)
    ensures Path(Mark(r).trace, Mark(r).file.state)
    ensures Path(SweepRow(r, olderThan).trace, SweepRow(r, olderThan).file.state)
  {
    if r.file.state != Superseded {
      PathGrows(r, Correction, Superseded);
    }
    if Overdue(r.file, olderThan) {
      PathGrows(r, Sweeper, Unacknowledged);
    }
  }

  lemma StepIsSafe(t: Tracker, s: Step)
    requires Safe(t) && Enabled(t, s)
    ensures Safe(Next(t, s))
  {
    match s {
      case Update(w) =>
        var k := t.movers[w];
        if t.rows[k.id].file.state == k.seen {
          PathGrows(t.rows[k.id], Worker(w), Target(k.c));
        }
      case Build(id, _, _, _) =>
        if id in t.rows && t.rows[id].file.state == Reserved {
          PathGrows(t.rows[id], Builder, Built);
        }
      case SweepAll(olderThan) =>
        forall id | id in t.rows ensures Path(Next(t, s).rows[id].trace, Next(t, s).rows[id].file.state) {
          RowKeepsPath(t.rows[id], olderThan);
        }
      case Supersede(id) => RowKeepsPath(t.rows[id], 0);
      case _ =>
    }
  }

  lemma {:induction false} RunsAreSafe(t: Tracker, run: seq<Step>)
    requires Safe(t) && Possible(t, run)
    ensures Safe(After(t, run))
    decreases |run|
  {
    if run != [] {
      StepIsSafe(t, run[0]);
      RunsAreSafe(Next(t, run[0]), run[1..]);
    }
  }

  // In every run, what was stored for a file is a path of the transition table from RESERVED to its
  // state: no worker, sweep or correction ever made another change.
  lemma StatesFollowTheTable(workers: nat, run: seq<Step>, id: nat)
    requires Possible(Start(workers), run) && id in After(Start(workers), run).rows
    ensures var r := After(Start(workers), run).rows[id]; Path(r.trace, r.file.state)
  {
    RunsAreSafe(Start(workers), run);
  }

  // --- applied once -------------------------------------------------------------------------

  lemma {:induction false} PathClimbs(trace: seq<Event>, state: FileState, i: nat)
    requires Path(trace, state) && i < |trace|
    ensures Edge(trace[i].from, trace[i].to) && Rank(trace[i].to) <= Rank(state)
    decreases |trace|
  {
    var n := |trace| - 1;
    EdgesLeadFurther(trace[n].from, trace[n].to);
    if i < n {
      PathClimbs(trace[..n], trace[n].from, i);
    }
  }

  // An edge other than SEND_FAILED to itself is applied to a file once, by one worker, in the whole run.
  lemma {:induction false} AppliedOnce(trace: seq<Event>, state: FileState, i: nat, j: nat)
    requires Path(trace, state) && i < j < |trace| && trace[i].from != trace[i].to
    ensures (trace[i].from, trace[i].to) != (trace[j].from, trace[j].to)
    decreases |trace|
  {
    var n := |trace| - 1;
    if j < n {
      AppliedOnce(trace[..n], trace[n].from, i, j);
    } else {
      PathClimbs(trace[..n], trace[n].from, i);
      EdgesLeadFurther(trace[i].from, trace[i].to);
    }
  }

  // --- stale reads fail -----------------------------------------------------------------------

  // A file that has moved is further along, and one that has not is as it was.
  predicate NoFurtherBack(before: FileState, after: FileState) {
    Rank(before) <= Rank(after) && (Rank(before) == Rank(after) ==> before == after)
  }

  lemma StepsGoForward(t: Tracker, s: Step, id: nat)
    requires Safe(t) && Enabled(t, s) && id in t.rows
    ensures id in Next(t, s).rows && NoFurtherBack(t.rows[id].file.state, Next(t, s).rows[id].file.state)
  {
  }

  lemma {:induction false} RunsGoForward(t: Tracker, run: seq<Step>, id: nat)
    requires Safe(t) && Possible(t, run) && id in t.rows
    ensures Safe(After(t, run)) && id in After(t, run).rows
    ensures NoFurtherBack(t.rows[id].file.state, After(t, run).rows[id].file.state)
    decreases |run|
  {
    if run != [] {
      StepIsSafe(t, run[0]);
      StepsGoForward(t, run[0], id);
      RunsGoForward(Next(t, run[0]), run[1..], id);
    }
  }

  // Worker w takes no step of its own.
  predicate Others(run: seq<Step>, w: nat) {
    forall s :: s in run ==> s != Update(w) && s != Crash(w)
  }

  lemma {:induction false} MoverWaits(t: Tracker, run: seq<Step>, w: nat)
    requires w < |t.movers| && t.movers[w].Moving? && Possible(t, run) && Others(run, w)
    ensures w < |After(t, run).movers| && After(t, run).movers[w] == t.movers[w]
    decreases |run|
  {
    if run != [] {
      assert run[0] in run && forall s :: s in run[1..] ==> s in run;
      MoverWaits(Next(t, run[0]), run[1..], w);
    }
  }

  // Once the file has left the state a worker read, the worker's update changes no row, however long it
  // waits and whatever happens to the file meanwhile.
  lemma StaleReadFails(t: Tracker, between: seq<Step>, later: seq<Step>, w: nat)
    requires Safe(t) && w < |t.movers| && t.movers[w].Moving?
    requires t.movers[w].id in t.rows && t.rows[t.movers[w].id].file.state == t.movers[w].seen
    requires Possible(t, between) && Possible(After(t, between), later)
    requires Others(between, w) && Others(later, w)
    requires t.movers[w].id in After(t, between).rows
    requires After(t, between).rows[t.movers[w].id].file.state != t.movers[w].seen
    ensures var end := After(After(t, between), later);
            Enabled(end, Update(w)) && Next(end, Update(w)).rows == end.rows
  {
    var id := t.movers[w].id;
    RunsGoForward(t, between, id);
    RunsGoForward(After(t, between), later, id);
    MoverWaits(t, between, w);
    MoverWaits(After(t, between), later, w);
  }

  predicate Racing(t: Tracker, v: nat, w: nat) {
    && v < |t.movers| && w < |t.movers| && v != w
    && t.movers[v].Moving? && t.movers[w].Moving?
    && t.movers[v].id == t.movers[w].id && t.movers[v].seen == t.movers[w].seen
    && t.movers[v].id in t.rows && t.rows[t.movers[v].id].file.state == t.movers[v].seen
  }

  // Of two workers that read one state, the first to update it wins and the other's update changes
  // no row, whenever it comes.
  lemma OneWorkerWins(t: Tracker, v: nat, w: nat, later: seq<Step>)
    requires Safe(t) && Racing(t, v, w) && Target(t.movers[v].c) != t.movers[v].seen
    requires Possible(Next(t, Update(v)), later) && Others(later, w)
    ensures Next(t, Update(v)).rows[t.movers[v].id].file.state == Target(t.movers[v].c)
    ensures var end := After(Next(t, Update(v)), later); Enabled(end, Update(w)) && Next(end, Update(w)).rows == end.rows
  {
    var n := Next(t, Update(v));
    assert After(t, [Update(v)]) == n by {
      assert [Update(v)][1..] == [];
    }
    assert Possible(t, [Update(v)]) by {
      assert [Update(v)][1..] == [];
    }
    StaleReadFails(t, [Update(v)], later, w);
  }

  // SEND_FAILED to itself is the one change that two workers with one read can both make: each failed
  // attempt is counted.
  lemma BothFailuresCount(t: Tracker, v: nat, w: nat)
    requires Safe(t) && Racing(t, v, w)
    requires t.movers[v].c == ToSendFailed && t.movers[w].c == ToSendFailed && t.movers[v].seen == SendFailed
    ensures Enabled(t, Update(v)) && Enabled(Next(t, Update(v)), Update(w))
    ensures var id := t.movers[v].id;
            Next(Next(t, Update(v)), Update(w)).rows[id].file == t.rows[id].file.(attempts := t.rows[id].file.attempts + 2)
  {
  }
}
