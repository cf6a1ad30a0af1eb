// Reservations by any number of workers, one database statement at a time: a row lock, a read, two
// writes, and a commit or a crash, with every other function that moves a file in between.
module Allocation {
  import opened Wrappers
  import opened Digits
  import opened Fields
  import opened FileCodec
  import opened FileTables

  // --- the machine --------------------------------------------------------------------

  datatype Phase =
    | Began
    | Locked
    | Read(sequence: Sequence)
    | Bumped(sequence: Sequence)
    | Inserted(sequence: Sequence)
  {
    predicate HasNumber() {
      Read? || Bumped? || Inserted?
    }
  }

  datatype Worker = Idle | Reserving(q: Request, id: nat, phase: Phase)

  // One committed reservation.
  datatype Entry = Entry(id: nat, channel: nat, sequence: Sequence, plain: bool)

  // The committed tables, the id that nextval gives next, the transactions under way, and the committed
  // reservations so far.
  datatype Machine = Machine(t: Tables, nextId: nat, workers: seq<Worker>, log: seq<Entry>)

  datatype Step =
    | Begin(w: nat, q: Request)
    | Lock(w: nat)
    | ReadNumber(w: nat)
    | Bump(w: nat)
    | InsertRow(w: nat)
    | Commit(w: nat)
    | Rollback(w: nat)
    | MoveRow(id: nat, c: Change)

  predicate HoldsChannel(k: Worker, channel: nat) {
    k.Reserving? && !k.phase.Began? && k.q.supersedes.None? && k.q.channel == channel
  }

  predicate HoldsFile(k: Worker, f: nat) {
    k.Reserving? && !k.phase.Began? && k.q.supersedes == Some(f)
  }

  // The row a reservation locks is there and nobody else has locked it. A correction goes out on the
  // channel of the file it supersedes: the caller sees to that.
  predicate CanLock(m: Machine, q: Request) {
    match q.supersedes
    case None => q.channel in m.t.next && forall k :: k in m.workers ==> !HoldsChannel(k, q.channel)
    case Some(f) => f in m.t.files && m.t.files[f].channel == q.channel && forall k :: k in m.workers ==> !HoldsFile(k, f)
  }

  predicate Readable(t: Tables, q: Request) {
    match q.supersedes
    case None => q.channel in t.next
    case Some(f) => f in t.files && t.files[f].channel == q.channel
  }

  function NumberFor(t: Tables, q: Request): Sequence
    requires Readable(t, q)
  {
    match q.supersedes
    case None => t.next[q.channel]
    case Some(f) => t.files[f].sequence
  }

  // The first write of a reservation: the counter, or the state of the superseded file.
  function AfterBump(t: Tables, q: Request, sequence: Sequence): Tables {
    match q.supersedes
    case None => t.(next := t.next[q.channel := Following(sequence)])
    case Some(f) => if f in t.files then t.(files := MarkSuperseded(t.files, f)) else t
  }

  // Both writes of a reservation.
  function Written(t: Tables, id: nat, q: Request, sequence: Sequence): Tables {
    var b := AfterBump(t, q, sequence);
    var name := MakeFilename(q.roleCode, id);
    b.(files := b.files[id := NewFile(q, sequence, if name.Some? then name.value else "")])
  }

  // An uncommitted row with the same number makes an insert wait.
  predicate Waits(workers: seq<Worker>, w: nat, channel: nat, sequence: Sequence) {
    exists v :: 0 <= v < |workers| && v != w && workers[v].Reserving? && workers[v].phase == Inserted(sequence)
                && workers[v].q.channel == channel
  }

  predicate In(m: Machine, w: nat) {
    w < |m.workers| && m.workers[w].Reserving?
  }

  predicate Enabled(m: Machine, s: Step) {
    match s
    case Begin(w, _) => w < |m.workers| && m.workers[w].Idle?
    case Lock(w) => In(m, w) && m.workers[w].phase.Began? && CanLock(m, m.workers[w].q)
    case ReadNumber(w) => In(m, w) && m.workers[w].phase.Locked? && Readable(m.t, m.workers[w].q)
    case Bump(w) => In(m, w) && m.workers[w].phase.Read?
    case InsertRow(w) =>
      In(m, w) && m.workers[w].phase.Bumped? && !Waits(m.workers, w, m.workers[w].q.channel, m.workers[w].phase.sequence)
    case Commit(w) => In(m, w) && m.workers[w].phase.Inserted?
    case Rollback(w) => In(m, w)
    case MoveRow(id, c) =>
      (forall k :: k in m.workers ==> !HoldsFile(k, id)) && id in m.t.files && Edge(m.t.files[id].state, Target(c))
  }

  function Put(m: Machine, w: nat, k: Worker): Machine
    requires w < |m.workers|
  {
    m.(workers := m.workers[w := k])
  }

  function Next(m: Machine, s: Step): Machine
    requires Enabled(m, s)
  {
    match s
    case Begin(w, q) => Put(m, w, Reserving(q, m.nextId, Began)).(nextId := m.nextId + 1)
    case Lock(w) => Put(m, w, m.workers[w].(phase := Locked))
    case ReadNumber(w) => Put(m, w, m.workers[w].(phase := Read(NumberFor(m.t, m.workers[w].q))))
    case Bump(w) => Put(m, w, m.workers[w].(phase := Bumped(m.workers[w].phase.sequence)))
    case InsertRow(w) =>
      var k := m.workers[w];
      var n := k.phase.sequence;
      // A refused insert fails the transaction.
      Put(m, w, if Insert(AfterBump(m.t, k.q, n), k.id, k.q, n).Success? then k.(phase := Inserted(n)) else Idle)
    case Commit(w) =>
      var k := m.workers[w];
      var n := k.phase.sequence;
      Put(m, w, Idle).(t := Written(m.t, k.id, k.q, n),
                       log := m.log + [Entry(k.id, k.q.channel, n, k.q.supersedes.None?)])
    case Rollback(w) => Put(m, w, Idle)
    case MoveRow(id, c) => m.(t := m.t.(files := m.t.files[id := Changed(m.t.files[id], c)]))
  }

  predicate Possible(m: Machine, steps: seq<Step>)
    decreases |steps|
  {
    steps == [] || (Enabled(m, steps[0]) && Possible(Next(m, steps[0]), steps[1..]))
  }

  function After(m: Machine, steps: seq<Step>): Machine
    requires Possible(m, steps)
    decreases |steps|
  {
    if steps == [] then m else After(Next(m, steps[0]), steps[1..])
  }

  function Start(first: map<nat, Sequence>, workers: nat): (m: Machine)
    ensures |m.workers| == workers && forall k :: k in m.workers ==> k == Idle
  {
    Machine(Tables(first, map[]), 1, seq(workers, _ => Idle), [])
  }

  // --- what every step keeps ------------------------------------------------------------

  predicate WorkerFits(t: Tables, nextId: nat, k: Worker) {
    k.Reserving? ==>
      && k.id < nextId && k.id !in t.files
      && (!k.phase.Began? ==> Readable(t, k.q))
      && (k.phase.HasNumber() ==> k.phase.sequence == NumberFor(t, k.q))
      && (k.phase.Inserted? ==> Insert(AfterBump(t, k.q, k.phase.sequence), k.id, k.q, k.phase.sequence).Success?)
  }

  predicate Apart(a: Worker, b: Worker) {
    a.Reserving? && b.Reserving? ==>
      && a.id != b.id
      && (!a.phase.Began? && !b.phase.Began? ==>
            if a.q.supersedes.None? then !HoldsChannel(b, a.q.channel) else !HoldsFile(b, a.q.supersedes.value))
      && (a.phase.Inserted? && b.phase.Inserted? && a.q.channel == b.q.channel ==> a.phase.sequence != b.phase.sequence)
  }

  predicate AllApart(workers: seq<Worker>) {
    forall v, w :: 0 <= v < |workers| && 0 <= w < |workers| && v != w ==> Apart(workers[v], workers[w])
  }

  predicate SameLiveNumber(a: File, b: File) {
    a.Live() && b.Live() && a.channel == b.channel && a.sequence == b.sequence
  }

  // No two live files of a channel have one number.
  predicate LiveUnique(files: map<nat, File>) {
    forall f, g :: f in files && g in files && SameLiveNumber(files[f], files[g]) ==> f == g
  }

  // A correction has the number and the channel of the file it superseded.
  predicate CorrectionsReuse(files: map<nat, File>) {
    forall f :: f in files && files[f].supersedes.Some? ==>
      var g := files[f].supersedes.value;
      && g in files && !files[g].Live()
      && files[g].channel == files[f].channel && files[g].sequence == files[f].sequence
  }

  predicate Safe(m: Machine) {
    && (forall w :: 0 <= w < |m.workers| ==> WorkerFits(m.t, m.nextId, m.workers[w]))
    && (forall f :: f in m.t.files ==> f < m.nextId)
    && AllApart(m.workers)
    && LiveUnique(m.t.files)
    && CorrectionsReuse(m.t.files)
  }

  // A commit has the effect of the whole transaction run on its own.
  lemma CommitIsAtomic(t: Tables, nextId: nat, k: Worker)
    requires k.Reserving? && k.phase.Inserted? && WorkerFits(t, nextId, k)
    ensures Reserve(t, k.id, k.q) == Success(Written(t, k.id, k.q, k.phase.sequence))
  {
  }

  // Every step leaves the committed tables as they were, or has the effect of one undisturbed
  // transaction on them.
  lemma StepsAreAtomic(m: Machine, s: Step)
    requires Safe(m) && Enabled(m, s)
    ensures var n := Next(m, s);
            match s
            case Commit(w) => Reserve(m.t, m.workers[w].id, m.workers[w].q) == Success(n.t)
            case MoveRow(id, c) => Move(m.t, id, c) == Success(n.t)
            case _ => n.t == m.t
  {
    if s.Commit? {
      CommitIsAtomic(m.t, m.nextId, m.workers[s.w]);
    }
  }

  lemma PutIsSafe(m: Machine, w: nat, k: Worker)
    requires Safe(m) && w < |m.workers| && WorkerFits(m.t, m.nextId, k)
    requires forall v :: 0 <= v < |m.workers| && v != w ==> Apart(k, m.workers[v]) && Apart(m.workers[v], k)
    ensures Safe(Put(m, w, k))
  {
  }

  lemma BeginIsSafe(m: Machine, w: nat, q: Request)
    requires Safe(m) && Enabled(m, Begin(w, q))
    ensures Safe(Next(m, Begin(w, q)))
  {
    var k := Reserving(q, m.nextId, Began);
    var later := m.(nextId := m.nextId + 1);
    assert forall v :: 0 <= v < |m.workers| ==> WorkerFits(m.t, m.nextId, m.workers[v]);
    assert Safe(later);
    PutIsSafe(later, w, k);
  }

  lemma LockIsSafe(m: Machine, w: nat)
    requires Safe(m) && Enabled(m, Lock(w))
    ensures Safe(Next(m, Lock(w)))
  {
    var k := m.workers[w].(phase := Locked);
    forall v | 0 <= v < |m.workers| && v != w ensures Apart(k, m.workers[v]) && Apart(m.workers[v], k) {
      assert m.workers[v] in m.workers;
      assert Apart(m.workers[w], m.workers[v]) && Apart(m.workers[v], m.workers[w]);
    }
    PutIsSafe(m, w, k);
  }

  lemma NumberIsSafe(m: Machine, w: nat, s: Step)
    requires (s == ReadNumber(w) || s == Bump(w)) && Safe(m) && Enabled(m, s)
    ensures Safe(Next(m, s))
  {
    var k := Next(m, s).workers[w];
    assert WorkerFits(m.t, m.nextId, m.workers[w]);
    forall v | 0 <= v < |m.workers| && v != w ensures Apart(k, m.workers[v]) && Apart(m.workers[v], k) {
      assert Apart(m.workers[w], m.workers[v]) && Apart(m.workers[v], m.workers[w]);
    }
    PutIsSafe(m, w, k);
  }

  lemma InsertIsSafe(m: Machine, w: nat)
    requires Safe(m) && Enabled(m, InsertRow(w))
    ensures Safe(Next(m, InsertRow(w)))
  {
    var k := Next(m, InsertRow(w)).workers[w];
    assert WorkerFits(m.t, m.nextId, m.workers[w]);
    forall v | 0 <= v < |m.workers| && v != w ensures Apart(k, m.workers[v]) && Apart(m.workers[v], k) {
      assert Apart(m.workers[w], m.workers[v]) && Apart(m.workers[v], m.workers[w]);
    }
    PutIsSafe(m, w, k);
  }

  // A number free in some rows is free in rows that have no live file more.
  lemma StaysFree(before: map<nat, File>, after: map<nat, File>, channel: nat, sequence: Sequence)
    requires !InUse(before, channel, sequence)
    requires forall f :: f in after && after[f].Live() && after[f].channel == channel && after[f].sequence == sequence ==>
               f in before && before[f].Live() && before[f].channel == channel && before[f].sequence == sequence
    ensures !InUse(after, channel, sequence)
  {
  }

  lemma CommitKeepsNumber(t: Tables, k: Worker, j: Worker)
    requires k.Reserving? && k.phase.Inserted? && j.Reserving? && !j.phase.Began? && Apart(k, j)
    requires Readable(t, k.q) && Readable(t, j.q) && k.id !in t.files
    ensures var after := Written(t, k.id, k.q, k.phase.sequence);
            Readable(after, j.q) && NumberFor(after, j.q) == NumberFor(t, j.q)
  {
  }

  // What the first write does to a row.
  lemma BumpedRow(t: Tables, q: Request, n: Sequence, f: nat)
    requires f in t.files
    ensures var files := AfterBump(t, q, n).files;
            && files.Keys == t.files.Keys
            && files[f].channel == t.files[f].channel && files[f].sequence == t.files[f].sequence
            && (files[f].Live() <==> t.files[f].Live() && q.supersedes != Some(f))
  {
  }

  predicate Takes(f: File, channel: nat, sequence: Sequence) {
    f.Live() && f.channel == channel && f.sequence == sequence
  }

  // A live row after a commit is the new one or was live before it.
  lemma WrittenRow(t: Tables, k: Worker, f: nat)
    requires k.Reserving? && k.phase.Inserted? && k.id !in t.files
    requires f in Written(t, k.id, k.q, k.phase.sequence).files
    ensures var files := Written(t, k.id, k.q, k.phase.sequence).files;
            if f == k.id then files[f].channel == k.q.channel && files[f].sequence == k.phase.sequence
            else && f in t.files
                 && files[f].channel == t.files[f].channel && files[f].sequence == t.files[f].sequence
                 && (files[f].Live() ==> t.files[f].Live())
  {
    if f != k.id {
      BumpedRow(t, k.q, k.phase.sequence, f);
    }
  }

  lemma CommitLeavesFree(t: Tables, k: Worker, j: Worker)
    requires k.Reserving? && k.phase.Inserted? && j.Reserving? && j.phase.Inserted? && Apart(k, j) && k.id !in t.files
    requires !InUse(AfterBump(t, j.q, j.phase.sequence).files, j.q.channel, j.phase.sequence)
    ensures var after := Written(t, k.id, k.q, k.phase.sequence);
            !InUse(AfterBump(after, j.q, j.phase.sequence).files, j.q.channel, j.phase.sequence)
  {
    var after, n := Written(t, k.id, k.q, k.phase.sequence), j.phase.sequence;
    var before, files := AfterBump(t, j.q, n).files, AfterBump(after, j.q, n).files;
    forall f | f in files ensures !Takes(files[f], j.q.channel, n) {
      assert f in after.files;
      BumpedRow(after, j.q, n, f);
      WrittenRow(t, k, f);
      if f != k.id {
        BumpedRow(t, j.q, n, f);
        assert !Takes(before[f], j.q.channel, n);
      }
    }
  }

  lemma CommitKeepsOther(t: Tables, nextId: nat, k: Worker, j: Worker)
    requires k.Reserving? && k.phase.Inserted? && WorkerFits(t, nextId, k) && WorkerFits(t, nextId, j)
    requires Apart(k, j) && Apart(j, k)
    ensures WorkerFits(Written(t, k.id, k.q, k.phase.sequence), nextId, j)
  {
    if j.Reserving? && !j.phase.Began? {
      CommitKeepsNumber(t, k, j);
      if j.phase.Inserted? {
        CommitLeavesFree(t, k, j);
      }
    }
  }

  lemma CommittedRows(t: Tables, nextId: nat, k: Worker)
    requires k.Reserving? && k.phase.Inserted? && WorkerFits(t, nextId, k)
    requires LiveUnique(t.files) && CorrectionsReuse(t.files)
    ensures var files := Written(t, k.id, k.q, k.phase.sequence).files; LiveUnique(files) && CorrectionsReuse(files)
  {
    var files := Written(t, k.id, k.q, k.phase.sequence).files;
    var bumped := AfterBump(t, k.q, k.phase.sequence).files;
    forall f, g | f in files && g in files && SameLiveNumber(files[f], files[g]) ensures f == g {
      if f != k.id && g != k.id {
        assert SameLiveNumber(t.files[f], t.files[g]);
      }
    }
    forall f | f in files && files[f].supersedes.Some?
      ensures var g := files[f].supersedes.value;
              && g in files && !files[g].Live()
              && files[g].channel == files[f].channel && files[g].sequence == files[f].sequence
    {
      if f != k.id {
        assert t.files[f].supersedes == files[f].supersedes;
      }
    }
  }

  lemma CommitKeepsWorkers(m: Machine, w: nat, v: nat)
    requires Safe(m) && Enabled(m, Commit(w)) && v < |m.workers|
    ensures var n := Next(m, Commit(w)); WorkerFits(n.t, n.nextId, n.workers[v])
  {
    if v != w {
      var k := m.workers[w];
      assert WorkerFits(m.t, m.nextId, k) && WorkerFits(m.t, m.nextId, m.workers[v]);
      assert Apart(k, m.workers[v]) && Apart(m.workers[v], k);
      CommitKeepsOther(m.t, m.nextId, k, m.workers[v]);
    }
  }

  lemma CommitIsSafe(m: Machine, w: nat)
    requires Safe(m) && Enabled(m, Commit(w))
    ensures Safe(Next(m, Commit(w)))
  {
    var k, n := m.workers[w], Next(m, Commit(w));
    PutIsSafe(m, w, Idle);
    assert n.workers == Put(m, w, Idle).workers;
    forall v | 0 <= v < |n.workers| ensures WorkerFits(n.t, n.nextId, n.workers[v]) {
      CommitKeepsWorkers(m, w, v);
    }
    assert WorkerFits(m.t, m.nextId, k);
    CommittedRows(m.t, m.nextId, k);
  }

  lemma MoveKeepsWorker(t: Tables, nextId: nat, id: nat, c: Change, k: Worker)
    requires WorkerFits(t, nextId, k) && !HoldsFile(k, id) && id in t.files && Edge(t.files[id].state, Target(c))
    ensures WorkerFits(t.(files := t.files[id := Changed(t.files[id], c)]), nextId, k)
  {
    if k.Reserving? && k.phase.Inserted? {
      var after, n := t.(files := t.files[id := Changed(t.files[id], c)]), k.phase.sequence;
      StaysFree(AfterBump(t, k.q, n).files, AfterBump(after, k.q, n).files, k.q.channel, n);
    }
  }

  lemma MovedRows(files: map<nat, File>, id: nat, c: Change)
    requires id in files && Edge(files[id].state, Target(c)) && LiveUnique(files) && CorrectionsReuse(files)
    ensures LiveUnique(files[id := Changed(files[id], c)]) && CorrectionsReuse(files[id := Changed(files[id], c)])
  {
    var after := files[id := Changed(files[id], c)];
    forall f, g | f in after && g in after && SameLiveNumber(after[f], after[g]) ensures f == g {
      assert SameLiveNumber(files[f], files[g]);
    }
  }

  lemma MoveIsSafe(m: Machine, id: nat, c: Change)
    requires Safe(m) && Enabled(m, MoveRow(id, c))
    ensures Safe(Next(m, MoveRow(id, c)))
  {
    forall w | 0 <= w < |m.workers| ensures WorkerFits(Next(m, MoveRow(id, c)).t, m.nextId, m.workers[w]) {
      assert m.workers[w] in m.workers;
      MoveKeepsWorker(m.t, m.nextId, id, c, m.workers[w]);
    }
    MovedRows(m.t.files, id, c);
  }

  lemma StepIsSafe(m: Machine, s: Step)
    requires Safe(m) && Enabled(m, s)
    ensures Safe(Next(m, s))
  {
    match s {
      case Begin(w, q) => BeginIsSafe(m, w, q);
      case Lock(w) => LockIsSafe(m, w);
      case ReadNumber(w) => NumberIsSafe(m, w, s);
      case Bump(w) => NumberIsSafe(m, w, s);
      case InsertRow(w) => InsertIsSafe(m, w);
      case Commit(w) => CommitIsSafe(m, w);
      case Rollback(w) => PutIsSafe(m, w, Idle);
      case MoveRow(id, c) => MoveIsSafe(m, id, c);
    }
  }

  // --- the numbers of a channel -----------------------------------------------------------

  // The numbers of the committed reservations that were not corrections, in the order of the commits.
  function Plain(log: seq<Entry>, channel: nat): seq<nat> {
    if log == [] then []
    else
      var e := log[|log| - 1];
      Plain(log[..|log| - 1], channel) + if e.channel == channel && e.plain then [e.sequence as nat] else []
  }

  const NUMBERS: nat := MAX_SEQUENCE + 1

  // The counter goes on from the last number given, and the k-th number given is k after the first.
  predicate Counts(first: Sequence, next: Sequence, given: seq<nat>) {
    && next == (first + |given|) % NUMBERS
    && forall k :: 0 <= k < |given| ==> given[k] == (first + k) % NUMBERS
  }

  predicate HasFile(files: map<nat, File>, channel: nat, n: nat) {
    exists f :: f in files && files[f].channel == channel && files[f].sequence == n
  }

  // The files of a channel have just the numbers given on it.
  ghost predicate Carried(files: map<nat, File>, channel: nat, given: seq<nat>) {
    forall n: nat :: HasFile(files, channel, n) <==> n in given
  }

  // A committed reservation is the row of its file.
  predicate EntryFits(files: map<nat, File>, e: Entry) {
    && e.id in files
    && files[e.id].channel == e.channel && files[e.id].sequence == e.sequence
    && (e.plain <==> files[e.id].supersedes.None?)
  }

  // The log lists the committed rows, each once.
  predicate Logged(files: map<nat, File>, log: seq<Entry>) {
    && (forall i :: 0 <= i < |log| ==> EntryFits(files, log[i]))
    && (forall i, j :: 0 <= i < j < |log| ==> log[i].id != log[j].id)
    && (forall f :: f in files ==> exists i :: 0 <= i < |log| && log[i].id == f)
  }

  ghost predicate Numbered(m: Machine, first: map<nat, Sequence>) {
    && m.t.next.Keys == first.Keys
    && Logged(m.t.files, m.log)
    && (forall c :: c in first ==> Counts(first[c], m.t.next[c], Plain(m.log, c)))
    && (forall c :: c in first ==> Carried(m.t.files, c, Plain(m.log, c)))
  }

  lemma OneMoreCounted(first: Sequence, next: Sequence, given: seq<nat>)
    requires Counts(first, next, given)
    ensures Counts(first, Following(next), given + [next as nat])
  {
  }

  lemma PlainStep(log: seq<Entry>, e: Entry, channel: nat)
    ensures Plain(log + [e], channel) == Plain(log, channel) + if e.channel == channel && e.plain then [e.sequence as nat] else []
  {
    assert (log + [e])[..|log|] == log;
  }

  predicate SameNumbers(files: map<nat, File>, after: map<nat, File>, id: nat) {
    && (forall f :: f in files ==> f in after && after[f].channel == files[f].channel && after[f].sequence == files[f].sequence)
    && (forall f :: f in after ==> f == id || f in files)
  }

  // A new file carries a number already given, or the number given with it.
  lemma CommitCarries(files: map<nat, File>, after: map<nat, File>, id: nat, channel: nat, given: seq<nat>, plain: bool)
    requires Carried(files, channel, given) && SameNumbers(files, after, id) && id !in files && id in after
    requires after[id].channel == channel && !plain ==> after[id].sequence as nat in given
    ensures Carried(after, channel, given + if after[id].channel == channel && plain then [after[id].sequence as nat] else [])
  {
    var more := if after[id].channel == channel && plain then [after[id].sequence as nat] else [];
    forall n: nat ensures HasFile(after, channel, n) <==> n in given + more {
      if HasFile(after, channel, n) {
        var f :| f in after && after[f].channel == channel && after[f].sequence == n;
        assert f != id ==> HasFile(files, channel, n);
      } else {
        assert !HasFile(files, channel, n) by {
          assert forall f :: f in files ==> !(after[f].channel == channel && after[f].sequence == n);
        }
        assert n !in more;
      }
    }
  }

  // A correction's number has been given: the file it supersedes has it.
  lemma CorrectionNumber(t: Tables, nextId: nat, k: Worker, given: seq<nat>)
    requires k.Reserving? && k.phase.Inserted? && WorkerFits(t, nextId, k)
    requires Carried(t.files, k.q.channel, given) && k.q.supersedes.Some?
    ensures k.phase.sequence as nat in given
  {
    assert HasFile(t.files, k.q.channel, k.phase.sequence);
  }

  lemma WrittenNumbers(t: Tables, k: Worker)
    requires k.Reserving? && k.phase.Inserted? && k.id !in t.files
    ensures SameNumbers(t.files, Written(t, k.id, k.q, k.phase.sequence).files, k.id)
  {
  }

  lemma CommitGives(t: Tables, nextId: nat, k: Worker, c: nat, first: Sequence, given: seq<nat>)
    requires k.Reserving? && k.phase.Inserted? && WorkerFits(t, nextId, k) && c in t.next
    requires Counts(first, t.next[c], given) && Carried(t.files, c, given)
    ensures var n := Written(t, k.id, k.q, k.phase.sequence);
            var more := if k.q.channel == c && k.q.supersedes.None? then [k.phase.sequence as nat] else [];
            n.next.Keys == t.next.Keys && Counts(first, n.next[c], given + more) && Carried(n.files, c, given + more)
  {
    var n := Written(t, k.id, k.q, k.phase.sequence);
    if k.q.channel == c && k.q.supersedes.Some? {
      CorrectionNumber(t, nextId, k, given);
    }
    OneMoreCounted(first, t.next[c], given);
    WrittenNumbers(t, k);
    CommitCarries(t.files, n.files, k.id, c, given, k.q.supersedes.None?);
    assert given + [] == given;
  }

  lemma CommitLogs(files: map<nat, File>, after: map<nat, File>, log: seq<Entry>, e: Entry)
    requires Logged(files, log) && SameNumbers(files, after, e.id) && e.id !in files && EntryFits(after, e)
    requires forall f :: f in files ==> after[f].supersedes == files[f].supersedes
    ensures Logged(after, log + [e])
  {
    forall f | f in after ensures exists i :: 0 <= i < |log + [e]| && (log + [e])[i].id == f {
      if f == e.id {
        assert (log + [e])[|log|].id == f;
      } else {
        var i :| 0 <= i < |log| && log[i].id == f;
        assert (log + [e])[i].id == f;
      }
    }
  }

  lemma WrittenEntry(t: Tables, k: Worker)
    requires k.Reserving? && k.phase.Inserted? && k.id !in t.files
    ensures var after := Written(t, k.id, k.q, k.phase.sequence).files;
            && EntryFits(after, Entry(k.id, k.q.channel, k.phase.sequence, k.q.supersedes.None?))
            && forall f :: f in t.files ==> f in after && after[f].supersedes == t.files[f].supersedes
  {
  }

  lemma WrittenIsLogged(t: Tables, nextId: nat, k: Worker, log: seq<Entry>)
    requires k.Reserving? && k.phase.Inserted? && WorkerFits(t, nextId, k) && Logged(t.files, log)
    ensures Logged(Written(t, k.id, k.q, k.phase.sequence).files,
                   log + [Entry(k.id, k.q.channel, k.phase.sequence, k.q.supersedes.None?)])
  {
    WrittenNumbers(t, k);
    WrittenEntry(t, k);
    CommitLogs(t.files, Written(t, k.id, k.q, k.phase.sequence).files, log,
               Entry(k.id, k.q.channel, k.phase.sequence, k.q.supersedes.None?));
  }

  lemma CommitNumbers(m: Machine, first: map<nat, Sequence>, w: nat)
    requires Safe(m) && Numbered(m, first) && Enabled(m, Commit(w))
    ensures Numbered(Next(m, Commit(w)), first)
  {
    var k := m.workers[w];
    assert WorkerFits(m.t, m.nextId, k);
    WrittenIsLogged(m.t, m.nextId, k, m.log);
    forall c | c in first
      ensures Next(m, Commit(w)).t.next.Keys == first.Keys
      ensures Counts(first[c], Next(m, Commit(w)).t.next[c], Plain(Next(m, Commit(w)).log, c))
      ensures Carried(Next(m, Commit(w)).t.files, c, Plain(Next(m, Commit(w)).log, c))
    {
      PlainStep(m.log, Entry(k.id, k.q.channel, k.phase.sequence, k.q.supersedes.None?), c);
      CommitGives(m.t, m.nextId, k, c, first[c], Plain(m.log, c));
    }
  }

  lemma MoveCarries(files: map<nat, File>, id: nat, ch: Change, channel: nat, given: seq<nat>)
    requires Carried(files, channel, given) && id in files
    ensures Carried(files[id := Changed(files[id], ch)], channel, given)
  {
    var after := files[id := Changed(files[id], ch)];
    forall n: nat ensures HasFile(after, channel, n) <==> HasFile(files, channel, n) {
      if HasFile(files, channel, n) {
        var f :| f in files && files[f].channel == channel && files[f].sequence == n;
        assert f in after && after[f].channel == channel && after[f].sequence == n;
      }
    }
  }

  lemma StepNumbers(m: Machine, first: map<nat, Sequence>, s: Step)
    requires Safe(m) && Numbered(m, first) && Enabled(m, s)
    ensures Numbered(Next(m, s), first)
  {
    if s.Commit? {
      CommitNumbers(m, first, s.w);
    } else if s.MoveRow? {
      forall c | c in first ensures Carried(Next(m, s).t.files, c, Plain(m.log, c)) {
        MoveCarries(m.t.files, s.id, s.c, c, Plain(m.log, c));
      }
    }
  }

  // --- whole runs ---------------------------------------------------------------------------

  lemma {:induction false} RunsAreSafe(m: Machine, first: map<nat, Sequence>, steps: seq<Step>)
    requires Safe(m) && Numbered(m, first) && Possible(m, steps)
    ensures Safe(After(m, steps)) && Numbered(After(m, steps), first)
    decreases |steps|
  {
    if steps != [] {
      StepIsSafe(m, steps[0]);
      StepNumbers(m, first, steps[0]);
      RunsAreSafe(Next(m, steps[0]), first, steps[1..]);
    }
  }

  // Some interleaving of some number of workers leads from empty tables to this state.
  ghost predicate Reachable(first: map<nat, Sequence>, m: Machine) {
    exists workers: nat, steps: seq<Step> :: Possible(Start(first, workers), steps) && After(Start(first, workers), steps) == m
  }

  lemma StartIsSafe(first: map<nat, Sequence>, workers: nat)
    ensures Safe(Start(first, workers)) && Numbered(Start(first, workers), first)
  {
    forall w | 0 <= w < workers ensures Start(first, workers).workers[w] == Idle {
      assert Start(first, workers).workers[w] in Start(first, workers).workers;
    }
  }

  lemma ReachableIsSafe(first: map<nat, Sequence>, m: Machine)
    requires Reachable(first, m)
    ensures Safe(m) && Numbered(m, first)
  {
    var workers: nat, steps :| Possible(Start(first, workers), steps) && After(Start(first, workers), steps) == m;
    StartIsSafe(first, workers);
    RunsAreSafe(Start(first, workers), first, steps);
  }

  // Under any interleaving: the k-th committed plain reservation of a channel carries the number k
  // after the channel's first, rolling over; corrections move no counter and reuse a number; and no
  // number is live twice.
  lemma NumbersFollowOn(first: map<nat, Sequence>, m: Machine)
    requires Reachable(first, m)
    ensures m.t.next.Keys == first.Keys
    ensures forall c :: c in first ==> Counts(first[c], m.t.next[c], Plain(m.log, c))
    ensures LiveUnique(m.t.files) && CorrectionsReuse(m.t.files) && Logged(m.t.files, m.log)
  {
    ReachableIsSafe(first, m);
  }

  // Every file that has the number was superseded.
  predicate AllSuperseded(files: map<nat, File>, channel: nat, n: nat) {
    forall f :: f in files && files[f].channel == channel && files[f].sequence == n ==> files[f].state == Superseded
  }

  lemma NotLive(files: map<nat, File>, channel: nat, n: nat)
    ensures n !in LiveNumbers(files, channel) <==> AllSuperseded(files, channel, n)
  {
    if !AllSuperseded(files, channel, n) {
      var f :| f in files && files[f].channel == channel && files[f].sequence == n && files[f].state != Superseded;
      assert files[f].sequence as nat in LiveNumbers(files, channel);
    }
  }

  // Which numbers have been given: all of a stretch that has not rolled over, all there are once it has
  // gone round, and otherwise those from the first on and those below the next.
  lemma GivenNumbers(first: Sequence, next: Sequence, given: seq<nat>, n: nat)
    requires Counts(first, next, given) && n < NUMBERS
    ensures first + |given| <= NUMBERS ==> (n in given <==> first <= n < first + |given|)
    ensures |given| >= NUMBERS ==> n in given
    ensures first + |given| > NUMBERS && |given| < NUMBERS ==> (n in given <==> n < next || n >= first)
  {
    var k := if n >= first then n - first else n + NUMBERS - first;
    assert k < |given| ==> given[k] == n;
  }

  // The counter has rolled over but not gone round, and live numbers are left on either side.
  predicate Straddles(first: Sequence, next: Sequence, count: nat, live: set<nat>) {
    && first + count > NUMBERS && count < NUMBERS
    && (exists a :: a in live && a < next)
    && (exists b :: b in live && b >= first)
  }

  lemma LiveAreGiven(files: map<nat, File>, c: nat, given: seq<nat>)
    requires Carried(files, c, given)
    ensures forall n :: n in LiveNumbers(files, c) ==> n in given && n < NUMBERS
  {
    forall n | n in LiveNumbers(files, c) ensures n in given && n < NUMBERS {
      assert HasFile(files, c, n);
    }
  }

  lemma WrappedNext(first: Sequence, next: Sequence, given: seq<nat>)
    requires Counts(first, next, given) && first + |given| > NUMBERS && |given| < NUMBERS
    ensures next < first && first - 1 !in given
  {
    assert next == first + |given| - NUMBERS;
    GivenNumbers(first, next, given, first - 1);
  }

  // Where it straddles, the number before the first is a gap and was never given.
  lemma StraddlingGap(files: map<nat, File>, c: nat, first: Sequence, next: Sequence, given: seq<nat>)
    requires Carried(files, c, given) && Counts(first, next, given)
    requires Straddles(first, next, |given|, LiveNumbers(files, c))
    ensures 0 < first && first - 1 in SequenceGaps(files, c) && first - 1 !in given
  {
    WrappedNext(first, next, given);
    var live, n := LiveNumbers(files, c), first - 1;
    var a :| a in live && a < next;
    var b :| b in live && b >= first;
    LiveAreGiven(files, c, given);
    assert a < n < b;
  }

  lemma GapIsGiven(files: map<nat, File>, c: nat, first: Sequence, next: Sequence, given: seq<nat>, n: nat)
    requires Carried(files, c, given) && Counts(first, next, given)
    requires n in SequenceGaps(files, c) && !Straddles(first, next, |given|, LiveNumbers(files, c))
    ensures n in given
  {
    var live := LiveNumbers(files, c);
    var low :| low in live && low < n;
    var high :| high in live && n < high;
    LiveAreGiven(files, c, given);
    GivenNumbers(first, next, given, low);
    GivenNumbers(first, next, given, high);
    GivenNumbers(first, next, given, n);
  }

  // The gaps are numbers given whose every file was superseded, so that nothing is missing, exactly while
  // the channel does not straddle a roll-over; then numbers are reported that were never given.
  lemma GapsAreSuperseded(first: map<nat, Sequence>, m: Machine, c: nat)
    requires Reachable(first, m) && c in first
    ensures c in m.t.next
    ensures var gaps, given, live := SequenceGaps(m.t.files, c), Plain(m.log, c), LiveNumbers(m.t.files, c);
            && (forall n: nat :: n in gaps <==> Between(live, n) && AllSuperseded(m.t.files, c, n))
            && ((forall n :: n in gaps ==> n in given) <==> !Straddles(first[c], m.t.next[c], |given|, live))
  {
    ReachableIsSafe(first, m);
    var gaps, given, live := SequenceGaps(m.t.files, c), Plain(m.log, c), LiveNumbers(m.t.files, c);
    forall n: nat ensures n in gaps <==> Between(live, n) && AllSuperseded(m.t.files, c, n) {
      NotLive(m.t.files, c, n);
    }
    if Straddles(first[c], m.t.next[c], |given|, live) {
      StraddlingGap(m.t.files, c, first[c], m.t.next[c], given);
    } else {
      forall n | n in gaps ensures n in given {
        GapIsGiven(m.t.files, c, first[c], m.t.next[c], given, n);
      }
    }
  }

  // What the caller must see to: a correction keeps its channel's numbers to those given on it exactly
  // when the number of the file it supersedes is one of them. On the same channel it always is; the number
  // of another channel's file need not be.
  lemma CorrectionKeepsSeries(t: Tables, id: nat, q: Request, given: seq<nat>)
    requires q.supersedes.Some? && Carried(t.files, q.channel, given) && Reserve(t, id, q).Success?
    ensures Carried(Reserve(t, id, q).value.files, q.channel, given) <==> t.files[q.supersedes.value].sequence as nat in given
    ensures t.files[q.supersedes.value].channel == q.channel ==> t.files[q.supersedes.value].sequence as nat in given
  {
    var after, n := Reserve(t, id, q).value.files, t.files[q.supersedes.value].sequence;
    ReservedRows(t, id, q);
    assert after[id].channel == q.channel && after[id].sequence == n;
    assert HasFile(after, q.channel, n);
    assert t.files[q.supersedes.value].channel == q.channel ==> HasFile(t.files, q.channel, n);
    if n as nat in given {
      CommitCarries(t.files, after, id, q.channel, given, false);
      assert given + [] == given;
    }
  }

  // --- a reservation that nothing disturbs ----------------------------------------------------

  function Whole(w: nat, q: Request): seq<Step> {
    [Begin(w, q), Lock(w), ReadNumber(w), Bump(w), InsertRow(w), Commit(w)]
  }

  lemma OneStep(m: Machine, s: Step, rest: seq<Step>)
    requires Enabled(m, s) && Possible(Next(m, s), rest)
    ensures Possible(m, [s] + rest) && After(m, [s] + rest) == After(Next(m, s), rest)
  {
    assert ([s] + rest)[1..] == rest;
  }

  predicate AllIdle(workers: seq<Worker>) {
    forall w :: 0 <= w < |workers| ==> workers[w].Idle?
  }

  // The machine with one worker at some point of its reservation.
  function Alone(m: Machine, w: nat, q: Request, phase: Phase): Machine
    requires w < |m.workers|
  {
    m.(workers := m.workers[w := Reserving(q, m.nextId, phase)], nextId := m.nextId + 1)
  }

  lemma AloneLocks(m: Machine, w: nat, q: Request)
    requires AllIdle(m.workers) && w < |m.workers| && Readable(m.t, q)
    ensures Enabled(m, Begin(w, q)) && Next(m, Begin(w, q)) == Alone(m, w, q, Began)
    ensures Enabled(Alone(m, w, q, Began), Lock(w)) && Next(Alone(m, w, q, Began), Lock(w)) == Alone(m, w, q, Locked)
  {
    forall k | k in Alone(m, w, q, Began).workers ensures k.Idle? || k.phase.Began? {
      var v :| 0 <= v < |m.workers| && Alone(m, w, q, Began).workers[v] == k;
    }
  }

  lemma AloneReads(m: Machine, w: nat, q: Request, n: Sequence)
    requires w < |m.workers| && Readable(m.t, q) && n == NumberFor(m.t, q)
    ensures Enabled(Alone(m, w, q, Locked), ReadNumber(w))
    ensures Next(Alone(m, w, q, Locked), ReadNumber(w)) == Alone(m, w, q, Read(n))
    ensures Enabled(Alone(m, w, q, Read(n)), Bump(w))
    ensures Next(Alone(m, w, q, Read(n)), Bump(w)) == Alone(m, w, q, Bumped(n))
  {
  }

  // The machine after an undisturbed reservation.
  function Reserved(m: Machine, q: Request): Machine
    requires Readable(m.t, q)
  {
    var n := NumberFor(m.t, q);
    m.(t := Written(m.t, m.nextId, q, n), nextId := m.nextId + 1,
       log := m.log + [Entry(m.nextId, q.channel, n, q.supersedes.None?)])
  }

  lemma AloneInserts(m: Machine, w: nat, q: Request, n: Sequence)
    requires AllIdle(m.workers) && w < |m.workers| && Readable(m.t, q) && n == NumberFor(m.t, q)
    requires Insert(AfterBump(m.t, q, n), m.nextId, q, n).Success?
    ensures Enabled(Alone(m, w, q, Bumped(n)), InsertRow(w))
    ensures Next(Alone(m, w, q, Bumped(n)), InsertRow(w)) == Alone(m, w, q, Inserted(n))
    ensures Enabled(Alone(m, w, q, Inserted(n)), Commit(w))
    ensures Next(Alone(m, w, q, Inserted(n)), Commit(w)) == Reserved(m, q)
  {
    assert m.workers[w := Idle] == m.workers;
  }

  lemma AloneFinishes(m: Machine, w: nat, q: Request, n: Sequence)
    requires AllIdle(m.workers) && w < |m.workers| && Readable(m.t, q) && n == NumberFor(m.t, q)
    requires Insert(AfterBump(m.t, q, n), m.nextId, q, n).Success?
    ensures Possible(Alone(m, w, q, Bumped(n)), [InsertRow(w), Commit(w)])
    ensures After(Alone(m, w, q, Bumped(n)), [InsertRow(w), Commit(w)]) == Reserved(m, q)
  {
    AloneInserts(m, w, q, n);
    OneStep(Alone(m, w, q, Inserted(n)), Commit(w), []);
    OneStep(Alone(m, w, q, Bumped(n)), InsertRow(w), [Commit(w)]);
  }

  lemma AloneStarts(m: Machine, w: nat, q: Request, rest: seq<Step>)
    requires AllIdle(m.workers) && w < |m.workers| && Readable(m.t, q)
    requires Possible(Alone(m, w, q, Bumped(NumberFor(m.t, q))), rest)
    ensures var steps := [Begin(w, q), Lock(w), ReadNumber(w), Bump(w)] + rest;
            Possible(m, steps) && After(m, steps) == After(Alone(m, w, q, Bumped(NumberFor(m.t, q))), rest)
  {
    var n := NumberFor(m.t, q);
    AloneLocks(m, w, q);
    AloneReads(m, w, q, n);
    OneStep(Alone(m, w, q, Read(n)), Bump(w), rest);
    OneStep(Alone(m, w, q, Locked), ReadNumber(w), [Bump(w)] + rest);
    OneStep(Alone(m, w, q, Began), Lock(w), [ReadNumber(w)] + ([Bump(w)] + rest));
    OneStep(m, Begin(w, q), [Lock(w)] + ([ReadNumber(w)] + ([Bump(w)] + rest)));
    assert [Begin(w, q)] + ([Lock(w)] + ([ReadNumber(w)] + ([Bump(w)] + rest)))
        == [Begin(w, q), Lock(w), ReadNumber(w), Bump(w)] + rest;
  }

  lemma ReservedIs(m: Machine, q: Request)
    requires Readable(m.t, q) && Reserve(m.t, m.nextId, q).Success?
    ensures Insert(AfterBump(m.t, q, NumberFor(m.t, q)), m.nextId, q, NumberFor(m.t, q)).Success?
    ensures Success(Reserved(m, q).t) == Reserve(m.t, m.nextId, q)
  {
  }

  // With no transaction under way, a worker carries its reservation through and the tables become what
  // reserve_file makes of them.
  lemma ReservationGoesThrough(m: Machine, w: nat, q: Request)
    requires AllIdle(m.workers) && w < |m.workers| && Readable(m.t, q) && Reserve(m.t, m.nextId, q).Success?
    ensures Possible(m, Whole(w, q)) && After(m, Whole(w, q)) == Reserved(m, q)
    ensures Success(After(m, Whole(w, q)).t) == Reserve(m.t, m.nextId, q)
  {
    ReservedIs(m, q);
    AloneFinishes(m, w, q, NumberFor(m.t, q));
    AloneStarts(m, w, q, [InsertRow(w), Commit(w)]);
    assert Whole(w, q) == [Begin(w, q), Lock(w), ReadNumber(w), Bump(w)] + [InsertRow(w), Commit(w)];
  }

  // --- two runs that show the conditions are met --------------------------------------------------

  lemma {:induction false} RunOn(m: Machine, steps: seq<Step>, more: seq<Step>)
    requires Possible(m, steps) && Possible(After(m, steps), more)
    ensures Possible(m, steps + more) && After(m, steps + more) == After(After(m, steps), more)
    decreases |steps|
  {
    if steps == [] {
      assert steps + more == more;
    } else {
      RunOn(Next(m, steps[0]), steps[1..], more);
      OneStep(m, steps[0], steps[1..] + more);
      assert [steps[0]] + (steps[1..] + more) == steps + more;
    }
  }

  // A plain reservation of a file that has a name.
  function Plainly(channel: nat): Request {
    Request(channel, "VT", "E0041001", Moment(true, Date(2025, 1, 1), Time(0, 0, 0, 0)), None)
  }

  lemma NameIsMade(id: nat)
    requires id < 10
    ensures MakeFilename("VT", id).Some?
  {
    DigitCount(id, 1);
    DigitCount(id, 12);
  }

  lemma PlainStart(first: map<nat, Sequence>)
    ensures AllIdle(Start(first, 1).workers) && Reachable(first, Start(first, 1))
  {
    assert Possible(Start(first, 1), []) && After(Start(first, 1), []) == Start(first, 1);
  }

  // One more plain reservation.
  lemma PlainReservation(first: map<nat, Sequence>, m: Machine, channel: nat) returns (n: Machine)
    requires Reachable(first, m) && AllIdle(m.workers) && m.workers != []
    requires channel in m.t.next && m.nextId < 10 && m.nextId !in m.t.files
    requires !InUse(m.t.files, channel, m.t.next[channel])
    ensures Reachable(first, n) && n.workers == m.workers && n.nextId == m.nextId + 1
    ensures n.t.next == m.t.next[channel := Following(m.t.next[channel])]
    ensures n.t.files.Keys == m.t.files.Keys + {m.nextId}
    ensures forall f :: f in m.t.files ==> n.t.files[f] == m.t.files[f]
    ensures var f := n.t.files[m.nextId]; f.channel == channel && f.sequence == m.t.next[channel] && f.state == FileState.Reserved
    ensures n.log == m.log + [Entry(m.nextId, channel, m.t.next[channel], true)]
  {
    var q := Plainly(channel);
    NameIsMade(m.nextId);
    ReservationGoesThrough(m, 0, q);
    n := Reserved(m, q);
    var workers: nat, steps :| Possible(Start(first, workers), steps) && After(Start(first, workers), steps) == m;
    RunOn(Start(first, workers), steps, Whole(0, q));
  }

  // A channel whose first number is the last there is, two reservations later: every other number is
  // reported as a gap.
  lemma RolloverIsReportedAsGap(first: map<nat, Sequence>, c: nat) returns (m: Machine)
    requires c in first && first[c] == MAX_SEQUENCE
    ensures Reachable(first, m) && Plain(m.log, c) == [MAX_SEQUENCE, 0]
    ensures forall n: nat :: 0 < n < MAX_SEQUENCE ==> n in SequenceGaps(m.t.files, c) && n !in Plain(m.log, c)
  {
    PlainStart(first);
    var once := PlainReservation(first, Start(first, 1), c);
    assert once.t.files[1].sequence == MAX_SEQUENCE && once.t.next[c] == 0;
    m := PlainReservation(first, once, c);
    assert m.t.files.Keys == {2, 1} && m.t.files[1] == once.t.files[1];
    PlainStep([], once.log[0], c);
    PlainStep(once.log, m.log[1], c);
    GapBetweenTwo(m.t.files, 2, 1, c);
  }

  lemma GapBetweenTwo(files: map<nat, File>, low: nat, high: nat, channel: nat)
    requires files.Keys == {low, high} && files[low].Live() && files[high].Live()
    requires files[low].channel == channel && files[high].channel == channel
    ensures forall n: nat :: files[low].sequence < n < files[high].sequence ==> n in SequenceGaps(files, channel)
  {
    var live := LiveNumbers(files, channel);
    assert files[low].sequence as nat in live && files[high].sequence as nat in live;
    forall n: nat | files[low].sequence < n < files[high].sequence ensures n in SequenceGaps(files, channel) {
      assert Between(live, n);
    }
  }

  // A correction on another channel than that of the file it supersedes: reserve_file lets it through, and
  // its channel has a file with a number that was never given on it.
  lemma CorrectionAcrossChannels() returns (m: Machine, q: Request)
    ensures Reachable(map[1 := 7, 2 := 100], m) && Carried(m.t.files, 2, []) && Plain(m.log, 2) == []
    ensures q.channel == 2 && q.supersedes == Some(1) && Reserve(m.t, m.nextId, q).Success?
    ensures !Carried(Reserve(m.t, m.nextId, q).value.files, 2, [])
  {
    var first: map<nat, Sequence> := map[1 := 7, 2 := 100];
    PlainStart(first);
    m := PlainReservation(first, Start(first, 1), 1);
    q := Plainly(2).(supersedes := Some(1));
    PlainStep([], Entry(1, 1, 7, true), 2);
    NothingCarried(m.t.files, 2);
    NameIsMade(m.nextId);
    CorrectionGoesIn(m.t, m.nextId, q);
    CorrectionKeepsSeries(m.t, m.nextId, q, []);
  }

  lemma NothingCarried(files: map<nat, File>, channel: nat)
    requires forall f :: f in files ==> files[f].channel != channel
    ensures Carried(files, channel, [])
  {
  }

  // Nothing but the name, the channel and the number of the new row is looked at.
  lemma CorrectionGoesIn(t: Tables, id: nat, q: Request)
    requires q.supersedes.Some? && q.supersedes.value in t.files && id !in t.files && q.channel in t.next
    requires MakeFilename(q.roleCode, id).Some? && forall f :: f in t.files ==> t.files[f].channel != q.channel
    ensures Reserve(t, id, q).Success?
  {
  }
}
