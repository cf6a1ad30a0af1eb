// Runs of senders, transport failures and retries, whatever renders a file, names its archive object and
// reads bytes back.
module SendRuns {
  import opened Wrappers
  import opened Checksum
  import opened Fields
  import opened FlowSpec
  import opened FileCodec
  import opened FileTables

  datatype Channel = Channel(
    id: nat, fromRole: string, fromParticipant: string, toRole: string, toParticipant: string, testFlag: string)

  // What a sender is given to send. The creation time is the current one where the caller gives none.
  datatype Job = Job(channel: Channel, flow: Flow, body: seq<Node>, day: Date, at: Time, supersedes: Option<nat>)

  function RequestFor(j: Job): Request {
    Request(j.channel.id, j.channel.fromRole, j.flow.fileType, Moment(true, j.day, j.at), j.supersedes)
  }

  // Building, archive keys and URIs, and what is read back from bytes.
  datatype Office = Office(
    render: (Job, Sequence) -> Option<Bytes>,
    key: (Value, string, nat) -> string,
    uri: string -> string,
    locate: string -> Option<string>,
    declared: Bytes -> Option<(int, int)>,
    number: Bytes -> Option<int>)
  {
    // Two files never share a key, a URI leads to its key, and rendered bytes carry their number.
    ghost predicate Sound() {
      && (forall c: Value, f: string, i: nat, d: Value, g: string, j: nat :: key(c, f, i) == key(d, g, j) ==> i == j)
      && (forall c: Value, f: string, i: nat :: locate(uri(key(c, f, i))) == Some(key(c, f, i)))
      && (forall j: Job, n: Sequence :: render(j, n).Some? ==> number(render(j, n).value) == Some(n))
    }

    function KeyOf(f: File, id: nat): string {
      key(f.created, f.filename, id)
    }
  }

  // One file handed to transport, with what transport answered.
  datatype HandOff = HandOff(id: nat, filename: string, payload: Bytes, delivered: bool)

  datatype World = World(t: Tables, nextId: nat, objects: map<string, Bytes>, wire: seq<HandOff>)

  // --- the machine ----------------------------------------------------------------------------

  datatype Worker =
    | Idle
    | Numbered(id: nat, job: Job)
    | Rendered(id: nat, payload: Bytes)
    | Stored(id: nat, payload: Bytes, uri: string)
    | Ready(id: nat, payload: Bytes)
    | Answered(id: nat, delivered: bool)

  datatype Machine = Machine(world: World, workers: seq<Worker>)

  datatype Step =
    | StartSend(w: nat, job: Job)
    | Render(w: nat)
    | Store(w: nat)
    | RecordRow(w: nat)
    | StartRetry(w: nat, id: nat)
    | HandOver(w: nat, delivered: bool)
    | Note(w: nat, at: int)
    | Crash(w: nat)
    | MoveRow(id: nat, c: Change)

  predicate Retryable(s: FileState) {
    s == Built || s == SendFailed || s == Sent
  }

  // What a retry sends; None where SendError or ArchiveError is raised.
  function RetryPayload(o: Office, world: World, id: nat): Option<Bytes> {
    if id !in world.t.files || !Retryable(world.t.files[id].state) || world.t.files[id].uri.None? then None
    else
      match o.locate(world.t.files[id].uri.value)
      case None => None
      case Some(key) => if key in world.objects then Some(world.objects[key]) else None
  }

  predicate Enabled(m: Machine, s: Step) {
    match s
    case StartSend(w, _) => w < |m.workers| && m.workers[w].Idle?
    case Render(w) => w < |m.workers| && m.workers[w].Numbered? && m.workers[w].id in m.world.t.files
    case Store(w) => w < |m.workers| && m.workers[w].Rendered? && m.workers[w].id in m.world.t.files
    case RecordRow(w) => w < |m.workers| && m.workers[w].Stored?
    case StartRetry(w, _) => w < |m.workers| && m.workers[w].Idle?
    case HandOver(w, _) => w < |m.workers| && m.workers[w].Ready? && m.workers[w].id in m.world.t.files
    case Note(w, _) => w < |m.workers| && m.workers[w].Answered?
    case Crash(w) => w < |m.workers|
    // Feedback and sweeps: record_built is the sender's own step.
    case MoveRow(id, c) => id in m.world.t.files && Edge(m.world.t.files[id].state, Target(c)) && !c.ToBuilt?
  }

  function Put(m: Machine, w: nat, k: Worker, world: World): Machine
    requires w < |m.workers|
  {
    Machine(world, m.workers[w := k])
  }

  function Outcome(delivered: bool, at: int): Change {
    if delivered then ToSent(at) else ToSendFailed
  }

  function HandedOver(world: World, id: nat, payload: Bytes, delivered: bool): World
    requires id in world.t.files
  {
    world.(wire := world.wire + [HandOff(id, world.t.files[id].filename, payload, delivered)])
  }

  // reserve_file; the id is spent even where it fails.
  function Reserving(world: World, q: Request): World {
    match Reserve(world.t, world.nextId, q)
    case Failure(_) => world.(nextId := world.nextId + 1)
    case Success(t) => world.(t := t, nextId := world.nextId + 1)
  }

  // record_sent and record_send_failed; where they fail nothing is changed.
  function Noted(world: World, id: nat, delivered: bool, at: int): World {
    match Move(world.t, id, Outcome(delivered, at))
    case Failure(_) => world
    case Success(t) => world.(t := t)
  }

  // An error in a step leaves the worker idle and what it has committed in place.
  function Next(o: Office, m: Machine, s: Step): Machine
    requires Enabled(m, s)
  {
    var world := m.world;
    match s
    case StartSend(w, job) =>
      var q := RequestFor(job);
      Put(m, w, if Reserve(world.t, world.nextId, q).Success? then Numbered(world.nextId, job) else Idle, Reserving(world, q))
    case Render(w) =>
      var k := m.workers[w];
      (match o.render(k.job, world.t.files[k.id].sequence)
       case None => Put(m, w, Idle, world)
       case Some(payload) => Put(m, w, Rendered(k.id, payload), world))
    case Store(w) =>
      var k := m.workers[w];
      var key := o.KeyOf(world.t.files[k.id], k.id);
      if key in world.objects then Put(m, w, Idle, world)
      else Put(m, w, Stored(k.id, k.payload, o.uri(key)), world.(objects := world.objects[key := k.payload]))
    case RecordRow(w) =>
      var k := m.workers[w];
      (match o.declared(k.payload)
       case None => Put(m, w, Idle, world)
       case Some((count, checksum)) =>
         Put(m, w, Ready(k.id, k.payload), world.(t := RecordBuilt(world.t, k.id, checksum, count, k.uri))))
    case StartRetry(w, id) =>
      (match RetryPayload(o, world, id)
       case None => m
       case Some(payload) => Put(m, w, Ready(id, payload), world))
    case HandOver(w, delivered) =>
      var k := m.workers[w];
      Put(m, w, Answered(k.id, delivered), HandedOver(world, k.id, k.payload, delivered))
    case Note(w, at) =>
      var k := m.workers[w];
      Put(m, w, Idle, Noted(world, k.id, k.delivered, at))
    case Crash(w) => Put(m, w, Idle, world)
    case MoveRow(id, c) =>
      m.(world := world.(t := world.t.(files := world.t.files[id := Changed(world.t.files[id], c)])))
  }

  predicate Possible(o: Office, m: Machine, steps: seq<Step>)
    decreases |steps|
  {
    steps == [] || (Enabled(m, steps[0]) && Possible(o, Next(o, m, steps[0]), steps[1..]))
  }

  function After(o: Office, m: Machine, steps: seq<Step>): Machine
    requires Possible(o, m, steps)
    decreases |steps|
  {
    if steps == [] then m else After(o, Next(o, m, steps[0]), steps[1..])
  }

  function Start(first: map<nat, Sequence>, workers: nat): Machine {
    Machine(World(Tables(first, map[]), 1, map[], []), seq(workers, _ => Idle))
  }

  // --- what every step keeps --------------------------------------------------------------------

  // The bytes that belong to a file: they are in the archive under its key, and carry the number of
  // its row.
  predicate Holds(o: Office, world: World, id: nat, payload: Bytes) {
    && id in world.t.files
    && o.KeyOf(world.t.files[id], id) in world.objects
    && world.objects[o.KeyOf(world.t.files[id], id)] == payload
    && o.number(payload) == Some(world.t.files[id].sequence)
  }

  // A file that has been reserved and not archived.
  predicate Bare(o: Office, world: World, id: nat) {
    id in world.t.files && o.KeyOf(world.t.files[id], id) !in world.objects
  }

  // Some hand-off of the file succeeded.
  predicate WasDelivered(wire: seq<HandOff>, id: nat) {
    exists i :: 0 <= i < |wire| && wire[i].id == id && wire[i].delivered
  }

  predicate WorkerFits(o: Office, world: World, k: Worker) {
    match k
    case Idle => true
    case Numbered(id, _) => Bare(o, world, id)
    case Rendered(id, payload) => Bare(o, world, id) && o.number(payload) == Some(world.t.files[id].sequence)
    case Stored(id, payload, uri) => Holds(o, world, id, payload) && uri == o.uri(o.KeyOf(world.t.files[id], id))
    case Ready(id, payload) => Holds(o, world, id, payload)
    case Answered(id, delivered) => id in world.t.files && (delivered ==> WasDelivered(world.wire, id))
  }

  predicate StillBuilding(k: Worker) {
    k.Numbered? || k.Rendered?
  }

  // No two workers build one file.
  predicate Apart(a: Worker, b: Worker) {
    StillBuilding(a) && StillBuilding(b) ==> a.id != b.id
  }

  predicate RowFits(o: Office, world: World, id: nat)
    requires id in world.t.files
  {
    var key := o.KeyOf(world.t.files[id], id);
    && id < world.nextId
    && (world.t.files[id].uri.Some? ==> world.t.files[id].uri.value == o.uri(key) && key in world.objects)
    && (key in world.objects ==> Holds(o, world, id, world.objects[key]))
  }

  predicate ObjectFits(o: Office, world: World, key: string) {
    exists id :: id in world.t.files && key == o.KeyOf(world.t.files[id], id)
  }

  predicate WorldFits(o: Office, world: World) {
    && (forall id :: id in world.t.files ==> RowFits(o, world, id))
    && (forall key :: key in world.objects ==> ObjectFits(o, world, key))
  }

  predicate HandOffFits(o: Office, world: World, h: HandOff) {
    Holds(o, world, h.id, h.payload) && h.filename == world.t.files[h.id].filename
  }

  predicate WireFits(o: Office, world: World) {
    forall i :: 0 <= i < |world.wire| ==> HandOffFits(o, world, world.wire[i])
  }

  predicate Safe(o: Office, m: Machine) {
    && WorldFits(o, m.world)
    && WireFits(o, m.world)
    && (forall w :: 0 <= w < |m.workers| ==> WorkerFits(o, m.world, m.workers[w]))
    && (forall v, w :: 0 <= v < |m.workers| && 0 <= w < |m.workers| && v != w ==> Apart(m.workers[v], m.workers[w]))
  }

  // What a file is called, when it was made and which number it has never change.
  predicate SameFile(f: File, g: File) {
    g.channel == f.channel && g.sequence == f.sequence && g.filename == f.filename && g.created == f.created
  }

  // No file and no archived object is lost or changed.
  predicate Grows(world: World, after: World) {
    && (forall id :: id in world.t.files ==> id in after.t.files && SameFile(world.t.files[id], after.t.files[id]))
    && (forall key :: key in world.objects ==> key in after.objects && after.objects[key] == world.objects[key])
  }

  lemma HoldsStill(o: Office, world: World, after: World, id: nat, payload: Bytes)
    requires Grows(world, after) && Holds(o, world, id, payload)
    ensures Holds(o, after, id, payload)
  {
  }

  lemma ObjectFitsStill(o: Office, world: World, after: World, key: string)
    requires Grows(world, after) && ObjectFits(o, world, key)
    ensures ObjectFits(o, after, key)
  {
    var f :| f in world.t.files && key == o.KeyOf(world.t.files[f], f);
    assert f in after.t.files && key == o.KeyOf(after.t.files[f], f);
  }

  lemma WireFitsStill(o: Office, world: World, after: World)
    requires Grows(world, after) && WireFits(o, world) && after.wire == world.wire
    ensures WireFits(o, after)
  {
    forall i | 0 <= i < |after.wire| ensures HandOffFits(o, after, after.wire[i]) {
      assert HandOffFits(o, world, world.wire[i]);
      HoldsStill(o, world, after, world.wire[i].id, world.wire[i].payload);
    }
  }

  lemma WorkerFitsStill(o: Office, world: World, after: World, k: Worker)
    requires Grows(world, after) && world.wire <= after.wire && WorkerFits(o, world, k)
    requires StillBuilding(k) ==> o.KeyOf(world.t.files[k.id], k.id) !in after.objects
    ensures WorkerFits(o, after, k)
  {
    if k.Answered? && k.delivered {
      var i :| 0 <= i < |world.wire| && world.wire[i].id == k.id && world.wire[i].delivered;
      assert after.wire[i] == world.wire[i];
    }
  }

  lemma BuilderIsBare(o: Office, m: Machine, v: nat)
    requires Safe(o, m) && v < |m.workers| && StillBuilding(m.workers[v])
    ensures Bare(o, m.world, m.workers[v].id)
  {
    assert WorkerFits(o, m.world, m.workers[v]);
  }

  // A step that writes no object: the other workers are as they were.
  lemma QuietStep(o: Office, m: Machine, w: nat, k: Worker, world: World)
    requires Safe(o, m) && w < |m.workers| && Grows(m.world, world) && world.objects == m.world.objects
    requires m.world.wire <= world.wire
    requires WorldFits(o, world) && WireFits(o, world) && WorkerFits(o, world, k)
    requires forall v :: 0 <= v < |m.workers| && v != w ==> Apart(k, m.workers[v])
    ensures Safe(o, Put(m, w, k, world))
  {
    forall v | 0 <= v < |m.workers| && v != w ensures WorkerFits(o, world, m.workers[v]) {
      if StillBuilding(m.workers[v]) {
        BuilderIsBare(o, m, v);
      }
      WorkerFitsStill(o, m.world, world, m.workers[v]);
    }
  }

  // --- each step ----------------------------------------------------------------------------------

  // Nothing is archived under the key of a new file.
  lemma NewKeyIsFree(o: Office, world: World, f: File, id: nat)
    requires o.Sound() && WorldFits(o, world) && id !in world.t.files
    ensures o.KeyOf(f, id) !in world.objects
  {
    forall j | j in world.t.files ensures o.KeyOf(world.t.files[j], j) != o.KeyOf(f, id) {
      var g := world.t.files[j];
      assert o.key(f.created, f.filename, id) == o.key(g.created, g.filename, j) ==> id == j;
    }
  }

  lemma ReservingFits(o: Office, world: World, q: Request)
    requires o.Sound() && WorldFits(o, world)
    ensures Grows(world, Reserving(world, q)) && WorldFits(o, Reserving(world, q))
    ensures Reserve(world.t, world.nextId, q).Success? ==> Bare(o, Reserving(world, q), world.nextId)
  {
    var after := Reserving(world, q);
    if Reserve(world.t, world.nextId, q).Success? {
      ReservedRows(world.t, world.nextId, q);
      NewKeyIsFree(o, world, after.t.files[world.nextId], world.nextId);
    }
    forall f | f in after.t.files ensures RowFits(o, after, f) {
      assert f in world.t.files ==> RowFits(o, world, f);
    }
    forall key | key in after.objects ensures ObjectFits(o, after, key) {
      ObjectFitsStill(o, world, after, key);
    }
  }

  lemma StartSendIsSafe(o: Office, m: Machine, w: nat, job: Job)
    requires o.Sound() && Safe(o, m) && Enabled(m, StartSend(w, job))
    ensures Safe(o, Next(o, m, StartSend(w, job)))
  {
    var q := RequestFor(job);
    ReservingFits(o, m.world, q);
    WireFitsStill(o, m.world, Reserving(m.world, q));
    forall v | 0 <= v < |m.workers| && v != w ensures Apart(Numbered(m.world.nextId, job), m.workers[v]) {
      if StillBuilding(m.workers[v]) {
        BuilderIsBare(o, m, v);
        assert RowFits(o, m.world, m.workers[v].id);
      }
    }
    QuietStep(o, m, w, Next(o, m, StartSend(w, job)).workers[w], Reserving(m.world, q));
  }

  lemma RenderIsSafe(o: Office, m: Machine, w: nat)
    requires o.Sound() && Safe(o, m) && Enabled(m, Render(w))
    ensures Safe(o, Next(o, m, Render(w)))
  {
    var k := m.workers[w];
    assert WorkerFits(o, m.world, k);
    forall v | 0 <= v < |m.workers| && v != w ensures Apart(Next(o, m, Render(w)).workers[w], m.workers[v]) {
      assert Apart(k, m.workers[v]);
    }
    QuietStep(o, m, w, Next(o, m, Render(w)).workers[w], m.world);
  }

  lemma StoringFits(o: Office, world: World, id: nat, payload: Bytes)
    requires o.Sound() && WorldFits(o, world) && Bare(o, world, id)
    requires o.number(payload) == Some(world.t.files[id].sequence)
    ensures var after := world.(objects := world.objects[o.KeyOf(world.t.files[id], id) := payload]);
            WorldFits(o, after) && Grows(world, after) && Holds(o, after, id, payload)
  {
    var key := o.KeyOf(world.t.files[id], id);
    var after := world.(objects := world.objects[key := payload]);
    forall f | f in after.t.files ensures RowFits(o, after, f) {
      assert RowFits(o, world, f);
    }
    forall k | k in after.objects ensures ObjectFits(o, after, k) {
      if k != key {
        ObjectFitsStill(o, world, after, k);
      }
    }
  }

  // The archive never refuses a file: nobody has written under its key.
  lemma PutNeverCollides(o: Office, m: Machine, w: nat)
    requires Safe(o, m) && Enabled(m, Store(w))
    ensures o.KeyOf(m.world.t.files[m.workers[w].id], m.workers[w].id) !in m.world.objects
    ensures Next(o, m, Store(w)).workers[w].Stored?
  {
    BuilderIsBare(o, m, w);
  }

  lemma StoreIsSafe(o: Office, m: Machine, w: nat)
    requires o.Sound() && Safe(o, m) && Enabled(m, Store(w))
    ensures Safe(o, Next(o, m, Store(w)))
  {
    var k, n := m.workers[w], Next(o, m, Store(w));
    assert WorkerFits(o, m.world, k);
    StoringFits(o, m.world, k.id, k.payload);
    WireFitsStill(o, m.world, n.world);
    forall v | 0 <= v < |m.workers| && v != w ensures WorkerFits(o, n.world, m.workers[v]) {
      assert Apart(k, m.workers[v]);
      if StillBuilding(m.workers[v]) {
        BuilderIsBare(o, m, v);
      }
      WorkerFitsStill(o, m.world, n.world, m.workers[v]);
    }
  }

  // A change of one row that leaves its identity alone, and its URI or sets it to the right one.
  lemma ChangingFits(o: Office, world: World, id: nat, f: File)
    requires WorldFits(o, world) && id in world.t.files && SameFile(world.t.files[id], f)
    requires f.uri == world.t.files[id].uri || (f.uri == Some(o.uri(o.KeyOf(f, id))) && o.KeyOf(f, id) in world.objects)
    ensures var after := world.(t := world.t.(files := world.t.files[id := f])); WorldFits(o, after) && Grows(world, after)
  {
    var after := world.(t := world.t.(files := world.t.files[id := f]));
    forall g | g in after.t.files ensures RowFits(o, after, g) {
      assert RowFits(o, world, g);
    }
    forall key | key in after.objects ensures ObjectFits(o, after, key) {
      ObjectFitsStill(o, world, after, key);
    }
  }

  lemma RecordIsSafe(o: Office, m: Machine, w: nat)
    requires Safe(o, m) && Enabled(m, RecordRow(w))
    ensures Safe(o, Next(o, m, RecordRow(w)))
  {
    var k, n := m.workers[w], Next(o, m, RecordRow(w));
    assert WorkerFits(o, m.world, k);
    if o.declared(k.payload).Some? && m.world.t.files[k.id].state == FileState.Reserved {
      ChangingFits(o, m.world, k.id, n.world.t.files[k.id]);
    }
    WireFitsStill(o, m.world, n.world);
    QuietStep(o, m, w, n.workers[w], n.world);
  }

  lemma HandOverIsSafe(o: Office, m: Machine, w: nat, delivered: bool)
    requires Safe(o, m) && Enabled(m, HandOver(w, delivered))
    ensures Safe(o, Next(o, m, HandOver(w, delivered)))
  {
    var k := m.workers[w];
    var world := HandedOver(m.world, k.id, k.payload, delivered);
    assert WorkerFits(o, m.world, k);
    assert Grows(m.world, world);
    forall i | 0 <= i < |world.wire| ensures HandOffFits(o, world, world.wire[i]) {
      if i < |m.world.wire| {
        assert HandOffFits(o, m.world, m.world.wire[i]);
      }
    }
    forall f | f in world.t.files ensures RowFits(o, world, f) {
      assert RowFits(o, m.world, f);
    }
    forall key | key in world.objects ensures ObjectFits(o, world, key) {
      ObjectFitsStill(o, m.world, world, key);
    }
    assert world.wire[|m.world.wire|].id == k.id && world.wire[|m.world.wire|].delivered == delivered;
    QuietStep(o, m, w, Answered(k.id, delivered), world);
  }

  lemma RowChangeIsSafe(o: Office, m: Machine, id: nat, c: Change)
    requires Safe(o, m) && id in m.world.t.files && !c.ToBuilt?
    ensures var world := m.world.(t := m.world.t.(files := m.world.t.files[id := Changed(m.world.t.files[id], c)]));
            WorldFits(o, world) && WireFits(o, world) && Grows(m.world, world)
  {
    ChangingFits(o, m.world, id, Changed(m.world.t.files[id], c));
    WireFitsStill(o, m.world, m.world.(t := m.world.t.(files := m.world.t.files[id := Changed(m.world.t.files[id], c)])));
  }

  lemma NoteIsSafe(o: Office, m: Machine, w: nat, at: int)
    requires Safe(o, m) && Enabled(m, Note(w, at))
    ensures Safe(o, Next(o, m, Note(w, at)))
  {
    var k := m.workers[w];
    if Move(m.world.t, k.id, Outcome(k.delivered, at)).Success? {
      RowChangeIsSafe(o, m, k.id, Outcome(k.delivered, at));
    }
    QuietStep(o, m, w, Idle, Noted(m.world, k.id, k.delivered, at));
  }

  lemma MoveRowIsSafe(o: Office, m: Machine, id: nat, c: Change)
    requires Safe(o, m) && Enabled(m, MoveRow(id, c))
    ensures Safe(o, Next(o, m, MoveRow(id, c)))
  {
    RowChangeIsSafe(o, m, id, c);
    var n := Next(o, m, MoveRow(id, c));
    forall v | 0 <= v < |m.workers| ensures WorkerFits(o, n.world, m.workers[v]) {
      if StillBuilding(m.workers[v]) {
        BuilderIsBare(o, m, v);
      }
      WorkerFitsStill(o, m.world, n.world, m.workers[v]);
    }
  }

  lemma RetryIsSafe(o: Office, m: Machine, w: nat, id: nat)
    requires o.Sound() && Safe(o, m) && Enabled(m, StartRetry(w, id))
    ensures Safe(o, Next(o, m, StartRetry(w, id)))
  {
    if RetryPayload(o, m.world, id).Some? {
      RetrySendsArchived(o, m.world, id);
      QuietStep(o, m, w, Ready(id, RetryPayload(o, m.world, id).value), m.world);
    }
  }

  // What a retry reads back is what was archived for the file.
  lemma RetrySendsArchived(o: Office, world: World, id: nat)
    requires o.Sound() && WorldFits(o, world) && RetryPayload(o, world, id).Some?
    ensures Holds(o, world, id, RetryPayload(o, world, id).value)
  {
    assert RowFits(o, world, id);
    var f := world.t.files[id];
    assert o.locate(o.uri(o.key(f.created, f.filename, id))) == Some(o.key(f.created, f.filename, id));
  }

  lemma StepIsSafe(o: Office, m: Machine, s: Step)
    requires o.Sound() && Safe(o, m) && Enabled(m, s)
    ensures Safe(o, Next(o, m, s))
  {
    match s {
      case StartSend(w, job) => StartSendIsSafe(o, m, w, job);
      case Render(w) => RenderIsSafe(o, m, w);
      case Store(w) => StoreIsSafe(o, m, w);
      case RecordRow(w) => RecordIsSafe(o, m, w);
      case StartRetry(w, id) => RetryIsSafe(o, m, w, id);
      case HandOver(w, delivered) => HandOverIsSafe(o, m, w, delivered);
      case Note(w, at) => NoteIsSafe(o, m, w, at);
      case Crash(w) => QuietStep(o, m, w, Idle, m.world);
      case MoveRow(id, c) => MoveRowIsSafe(o, m, id, c);
    }
  }

  // --- whole runs -----------------------------------------------------------------------------------

  lemma {:induction false} RunsAreSafe(o: Office, m: Machine, steps: seq<Step>)
    requires o.Sound() && Safe(o, m) && Possible(o, m, steps)
    ensures Safe(o, After(o, m, steps))
    decreases |steps|
  {
    if steps != [] {
      StepIsSafe(o, m, steps[0]);
      RunsAreSafe(o, Next(o, m, steps[0]), steps[1..]);
    }
  }

  // Some run of some number of workers leads from empty tables and an empty archive to this state.
  ghost predicate Reachable(o: Office, m: Machine) {
    exists first: map<nat, Sequence>, workers: nat, steps: seq<Step> ::
      Possible(o, Start(first, workers), steps) && After(o, Start(first, workers), steps) == m
  }

  lemma ReachableIsSafe(o: Office, m: Machine)
    requires o.Sound() && Reachable(o, m)
    ensures Safe(o, m)
  {
    var first: map<nat, Sequence>, workers: nat, steps :|
      Possible(o, Start(first, workers), steps) && After(o, Start(first, workers), steps) == m;
    RunsAreSafe(o, Start(first, workers), steps);
  }

  // Every hand-off of a file, first or retried, carried the bytes archived for it under its key, and
  // those bytes carry the number of its row.
  lemma BuildOnceSendMany(o: Office, m: Machine, i: nat, j: nat)
    requires o.Sound() && Reachable(o, m) && i < |m.world.wire| && j < |m.world.wire|
    ensures Holds(o, m.world, m.world.wire[i].id, m.world.wire[i].payload)
    ensures m.world.wire[i].filename == m.world.t.files[m.world.wire[i].id].filename
    ensures m.world.wire[i].id == m.world.wire[j].id ==> m.world.wire[i].payload == m.world.wire[j].payload
  {
    ReachableIsSafe(o, m);
    assert HandOffFits(o, m.world, m.world.wire[i]) && HandOffFits(o, m.world, m.world.wire[j]);
  }

  // Only the start of a first send takes an id or a number or adds a row; a retry takes none.
  lemma OnlySendsAllocate(o: Office, m: Machine, s: Step)
    requires Enabled(m, s) && !s.StartSend?
    ensures var n := Next(o, m, s).world;
            n.nextId == m.world.nextId && n.t.next == m.world.t.next && n.t.files.Keys == m.world.t.files.Keys
  {
  }

  // No step overwrites an archived object, gives a row another number or takes a hand-off back.
  lemma StepsGrow(o: Office, m: Machine, s: Step)
    requires Enabled(m, s)
    ensures Grows(m.world, Next(o, m, s).world) && m.world.wire <= Next(o, m, s).world.wire
  {
    if s.StartSend? && Reserve(m.world.t, m.world.nextId, RequestFor(s.job)).Success? {
      ReservedRows(m.world.t, m.world.nextId, RequestFor(s.job));
    }
  }

  lemma {:induction false} RunsGrow(o: Office, m: Machine, steps: seq<Step>)
    requires Possible(o, m, steps)
    ensures Grows(m.world, After(o, m, steps).world) && m.world.wire <= After(o, m, steps).world.wire
    decreases |steps|
  {
    if steps != [] {
      StepsGrow(o, m, steps[0]);
      RunsGrow(o, Next(o, m, steps[0]), steps[1..]);
    }
  }

  // --- forward ---------------------------------------------------------------------------------------

  // What anyone may do to files and wire: no file goes back, no hand-off is undone.
  predicate Forward(world: World, after: World) {
    && (forall id :: id in world.t.files ==>
          id in after.t.files && Rank(world.t.files[id].state) <= Rank(after.t.files[id].state))
    && world.wire <= after.wire
  }

  // The file was handed over successfully, and its row says so.
  predicate WentOut(world: World, id: nat) {
    id in world.t.files && Rank(Sent) <= Rank(world.t.files[id].state) && WasDelivered(world.wire, id)
  }

  lemma WentOutStill(world: World, after: World, id: nat)
    requires Forward(world, after) && WentOut(world, id)
    ensures WentOut(after, id)
  {
    var i :| 0 <= i < |world.wire| && world.wire[i].id == id && world.wire[i].delivered;
    assert after.wire[i] == world.wire[i];
  }

  lemma RowGoesForward(world: World, id: nat, c: Change)
    requires id in world.t.files && Edge(world.t.files[id].state, Target(c))
    ensures Forward(world, world.(t := world.t.(files := world.t.files[id := Changed(world.t.files[id], c)])))
  {
    EdgesLeadFurther(world.t.files[id].state, Target(c));
  }

  lemma ReservingGoesForward(world: World, q: Request)
    ensures Forward(world, Reserving(world, q))
  {
    if Reserve(world.t, world.nextId, q).Success? {
      ReservedRows(world.t, world.nextId, q);
    }
  }

  lemma NotedGoesForward(world: World, id: nat, delivered: bool, at: int)
    ensures Forward(world, Noted(world, id, delivered, at))
  {
    if Move(world.t, id, Outcome(delivered, at)).Success? {
      RowGoesForward(world, id, Outcome(delivered, at));
    }
  }

  // Every step of every sender, and every move of a row, goes forward.
  lemma StepsGoForward(o: Office, m: Machine, s: Step)
    requires Enabled(m, s)
    ensures Forward(m.world, Next(o, m, s).world)
  {
    match s {
      case StartSend(_, job) => ReservingGoesForward(m.world, RequestFor(job));
      case Note(w, at) => NotedGoesForward(m.world, m.workers[w].id, m.workers[w].delivered, at);
      case MoveRow(id, c) => RowGoesForward(m.world, id, c);
      case _ =>
    }
  }

  // A delivery whose outcome was recorded leaves the file sent.
  lemma DeliveredWentOut(world: World, id: nat, payload: Bytes, delivered: bool, at: int)
    requires id in world.t.files
    ensures Deliver(world, id, payload, delivered, at).1 == Done(id, true) ==>
              WentOut(Deliver(world, id, payload, delivered, at).0, id)
  {
    var after := Deliver(world, id, payload, delivered, at).0;
    assert after.wire[|world.wire|].id == id && after.wire[|world.wire|].delivered == delivered;
  }

  // So does the last step of a send or a retry that others came between.
  lemma NotedWentOut(o: Office, m: Machine, w: nat, at: int)
    requires Safe(o, m) && Enabled(m, Note(w, at)) && m.workers[w].delivered
    requires Move(m.world.t, m.workers[w].id, ToSent(at)).Success?
    ensures WentOut(Next(o, m, Note(w, at)).world, m.workers[w].id)
  {
    assert WorkerFits(o, m.world, m.workers[w]);
  }

  lemma SendWentOut(o: Office, world: World, job: Job, delivered: bool, at: int)
    ensures var (after, sending) := SendWhole(o, world, job, delivered, at);
            sending.Done? && sending.delivered ==> WentOut(after, sending.id)
  {
    var id, q := world.nextId, RequestFor(job);
    var reserved := Reserving(world, q);
    if Reserve(world.t, id, q).Success? && id in reserved.t.files {
      var payload := o.render(job, reserved.t.files[id].sequence);
      if payload.Some? && o.declared(payload.value).Some? {
        var key := o.KeyOf(reserved.t.files[id], id);
        var stored := reserved.(objects := reserved.objects[key := payload.value]);
        var (count, checksum) := o.declared(payload.value).value;
        DeliveredWentOut(stored.(t := RecordBuilt(stored.t, id, checksum, count, o.uri(key))), id, payload.value, delivered, at);
      }
    }
  }

  // --- one call, undisturbed ---------------------------------------------------------------------------

  datatype Sending = Raised | Done(id: nat, delivered: bool)

  // _deliver: hand over and record what became of it.
  function Deliver(world: World, id: nat, payload: Bytes, delivered: bool, at: int): (World, Sending)
    requires id in world.t.files
  {
    var handed := HandedOver(world, id, payload, delivered);
    (Noted(handed, id, delivered, at),
     if Move(handed.t, id, Outcome(delivered, at)).Success? then Done(id, delivered) else Raised)
  }

  // Sender.send
  function SendWhole(o: Office, world: World, job: Job, delivered: bool, at: int): (World, Sending) {
    var id, q := world.nextId, RequestFor(job);
    var reserved := Reserving(world, q);
    if Reserve(world.t, id, q).Failure? || id !in reserved.t.files then (reserved, Raised)
    else
      match o.render(job, reserved.t.files[id].sequence)
      case None => (reserved, Raised)
      case Some(payload) =>
        var key := o.KeyOf(reserved.t.files[id], id);
        if key in reserved.objects then (reserved, Raised)
        else
          var stored := reserved.(objects := reserved.objects[key := payload]);
          match o.declared(payload)
          case None => (stored, Raised)
          case Some((count, checksum)) =>
            Deliver(stored.(t := RecordBuilt(stored.t, id, checksum, count, o.uri(key))), id, payload, delivered, at)
  }

  // Sender.retry
  function RetryWhole(o: Office, world: World, id: nat, delivered: bool, at: int): (World, Sending) {
    match RetryPayload(o, world, id)
    case None => (world, Raised)
    case Some(payload) => Deliver(world, id, payload, delivered, at)
  }

  // A retry sends the archived bytes once more and nothing else. From BUILT and SEND_FAILED the outcome
  // is recorded; a file in SENT goes out again, but neither outcome can be recorded and the call raises.
  lemma RetrySendsTheSameBytes(o: Office, world: World, id: nat, delivered: bool, at: int)
    requires o.Sound() && WorldFits(o, world) && RetryPayload(o, world, id).Some?
    ensures var (after, sending) := RetryWhole(o, world, id, delivered, at);
            var f := world.t.files[id];
            && after.wire == world.wire + [HandOff(id, f.filename, world.objects[o.KeyOf(f, id)], delivered)]
            && after.objects == world.objects && after.nextId == world.nextId && after.t.next == world.t.next
            && (f.state == Sent ==> sending == Raised && after.t == world.t)
            && (f.state != Sent ==> sending == Done(id, delivered))
            && (f.state != Sent ==> after.t.files[id].state == if delivered then Sent else SendFailed)
  {
    RetrySendsArchived(o, world, id);
  }

  // The steps of a send that nothing comes between, as far as it gets.
  function SendSteps(o: Office, world: World, w: nat, job: Job, delivered: bool, at: int): seq<Step> {
    var id, q := world.nextId, RequestFor(job);
    var reserved := Reserving(world, q);
    if Reserve(world.t, id, q).Failure? || id !in reserved.t.files then [StartSend(w, job)]
    else
      match o.render(job, reserved.t.files[id].sequence)
      case None => [StartSend(w, job), Render(w)]
      case Some(payload) =>
        if o.KeyOf(reserved.t.files[id], id) in reserved.objects then [StartSend(w, job), Render(w), Store(w)]
        else if o.declared(payload).None? then [StartSend(w, job), Render(w), Store(w), RecordRow(w)]
        else [StartSend(w, job), Render(w), Store(w), RecordRow(w), HandOver(w, delivered), Note(w, at)]
  }

  lemma OneStep(o: Office, m: Machine, s: Step, rest: seq<Step>)
    requires Enabled(m, s) && Possible(o, Next(o, m, s), rest)
    ensures Possible(o, m, [s] + rest) && After(o, m, [s] + rest) == After(o, Next(o, m, s), rest)
  {
    assert ([s] + rest)[1..] == rest;
  }

  lemma Delivering(o: Office, m: Machine, w: nat, id: nat, payload: Bytes, delivered: bool, at: int)
    requires w < |m.workers| && m.workers[w] == Ready(id, payload) && id in m.world.t.files
    ensures Possible(o, m, [HandOver(w, delivered), Note(w, at)])
    ensures After(o, m, [HandOver(w, delivered), Note(w, at)]).world == Deliver(m.world, id, payload, delivered, at).0
  {
    var handed := Next(o, m, HandOver(w, delivered));
    OneStep(o, handed, Note(w, at), []);
    OneStep(o, m, HandOver(w, delivered), [Note(w, at)]);
  }

  lemma Archiving(o: Office, m: Machine, w: nat, id: nat, payload: Bytes, delivered: bool, at: int)
    requires w < |m.workers| && m.workers[w] == Rendered(id, payload) && id in m.world.t.files
    requires o.KeyOf(m.world.t.files[id], id) !in m.world.objects && o.declared(payload).Some?
    ensures var steps := [Store(w), RecordRow(w), HandOver(w, delivered), Note(w, at)];
            var key := o.KeyOf(m.world.t.files[id], id);
            var stored := m.world.(objects := m.world.objects[key := payload]);
            var (count, checksum) := o.declared(payload).value;
            && Possible(o, m, steps)
            && After(o, m, steps).world
               == Deliver(stored.(t := RecordBuilt(stored.t, id, checksum, count, o.uri(key))), id, payload, delivered, at).0
  {
    var stored := Next(o, m, Store(w));
    var recorded := Next(o, stored, RecordRow(w));
    Delivering(o, recorded, w, id, payload, delivered, at);
    OneStep(o, stored, RecordRow(w), [HandOver(w, delivered), Note(w, at)]);
    OneStep(o, m, Store(w), [RecordRow(w), HandOver(w, delivered), Note(w, at)]);
  }

  lemma RenderedPrefix(o: Office, m: Machine, w: nat, job: Job, rest: seq<Step>)
    requires w < |m.workers| && m.workers[w].Idle? && Reserve(m.world.t, m.world.nextId, RequestFor(job)).Success?
    requires var n := Next(o, m, StartSend(w, job));
             Enabled(n, Render(w)) && Possible(o, Next(o, n, Render(w)), rest)
    ensures Possible(o, m, [StartSend(w, job), Render(w)] + rest)
    ensures After(o, m, [StartSend(w, job), Render(w)] + rest) == After(o, Next(o, Next(o, m, StartSend(w, job)), Render(w)), rest)
  {
    var n := Next(o, m, StartSend(w, job));
    OneStep(o, n, Render(w), rest);
    OneStep(o, m, StartSend(w, job), [Render(w)] + rest);
    assert [StartSend(w, job)] + ([Render(w)] + rest) == [StartSend(w, job), Render(w)] + rest;
  }

  // A call of send, done at one go, is a run of the machine: what holds of all runs holds of it.
  lemma SendIsARun(o: Office, m: Machine, w: nat, job: Job, delivered: bool, at: int)
    requires w < |m.workers| && m.workers[w].Idle?
    ensures var steps := SendSteps(o, m.world, w, job, delivered, at);
            Possible(o, m, steps) && After(o, m, steps).world == SendWhole(o, m.world, job, delivered, at).0
  {
    var id, q := m.world.nextId, RequestFor(job);
    var steps, n := SendSteps(o, m.world, w, job, delivered, at), Next(o, m, StartSend(w, job));
    if Reserve(m.world.t, id, q).Failure? {
      OneStep(o, m, StartSend(w, job), []);
    } else {
      ReservedRows(m.world.t, id, q);
      var r := Next(o, n, Render(w));
      var rest := steps[2..];
      assert steps == [StartSend(w, job), Render(w)] + rest;
      if r.workers[w].Idle? {
        assert rest == [];
      } else if o.KeyOf(r.world.t.files[id], id) in r.world.objects {
        OneStep(o, r, Store(w), []);
      } else if o.declared(r.workers[w].payload).None? {
        var stored := Next(o, r, Store(w));
        OneStep(o, stored, RecordRow(w), []);
        OneStep(o, r, Store(w), [RecordRow(w)]);
      } else {
        Archiving(o, r, w, id, r.workers[w].payload, delivered, at);
      }
      RenderedPrefix(o, m, w, job, rest);
    }
  }

  // Whatever becomes of a send, files, archive and wire stay in order.
  lemma SendKeepsOrder(o: Office, world: World, job: Job, delivered: bool, at: int)
    requires o.Sound() && WorldFits(o, world) && WireFits(o, world)
    ensures WorldFits(o, SendWhole(o, world, job, delivered, at).0) && WireFits(o, SendWhole(o, world, job, delivered, at).0)
  {
    var m := Machine(world, [Idle]);
    SendIsARun(o, m, 0, job, delivered, at);
    RunsAreSafe(o, m, SendSteps(o, world, 0, job, delivered, at));
  }

  // What is recorded of a delivery: a file that was just built can be sent or fail.
  lemma BuiltIsDelivered(world: World, id: nat, checksum: int, count: int, uri: string, payload: Bytes,
                         delivered: bool, at: int)
    requires id in world.t.files && world.t.files[id].state == FileState.Reserved
    ensures Deliver(world.(t := RecordBuilt(world.t, id, checksum, count, uri)), id, payload, delivered, at).1 == Done(id, delivered)
  {
  }

  // A send returns exactly when the reservation succeeds, the file is built and its footer can be read back.
  lemma SendReturnsWhen(o: Office, world: World, job: Job, delivered: bool, at: int)
    requires o.Sound() && WorldFits(o, world)
    ensures var reserved := Reserve(world.t, world.nextId, RequestFor(job));
            SendWhole(o, world, job, delivered, at).1.Done? <==>
              && reserved.Success? && world.nextId in reserved.value.files
              && Sendable(o, job, reserved.value.files[world.nextId].sequence)
  {
    var id, q := world.nextId, RequestFor(job);
    ReservingFits(o, world, q);
    if Reserve(world.t, id, q).Success? {
      ReservedRows(world.t, id, q);
      var reserved := Reserving(world, q);
      var payload := o.render(job, reserved.t.files[id].sequence);
      if payload.Some? && o.declared(payload.value).Some? {
        var key := o.KeyOf(reserved.t.files[id], id);
        var (count, checksum) := o.declared(payload.value).value;
        BuiltIsDelivered(reserved.(objects := reserved.objects[key := payload.value]), id, checksum, count, o.uri(key),
                         payload.value, delivered, at);
      }
    }
  }

  // The file can be built with this number, and its footer read back.
  predicate Sendable(o: Office, job: Job, n: Sequence) {
    o.render(job, n).Some? && o.declared(o.render(job, n).value).Some?
  }

  // --- the sender ------------------------------------------------------------------------------------

  // Sender, with the database, the archive and the wire it writes to; `delivered` is what transport
  // will answer.
  class Gateway {
    const office: Office
    const database: Database
    var objects: map<string, Bytes>
    var wire: seq<HandOff>

    constructor (office: Office, database: Database)
      ensures this.office == office && this.database == database && objects == map[] && wire == []
    {
      this.office, this.database, objects, wire := office, database, map[], [];
    }

    ghost function Now(): World
      reads this, database
    {
      World(database.Rows(), database.lastId + 1, objects, wire)
    }

    method DeliverFile(id: nat, payload: Bytes, delivered: bool, at: int) returns (sending: Sending)
      requires id in database.files
      modifies `wire, database`files
      ensures (Now(), sending) == Deliver(old(Now()), id, payload, delivered, at)
    {
      wire := wire + [HandOff(id, database.files[id].filename, payload, delivered)];
      var error := database.MoveFile(id, if delivered then ToSent(at) else ToSendFailed);
      return if error.None? then Done(id, delivered) else Raised;
    }

    method Retry(id: nat, delivered: bool, at: int) returns (sending: Sending)
      modifies `wire, database`files
      ensures (Now(), sending) == RetryWhole(office, old(Now()), id, delivered, at)
    {
      if id !in database.files || !Retryable(database.files[id].state) || database.files[id].uri.None? {
        return Raised;
      }
      var key := office.locate(database.files[id].uri.value);
      if key.None? || key.value !in objects {
        return Raised;
      }
      sending := DeliverFile(id, objects[key.value], delivered, at);
    }

    method Send(job: Job, delivered: bool, at: int) returns (sending: Sending)
      modifies this, database
      ensures (Now(), sending) == SendWhole(office, old(Now()), job, delivered, at)
    {
      var reserved := database.ReserveFile(RequestFor(job));
      if reserved.Failure? {
        return Raised;
      }
      var id := reserved.value;
      ghost var world := Now();
      assert world == Reserving(old(Now()), RequestFor(job)) && id == old(Now()).nextId;
      ReservedRows(old(Now()).t, id, RequestFor(job));
      var payload := office.render(job, database.files[id].sequence);
      if payload.None? {
        return Raised;
      }
      var key := office.KeyOf(database.files[id], id);
      if key in objects {
        return Raised;
      }
      objects := objects[key := payload.value];
      var declared := office.declared(payload.value);
      if declared.None? {
        return Raised;
      }
      var (count, checksum) := declared.value;
      ghost var stored := Now();
      assert stored == world.(objects := world.objects[key := payload.value]);
      database.RecordBuiltRow(id, checksum, count, office.uri(key));
      assert Now() == stored.(t := RecordBuilt(stored.t, id, checksum, count, office.uri(key)));
      sending := DeliverFile(id, payload.value, delivered, at);
    }
  }
}
