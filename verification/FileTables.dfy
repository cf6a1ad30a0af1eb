// The rows of the outbound file and channel tables, and the operations that change them.
module FileTables {
  import opened Wrappers
  import opened Digits
  import opened Fields
  import opened FileCodec

  // --- file states ------------------------------------------------------------------

  datatype FileState = Reserved | Built | Sent | SendFailed | ReceiptAcked | Unacknowledged | Superseded

  // The transition table of a file.
  predicate Edge(from: FileState, to: FileState) {
    match from
    case Reserved => to == Built || to == Superseded
    case Built => to == Sent || to == SendFailed || to == Superseded
    case SendFailed => to == Sent || to == SendFailed || to == Superseded
    case Sent => to == ReceiptAcked || to == Unacknowledged || to == Superseded
    case Unacknowledged => to == ReceiptAcked || to == Superseded
    case ReceiptAcked => to == Superseded
    case Superseded => false
  }

  // How far along a file is: every edge but SEND_FAILED to itself leads further.
  function Rank(s: FileState): nat {
    match s
    case Reserved => 0
    case Built => 1
    case SendFailed => 2
    case Sent => 3
    case Unacknowledged => 4
    case ReceiptAcked => 5
    case Superseded => 6
  }

  lemma EdgesLeadFurther(from: FileState, to: FileState)
    requires Edge(from, to)
    ensures Rank(from) < Rank(to) || (from == SendFailed && to == SendFailed)
    ensures Rank(from) == Rank(to) <==> from == to
  {
  }

  // --- rows -------------------------------------------------------------------------

  type Sequence = n: nat | n <= MAX_SEQUENCE

  datatype File = File(
    channel: nat,
    fileType: string,
    sequence: Sequence,
    filename: string,
    created: Value,
    uri: Option<string>,
    checksum: int,
    recordCount: int,
    state: FileState,
    sentAt: Option<int>,
    attempts: nat,
    nackCode: Option<nat>,
    supersedes: Option<nat>)
  {
    predicate Live() {
      !state.Superseded?
    }
  }

  // The counter of each channel, and the files by id.
  datatype Tables = Tables(next: map<nat, Sequence>, files: map<nat, File>)

  // --- allocating a number --------------------------------------------------------------

  // Section 2.2.1: integer(9), rolling over from 999999999 to 0.
  function Following(n: Sequence): Sequence {
    if n >= MAX_SEQUENCE then 0 else n + 1
  }

  const FILENAME_LENGTH: nat := 14

  // str.format with 012d
  function TwelveDigits(id: nat): string {
    DigitCount(id, 12);
    if |NatText(id)| <= 12 then PadNat(id, 12) else NatText(id)
  }

  function MakeFilename(roleCode: string, id: nat): Option<string> {
    var name := roleCode + TwelveDigits(id);
    if |name| == FILENAME_LENGTH then Some(name) else None
  }

  datatype Request = Request(channel: nat, roleCode: string, fileType: string, created: Value, supersedes: Option<nat>)

  datatype TableError =
    | NoChannel | NoFile | BadFilename | DuplicateId | NumberInUse
    | IllegalTransition | ChangedFromUnderUs

  function NewFile(q: Request, sequence: Sequence, filename: string): File {
    File(q.channel, q.fileType, sequence, filename, q.created, None, 0, 0, Reserved, None, 0, None, q.supersedes)
  }

  // Some live file of the channel has the number already.
  predicate InUse(files: map<nat, File>, channel: nat, sequence: Sequence) {
    exists f :: f in files && files[f].Live() && files[f].channel == channel && files[f].sequence == sequence
  }

  function MarkSuperseded(files: map<nat, File>, f: nat): map<nat, File>
    requires f in files
  {
    files[f := files[f].(state := Superseded)]
  }

  // INSERT, with the primary key, the foreign key and the unique index on live numbers.
  function Insert(t: Tables, id: nat, q: Request, sequence: Sequence): Result<Tables, TableError> {
    var name := MakeFilename(q.roleCode, id);
    if name.None? then Failure(BadFilename)
    else if q.channel !in t.next then Failure(NoChannel)
    else if id in t.files then Failure(DuplicateId)
    else if InUse(t.files, q.channel, sequence) then Failure(NumberInUse)
    else Success(t.(files := t.files[id := NewFile(q, sequence, name.value)]))
  }

  // The whole transaction of reserve_file, as if nothing ran beside it.
  function Reserve(t: Tables, id: nat, q: Request): Result<Tables, TableError> {
    match q.supersedes
    case None =>
      if q.channel !in t.next then Failure(NoChannel)
      else
        var number := t.next[q.channel];
        Insert(t.(next := t.next[q.channel := Following(number)]), id, q, number)
    case Some(g) =>
      if g !in t.files then Failure(NoFile)
      else Insert(t.(files := MarkSuperseded(t.files, g)), id, q, t.files[g].sequence)
  }

  // A reservation adds one row, with nothing archived for it, and otherwise at most marks a row.
  lemma ReservedRows(t: Tables, id: nat, q: Request)
    requires Reserve(t, id, q).Success?
    ensures var files := Reserve(t, id, q).value.files;
            && id !in t.files && files.Keys == t.files.Keys + {id}
            && files[id].state == Reserved && files[id].uri.None? && files[id].created == q.created
            && (forall f :: f in t.files ==> files[f] == t.files[f] || files[f] == t.files[f].(state := Superseded))
  {
  }

  // --- moving a file --------------------------------------------------------------------

  // What the transition writes beside the state.
  datatype Change =
    | ToBuilt(checksum: int, recordCount: int, uri: string)
    | ToSent(at: int)
    | ToSendFailed
    | ToAcked(code: nat)
    | ToUnacknowledged

  function Target(c: Change): FileState {
    match c
    case ToBuilt(_, _, _) => Built
    case ToSent(_) => Sent
    case ToSendFailed => SendFailed
    case ToAcked(code) => if code == 0 then ReceiptAcked else Superseded
    case ToUnacknowledged => Unacknowledged
  }

  function Changed(f: File, c: Change): (g: File)
    ensures g.state == Target(c)
    ensures g.channel == f.channel && g.sequence == f.sequence && g.filename == f.filename
    ensures g.created == f.created && g.supersedes == f.supersedes
    ensures !c.ToBuilt? ==> g.uri == f.uri
  {
    match c
    case ToBuilt(checksum, recordCount, uri) =>
      f.(state := Built, checksum := checksum, recordCount := recordCount, uri := Some(uri))
    case ToSent(at) => f.(state := Sent, sentAt := Some(at))
    case ToSendFailed => f.(state := SendFailed, attempts := f.attempts + 1)
    case ToAcked(code) => f.(state := Target(c), nackCode := if code == 0 then None else Some(code))
    case ToUnacknowledged => f.(state := Unacknowledged)
  }

  // The guarded transitions: record_sent, record_send_failed and record_receipt_ack, uninterrupted.
  function Move(t: Tables, id: nat, c: Change): Result<Tables, TableError> {
    if id !in t.files then Failure(NoFile)
    else if !Edge(t.files[id].state, Target(c)) then Failure(IllegalTransition)
    else Success(t.(files := t.files[id := Changed(t.files[id], c)]))
  }

  // record_built: conditional on RESERVED, and silent where the condition fails.
  function RecordBuilt(t: Tables, id: nat, checksum: int, recordCount: int, uri: string): Tables {
    if id in t.files && t.files[id].state == Reserved
    then t.(files := t.files[id := Changed(t.files[id], ToBuilt(checksum, recordCount, uri))])
    else t
  }

  predicate Overdue(f: File, olderThan: int) {
    f.state == Sent && f.sentAt.Some? && f.sentAt.value < olderThan
  }

  // --- gaps -----------------------------------------------------------------------------

  // The numbers of a channel's live files.
  function LiveNumbers(files: map<nat, File>, channel: nat): set<nat> {
    set f | f in files && files[f].Live() && files[f].channel == channel :: files[f].sequence as nat
  }

  predicate Sorted(numbers: seq<nat>) {
    forall i, j :: 0 <= i < j < |numbers| ==> numbers[i] < numbers[j]
  }

  function Missing(low: nat, high: nat, numbers: set<nat>): (missing: seq<nat>)
    requires low <= high + 1
    ensures Sorted(missing)
    ensures forall n :: n in missing <==> low <= n <= high && n !in numbers
    decreases high + 1 - low
  {
    if low == high + 1 then []
    else
      var rest := Missing(low + 1, high, numbers);
      assert forall j :: 0 <= j < |rest| ==> rest[j] in rest;
      (if low in numbers then [] else [low]) + rest
  }

  lemma LowestOf(numbers: set<nat>) returns (n: nat)
    requires numbers != {}
    ensures n in numbers && forall x :: x in numbers ==> n <= x
    decreases |numbers|
  {
    n :| n in numbers;
    var rest := numbers - {n};
    assert forall x :: x in numbers ==> x == n || x in rest;
    if rest != {} {
      var m := LowestOf(rest);
      n := if m < n then m else n;
    }
  }

  lemma HighestOf(numbers: set<nat>) returns (n: nat)
    requires numbers != {}
    ensures n in numbers && forall x :: x in numbers ==> x <= n
    decreases |numbers|
  {
    n :| n in numbers;
    var rest := numbers - {n};
    assert forall x :: x in numbers ==> x == n || x in rest;
    if rest != {} {
      var m := HighestOf(rest);
      n := if m > n then m else n;
    }
  }

  function Lowest(numbers: set<nat>): (n: nat)
    requires numbers != {}
    ensures n in numbers && forall x :: x in numbers ==> n <= x
  {
    assert exists n :: n in numbers && forall x :: x in numbers ==> n <= x by {
      var low := LowestOf(numbers);
    }
    var n :| n in numbers && forall x :: x in numbers ==> n <= x;
    n
  }

  function Highest(numbers: set<nat>): (n: nat)
    requires numbers != {}
    ensures n in numbers && forall x :: x in numbers ==> x <= n
  {
    assert exists n :: n in numbers && forall x :: x in numbers ==> x <= n by {
      var high := HighestOf(numbers);
    }
    var n :| n in numbers && forall x :: x in numbers ==> x <= n;
    n
  }

  predicate Between(numbers: set<nat>, n: nat) {
    && (exists low :: low in numbers && low < n)
    && (exists high :: high in numbers && n < high)
  }

  // The numbers between two of a channel's live ones that no live file has, in order.
  function SequenceGaps(files: map<nat, File>, channel: nat): (gaps: seq<nat>)
    ensures Sorted(gaps)
    ensures forall n :: n in gaps <==> n !in LiveNumbers(files, channel) && Between(LiveNumbers(files, channel), n)
  {
    var numbers := LiveNumbers(files, channel);
    if numbers == {} then [] else Missing(Lowest(numbers), Highest(numbers), numbers)
  }

  // --- the database ---------------------------------------------------------------------

  // The tables as the functions of db.py leave them, one transaction at a time.
  class Database {
    var next: map<nat, Sequence>
    var files: map<nat, File>
    var lastId: nat

    function Rows(): Tables
      reads this
    {
      Tables(next, files)
    }

    constructor (channels: map<nat, Sequence>)
      ensures Rows() == Tables(channels, map[]) && lastId == 0
    {
      next, files, lastId := channels, map[], 0;
    }

    method AllocateSequence(channel: nat) returns (number: Option<Sequence>)
      modifies `next
      ensures number.None? <==> channel !in old(next)
      ensures number.None? ==> next == old(next)
      ensures number.Some? ==>
                number.value == old(next[channel]) && next == old(next)[channel := Following(number.value)]
    {
      if channel !in next {
        return None;
      }
      var n := next[channel];
      var following := if n >= MAX_SEQUENCE then 0 else n + 1;
      next := next[channel := following];
      return Some(n);
    }

    // An id is spent whatever becomes of the transaction; every other change is undone by a failure.
    method ReserveFile(q: Request) returns (reserved: Result<nat, TableError>)
      modifies this
      ensures lastId == old(lastId) + 1
      ensures match Reserve(old(Rows()), lastId, q)
              case Success(t) => Rows() == t && reserved == Success(lastId)
              case Failure(e) => Rows() == old(Rows()) && reserved == Failure(e)
    {
      var oldNext, oldFiles := next, files;
      lastId := lastId + 1;
      var sequence: Sequence;
      if q.supersedes.None? {
        var taken := AllocateSequence(q.channel);
        if taken.None? {
          return Failure(NoChannel);
        }
        sequence := taken.value;
      } else {
        var g := q.supersedes.value;
        if g !in files {
          return Failure(NoFile);
        }
        sequence := files[g].sequence;
        files := MarkSuperseded(files, g);
      }
      var inserted := Insert(Tables(next, files), lastId, q, sequence);
      if inserted.Failure? {
        next, files := oldNext, oldFiles;
        return Failure(inserted.error);
      }
      files := inserted.value.files;
      return Success(lastId);
    }

    // The read and the conditional update of one transaction, nothing between them.
    method MoveFile(id: nat, c: Change) returns (error: Option<TableError>)
      modifies `files
      ensures match Move(old(Rows()), id, c)
              case Success(t) => Rows() == t && error == None
              case Failure(e) => Rows() == old(Rows()) && error == Some(e)
    {
      if id !in files {
        return Some(NoFile);
      }
      if !Edge(files[id].state, Target(c)) {
        return Some(IllegalTransition);
      }
      files := files[id := Changed(files[id], c)];
      return None;
    }

    method RecordBuiltRow(id: nat, checksum: int, recordCount: int, uri: string)
      modifies `files
      ensures Rows() == RecordBuilt(old(Rows()), id, checksum, recordCount, uri)
    {
      if id in files && files[id].state == Reserved {
        files := files[id := files[id].(state := Built, checksum := checksum, recordCount := recordCount, uri := Some(uri))];
      }
    }

    // One UPDATE over all rows: the rows sent before the limit move, the others stay, and what moved is
    // returned. Nothing is overdue afterwards.
    method MarkUnacknowledged(olderThan: int) returns (ids: set<nat>)
      modifies `files
      ensures files.Keys == old(files.Keys)
      ensures forall id :: id in ids <==>
                && id in old(files) && old(files)[id].state == Sent
                && old(files)[id].sentAt.Some? && old(files)[id].sentAt.value < olderThan
      ensures forall id :: id in ids ==>
                files[id] == old(files)[id].(state := Unacknowledged) && Edge(old(files)[id].state, files[id].state)
      ensures forall id :: id in files && id !in ids ==> files[id] == old(files)[id]
      ensures forall id :: id in files ==> !Overdue(files[id], olderThan)
    {
      ids := set id | id in files && Overdue(files[id], olderThan);
      files := map id | id in files :: if id in ids then Changed(files[id], ToUnacknowledged) else files[id];
    }
  }
}
