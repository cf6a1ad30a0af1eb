// Levelled rows of the spreadsheet into forests of records, with a stack of the records still open.
module SpecGenerator {
  import opened Wrappers

  // --- rows ---------------------------------------------------------------------------

  datatype RowType = F | R | D

  // A row of the sheet; `key` is its id or, where it has none, the slug of its name.
  datatype Row = Row(kind: RowType, level: Option<nat>, marker: string, key: string)

  // A record or an item stands for the row it was read from.
  datatype Item = Item(at: nat, key: string)
  datatype Rec = Rec(at: nat, fields: seq<Item>, children: Forest)

  // A list of records that grows at its end.
  datatype Forest = Empty | Snoc(front: Forest, last: Rec)

  datatype FlowDict = FlowDict(at: nat, records: Forest)

  predicate KnownPresence(marker: string) {
    marker == "1" || marker == "O" || marker == "N"
  }

  function LevelOf(rows: seq<Row>, k: nat): nat {
    if k < |rows| && rows[k].level.Some? then rows[k].level.value else 0
  }

  // --- the forest under construction --------------------------------------------------------

  // The last record, the last of its children, and so on down.
  function Spine(forest: Forest): seq<nat> {
    match forest
    case Empty => []
    case Snoc(_, last) => [last.at] + Spine(last.children)
  }

  // Appends to the children of the record at a depth of the spine; depth 0 is the forest itself.
  function AppendRec(forest: Forest, depth: nat, r: Rec): Forest
    requires depth <= |Spine(forest)|
  {
    if depth == 0 then Snoc(forest, r)
    else forest.(last := forest.last.(children := AppendRec(forest.last.children, depth - 1, r)))
  }

  // The items of the record at a depth of the spine, counted from 1.
  function FieldsAtDepth(forest: Forest, depth: nat): seq<Item>
    requires 0 < depth <= |Spine(forest)|
  {
    if depth == 1 then forest.last.fields else FieldsAtDepth(forest.last.children, depth - 1)
  }

  function AppendField(forest: Forest, depth: nat, i: Item): Forest
    requires 0 < depth <= |Spine(forest)|
  {
    if depth == 1 then forest.(last := forest.last.(fields := forest.last.fields + [i]))
    else forest.(last := forest.last.(children := AppendField(forest.last.children, depth - 1, i)))
  }

  // --- the parser ---------------------------------------------------------------------------

  // The rows of the records still open, and the flows so far.
  datatype State = State(flows: seq<FlowDict>, stack: seq<nat>)

  // while stack and stack[-1][0] >= level: stack.pop()
  function Pop(rows: seq<Row>, stack: seq<nat>, level: nat): (rest: seq<nat>)
    ensures rest <= stack
  {
    if stack != [] && LevelOf(rows, stack[|stack| - 1]) >= level then Pop(rows, stack[..|stack| - 1], level) else stack
  }

  // The stack is the top of the last flow's spine.
  predicate Fits(st: State) {
    && (st.stack != [] ==> st.flows != [])
    && (st.flows != [] ==> st.stack <= Spine(st.flows[|st.flows| - 1].records))
  }

  function WithRecords(flows: seq<FlowDict>, records: Forest): seq<FlowDict>
    requires flows != []
  {
    flows[..|flows| - 1] + [flows[|flows| - 1].(records := records)]
  }

  // One row; None where SpecError is raised.
  function Step(rows: seq<Row>, st: State, k: nat): Option<State>
    requires k < |rows| && Fits(st)
  {
    if rows[k].kind.F? then Some(State(st.flows + [FlowDict(k, Empty)], []))
    else if st.flows == [] || rows[k].level.None? then None
    else
      var records := st.flows[|st.flows| - 1].records;
      var open := Pop(rows, st.stack, rows[k].level.value);
      if rows[k].kind.R? then
        if rows[k].marker != "G" then None
        else Some(State(WithRecords(st.flows, AppendRec(records, |open|, Rec(k, [], Empty))), open + [k]))
      else if open == [] || !KnownPresence(rows[k].marker) || rows[k].key == "" then None
      else if exists i :: i in FieldsAtDepth(records, |open|) && i.key == rows[k].key then None
      else Some(State(WithRecords(st.flows, AppendField(records, |open|, Item(k, rows[k].key))), open))
  }

  lemma {:induction false} AppendRecSpine(forest: Forest, depth: nat, r: Rec)
    requires depth <= |Spine(forest)| && r.children == Empty
    ensures Spine(AppendRec(forest, depth, r)) == Spine(forest)[..depth] + [r.at]
  {
    if depth > 0 {
      AppendRecSpine(forest.last.children, depth - 1, r);
    }
  }

  lemma {:induction false} AppendFieldSpine(forest: Forest, depth: nat, i: Item)
    requires 0 < depth <= |Spine(forest)|
    ensures Spine(AppendField(forest, depth, i)) == Spine(forest)
  {
    if depth > 1 {
      AppendFieldSpine(forest.last.children, depth - 1, i);
    }
  }

  lemma StepFits(rows: seq<Row>, st: State, k: nat)
    requires k < |rows| && Fits(st) && Step(rows, st, k).Some?
    ensures Fits(Step(rows, st, k).value)
  {
    if !rows[k].kind.F? {
      var records := st.flows[|st.flows| - 1].records;
      var open := Pop(rows, st.stack, rows[k].level.value);
      if rows[k].kind.R? {
        AppendRecSpine(records, |open|, Rec(k, [], Empty));
      } else {
        AppendFieldSpine(records, |open|, Item(k, rows[k].key));
      }
    }
  }

  // What a row makes of the state, for the rows there are.
  function Taker(rows: seq<Row>): (State, nat) -> Option<State> {
    (st: State, k: nat) => if k < |rows| && Fits(st) then Step(rows, st, k) else None
  }

  // Row after row, until one is refused.
  function Iterate(take: (State, nat) -> Option<State>, k: nat): Option<State> {
    if k == 0 then Some(State([], []))
    else
      match Iterate(take, k - 1)
      case None => None
      case Some(st) => take(st, k - 1)
  }

  function ParseTo(rows: seq<Row>, k: nat): Option<State> {
    Iterate(Taker(rows), k)
  }

  // What holds at the start and is kept by every row holds of the state after any number of rows.
  lemma {:induction false} Kept(take: (State, nat) -> Option<State>, holds: (State, nat) -> bool, k: nat)
    requires holds(State([], []), 0)
    requires forall st: State, i: nat :: holds(st, i) && take(st, i).Some? ==> holds(take(st, i).value, i + 1)
    ensures Iterate(take, k).Some? ==> holds(Iterate(take, k).value, k)
  {
    if k > 0 {
      Kept(take, holds, k - 1);
    }
  }

  // The rows are all taken exactly when each of them is fit for the state it meets.
  lemma {:induction false} TakenWhen(take: (State, nat) -> Option<State>, holds: (State, nat) -> bool,
                                     fit: nat -> bool, k: nat)
    requires holds(State([], []), 0)
    requires forall st: State, i: nat :: holds(st, i) && take(st, i).Some? ==> holds(take(st, i).value, i + 1)
    requires forall st: State, i: nat :: i < k && holds(st, i) ==> (take(st, i).Some? <==> fit(i))
    ensures Iterate(take, k).Some? <==> forall i :: 0 <= i < k ==> fit(i)
  {
    if k > 0 {
      TakenWhen(take, holds, fit, k - 1);
      Kept(take, holds, k - 1);
    }
  }

  function Parse(rows: seq<Row>): Option<seq<FlowDict>> {
    match ParseTo(rows, |rows|)
    case None => None
    case Some(st) => Some(st.flows)
  }

  // --- which record is open -----------------------------------------------------------------

  // A record row of the flow that no row since has closed: none was of its level or shallower.
  predicate OpenAt(rows: seq<Row>, start: nat, j: nat, k: nat) {
    start < j < k <= |rows| && rows[j].kind.R? && forall i :: j < i < k ==> LevelOf(rows, i) > LevelOf(rows, j)
  }

  // Open before row k, and not closed by it either.
  predicate StillOpen(rows: seq<Row>, start: nat, j: nat, k: nat) {
    j != k && OpenAt(rows, start, j, k + 1)
  }

  // The latest record still open.
  predicate IsOwner(rows: seq<Row>, start: nat, k: nat, j: nat) {
    StillOpen(rows, start, j, k) && forall i :: j < i < k ==> !StillOpen(rows, start, i, k)
  }

  predicate HasNoOwner(rows: seq<Row>, start: nat, k: nat) {
    forall j :: start < j < k ==> !StillOpen(rows, start, j, k)
  }

  predicate ParentIs(rows: seq<Row>, start: nat, k: nat, parent: Option<nat>) {
    match parent
    case None => HasNoOwner(rows, start, k)
    case Some(p) => IsOwner(rows, start, k, p)
  }

  // --- what the forest says of the rows -------------------------------------------------------

  function Preorder(forest: Forest): seq<nat> {
    match forest
    case Empty => []
    case Snoc(front, last) => Preorder(front) + [last.at] + Preorder(last.children)
  }

  // Every record is nested in its owner.
  predicate Nested(rows: seq<Row>, start: nat, forest: Forest, parent: Option<nat>) {
    match forest
    case Empty => true
    case Snoc(front, last) =>
      && ParentIs(rows, start, last.at, parent)
      && Nested(rows, start, last.children, Some(last.at))
      && Nested(rows, start, front, parent)
  }

  // The items of a record are data rows it owns, in order and with distinct keys.
  predicate ItemsFit(rows: seq<Row>, start: nat, j: nat, fields: seq<Item>) {
    && (forall i :: i in fields ==>
          i.at < |rows| && rows[i.at].kind.D? && rows[i.at].key == i.key && IsOwner(rows, start, i.at, j))
    && (forall a, b :: 0 <= a < b < |fields| ==> fields[a].at < fields[b].at && fields[a].key != fields[b].key)
  }

  predicate Furnished(rows: seq<Row>, start: nat, forest: Forest) {
    match forest
    case Empty => true
    case Snoc(front, last) =>
      && ItemsFit(rows, start, last.at, last.fields)
      && Furnished(rows, start, last.children)
      && Furnished(rows, start, front)
  }

  // The data rows that are items of some record.
  function ItemRows(forest: Forest): set<nat> {
    match forest
    case Empty => {}
    case Snoc(front, last) => ItemRows(front) + (set i | i in last.fields :: i.at) + ItemRows(last.children)
  }

  // The record rows of a flow, in order.
  function RecordRows(rows: seq<Row>, start: nat, k: nat): seq<nat>
    requires k <= |rows|
  {
    if k <= start + 1 then [] else RecordRows(rows, start, k - 1) + if rows[k - 1].kind.R? then [k - 1] else []
  }

  function DataRows(rows: seq<Row>, start: nat, k: nat): set<nat>
    requires k <= |rows|
  {
    set i | start < i < k && rows[i].kind.D?
  }

  // The forest is made of the rows from start to k: its preorder is the record rows, every record and
  // item is in its owner, and no data row is left out.
  predicate Faithful(rows: seq<Row>, start: nat, k: nat, forest: Forest)
    requires k <= |rows|
  {
    && Preorder(forest) == RecordRows(rows, start, k)
    && Nested(rows, start, forest, None)
    && Furnished(rows, start, forest)
    && ItemRows(forest) == DataRows(rows, start, k)
  }

  // --- appending keeps it -----------------------------------------------------------------------

  lemma {:induction false} AppendRecOrder(forest: Forest, depth: nat, k: nat)
    requires depth <= |Spine(forest)|
    ensures Preorder(AppendRec(forest, depth, Rec(k, [], Empty))) == Preorder(forest) + [k]
    ensures ItemRows(AppendRec(forest, depth, Rec(k, [], Empty))) == ItemRows(forest)
  {
    if depth > 0 {
      AppendRecOrder(forest.last.children, depth - 1, k);
    }
  }

  lemma {:induction false} AppendRecNested(rows: seq<Row>, start: nat, forest: Forest, depth: nat, k: nat,
                                           parent: Option<nat>)
    requires depth <= |Spine(forest)| && Nested(rows, start, forest, parent)
    requires ParentIs(rows, start, k, if depth == 0 then parent else Some(Spine(forest)[depth - 1]))
    ensures Nested(rows, start, AppendRec(forest, depth, Rec(k, [], Empty)), parent)
  {
    if depth > 0 {
      AppendRecNested(rows, start, forest.last.children, depth - 1, k, Some(forest.last.at));
    }
  }

  lemma {:induction false} AppendRecFurnished(rows: seq<Row>, start: nat, forest: Forest, depth: nat, k: nat)
    requires depth <= |Spine(forest)| && Furnished(rows, start, forest)
    ensures Furnished(rows, start, AppendRec(forest, depth, Rec(k, [], Empty)))
  {
    if depth > 0 {
      AppendRecFurnished(rows, start, forest.last.children, depth - 1, k);
    }
  }

  lemma {:induction false} AppendFieldOrder(forest: Forest, depth: nat, i: Item)
    requires 0 < depth <= |Spine(forest)|
    ensures Preorder(AppendField(forest, depth, i)) == Preorder(forest)
    ensures ItemRows(AppendField(forest, depth, i)) == ItemRows(forest) + {i.at}
  {
    var after := AppendField(forest, depth, i);
    if depth > 1 {
      AppendFieldOrder(forest.last.children, depth - 1, i);
    } else {
      assert (set x | x in after.last.fields :: x.at) == (set x | x in forest.last.fields :: x.at) + {i.at};
    }
  }

  lemma {:induction false} AppendFieldNested(rows: seq<Row>, start: nat, forest: Forest, depth: nat, i: Item,
                                             parent: Option<nat>)
    requires 0 < depth <= |Spine(forest)| && Nested(rows, start, forest, parent)
    ensures Nested(rows, start, AppendField(forest, depth, i), parent)
  {
    if depth > 1 {
      AppendFieldNested(rows, start, forest.last.children, depth - 1, i, Some(forest.last.at));
    }
  }

  lemma {:induction false} AppendFieldFurnished(rows: seq<Row>, start: nat, forest: Forest, depth: nat, i: Item)
    requires 0 < depth <= |Spine(forest)| && Furnished(rows, start, forest)
    requires ItemsFit(rows, start, Spine(forest)[depth - 1], FieldsAtDepth(forest, depth) + [i])
    ensures Furnished(rows, start, AppendField(forest, depth, i))
  {
    if depth > 1 {
      AppendFieldFurnished(rows, start, forest.last.children, depth - 1, i);
    }
  }

  lemma {:induction false} FurnishedAtDepth(rows: seq<Row>, start: nat, forest: Forest, depth: nat)
    requires 0 < depth <= |Spine(forest)| && Furnished(rows, start, forest)
    ensures ItemsFit(rows, start, Spine(forest)[depth - 1], FieldsAtDepth(forest, depth))
    ensures forall i :: i in FieldsAtDepth(forest, depth) ==> i.at in ItemRows(forest)
  {
    if depth > 1 {
      FurnishedAtDepth(rows, start, forest.last.children, depth - 1);
    }
  }

  // --- the stack ----------------------------------------------------------------------------------

  predicate Ascending(s: seq<nat>) {
    forall a, b :: 0 <= a < b < |s| ==> s[a] < s[b]
  }

  // The stack is the open records, outermost first.
  ghost predicate StackIsOpen(rows: seq<Row>, start: nat, stack: seq<nat>, k: nat) {
    && Ascending(stack)
    && (forall j :: j in stack <==> OpenAt(rows, start, j, k))
  }

  lemma {:induction false} PopIs(rows: seq<Row>, stack: seq<nat>, level: nat)
    requires forall a, b :: 0 <= a < b < |stack| ==> LevelOf(rows, stack[a]) < LevelOf(rows, stack[b])
    ensures forall j :: j in Pop(rows, stack, level) <==> j in stack && LevelOf(rows, j) < level
  {
    if stack != [] && LevelOf(rows, stack[|stack| - 1]) >= level {
      PopIs(rows, stack[..|stack| - 1], level);
    }
  }

  lemma OpenRowsSplit(rows: seq<Row>, start: nat, k: nat)
    requires start < k < |rows|
    ensures forall j :: StillOpen(rows, start, j, k) <==> OpenAt(rows, start, j, k) && LevelOf(rows, j) < LevelOf(rows, k)
    ensures forall j :: OpenAt(rows, start, j, k + 1) <==> StillOpen(rows, start, j, k) || (j == k && rows[k].kind.R?)
  {
  }

  lemma LevelsClimb(rows: seq<Row>, start: nat, stack: seq<nat>, k: nat)
    requires StackIsOpen(rows, start, stack, k)
    ensures forall a, b :: 0 <= a < b < |stack| ==> LevelOf(rows, stack[a]) < LevelOf(rows, stack[b])
  {
    forall a, b | 0 <= a < b < |stack| ensures LevelOf(rows, stack[a]) < LevelOf(rows, stack[b]) {
      assert stack[a] in stack && stack[b] in stack;
    }
  }

  // After popping for row k the stack holds the records that row k leaves open.
  lemma PoppedIsOpen(rows: seq<Row>, start: nat, stack: seq<nat>, k: nat)
    requires StackIsOpen(rows, start, stack, k) && start < k < |rows|
    ensures forall j :: j in Pop(rows, stack, LevelOf(rows, k)) <==> StillOpen(rows, start, j, k)
    ensures Ascending(Pop(rows, stack, LevelOf(rows, k)))
  {
    LevelsClimb(rows, start, stack, k);
    PopIs(rows, stack, LevelOf(rows, k));
    OpenRowsSplit(rows, start, k);
  }

  // The top of it is the owner.
  lemma TopIsOwner(rows: seq<Row>, start: nat, open: seq<nat>, k: nat)
    requires Ascending(open) && forall j :: j in open <==> StillOpen(rows, start, j, k)
    ensures ParentIs(rows, start, k, if open == [] then None else Some(open[|open| - 1]))
  {
    if open != [] {
      assert open[|open| - 1] in open;
    }
  }

  lemma NextStack(rows: seq<Row>, start: nat, open: seq<nat>, k: nat)
    requires start < k < |rows| && Ascending(open) && forall j :: j in open <==> StillOpen(rows, start, j, k)
    ensures StackIsOpen(rows, start, if rows[k].kind.R? then open + [k] else open, k + 1)
  {
    OpenRowsSplit(rows, start, k);
    forall a | 0 <= a < |open| ensures open[a] < k {
      assert open[a] in open;
    }
  }

  // --- the whole sheet --------------------------------------------------------------------------------

  // The flows before the last are finished; the last one is made of its rows so far, and the stack is
  // its open records.
  ghost predicate Shape(rows: seq<Row>, st: State, k: nat)
    requires k <= |rows|
  {
    && (forall f :: 0 <= f < |st.flows| ==> st.flows[f].at < k && rows[st.flows[f].at].kind.F?)
    && (forall f :: 0 <= f < |st.flows| - 1 ==>
          st.flows[f].at < st.flows[f + 1].at
          && Faithful(rows, st.flows[f].at, st.flows[f + 1].at, st.flows[f].records)
          && NoFlowRow(rows, st.flows[f].at, st.flows[f + 1].at))
    && (st.flows == [] ==> k == 0 && st.stack == [])
    && (st.flows != [] ==>
          var last := st.flows[|st.flows| - 1];
          && Faithful(rows, last.at, k, last.records)
          && NoFlowRow(rows, last.at, k)
          && StackIsOpen(rows, last.at, st.stack, k))
  }

  predicate NoFlowRow(rows: seq<Row>, start: nat, k: nat)
    requires k <= |rows|
  {
    forall i :: start < i < k ==> !rows[i].kind.F?
  }

  lemma FlowRowStep(rows: seq<Row>, st: State, k: nat)
    requires k < |rows| && Fits(st) && Shape(rows, st, k) && rows[k].kind.F?
    ensures Shape(rows, Step(rows, st, k).value, k + 1)
  {
    var next := Step(rows, st, k).value;
    forall f | 0 <= f < |next.flows| - 1
      ensures next.flows[f].at < next.flows[f + 1].at
      ensures Faithful(rows, next.flows[f].at, next.flows[f + 1].at, next.flows[f].records)
      ensures NoFlowRow(rows, next.flows[f].at, next.flows[f + 1].at)
    {
      assert f < |st.flows| - 1 || f == |st.flows| - 1;
    }
  }

  // A record row is nested in its owner.
  lemma RecordIsFaithful(rows: seq<Row>, start: nat, k: nat, records: Forest, open: seq<nat>)
    requires start < k < |rows| && rows[k].kind.R? && Faithful(rows, start, k, records) && open <= Spine(records)
    requires ParentIs(rows, start, k, if open == [] then None else Some(open[|open| - 1]))
    ensures Faithful(rows, start, k + 1, AppendRec(records, |open|, Rec(k, [], Empty)))
  {
    assert open != [] ==> Spine(records)[|open| - 1] == open[|open| - 1];
    AppendRecKeeps(rows, start, records, |open|, k, AppendRec(records, |open|, Rec(k, [], Empty)));
    OneRowMore(rows, start, k);
    FaithfulStill(rows, start, k, records, AppendRec(records, |open|, Rec(k, [], Empty)));
  }

  lemma AppendRecKeeps(rows: seq<Row>, start: nat, forest: Forest, depth: nat, k: nat, after: Forest)
    requires depth <= |Spine(forest)| && after == AppendRec(forest, depth, Rec(k, [], Empty))
    requires Nested(rows, start, forest, None) && Furnished(rows, start, forest)
    requires ParentIs(rows, start, k, if depth == 0 then None else Some(Spine(forest)[depth - 1]))
    ensures Preorder(after) == Preorder(forest) + [k] && ItemRows(after) == ItemRows(forest)
    ensures Nested(rows, start, after, None) && Furnished(rows, start, after)
  {
    AppendRecOrder(forest, depth, k);
    AppendRecNested(rows, start, forest, depth, k, None);
    AppendRecFurnished(rows, start, forest, depth, k);
  }

  lemma OneRowMore(rows: seq<Row>, start: nat, k: nat)
    requires start < k < |rows|
    ensures RecordRows(rows, start, k + 1) == RecordRows(rows, start, k) + if rows[k].kind.R? then [k] else []
    ensures DataRows(rows, start, k + 1) == DataRows(rows, start, k) + if rows[k].kind.D? then {k} else {}
  {
  }

  lemma FaithfulStill(rows: seq<Row>, start: nat, k: nat, forest: Forest, after: Forest)
    requires k < |rows| && Faithful(rows, start, k, forest) && Nested(rows, start, after, None)
    requires Furnished(rows, start, after)
    requires Preorder(after) == Preorder(forest) + if rows[k].kind.R? then [k] else []
    requires ItemRows(after) == ItemRows(forest) + if rows[k].kind.D? then {k} else {}
    requires RecordRows(rows, start, k + 1) == RecordRows(rows, start, k) + if rows[k].kind.R? then [k] else []
    requires DataRows(rows, start, k + 1) == DataRows(rows, start, k) + if rows[k].kind.D? then {k} else {}
    ensures Faithful(rows, start, k + 1, after)
  {
  }

  lemma ItemJoins(rows: seq<Row>, start: nat, k: nat, j: nat, fields: seq<Item>)
    requires start < k < |rows| && rows[k].kind.D? && IsOwner(rows, start, k, j) && ItemsFit(rows, start, j, fields)
    requires forall i :: i in fields ==> i.at < k && i.key != rows[k].key
    ensures ItemsFit(rows, start, j, fields + [Item(k, rows[k].key)])
  {
  }

  // A data row becomes an item of its owner.
  lemma ItemIsFaithful(rows: seq<Row>, start: nat, k: nat, records: Forest, open: seq<nat>)
    requires start < k < |rows| && rows[k].kind.D? && Faithful(rows, start, k, records)
    requires open != [] && open <= Spine(records) && IsOwner(rows, start, k, open[|open| - 1])
    requires forall i :: i in FieldsAtDepth(records, |open|) ==> i.key != rows[k].key
    ensures Faithful(rows, start, k + 1, AppendField(records, |open|, Item(k, rows[k].key)))
  {
    var item := Item(k, rows[k].key);
    FurnishedAtDepth(rows, start, records, |open|);
    assert Spine(records)[|open| - 1] == open[|open| - 1];
    ItemJoins(rows, start, k, open[|open| - 1], FieldsAtDepth(records, |open|));
    AppendFieldOrder(records, |open|, item);
    AppendFieldNested(rows, start, records, |open|, item, None);
    AppendFieldFurnished(rows, start, records, |open|, item);
    OneRowMore(rows, start, k);
    FaithfulStill(rows, start, k, records, AppendField(records, |open|, item));
  }

  // Only the last flow and the stack change.
  lemma LastFlowStep(rows: seq<Row>, st: State, k: nat, records: Forest, stack: seq<nat>)
    requires k < |rows| && st.flows != [] && Shape(rows, st, k) && !rows[k].kind.F?
    requires Faithful(rows, st.flows[|st.flows| - 1].at, k + 1, records)
    requires StackIsOpen(rows, st.flows[|st.flows| - 1].at, stack, k + 1)
    ensures Shape(rows, State(WithRecords(st.flows, records), stack), k + 1)
  {
    var flows := WithRecords(st.flows, records);
    assert forall f :: 0 <= f < |flows| - 1 ==> flows[f] == st.flows[f];
  }

  // What popping for row k gives: the owner on top, and the stack for the next row.
  ghost predicate PoppedWell(rows: seq<Row>, start: nat, open: seq<nat>, k: nat)
    requires k < |rows|
  {
    && ParentIs(rows, start, k, if open == [] then None else Some(open[|open| - 1]))
    && StackIsOpen(rows, start, if rows[k].kind.R? then open + [k] else open, k + 1)
  }

  lemma OpenIsWell(rows: seq<Row>, start: nat, open: seq<nat>, k: nat)
    requires start < k < |rows| && Ascending(open) && forall j :: j in open <==> StillOpen(rows, start, j, k)
    ensures PoppedWell(rows, start, open, k)
  {
    TopIsOwner(rows, start, open, k);
    NextStack(rows, start, open, k);
  }

  lemma PoppedFor(rows: seq<Row>, start: nat, stack: seq<nat>, k: nat, open: seq<nat>)
    requires start < k < |rows| && StackIsOpen(rows, start, stack, k) && open == Pop(rows, stack, LevelOf(rows, k))
    ensures PoppedWell(rows, start, open, k)
  {
    PoppedIsOpen(rows, start, stack, k);
    OpenIsWell(rows, start, open, k);
  }

  lemma RecordRowShape(rows: seq<Row>, st: State, k: nat, open: seq<nat>)
    requires k < |rows| && st.flows != [] && Shape(rows, st, k) && rows[k].kind.R?
    requires open <= Spine(st.flows[|st.flows| - 1].records) && PoppedWell(rows, st.flows[|st.flows| - 1].at, open, k)
    ensures Shape(rows, State(WithRecords(st.flows, AppendRec(st.flows[|st.flows| - 1].records, |open|, Rec(k, [], Empty))), open + [k]), k + 1)
  {
    var last := st.flows[|st.flows| - 1];
    RecordIsFaithful(rows, last.at, k, last.records, open);
    LastFlowStep(rows, st, k, AppendRec(last.records, |open|, Rec(k, [], Empty)), open + [k]);
  }

  lemma DataRowShape(rows: seq<Row>, st: State, k: nat, open: seq<nat>)
    requires k < |rows| && st.flows != [] && Shape(rows, st, k) && rows[k].kind.D? && open != []
    requires open <= Spine(st.flows[|st.flows| - 1].records) && PoppedWell(rows, st.flows[|st.flows| - 1].at, open, k)
    requires forall i :: i in FieldsAtDepth(st.flows[|st.flows| - 1].records, |open|) ==> i.key != rows[k].key
    ensures Shape(rows, State(WithRecords(st.flows, AppendField(st.flows[|st.flows| - 1].records, |open|, Item(k, rows[k].key))), open), k + 1)
  {
    var last := st.flows[|st.flows| - 1];
    ItemIsFaithful(rows, last.at, k, last.records, open);
    LastFlowStep(rows, st, k, AppendField(last.records, |open|, Item(k, rows[k].key)), open);
  }

  // What a row that is taken does to the last flow, with the stack popped for it.
  lemma OtherRowIs(rows: seq<Row>, st: State, k: nat) returns (open: seq<nat>)
    requires k < |rows| && Fits(st) && !rows[k].kind.F? && Step(rows, st, k).Some?
    ensures st.flows != [] && open == Pop(rows, st.stack, LevelOf(rows, k))
    ensures open <= Spine(st.flows[|st.flows| - 1].records)
    ensures rows[k].kind.R? ==>
              Step(rows, st, k).value
              == State(WithRecords(st.flows, AppendRec(st.flows[|st.flows| - 1].records, |open|, Rec(k, [], Empty))), open + [k])
    ensures rows[k].kind.D? ==>
              && open != [] && (forall i :: i in FieldsAtDepth(st.flows[|st.flows| - 1].records, |open|) ==> i.key != rows[k].key)
              && Step(rows, st, k).value
                 == State(WithRecords(st.flows, AppendField(st.flows[|st.flows| - 1].records, |open|, Item(k, rows[k].key))), open)
  {
    open := Pop(rows, st.stack, LevelOf(rows, k));
  }

  lemma PoppedShape(rows: seq<Row>, st: State, k: nat, open: seq<nat>, next: State)
    requires k < |rows| && st.flows != [] && Shape(rows, st, k) && !rows[k].kind.F?
    requires open <= Spine(st.flows[|st.flows| - 1].records) && PoppedWell(rows, st.flows[|st.flows| - 1].at, open, k)
    requires rows[k].kind.R? ==>
               next == State(WithRecords(st.flows, AppendRec(st.flows[|st.flows| - 1].records, |open|, Rec(k, [], Empty))), open + [k])
    requires rows[k].kind.D? ==>
               && open != [] && (forall i :: i in FieldsAtDepth(st.flows[|st.flows| - 1].records, |open|) ==> i.key != rows[k].key)
               && next == State(WithRecords(st.flows, AppendField(st.flows[|st.flows| - 1].records, |open|, Item(k, rows[k].key))), open)
    ensures Shape(rows, next, k + 1)
  {
    if rows[k].kind.R? {
      RecordRowShape(rows, st, k, open);
    } else {
      DataRowShape(rows, st, k, open);
    }
  }

  lemma PoppedForLast(rows: seq<Row>, st: State, k: nat, open: seq<nat>)
    requires k < |rows| && st.flows != [] && Shape(rows, st, k) && open == Pop(rows, st.stack, LevelOf(rows, k))
    ensures PoppedWell(rows, st.flows[|st.flows| - 1].at, open, k)
  {
    PoppedFor(rows, st.flows[|st.flows| - 1].at, st.stack, k, open);
  }

  lemma OtherRowStep(rows: seq<Row>, st: State, k: nat, next: State)
    requires k < |rows| && Fits(st) && Shape(rows, st, k) && !rows[k].kind.F? && Step(rows, st, k) == Some(next)
    ensures Shape(rows, next, k + 1)
  {
    var open := OtherRowIs(rows, st, k);
    PoppedForLast(rows, st, k, open);
    PoppedShape(rows, st, k, open, next);
  }

  lemma StepKeepsShape(rows: seq<Row>, st: State, k: nat)
    requires k < |rows| && Fits(st) && Shape(rows, st, k) && Step(rows, st, k).Some?
    ensures Shape(rows, Step(rows, st, k).value, k + 1)
  {
    if rows[k].kind.F? {
      FlowRowStep(rows, st, k);
    } else {
      OtherRowStep(rows, st, k, Step(rows, st, k).value);
    }
  }

  // The state after the rows before k.
  ghost predicate Proper(rows: seq<Row>, st: State, k: nat) {
    k <= |rows| && Fits(st) && Shape(rows, st, k)
  }

  ghost function ProperOf(rows: seq<Row>): (State, nat) -> bool {
    (st: State, k: nat) => Proper(rows, st, k)
  }

  lemma TakingKeepsProper(rows: seq<Row>, st: State, k: nat)
    requires Proper(rows, st, k) && Taker(rows)(st, k).Some?
    ensures Proper(rows, Taker(rows)(st, k).value, k + 1)
  {
    StepFits(rows, st, k);
    StepKeepsShape(rows, st, k);
  }

  lemma ProperIsKept(rows: seq<Row>)
    ensures ProperOf(rows)(State([], []), 0)
    ensures forall st: State, k: nat :: ProperOf(rows)(st, k) && Taker(rows)(st, k).Some? ==>
              ProperOf(rows)(Taker(rows)(st, k).value, k + 1)
  {
    forall st: State, k: nat | ProperOf(rows)(st, k) && Taker(rows)(st, k).Some?
      ensures ProperOf(rows)(Taker(rows)(st, k).value, k + 1)
    {
      TakingKeepsProper(rows, st, k);
    }
  }

  lemma ParsedShape(rows: seq<Row>, k: nat)
    requires k <= |rows| && ParseTo(rows, k).Some?
    ensures Proper(rows, ParseTo(rows, k).value, k)
  {
    ProperIsKept(rows);
    Kept(Taker(rows), ProperOf(rows), k);
  }

  // Where the rows of a flow end: at the next flow, or at the end of the sheet.
  function EndOf(rows: seq<Row>, flows: seq<FlowDict>, f: nat): nat
    requires f < |flows|
  {
    if f + 1 < |flows| then flows[f + 1].at else |rows|
  }

  // For every accepted sheet: each flow's forest in preorder is its record rows, every record is nested
  // in, and every item belongs to, the latest record still open, and no row is lost.
  lemma ParsedForests(rows: seq<Row>, f: nat)
    requires Parse(rows).Some? && f < |Parse(rows).value|
    ensures var flows := Parse(rows).value;
            && flows[f].at < EndOf(rows, flows, f) <= |rows| && rows[flows[f].at].kind.F?
            && NoFlowRow(rows, flows[f].at, EndOf(rows, flows, f))
            && Faithful(rows, flows[f].at, EndOf(rows, flows, f), flows[f].records)
  {
    ParsedShape(rows, |rows|);
  }

  // Levels strictly increase from a record to the records nested in it.
  predicate Deepening(rows: seq<Row>, forest: Forest, above: Option<nat>) {
    match forest
    case Empty => true
    case Snoc(front, last) =>
      && (above.Some? ==> LevelOf(rows, above.value) < LevelOf(rows, last.at))
      && Deepening(rows, last.children, Some(last.at))
      && Deepening(rows, front, above)
  }

  lemma {:induction false} NestedDeepens(rows: seq<Row>, start: nat, forest: Forest, parent: Option<nat>)
    requires Nested(rows, start, forest, parent)
    ensures Deepening(rows, forest, parent)
  {
    if forest.Snoc? {
      NestedDeepens(rows, start, forest.last.children, Some(forest.last.at));
      NestedDeepens(rows, start, forest.front, parent);
    }
  }

  lemma ParsedLevelsIncrease(rows: seq<Row>, f: nat)
    requires Parse(rows).Some? && f < |Parse(rows).value|
    ensures Deepening(rows, Parse(rows).value[f].records, None)
  {
    ParsedForests(rows, f);
    NestedDeepens(rows, Parse(rows).value[f].at, Parse(rows).value[f].records, None);
  }

  // --- which sheets are accepted ------------------------------------------------------------------------

  // The items of the record read from row j.
  function FieldsOf(forest: Forest, j: nat): seq<Item> {
    match forest
    case Empty => []
    case Snoc(front, last) => FieldsOf(front, j) + (if last.at == j then last.fields else []) + FieldsOf(last.children, j)
  }

  lemma {:induction false} NoSuchRecord(forest: Forest, j: nat)
    requires j !in Preorder(forest)
    ensures FieldsOf(forest, j) == []
  {
    if forest.Snoc? {
      NoSuchRecord(forest.front, j);
      NoSuchRecord(forest.last.children, j);
    }
  }

  lemma SplitAscending(a: seq<nat>, j: nat, b: seq<nat>)
    requires Ascending(a + [j] + b)
    ensures Ascending(b) && j !in a && j !in b && forall x :: x in b ==> x !in a
  {
    var s := a + [j] + b;
    assert s[|a|] == j;
    assert forall i :: 0 <= i < |a| ==> a[i] == s[i];
    assert forall i :: 0 <= i < |b| ==> b[i] == s[|a| + 1 + i];
  }

  lemma {:induction false} SpineInPreorder(forest: Forest, depth: nat)
    requires 0 < depth <= |Spine(forest)|
    ensures Spine(forest)[depth - 1] in Preorder(forest)
  {
    if depth > 1 {
      SpineInPreorder(forest.last.children, depth - 1);
    }
  }

  lemma {:induction false} FieldsOfSpine(forest: Forest, depth: nat)
    requires 0 < depth <= |Spine(forest)| && Ascending(Preorder(forest))
    ensures FieldsOf(forest, Spine(forest)[depth - 1]) == FieldsAtDepth(forest, depth)
  {
    var j := Spine(forest)[depth - 1];
    SplitAscending(Preorder(forest.front), forest.last.at, Preorder(forest.last.children));
    if depth > 1 {
      FieldsOfSpine(forest.last.children, depth - 1);
      SpineInPreorder(forest.last.children, depth - 1);
    } else {
      NoSuchRecord(forest.last.children, j);
    }
    NoSuchRecord(forest.front, j);
  }

  lemma OneOwner(rows: seq<Row>, start: nat, k: nat, i: nat, j: nat)
    requires IsOwner(rows, start, k, i) && IsOwner(rows, start, k, j)
    ensures i == j
  {
  }

  predicate HasItem(fields: seq<Item>, at: nat) {
    exists i :: i in fields && i.at == at
  }

  // An item row is in the record of its owner.
  lemma {:induction false} ItemInOwner(rows: seq<Row>, start: nat, forest: Forest, k: nat, j: nat)
    requires Furnished(rows, start, forest) && k in ItemRows(forest) && IsOwner(rows, start, k, j)
    ensures HasItem(FieldsOf(forest, j), k)
  {
    var mine := if forest.last.at == j then forest.last.fields else [];
    if k in ItemRows(forest.front) {
      ItemInOwner(rows, start, forest.front, k, j);
      var i :| i in FieldsOf(forest.front, j) && i.at == k;
      assert i in FieldsOf(forest, j);
    } else if k in ItemRows(forest.last.children) {
      ItemInOwner(rows, start, forest.last.children, k, j);
      var i :| i in FieldsOf(forest.last.children, j) && i.at == k;
      assert i in FieldsOf(forest, j);
    } else {
      var i :| i in forest.last.fields && i.at == k;
      OneOwner(rows, start, k, forest.last.at, j);
      assert i in mine && i in FieldsOf(forest, j);
    }
  }

  lemma {:induction false} RecordRowsAscend(rows: seq<Row>, start: nat, k: nat)
    requires k <= |rows|
    ensures Ascending(RecordRows(rows, start, k)) && forall j :: j in RecordRows(rows, start, k) ==> j < k
  {
    if k > start + 1 {
      RecordRowsAscend(rows, start, k - 1);
      var before := RecordRows(rows, start, k - 1);
      assert forall a :: 0 <= a < |before| ==> before[a] in before;
    }
  }

  // No data row of the owner before row k has its key.
  predicate KeyIsNew(rows: seq<Row>, start: nat, k: nat, j: nat)
    requires k < |rows|
  {
    forall i :: start < i < k && rows[i].kind.D? && IsOwner(rows, start, i, j) ==> rows[i].key != rows[k].key
  }

  lemma DuplicateIsSeen(rows: seq<Row>, start: nat, k: nat, records: Forest, depth: nat)
    requires start < k < |rows| && Faithful(rows, start, k, records) && 0 < depth <= |Spine(records)|
    ensures (exists i :: i in FieldsAtDepth(records, depth) && i.key == rows[k].key)
        <==> !KeyIsNew(rows, start, k, Spine(records)[depth - 1])
  {
    var j, fields := Spine(records)[depth - 1], FieldsAtDepth(records, depth);
    FurnishedAtDepth(rows, start, records, depth);
    if !KeyIsNew(rows, start, k, j) {
      var i :| start < i < k && rows[i].kind.D? && IsOwner(rows, start, i, j) && rows[i].key == rows[k].key;
      assert i in ItemRows(records);
      ItemInOwner(rows, start, records, i, j);
      RecordRowsAscend(rows, start, k);
      FieldsOfSpine(records, depth);
      assert HasItem(fields, i);
    }
  }

  // What is asked of a row, in terms of the rows before it: it has a level and stands after a file type;
  // a record is marked G; an item has an owner, a known presence and a key that is new to its owner.
  ghost predicate RowFits(rows: seq<Row>, k: nat)
    requires k < |rows|
  {
    rows[k].kind.F? ||
    exists start :: FlowOf(rows, start, k) && RowFitsFlow(rows, start, k)
  }

  predicate FlowOf(rows: seq<Row>, start: nat, k: nat)
    requires k < |rows|
  {
    start < k && rows[start].kind.F? && NoFlowRow(rows, start, k)
  }

  ghost predicate RowFitsFlow(rows: seq<Row>, start: nat, k: nat)
    requires k < |rows|
  {
    && rows[k].level.Some?
    && (rows[k].kind.R? ==> rows[k].marker == "G")
    && (rows[k].kind.D? ==>
          && KnownPresence(rows[k].marker) && rows[k].key != ""
          && exists j :: IsOwner(rows, start, k, j) && KeyIsNew(rows, start, k, j))
  }

  lemma StepTakes(rows: seq<Row>, st: State, k: nat)
    requires k < |rows| && Fits(st) && Shape(rows, st, k) && st.flows != [] && !rows[k].kind.F?
    ensures Step(rows, st, k).Some? <==> RowFitsFlow(rows, st.flows[|st.flows| - 1].at, k)
  {
    var last := st.flows[|st.flows| - 1];
    if rows[k].level.Some? && rows[k].kind.D? {
      var open := Pop(rows, st.stack, LevelOf(rows, k));
      PoppedIsOpen(rows, last.at, st.stack, k);
      TopIsOwner(rows, last.at, open, k);
      if open != [] {
        var j := open[|open| - 1];
        assert Spine(last.records)[|open| - 1] == j;
        DuplicateIsSeen(rows, last.at, k, last.records, |open|);
        forall i | IsOwner(rows, last.at, k, i) ensures i == j {
          OneOwner(rows, last.at, k, i, j);
        }
      }
    }
  }

  lemma StepTakesRow(rows: seq<Row>, st: State, k: nat)
    requires k < |rows| && Fits(st) && Shape(rows, st, k)
    ensures Step(rows, st, k).Some? <==> RowFits(rows, k)
  {
    if !rows[k].kind.F? && st.flows != [] {
      var last := st.flows[|st.flows| - 1].at;
      StepTakes(rows, st, k);
      assert FlowOf(rows, last, k);
      forall start | FlowOf(rows, start, k) ensures start == last {
      }
    }
  }

  ghost function FitOf(rows: seq<Row>): nat -> bool {
    (k: nat) => k < |rows| && RowFits(rows, k)
  }

  lemma TakingIsFit(rows: seq<Row>)
    ensures forall st: State, k: nat :: k < |rows| && ProperOf(rows)(st, k) ==> (Taker(rows)(st, k).Some? <==> FitOf(rows)(k))
  {
    forall st: State, k: nat | k < |rows| && ProperOf(rows)(st, k)
      ensures Taker(rows)(st, k).Some? <==> FitOf(rows)(k)
    {
      StepTakesRow(rows, st, k);
    }
  }

  // A sheet is accepted exactly when every row of it is fit to stand where it does.
  lemma AcceptedSheets(rows: seq<Row>)
    ensures Parse(rows).Some? <==> forall k :: 0 <= k < |rows| ==> RowFits(rows, k)
  {
    ProperIsKept(rows);
    TakingIsFit(rows);
    TakenWhen(Taker(rows), ProperOf(rows), FitOf(rows), |rows|);
    assert forall k :: 0 <= k < |rows| ==> (FitOf(rows)(k) <==> RowFits(rows, k));
  }

  // --- the loops ------------------------------------------------------------------------------------------

  lemma {:induction false} NothingAfter(take: (State, nat) -> Option<State>, k: nat, n: nat)
    requires k <= n && Iterate(take, k).None?
    ensures Iterate(take, n).None?
  {
    if k < n {
      NothingAfter(take, k, n - 1);
    }
  }

  method PopWhile(rows: seq<Row>, stack: seq<nat>, level: nat) returns (open: seq<nat>)
    ensures open == Pop(rows, stack, level)
  {
    open := stack;
    while open != [] && LevelOf(rows, open[|open| - 1]) >= level
      invariant Pop(rows, open, level) == Pop(rows, stack, level)
      decreases |open|
    {
      open := open[..|open| - 1];
    }
  }

  // Row after row, with the stack popped in place.
  method ParseRows(rows: seq<Row>) returns (result: Option<seq<FlowDict>>)
    ensures result == Parse(rows)
  {
    var st := State([], []);
    for k := 0 to |rows|
      invariant Fits(st) && ParseTo(rows, k) == Some(st)
    {
      var next := ParseRow(rows, st, k);
      assert ParseTo(rows, k + 1) == next;
      if next.None? {
        NothingAfter(Taker(rows), k + 1, |rows|);
        return None;
      }
      StepFits(rows, st, k);
      st := next.value;
    }
    return Some(st.flows);
  }

  method ParseRow(rows: seq<Row>, st: State, k: nat) returns (next: Option<State>)
    requires k < |rows| && Fits(st)
    ensures next == Step(rows, st, k)
  {
    if rows[k].kind.F? {
      return Some(State(st.flows + [FlowDict(k, Empty)], []));
    }
    if st.flows == [] || rows[k].level.None? {
      return None;
    }
    var records := st.flows[|st.flows| - 1].records;
    var open := PopWhile(rows, st.stack, rows[k].level.value);
    if rows[k].kind.R? {
      if rows[k].marker != "G" {
        return None;
      }
      return Some(State(WithRecords(st.flows, AppendRec(records, |open|, Rec(k, [], Empty))), open + [k]));
    }
    if open == [] || !KnownPresence(rows[k].marker) || rows[k].key == "" {
      return None;
    }
    var fields := FieldsAtDepth(records, |open|);
    for i := 0 to |fields|
      invariant forall j :: 0 <= j < i ==> fields[j].key != rows[k].key
    {
      if fields[i].key == rows[k].key {
        return None;
      }
    }
    return Some(State(WithRecords(st.flows, AppendField(records, |open|, Item(k, rows[k].key))), open));
  }
}
