// Which files come back whatever the flow: a greedy reader must never be offered, at the end of a group,
// a record that the group would still take.
module Ambiguity {
  import opened Wrappers
  import opened Checksum
  import opened Lines
  import opened Fields
  import opened FlowSpec
  import opened FileCodec
  import opened RoundTrip
  import opened Grammar
  import B = BuildSuccess

  // The type of the next record: of the first node, or of what comes after the group.
  function FirstType(nodes: seq<Node>, next: Option<string>): Option<string> {
    if nodes == [] then next else Some(nodes[0].recordType)
  }

  // Where the nodes of a group come to an end, the next record is of none of the types the group has left.
  // Only record types matter, and only those at the ends of groups.
  predicate Clear(nodes: seq<Node>, specs: seq<Record>, next: Option<string>)
    decreases nodes, |specs|
  {
    if specs == [] then true
    else if nodes == [] then next != Some(specs[0].recordType) && Clear(nodes, specs[1..], next)
    else if nodes[0].recordType == specs[0].recordType then
      && Clear(nodes[0].children, specs[0].children, FirstType(nodes[1..], next))
      && Clear(nodes[1..], specs, next)
    else Clear(nodes, specs[1..], next)
  }

  // The lines that come after a group begin with a record of this type.
  predicate LeadsOn(rest: seq<string>, next: Option<string>) {
    && (rest == [] <==> next.None?)
    && (rest != [] ==> SEPARATOR !in next.value && IsRecordOf(rest[0], next.value))
  }

  // A group was parsed into this forest, and no more and no less was taken.
  ghost predicate Same(parsed: Option<(seq<Node>, seq<string>)>, nodes: seq<Node>, rest: seq<string>) {
    parsed.Some? && ReturnedForest(parsed.value.0, nodes) && parsed.value.1 == rest
  }

  lemma BuiltLeadsOn(nodes: seq<Node>, specs: seq<Record>, count: nat, rest: seq<string>, next: Option<string>)
    requires BuildGroup(nodes, specs, count).Some? && WellFormed(specs) && LeadsOn(rest, next)
    ensures LeadsOn(BuildGroup(nodes, specs, count).value + rest, FirstType(nodes, next))
  {
    FirstLine(nodes, specs, count);
    if nodes == [] {
      assert BuildGroup(nodes, specs, count).value + rest == rest;
    }
  }

  // --- one line for each node -----------------------------------------------------------

  lemma {:induction false} LinesBuilt(nodes: seq<Node>, specs: seq<Record>, count: nat)
    requires BuildGroup(nodes, specs, count).Some?
    ensures |BuildGroup(nodes, specs, count).value| == TreeSize(nodes)
    decreases nodes, |specs|
  {
    if specs != [] {
      if nodes != [] && nodes[0].recordType == specs[0].recordType {
        LinesBuilt(nodes[0].children, specs[0].children, 0);
        LinesBuilt(nodes[1..], specs, count + 1);
      } else {
        LinesBuilt(nodes, specs[1..], 0);
      }
    }
  }

  lemma {:induction false} ReturnedSize(a: seq<Node>, b: seq<Node>)
    requires ReturnedForest(a, b)
    ensures TreeSize(a) == TreeSize(b)
  {
    if a != [] {
      ReturnedSize(a[0].children, b[0].children);
      ReturnedSize(a[1..], b[1..]);
    }
  }

  // What was parsed into a forest of the right shape was parsed from as many lines as were built for it.
  lemma TookItsLines(nodes: seq<Node>, specs: seq<Record>, rest: seq<string>)
    requires WellFormed(specs) && BuildGroup(nodes, specs, 0).Some?
    ensures var parsed := ParseGroup(BuildGroup(nodes, specs, 0).value + rest, specs, 0);
            parsed.Some? && ReturnedForest(parsed.value.0, nodes) ==> parsed.value.1 == rest
  {
    var lines := BuildGroup(nodes, specs, 0).value + rest;
    var parsed := ParseGroup(lines, specs, 0);
    if parsed.Some? && ReturnedForest(parsed.value.0, nodes) {
      GroupConserves(lines, specs, 0);
      PreorderSize(parsed.value.0);
      ReturnedSize(parsed.value.0, nodes);
      LinesBuilt(nodes, specs, 0);
    }
  }

  // --- a group ------------------------------------------------------------------------------

  // The lines of a group, followed by anything, are parsed into the same group exactly when its values are
  // faithful and its ends are clear.
  lemma {:induction false} GroupComesBackWhen(nodes: seq<Node>, specs: seq<Record>, count: nat, rest: seq<string>,
                                              next: Option<string>)
    requires BuildGroup(nodes, specs, count).Some? && WellFormed(specs) && LeadsOn(rest, next)
    ensures Same(ParseGroup(BuildGroup(nodes, specs, count).value + rest, specs, count), nodes, rest)
       <==> FaithfulForest(nodes, specs) && Clear(nodes, specs, next)
    decreases nodes, |specs|
  {
    if specs == [] {
      assert BuildGroup(nodes, specs, count).value + rest == rest;
    } else if nodes != [] && nodes[0].recordType == specs[0].recordType {
      var line, inner, others := BuiltNode(nodes, specs, count);
      BuiltLeadsOn(nodes[1..], specs, count + 1, rest, next);
      GroupComesBackWhen(nodes[0].children, specs[0].children, 0, others + rest, FirstType(nodes[1..], next));
      GroupComesBackWhen(nodes[1..], specs, count + 1, rest, next);
      LineRoundTrip(nodes[0], specs[0]);
      TookItsLines(nodes[0].children, specs[0].children, others + rest);
      NodeSame(line, inner + (others + rest), others + rest, nodes, specs, count, rest);
      Regroup(line, inner, others, rest);
    } else {
      GroupComesBackWhen(nodes, specs[1..], 0, rest, next);
      EndSame(nodes, specs, count, rest, next);
    }
  }

  lemma NodeSame(line: string, tail: seq<string>, afterInner: seq<string>, nodes: seq<Node>, specs: seq<Record>,
                 count: nat, rest: seq<string>)
    requires specs != [] && nodes != [] && nodes[0].recordType == specs[0].recordType
    requires IsRecordOf(line, specs[0].recordType)
    requires LineComesBack(ParseLine(line, specs[0]), nodes[0], specs[0])
    requires var inner := ParseGroup(tail, specs[0].children, 0);
             inner.Some? && ReturnedForest(inner.value.0, nodes[0].children) ==> inner.value.1 == afterInner
    ensures Same(ParseGroup([line] + tail, specs, count), nodes, rest)
       <==> FaithfulItems(specs[0].fields, nodes[0].values)
            && Same(ParseGroup(tail, specs[0].children, 0), nodes[0].children, afterInner)
            && Same(ParseGroup(afterInner, specs, count + 1), nodes[1..], rest)
  {
    var all := [line] + tail;
    assert all[1..] == tail && all[0] == line;
    var first, inner := ParseLine(line, specs[0]), ParseGroup(tail, specs[0].children, 0);
    if first.Some? && inner.Some? {
      var others := ParseGroup(inner.value.1, specs, count + 1);
      if others.Some? {
        var node := first.value.(children := inner.value.0);
        assert ParseGroup(all, specs, count) == Some(([node] + others.value.0, others.value.1));
        assert ([node] + others.value.0)[1..] == others.value.0;
      }
    }
  }

  // No node of the first spec is left: the reader goes on to the next spec unless a record of that type
  // follows, and then it takes the record.
  lemma EndSame(nodes: seq<Node>, specs: seq<Record>, count: nat, rest: seq<string>, next: Option<string>)
    requires specs != [] && WellFormed(specs) && LeadsOn(rest, next) && BuildGroup(nodes, specs, count).Some?
    requires !(nodes != [] && nodes[0].recordType == specs[0].recordType)
    requires Same(ParseGroup(BuildGroup(nodes, specs[1..], 0).value + rest, specs[1..], 0), nodes, rest)
        <==> FaithfulForest(nodes, specs[1..]) && Clear(nodes, specs[1..], next)
    ensures Same(ParseGroup(BuildGroup(nodes, specs, count).value + rest, specs, count), nodes, rest)
       <==> FaithfulForest(nodes, specs) && Clear(nodes, specs, next)
  {
    var lines := BuildGroup(nodes, specs[1..], 0).value;
    FirstLine(nodes, specs[1..], 0);
    if nodes == [] {
      assert lines + rest == rest;
      if rest != [] && IsRecordOf(rest[0], specs[0].recordType) {
        OneRecordType(rest[0], next.value, specs[0].recordType);
      }
    } else if IsRecordOf((lines + rest)[0], specs[0].recordType) {
      OneRecordType(lines[0], nodes[0].recordType, specs[0].recordType);
    }
  }

  // --- a file -------------------------------------------------------------------------------

  // For every well-formed flow, ambiguous or not: a built file is parsed back as the same header and the
  // same forest exactly when its values are faithful and its groups end clearly.
  lemma FileComesBackWhen(flow: Flow, header: Header, body: seq<Node>)
    requires Build(flow, header, body).Success? && WellFormed(flow.records)
    ensures ComesBack(Build(flow, header, body).value, flow, header, body)
       <==> FaithfulHeader(header) && FaithfulForest(body, flow.records) && Clear(body, flow.records, None)
  {
    var records, footer := BuiltFile(flow, header, body);
    RecordsComeBack(flow, header, body, records, footer);
    BuiltRecordsAreValid(flow, header, body);
    HeaderRoundTrip(header);
    GroupComesBackWhen(body, flow.records, 0, [], None);
    TookItsLines(body, flow.records, []);
    assert records[1..] + [] == records[1..];
  }

  // In an unambiguous flow every file is clear.
  lemma {:induction false} UnambiguousIsClear(nodes: seq<Node>, specs: seq<Record>, count: nat, follow: set<string>,
                                              next: Option<string>)
    requires BuildGroup(nodes, specs, count).Some? && Unambiguous(specs, follow)
    requires next.Some? ==> next.value in follow
    ensures Clear(nodes, specs, next)
    decreases nodes, |specs|
  {
    if specs != [] {
      if nodes != [] && nodes[0].recordType == specs[0].recordType {
        FirstLine(nodes[1..], specs, count + 1);
        UnambiguousIsClear(nodes[0].children, specs[0].children, 0, follow + Types(specs), FirstType(nodes[1..], next));
        UnambiguousIsClear(nodes[1..], specs, count + 1, follow, next);
      } else {
        UnambiguousIsClear(nodes, specs[1..], 0, follow, next);
      }
    }
  }

  // --- a flow -------------------------------------------------------------------------------

  // Some values of the record encode and come back.
  ghost predicate Fillable(s: Record) {
    exists values: map<string, Value> :: Fills(values, s)
  }

  predicate Fills(values: map<string, Value>, s: Record) {
    BuildLine(Node(s.recordType, values, []), s).Some? && FaithfulItems(s.fields, values)
  }

  // A flow whose cardinalities stand in the way of nothing: at every level the types are distinct, and each
  // record may be left out or come once or twice, and has values.
  ghost predicate Loose(specs: seq<Record>) {
    && (forall i, j :: 0 <= i < j < |specs| ==> specs[i].recordType != specs[j].recordType)
    && forall s :: s in specs ==>
         && s.cardinality.Permits(0) && s.cardinality.Permits(1) && s.cardinality.Permits(2)
         && Fillable(s) && Loose(s.children)
  }

  lemma LooseRest(specs: seq<Record>)
    requires Loose(specs) && specs != []
    ensures Loose(specs[1..]) && Loose(specs[0].children) && Fillable(specs[0]) && specs[0].recordType !in Types(specs[1..])
    ensures specs[0].cardinality.Permits(0) && specs[0].cardinality.Permits(1) && specs[0].cardinality.Permits(2)
    ensures Types(specs) == {specs[0].recordType} + Types(specs[1..])
  {
    assert specs[0] in specs;
    assert forall s :: s in specs[1..] ==> s in specs;
    assert specs == [specs[0]] + specs[1..];
    forall t | t in Types(specs) ensures t in {specs[0].recordType} + Types(specs[1..]) {
      var s :| s in specs && s.recordType == t;
      assert s == specs[0] || s in specs[1..];
    }
  }

  // A forest that builds and whose values are faithful.
  ghost predicate Good(nodes: seq<Node>, specs: seq<Record>, count: nat) {
    BuildGroup(nodes, specs, count).Some? && FaithfulForest(nodes, specs)
  }

  lemma {:induction false} NoneIsGood(specs: seq<Record>, count: nat)
    requires Loose(specs) && count <= 2
    ensures Good([], specs, count)
    decreases |specs|
  {
    if specs != [] {
      LooseRest(specs);
      assert specs[0].cardinality.Permits(count);
      NoneIsGood(specs[1..], 0);
    }
  }

  lemma OneMoreIsGood(node: Node, rest: seq<Node>, specs: seq<Record>, count: nat)
    requires specs != [] && node.recordType == specs[0].recordType && Fills(node.values, specs[0])
    requires Good(node.children, specs[0].children, 0) && Good(rest, specs, count + 1)
    ensures Good([node] + rest, specs, count)
  {
    assert ([node] + rest)[1..] == rest;
  }

  // One record of any type of the group, without children.
  lemma {:induction false} OneIsGood(specs: seq<Record>, t: string, count: nat) returns (node: Node)
    requires Loose(specs) && count <= 1 && t in Types(specs)
    ensures node.recordType == t && Good([node], specs, count)
    decreases |specs|
  {
    LooseRest(specs);
    if specs[0].recordType == t {
      var values :| Fills(values, specs[0]);
      node := Node(t, values, []);
      NoneIsGood(specs[0].children, 0);
      NoneIsGood(specs, count + 1);
      OneMoreIsGood(node, [], specs, count);
      assert [node] + [] == [node];
    } else {
      node := OneIsGood(specs[1..], t, 0);
      assert specs[0].cardinality.Permits(count);
    }
  }

  lemma NodeNotClear(node: Node, rest: seq<Node>, specs: seq<Record>, next: Option<string>)
    requires specs != [] && node.recordType == specs[0].recordType
    requires !Clear(node.children, specs[0].children, FirstType(rest, next))
    ensures !Clear([node] + rest, specs, next)
  {
    assert ([node] + rest)[1..] == rest;
  }

  // What may follow a group inside the first record: another record of the group around it, or nothing new.
  lemma FollowedBy(specs: seq<Record>, after: Option<string>, follow: set<string>)
    returns (rest: seq<Node>, next: Option<string>)
    requires Loose(specs) && specs != [] && (after.Some? ==> after.value in follow + Types(specs))
    ensures Good(rest, specs, 1) && FirstType(rest, next) == after && (next.Some? ==> next.value in follow)
  {
    if after.Some? && after.value !in follow {
      var second := OneIsGood(specs, after.value, 1);
      rest, next := [second], None;
    } else {
      NoneIsGood(specs, 1);
      rest, next := [], after;
    }
  }

  lemma ParentOf(specs: seq<Record>, inner: seq<Node>, rest: seq<Node>, next: Option<string>) returns (nodes: seq<Node>)
    requires specs != [] && Fillable(specs[0]) && Good(inner, specs[0].children, 0) && Good(rest, specs, 1)
    requires !Clear(inner, specs[0].children, FirstType(rest, next))
    ensures Good(nodes, specs, 0) && !Clear(nodes, specs, next)
    ensures nodes != [] && nodes[0].recordType == specs[0].recordType
  {
    var values :| Fills(values, specs[0]);
    var node := Node(specs[0].recordType, values, inner);
    OneMoreIsGood(node, rest, specs, 0);
    NodeNotClear(node, rest, specs, next);
    nodes := [node] + rest;
  }

  // Where a group is ambiguous before what may follow it: nodes of it, and a type that may follow, that the
  // reader would take wrongly.
  lemma {:induction false} Confusing(specs: seq<Record>, follow: set<string>) returns (nodes: seq<Node>, next: Option<string>)
    requires Loose(specs) && !Unambiguous(specs, follow)
    ensures Good(nodes, specs, 0) && !Clear(nodes, specs, next)
    ensures nodes != [] ==> nodes[0].recordType in Types(specs)
    ensures next.Some? ==> next.value in follow
  {
    LooseRest(specs);
    if specs[0].recordType in follow {
      nodes, next := [], Some(specs[0].recordType);
      NoneIsGood(specs, 0);
    } else if !Unambiguous(specs[0].children, follow + Types(specs)) {
      var inner, after := Confusing(specs[0].children, follow + Types(specs));
      var rest: seq<Node>;
      rest, next := FollowedBy(specs, after, follow);
      nodes := ParentOf(specs, inner, rest, next);
    } else {
      nodes, next := Confusing(specs[1..], follow);
    }
  }

  // For flows whose cardinalities stand in the way of nothing, the condition on the flow is needed: an
  // ambiguous one has a file with faithful values that is built and does not come back.
  lemma AmbiguousFlowsLoseFiles(flow: Flow, header: Header) returns (body: seq<Node>)
    requires WellFormed(flow.records) && B.CleanTypes(flow.records) && Loose(flow.records)
    requires !Unambiguous(flow.records, {})
    requires header.fileType == flow.fileType && HeaderRecord(header).Some? && FaithfulHeader(header)
    ensures Build(flow, header, body).Success? && FaithfulForest(body, flow.records)
    ensures !ComesBack(Build(flow, header, body).value, flow, header, body)
  {
    var next: Option<string>;
    body, next := Confusing(flow.records, {});
    B.BodyDecides(flow, header, body);
    FileComesBackWhen(flow, header, body);
  }
}
