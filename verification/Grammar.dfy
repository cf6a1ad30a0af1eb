// What the parser accepts obeys the flow, and no line is lost on the way.
module Grammar {
  import opened Wrappers
  import opened Checksum
  import opened Lines
  import opened Fields
  import opened FlowSpec
  import opened FileCodec

  // --- the grammar ----------------------------------------------------------------------

  // The items of a record: none the spec does not know, every mandatory one, no unused one.
  predicate ItemsConform(values: map<string, Value>, fields: seq<Field>) {
    && values.Keys <= ItemIds(fields)
    && (forall k :: k in values ==> values[k] != Absent)
    && (forall i :: 0 <= i < |fields| ==>
          && (fields[i].presence.Mandatory? ==> fields[i].itemId in values)
          && (fields[i].presence.Unused? ==> fields[i].itemId !in values))
  }

  // The nodes can be divided into runs, one for each spec in order, each run of its spec's type and of
  // a permitted length, and each node conforms; `count` nodes of the first run have gone before.
  predicate Conforms(nodes: seq<Node>, specs: seq<Record>, count: nat)
    decreases nodes, |specs|
  {
    if specs == [] then nodes == []
    else
      || (&& nodes != []
          && nodes[0].recordType == specs[0].recordType
          && ItemsConform(nodes[0].values, specs[0].fields)
          && Conforms(nodes[0].children, specs[0].children, 0)
          && Conforms(nodes[1..], specs, count + 1))
      || (specs[0].cardinality.Permits(count) && Conforms(nodes, specs[1..], 0))
  }

  // Every node of a forest, parents before their children.
  function Preorder(nodes: seq<Node>): seq<Node> {
    if nodes == [] then [] else [nodes[0]] + Preorder(nodes[0].children) + Preorder(nodes[1..])
  }

  function TreeSize(nodes: seq<Node>): nat {
    if nodes == [] then 0 else 1 + TreeSize(nodes[0].children) + TreeSize(nodes[1..])
  }

  lemma {:induction false} CollectConforms(fields: seq<Field>, parsed: seq<Value>)
    requires |fields| == |parsed|
    ensures var m := Collect(fields, parsed);
            && m.Keys <= ItemIds(fields)
            && (forall k :: k in m ==> m[k] != Absent)
            && (forall i :: 0 <= i < |fields| && parsed[i] != Absent ==> fields[i].itemId in m)
            && (forall k :: k in m ==> exists i :: 0 <= i < |fields| && fields[i].itemId == k && parsed[i] != Absent)
  {
    if fields != [] {
      var n := |fields| - 1;
      CollectConforms(fields[..n], parsed[..n]);
      var before, m := Collect(fields[..n], parsed[..n]), Collect(fields, parsed);
      forall k | k in m ensures exists i :: 0 <= i < |fields| && fields[i].itemId == k && parsed[i] != Absent {
        if k in before {
          var i :| 0 <= i < n && fields[..n][i].itemId == k && parsed[..n][i] != Absent;
          assert fields[i].itemId == k && parsed[i] != Absent;
        } else {
          assert fields[n].itemId == k && parsed[n] != Absent;
        }
      }
      forall i | 0 <= i < |fields| && parsed[i] != Absent ensures fields[i].itemId in m {
        if i < n {
          assert fields[..n][i] == fields[i] && parsed[..n][i] == parsed[i];
        }
      }
      assert fields == fields[..n] + [fields[n]];
    }
  }

  lemma LineConforms(line: string, spec: Record)
    requires ParseLine(line, spec).Some? && DistinctItems(spec.fields)
    ensures ParseLine(line, spec).value.recordType == spec.recordType
    ensures ItemsConform(ParseLine(line, spec).value.values, spec.fields)
  {
    var fields := spec.fields;
    var parts := SplitRecord(line, spec.recordType, |fields|).value;
    var parsed := ItemValues(fields, parts);
    CollectConforms(fields, parsed);
    forall i | 0 <= i < |fields|
      ensures fields[i].presence.Mandatory? ==> parsed[i] != Absent
      ensures fields[i].presence.Unused? ==> parsed[i] == Absent
    {
      PresenceIsKept(fields[i], parts[i]);
    }
    UnusedHasNoKey(fields, parsed, Collect(fields, parsed));
  }

  lemma UnusedHasNoKey(fields: seq<Field>, parsed: seq<Value>, m: map<string, Value>)
    requires DistinctItems(fields) && |fields| == |parsed|
    requires forall k :: k in m ==> exists j :: 0 <= j < |fields| && fields[j].itemId == k && parsed[j] != Absent
    ensures forall i :: 0 <= i < |fields| && parsed[i] == Absent ==> fields[i].itemId !in m
  {
  }

  lemma PresenceIsKept(f: Field, text: string)
    requires ParseField(f, text).Some?
    ensures f.presence.Mandatory? ==> ParseField(f, text).value != Absent
    ensures f.presence.Unused? ==> ParseField(f, text).value == Absent
  {
  }

  // What a group of lines was parsed into: a conforming forest whose nodes, in preorder, are the types
  // of the lines taken, one node a line; the lines left over are the end of the lines given.
  ghost predicate Conserves(lines: seq<string>, nodes: seq<Node>, rest: seq<string>) {
    && |lines| == |Preorder(nodes)| + |rest|
    && rest == lines[|Preorder(nodes)|..]
    && forall i :: 0 <= i < |Preorder(nodes)| ==> IsRecordOf(lines[i], Preorder(nodes)[i].recordType)
  }

  lemma {:induction false} GroupConserves(lines: seq<string>, specs: seq<Record>, count: nat)
    requires ParseGroup(lines, specs, count).Some? && WellFormed(specs)
    ensures var (nodes, rest) := ParseGroup(lines, specs, count).value;
            Conforms(nodes, specs, count) && Conserves(lines, nodes, rest)
    decreases |lines|, |specs|
  {
    if specs != [] {
      if lines != [] && IsRecordOf(lines[0], specs[0].recordType) {
        var node := ParseLine(lines[0], specs[0]).value;
        var (inner, after) := ParseGroup(lines[1..], specs[0].children, 0).value;
        var (others, rest) := ParseGroup(after, specs, count + 1).value;
        LineConforms(lines[0], specs[0]);
        GroupConserves(lines[1..], specs[0].children, 0);
        GroupConserves(after, specs, count + 1);
        NodeConserves(lines, node.(children := inner), after, others, rest);
        assert ([node.(children := inner)] + others)[1..] == others;
      } else {
        GroupConserves(lines, specs[1..], 0);
      }
    }
  }

  lemma NodeConserves(lines: seq<string>, node: Node, after: seq<string>, others: seq<Node>, rest: seq<string>)
    requires lines != [] && IsRecordOf(lines[0], node.recordType)
    requires Conserves(lines[1..], node.children, after) && Conserves(after, others, rest)
    ensures Conserves(lines, [node] + others, rest)
  {
    var m := |Preorder(node.children)|;
    assert ([node] + others)[1..] == others;
    assert Preorder([node] + others) == [node] + Preorder(node.children) + Preorder(others);
    assert after == lines[m + 1..];
    forall i | 0 <= i < |Preorder([node] + others)| ensures IsRecordOf(lines[i], Preorder([node] + others)[i].recordType) {
      if 0 < i <= m {
        assert lines[i] == lines[1..][i - 1];
      } else if i > m {
        assert lines[i] == after[i - 1 - m];
      }
    }
  }

  lemma {:induction false} PreorderSize(nodes: seq<Node>)
    ensures |Preorder(nodes)| == TreeSize(nodes)
  {
    if nodes != [] {
      PreorderSize(nodes[0].children);
      PreorderSize(nodes[1..]);
    }
  }

  // The forest is in the flow's grammar, stands for the records between header and footer one by one,
  // and the footer declares as many records as there are nodes at every level, header and footer.
  predicate Accounted(records: seq<string>, body: seq<Node>, flow: Flow) {
    && Conforms(body, flow.records, 0)
    && |records| == |Preorder(body)| + 2
    && (forall i :: 0 <= i < |Preorder(body)| ==> IsRecordOf(records[i + 1], Preorder(body)[i].recordType))
    && (match ParseFooter(records[|records| - 1])
        case None => false
        case Some((count, _)) => count == TreeSize(body) + 2)
  }

  lemma BodyConserves(header: Header, lines: seq<string>, flow: Flow)
    requires ParseBody(header, lines, flow).Success? && WellFormed(flow.records)
    ensures var body := ParseBody(header, lines, flow).value.1;
            Conforms(body, flow.records, 0) && Conserves(lines, body, []) && |Preorder(body)| == TreeSize(body)
  {
    GroupConserves(lines, flow.records, 0);
    PreorderSize(ParseBody(header, lines, flow).value.1);
  }

  lemma RecordsAccounted(records: seq<string>, flow: Flow)
    requires (forall i :: 0 <= i < |records| ==> Ascii(records[i])) && WellFormed(flow.records)
    requires ParseRecords(records, flow).Success?
    ensures ParseRecords(records, flow).value.0.fileType == flow.fileType
    ensures Accounted(records, ParseRecords(records, flow).value.1, flow)
  {
    AcceptedRecords(records, flow);
    var header := ParseHeader(records[0]).value;
    BodyConserves(header, records[1..|records| - 1], flow);
    AccountedFrom(records, ParseBody(header, records[1..|records| - 1], flow).value.1, flow);
  }

  lemma AccountedFrom(records: seq<string>, body: seq<Node>, flow: Flow)
    requires |records| >= 2 && Conforms(body, flow.records, 0)
    requires Conserves(records[1..|records| - 1], body, []) && |Preorder(body)| == TreeSize(body)
    requires ParseFooter(records[|records| - 1]).Some? && ParseFooter(records[|records| - 1]).value.0 == |records|
    ensures Accounted(records, body, flow)
  {
    var lines := records[1..|records| - 1];
    assert forall i :: 0 <= i < |lines| ==> lines[i] == records[i + 1];
  }

  // No accepted file hides, loses or adds a record.
  lemma ParsedFileConforms(payload: Bytes, flow: Flow)
    requires ParseFile(payload, flow).Success? && WellFormed(flow.records)
    ensures ParseFile(payload, flow).value.0.fileType == flow.fileType
    ensures Accounted(RecordsOf(FromBytes(payload).value), ParseFile(payload, flow).value.1, flow)
  {
    var text := FromBytes(payload).value;
    RecordsAreValid(text);
    RecordsAccounted(RecordsOf(text), flow);
  }

  // --- count_records ----------------------------------------------------------------------

  lemma {:induction false} TreeSizeAppend(a: seq<Node>, b: seq<Node>)
    ensures TreeSize(a + b) == TreeSize(a) + TreeSize(b)
  {
    if a == [] {
      assert a + b == b;
    } else {
      TreeSizeAppend(a[1..], b);
      assert (a + b)[1..] == a[1..] + b;
    }
  }

  // Counting with a stack instead of recursion, last pushed first.
  method CountRecords(body: seq<Node>) returns (total: nat)
    ensures total == TreeSize(body)
  {
    total := 0;
    var stack := body;
    while stack != []
      invariant total + TreeSize(stack) == TreeSize(body)
      decreases TreeSize(stack)
    {
      var last := |stack| - 1;
      var node := stack[last];
      TreeSizeAppend(stack[..last], [node]);
      TreeSizeAppend(stack[..last], node.children);
      assert stack == stack[..last] + [node];
      assert [node][1..] == [];
      stack := stack[..last];
      total := total + 1;
      stack := stack + node.children;
    }
  }
}
