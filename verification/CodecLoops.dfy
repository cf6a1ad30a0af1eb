// The loops of the builder and the parser, which take nodes and lines off a shared queue.
module CodecLoops {
  import opened Wrappers
  import opened Lines
  import opened Fields
  import opened FlowSpec
  import opened FileCodec

  class Deque<T> {
    var items: seq<T>

    constructor (items: seq<T>)
      ensures this.items == items
    {
      this.items := items;
    }

    method PopLeft() returns (first: T)
      requires items != []
      modifies this
      ensures first == old(items)[0] && items == old(items)[1..]
    {
      first := items[0];
      items := items[1..];
    }
  }

  // --- build ------------------------------------------------------------------------

  function Before(lines: seq<string>, rest: Option<seq<string>>): Option<seq<string>> {
    match rest
    case None => None
    case Some(more) => Some(lines + more)
  }

  // A run of nodes of the first spec's type that is not permitted fails, whatever its nodes hold.
  lemma {:induction false} RunNotPermitted(run: seq<Node>, rest: seq<Node>, specs: seq<Record>, count: nat)
    requires specs != [] && forall n :: n in run ==> n.recordType == specs[0].recordType
    requires rest == [] || rest[0].recordType != specs[0].recordType
    requires !specs[0].cardinality.Permits(count + |run|)
    ensures BuildGroup(run + rest, specs, count).None?
  {
    if run == [] {
      assert run + rest == rest;
    } else {
      assert (run + rest)[1..] == run[1..] + rest;
      RunNotPermitted(run[1..], rest, specs, count + 1);
    }
  }

  lemma FirstOfRun(lines: seq<string>, built: Option<seq<string>>, node: Node, nodes: seq<Node>, specs: seq<Record>,
                   count: nat)
    requires nodes != [] && specs != [] && node == nodes[0] && node.recordType == specs[0].recordType
    requires built == BuildRecordSpec(node, specs[0])
    ensures Before(lines, BuildGroup(nodes, specs, count)) ==
            if built.None? then None else Before(lines + built.value, BuildGroup(nodes[1..], specs, count + 1))
  {
    var others := BuildGroup(nodes[1..], specs, count + 1);
    if built.Some? && others.Some? {
      assert lines + (built.value + others.value) == lines + built.value + others.value;
    }
  }

  // The lines of one node and everything under it.
  function BuildRecordSpec(node: Node, spec: Record): Option<seq<string>> {
    match (BuildLine(node, spec), BuildGroup(node.children, spec.children, 0))
    case (Some(line), Some(inner)) => Some([line] + inner)
    case _ => None
  }

  method BuildRecordLines(node: Node, spec: Record) returns (lines: Option<seq<string>>)
    requires node.recordType == spec.recordType
    ensures lines == BuildRecordSpec(node, spec)
    decreases node, 0
  {
    var line := BuildLine(node, spec);
    var inner := BuildGroupLines(node.children, spec.children);
    lines := if line.Some? && inner.Some? then Some([line.value] + inner.value) else None;
  }

  method TakeRun(remaining: Deque<Node>, recordType: string) returns (run: seq<Node>)
    modifies remaining
    ensures old(remaining.items) == run + remaining.items
    ensures forall n :: n in run ==> n.recordType == recordType
    ensures remaining.items == [] || remaining.items[0].recordType != recordType
  {
    run := [];
    while remaining.items != [] && remaining.items[0].recordType == recordType
      invariant old(remaining.items) == run + remaining.items
      invariant forall n :: n in run ==> n.recordType == recordType
      decreases |remaining.items|
    {
      var node := remaining.PopLeft();
      run := run + [node];
    }
  }

  // The lines of a run are what stands before the lines of the rest of the group.
  method BuildRun(run: seq<Node>, specs: seq<Record>, ghost rest: seq<Node>, ghost all: seq<Node>)
    returns (lines: Option<seq<string>>)
    requires specs != [] && forall n :: n in run ==> n.recordType == specs[0].recordType
    requires forall n :: n in run ==> n in all
    ensures BuildGroup(run + rest, specs, 0) ==
            if lines.None? then None else Before(lines.value, BuildGroup(rest, specs, |run|))
    decreases all, 1
  {
    var done: seq<string> := [];
    assert run[0..] == run;
    NothingBefore(BuildGroup(run + rest, specs, 0));
    for j := 0 to |run|
      invariant BuildGroup(run + rest, specs, 0) == Before(done, BuildGroup(run[j..] + rest, specs, j))
    {
      assert run[j] in all;
      var built := BuildRecordLines(run[j], specs[0]);
      FirstOfRun(done, built, run[j], run[j..] + rest, specs, j);
      assert (run[j..] + rest)[1..] == run[j + 1..] + rest;
      if built.None? {
        return None;
      }
      done := done + built.value;
    }
    assert run[|run|..] + rest == rest;
    return Some(done);
  }

  lemma NothingBefore(built: Option<seq<string>>)
    ensures Before([], built) == built
  {
    if built.Some? {
      assert [] + built.value == built.value;
    }
  }

  lemma BeforeTwice(a: seq<string>, b: seq<string>, built: Option<seq<string>>)
    ensures Before(a, Before(b, built)) == Before(a + b, built)
  {
    if built.Some? {
      assert a + (b + built.value) == a + b + built.value;
    }
  }

  // The loop over specs and runs computes BuildGroup.
  method BuildGroupLines(nodes: seq<Node>, specs: seq<Record>) returns (result: Option<seq<string>>)
    ensures result == BuildGroup(nodes, specs, 0)
    decreases nodes, 2
  {
    var remaining := new Deque(nodes);
    var lines: seq<string> := [];
    assert specs[0..] == specs;
    NothingBefore(BuildGroup(nodes, specs, 0));
    for i := 0 to |specs|
      invariant fresh(remaining)
      invariant forall n :: n in remaining.items ==> n in nodes
      invariant BuildGroup(nodes, specs, 0) == Before(lines, BuildGroup(remaining.items, specs[i..], 0))
    {
      var matched := TakeRun(remaining, specs[i].recordType);
      ghost var rest := remaining.items;
      if !specs[i].cardinality.Permits(|matched|) {
        RunNotPermitted(matched, rest, specs[i..], 0);
        return None;
      }
      var built := BuildRun(matched, specs[i..], rest, nodes);
      if built.None? {
        return None;
      }
      assert specs[i..][1..] == specs[i + 1..];
      BeforeTwice(lines, built.value, BuildGroup(rest, specs[i + 1..], 0));
      lines := lines + built.value;
    }
    assert specs[|specs|..] == [];
    if remaining.items != [] {
      return None;
    }
    assert lines + [] == lines;
    return Some(lines);
  }

  // --- parse ------------------------------------------------------------------------

  function AfterNodes(nodes: seq<Node>, rest: Option<(seq<Node>, seq<string>)>): Option<(seq<Node>, seq<string>)> {
    match rest
    case None => None
    case Some((more, left)) => Some((nodes + more, left))
  }

  lemma NodeParsed(nodes: seq<Node>, lines: seq<string>, specs: seq<Record>, count: nat, node: Node,
                   inner: Option<(seq<Node>, seq<string>)>)
    requires lines != [] && specs != [] && IsRecordOf(lines[0], specs[0].recordType)
    requires ParseLine(lines[0], specs[0]) == Some(node)
    requires inner == ParseGroup(lines[1..], specs[0].children, 0)
    ensures AfterNodes(nodes, ParseGroup(lines, specs, count)) ==
            if inner.None? then None
            else AfterNodes(nodes + [node.(children := inner.value.0)], ParseGroup(inner.value.1, specs, count + 1))
  {
    if inner.Some? {
      var others := ParseGroup(inner.value.1, specs, count + 1);
      if others.Some? {
        var whole := node.(children := inner.value.0);
        assert nodes + ([whole] + others.value.0) == nodes + [whole] + others.value.0;
      }
    }
  }

  // The loop over specs and the lines at the head of the queue computes ParseGroup.
  method ParseGroupNodes(lines: Deque<string>, specs: seq<Record>) returns (result: Option<seq<Node>>)
    modifies lines
    ensures match ParseGroup(old(lines.items), specs, 0)
            case None => result.None?
            case Some((nodes, left)) => result == Some(nodes) && lines.items == left
    decreases |lines.items|
  {
    var nodes: seq<Node> := [];
    ghost var start := lines.items;
    assert specs[0..] == specs;
    assert ParseGroup(start, specs, 0).Some? ==> [] + ParseGroup(start, specs, 0).value.0 == ParseGroup(start, specs, 0).value.0;
    for i := 0 to |specs|
      invariant |lines.items| <= |start|
      invariant ParseGroup(start, specs, 0) == AfterNodes(nodes, ParseGroup(lines.items, specs[i..], 0))
    {
      var spec, count := specs[i], 0;
      while lines.items != [] && IsRecordOf(lines.items[0], spec.recordType)
        invariant |lines.items| <= |start|
        invariant ParseGroup(start, specs, 0) == AfterNodes(nodes, ParseGroup(lines.items, specs[i..], count))
        decreases |lines.items|
      {
        ghost var queue := lines.items;
        var line := lines.PopLeft();
        var node := ParseLine(line, spec);
        if node.None? {
          return None;
        }
        var children := ParseGroupNodes(lines, spec.children);
        NodeParsed(nodes, queue, specs[i..], count, node.value, ParseGroup(queue[1..], spec.children, 0));
        if children.None? {
          return None;
        }
        nodes := nodes + [node.value.(children := children.value)];
        count := count + 1;
      }
      if !spec.cardinality.Permits(count) {
        return None;
      }
      assert specs[i..][1..] == specs[i + 1..];
    }
    assert nodes + [] == nodes;
    return Some(nodes);
  }
}
