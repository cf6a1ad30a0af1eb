// When a file can be built.
module BuildSuccess {
  import opened Wrappers
  import opened Digits
  import opened Checksum
  import opened Lines
  import opened Fields
  import opened FlowSpec
  import opened FileCodec
  import opened RoundTrip
  import D = Decimals

  // Record types made of printable ASCII without separators, at every depth.
  predicate CleanTypes(specs: seq<Record>) {
    forall s :: s in specs ==> Clean(s.recordType) && CleanTypes(s.children)
  }

  predicate Printable(line: string) {
    forall i :: 0 <= i < |line| ==> ' ' <= line[i] <= '~'
  }

  lemma {:induction false} JoinIsPrintable(texts: seq<string>)
    requires forall i :: 0 <= i < |texts| ==> Clean(texts[i])
    ensures Printable(Join(texts, SEPARATOR))
  {
    if |texts| > 1 {
      JoinIsPrintable(texts[1..]);
    }
  }

  lemma RecordIsPrintable(recordType: string, texts: seq<string>)
    requires Clean(recordType) && forall i :: 0 <= i < |texts| ==> Clean(texts[i])
    ensures Printable(JoinRecord(recordType, texts))
  {
    JoinIsPrintable(texts);
  }

  lemma LineIsPrintable(node: Node, spec: Record)
    requires BuildLine(node, spec).Some? && Clean(spec.recordType)
    ensures Printable(BuildLine(node, spec).value)
  {
    var encoded := ItemTexts(spec.fields, node.values);
    var texts := AllSome(encoded).value;
    forall i | 0 <= i < |texts| ensures Clean(texts[i]) {
      assert encoded[i].Some?;
      FieldIsClean(spec.fields[i], Get(node.values, spec.fields[i].itemId));
    }
    RecordIsPrintable(spec.recordType, texts);
  }

  lemma {:induction false} GroupIsPrintable(nodes: seq<Node>, specs: seq<Record>, count: nat)
    requires BuildGroup(nodes, specs, count).Some? && CleanTypes(specs)
    ensures forall line :: line in BuildGroup(nodes, specs, count).value ==> Printable(line)
    decreases nodes, |specs|
  {
    if specs != [] {
      if nodes != [] && nodes[0].recordType == specs[0].recordType {
        var line, inner, others := BuiltNode(nodes, specs, count);
        LineIsPrintable(nodes[0], specs[0]);
        GroupIsPrintable(nodes[0].children, specs[0].children, 0);
        GroupIsPrintable(nodes[1..], specs, count + 1);
      } else {
        GroupIsPrintable(nodes, specs[1..], 0);
      }
    }
  }

  lemma HeaderIsPrintable(h: Header)
    requires HeaderRecord(h).Some?
    ensures Printable(HeaderRecord(h).value)
  {
    var texts := HeaderFields(h);
    forall i | 0 <= i < 9 ensures Clean(texts[i]) {
      HeaderTextIsClean(h, i);
    }
    RecordIsPrintable(HEADER_TYPE, texts);
  }

  lemma HeaderTextIsClean(h: Header, i: nat)
    requires i < 9 && HeaderTexts(h)[i].Some?
    ensures Clean(HeaderTexts(h)[i].value)
  {
    if i == 0 { EncodedIsClean(Text(h.fileType), FILE_TYPE); }
    else if i == 2 { EncodedIsClean(h.creation, DATETIME); }
    else if i == 3 { EncodedIsClean(Text(h.fromRole), ROLE); }
    else if i == 4 { EncodedIsClean(Text(h.fromParticipant), PARTICIPANT); }
    else if i == 5 { EncodedIsClean(Text(h.toRole), ROLE); }
    else if i == 6 { EncodedIsClean(Text(h.toParticipant), PARTICIPANT); }
    else if i == 7 { EncodedIsClean(Integer(h.sequenceNumber), SEQUENCE); }
    else if i == 8 && h.testFlag.Some? { EncodedIsClean(Text(h.testFlag.value), TEST_FLAG); }
  }

  lemma PrintableIsValid(line: string)
    requires Printable(line)
    ensures Ascii(line) && ValidRecord(ToBytes(line))
  {
    var b := ToBytes(line);
    forall i | 0 <= i < |b| ensures b[i] != LF && b[i] <= 0x7F {
      assert ' ' <= line[i] <= '~';
    }
  }

  // --- which values encode ----------------------------------------------------------

  predicate TextFits(text: string, limit: Option<nat>) {
    && (limit.Some? ==> |text| <= limit.value)
    && (forall i :: 0 <= i < |text| ==> Allowed(text[i]))
    && (text != "" ==> !IsSpace(text[0]) && !IsSpace(text[|text| - 1]))
  }

  // The values a data type can hold.
  predicate ValueFits(v: Value, dt: DataType) {
    match dt.kind
    case NullKind => v.Absent?
    case TextKind => v.Text? && TextFits(v.text, dt.length)
    case CharKind => v.Text? && TextFits(v.text, Some(1))
    case IntegerKind => v.Integer? && (dt.length.Some? ==> WithinDigits(v.number, dt.length.value))
    case DecimalKind =>
      && v.Number? && v.decimal.Finite? && dt.length.Some? && dt.decimals.Some?
      && D.Fits(D.CanonicalOf(D.Rounded(v.decimal)), dt.length.value, dt.decimals.value)
    case BooleanKind => v.Truth?
    case DateKind => v.Day?
    case DateTimeKind => v.Moment? && v.aware
    case TimeKind => v.Clock?
    case TimestampKind => v.Clock?
    case OtherKind(_) => false
  }

  predicate WithinDigits(i: int, digits: nat) {
    digits > 0 && -(Pow10(digits) as int) < i < Pow10(digits)
  }

  lemma EncodesWhen(v: Value, dt: DataType)
    ensures Encode(v, dt).Some? <==> ValueFits(v, dt)
  {
    match dt.kind {
      case IntegerKind =>
        if v.Integer? && dt.length.Some? && dt.length.value > 0 {
          DigitCount(if v.number < 0 then -v.number else v.number, dt.length.value);
        }
      case DecimalKind =>
        if v.Number? && dt.length.Some? && dt.decimals.Some? {
          D.EncodeIsCanonical(v.decimal, dt.length.value, dt.decimals.value);
        }
      case _ =>
    }
  }

  // A data item holds a value of its type where it may, and none where it may not.
  predicate ItemFits(v: Value, f: Field) {
    match f.presence
    case Unused => v.Absent?
    case Optional => v.Absent? || ValueFits(v, f.dataType)
    case Mandatory => !v.Absent? && ValueFits(v, f.dataType)
  }

  predicate ItemsFit(values: map<string, Value>, fields: seq<Field>) {
    && values.Keys <= ItemIds(fields)
    && forall i :: 0 <= i < |fields| ==> ItemFits(Get(values, fields[i].itemId), fields[i])
  }

  lemma LineBuildsWhen(node: Node, spec: Record)
    ensures BuildLine(node, spec).Some? <==> ItemsFit(node.values, spec.fields)
  {
    forall i | 0 <= i < |spec.fields|
      ensures ItemTexts(spec.fields, node.values)[i].Some?
         <==> ItemFits(Get(node.values, spec.fields[i].itemId), spec.fields[i])
    {
      EncodesWhen(Get(node.values, spec.fields[i].itemId), spec.fields[i].dataType);
    }
  }

  predicate HeaderFits(h: Header) {
    && TextFits(h.fileType, Some(8))
    && h.creation.Moment? && h.creation.aware
    && TextFits(h.fromRole, Some(2)) && TextFits(h.fromParticipant, Some(8))
    && TextFits(h.toRole, Some(2)) && TextFits(h.toParticipant, Some(8))
    && (h.testFlag.Some? ==> TextFits(h.testFlag.value, Some(4)))
  }

  lemma HeaderTextsWhen(h: Header)
    ensures var t := HeaderTexts(h);
            && (t[0].Some? <==> TextFits(h.fileType, Some(8))) && t[1].Some?
            && (t[2].Some? <==> h.creation.Moment? && h.creation.aware)
            && (t[3].Some? <==> TextFits(h.fromRole, Some(2))) && (t[4].Some? <==> TextFits(h.fromParticipant, Some(8)))
            && (t[5].Some? <==> TextFits(h.toRole, Some(2))) && (t[6].Some? <==> TextFits(h.toParticipant, Some(8)))
            && t[7].Some? && (t[8].Some? <==> h.testFlag.Some? ==> TextFits(h.testFlag.value, Some(4)))
  {
    EncodesWhen(Text(h.fileType), FILE_TYPE);
    EncodesWhen(h.creation, DATETIME);
    EncodesWhen(Text(h.fromRole), ROLE);
    EncodesWhen(Text(h.fromParticipant), PARTICIPANT);
    EncodesWhen(Text(h.toRole), ROLE);
    EncodesWhen(Text(h.toParticipant), PARTICIPANT);
    SequenceFits(h.sequenceNumber);
    if h.testFlag.Some? {
      EncodesWhen(Text(h.testFlag.value), TEST_FLAG);
    }
  }

  lemma SequenceFits(n: int)
    requires 0 <= n <= MAX_SEQUENCE
    ensures Encode(Integer(n), SEQUENCE).Some?
  {
    NineDigits();
    DigitCount(n, 9);
  }

  lemma NineDigits()
    ensures Pow10(9) == MAX_SEQUENCE + 1
  {
    assert Pow10(3) == 1000 && Pow10(6) == 1000 * Pow10(3);
  }

  lemma HeaderEncodesWhen(h: Header)
    ensures HeaderRecord(h).Some? <==> HeaderFits(h)
  {
    HeaderTextsWhen(h);
    var t := HeaderTexts(h);
    if HeaderFits(h) {
      assert forall i :: 0 <= i < 9 ==> t[i].Some? by {
        assert t[0].Some? && t[1].Some? && t[2].Some? && t[3].Some? && t[4].Some?;
        assert t[5].Some? && t[6].Some? && t[7].Some? && t[8].Some?;
      }
    } else {
      assert t[0].None? || t[2].None? || t[3].None? || t[4].None? || t[5].None? || t[6].None? || t[8].None?;
    }
  }

  // --- which forests are in the grammar ------------------------------------------------

  // The nodes divide at `cuts` into one run for each spec, in the order of the specs: all of its type, as
  // long as they last, and as many as its cardinality permits, `count` of the first having gone before.
  predicate Divides(cuts: seq<nat>, nodes: seq<Node>, specs: seq<Record>, count: nat) {
    && |cuts| == |specs| + 1 && cuts[0] == 0 && cuts[|specs|] == |nodes|
    && forall k :: 0 <= k < |specs| ==> IsRun(cuts[k], cuts[k + 1], nodes, specs[k], if k == 0 then count else 0)
  }

  predicate IsRun(from: nat, to: nat, nodes: seq<Node>, spec: Record, count: nat) {
    && from <= to <= |nodes|
    && (forall i :: from <= i < to ==> nodes[i].recordType == spec.recordType)
    && (to < |nodes| ==> nodes[to].recordType != spec.recordType)
    && spec.cardinality.Permits(count + to - from)
  }

  ghost predicate NodeFits(node: Node, spec: Record)
    decreases node, 1
  {
    ItemsFit(node.values, spec.fields) && InGrammar(node.children, spec.children, 0)
  }

  // Record types in spec order, permitted cardinalities, and items that fit, at every level.
  ghost predicate InGrammar(nodes: seq<Node>, specs: seq<Record>, count: nat)
    decreases nodes, 0
  {
    exists cuts: seq<nat> ::
      && Divides(cuts, nodes, specs, count)
      && forall k, i :: 0 <= k < |specs| && cuts[k] <= i < cuts[k + 1] && i < |nodes| ==> NodeFits(nodes[i], specs[k])
  }

  ghost predicate Division(cuts: seq<nat>, nodes: seq<Node>, specs: seq<Record>, count: nat) {
    && Divides(cuts, nodes, specs, count)
    && forall k, i :: 0 <= k < |specs| && cuts[k] <= i < cuts[k + 1] && i < |nodes| ==> NodeFits(nodes[i], specs[k])
  }

  lemma DivisionOf(nodes: seq<Node>, specs: seq<Record>, count: nat) returns (cuts: seq<nat>)
    requires InGrammar(nodes, specs, count)
    ensures Division(cuts, nodes, specs, count)
  {
    cuts :| Divides(cuts, nodes, specs, count)
         && forall k, i :: 0 <= k < |specs| && cuts[k] <= i < cuts[k + 1] && i < |nodes| ==> NodeFits(nodes[i], specs[k]);
  }

  function Moved(cuts: seq<nat>, d: int): seq<int> {
    seq(|cuts|, k requires 0 <= k < |cuts| => if k == 0 then 0 else cuts[k] + d)
  }

  lemma {:induction false} TakeOne(nodes: seq<Node>, specs: seq<Record>, count: nat)
    requires specs != [] && nodes != [] && nodes[0].recordType == specs[0].recordType
    ensures InGrammar(nodes, specs, count) ==> NodeFits(nodes[0], specs[0]) && InGrammar(nodes[1..], specs, count + 1)
  {
    if InGrammar(nodes, specs, count) {
      var cuts := DivisionOf(nodes, specs, count);
      assert IsRun(cuts[0], cuts[1], nodes, specs[0], count);
      assert cuts[1] > 0;
      CutsGrow(cuts, nodes, specs, count);
      var less: seq<nat> := Moved(cuts, -1);
      forall k | 0 <= k < |specs|
        ensures IsRun(less[k], less[k + 1], nodes[1..], specs[k], if k == 0 then count + 1 else 0)
        ensures forall i :: less[k] <= i < less[k + 1] ==> NodeFits(nodes[1..][i], specs[k])
      {
        assert IsRun(cuts[k], cuts[k + 1], nodes, specs[k], if k == 0 then count else 0);
      }
      assert Division(less, nodes[1..], specs, count + 1);
    }
  }

  lemma {:induction false} PutOne(nodes: seq<Node>, specs: seq<Record>, count: nat)
    requires specs != [] && nodes != [] && nodes[0].recordType == specs[0].recordType
    requires NodeFits(nodes[0], specs[0]) && InGrammar(nodes[1..], specs, count + 1)
    ensures InGrammar(nodes, specs, count)
  {
    var cuts := DivisionOf(nodes[1..], specs, count + 1);
    var more: seq<nat> := Moved(cuts, 1);
    forall k | 0 <= k < |specs|
      ensures IsRun(more[k], more[k + 1], nodes, specs[k], if k == 0 then count else 0)
      ensures forall i :: more[k] <= i < more[k + 1] ==> NodeFits(nodes[i], specs[k])
    {
      assert IsRun(cuts[k], cuts[k + 1], nodes[1..], specs[k], if k == 0 then count + 1 else 0);
      forall i | more[k] <= i < more[k + 1] ensures nodes[i].recordType == specs[k].recordType && NodeFits(nodes[i], specs[k]) {
        assert i > 0 ==> nodes[i] == nodes[1..][i - 1];
      }
    }
    assert Division(more, nodes, specs, count);
  }

  lemma {:induction false} CutsGrow(cuts: seq<nat>, nodes: seq<Node>, specs: seq<Record>, count: nat)
    requires Divides(cuts, nodes, specs, count)
    ensures forall k :: 0 < k < |cuts| ==> cuts[1] <= cuts[k]
  {
    var k := 1;
    while k < |cuts|
      invariant 1 <= k <= |cuts| || |cuts| == 1
      invariant forall j :: 0 < j < k && j < |cuts| ==> cuts[1] <= cuts[j]
    {
      if k > 1 {
        assert IsRun(cuts[k - 1], cuts[k], nodes, specs[k - 1], 0);
      }
      k := k + 1;
    }
  }

  // The first run is over.
  lemma {:induction false} NextSpec(nodes: seq<Node>, specs: seq<Record>, count: nat)
    requires specs != [] && !(nodes != [] && nodes[0].recordType == specs[0].recordType)
    ensures InGrammar(nodes, specs, count) <==> specs[0].cardinality.Permits(count) && InGrammar(nodes, specs[1..], 0)
  {
    if InGrammar(nodes, specs, count) {
      var cuts := DivisionOf(nodes, specs, count);
      assert IsRun(cuts[0], cuts[1], nodes, specs[0], count);
      assert cuts[1] == 0;
      forall k | 0 <= k < |specs[1..]| ensures IsRun(cuts[1..][k], cuts[1..][k + 1], nodes, specs[1..][k], 0) {
        assert IsRun(cuts[k + 1], cuts[k + 2], nodes, specs[k + 1], 0);
      }
      assert Division(cuts[1..], nodes, specs[1..], 0);
    }
    if specs[0].cardinality.Permits(count) && InGrammar(nodes, specs[1..], 0) {
      var cuts := DivisionOf(nodes, specs[1..], 0);
      var more := [0] + cuts;
      forall k | 0 <= k < |specs| ensures IsRun(more[k], more[k + 1], nodes, specs[k], if k == 0 then count else 0) {
        if k > 0 {
          assert IsRun(cuts[k - 1], cuts[k], nodes, specs[1..][k - 1], 0);
        }
      }
      assert Division(more, nodes, specs, count);
    }
  }

  // A group is built exactly when it is in the grammar.
  lemma {:induction false} GroupBuildsWhen(nodes: seq<Node>, specs: seq<Record>, count: nat)
    ensures BuildGroup(nodes, specs, count).Some? <==> InGrammar(nodes, specs, count)
    decreases nodes, |specs|
  {
    if specs == [] {
      if nodes == [] {
        assert Division([0], nodes, specs, count);
      }
    } else if nodes != [] && nodes[0].recordType == specs[0].recordType {
      LineBuildsWhen(nodes[0], specs[0]);
      GroupBuildsWhen(nodes[0].children, specs[0].children, 0);
      GroupBuildsWhen(nodes[1..], specs, count + 1);
      TakeOne(nodes, specs, count);
      if NodeFits(nodes[0], specs[0]) && InGrammar(nodes[1..], specs, count + 1) {
        PutOne(nodes, specs, count);
      }
    } else {
      GroupBuildsWhen(nodes, specs[1..], 0);
      NextSpec(nodes, specs, count);
    }
  }

  // --- which files are built -----------------------------------------------------------

  // For a flow with printable record types, nothing is left to go wrong once the body has been built.
  lemma BodyDecides(flow: Flow, header: Header, body: seq<Node>)
    requires CleanTypes(flow.records)
    ensures Build(flow, header, body).Success? <==>
            header.fileType == flow.fileType && HeaderRecord(header).Some? && BuildGroup(body, flow.records, 0).Some?
  {
    if header.fileType == flow.fileType && HeaderRecord(header).Some? && BuildGroup(body, flow.records, 0).Some? {
      var first, lines := HeaderRecord(header).value, BuildGroup(body, flow.records, 0).value;
      var records := [first] + lines;
      HeaderIsPrintable(header);
      GroupIsPrintable(body, flow.records, 0);
      forall i | 0 <= i < |records| ensures Ascii(records[i]) && ValidRecord(ToBytes(records[i])) {
        assert records[i] == first || records[i] in lines;
        PrintableIsValid(records[i]);
      }
    }
  }

  // A file is built exactly when it is of the flow's type, its header fields fit, and its body is in the
  // flow's grammar with items that fit.
  lemma BuildSucceeds(flow: Flow, header: Header, body: seq<Node>)
    requires CleanTypes(flow.records)
    ensures Build(flow, header, body).Success? <==>
            header.fileType == flow.fileType && HeaderFits(header) && InGrammar(body, flow.records, 0)
  {
    BodyDecides(flow, header, body);
    HeaderEncodesWhen(header);
    GroupBuildsWhen(body, flow.records, 0);
  }
}
