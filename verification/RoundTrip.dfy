// What is built can be parsed, and what comes back is what went in.
module RoundTrip {
  import opened Wrappers
  import opened Digits
  import opened Checksum
  import opened Lines
  import opened Fields
  import opened FlowSpec
  import opened FileCodec

  // --- what comes back ----------------------------------------------------------------

  // The same values; an item without a value counts as missing.
  ghost predicate ReturnedItems(a: map<string, Value>, b: map<string, Value>) {
    forall k: string :: Returned(Get(a, k), Get(b, k))
  }

  // a is the forest b as a file gives it back.
  ghost predicate ReturnedForest(a: seq<Node>, b: seq<Node>) {
    |a| == |b| &&
    (a != [] ==>
       && a[0].recordType == b[0].recordType
       && ReturnedItems(a[0].values, b[0].values)
       && ReturnedForest(a[0].children, b[0].children)
       && ReturnedForest(a[1..], b[1..]))
  }

  predicate FaithfulItems(fields: seq<Field>, values: map<string, Value>) {
    forall i :: 0 <= i < |fields| ==> Faithful(fields[i].dataType, Get(values, fields[i].itemId))
  }

  // Every value of the forest is faithful to the data type of its item.
  predicate FaithfulForest(nodes: seq<Node>, specs: seq<Record>)
    decreases nodes, |specs|
  {
    if specs == [] || nodes == [] then true
    else if nodes[0].recordType == specs[0].recordType then
      && FaithfulItems(specs[0].fields, nodes[0].values)
      && FaithfulForest(nodes[0].children, specs[0].children)
      && FaithfulForest(nodes[1..], specs)
    else FaithfulForest(nodes, specs[1..])
  }

  predicate FaithfulHeader(h: Header) {
    Faithful(DATETIME, h.creation) && h.testFlag != Some("")
  }

  // --- one line -----------------------------------------------------------------------

  lemma {:induction false} CollectGets(fields: seq<Field>, parsed: seq<Value>)
    requires |fields| == |parsed| && DistinctItems(fields)
    ensures Collect(fields, parsed).Keys <= ItemIds(fields)
    ensures forall i :: 0 <= i < |fields| ==> Get(Collect(fields, parsed), fields[i].itemId) == parsed[i]
  {
    if fields != [] {
      var n := |fields| - 1;
      CollectGets(fields[..n], parsed[..n]);
      assert fields == fields[..n] + [fields[n]];
      assert fields[n].itemId !in ItemIds(fields[..n]);
    }
  }

  lemma CollectedIsSame(fields: seq<Field>, parsed: seq<Value>, values: map<string, Value>)
    requires |fields| == |parsed| && DistinctItems(fields) && values.Keys <= ItemIds(fields)
    requires forall i :: 0 <= i < |fields| ==>
               (Returned(parsed[i], Get(values, fields[i].itemId)) <==> Faithful(fields[i].dataType, Get(values, fields[i].itemId)))
    ensures ReturnedItems(Collect(fields, parsed), values) <==> FaithfulItems(fields, values)
  {
    CollectGets(fields, parsed);
    var m := Collect(fields, parsed);
    if FaithfulItems(fields, values) {
      forall k: string ensures Returned(Get(m, k), Get(values, k)) {
        if k in ItemIds(fields) {
          var f :| f in fields && f.itemId == k;
          var i :| 0 <= i < |fields| && fields[i] == f;
          assert Get(m, fields[i].itemId) == parsed[i];
        }
      }
    }
    if ReturnedItems(m, values) {
      forall i | 0 <= i < |fields| ensures Faithful(fields[i].dataType, Get(values, fields[i].itemId)) {
        assert Returned(Get(m, fields[i].itemId), Get(values, fields[i].itemId));
      }
    }
  }

  // What parsing made of a built line, against the node it was built from.
  ghost predicate LineComesBack(parsed: Option<Node>, node: Node, spec: Record) {
    && (FaithfulItems(spec.fields, node.values) ==> parsed.Some?)
    && (parsed.Some? ==>
          && parsed.value.recordType == spec.recordType
          && parsed.value.children == []
          && (ReturnedItems(parsed.value.values, node.values) <==> FaithfulItems(spec.fields, node.values)))
  }

  lemma LineRoundTrip(node: Node, spec: Record)
    requires BuildLine(node, spec).Some?
    requires spec.fields != [] && DistinctItems(spec.fields) && SEPARATOR !in spec.recordType
    ensures IsRecordOf(BuildLine(node, spec).value, spec.recordType)
    ensures LineComesBack(ParseLine(BuildLine(node, spec).value, spec), node, spec)
  {
    var fields := spec.fields;
    var encoded := ItemTexts(fields, node.values);
    var texts := AllSome(encoded).value;
    assert BuildLine(node, spec).value == JoinRecord(spec.recordType, texts);
    JoinedIsRecordOf(spec.recordType, texts);
    forall i | 0 <= i < |texts|
      ensures texts[i] == EncodeField(fields[i], Get(node.values, fields[i].itemId)).value
      ensures SEPARATOR !in texts[i]
      ensures var w := ParseField(fields[i], texts[i]);
              (w.Some? && Returned(w.value, Get(node.values, fields[i].itemId)))
              <==> Faithful(fields[i].dataType, Get(node.values, fields[i].itemId))
    {
      assert encoded[i].Some?;
      FieldIsClean(fields[i], Get(node.values, fields[i].itemId));
      FieldRoundTrip(fields[i], Get(node.values, fields[i].itemId));
    }
    SplitRecordJoined(spec.recordType, texts);
    if forall i :: 0 <= i < |texts| ==> ParseField(fields[i], texts[i]).Some? {
      CollectedIsSame(fields, ItemValues(fields, texts), node.values);
    }
  }

  // --- the body -----------------------------------------------------------------------

  // The lines that come after a group: none, or first a record of a type that may follow it.
  predicate Follows(rest: seq<string>, follow: set<string>) {
    rest == [] || exists t :: t in follow && SEPARATOR !in t && IsRecordOf(rest[0], t)
  }

  // The first line built for a group is of the first node's type.
  lemma {:induction false} FirstLine(nodes: seq<Node>, specs: seq<Record>, count: nat)
    requires BuildGroup(nodes, specs, count).Some?
    ensures nodes == [] <==> BuildGroup(nodes, specs, count).value == []
    ensures nodes != [] ==>
              && nodes[0].recordType in Types(specs)
              && IsRecordOf(BuildGroup(nodes, specs, count).value[0], nodes[0].recordType)
    decreases |specs|
  {
    if specs != [] {
      if nodes != [] && nodes[0].recordType == specs[0].recordType {
        JoinedIsRecordOf(specs[0].recordType, AllSome(ItemTexts(specs[0].fields, nodes[0].values)).value);
      } else {
        FirstLine(nodes, specs[1..], 0);
      }
    }
  }

  lemma BuiltFollows(nodes: seq<Node>, specs: seq<Record>, count: nat, follow: set<string>, rest: seq<string>)
    requires BuildGroup(nodes, specs, count).Some? && WellFormed(specs) && Follows(rest, follow)
    ensures Follows(BuildGroup(nodes, specs, count).value + rest, follow + Types(specs))
  {
    FirstLine(nodes, specs, count);
    var lines := BuildGroup(nodes, specs, count).value;
    if nodes == [] {
      assert lines + rest == rest;
      if rest != [] {
        var t :| t in follow && SEPARATOR !in t && IsRecordOf(rest[0], t);
        assert t in follow + Types(specs);
      }
    } else {
      assert nodes[0].recordType in follow + Types(specs);
    }
  }

  // What parsing made of built lines, against the nodes they were built from.
  ghost predicate GroupComesBack(parsed: Option<(seq<Node>, seq<string>)>, nodes: seq<Node>, specs: seq<Record>,
                                 rest: seq<string>) {
    && (FaithfulForest(nodes, specs) ==> parsed.Some?)
    && (parsed.Some? ==>
          && parsed.value.1 == rest
          && (ReturnedForest(parsed.value.0, nodes) <==> FaithfulForest(nodes, specs)))
  }

  // The lines of a group, followed by anything that may follow it, parse to the group and the rest.
  lemma {:induction false} GroupRoundTrip(nodes: seq<Node>, specs: seq<Record>, count: nat, follow: set<string>,
                                          rest: seq<string>)
    requires BuildGroup(nodes, specs, count).Some?
    requires WellFormed(specs) && Unambiguous(specs, follow) && Follows(rest, follow)
    ensures GroupComesBack(ParseGroup(BuildGroup(nodes, specs, count).value + rest, specs, count), nodes, specs, rest)
    decreases nodes, |specs|
  {
    if specs == [] {
      assert BuildGroup(nodes, specs, count).value + rest == rest;
    } else if nodes != [] && nodes[0].recordType == specs[0].recordType {
      var line, inner, others := BuiltNode(nodes, specs, count);
      BuiltFollows(nodes[1..], specs, count + 1, follow, rest);
      GroupRoundTrip(nodes[0].children, specs[0].children, 0, follow + Types(specs), others + rest);
      GroupRoundTrip(nodes[1..], specs, count + 1, follow, rest);
      LineRoundTrip(nodes[0], specs[0]);
      NodeComesBack(line, inner + (others + rest), others + rest, nodes, specs, count, rest);
      Regroup(line, inner, others, rest);
    } else {
      GroupRoundTrip(nodes, specs[1..], 0, follow, rest);
      SpecRoundTrip(nodes, specs, count, follow, rest);
    }
  }

  lemma Regroup(line: string, inner: seq<string>, others: seq<string>, rest: seq<string>)
    ensures [line] + inner + others + rest == [line] + (inner + (others + rest))
  {
  }

  lemma SpecRoundTrip(nodes: seq<Node>, specs: seq<Record>, count: nat, follow: set<string>, rest: seq<string>)
    requires specs != [] && WellFormed(specs) && Unambiguous(specs, follow) && Follows(rest, follow)
    requires !(nodes != [] && nodes[0].recordType == specs[0].recordType) && BuildGroup(nodes, specs, count).Some?
    requires GroupComesBack(ParseGroup(BuildGroup(nodes, specs[1..], 0).value + rest, specs[1..], 0), nodes, specs[1..], rest)
    ensures GroupComesBack(ParseGroup(BuildGroup(nodes, specs, count).value + rest, specs, count), nodes, specs, rest)
  {
    var lines := BuildGroup(nodes, specs[1..], 0).value;
    FirstLine(nodes, specs[1..], 0);
    assert nodes == [] ==> lines + rest == rest;
    SpecComesBack(lines + rest, nodes, specs, count, follow, rest);
  }

  lemma BuiltNode(nodes: seq<Node>, specs: seq<Record>, count: nat) returns (line: string, inner: seq<string>,
                  others: seq<string>)
    requires nodes != [] && specs != [] && nodes[0].recordType == specs[0].recordType
    requires BuildGroup(nodes, specs, count).Some?
    ensures BuildLine(nodes[0], specs[0]) == Some(line)
    ensures BuildGroup(nodes[0].children, specs[0].children, 0) == Some(inner)
    ensures BuildGroup(nodes[1..], specs, count + 1) == Some(others)
    ensures BuildGroup(nodes, specs, count).value == [line] + inner + others
  {
    line, inner, others := BuildLine(nodes[0], specs[0]).value, BuildGroup(nodes[0].children, specs[0].children, 0).value,
                           BuildGroup(nodes[1..], specs, count + 1).value;
  }

  lemma SpecComesBack(all: seq<string>, nodes: seq<Node>, specs: seq<Record>, count: nat, follow: set<string>,
                      rest: seq<string>)
    requires specs != [] && WellFormed(specs) && Unambiguous(specs, follow) && Follows(rest, follow)
    requires specs[0].cardinality.Permits(count)
    requires nodes == [] ==> all == rest
    requires nodes != [] ==>
               && nodes[0].recordType != specs[0].recordType && nodes[0].recordType in Types(specs[1..])
               && all != [] && IsRecordOf(all[0], nodes[0].recordType)
    requires GroupComesBack(ParseGroup(all, specs[1..], 0), nodes, specs[1..], rest)
    ensures GroupComesBack(ParseGroup(all, specs, count), nodes, specs, rest)
  {
    NotOfFirstSpec(all, nodes, specs, follow, rest);
  }

  lemma NotOfFirstSpec(all: seq<string>, nodes: seq<Node>, specs: seq<Record>, follow: set<string>, rest: seq<string>)
    requires specs != [] && WellFormed(specs) && Unambiguous(specs, follow) && Follows(rest, follow)
    requires nodes == [] ==> all == rest
    requires nodes != [] ==>
               && nodes[0].recordType != specs[0].recordType && nodes[0].recordType in Types(specs[1..])
               && all != [] && IsRecordOf(all[0], nodes[0].recordType)
    ensures all == [] || !IsRecordOf(all[0], specs[0].recordType)
  {
    if all != [] && IsRecordOf(all[0], specs[0].recordType) {
      if nodes == [] {
        var t :| t in follow && SEPARATOR !in t && IsRecordOf(rest[0], t);
        OneRecordType(all[0], t, specs[0].recordType);
      } else {
        OneRecordType(all[0], nodes[0].recordType, specs[0].recordType);
      }
    }
  }

  lemma NodeComesBack(line: string, tail: seq<string>, afterInner: seq<string>,
                      nodes: seq<Node>, specs: seq<Record>, count: nat, rest: seq<string>)
    requires specs != [] && nodes != [] && nodes[0].recordType == specs[0].recordType
    requires IsRecordOf(line, specs[0].recordType)
    requires LineComesBack(ParseLine(line, specs[0]), nodes[0], specs[0])
    requires GroupComesBack(ParseGroup(tail, specs[0].children, 0), nodes[0].children, specs[0].children, afterInner)
    requires GroupComesBack(ParseGroup(afterInner, specs, count + 1), nodes[1..], specs, rest)
    ensures GroupComesBack(ParseGroup([line] + tail, specs, count), nodes, specs, rest)
  {
    var all := [line] + tail;
    assert all[1..] == tail && all[0] == line;
    var first, inner := ParseLine(line, specs[0]), ParseGroup(tail, specs[0].children, 0);
    if first.Some? && inner.Some? {
      var others := ParseGroup(afterInner, specs, count + 1);
      if others.Some? {
        var node := first.value.(children := inner.value.0);
        assert ParseGroup(all, specs, count) == Some(([node] + others.value.0, rest));
        assert ([node] + others.value.0)[1..] == others.value.0;
      }
    }
  }

  // --- the header ---------------------------------------------------------------------

  lemma TextRoundTrip(s: string, dt: DataType)
    requires dt.kind.TextKind? && Encode(Text(s), dt).Some?
    ensures Encode(Text(s), dt).value == s && Parse(s, dt) == Some(Text(s)) && SEPARATOR !in s
  {
    EncodedIsClean(Text(s), dt);
  }

  lemma HeaderTextsAt(h: Header, texts: seq<string>)
    requires AllSome(HeaderTexts(h)) == Some(texts)
    ensures |texts| == 9 && forall i :: 0 <= i < 9 ==> HeaderTexts(h)[i] == Some(texts[i])
    ensures texts[0] == h.fileType && texts[1] == h.messageRole && texts[3] == h.fromRole
    ensures texts[4] == h.fromParticipant && texts[5] == h.toRole && texts[6] == h.toParticipant
    ensures texts[8] == if h.testFlag.None? then "" else h.testFlag.value
  {
    var encoded := HeaderTexts(h);
    assert forall i :: 0 <= i < 9 ==> encoded[i] == Some(texts[i]);
    assert encoded[0].Some? && encoded[3].Some? && encoded[4].Some? && encoded[5].Some? && encoded[6].Some? && encoded[8].Some?;
  }

  // The nine fields of a header record, when all of them encode.
  lemma HeaderFields(h: Header) returns (texts: seq<string>)
    requires HeaderRecord(h).Some?
    ensures |texts| == 9
    ensures texts == [h.fileType, h.messageRole, texts[2], h.fromRole, h.fromParticipant,
                      h.toRole, h.toParticipant, texts[7], if h.testFlag.None? then "" else h.testFlag.value]
    ensures HeaderRecord(h) == Some(JoinRecord(HEADER_TYPE, texts))
    ensures forall i :: 0 <= i < 9 ==> HeaderTexts(h)[i] == Some(texts[i])
  {
    texts := AllSome(HeaderTexts(h)).value;
    HeaderTextsAt(h, texts);
  }

  lemma HeaderTextsParse(h: Header, texts: seq<string>)
    requires |texts| == 9 && forall i :: 0 <= i < 9 ==> HeaderTexts(h)[i] == Some(texts[i])
    ensures Parse(texts[0], FILE_TYPE) == Some(Text(h.fileType))
    ensures Parse(texts[3], ROLE) == Some(Text(h.fromRole))
    ensures Parse(texts[4], PARTICIPANT) == Some(Text(h.fromParticipant))
    ensures Parse(texts[5], ROLE) == Some(Text(h.toRole))
    ensures Parse(texts[6], PARTICIPANT) == Some(Text(h.toParticipant))
  {
    var t := HeaderTexts(h);
    assert t[0].Some? && t[3].Some? && t[4].Some? && t[5].Some? && t[6].Some?;
    TextRoundTrip(h.fileType, FILE_TYPE);
    TextRoundTrip(h.fromRole, ROLE);
    TextRoundTrip(h.fromParticipant, PARTICIPANT);
    TextRoundTrip(h.toRole, ROLE);
    TextRoundTrip(h.toParticipant, PARTICIPANT);
  }

  lemma HeaderValuesParse(h: Header, creation: string, sequence: string)
    requires Encode(h.creation, DATETIME) == Some(creation)
    requires Encode(Integer(h.sequenceNumber), SEQUENCE) == Some(sequence)
    ensures Parse(sequence, SEQUENCE) == Some(Integer(h.sequenceNumber))
    ensures Parse(creation, DATETIME).Some?
    ensures Parse(creation, DATETIME).value == h.creation <==> Faithful(DATETIME, h.creation)
  {
    ValueRoundTrip(h.creation, DATETIME);
    IntegerRoundTrip(h.sequenceNumber, SEQUENCE);
  }

  // What a header that encodes is parsed back as: a header of its file type and sequence number, the
  // same header exactly when it is faithful.
  predicate HeaderReturned(h: Header, back: Option<Header>) {
    && back.Some?
    && back.value.fileType == h.fileType
    && back.value.sequenceNumber == h.sequenceNumber
    && (back.value == h <==> FaithfulHeader(h))
  }

  lemma HeaderFromTexts(h: Header, texts: seq<string>)
    requires |texts| == 9 && forall i :: 0 <= i < 9 ==> HeaderTexts(h)[i] == Some(texts[i])
    requires texts[1] == h.messageRole && texts[8] == if h.testFlag.None? then "" else h.testFlag.value
    ensures HeaderReturned(h, HeaderFrom(texts))
  {
    HeaderTextsParse(h, texts);
    HeaderValuesParse(h, texts[2], texts[7]);
    HeaderOfParsed(h, Parse(texts[2], DATETIME));
  }

  lemma EncodesWithoutSeparator(v: Value, dt: DataType)
    ensures Encode(v, dt).Some? ==> SEPARATOR !in Encode(v, dt).value
  {
    if Encode(v, dt).Some? {
      EncodedIsClean(v, dt);
    }
  }

  lemma HeaderTextsSplit(h: Header, texts: seq<string>)
    requires |texts| == 9 && forall i :: 0 <= i < 9 ==> HeaderTexts(h)[i] == Some(texts[i])
    requires texts[1] == h.messageRole
    ensures forall i :: 0 <= i < 9 ==> SEPARATOR !in texts[i]
  {
    EncodesWithoutSeparator(Text(h.fileType), FILE_TYPE);
    EncodesWithoutSeparator(h.creation, DATETIME);
    EncodesWithoutSeparator(Text(h.fromRole), ROLE);
    EncodesWithoutSeparator(Text(h.fromParticipant), PARTICIPANT);
    EncodesWithoutSeparator(Text(h.toRole), ROLE);
    EncodesWithoutSeparator(Text(h.toParticipant), PARTICIPANT);
    EncodesWithoutSeparator(Integer(h.sequenceNumber), SEQUENCE);
    if h.testFlag.Some? {
      EncodesWithoutSeparator(Text(h.testFlag.value), TEST_FLAG);
    }
  }

  lemma HeaderOfParsed(h: Header, creation: Option<Value>)
    requires creation.Some? && (creation.value == h.creation <==> Faithful(DATETIME, h.creation))
    ensures HeaderReturned(h, HeaderOf(Some(h.fileType), h.messageRole, creation, Some(h.fromRole),
                                       Some(h.fromParticipant), Some(h.toRole), Some(h.toParticipant),
                                       Some(h.sequenceNumber), if h.testFlag.None? then "" else h.testFlag.value))
  {
  }

  lemma HeaderOfTexts(texts: seq<string>)
    requires |texts| == 9 && forall i :: 0 <= i < 9 ==> SEPARATOR !in texts[i]
    ensures ParseHeader(JoinRecord(HEADER_TYPE, texts)) == HeaderFrom(texts)
  {
    SplitRecordJoined(HEADER_TYPE, texts);
  }

  lemma HeaderRoundTrip(h: Header)
    requires HeaderRecord(h).Some?
    ensures HeaderReturned(h, ParseHeader(HeaderRecord(h).value))
  {
    var texts := HeaderFields(h);
    HeaderFromTexts(h, texts);
    HeaderTextsSplit(h, texts);
    HeaderOfTexts(texts);
  }

  // --- the file -----------------------------------------------------------------------

  lemma FooterRoundTrip(count: nat, checksum: nat)
    ensures ParseFooter(FooterRecord(count, checksum)) == Some((count, checksum))
  {
    DigitsAreClean(NatText(count));
    DigitsAreClean(NatText(checksum));
    SplitRecordJoined(FOOTER_TYPE, [NatText(count), NatText(checksum)]);
    ReadIntOfText(count);
    ReadIntOfText(checksum);
  }

  // The records of an assembled file are the ones it was assembled from.
  lemma RecordsOfAssembled(records: seq<string>, footer: string)
    requires forall i :: 0 <= i < |records| ==> NEWLINE !in records[i]
    requires NEWLINE !in footer
    ensures RecordsOf(Assemble(records, footer)) == records + [footer]
  {
    var all := records + [footer];
    SplitJoin(all, NEWLINE);
    SplitAppend(Join(all, NEWLINE), "", NEWLINE);
    assert Assemble(records, footer) == Join(all, NEWLINE) + [NEWLINE] + "";
    assert (all + [""])[..|all|] == all;
  }

  lemma BuiltRecordsAreValid(flow: Flow, header: Header, body: seq<Node>)
    requires BuildRecords(flow, header, body).Success?
    ensures var records := BuildRecords(flow, header, body).value;
            && records != []
            && HeaderRecord(header) == Some(records[0])
            && BuildGroup(body, flow.records, 0) == Some(records[1..])
            && forall i :: 0 <= i < |records| ==> Ascii(records[i]) && NEWLINE !in records[i]
  {
    var records := BuildRecords(flow, header, body).value;
    forall i | 0 <= i < |records| ensures NEWLINE !in records[i] {
      assert ValidRecord(ToBytes(records[i]));
      forall j | 0 <= j < |records[i]| ensures records[i][j] != NEWLINE {
        assert ToBytes(records[i])[j] != LF;
      }
    }
  }

  // The text of a built file, its records and its footer.
  lemma BuiltFile(flow: Flow, header: Header, body: seq<Node>) returns (records: seq<string>, footer: string)
    requires Build(flow, header, body).Success?
    ensures BuildRecords(flow, header, body) == Success(records) && records != []
    ensures forall i :: 0 <= i < |records| ==> Ascii(records[i]) && NEWLINE !in records[i]
    ensures footer == FooterRecord(|records| + 1, FileChecksum(EncodeLines(records)))
    ensures Ascii(footer) && NEWLINE !in footer
    ensures FromBytes(Build(flow, header, body).value) == Some(Assemble(records, footer))
    ensures RecordsOf(Assemble(records, footer)) == records + [footer]
  {
    records := BuildRecords(flow, header, body).value;
    footer := FooterRecord(|records| + 1, FileChecksum(EncodeLines(records)));
    BuiltRecordsAreValid(flow, header, body);
    FooterIsAscii(|records| + 1, FileChecksum(EncodeLines(records)));
    AssembledIsAscii(records + [footer]);
    FromToBytes(Assemble(records, footer));
    RecordsOfAssembled(records, footer);
  }

  // The file comes back as it went in.
  ghost predicate ComesBack(payload: Bytes, flow: Flow, header: Header, body: seq<Node>) {
    match ParseFile(payload, flow)
    case Success((h, nodes)) => h == header && ReturnedForest(nodes, body)
    case Failure(_) => false
  }

  lemma RecordsComeBack(flow: Flow, header: Header, body: seq<Node>, records: seq<string>, footer: string)
    requires BuildRecords(flow, header, body) == Success(records)
    requires forall i :: 0 <= i < |records| ==> Ascii(records[i])
    requires footer == FooterRecord(|records| + 1, FileChecksum(EncodeLines(records))) && Ascii(footer)
    ensures records != [] && HeaderRecord(header) == Some(records[0]) && ParseHeader(records[0]).Some?
    ensures ParseRecords(records + [footer], flow) == ParseBody(ParseHeader(records[0]).value, records[1..], flow)
  {
    BuiltRecordsAreValid(flow, header, body);
    HeaderRoundTrip(header);
    FooterRoundTrip(|records| + 1, FileChecksum(EncodeLines(records)));
    CheckedRecords(records, footer, flow);
  }

  // What passes every check of header and footer is parsed as its body is.
  lemma CheckedRecords(records: seq<string>, footer: string, flow: Flow)
    requires records != [] && (forall i :: 0 <= i < |records| ==> Ascii(records[i])) && Ascii(footer)
    requires ParseHeader(records[0]).Some? && ParseHeader(records[0]).value.fileType == flow.fileType
    requires ParseFooter(footer) == Some((|records| + 1, FileChecksum(EncodeLines(records))))
    ensures ParseRecords(records + [footer], flow) == ParseBody(ParseHeader(records[0]).value, records[1..], flow)
  {
    var all := records + [footer];
    assert all[..|all| - 1] == records && all[1..|all| - 1] == records[1..] && all[0] == records[0];
  }

  // For every unambiguous flow: what was built is parsed back as the same header and the same forest
  // exactly when every value in it is faithful.
  lemma FileRoundTrip(flow: Flow, header: Header, body: seq<Node>)
    requires Build(flow, header, body).Success?
    requires WellFormed(flow.records) && Unambiguous(flow.records, {})
    ensures ComesBack(Build(flow, header, body).value, flow, header, body)
        <==> FaithfulHeader(header) && FaithfulForest(body, flow.records)
  {
    var records, footer := BuiltFile(flow, header, body);
    RecordsComeBack(flow, header, body, records, footer);
    BuiltRecordsAreValid(flow, header, body);
    HeaderRoundTrip(header);
    GroupRoundTrip(body, flow.records, 0, {}, []);
    assert records[1..] + [] == records[1..];
  }

  // The sequence number in the header of a file.
  function SequenceIn(payload: Bytes): Option<int> {
    match FromBytes(payload)
    case None => None
    case Some(text) =>
      var records := RecordsOf(text);
      if records == [] then None
      else
        match ParseHeader(records[0])
        case None => None
        case Some(h) => Some(h.sequenceNumber)
  }

  // Whatever the flow and the values, a built file carries the sequence number of its header.
  lemma SequenceSurvives(flow: Flow, header: Header, body: seq<Node>)
    requires Build(flow, header, body).Success?
    ensures SequenceIn(Build(flow, header, body).value) == Some(header.sequenceNumber)
  {
    var records, footer := BuiltFile(flow, header, body);
    BuiltRecordsAreValid(flow, header, body);
    HeaderRoundTrip(header);
    assert (records + [footer])[0] == records[0];
  }

  // --- why the flow must be unambiguous --------------------------------------------------

  const ONE_TEXT := [Field("N0001", DataType(TextKind, Some(1), None), Mandatory)]
  const ANY := Cardinality(0, None, false)

  const INNER := Record("C", ANY, ONE_TEXT, [])
  const OUTER := Record("P", ANY, ONE_TEXT, [INNER])
  const C_NODE := Node("C", map["N0001" := Text("x")], [])
  const P_NODE := Node("P", map["N0001" := Text("x")], [])

  // A type that may stand inside a record and also after it: a C that followed its P comes back inside it.
  lemma AmbiguousFlowLosesStructure()
    ensures WellFormed([OUTER, INNER]) && !Unambiguous([OUTER, INNER], {})
    ensures BuildGroup([P_NODE, C_NODE], [OUTER, INNER], 0) == Some(["P|x|", "C|x|"])
    ensures ParseGroup(["P|x|", "C|x|"], [OUTER, INNER], 0) == Some(([P_NODE.(children := [C_NODE])], []))
  {
    OuterIsAmbiguous();
    OneTextLine(P_NODE, OUTER);
    OneTextLine(C_NODE, INNER);
    assert "P" + "|x|" == "P|x|" && "C" + "|x|" == "C|x|";
    BuildsSideBySide();
    ParsesNested();
  }

  lemma OuterIsAmbiguous()
    ensures WellFormed([OUTER, INNER]) && !Unambiguous([OUTER, INNER], {})
  {
    assert forall s :: s in [OUTER, INNER] ==> s == OUTER || s == INNER;
    assert INNER in [OUTER, INNER] && "C" in Types([OUTER, INNER]);
    assert !Unambiguous([INNER], {} + Types([OUTER, INNER]));
  }

  lemma BuildsSideBySide()
    requires BuildLine(P_NODE, OUTER) == Some("P|x|") && BuildLine(C_NODE, INNER) == Some("C|x|")
    ensures BuildGroup([P_NODE, C_NODE], [OUTER, INNER], 0) == Some(["P|x|", "C|x|"])
  {
    assert [OUTER, INNER][1..] == [INNER] && [P_NODE, C_NODE][1..] == [C_NODE];
    BuildsOne(C_NODE, INNER);
    assert BuildGroup([C_NODE], [OUTER, INNER], 1) == BuildGroup([C_NODE], [INNER], 0);
    assert [INNER][1..] == [] && BuildGroup([], [INNER], 0) == BuildGroup([], [], 0) == Some([]);
    assert ["P|x|"] + [] + ["C|x|"] == ["P|x|", "C|x|"];
  }

  lemma ParsesNested()
    requires ParseLine("P|x|", OUTER) == Some(P_NODE) && ParseLine("C|x|", INNER) == Some(C_NODE)
    requires IsRecordOf("P|x|", "P") && IsRecordOf("C|x|", "C")
    ensures ParseGroup(["P|x|", "C|x|"], [OUTER, INNER], 0) == Some(([P_NODE.(children := [C_NODE])], []))
  {
    assert [OUTER, INNER][1..] == [INNER] && [INNER][1..] == [];
    assert ["P|x|", "C|x|"][1..] == ["C|x|"] && ["C|x|"][1..] == [];
    assert ParseGroup([], [INNER], 1) == ParseGroup([], [], 0) == Some(([], []));
    assert [C_NODE.(children := [])] + [] == [C_NODE];
    assert ParseGroup(["C|x|"], [INNER], 0) == Some(([C_NODE], []));
    assert ParseGroup([], [OUTER, INNER], 1) == ParseGroup([], [INNER], 0) == Some(([], []));
    assert [P_NODE.(children := [C_NODE])] + [] == [P_NODE.(children := [C_NODE])];
  }

  lemma BuildsOne(n: Node, spec: Record)
    requires n.recordType == spec.recordType == "C" && n.children == [] && spec.children == []
    requires spec.cardinality == ANY
    requires BuildLine(n, spec) == Some("C|x|")
    ensures BuildGroup([n], [spec], 0) == Some(["C|x|"])
  {
    assert [n][1..] == [] && [spec][1..] == [];
    assert BuildGroup([], [spec], 1) == BuildGroup([], [], 0) == Some([]);
    assert ["C|x|"] + [] + [] == ["C|x|"];
  }

  lemma OneTextLine(node: Node, spec: Record)
    requires node.values == map["N0001" := Text("x")] && node.children == [] && spec.fields == ONE_TEXT
    requires node.recordType == spec.recordType && (spec.recordType == "P" || spec.recordType == "C")
    ensures BuildLine(node, spec) == Some(spec.recordType + "|x|")
    ensures IsRecordOf(spec.recordType + "|x|", "P") <==> spec.recordType == "P"
    ensures IsRecordOf(spec.recordType + "|x|", "C") <==> spec.recordType == "C"
    ensures ParseLine(spec.recordType + "|x|", spec) == Some(node)
  {
    var f := ONE_TEXT[0];
    assert f in ONE_TEXT && f.itemId in ItemIds(ONE_TEXT);
    var texts := ItemTexts(ONE_TEXT, node.values);
    assert Get(node.values, f.itemId) == Text("x");
    assert texts == [Some("x")];
    assert AllSome(texts).Some? && AllSome(texts).value == ["x"];
    assert JoinRecord(spec.recordType, ["x"]) == spec.recordType + "|x|";
    SplitRecordJoined(spec.recordType, ["x"]);
    assert ParseField(ONE_TEXT[0], "x") == Some(Text("x"));
    assert ItemValues(ONE_TEXT, ["x"]) == [Text("x")];
    assert Collect(ONE_TEXT, [Text("x")]) == node.values by {
      assert ONE_TEXT[..0] == [] && [Text("x")][..0] == [];
      assert Collect([], []) == map[];
    }
    assert (spec.recordType + "|x|")[0] == spec.recordType[0];
  }
}
