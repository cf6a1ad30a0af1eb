// Building and parsing files: header, body, footer.
module FileCodec {
  import opened Wrappers
  import opened Digits
  import opened Checksum
  import opened Lines
  import opened Fields
  import opened FlowSpec

  const HEADER_TYPE := "AAA"
  const FOOTER_TYPE := "ZZZ"
  const MAX_SEQUENCE: nat := 999_999_999

  const FILE_TYPE := DataType(TextKind, Some(8), None)
  const ROLE := DataType(TextKind, Some(2), None)
  const PARTICIPANT := DataType(TextKind, Some(8), None)
  const SEQUENCE := DataType(IntegerKind, Some(9), None)
  const TEST_FLAG := DataType(TextKind, Some(4), None)
  const DATETIME := DataType(DateTimeKind, None, None)

  // --- header ---------------------------------------------------------------------

  datatype RawHeader = Header(
    fileType: string,
    messageRole: string,
    creation: Value,
    fromRole: string,
    fromParticipant: string,
    toRole: string,
    toParticipant: string,
    sequenceNumber: int,
    testFlag: Option<string>)
  {
    predicate Valid() {
      (messageRole == "D" || messageRole == "R") && 0 <= sequenceNumber <= MAX_SEQUENCE
    }
  }
  type Header = h: RawHeader | h.Valid() witness Header("", "D", Absent, "", "", "", "", 0, None)

  function HeaderTexts(h: Header): seq<Option<string>> {
    [ Encode(Text(h.fileType), FILE_TYPE),
      Some(h.messageRole),
      Encode(h.creation, DATETIME),
      Encode(Text(h.fromRole), ROLE),
      Encode(Text(h.fromParticipant), PARTICIPANT),
      Encode(Text(h.toRole), ROLE),
      Encode(Text(h.toParticipant), PARTICIPANT),
      Encode(Integer(h.sequenceNumber), SEQUENCE),
      if h.testFlag.None? then Some("") else Encode(Text(h.testFlag.value), TEST_FLAG) ]
  }

  function AllSome(texts: seq<Option<string>>): (all: Option<seq<string>>)
    ensures all.Some? <==> forall i :: 0 <= i < |texts| ==> texts[i].Some?
    ensures all.Some? ==> |all.value| == |texts| && forall i :: 0 <= i < |texts| ==> all.value[i] == texts[i].value
  {
    if forall i :: 0 <= i < |texts| ==> texts[i].Some?
    then Some(seq(|texts|, i requires 0 <= i < |texts| => texts[i].value))
    else None
  }

  // Header.to_record; None where FieldError is raised.
  function HeaderRecord(h: Header): Option<string> {
    match AllSome(HeaderTexts(h))
    case None => None
    case Some(texts) => Some(JoinRecord(HEADER_TYPE, texts))
  }

  // A text that was parsed as a text data item.
  function TextIn(v: Option<Value>): Option<string> {
    if v.Some? && v.value.Text? then Some(v.value.text) else None
  }

  function NumberIn(v: Option<Value>): Option<int> {
    if v.Some? && v.value.Integer? then Some(v.value.number) else None
  }

  function HeaderOf(fileType: Option<string>, messageRole: string, creation: Option<Value>, fromRole: Option<string>,
                    fromParticipant: Option<string>, toRole: Option<string>, toParticipant: Option<string>,
                    sequence: Option<int>, testFlag: string): Option<Header>
  {
    if fileType.None? || creation.None? || fromRole.None? || fromParticipant.None? || toRole.None?
       || toParticipant.None? || sequence.None?
    then None
    else
      var h := Header(fileType.value, messageRole, creation.value, fromRole.value, fromParticipant.value,
                      toRole.value, toParticipant.value, sequence.value,
                      if testFlag == "" then None else Some(testFlag));
      if h.Valid() then Some(h) else None
  }

  function HeaderFrom(p: seq<string>): Option<Header>
    requires |p| == 9
  {
    HeaderOf(TextIn(Parse(p[0], FILE_TYPE)), p[1], Parse(p[2], DATETIME), TextIn(Parse(p[3], ROLE)),
             TextIn(Parse(p[4], PARTICIPANT)), TextIn(Parse(p[5], ROLE)), TextIn(Parse(p[6], PARTICIPANT)),
             NumberIn(Parse(p[7], SEQUENCE)), p[8])
  }

  // Header.from_record; None where FileError with response code 1 is raised.
  function ParseHeader(line: string): Option<Header> {
    match SplitRecord(line, HEADER_TYPE, 9)
    case None => None
    case Some(parts) => HeaderFrom(parts)
  }

  // --- build ------------------------------------------------------------------------

  // One record of the body, its values by item key, and the records nested in it.
  datatype Node = Node(recordType: string, values: map<string, Value>, children: seq<Node>)

  function Get(values: map<string, Value>, itemId: string): Value {
    if itemId in values then values[itemId] else Absent
  }

  function ItemIds(fields: seq<Field>): set<string> {
    set f | f in fields :: f.itemId
  }

  // The text of each item of a record, in the order of the spec.
  function ItemTexts(fields: seq<Field>, values: map<string, Value>): (texts: seq<Option<string>>)
    ensures |texts| == |fields|
    ensures forall i :: 0 <= i < |fields| ==> texts[i] == EncodeField(fields[i], Get(values, fields[i].itemId))
  {
    seq(|fields|, i requires 0 <= i < |fields| => EncodeField(fields[i], Get(values, fields[i].itemId)))
  }

  // The record's own line; None where FileError is raised.
  function BuildLine(node: Node, spec: Record): Option<string> {
    if !(node.values.Keys <= ItemIds(spec.fields)) then None
    else
      match AllSome(ItemTexts(spec.fields, node.values))
      case None => None
      case Some(texts) => Some(JoinRecord(spec.recordType, texts))
  }

  // The lines of a group of nodes, `count` of which came before under the first spec; None where
  // FileError is raised. Nodes of a type are taken greedily, in the order of the specs.
  function BuildGroup(nodes: seq<Node>, specs: seq<Record>, count: nat): Option<seq<string>>
    decreases nodes, |specs|
  {
    if specs == [] then
      if nodes == [] then Some([]) else None
    else if nodes != [] && nodes[0].recordType == specs[0].recordType then
      match (BuildLine(nodes[0], specs[0]), BuildGroup(nodes[0].children, specs[0].children, 0),
             BuildGroup(nodes[1..], specs, count + 1))
      case (Some(line), Some(inner), Some(others)) => Some([line] + inner + others)
      case _ => None
    else if specs[0].cardinality.Permits(count) then
      BuildGroup(nodes, specs[1..], 0)
    else
      None
  }

  datatype BuildError = FieldError | FileError | EncodeError | ChecksumError

  function EncodeLines(records: seq<string>): (encoded: seq<Bytes>)
    requires forall i :: 0 <= i < |records| ==> Ascii(records[i])
    ensures |encoded| == |records|
    ensures forall i :: 0 <= i < |records| ==> encoded[i] == ToBytes(records[i])
  {
    seq(|records|, i requires 0 <= i < |records| => ToBytes(records[i]))
  }

  function FooterRecord(count: nat, checksum: nat): string {
    JoinRecord(FOOTER_TYPE, [NatText(count), NatText(checksum)])
  }

  // Records and a footer as one text; every record is followed by a line feed.
  function Assemble(records: seq<string>, footer: string): string {
    Join(records + [footer], NEWLINE) + [NEWLINE]
  }

  // The records of a file without its footer.
  function BuildRecords(flow: Flow, header: Header, body: seq<Node>): Result<seq<string>, BuildError> {
    if header.fileType != flow.fileType then Failure(FileError)
    else
      match (HeaderRecord(header), BuildGroup(body, flow.records, 0))
      case (None, _) => Failure(FieldError)
      case (_, None) => Failure(FileError)
      case (Some(first), Some(lines)) =>
        var records := [first] + lines;
        if exists i :: 0 <= i < |records| && !Ascii(records[i]) then Failure(EncodeError)
        else if exists i :: 0 <= i < |records| && !ValidRecord(ToBytes(records[i])) then Failure(ChecksumError)
        else Success(records)
  }

  lemma FooterIsAscii(count: nat, checksum: nat)
    ensures Ascii(FooterRecord(count, checksum)) && NEWLINE !in FooterRecord(count, checksum)
  {
    DigitsAreClean(NatText(count));
    DigitsAreClean(NatText(checksum));
    RecordOfTwo(FOOTER_TYPE, NatText(count), NatText(checksum));
  }

  lemma {:induction false} AssembledIsAscii(lines: seq<string>)
    requires forall i :: 0 <= i < |lines| ==> Ascii(lines[i])
    ensures Ascii(Join(lines, NEWLINE) + [NEWLINE])
  {
    if |lines| > 1 {
      AssembledIsAscii(lines[1..]);
      var tail := Join(lines[1..], NEWLINE);
      assert forall i :: 0 <= i < |tail| ==> (tail + [NEWLINE])[i] == tail[i];
    }
  }

  function Build(flow: Flow, header: Header, body: seq<Node>): Result<Bytes, BuildError> {
    match BuildRecords(flow, header, body)
    case Failure(e) => Failure(e)
    case Success(records) =>
      var footer := FooterRecord(|records| + 1, FileChecksum(EncodeLines(records)));
      FooterIsAscii(|records| + 1, FileChecksum(EncodeLines(records)));
      AssembledIsAscii(records + [footer]);
      Success(ToBytes(Assemble(records, footer)))
  }

  // --- parse ------------------------------------------------------------------------

  // Values of a record's items: an item that is absent gets no key.
  function Collect(fields: seq<Field>, parsed: seq<Value>): map<string, Value>
    requires |fields| == |parsed|
  {
    if fields == [] then map[]
    else
      var n := |fields| - 1;
      var before := Collect(fields[..n], parsed[..n]);
      if parsed[n].Absent? then before else before[fields[n].itemId := parsed[n]]
  }

  function ItemValues(fields: seq<Field>, parts: seq<string>): (values: seq<Value>)
    requires |fields| == |parts|
    requires forall i :: 0 <= i < |parts| ==> ParseField(fields[i], parts[i]).Some?
    ensures |values| == |parts|
    ensures forall i :: 0 <= i < |parts| ==> values[i] == ParseField(fields[i], parts[i]).value
  {
    seq(|parts|, i requires 0 <= i < |parts| => ParseField(fields[i], parts[i]).value)
  }

  // One line as a node without children; None where FileError with response code 4 is raised.
  function ParseLine(line: string, spec: Record): Option<Node> {
    match SplitRecord(line, spec.recordType, |spec.fields|)
    case None => None
    case Some(parts) =>
      if forall i :: 0 <= i < |parts| ==> ParseField(spec.fields[i], parts[i]).Some? then
        Some(Node(spec.recordType, Collect(spec.fields, ItemValues(spec.fields, parts)), []))
      else
        None
  }

  // The nodes of a group and the lines left over; None where FileError with response code 4 is raised.
  function ParseGroup(lines: seq<string>, specs: seq<Record>, count: nat): (r: Option<(seq<Node>, seq<string>)>)
    ensures r.Some? ==> |r.value.1| <= |lines|
    decreases |lines|, |specs|
  {
    if specs == [] then
      Some(([], lines))
    else if lines != [] && IsRecordOf(lines[0], specs[0].recordType) then
      match ParseLine(lines[0], specs[0])
      case None => None
      case Some(node) =>
        (match ParseGroup(lines[1..], specs[0].children, 0)
         case None => None
         case Some((inner, rest)) =>
           match ParseGroup(rest, specs, count + 1)
           case None => None
           case Some((others, left)) => Some(([node.(children := inner)] + others, left)))
    else if specs[0].cardinality.Permits(count) then
      ParseGroup(lines, specs[1..], 0)
    else
      None
  }

  // text.split("\n") without the empty piece after a final line feed.
  function RecordsOf(text: string): seq<string> {
    var records := Split(text, NEWLINE);
    if records[|records| - 1] == "" then records[..|records| - 1] else records
  }

  lemma RecordsAreValid(text: string)
    requires Ascii(text)
    ensures forall i :: 0 <= i < |RecordsOf(text)| ==> Ascii(RecordsOf(text)[i]) && NEWLINE !in RecordsOf(text)[i]
  {
    JoinSplit(text, NEWLINE);
    PiecesAreAscii(Split(text, NEWLINE));
  }

  lemma {:induction false} PiecesAreAscii(pieces: seq<string>)
    requires Ascii(Join(pieces, NEWLINE))
    ensures forall i :: 0 <= i < |pieces| ==> Ascii(pieces[i])
  {
    if |pieces| > 1 {
      var joined, tail := Join(pieces, NEWLINE), Join(pieces[1..], NEWLINE);
      assert forall i :: 0 <= i < |pieces[0]| ==> joined[i] == pieces[0][i];
      assert forall i :: 0 <= i < |tail| ==> joined[|pieces[0]| + 1 + i] == tail[i];
      PiecesAreAscii(pieces[1..]);
      assert pieces == [pieces[0]] + pieces[1..];
    }
  }

  // The declared count and checksum of a footer; None where FileError with response code 5 is raised.
  function ParseFooter(line: string): Option<(int, int)> {
    match SplitRecord(line, FOOTER_TYPE, 2)
    case None => None
    case Some(p) =>
      match (ReadInt(p[0]), ReadInt(p[1]))
      case (Some(count), Some(checksum)) => Some((count, checksum))
      case _ => None
  }

  // The error is the response code that the reply to the file carries (section 2.2.7).
  function ParseFile(payload: Bytes, flow: Flow): Result<(Header, seq<Node>), nat> {
    match FromBytes(payload)
    case None => Failure(4)
    case Some(text) => ParseText(text, flow)
  }

  function ParseText(text: string, flow: Flow): Result<(Header, seq<Node>), nat>
    requires Ascii(text)
  {
    RecordsAreValid(text);
    ParseRecords(RecordsOf(text), flow)
  }

  function ParseRecords(records: seq<string>, flow: Flow): Result<(Header, seq<Node>), nat>
    requires forall i :: 0 <= i < |records| ==> Ascii(records[i])
  {
    if |records| < 2 then Failure(1)
    else
      var last := |records| - 1;
      match ParseHeader(records[0])
      case None => Failure(1)
      case Some(header) =>
        if header.fileType != flow.fileType then Failure(1)
        else
          match ParseFooter(records[last])
          case None => Failure(5)
          case Some((count, checksum)) =>
            if count != |records| then Failure(6)
            else if checksum != FileChecksum(EncodeLines(records[..last])) then Failure(7)
            else ParseBody(header, records[1..last], flow)
  }

  // The checks an accepted file has passed.
  lemma AcceptedRecords(records: seq<string>, flow: Flow)
    requires forall i :: 0 <= i < |records| ==> Ascii(records[i])
    requires ParseRecords(records, flow).Success?
    ensures |records| >= 2 && ParseHeader(records[0]).Some?
    ensures ParseHeader(records[0]).value.fileType == flow.fileType
    ensures ParseFooter(records[|records| - 1]) == Some((|records|, FileChecksum(EncodeLines(records[..|records| - 1]))))
    ensures ParseRecords(records, flow) == ParseBody(ParseHeader(records[0]).value, records[1..|records| - 1], flow)
  {
  }

  function ParseBody(header: Header, lines: seq<string>, flow: Flow): Result<(Header, seq<Node>), nat> {
    match ParseGroup(lines, flow.records, 0)
    case None => Failure(4)
    case Some((body, left)) => if left != [] then Failure(4) else Success((header, body))
  }
}
