// Build once, send many: reserve, build, archive, record, hand over, and hand over again.
module Sender {
  import opened Wrappers
  import opened Digits
  import opened Checksum
  import opened Lines
  import opened Fields
  import opened FlowSpec
  import opened FileCodec
  import opened RoundTrip
  import opened FileTables
  import opened Archive
  import opened SendRuns

  // The header of a file, with the number of its row. An empty test flag is left out.
  function HeaderFor(j: Job, sequence: Sequence): Header {
    Header(j.flow.fileType, "D", Moment(true, j.day, j.at), j.channel.fromRole, j.channel.fromParticipant,
           j.channel.toRole, j.channel.toParticipant, sequence,
           if j.channel.testFlag == "" then None else Some(j.channel.testFlag))
  }

  function DayOf(created: Value): Date {
    if created.Moment? then created.day else Date(1, 1, 1)
  }

  function KeyFor(created: Value, filename: string, id: nat): string {
    ObjectKey("outbound", DayOf(created), filename, id)
  }

  // --- the footer read back ---------------------------------------------------------------

  // payload.rstrip(b"\r\n")
  function StripLineEnds(text: string): string {
    if text != "" && (text[|text| - 1] == '\n' || text[|text| - 1] == '\r') then StripLineEnds(text[..|text| - 1]) else text
  }

  // text.rsplit("\n", 1)[-1]
  function LastLine(text: string): (line: string)
    ensures NEWLINE !in line
  {
    if text == "" || text[|text| - 1] == NEWLINE then "" else LastLine(text[..|text| - 1]) + [text[|text| - 1]]
  }

  function FooterFields(text: string): seq<string> {
    Split(LastLine(StripLineEnds(text)), SEPARATOR)
  }

  lemma {:induction false} LastLineOf(a: string, line: string)
    requires NEWLINE !in line
    ensures LastLine(a + [NEWLINE] + line) == line && LastLine(line) == line
  {
    var text := a + [NEWLINE] + line;
    if line != "" {
      var n := |line| - 1;
      LastLineOf(a, line[..n]);
      assert text[..|text| - 1] == a + [NEWLINE] + line[..n];
      assert line == line[..n] + [line[n]];
    }
  }

  // A joined text that ends with a line: the line is the last one.
  lemma {:induction false} JoinEndsWith(records: seq<string>, footer: string)
    requires records != []
    ensures exists head: string :: Join(records + [footer], NEWLINE) == head + [NEWLINE] + footer
  {
    var all := records + [footer];
    if |records| == 1 {
      assert all[1..] == [footer];
      assert Join(all, NEWLINE) == records[0] + [NEWLINE] + footer;
    } else {
      JoinEndsWith(records[1..], footer);
      var head: string :| Join(records[1..] + [footer], NEWLINE) == head + [NEWLINE] + footer;
      assert all[1..] == records[1..] + [footer];
      assert Join(all, NEWLINE) == (records[0] + [NEWLINE] + head) + [NEWLINE] + footer;
    }
  }

  lemma StripOneLineEnd(text: string)
    requires text != "" && text[|text| - 1] == SEPARATOR
    ensures StripLineEnds(text + [NEWLINE]) == text
  {
    assert (text + [NEWLINE])[..|text|] == text;
  }

  // The count and the checksum a built file declares, as they are recorded in its row.
  function Declared(payload: Bytes): Option<(int, int)> {
    match FromBytes(payload)
    case None => None
    case Some(text) => DeclaredIn(FooterFields(text))
  }

  function DeclaredIn(fields: seq<string>): Option<(int, int)> {
    if |fields| < 3 then None
    else
      match (ReadInt(fields[1]), ReadInt(fields[2]))
      case (Some(count), Some(checksum)) => Some((count, checksum))
      case _ => None
  }

  lemma NumbersAreDeclared(count: nat, checksum: nat)
    ensures DeclaredIn([FOOTER_TYPE, NatText(count), NatText(checksum), ""]) == Some((count, checksum))
  {
    ReadIntOfText(count);
    ReadIntOfText(checksum);
  }

  lemma SplitFirst(a: string, rest: string, parts: seq<string>)
    requires SEPARATOR !in a && Split(rest, SEPARATOR) == parts
    ensures Split(a + [SEPARATOR] + rest, SEPARATOR) == [a] + parts
  {
    SplitPrefix(a, rest, SEPARATOR);
  }

  lemma SplitThree(t: string, a: string, b: string)
    requires SEPARATOR !in t && SEPARATOR !in a && SEPARATOR !in b
    ensures Split(t + [SEPARATOR] + a + [SEPARATOR] + b + [SEPARATOR], SEPARATOR) == [t, a, b, ""]
  {
    var last := b + [SEPARATOR] + "";
    var both := a + [SEPARATOR] + last;
    SplitFirst(b, "", [""]);
    SplitFirst(a, last, [b, ""]);
    SplitFirst(t, both, [a, b, ""]);
    assert t + [SEPARATOR] + both == t + [SEPARATOR] + a + [SEPARATOR] + b + [SEPARATOR];
  }

  lemma FooterTextOf(count: nat, checksum: nat)
    ensures var footer := FooterRecord(count, checksum);
            && footer != "" && footer[|footer| - 1] == SEPARATOR
            && Split(footer, SEPARATOR) == [FOOTER_TYPE, NatText(count), NatText(checksum), ""]
  {
    var a, b := NatText(count), NatText(checksum);
    RecordOfTwo(FOOTER_TYPE, a, b);
    DigitsAreClean(a);
    DigitsAreClean(b);
    SplitThree(FOOTER_TYPE, a, b);
  }

  lemma FooterIsDeclared(head: string, count: nat, checksum: nat)
    ensures FooterFields(head + [NEWLINE] + FooterRecord(count, checksum) + [NEWLINE])
         == [FOOTER_TYPE, NatText(count), NatText(checksum), ""]
  {
    var footer := FooterRecord(count, checksum);
    FooterTextOf(count, checksum);
    FooterIsAscii(count, checksum);
    StripOneLineEnd(head + [NEWLINE] + footer);
    LastLineOf(head, footer);
  }

  // What is recorded of a built file is what its footer declares: the number of its records and the
  // checksum of those before the footer.
  lemma DeclaredOfBuilt(flow: Flow, header: Header, body: seq<Node>)
    requires Build(flow, header, body).Success?
    ensures var records := BuildRecords(flow, header, body).value;
            Declared(Build(flow, header, body).value) == Some((|records| + 1, FileChecksum(EncodeLines(records))))
  {
    var records, footer := BuiltFile(flow, header, body);
    DeclaredOfText(Build(flow, header, body).value, records, |records| + 1, FileChecksum(EncodeLines(records)));
  }

  lemma DeclaredOfText(payload: Bytes, records: seq<string>, count: nat, checksum: nat)
    requires records != [] && FromBytes(payload) == Some(Assemble(records, FooterRecord(count, checksum)))
    ensures Declared(payload) == Some((count, checksum))
  {
    var footer := FooterRecord(count, checksum);
    JoinEndsWith(records, footer);
    var head: string :| Join(records + [footer], NEWLINE) == head + [NEWLINE] + footer;
    FooterIsDeclared(head, count, checksum);
    NumbersAreDeclared(count, checksum);
  }

  // --- the office -----------------------------------------------------------------------------

  function Render(j: Job, sequence: Sequence): Option<Bytes> {
    match Build(j.flow, HeaderFor(j, sequence), j.body)
    case Failure(_) => None
    case Success(payload) => Some(payload)
  }

  function Locate(bucket: Bucket, uri: string): Option<string> {
    match SplitUri(uri)
    case None => None
    case Some((b, key)) => if b == bucket then Some(key) else None
  }

  // Building a file, its key in the archive and reading its header and footer, as the sender does them.
  function NetaOffice(bucket: Bucket): Office {
    Office(Render, KeyFor, k => UriOf(bucket, k), u => Locate(bucket, u), Declared, SequenceIn)
  }

  lemma KeyIsLocated(bucket: Bucket, created: Value, filename: string, id: nat)
    ensures Locate(bucket, UriOf(bucket, KeyFor(created, filename, id))) == Some(KeyFor(created, filename, id))
  {
    UriRoundTrip(bucket, KeyFor(created, filename, id));
  }

  lemma RenderedCarriesNumber(j: Job, n: Sequence)
    requires Render(j, n).Some?
    ensures SequenceIn(Render(j, n).value) == Some(n)
  {
    SequenceSurvives(j.flow, HeaderFor(j, n), j.body);
  }

  lemma NetaOfficeIsSound(bucket: Bucket)
    ensures NetaOffice(bucket).Sound()
  {
    var o := NetaOffice(bucket);
    forall c: Value, f: string, i: nat, d: Value, g: string, j: nat | o.key(c, f, i) == o.key(d, g, j) ensures i == j {
      KeysDiffer("outbound", DayOf(c), f, i, DayOf(d), g, j);
    }
    forall c: Value, f: string, i: nat ensures o.locate(o.uri(o.key(c, f, i))) == Some(o.key(c, f, i)) {
      KeyIsLocated(bucket, c, f, i);
    }
    forall j: Job, n: Sequence | o.render(j, n).Some? ensures o.number(o.render(j, n).value) == Some(n) {
      RenderedCarriesNumber(j, n);
    }
  }

  // The archive read by URI is the archive read by the key the URI leads to.
  lemma RetryReadsTheStore(bucket: Bucket, world: World, id: nat)
    requires id in world.t.files && Retryable(world.t.files[id].state) && world.t.files[id].uri.Some?
    ensures RetryPayload(NetaOffice(bucket), world, id) ==
            match Lookup(world.objects, bucket, world.t.files[id].uri.value)
            case Success(payload) => Some(payload)
            case Failure(_) => None
  {
  }

  // For every run of senders, failures and retries: a file's every hand-off carried the same bytes, those
  // under its archive key, and their header has the sequence number of its row.
  lemma FilesAreSentAsBuilt(bucket: Bucket, m: Machine, i: nat, j: nat)
    requires Reachable(NetaOffice(bucket), m) && i < |m.world.wire| && j < |m.world.wire|
    ensures var h := m.world.wire[i];
            && h.id in m.world.t.files
            && KeyFor(m.world.t.files[h.id].created, h.filename, h.id) in m.world.objects
            && h.payload == m.world.objects[KeyFor(m.world.t.files[h.id].created, h.filename, h.id)]
            && SequenceIn(h.payload) == Some(m.world.t.files[h.id].sequence)
    ensures m.world.wire[i].id == m.world.wire[j].id ==> m.world.wire[i].payload == m.world.wire[j].payload
  {
    NetaOfficeIsSound(bucket);
    BuildOnceSendMany(NetaOffice(bucket), m, i, j);
  }
}
