// The contract volume notification (E0041) and the wholesale market activity notification (E0511).
module Notifications {
  import opened Wrappers
  import opened Digits
  import opened Scaling
  import opened Lines
  import opened Fields
  import opened FlowSpec
  import opened FileCodec
  import opened RoundTrip
  import opened BuildSuccess
  import D = Decimals

  const TEXT10 := DataType(TextKind, Some(10), None)
  const TEXT11 := DataType(TextKind, Some(11), None)
  const DATE := DataType(DateKind, None, None)
  const BOOLEAN := DataType(BooleanKind, None, None)
  const INTEGER2 := DataType(IntegerKind, Some(2), None)
  const DECIMAL10_3 := DataType(DecimalKind, Some(10), Some(3))

  const ONCE := Cardinality(1, Some(1), false)

  // --- the flows ----------------------------------------------------------------------

  const OTD := Record("OTD", Cardinality(0, Some(1), false), [Field("N0483", BOOLEAN, Mandatory)], [])
  const CD9 := Record("CD9", Cardinality(0, None, false),
                      [Field("N0201", INTEGER2, Mandatory), Field("N0085", DECIMAL10_3, Mandatory)], [])
  const EDN := Record("EDN", ONCE,
                      [ Field("N0080", TEXT10, Mandatory), Field("N0297", TEXT10, Mandatory),
                        Field("N0310", TEXT10, Mandatory), Field("N0077", TEXT10, Mandatory),
                        Field("N0081", DATE, Mandatory), Field("N0083", DATE, Optional) ],
                      [OTD, CD9])
  const ECVN_FLOW := Flow("E0041001", [EDN])

  const WMA := Record("WMA", Cardinality(1, None, false),
                      [Field("N0034", TEXT11, Mandatory), Field("N0652", BOOLEAN, Mandatory)], [])
  const SDP := Record("SDP", ONCE, [Field("N0200", DATE, Mandatory), Field("N0201", INTEGER2, Mandatory)], [WMA])
  const WMAN_FLOW := Flow("E0511001", [SDP])

  lemma EcvnFlowIsUnambiguous()
    ensures Unambiguous(ECVN_FLOW.records, {})
  {
    assert [EDN][1..] == [] && [OTD, CD9][1..] == [CD9] && [CD9][1..] == [];
    assert Unambiguous([CD9], {} + Types([EDN]));
    assert Unambiguous([OTD, CD9], {} + Types([EDN]));
  }

  lemma EcvnFlowIsFit()
    ensures WellFormed(ECVN_FLOW.records) && Unambiguous(ECVN_FLOW.records, {}) && CleanTypes(ECVN_FLOW.records)
  {
    EcvnFlowIsUnambiguous();
    EcvnTypesAreClean();
    assert WellFormed([OTD, CD9]);
  }

  lemma EcvnTypesAreClean()
    ensures CleanTypes(ECVN_FLOW.records)
  {
    assert CleanTypes([OTD, CD9]);
  }

  lemma WmanFlowIsUnambiguous()
    ensures Unambiguous(WMAN_FLOW.records, {})
  {
    assert [SDP][1..] == [] && [WMA][1..] == [];
    assert "WMA"[0] != "SDP"[0] && forall s :: s in [SDP] ==> s == SDP;
    assert Unambiguous([WMA], {} + Types([SDP]));
  }

  lemma WmanFlowIsFit()
    ensures WellFormed(WMAN_FLOW.records) && Unambiguous(WMAN_FLOW.records, {}) && CleanTypes(WMAN_FLOW.records)
  {
    WmanFlowIsUnambiguous();
    assert WellFormed([WMA]) && CleanTypes([WMA]);
  }

  // --- contract volumes ---------------------------------------------------------------

  datatype ContractVolume = ContractVolume(period: int, volume: D.Decimal) {
    // The checks of the constructor: the period, the bound on abs(volume), and the exponent.
    predicate Valid() {
      && 1 <= period <= 50
      && volume.Finite?
      && volume.exponent >= -3
      && D.UnitsAt(D.Abs(volume), 3) <= MAX_UNITS
    }
  }

  // decimal(10,3): 9999999.999 is this many thousandths.
  const MAX_UNITS: int := 9_999_999_999

  predicate Ascending(periods: seq<int>) {
    forall i, j :: 0 <= i < j < |periods| ==> periods[i] < periods[j]
  }

  function Periods(volumes: seq<ContractVolume>): (periods: seq<int>)
    ensures |periods| == |volumes| && forall i :: 0 <= i < |volumes| ==> periods[i] == volumes[i].period
  {
    seq(|volumes|, i requires 0 <= i < |volumes| => volumes[i].period)
  }

  predicate OnOrAfter(a: Date, b: Date) {
    a.year > b.year || (a.year == b.year && (a.month > b.month || (a.month == b.month && a.day >= b.day)))
  }

  datatype Ecvn = Ecvn(
    ecvnaaId: string, ecvnEcvnaaId: string, referenceCode: string,
    effectiveFrom: Date, volumes: seq<ContractVolume>, effectiveTo: Option<Date>)
  {
    predicate Valid() {
      && (effectiveTo.Some? ==> OnOrAfter(effectiveTo.value, effectiveFrom))
      && (forall v :: v in volumes ==> v.Valid())
      && Ascending(Periods(volumes))
    }
  }

  function VolumeNode(v: ContractVolume): Node {
    Node("CD9", map["N0201" := Integer(v.period), "N0085" := Number(v.volume)], [])
  }

  function VolumeNodes(volumes: seq<ContractVolume>): seq<Node> {
    if volumes == [] then [] else [VolumeNode(volumes[0])] + VolumeNodes(volumes[1..])
  }

  function EcvnItems(e: Ecvn, key: string): map<string, Value> {
    var items := map["N0080" := Text(e.ecvnaaId), "N0297" := Text(key), "N0310" := Text(e.ecvnEcvnaaId),
                     "N0077" := Text(e.referenceCode), "N0081" := Day(e.effectiveFrom)];
    if e.effectiveTo.Some? then items["N0083" := Day(e.effectiveTo.value)] else items
  }

  function EcvnNodes(e: Ecvn, key: string): seq<Node> {
    [Node("EDN", EcvnItems(e, key), VolumeNodes(e.volumes))]
  }

  // Node.of_type
  function OfType(nodes: seq<Node>, recordType: string): seq<Node> {
    if nodes == [] then []
    else (if nodes[0].recordType == recordType then [nodes[0]] else []) + OfType(nodes[1..], recordType)
  }

  // None where a value is missing or the constructor raises ValueError.
  function ReadVolumes(nodes: seq<Node>): Option<seq<ContractVolume>> {
    if nodes == [] then Some([])
    else
      match (Get(nodes[0].values, "N0201"), Get(nodes[0].values, "N0085"), ReadVolumes(nodes[1..]))
      case (Integer(period), Number(volume), Some(others)) =>
        var v := ContractVolume(period, volume);
        if v.Valid() then Some([v] + others) else None
      case _ => None
  }

  function ReadEcvn(nodes: seq<Node>): Option<(Ecvn, string)> {
    if |nodes| != 1 || nodes[0].recordType != "EDN" then None
    else
      var items := nodes[0].values;
      var ecvnaaId, key, ecvnEcvnaaId, referenceCode :=
        Get(items, "N0080"), Get(items, "N0297"), Get(items, "N0310"), Get(items, "N0077");
      var from, to, volumes := Get(items, "N0081"), Get(items, "N0083"), ReadVolumes(OfType(nodes[0].children, "CD9"));
      if !(ecvnaaId.Text? && key.Text? && ecvnEcvnaaId.Text? && referenceCode.Text? && from.Day? && volumes.Some?) then None
      else
        var e := Ecvn(ecvnaaId.text, ecvnEcvnaaId.text, referenceCode.text, from.date, volumes.value,
                      if to.Day? then Some(to.date) else None);
        if e.Valid() then Some((e, key.text)) else None
  }

  // --- a volume the constructor lets through fits the data type --------------------------

  lemma ScaleAtLeast(n: nat, k: nat)
    ensures Scale(n, k) >= n
  {
  }

  lemma FewDigits(n: nat, k: nat)
    requires n <= MAX_UNITS && k == 10
    ensures |NatText(n)| <= k && Pow10(k) == MAX_UNITS + 1
  {
    DigitCount(n, k);
  }

  lemma NothingRounded(v: ContractVolume)
    requires v.Valid()
    ensures D.ExcessDigits(v.volume.coefficient) == 0
  {
    var a := D.Abs(v.volume);
    ScaleAtLeast(a.coefficient, 3 + a.exponent);
    FewDigits(a.coefficient, 10);
    if D.ExcessDigits(v.volume.coefficient) > 0 {
      D.RoundingKeepsPrecision(v.volume, 27);
    }
  }

  lemma UnitsWithinBound(v: ContractVolume)
    requires v.Valid()
    ensures var c := D.CanonicalOf(v.volume); c.places <= 3 && Scale(c.units, 3 - c.places) <= MAX_UNITS
  {
    NothingRounded(v);
    D.CanonicalUnits(v.volume, 3);
  }

  // The constructor's bound implies the data type's.
  lemma VolumeEncodes(v: ContractVolume)
    requires v.Valid()
    ensures D.KeepsAllDigits(v.volume) && D.Encode(v.volume, 10, 3).Some?
  {
    NothingRounded(v);
    UnitsWithinBound(v);
    WithinBoundFits(D.CanonicalOf(v.volume), 10, 3);
    D.EncodeSucceeds(v.volume, 10, 3);
  }

  lemma WithinBoundFits(c: D.Canonical, total: nat, places: nat)
    requires total == 10 && places == 3 && c.places <= places && Scale(c.units, places - c.places) <= MAX_UNITS
    ensures D.Fits(c, total, places)
  {
    FewDigits(0, total);
  }

  lemma LiteralVolume(period: int, c: D.Canonical)
    requires 1 <= period <= 50 && c.places <= 3 && Scale(c.units, 3 - c.places) <= MAX_UNITS
    ensures ContractVolume(period, D.Literal(c)).Valid()
  {
    ScaleAtLeast(c.units, 3 - c.places);
    FewDigits(c.units, 10);
  }

  // --- E0041 through a file ---------------------------------------------------------------

  predicate FitsText(s: string, dt: DataType) {
    Encode(Text(s), dt).Some?
  }

  predicate ItemEncodes(node: Node, spec: Record, i: nat)
    requires i < |spec.fields|
  {
    EncodeField(spec.fields[i], Get(node.values, spec.fields[i].itemId)).Some?
  }

  // A line is built when every one of its items encodes.
  lemma LineBuilds(node: Node, spec: Record)
    requires node.values.Keys <= ItemIds(spec.fields)
    ensures BuildLine(node, spec).Some? <==> forall i :: 0 <= i < |spec.fields| ==> ItemEncodes(node, spec, i)
  {
    var texts := ItemTexts(spec.fields, node.values);
    assert forall i :: 0 <= i < |texts| ==> (texts[i].Some? <==> ItemEncodes(node, spec, i));
  }

  lemma PeriodItem(v: ContractVolume)
    requires v.Valid()
    ensures ItemEncodes(VolumeNode(v), CD9, 0) && Faithful(INTEGER2, Get(VolumeNode(v).values, "N0201"))
  {
    PeriodEncodes(v.period);
  }

  lemma VolumeItem(v: ContractVolume)
    requires v.Valid()
    ensures ItemEncodes(VolumeNode(v), CD9, 1) && Faithful(DECIMAL10_3, Get(VolumeNode(v).values, "N0085"))
  {
    VolumeEncodes(v);
    NumberEncodes(v.volume, DECIMAL10_3);
  }

  lemma NumberEncodes(d: D.Decimal, dt: DataType)
    requires dt.kind.DecimalKind? && dt.length.Some? && dt.decimals.Some?
    requires D.Encode(d, dt.length.value, dt.decimals.value).Some?
    ensures Encode(Number(d), dt).Some?
  {
  }

  lemma VolumeLine(v: ContractVolume)
    requires v.Valid()
    ensures BuildLine(VolumeNode(v), CD9).Some? && FaithfulItems(CD9.fields, VolumeNode(v).values)
  {
    PeriodItem(v);
    VolumeItem(v);
    assert CD9.fields[0] in CD9.fields && CD9.fields[1] in CD9.fields;
    LineBuilds(VolumeNode(v), CD9);
  }

  lemma PeriodEncodes(period: int)
    requires 1 <= period <= 50
    ensures Encode(Integer(period), INTEGER2).Some?
  {
    assert Pow10(2) == 100;
    DigitCount(period, 2);
  }

  // Any number of valid volumes builds, and every value in them is faithful.
  lemma {:induction false} VolumesBuild(volumes: seq<ContractVolume>, count: nat)
    requires forall v :: v in volumes ==> v.Valid()
    ensures BuildGroup(VolumeNodes(volumes), [CD9], count).Some?
    ensures FaithfulForest(VolumeNodes(volumes), [CD9])
  {
    assert [CD9][1..] == [];
    if volumes != [] {
      var nodes := VolumeNodes(volumes);
      assert nodes[1..] == VolumeNodes(volumes[1..]);
      VolumeLine(volumes[0]);
      assert BuildGroup(nodes[0].children, CD9.children, 0) == Some([]);
      VolumesBuild(volumes[1..], count + 1);
    } else {
      assert BuildGroup([], [CD9], count) == BuildGroup([], [], 0);
    }
  }

  lemma VolumesAfterOmitted(volumes: seq<ContractVolume>)
    requires forall v :: v in volumes ==> v.Valid()
    ensures BuildGroup(VolumeNodes(volumes), [OTD, CD9], 0).Some?
    ensures FaithfulForest(VolumeNodes(volumes), [OTD, CD9])
  {
    VolumesBuild(volumes, 0);
    assert [OTD, CD9][1..] == [CD9];
    assert "CD9"[0] != "OTD"[0];
  }

  predicate IdsFit(e: Ecvn, key: string) {
    FitsText(e.ecvnaaId, TEXT10) && FitsText(key, TEXT10) && FitsText(e.ecvnEcvnaaId, TEXT10) && FitsText(e.referenceCode, TEXT10)
  }

  predicate IdsGiven(e: Ecvn, key: string) {
    e.ecvnaaId != "" && key != "" && e.ecvnEcvnaaId != "" && e.referenceCode != ""
  }

  lemma EcvnItem(e: Ecvn, key: string, i: nat)
    requires i < 6
    ensures ItemEncodes(EcvnNodes(e, key)[0], EDN, i) <==>
            if i == 0 then FitsText(e.ecvnaaId, TEXT10)
            else if i == 1 then FitsText(key, TEXT10)
            else if i == 2 then FitsText(e.ecvnEcvnaaId, TEXT10)
            else if i == 3 then FitsText(e.referenceCode, TEXT10)
            else true
  {
  }

  lemma EcvnKeys(e: Ecvn, key: string)
    ensures EcvnItems(e, key).Keys <= ItemIds(EDN.fields)
  {
    forall i | 0 <= i < 6 ensures EDN.fields[i].itemId in ItemIds(EDN.fields) {
      assert EDN.fields[i] in EDN.fields;
    }
    assert EDN.fields[0].itemId == "N0080" && EDN.fields[1].itemId == "N0297" && EDN.fields[2].itemId == "N0310"
        && EDN.fields[3].itemId == "N0077" && EDN.fields[4].itemId == "N0081" && EDN.fields[5].itemId == "N0083";
  }

  lemma EcvnLine(e: Ecvn, key: string)
    ensures BuildLine(EcvnNodes(e, key)[0], EDN).Some? <==> IdsFit(e, key)
  {
    EcvnKeys(e, key);
    var node := EcvnNodes(e, key)[0];
    forall i | 0 <= i < 6
      ensures ItemEncodes(node, EDN, i) <==>
              if i == 0 then FitsText(e.ecvnaaId, TEXT10)
              else if i == 1 then FitsText(key, TEXT10)
              else if i == 2 then FitsText(e.ecvnEcvnaaId, TEXT10)
              else if i == 3 then FitsText(e.referenceCode, TEXT10)
              else true
    {
      EcvnItem(e, key, i);
    }
    LineBuilds(node, EDN);
    assert ItemEncodes(node, EDN, 0) && ItemEncodes(node, EDN, 1) && ItemEncodes(node, EDN, 2) && ItemEncodes(node, EDN, 3)
      <==> IdsFit(e, key);
  }

  lemma EcvnFaithful(e: Ecvn, key: string)
    ensures FaithfulItems(EDN.fields, EcvnItems(e, key)) <==> IdsGiven(e, key)
  {
    var items := EcvnItems(e, key);
    assert Get(items, "N0080") == Text(e.ecvnaaId) && Get(items, "N0297") == Text(key)
        && Get(items, "N0310") == Text(e.ecvnEcvnaaId) && Get(items, "N0077") == Text(e.referenceCode);
    assert Get(items, EDN.fields[4].itemId) == Day(e.effectiveFrom);
    assert Get(items, EDN.fields[5].itemId) == if e.effectiveTo.Some? then Day(e.effectiveTo.value) else Absent;
    assert EDN.fields[0].itemId == "N0080" && EDN.fields[1].itemId == "N0297"
        && EDN.fields[2].itemId == "N0310" && EDN.fields[3].itemId == "N0077";
  }

  // One record of a flow that requires exactly one.
  lemma SingleRecord(node: Node, spec: Record)
    requires node.recordType == spec.recordType && spec.cardinality == ONCE
    ensures BuildGroup([node], [spec], 0).Some? <==> BuildLine(node, spec).Some? && BuildGroup(node.children, spec.children, 0).Some?
    ensures FaithfulForest([node], [spec]) <==> FaithfulItems(spec.fields, node.values) && FaithfulForest(node.children, spec.children)
  {
    assert [node][1..] == [] && [spec][1..] == [];
    assert BuildGroup([], [spec], 1) == BuildGroup([], [], 0) == Some([]);
  }

  // Every notification its constructor lets through builds when its ids fit their text fields.
  lemma EcvnBuilds(header: Header, e: Ecvn, key: string)
    requires e.Valid() && header.fileType == ECVN_FLOW.fileType && HeaderRecord(header).Some?
    ensures Build(ECVN_FLOW, header, EcvnNodes(e, key)).Success? <==> IdsFit(e, key)
  {
    EcvnFlowIsFit();
    BodyDecides(ECVN_FLOW, header, EcvnNodes(e, key));
    SingleRecord(EcvnNodes(e, key)[0], EDN);
    EcvnLine(e, key);
    VolumesAfterOmitted(e.volumes);
  }

  // The volume as a file gives it back: the same number, in lowest terms.
  function Lowest(v: ContractVolume): (r: ContractVolume)
    requires v.Valid()
    ensures r.period == v.period && D.SameNumber(r.volume, v.volume) && r.Valid()
  {
    NothingRounded(v);
    UnitsWithinBound(v);
    LiteralVolume(v.period, D.CanonicalOf(v.volume));
    D.LiteralIsCanonical(D.CanonicalOf(v.volume));
    ContractVolume(v.period, D.Literal(D.CanonicalOf(v.volume)))
  }

  function LowestTerms(volumes: seq<ContractVolume>): (r: seq<ContractVolume>)
    requires forall v :: v in volumes ==> v.Valid()
    ensures |r| == |volumes|
    ensures forall i :: 0 <= i < |r| ==> r[i] == Lowest(volumes[i])
  {
    if volumes == [] then [] else [Lowest(volumes[0])] + LowestTerms(volumes[1..])
  }

  lemma ReturnedVolume(items: map<string, Value>, v: ContractVolume)
    requires v.Valid() && ReturnedItems(items, VolumeNode(v).values)
    ensures Get(items, "N0201") == Integer(v.period) && Get(items, "N0085") == Number(Lowest(v).volume)
  {
    var sent := VolumeNode(v).values;
    assert Returned(Get(items, "N0201"), Get(sent, "N0201"));
    assert Returned(Get(items, "N0085"), Get(sent, "N0085"));
  }

  lemma {:induction false} ReturnedVolumes(nodes: seq<Node>, volumes: seq<ContractVolume>)
    requires forall v :: v in volumes ==> v.Valid()
    requires ReturnedForest(nodes, VolumeNodes(volumes))
    ensures OfType(nodes, "CD9") == nodes
    ensures ReadVolumes(nodes) == Some(LowestTerms(volumes))
  {
    if volumes != [] {
      assert VolumeNodes(volumes)[1..] == VolumeNodes(volumes[1..]);
      ReturnedVolumes(nodes[1..], volumes[1..]);
      assert nodes == [nodes[0]] + nodes[1..];
      ReturnedVolume(nodes[0].values, volumes[0]);
    }
  }

  // The notification with its volumes in lowest terms.
  function Restored(e: Ecvn): (r: Ecvn)
    requires e.Valid()
    ensures r.Valid() && r == e.(volumes := LowestTerms(e.volumes))
  {
    var r := e.(volumes := LowestTerms(e.volumes));
    assert Periods(r.volumes) == Periods(e.volumes);
    r
  }

  lemma ReturnedEcvnItems(back: map<string, Value>, e: Ecvn, key: string)
    requires ReturnedItems(back, EcvnItems(e, key))
    ensures Get(back, "N0080") == Text(e.ecvnaaId) && Get(back, "N0297") == Text(key)
    ensures Get(back, "N0310") == Text(e.ecvnEcvnaaId) && Get(back, "N0077") == Text(e.referenceCode)
    ensures Get(back, "N0081") == Day(e.effectiveFrom)
    ensures Get(back, "N0083") == if e.effectiveTo.Some? then Day(e.effectiveTo.value) else Absent
  {
    var items := EcvnItems(e, key);
    assert Returned(Get(back, "N0080"), Get(items, "N0080")) && Returned(Get(back, "N0297"), Get(items, "N0297"));
    assert Returned(Get(back, "N0310"), Get(items, "N0310")) && Returned(Get(back, "N0077"), Get(items, "N0077"));
    assert Returned(Get(back, "N0081"), Get(items, "N0081")) && Returned(Get(back, "N0083"), Get(items, "N0083"));
  }

  lemma ReturnedEcvn(nodes: seq<Node>, e: Ecvn, key: string)
    requires e.Valid() && ReturnedForest(nodes, EcvnNodes(e, key))
    ensures ReadEcvn(nodes) == Some((Restored(e), key))
  {
    ReturnedVolumes(nodes[0].children, e.volumes);
    ReturnedEcvnItems(nodes[0].values, e, key);
  }

  // It comes back from a file exactly when no id is empty and the header is faithful, and is then read
  // as the notification that was sent, with the key beside it.
  lemma EcvnRoundTrip(header: Header, e: Ecvn, key: string)
    requires e.Valid() && header.fileType == ECVN_FLOW.fileType && HeaderRecord(header).Some? && IdsFit(e, key)
    ensures Build(ECVN_FLOW, header, EcvnNodes(e, key)).Success?
    ensures var payload := Build(ECVN_FLOW, header, EcvnNodes(e, key)).value;
            && (ComesBack(payload, ECVN_FLOW, header, EcvnNodes(e, key)) <==> IdsGiven(e, key) && FaithfulHeader(header))
            && (ComesBack(payload, ECVN_FLOW, header, EcvnNodes(e, key)) ==>
                  ReadEcvn(ParseFile(payload, ECVN_FLOW).value.1) == Some((Restored(e), key)))
  {
    EcvnBuilds(header, e, key);
    EcvnFlowIsFit();
    FileRoundTrip(ECVN_FLOW, header, EcvnNodes(e, key));
    EcvnLine(e, key);
    EcvnFaithful(e, key);
    VolumesAfterOmitted(e.volumes);
    SingleRecord(EcvnNodes(e, key)[0], EDN);
    var payload := Build(ECVN_FLOW, header, EcvnNodes(e, key)).value;
    if ComesBack(payload, ECVN_FLOW, header, EcvnNodes(e, key)) {
      ReturnedEcvn(ParseFile(payload, ECVN_FLOW).value.1, e, key);
    }
  }

  // --- E0511 through a file ---------------------------------------------------------------

  datatype ActiveUnit = ActiveUnit(bmuId: string, active: bool)

  datatype Wman = Wman(date: Date, period: int, units: seq<ActiveUnit>) {
    predicate Valid() {
      && 1 <= period <= 50
      && units != []
      && forall i, j :: 0 <= i < j < |units| ==> units[i].bmuId != units[j].bmuId
    }
  }

  function UnitNode(u: ActiveUnit): Node {
    Node("WMA", map["N0034" := Text(u.bmuId), "N0652" := Truth(u.active)], [])
  }

  function UnitNodes(units: seq<ActiveUnit>): (nodes: seq<Node>)
    ensures |nodes| == |units|
  {
    if units == [] then [] else [UnitNode(units[0])] + UnitNodes(units[1..])
  }

  function WmanItems(w: Wman): map<string, Value> {
    map["N0200" := Day(w.date), "N0201" := Integer(w.period)]
  }

  function WmanNodes(w: Wman): seq<Node> {
    [Node("SDP", WmanItems(w), UnitNodes(w.units))]
  }

  function ReadUnits(nodes: seq<Node>): Option<seq<ActiveUnit>> {
    if nodes == [] then Some([])
    else
      match (Get(nodes[0].values, "N0034"), Get(nodes[0].values, "N0652"), ReadUnits(nodes[1..]))
      case (Text(bmuId), Truth(active), Some(others)) => Some([ActiveUnit(bmuId, active)] + others)
      case _ => None
  }

  function ReadWman(nodes: seq<Node>): Option<Wman> {
    if |nodes| != 1 || nodes[0].recordType != "SDP" then None
    else
      match (Get(nodes[0].values, "N0200"), Get(nodes[0].values, "N0201"), ReadUnits(OfType(nodes[0].children, "WMA")))
      case (Day(date), Integer(period), Some(units)) =>
        var w := Wman(date, period, units);
        if w.Valid() then Some(w) else None
      case _ => None
  }

  predicate UnitsFit(units: seq<ActiveUnit>) {
    forall u :: u in units ==> FitsText(u.bmuId, TEXT11)
  }

  predicate UnitsGiven(units: seq<ActiveUnit>) {
    forall u :: u in units ==> u.bmuId != ""
  }

  lemma UnitLine(u: ActiveUnit)
    ensures BuildLine(UnitNode(u), WMA).Some? <==> FitsText(u.bmuId, TEXT11)
    ensures FaithfulItems(WMA.fields, UnitNode(u).values) <==> u.bmuId != ""
  {
    assert WMA.fields[0] in WMA.fields && WMA.fields[1] in WMA.fields;
    assert WMA.fields[0].itemId == "N0034" && WMA.fields[1].itemId == "N0652";
    assert ItemEncodes(UnitNode(u), WMA, 0) <==> FitsText(u.bmuId, TEXT11);
    assert ItemEncodes(UnitNode(u), WMA, 1);
    LineBuilds(UnitNode(u), WMA);
    assert Get(UnitNode(u).values, "N0034") == Text(u.bmuId) && Get(UnitNode(u).values, "N0652") == Truth(u.active);
  }

  // A node without children builds at the head of a run if its line does and the rest of the run does.
  lemma LeafBuilds(nodes: seq<Node>, spec: Record, count: nat)
    requires nodes != [] && nodes[0].recordType == spec.recordType
    requires nodes[0].children == [] && spec.children == []
    ensures BuildGroup(nodes, [spec], count).Some?
        <==> BuildLine(nodes[0], spec).Some? && BuildGroup(nodes[1..], [spec], count + 1).Some?
  {
    assert BuildGroup([], [], 0) == Some([]);
  }

  lemma RunEnds(spec: Record, count: nat)
    requires spec.cardinality.Permits(count)
    ensures BuildGroup([], [spec], count) == Some([])
  {
    assert BuildGroup([], [], 0) == Some([]);
  }

  predicate LinesBuild(nodes: seq<Node>, spec: Record) {
    forall i :: 0 <= i < |nodes| ==> BuildLine(nodes[i], spec).Some?
  }

  lemma LinesBuildFromHead(nodes: seq<Node>, spec: Record)
    requires nodes != []
    ensures LinesBuild(nodes, spec) <==> BuildLine(nodes[0], spec).Some? && LinesBuild(nodes[1..], spec)
  {
    assert forall i :: 0 < i < |nodes| ==> nodes[i] == nodes[1..][i - 1];
  }

  // A run of nodes without children builds exactly when each of its lines does.
  lemma {:induction false} LeavesBuild(nodes: seq<Node>, spec: Record, count: nat)
    requires spec.children == [] && spec.cardinality.Permits(count + |nodes|)
    requires forall i :: 0 <= i < |nodes| ==> nodes[i].recordType == spec.recordType && nodes[i].children == []
    ensures BuildGroup(nodes, [spec], count).Some? <==> LinesBuild(nodes, spec)
  {
    if nodes == [] {
      RunEnds(spec, count);
    } else {
      LeafBuilds(nodes, spec, count);
      LeavesBuild(nodes[1..], spec, count + 1);
      LinesBuildFromHead(nodes, spec);
    }
  }

  lemma {:induction false} UnitNodeAt(units: seq<ActiveUnit>, i: nat)
    requires i < |units|
    ensures UnitNodes(units)[i] == UnitNode(units[i])
  {
    if i > 0 {
      UnitNodeAt(units[1..], i - 1);
    }
  }

  lemma UnitsBuild(units: seq<ActiveUnit>)
    requires units != []
    ensures BuildGroup(UnitNodes(units), [WMA], 0).Some? <==> UnitsFit(units)
  {
    var nodes := UnitNodes(units);
    forall i | 0 <= i < |units|
      ensures nodes[i].recordType == "WMA" && nodes[i].children == []
      ensures BuildLine(nodes[i], WMA).Some? <==> FitsText(units[i].bmuId, TEXT11)
    {
      UnitNodeAt(units, i);
      UnitLine(units[i]);
    }
    LeavesBuild(nodes, WMA, 0);
  }

  lemma {:induction false} UnitsFaithful(units: seq<ActiveUnit>)
    ensures FaithfulForest(UnitNodes(units), [WMA]) <==> UnitsGiven(units)
  {
    if units != [] {
      var nodes := UnitNodes(units);
      assert nodes[1..] == UnitNodes(units[1..]);
      UnitLine(units[0]);
      UnitsFaithful(units[1..]);
      assert units == [units[0]] + units[1..];
    }
  }

  lemma WmanLine(w: Wman)
    requires w.Valid()
    ensures BuildLine(WmanNodes(w)[0], SDP).Some? && FaithfulItems(SDP.fields, WmanItems(w))
  {
    assert SDP.fields[0] in SDP.fields && SDP.fields[1] in SDP.fields;
    assert SDP.fields[0].itemId == "N0200" && SDP.fields[1].itemId == "N0201";
    PeriodEncodes(w.period);
    assert ItemEncodes(WmanNodes(w)[0], SDP, 0) && ItemEncodes(WmanNodes(w)[0], SDP, 1);
    LineBuilds(WmanNodes(w)[0], SDP);
    assert Get(WmanItems(w), "N0200") == Day(w.date) && Get(WmanItems(w), "N0201") == Integer(w.period);
  }

  lemma {:induction false} ReturnedUnits(nodes: seq<Node>, units: seq<ActiveUnit>)
    requires ReturnedForest(nodes, UnitNodes(units))
    ensures OfType(nodes, "WMA") == nodes && ReadUnits(nodes) == Some(units)
  {
    if units != [] {
      var items := UnitNode(units[0]).values;
      assert UnitNodes(units)[1..] == UnitNodes(units[1..]);
      ReturnedUnits(nodes[1..], units[1..]);
      assert nodes == [nodes[0]] + nodes[1..] && units == [units[0]] + units[1..];
      assert Returned(Get(nodes[0].values, "N0034"), Get(items, "N0034"));
      assert Returned(Get(nodes[0].values, "N0652"), Get(items, "N0652"));
    }
  }

  lemma ReturnedWman(nodes: seq<Node>, w: Wman)
    requires w.Valid() && ReturnedForest(nodes, WmanNodes(w))
    ensures ReadWman(nodes) == Some(w)
  {
    ReturnedUnits(nodes[0].children, w.units);
    assert Returned(Get(nodes[0].values, "N0200"), Get(WmanItems(w), "N0200"));
    assert Returned(Get(nodes[0].values, "N0201"), Get(WmanItems(w), "N0201"));
  }

  // Every activity notification its constructor lets through builds exactly when its BM Unit ids fit
  // text(11), comes back exactly when none of them is empty, and is then the notification that was sent.
  lemma WmanRoundTrip(header: Header, w: Wman)
    requires w.Valid() && header.fileType == WMAN_FLOW.fileType && HeaderRecord(header).Some?
    ensures Build(WMAN_FLOW, header, WmanNodes(w)).Success? <==> UnitsFit(w.units)
    ensures UnitsFit(w.units) ==>
              var payload := Build(WMAN_FLOW, header, WmanNodes(w)).value;
              && (ComesBack(payload, WMAN_FLOW, header, WmanNodes(w)) <==> UnitsGiven(w.units) && FaithfulHeader(header))
              && (ComesBack(payload, WMAN_FLOW, header, WmanNodes(w)) ==>
                    ReadWman(ParseFile(payload, WMAN_FLOW).value.1) == Some(w))
  {
    WmanFlowIsFit();
    BodyDecides(WMAN_FLOW, header, WmanNodes(w));
    SingleRecord(WmanNodes(w)[0], SDP);
    WmanLine(w);
    UnitsBuild(w.units);
    UnitsFaithful(w.units);
    if UnitsFit(w.units) {
      var payload := Build(WMAN_FLOW, header, WmanNodes(w)).value;
      FileRoundTrip(WMAN_FLOW, header, WmanNodes(w));
      if ComesBack(payload, WMAN_FLOW, header, WmanNodes(w)) {
        ReturnedWman(ParseFile(payload, WMAN_FLOW).value.1, w);
      }
    }
  }
}
