// Delivered volumes (P0282): flat pairs grouped under GSP groups and BM Units, and read back.
module Delivered {
  import opened Wrappers
  import opened Digits
  import opened Fields
  import opened FileCodec
  import D = Decimals

  // --- pairs --------------------------------------------------------------------------

  datatype Volume = Volume(period: int, volume: D.Decimal) {
    predicate Valid() {
      && 1 <= period <= 50
      && volume.Finite? && -volume.exponent <= 4
      && D.UnitsAt(D.Abs(volume), 4) <= MAX_UNITS
    }
  }

  // decimal(14,4): 9999999999.9999 is this many ten-thousandths.
  const MAX_UNITS: int := 99_999_999_999_999

  datatype Pair = Pair(importMsid: int, periods: seq<Volume>, group: string, unit: string, exportMsid: Option<int>) {
    predicate Valid() {
      && 1 <= |periods| <= 50
      && (forall v :: v in periods ==> v.Valid())
      && (forall i, j :: 0 <= i < j < |periods| ==> periods[i].period < periods[j].period)
      && |IntText(importMsid)| <= 13
      && (exportMsid.Some? ==> |IntText(exportMsid.value)| <= 13)
    }
  }

  // The keys of the pairs, as a set.
  function PairKeys(pairs: seq<Pair>): set<(string, string, int)> {
    set p | p in pairs :: (p.group, p.unit, p.importMsid)
  }

  datatype Delivered = Delivered(day: Date, pairs: seq<Pair>) {
    predicate Valid() {
      pairs != [] && (forall p :: p in pairs ==> p.Valid()) && |PairKeys(pairs)| == |pairs|
    }
  }

  // --- an ordered dictionary of lists -----------------------------------------------------

  type Groups = seq<(string, seq<Pair>)>

  // setdefault(k, []).append(x)
  function Add(gs: Groups, k: string, x: Pair): Groups {
    if gs == [] then [(k, [x])]
    else if gs[0].0 == k then [(k, gs[0].1 + [x])] + gs[1..]
    else [gs[0]] + Add(gs[1..], k, x)
  }

  // Pairs put one after another under their keys.
  function GroupBy(key: Pair -> string, xs: seq<Pair>): Groups {
    if xs == [] then []
    else
      var x := xs[|xs| - 1];
      Add(GroupBy(key, xs[..|xs| - 1]), key(x), x)
  }

  function Flatten(gs: Groups): seq<Pair> {
    if gs == [] then [] else gs[0].1 + Flatten(gs[1..])
  }

  function KeysOf(gs: Groups): seq<string> {
    if gs == [] then [] else [gs[0].0] + KeysOf(gs[1..])
  }

  function Lookup(gs: Groups, k: string): seq<Pair> {
    if gs == [] then [] else if gs[0].0 == k then gs[0].1 else Lookup(gs[1..], k)
  }

  // The distinct keys, in the order in which they are first seen.
  function FirstSeen(key: Pair -> string, xs: seq<Pair>): seq<string> {
    if xs == [] then []
    else
      var n := |xs| - 1;
      var before := FirstSeen(key, xs[..n]);
      if key(xs[n]) in before then before else before + [key(xs[n])]
  }

  // The pairs with one key, in order.
  function Select(key: Pair -> string, xs: seq<Pair>, k: string): seq<Pair> {
    if xs == [] then []
    else
      var n := |xs| - 1;
      Select(key, xs[..n], k) + if key(xs[n]) == k then [xs[n]] else []
  }

  // Distinct keys, no empty list, and every pair under its own key.
  predicate WellKept(key: Pair -> string, gs: Groups) {
    gs == [] ||
    (&& gs[0].0 !in KeysOf(gs[1..])
     && gs[0].1 != [] && (forall x :: x in gs[0].1 ==> key(x) == gs[0].0)
     && WellKept(key, gs[1..]))
  }

  lemma {:induction false} AddKeys(gs: Groups, k: string, x: Pair)
    ensures KeysOf(Add(gs, k, x)) == if k in KeysOf(gs) then KeysOf(gs) else KeysOf(gs) + [k]
  {
    if gs != [] && gs[0].0 != k {
      AddKeys(gs[1..], k, x);
    }
  }

  lemma {:induction false} AddKeeps(key: Pair -> string, gs: Groups, x: Pair)
    requires WellKept(key, gs)
    ensures WellKept(key, Add(gs, key(x), x))
  {
    if gs != [] {
      AddKeeps(key, gs[1..], x);
      AddKeys(gs[1..], key(x), x);
    }
  }

  lemma {:induction false} GroupByKeeps(key: Pair -> string, xs: seq<Pair>)
    ensures WellKept(key, GroupBy(key, xs))
  {
    if xs != [] {
      GroupByKeeps(key, xs[..|xs| - 1]);
      AddKeeps(key, GroupBy(key, xs[..|xs| - 1]), xs[|xs| - 1]);
    }
  }

  lemma {:induction false} AddLookup(gs: Groups, k: string, x: Pair, j: string)
    ensures Lookup(Add(gs, k, x), j) == Lookup(gs, j) + if j == k then [x] else []
  {
    if gs != [] && gs[0].0 != k {
      AddLookup(gs[1..], k, x, j);
    }
  }

  // The dictionary is the comprehension: one entry for each distinct key in first-seen order, holding
  // the pairs of that key in order.
  lemma {:induction false} GroupByIs(key: Pair -> string, xs: seq<Pair>, k: string)
    ensures KeysOf(GroupBy(key, xs)) == FirstSeen(key, xs)
    ensures Lookup(GroupBy(key, xs), k) == Select(key, xs, k)
  {
    if xs != [] {
      var n := |xs| - 1;
      GroupByIs(key, xs[..n], k);
      AddKeys(GroupBy(key, xs[..n]), key(xs[n]), xs[n]);
      AddLookup(GroupBy(key, xs[..n]), key(xs[n]), xs[n], k);
    }
  }

  // --- nothing lost, nothing invented ---------------------------------------------------------

  lemma {:induction false} AddCounts(gs: Groups, k: string, x: Pair)
    ensures multiset(Flatten(Add(gs, k, x))) == multiset(Flatten(gs)) + multiset{x}
  {
    if gs != [] {
      if gs[0].0 != k {
        AddCounts(gs[1..], k, x);
        assert Add(gs, k, x)[1..] == Add(gs[1..], k, x);
      } else {
        assert Add(gs, k, x)[1..] == gs[1..];
      }
    }
  }

  lemma {:induction false} GroupByPermutes(key: Pair -> string, xs: seq<Pair>)
    ensures multiset(Flatten(GroupBy(key, xs))) == multiset(xs)
  {
    if xs != [] {
      var n := |xs| - 1;
      GroupByPermutes(key, xs[..n]);
      AddCounts(GroupBy(key, xs[..n]), key(xs[n]), xs[n]);
      assert xs == xs[..n] + [xs[n]];
    }
  }

  // --- grouping what was grouped ----------------------------------------------------------------

  lemma {:induction false} KeysAppend(a: Groups, b: Groups)
    ensures KeysOf(a + b) == KeysOf(a) + KeysOf(b)
  {
    if a == [] {
      assert a + b == b;
    } else {
      KeysAppend(a[1..], b);
      assert (a + b)[1..] == a[1..] + b;
    }
  }

  lemma {:induction false} AddAtEnd(gs: Groups, k: string, ys: seq<Pair>, x: Pair)
    requires k !in KeysOf(gs)
    ensures Add(gs, k, x) == gs + [(k, [x])]
    ensures Add(gs + [(k, ys)], k, x) == gs + [(k, ys + [x])]
  {
    if gs != [] {
      AddAtEnd(gs[1..], k, ys, x);
      assert (gs + [(k, ys)])[1..] == gs[1..] + [(k, ys)];
      assert gs == [gs[0]] + gs[1..];
    }
  }

  // A run of pairs under one new key becomes one more entry.
  lemma {:induction false} GroupRun(key: Pair -> string, xs: seq<Pair>, ys: seq<Pair>, k: string)
    requires ys != [] && (forall y :: y in ys ==> key(y) == k) && k !in KeysOf(GroupBy(key, xs))
    ensures GroupBy(key, xs + ys) == GroupBy(key, xs) + [(k, ys)]
  {
    var n := |ys| - 1;
    assert (xs + ys)[..|xs + ys| - 1] == xs + ys[..n];
    AddAtEnd(GroupBy(key, xs), k, ys[..n], ys[n]);
    assert ys == ys[..n] + [ys[n]];
    if n > 0 {
      GroupRun(key, xs, ys[..n], k);
    } else {
      assert xs + ys[..n] == xs;
    }
  }

  lemma OneMoreKey(before: Groups, gs: Groups)
    requires gs != [] && gs[0].0 !in KeysOf(gs[1..]) && forall k :: k in KeysOf(gs) ==> k !in KeysOf(before)
    ensures forall k :: k in KeysOf(gs[1..]) ==> k !in KeysOf(before + [gs[0]])
    ensures before + gs == (before + [gs[0]]) + gs[1..]
  {
    KeysAppend(before, [gs[0]]);
    assert [gs[0]][1..] == [];
  }

  lemma {:induction false} GroupAfter(key: Pair -> string, xs: seq<Pair>, gs: Groups)
    requires WellKept(key, gs) && forall k :: k in KeysOf(gs) ==> k !in KeysOf(GroupBy(key, xs))
    ensures GroupBy(key, xs + Flatten(gs)) == GroupBy(key, xs) + gs
    decreases |gs|
  {
    if gs == [] {
      assert xs + Flatten(gs) == xs;
    } else {
      GroupRun(key, xs, gs[0].1, gs[0].0);
      OneMoreKey(GroupBy(key, xs), gs);
      GroupAfter(key, xs + gs[0].1, gs[1..]);
      assert xs + Flatten(gs) == (xs + gs[0].1) + Flatten(gs[1..]);
    }
  }

  // Grouping the pairs of a grouping gives the grouping.
  lemma FlattenThenGroup(key: Pair -> string, gs: Groups)
    requires WellKept(key, gs)
    ensures GroupBy(key, Flatten(gs)) == gs
  {
    GroupAfter(key, [], gs);
    assert [] + Flatten(gs) == Flatten(gs) && GroupBy(key, []) + gs == gs;
  }

  // --- two levels -----------------------------------------------------------------------------------

  const BY_GROUP: Pair -> string := (p: Pair) => p.group
  const BY_UNIT: Pair -> string := (p: Pair) => p.unit

  type Tree = seq<(string, Groups)>

  function Nest(gs: Groups): Tree {
    if gs == [] then [] else [(gs[0].0, GroupBy(BY_UNIT, gs[0].1))] + Nest(gs[1..])
  }

  function TreeOf(pairs: seq<Pair>): Tree {
    Nest(GroupBy(BY_GROUP, pairs))
  }

  // setdefault(group, OrderedDict()).setdefault(unit, []).append(pair)
  function Insert(t: Tree, p: Pair): Tree {
    if t == [] then [(p.group, [(p.unit, [p])])]
    else if t[0].0 == p.group then [(p.group, Add(t[0].1, p.unit, p))] + t[1..]
    else [t[0]] + Insert(t[1..], p)
  }

  lemma {:induction false} InsertIsNested(gs: Groups, p: Pair)
    ensures Insert(Nest(gs), p) == Nest(Add(gs, p.group, p))
  {
    if gs != [] {
      if gs[0].0 == p.group {
        assert (gs[0].1 + [p])[..|gs[0].1|] == gs[0].1;
        assert Add(gs, p.group, p)[1..] == gs[1..];
      } else {
        InsertIsNested(gs[1..], p);
        assert Add(gs, p.group, p)[1..] == Add(gs[1..], p.group, p);
      }
    } else {
      assert [p][..0] == [] && [(p.group, [p])][1..] == [];
      assert GroupBy(BY_UNIT, [p]) == Add([], p.unit, p);
    }
  }

  // The loop that fills the nested dictionaries.
  method FillTree(pairs: seq<Pair>) returns (t: Tree)
    ensures t == TreeOf(pairs)
  {
    t := [];
    for i := 0 to |pairs|
      invariant t == TreeOf(pairs[..i])
    {
      assert pairs[..i + 1][..i] == pairs[..i];
      InsertIsNested(GroupBy(BY_GROUP, pairs[..i]), pairs[i]);
      t := Insert(t, pairs[i]);
    }
    assert pairs[..|pairs|] == pairs;
  }

  function Unnest(t: Tree): Groups {
    if t == [] then [] else [(t[0].0, Flatten(t[0].1))] + Unnest(t[1..])
  }

  // The pairs in the order of the file.
  function Regrouped(pairs: seq<Pair>): seq<Pair> {
    Flatten(Unnest(TreeOf(pairs)))
  }

  lemma {:induction false} UnnestKeeps(gs: Groups)
    requires WellKept(BY_GROUP, gs)
    ensures KeysOf(Unnest(Nest(gs))) == KeysOf(gs)
    ensures WellKept(BY_GROUP, Unnest(Nest(gs)))
    ensures multiset(Flatten(Unnest(Nest(gs)))) == multiset(Flatten(gs))
  {
    if gs != [] {
      UnnestKeeps(gs[1..]);
      var block := Flatten(GroupBy(BY_UNIT, gs[0].1));
      GroupByPermutes(BY_UNIT, gs[0].1);
      assert Nest(gs)[1..] == Nest(gs[1..]) && Unnest(Nest(gs))[1..] == Unnest(Nest(gs[1..]));
      assert forall x :: x in block ==> x in multiset(block);
      assert |block| == |multiset(block)|;
    }
  }

  lemma {:induction false} NestTwice(gs: Groups)
    ensures Nest(Unnest(Nest(gs))) == Nest(gs)
  {
    if gs != [] {
      NestTwice(gs[1..]);
      GroupByKeeps(BY_UNIT, gs[0].1);
      FlattenThenGroup(BY_UNIT, GroupBy(BY_UNIT, gs[0].1));
      assert Nest(gs)[1..] == Nest(gs[1..]) && Unnest(Nest(gs))[1..] == Unnest(Nest(gs[1..]));
    }
  }

  // The groups of a regrouped list are the groups of the list, each with its units regrouped.
  lemma RegroupedGroups(pairs: seq<Pair>)
    ensures GroupBy(BY_GROUP, Regrouped(pairs)) == Unnest(TreeOf(pairs))
  {
    var gs := GroupBy(BY_GROUP, pairs);
    GroupByKeeps(BY_GROUP, pairs);
    UnnestKeeps(gs);
    FlattenThenGroup(BY_GROUP, Unnest(Nest(gs)));
  }

  // Regrouping loses and invents nothing, and what was regrouped stays as it is.
  lemma RegroupingPermutes(pairs: seq<Pair>)
    ensures multiset(Regrouped(pairs)) == multiset(pairs)
    ensures TreeOf(Regrouped(pairs)) == TreeOf(pairs) && Regrouped(Regrouped(pairs)) == Regrouped(pairs)
  {
    var gs := GroupBy(BY_GROUP, pairs);
    GroupByKeeps(BY_GROUP, pairs);
    GroupByPermutes(BY_GROUP, pairs);
    UnnestKeeps(gs);
    RegroupedGroups(pairs);
    NestTwice(gs);
  }

  // The pairs of one unit of one group.
  function Of(pairs: seq<Pair>, group: string, unit: string): seq<Pair> {
    Select(BY_UNIT, Select(BY_GROUP, pairs, group), unit)
  }

  lemma {:induction false} UnnestLookup(gs: Groups, k: string)
    ensures Lookup(Unnest(Nest(gs)), k) == Flatten(GroupBy(BY_UNIT, Lookup(gs, k)))
  {
    if gs != [] {
      UnnestLookup(gs[1..], k);
      assert Nest(gs)[1..] == Nest(gs[1..]) && Unnest(Nest(gs))[1..] == Unnest(Nest(gs[1..]));
    }
  }

  // Within a unit of a group the pairs keep their order; there is one node for each distinct group and,
  // within it, one for each distinct unit, in the order in which they are first seen.
  lemma RegroupingIsStable(pairs: seq<Pair>, group: string, unit: string)
    ensures Of(Regrouped(pairs), group, unit) == Of(pairs, group, unit)
    ensures KeysOf(GroupBy(BY_GROUP, pairs)) == FirstSeen(BY_GROUP, pairs)
    ensures KeysOf(GroupBy(BY_UNIT, Select(BY_GROUP, pairs, group))) == FirstSeen(BY_UNIT, Select(BY_GROUP, pairs, group))
  {
    var ys := Select(BY_GROUP, pairs, group);
    GroupByIs(BY_GROUP, pairs, group);
    GroupByIs(BY_GROUP, Regrouped(pairs), group);
    RegroupedGroups(pairs);
    UnnestLookup(GroupBy(BY_GROUP, pairs), group);
    assert Select(BY_GROUP, Regrouped(pairs), group) == Flatten(GroupBy(BY_UNIT, ys));
    GroupByKeeps(BY_UNIT, ys);
    FlattenThenGroup(BY_UNIT, GroupBy(BY_UNIT, ys));
    GroupByIs(BY_UNIT, ys, unit);
    GroupByIs(BY_UNIT, Flatten(GroupBy(BY_UNIT, ys)), unit);
  }

  // --- nodes ------------------------------------------------------------------------------------------

  function VolumeNodes(volumes: seq<Volume>): seq<Node> {
    if volumes == [] then []
    else
      [Node("MSP", map["settlement_period_id" := Integer(volumes[0].period), "delivered_volume" := Number(volumes[0].volume)], [])]
      + VolumeNodes(volumes[1..])
  }

  function PairNode(p: Pair): Node {
    var items := map["import_msid" := Integer(p.importMsid)];
    Node("MSJ", if p.exportMsid.Some? then items["export_msid" := Integer(p.exportMsid.value)] else items, VolumeNodes(p.periods))
  }

  function PairNodes(pairs: seq<Pair>): seq<Node> {
    if pairs == [] then [] else [PairNode(pairs[0])] + PairNodes(pairs[1..])
  }

  function UnitNodes(gs: Groups): seq<Node> {
    if gs == [] then []
    else [Node("MSC", map["bm_unit_id" := Text(gs[0].0)], PairNodes(gs[0].1))] + UnitNodes(gs[1..])
  }

  function GroupNodes(t: Tree): seq<Node> {
    if t == [] then []
    else [Node("MSB", map["gsp_group_id" := Text(t[0].0)], UnitNodes(t[0].1))] + GroupNodes(t[1..])
  }

  function ToNodes(d: Delivered): seq<Node> {
    [Node("MSA", map["settlement_date" := Day(d.day)], GroupNodes(TreeOf(d.pairs)))]
  }

  // Records of other types are passed over; a value that is missing, or a constructor that raises, fails.
  function ReadVolumes(nodes: seq<Node>): Option<seq<Volume>> {
    if nodes == [] then Some([])
    else if nodes[0].recordType != "MSP" then ReadVolumes(nodes[1..])
    else
      match (Get(nodes[0].values, "settlement_period_id"), Get(nodes[0].values, "delivered_volume"), ReadVolumes(nodes[1..]))
      case (Integer(period), Number(volume), Some(others)) =>
        if Volume(period, volume).Valid() then Some([Volume(period, volume)] + others) else None
      case _ => None
  }

  function ReadPair(node: Node, group: string, unit: string): Option<Pair> {
    match (Get(node.values, "import_msid"), Get(node.values, "export_msid"), ReadVolumes(node.children))
    case (Integer(importMsid), Absent, Some(volumes)) => Checked(Pair(importMsid, volumes, group, unit, None))
    case (Integer(importMsid), Integer(exportMsid), Some(volumes)) => Checked(Pair(importMsid, volumes, group, unit, Some(exportMsid)))
    case _ => None
  }

  function Checked(p: Pair): Option<Pair> {
    if p.Valid() then Some(p) else None
  }

  function Both(a: Option<seq<Pair>>, b: Option<seq<Pair>>): Option<seq<Pair>> {
    if a.Some? && b.Some? then Some(a.value + b.value) else None
  }

  function ReadPairs(nodes: seq<Node>, group: string, unit: string): Option<seq<Pair>> {
    if nodes == [] then Some([])
    else if nodes[0].recordType != "MSJ" then ReadPairs(nodes[1..], group, unit)
    else
      match ReadPair(nodes[0], group, unit)
      case None => None
      case Some(p) => Both(Some([p]), ReadPairs(nodes[1..], group, unit))
  }

  function ReadUnits(nodes: seq<Node>, group: string): Option<seq<Pair>> {
    if nodes == [] then Some([])
    else if nodes[0].recordType != "MSC" then ReadUnits(nodes[1..], group)
    else
      match Get(nodes[0].values, "bm_unit_id")
      case Text(unit) => Both(ReadPairs(nodes[0].children, group, unit), ReadUnits(nodes[1..], group))
      case _ => None
  }

  function ReadGroups(nodes: seq<Node>): Option<seq<Pair>> {
    if nodes == [] then Some([])
    else if nodes[0].recordType != "MSB" then ReadGroups(nodes[1..])
    else
      match Get(nodes[0].values, "gsp_group_id")
      case Text(group) => Both(ReadUnits(nodes[0].children, group), ReadGroups(nodes[1..]))
      case _ => None
  }

  function FromNodes(nodes: seq<Node>): Option<Delivered> {
    if |nodes| != 1 || nodes[0].recordType != "MSA" then None
    else
      match (Get(nodes[0].values, "settlement_date"), ReadGroups(nodes[0].children))
      case (Day(day), Some(pairs)) => if Delivered(day, pairs).Valid() then Some(Delivered(day, pairs)) else None
      case _ => None
  }

  lemma {:induction false} VolumesReadBack(volumes: seq<Volume>)
    requires forall v :: v in volumes ==> v.Valid()
    ensures ReadVolumes(VolumeNodes(volumes)) == Some(volumes)
  {
    if volumes != [] {
      VolumesReadBack(volumes[1..]);
      assert VolumeNodes(volumes)[1..] == VolumeNodes(volumes[1..]);
      assert volumes == [volumes[0]] + volumes[1..];
    }
  }

  lemma PairReadsBack(p: Pair)
    requires p.Valid()
    ensures ReadPair(PairNode(p), p.group, p.unit) == Some(p)
  {
    VolumesReadBack(p.periods);
  }

  lemma {:induction false} PairsReadBack(pairs: seq<Pair>, group: string, unit: string)
    requires forall p :: p in pairs ==> p.Valid() && p.group == group && p.unit == unit
    ensures ReadPairs(PairNodes(pairs), group, unit) == Some(pairs)
  {
    if pairs != [] {
      PairReadsBack(pairs[0]);
      PairsReadBack(pairs[1..], group, unit);
      assert PairNodes(pairs)[1..] == PairNodes(pairs[1..]);
      assert pairs == [pairs[0]] + pairs[1..];
    }
  }

  lemma {:induction false} UnitsReadBack(gs: Groups, group: string)
    requires WellKept(BY_UNIT, gs) && forall p :: p in Flatten(gs) ==> p.Valid() && p.group == group
    ensures ReadUnits(UnitNodes(gs), group) == Some(Flatten(gs))
  {
    if gs != [] {
      assert forall p :: p in gs[0].1 ==> p in Flatten(gs);
      PairsReadBack(gs[0].1, group, gs[0].0);
      UnitsReadBack(gs[1..], group);
      assert UnitNodes(gs)[1..] == UnitNodes(gs[1..]);
    }
  }

  lemma GroupReadsBack(pairs: seq<Pair>, group: string)
    requires forall p :: p in pairs ==> p.Valid() && p.group == group
    ensures ReadUnits(UnitNodes(GroupBy(BY_UNIT, pairs)), group) == Some(Flatten(GroupBy(BY_UNIT, pairs)))
  {
    var units := GroupBy(BY_UNIT, pairs);
    GroupByKeeps(BY_UNIT, pairs);
    GroupByPermutes(BY_UNIT, pairs);
    assert forall p :: p in Flatten(units) ==> p in multiset(Flatten(units));
    UnitsReadBack(units, group);
  }

  lemma OneGroup(node: Node, rest: seq<Node>, group: string)
    requires node.recordType == "MSB" && node.values == map["gsp_group_id" := Text(group)]
    ensures ReadGroups([node] + rest) == Both(ReadUnits(node.children, group), ReadGroups(rest))
  {
    assert ([node] + rest)[1..] == rest;
  }

  lemma {:induction false} GroupsReadBack(gs: Groups)
    requires WellKept(BY_GROUP, gs) && forall p :: p in Flatten(gs) ==> p.Valid()
    ensures ReadGroups(GroupNodes(Nest(gs))) == Some(Flatten(Unnest(Nest(gs))))
  {
    if gs != [] {
      assert forall p :: p in gs[0].1 ==> p in Flatten(gs);
      GroupReadsBack(gs[0].1, gs[0].0);
      GroupsReadBack(gs[1..]);
      assert Nest(gs)[1..] == Nest(gs[1..]) && Unnest(Nest(gs))[1..] == Unnest(Nest(gs[1..]));
      OneGroup(GroupNodes(Nest(gs))[0], GroupNodes(Nest(gs[1..])), gs[0].0);
    }
  }

  lemma PermutedIsValid(d: Delivered, pairs: seq<Pair>)
    requires d.Valid() && multiset(pairs) == multiset(d.pairs)
    ensures d.(pairs := pairs).Valid()
  {
    assert forall p :: p in pairs <==> p in multiset(pairs);
    assert forall p :: p in d.pairs <==> p in multiset(d.pairs);
    assert |pairs| == |multiset(pairs)| && |d.pairs| == |multiset(d.pairs)|;
    assert PairKeys(pairs) == PairKeys(d.pairs);
  }

  // The nested records of a notification are read back as the notification with its pairs regrouped.
  lemma NodesReadBack(d: Delivered)
    requires d.Valid()
    ensures FromNodes(ToNodes(d)) == Some(d.(pairs := Regrouped(d.pairs)))
  {
    var gs := GroupBy(BY_GROUP, d.pairs);
    GroupByKeeps(BY_GROUP, d.pairs);
    GroupByPermutes(BY_GROUP, d.pairs);
    assert forall p :: p in Flatten(gs) ==> p in multiset(Flatten(gs));
    GroupsReadBack(gs);
    RegroupingPermutes(d.pairs);
    PermutedIsValid(d, Regrouped(d.pairs));
  }
}
