// The shape of a flow: record types, their order, nesting, repetition and data items (section 2.2.4).
module FlowSpec {
  import opened Wrappers
  import opened Fields
  import opened Lines

  datatype Cardinality = Cardinality(minimum: nat, maximum: Option<nat>, clockChange: bool) {
    predicate Permits(count: nat) {
      && count >= minimum
      && (maximum.Some? ==> count <= maximum.value)
      && (clockChange ==> count in {46, 48, 50})
    }
  }

  datatype Record = Record(recordType: string, cardinality: Cardinality, fields: seq<Field>, children: seq<Record>)

  datatype Flow = Flow(fileType: string, records: seq<Record>)

  function Types(specs: seq<Record>): set<string> {
    set s | s in specs :: s.recordType
  }

  predicate DistinctItems(fields: seq<Field>) {
    forall i, j :: 0 <= i < j < |fields| ==> fields[i].itemId != fields[j].itemId
  }

  // Every record has a data item, no two of one key, and a type that a separator can follow.
  predicate WellFormed(specs: seq<Record>) {
    forall s :: s in specs ==>
      && s.fields != []
      && DistinctItems(s.fields)
      && SEPARATOR !in s.recordType
      && WellFormed(s.children)
  }

  // No record can be taken for one that may follow its parent: `follow` holds the types that can come
  // after the group. A type may be used again elsewhere in the flow.
  predicate Unambiguous(specs: seq<Record>, follow: set<string>) {
    specs == [] ||
    (&& specs[0].recordType !in follow
     && Unambiguous(specs[0].children, follow + Types(specs))
     && Unambiguous(specs[1..], follow))
  }

  // All record types of a group, at every depth.
  function AllTypes(specs: seq<Record>): set<string> {
    if specs == [] then {} else {specs[0].recordType} + AllTypes(specs[0].children) + AllTypes(specs[1..])
  }

  predicate PairwiseDistinct(specs: seq<Record>) {
    specs == [] ||
    (&& specs[0].recordType !in AllTypes(specs[0].children)
     && specs[0].recordType !in AllTypes(specs[1..])
     && AllTypes(specs[0].children) !! AllTypes(specs[1..])
     && PairwiseDistinct(specs[0].children)
     && PairwiseDistinct(specs[1..]))
  }

  lemma TypesAreAmongAll(specs: seq<Record>)
    ensures Types(specs) <= AllTypes(specs)
  {
    if specs != [] {
      TypesAreAmongAll(specs[1..]);
      forall t | t in Types(specs) ensures t in AllTypes(specs) {
        var s :| s in specs && s.recordType == t;
        assert s == specs[0] || s in specs[1..];
      }
    }
  }

  // Record types that are pairwise distinct within a flow are unambiguous; the converse need not hold.
  lemma {:induction false} DistinctIsUnambiguous(specs: seq<Record>, follow: set<string>)
    requires PairwiseDistinct(specs) && AllTypes(specs) !! follow
    ensures Unambiguous(specs, follow)
  {
    if specs != [] {
      TypesAreAmongAll(specs[1..]);
      assert Types(specs) <= {specs[0].recordType} + AllTypes(specs[1..]) by {
        assert specs == [specs[0]] + specs[1..];
        forall t | t in Types(specs) ensures t in {specs[0].recordType} + Types(specs[1..]) {
          var s :| s in specs && s.recordType == t;
          assert s == specs[0] || s in specs[1..];
        }
      }
      DistinctIsUnambiguous(specs[0].children, follow + Types(specs));
      DistinctIsUnambiguous(specs[1..], follow);
    }
  }
}
