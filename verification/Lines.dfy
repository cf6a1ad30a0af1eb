// Splitting and joining text at a separator, records, and text as bytes.
module Lines {
  import opened Wrappers
  import opened Checksum

  const SEPARATOR: char := '|'
  const NEWLINE: char := '\n'

  // --- split and join -------------------------------------------------------------

  // text.split(sep)
  function Split(text: string, sep: char): (parts: seq<string>)
    ensures parts != []
  {
    if text == "" then [""]
    else
      var parts := Split(text[1..], sep);
      if text[0] == sep then [""] + parts else [[text[0]] + parts[0]] + parts[1..]
  }

  // sep.join(parts)
  function Join(parts: seq<string>, sep: char): string {
    if parts == [] then ""
    else if |parts| == 1 then parts[0]
    else parts[0] + [sep] + Join(parts[1..], sep)
  }

  function Count(text: string, sep: char): nat {
    if text == "" then 0 else (if text[0] == sep then 1 else 0) + Count(text[1..], sep)
  }

  predicate StartsWith(text: string, prefix: string) {
    prefix <= text
  }

  lemma {:induction false} SplitPrefix(a: string, b: string, sep: char)
    requires sep !in a
    ensures Split(a + [sep] + b, sep) == [a] + Split(b, sep)
    ensures Split(a, sep) == [a]
  {
    if a == "" {
      assert (a + [sep] + b)[1..] == b;
    } else {
      SplitPrefix(a[1..], b, sep);
      assert (a + [sep] + b)[1..] == a[1..] + [sep] + b;
      assert a == [a[0]] + a[1..];
    }
  }

  // Splitting undoes joining.
  lemma {:induction false} SplitJoin(parts: seq<string>, sep: char)
    requires parts != []
    requires forall i :: 0 <= i < |parts| ==> sep !in parts[i]
    ensures Split(Join(parts, sep), sep) == parts
  {
    if |parts| == 1 {
      SplitPrefix(parts[0], "", sep);
    } else {
      SplitJoin(parts[1..], sep);
      SplitPrefix(parts[0], Join(parts[1..], sep), sep);
    }
  }

  // Puts a character in front of a split text.
  function Extend(c: char, parts: seq<string>, sep: char): seq<string>
    requires parts != []
  {
    if c == sep then [""] + parts else [[c] + parts[0]] + parts[1..]
  }

  lemma SplitStep(c: char, text: string, sep: char)
    ensures Split([c] + text, sep) == Extend(c, Split(text, sep), sep)
  {
    assert ([c] + text)[1..] == text;
  }

  lemma ExtendAppend(c: char, front: seq<string>, back: seq<string>, sep: char)
    requires front != []
    ensures Extend(c, front + back, sep) == Extend(c, front, sep) + back
  {
  }

  lemma {:induction false} SplitAppend(a: string, b: string, sep: char)
    ensures Split(a + [sep] + b, sep) == Split(a, sep) + Split(b, sep)
  {
    if a == "" {
      assert a + [sep] + b == [sep] + b;
      SplitStep(sep, b, sep);
    } else {
      SplitAppend(a[1..], b, sep);
      SplitStep(a[0], a[1..] + [sep] + b, sep);
      SplitStep(a[0], a[1..], sep);
      ExtendAppend(a[0], Split(a[1..], sep), Split(b, sep), sep);
      assert a + [sep] + b == [a[0]] + (a[1..] + [sep] + b);
      assert a == [a[0]] + a[1..];
    }
  }

  lemma {:induction false} SplitCount(text: string, sep: char)
    ensures |Split(text, sep)| == Count(text, sep) + 1
  {
    if text != "" {
      SplitCount(text[1..], sep);
    }
  }

  lemma {:induction false} CountAppend(a: string, b: string, sep: char)
    ensures Count(a + b, sep) == Count(a, sep) + Count(b, sep)
  {
    if a == "" {
      assert a + b == b;
    } else {
      CountAppend(a[1..], b, sep);
      assert (a + b)[1..] == a[1..] + b;
    }
  }

  lemma {:induction false} CountNone(text: string, sep: char)
    ensures Count(text, sep) == 0 <==> sep !in text
  {
    if text != "" {
      CountNone(text[1..], sep);
      assert text == [text[0]] + text[1..];
    }
  }

  // The pieces of a split hold no separator, and joining them gives the text back.
  lemma {:induction false} JoinSplit(text: string, sep: char)
    ensures Join(Split(text, sep), sep) == text
    ensures forall i :: 0 <= i < |Split(text, sep)| ==> sep !in Split(text, sep)[i]
  {
    if text != "" {
      JoinSplit(text[1..], sep);
      var parts := Split(text[1..], sep);
      if text[0] == sep {
        assert ([""] + parts)[1..] == parts;
      } else {
        var whole := [[text[0]] + parts[0]] + parts[1..];
        assert whole[1..] == parts[1..];
        assert |parts| > 1 ==> Join(whole, sep) == [text[0]] + (parts[0] + [sep] + Join(parts[1..], sep));
      }
    }
  }

  // --- records ----------------------------------------------------------------------

  // n fields, n + 1 separators: one stands at the end.
  function JoinRecord(recordType: string, values: seq<string>): string {
    recordType + [SEPARATOR] + Join(values, SEPARATOR) + [SEPARATOR]
  }

  lemma RecordOfTwo(recordType: string, a: string, b: string)
    ensures JoinRecord(recordType, [a, b]) == recordType + [SEPARATOR] + a + [SEPARATOR] + b + [SEPARATOR]
  {
    assert Join([a, b][1..], SEPARATOR) == b;
  }

  predicate IsRecordOf(line: string, recordType: string) {
    StartsWith(line, recordType + [SEPARATOR])
  }

  // The fields of a record of the expected type and number of fields; None where FileError is raised.
  function SplitRecord(line: string, expectedType: string, expected: nat): Option<seq<string>> {
    if !IsRecordOf(line, expectedType) then None
    else if line[|line| - 1] != SEPARATOR then None
    else
      var pieces := Split(line, SEPARATOR);
      SplitCount(line, SEPARATOR);
      SeparatorCounted(line, |expectedType|);
      var parts := pieces[1..|pieces| - 1];
      if |parts| != expected then None else Some(parts)
  }

  lemma {:induction false} SeparatorCounted(line: string, i: nat)
    requires i < |line| && line[i] == SEPARATOR
    ensures Count(line, SEPARATOR) >= 1
  {
    CountNone(line, SEPARATOR);
  }

  lemma SplitRecordJoined(recordType: string, values: seq<string>)
    requires values != [] && SEPARATOR !in recordType
    requires forall i :: 0 <= i < |values| ==> SEPARATOR !in values[i]
    ensures SplitRecord(JoinRecord(recordType, values), recordType, |values|) == Some(values)
  {
    var line := JoinRecord(recordType, values);
    var joined := Join(values, SEPARATOR);
    SplitAppend(recordType + [SEPARATOR] + joined, "", SEPARATOR);
    SplitPrefix(recordType, joined, SEPARATOR);
    SplitJoin(values, SEPARATOR);
    assert line == recordType + [SEPARATOR] + joined + [SEPARATOR] + "";
    assert Split(line, SEPARATOR) == [recordType] + values + [""];
    assert ([recordType] + values + [""])[1..|values| + 1] == values;
    assert line[..|recordType| + 1] == recordType + [SEPARATOR];
  }

  // Whatever is read as a record of n fields has n + 1 separators, the last one at its end.
  lemma SplitRecordShape(line: string, expectedType: string, expected: nat)
    requires SplitRecord(line, expectedType, expected).Some?
    ensures IsRecordOf(line, expectedType) && line[|line| - 1] == SEPARATOR
    ensures Count(line, SEPARATOR) == expected + 1
  {
    SplitCount(line, SEPARATOR);
    SeparatorCounted(line, |expectedType|);
  }

  // A record written without fields is read as a record with one empty field.
  lemma EmptyRecordHasOneField(recordType: string)
    requires SEPARATOR !in recordType
    ensures SplitRecord(JoinRecord(recordType, []), recordType, 0) == None
    ensures SplitRecord(JoinRecord(recordType, []), recordType, 1) == Some([""])
  {
    SplitRecordJoined(recordType, [""]);
    assert JoinRecord(recordType, []) == JoinRecord(recordType, [""]);
  }

  lemma OneRecordType(line: string, t: string, u: string)
    requires IsRecordOf(line, t) && IsRecordOf(line, u)
    requires SEPARATOR !in t && SEPARATOR !in u
    ensures t == u
  {
    assert line[|t|] == SEPARATOR && line[|u|] == SEPARATOR;
    assert t == line[..|t|] && u == line[..|u|];
    assert forall i :: 0 <= i < |t| ==> line[i] == t[i];
    assert forall i :: 0 <= i < |u| ==> line[i] == u[i];
  }

  lemma JoinedIsRecordOf(recordType: string, values: seq<string>)
    ensures IsRecordOf(JoinRecord(recordType, values), recordType)
  {
    assert JoinRecord(recordType, values)[..|recordType| + 1] == recordType + [SEPARATOR];
  }

  // --- bytes ------------------------------------------------------------------------

  predicate Ascii(text: string) {
    forall i :: 0 <= i < |text| ==> text[i] as int < 0x80
  }

  // text.encode("ascii")
  function ToBytes(text: string): (b: Bytes)
    requires Ascii(text)
    ensures |b| == |text| && forall i :: 0 <= i < |text| ==> b[i] == text[i] as int
  {
    seq(|text|, i requires 0 <= i < |text| => text[i] as int)
  }

  // bytes.decode("ascii"); None where UnicodeDecodeError is raised.
  function FromBytes(b: Bytes): (text: Option<string>)
    ensures text.Some? <==> forall i :: 0 <= i < |b| ==> b[i] < 0x80
    ensures text.Some? ==> |text.value| == |b| && forall i :: 0 <= i < |b| ==> text.value[i] as int == b[i]
  {
    if forall i :: 0 <= i < |b| ==> b[i] < 0x80
    then Some(seq(|b|, i requires 0 <= i < |b| => b[i] as char))
    else None
  }

  lemma FromToBytes(text: string)
    requires Ascii(text)
    ensures FromBytes(ToBytes(text)) == Some(text)
  {
    assert FromBytes(ToBytes(text)).value == text;
  }
}
