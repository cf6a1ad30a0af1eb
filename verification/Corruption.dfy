// One changed byte, anywhere in a built file, is always noticed.
module Corruption {
  import opened Wrappers
  import opened Digits
  import opened Checksum
  import opened Lines
  import opened FlowSpec
  import opened FileCodec
  import opened RoundTrip
  import Fields

  // --- a file as terminated lines -----------------------------------------------------

  function Terminate(lines: seq<string>): string {
    if lines == [] then "" else lines[0] + [NEWLINE] + Terminate(lines[1..])
  }

  lemma {:induction false} TerminateAppend(a: seq<string>, b: seq<string>)
    ensures Terminate(a + b) == Terminate(a) + Terminate(b)
  {
    if a == [] {
      assert a + b == b;
    } else {
      TerminateAppend(a[1..], b);
      assert (a + b)[1..] == a[1..] + b;
    }
  }

  lemma {:induction false} TerminateIsJoin(lines: seq<string>)
    requires lines != []
    ensures Terminate(lines) == Join(lines, NEWLINE) + [NEWLINE]
  {
    if |lines| > 1 {
      TerminateIsJoin(lines[1..]);
    }
  }

  predicate Lineless(lines: seq<string>) {
    forall i :: 0 <= i < |lines| ==> NEWLINE !in lines[i]
  }

  lemma {:induction false} RecordsOfTerminated(lines: seq<string>, tail: string)
    requires Lineless(lines) && NEWLINE !in tail
    ensures Split(Terminate(lines) + tail, NEWLINE) == lines + [tail]
  {
    if lines == [] {
      assert "" + tail == tail;
      SplitPrefix(tail, "", NEWLINE);
    } else {
      RecordsOfTerminated(lines[1..], tail);
      SplitPrefix(lines[0], Terminate(lines[1..]) + tail, NEWLINE);
      assert Terminate(lines) + tail == lines[0] + [NEWLINE] + (Terminate(lines[1..]) + tail);
    }
  }

  // The line a position belongs to, and its offset in the line; the line feed comes after the last one.
  lemma {:induction false} Locate(lines: seq<string>, p: nat) returns (k: nat, i: nat)
    requires p < |Terminate(lines)|
    ensures k < |lines| && i <= |lines[k]| && p == |Terminate(lines[..k])| + i
  {
    if p <= |lines[0]| {
      k, i := 0, p;
    } else {
      k, i := Locate(lines[1..], p - |lines[0]| - 1);
      k := k + 1;
      assert lines[..k][1..] == lines[1..][..k - 1];
    }
  }

  // The text around a position.
  lemma Around(lines: seq<string>, k: nat)
    requires k < |lines|
    ensures Terminate(lines) == Terminate(lines[..k]) + (lines[k] + [NEWLINE]) + Terminate(lines[k + 1..])
  {
    assert lines == lines[..k] + lines[k..];
    TerminateAppend(lines[..k], lines[k..]);
    assert lines[k..][1..] == lines[k + 1..];
  }

  lemma Substitute(a: string, b: string, c: string, i: nat, x: char)
    requires i < |b|
    ensures (a + b + c)[|a| + i := x] == a + b[i := x] + c
  {
  }

  // The lines that one changed character leaves: a line with a change in it, a line cut in two, two
  // lines run together, or a last line that is not terminated any more.
  function ChangedLines(lines: seq<string>, k: nat, i: nat, x: char): seq<string>
    requires k < |lines| && i <= |lines[k]|
  {
    if i < |lines[k]| && x != NEWLINE then lines[..k] + [lines[k][i := x]] + lines[k + 1..]
    else if i < |lines[k]| then lines[..k] + [lines[k][..i], lines[k][i + 1..]] + lines[k + 1..]
    else if k + 1 < |lines| then lines[..k] + [lines[k] + [x] + lines[k + 1]] + lines[k + 2..]
    else lines[..k] + [lines[k] + [x]]
  }

  lemma TerminateThree(a: seq<string>, b: seq<string>, c: seq<string>)
    ensures Terminate(a + b + c) == Terminate(a) + Terminate(b) + Terminate(c)
  {
    TerminateAppend(a + b, c);
    TerminateAppend(a, b);
  }

  lemma TerminateOne(a: string)
    ensures Terminate([a]) == a + [NEWLINE]
  {
    assert [a][1..] == [];
  }

  lemma LineChanged(lines: seq<string>, k: nat, i: nat, x: char)
    requires Lineless(lines) && k < |lines| && i < |lines[k]| && x != NEWLINE
    ensures var head, tail := Terminate(lines[..k]), Terminate(lines[k + 1..]);
            RecordsOf(head + (lines[k] + [NEWLINE])[i := x] + tail) == ChangedLines(lines, k, i, x)
  {
    assert (lines[k] + [NEWLINE])[i := x] == lines[k][i := x] + [NEWLINE];
    TerminateOne(lines[k][i := x]);
    TerminateThree(lines[..k], [lines[k][i := x]], lines[k + 1..]);
    TerminatedRecords(ChangedLines(lines, k, i, x));
  }

  lemma LineCut(lines: seq<string>, k: nat, i: nat)
    requires Lineless(lines) && k < |lines| && i < |lines[k]|
    ensures var head, tail := Terminate(lines[..k]), Terminate(lines[k + 1..]);
            RecordsOf(head + (lines[k] + [NEWLINE])[i := NEWLINE] + tail) == ChangedLines(lines, k, i, NEWLINE)
  {
    var a, b := lines[k][..i], lines[k][i + 1..];
    assert (lines[k] + [NEWLINE])[i := NEWLINE] == (a + [NEWLINE]) + (b + [NEWLINE]);
    TerminateOne(a);
    TerminateOne(b);
    TerminateAppend([a], [b]);
    assert [a, b] == [a] + [b];
    TerminateThree(lines[..k], [a, b], lines[k + 1..]);
    TerminatedRecords(ChangedLines(lines, k, i, NEWLINE));
  }

  lemma JoinedText(lines: seq<string>, k: nat, x: char)
    requires k + 1 < |lines|
    ensures lines[k] + [x] + Terminate(lines[k + 1..])
         == (lines[k] + [x] + lines[k + 1]) + [NEWLINE] + Terminate(lines[k + 2..])
  {
    assert lines[k + 1..][1..] == lines[k + 2..];
    assert Terminate(lines[k + 1..]) == lines[k + 1] + [NEWLINE] + Terminate(lines[k + 2..]);
  }

  lemma LinesJoined(lines: seq<string>, k: nat, x: char)
    requires Lineless(lines) && k + 1 < |lines| && x != NEWLINE
    ensures var head, tail := Terminate(lines[..k]), Terminate(lines[k + 1..]);
            RecordsOf(head + (lines[k] + [NEWLINE])[|lines[k]| := x] + tail) == ChangedLines(lines, k, |lines[k]|, x)
  {
    var joined := lines[k] + [x] + lines[k + 1];
    var head, tail, rest := Terminate(lines[..k]), Terminate(lines[k + 1..]), Terminate(lines[k + 2..]);
    assert (lines[k] + [NEWLINE])[|lines[k]| := x] == lines[k] + [x];
    TerminateOne(joined);
    TerminateThree(lines[..k], [joined], lines[k + 2..]);
    JoinedText(lines, k, x);
    assert head + (lines[k] + [x]) + tail == head + (lines[k] + [x] + tail);
    assert head + (joined + [NEWLINE]) + rest == head + (joined + [NEWLINE] + rest);
    TerminatedRecords(ChangedLines(lines, k, |lines[k]|, x));
  }

  lemma LastLineOpen(lines: seq<string>, k: nat, x: char)
    requires Lineless(lines) && k + 1 == |lines| && x != NEWLINE
    ensures var head, tail := Terminate(lines[..k]), Terminate(lines[k + 1..]);
            RecordsOf(head + (lines[k] + [NEWLINE])[|lines[k]| := x] + tail) == ChangedLines(lines, k, |lines[k]|, x)
  {
    var head := Terminate(lines[..k]);
    assert lines[k + 1..] == [];
    assert head + (lines[k] + [NEWLINE])[|lines[k]| := x] + "" == head + (lines[k] + [x]);
    RecordsOfTerminated(lines[..k], lines[k] + [x]);
  }

  // What the records of a file become when one character of its text changes.
  lemma ChangedRecords(lines: seq<string>, p: nat, x: char) returns (k: nat, i: nat)
    requires Lineless(lines) && p < |Terminate(lines)| && x != Terminate(lines)[p]
    ensures k < |lines| && i <= |lines[k]|
    ensures i < |lines[k]| ==> x != lines[k][i]
    ensures RecordsOf(Terminate(lines)[p := x]) == ChangedLines(lines, k, i, x)
  {
    k, i := Locate(lines, p);
    var head, line, tail := Terminate(lines[..k]), lines[k] + [NEWLINE], Terminate(lines[k + 1..]);
    Around(lines, k);
    Substitute(head, line, tail, i, x);
    assert (head + line + tail)[|head| + i] == line[i];
    if i < |lines[k]| {
      if x == NEWLINE {
        LineCut(lines, k, i);
      } else {
        LineChanged(lines, k, i, x);
      }
    } else if k + 1 < |lines| {
      LinesJoined(lines, k, x);
    } else {
      LastLineOpen(lines, k, x);
    }
  }

  lemma TerminatedRecords(lines: seq<string>)
    requires Lineless(lines) && lines != []
    ensures RecordsOf(Terminate(lines)) == lines
  {
    RecordsOfTerminated(lines, "");
    assert Terminate(lines) + "" == Terminate(lines);
    assert (lines + [""])[..|lines|] == lines;
  }

  // --- footers --------------------------------------------------------------------------

  // Whatever is read as a footer has three separators, the last one at its end.
  lemma FooterShape(line: string)
    requires ParseFooter(line).Some?
    ensures IsRecordOf(line, FOOTER_TYPE) && line[|line| - 1] == SEPARATOR && Count(line, SEPARATOR) == 3
  {
    SplitRecordShape(line, FOOTER_TYPE, 2);
  }

  lemma ExtendedFooter(footer: string, x: char)
    requires Count(footer, SEPARATOR) == 3
    ensures ParseFooter(footer + [x]).None?
  {
    var extended := footer + [x];
    CountAppend(footer, [x], SEPARATOR);
    CountNone([x], SEPARATOR);
    assert extended[|extended| - 1] == x && x in [x];
    if ParseFooter(extended).Some? {
      FooterShape(extended);
    }
  }

  lemma PrefixedFooter(record: string, footer: string, x: char)
    requires SEPARATOR in record && Count(footer, SEPARATOR) == 3
    ensures ParseFooter(record + [x] + footer).None?
  {
    CountAppend(record + [x], footer, SEPARATOR);
    CountAppend(record, [x], SEPARATOR);
    CountNone(record, SEPARATOR);
    if ParseFooter(record + [x] + footer).Some? {
      FooterShape(record + [x] + footer);
    }
  }

  lemma CutBeforeSeparator(head: string, rest: string)
    requires head != "" && SEPARATOR !in head
    requires IsRecordOf(head + rest, FOOTER_TYPE)
    ensures !IsRecordOf(rest, FOOTER_TYPE)
  {
    var footer := head + rest;
    assert footer[3] == SEPARATOR;
    assert |head| <= 3;
    assert rest[3 - |head|] == SEPARATOR;
    assert FOOTER_TYPE[3 - |head|] == 'Z' != SEPARATOR;
  }

  lemma CutFooter(head: string, rest: string)
    requires head != "" && IsRecordOf(head + rest, FOOTER_TYPE) && Count(head + rest, SEPARATOR) == 3
    ensures ParseFooter(rest).None?
  {
    CountAppend(head, rest, SEPARATOR);
    CountNone(head, SEPARATOR);
    if SEPARATOR !in head {
      CutBeforeSeparator(head, rest);
    }
    if ParseFooter(rest).Some? {
      FooterShape(rest);
    }
  }

  lemma {:induction false} CountSubstituted(s: string, i: nat, x: char)
    requires i < |s|
    ensures Count(s[i := x], SEPARATOR) - Count(s, SEPARATOR)
         == (if x == SEPARATOR then 1 else 0) - (if s[i] == SEPARATOR then 1 else 0)
  {
    if i == 0 {
      assert s[i := x][1..] == s[1..];
    } else {
      assert s[i := x][1..] == s[1..][i - 1 := x];
      CountSubstituted(s[1..], i - 1, x);
    }
  }

  lemma FooterText(count: nat, checksum: nat)
    ensures FooterRecord(count, checksum) == "ZZZ|" + NatText(count) + "|" + NatText(checksum) + "|"
  {
    RecordOfTwo(FOOTER_TYPE, NatText(count), NatText(checksum));
  }

  lemma FieldsOfFooter(a: string, b: string)
    requires SEPARATOR !in a && SEPARATOR !in b
    ensures SplitRecord("ZZZ|" + a + "|" + b + "|", FOOTER_TYPE, 2) == Some([a, b])
  {
    SplitRecordJoined(FOOTER_TYPE, [a, b]);
    RecordOfTwo(FOOTER_TYPE, a, b);
    assert "ZZZ|" == FOOTER_TYPE + [SEPARATOR] && "|" == [SEPARATOR];
  }

  lemma ChangedCount(count: nat, checksum: nat, j: nat, x: char)
    requires j < |NatText(count)| && x != NatText(count)[j] && x != SEPARATOR
    ensures ParseFooter("ZZZ|" + NatText(count)[j := x] + "|" + NatText(checksum) + "|") != Some((count, checksum))
  {
    Fields.DigitsAreClean(NatText(count));
    Fields.DigitsAreClean(NatText(checksum));
    FieldsOfFooter(NatText(count)[j := x], NatText(checksum));
    ReadIntNoticesChange(count, j, x);
  }

  lemma ChangedChecksum(count: nat, checksum: nat, j: nat, x: char)
    requires j < |NatText(checksum)| && x != NatText(checksum)[j] && x != SEPARATOR
    ensures ParseFooter("ZZZ|" + NatText(count) + "|" + NatText(checksum)[j := x] + "|") != Some((count, checksum))
  {
    Fields.DigitsAreClean(NatText(count));
    Fields.DigitsAreClean(NatText(checksum));
    FieldsOfFooter(NatText(count), NatText(checksum)[j := x]);
    ReadIntNoticesChange(checksum, j, x);
  }

  // A changed separator or a separator more is seen by counting them.
  lemma ChangedSeparator(count: nat, checksum: nat, i: nat, x: char)
    requires i < |FooterRecord(count, checksum)| && x != FooterRecord(count, checksum)[i]
    requires x == SEPARATOR || FooterRecord(count, checksum)[i] == SEPARATOR
    ensures ParseFooter(FooterRecord(count, checksum)[i := x]).None?
  {
    var footer := FooterRecord(count, checksum);
    FooterRoundTrip(count, checksum);
    FooterShape(footer);
    CountSubstituted(footer, i, x);
    if ParseFooter(footer[i := x]).Some? {
      FooterShape(footer[i := x]);
    }
  }

  // One changed character in a footer: it is no footer any more, or it declares something else.
  lemma ChangedFooter(count: nat, checksum: nat, i: nat, x: char)
    requires i < |FooterRecord(count, checksum)| && x != FooterRecord(count, checksum)[i]
    ensures ParseFooter(FooterRecord(count, checksum)[i := x]) != Some((count, checksum))
  {
    var footer := FooterRecord(count, checksum);
    var a, b := NatText(count), NatText(checksum);
    FooterText(count, checksum);
    if x == SEPARATOR || footer[i] == SEPARATOR {
      ChangedSeparator(count, checksum, i, x);
    } else if i < 3 {
      assert footer[i] == 'Z' == FOOTER_TYPE[i] && footer[i := x][i] == x;
      if ParseFooter(footer[i := x]).Some? {
        FooterShape(footer[i := x]);
      }
    } else if i < 4 + |a| {
      var j := i - 4;
      assert footer[i] == a[j];
      assert footer[i := x] == "ZZZ|" + a[j := x] + "|" + b + "|";
      ChangedCount(count, checksum, j, x);
    } else {
      assert footer[4 + |a|] == SEPARATOR && footer[5 + |a| + |b|] == SEPARATOR;
      var j := i - 5 - |a|;
      assert footer[i] == b[j];
      assert footer[i := x] == "ZZZ|" + a + "|" + b[j := x] + "|";
      ChangedChecksum(count, checksum, j, x);
    }
  }

  // --- the file -------------------------------------------------------------------------

  predicate AllAscii(lines: seq<string>) {
    forall i :: 0 <= i < |lines| ==> Ascii(lines[i])
  }

  // A file whose footer is read, but declares another count or checksum, is refused.
  lemma WrongFooter(records: seq<string>, flow: Flow)
    requires AllAscii(records) && records != []
    requires match ParseFooter(records[|records| - 1])
             case None => true
             case Some((count, checksum)) =>
               count != |records| || checksum != FileChecksum(EncodeLines(records[..|records| - 1]))
    ensures ParseRecords(records, flow).Failure?
  {
  }

  lemma ChecksumMoves(records: seq<string>, k: nat, i: nat, x: char)
    requires AllAscii(records) && Ascii([x])
    requires k < |records| && i < |records[k]| && x != records[k][i]
    ensures AllAscii(records[k := records[k][i := x]])
    ensures FileChecksum(EncodeLines(records[k := records[k][i := x]])) != FileChecksum(EncodeLines(records))
  {
    var changed := records[k := records[k][i := x]];
    assert x == [x][0];
    assert AllAscii(changed);
    var before, after := EncodeLines(records), EncodeLines(changed);
    assert after == before[k := after[k]];
    assert after[k] == before[k][i := after[k][i]];
    FileNoticesChange(before, k, i, after[k]);
  }

  // A file with the wrong checksum in its footer.
  lemma Mischecked(records: seq<string>, checksum: nat, flow: Flow)
    requires AllAscii(records) && FileChecksum(EncodeLines(records)) != checksum
    ensures AllAscii(records + [FooterRecord(|records| + 1, checksum)])
    ensures ParseRecords(records + [FooterRecord(|records| + 1, checksum)], flow).Failure?
  {
    FooterIsAscii(|records| + 1, checksum);
    FooterRoundTrip(|records| + 1, checksum);
    var all := records + [FooterRecord(|records| + 1, checksum)];
    assert all[..|all| - 1] == records;
    WrongFooter(all, flow);
  }

  // A footer that no longer counts the records there are.
  lemma Miscounted(records: seq<string>, count: nat, checksum: nat, flow: Flow)
    requires AllAscii(records) && |records| + 1 != count
    ensures AllAscii(records + [FooterRecord(count, checksum)])
    ensures ParseRecords(records + [FooterRecord(count, checksum)], flow).Failure?
  {
    FooterIsAscii(count, checksum);
    FooterRoundTrip(count, checksum);
    var all := records + [FooterRecord(count, checksum)];
    assert all[|all| - 1] == FooterRecord(count, checksum);
    WrongFooter(all, flow);
  }

  lemma FooterKept(records: seq<string>, k: nat, i: nat, x: char, footer: string)
    requires k < |records| && i <= |records[k]|
    requires i < |records[k]| || k + 1 < |records|
    ensures ChangedLines(records + [footer], k, i, x) == ChangedLines(records, k, i, x) + [footer]
  {
    var all := records + [footer];
    assert all[..k] == records[..k] && all[k] == records[k];
    assert all[k + 1..] == records[k + 1..] + [footer];
    if k + 1 < |records| {
      assert all[k + 1] == records[k + 1] && all[k + 2..] == records[k + 2..] + [footer];
    }
  }

  lemma ChangedIsAscii(lines: seq<string>, k: nat, i: nat, x: char)
    requires AllAscii(lines) && Ascii([x]) && k < |lines| && i <= |lines[k]|
    ensures AllAscii(ChangedLines(lines, k, i, x))
  {
    assert x == [x][0];
  }

  lemma ChangedCounts(lines: seq<string>, k: nat, i: nat, x: char)
    requires k < |lines| && i <= |lines[k]|
    requires i < |lines[k]| || k + 1 < |lines|
    ensures i < |lines[k]| && x != NEWLINE ==> ChangedLines(lines, k, i, x) == lines[k := lines[k][i := x]]
    ensures !(i < |lines[k]| && x != NEWLINE) ==> |ChangedLines(lines, k, i, x)| != |lines|
  {
  }

  lemma SameCountBeforeFooter(records: seq<string>, k: nat, i: nat, x: char, flow: Flow)
    requires AllAscii(records) && Ascii([x]) && k < |records| && i < |records[k]| && x != records[k][i]
    ensures var changed := records[k := records[k][i := x]] + [FooterRecord(|records| + 1, FileChecksum(EncodeLines(records)))];
            AllAscii(changed) && ParseRecords(changed, flow).Failure?
  {
    ChecksumMoves(records, k, i, x);
    Mischecked(records[k := records[k][i := x]], FileChecksum(EncodeLines(records)), flow);
  }

  // One changed character before the last record's end leaves the footer as it was.
  lemma ChangedBeforeFooter(records: seq<string>, k: nat, i: nat, x: char, footer: string, flow: Flow)
    requires AllAscii(records) && Ascii([x]) && k < |records| && i <= |records[k]|
    requires i < |records[k]| || k + 1 < |records|
    requires i < |records[k]| ==> x != records[k][i]
    requires footer == FooterRecord(|records| + 1, FileChecksum(EncodeLines(records)))
    ensures AllAscii(ChangedLines(records, k, i, x) + [footer])
    ensures ParseRecords(ChangedLines(records, k, i, x) + [footer], flow).Failure?
  {
    var changed := ChangedLines(records, k, i, x);
    ChangedIsAscii(records, k, i, x);
    ChangedCounts(records, k, i, x);
    if i < |records[k]| && x != NEWLINE {
      SameCountBeforeFooter(records, k, i, x, flow);
    } else {
      Miscounted(changed, |records| + 1, FileChecksum(EncodeLines(records)), flow);
    }
  }

  lemma LastOfChanged(lines: seq<string>, k: nat, i: nat, x: char)
    requires k < |lines| && i <= |lines[k]| && (k == |lines| - 1 || (k == |lines| - 2 && i == |lines[k]|))
    ensures var changed, n := ChangedLines(lines, k, i, x), |lines| - 1;
            && changed != []
            && (k == n ==> changed[..n] == lines[..n])
            && changed[|changed| - 1] ==
               if k < n then lines[k] + [x] + lines[n]
               else if i == |lines[n]| then lines[n] + [x]
               else if x == NEWLINE then lines[n][i + 1..]
               else lines[n][i := x]
  {
  }

  // A footer with one changed character, cut off, extended, or run together with the record before it:
  // it is no footer, or one that declares something else.
  lemma FooterChanged(record: string, count: nat, checksum: nat, i: nat, x: char)
    requires SEPARATOR in record
    ensures var footer := FooterRecord(count, checksum);
            && ParseFooter(record + [x] + footer).None?
            && ParseFooter(footer + [x]).None?
            && (i < |footer| ==> ParseFooter(footer[i + 1..]).None?)
            && (i < |footer| && x != footer[i] ==> ParseFooter(footer[i := x]) != Some((count, checksum)))
  {
    var footer := FooterRecord(count, checksum);
    FooterSeparators(count, checksum);
    PrefixedFooter(record, footer, x);
    ExtendedFooter(footer, x);
    if i < |footer| {
      FooterCut(footer, i);
      if x != footer[i] {
        ChangedFooter(count, checksum, i, x);
      }
    }
  }

  lemma FooterSeparators(count: nat, checksum: nat)
    ensures Count(FooterRecord(count, checksum), SEPARATOR) == 3
    ensures IsRecordOf(FooterRecord(count, checksum), FOOTER_TYPE)
  {
    FooterRoundTrip(count, checksum);
    FooterShape(FooterRecord(count, checksum));
  }

  lemma FooterCut(footer: string, i: nat)
    requires i < |footer| && Count(footer, SEPARATOR) == 3 && IsRecordOf(footer, FOOTER_TYPE)
    ensures ParseFooter(footer[i + 1..]).None?
  {
    assert footer == footer[..i + 1] + footer[i + 1..];
    CutFooter(footer[..i + 1], footer[i + 1..]);
  }

  // One changed character in the footer, in the line feed after it, or in the one before it.
  lemma ChangedAtFooter(records: seq<string>, k: nat, i: nat, x: char, flow: Flow)
    requires AllAscii(records) && Ascii([x]) && records != [] && SEPARATOR in records[|records| - 1]
    requires var all := records + [FooterRecord(|records| + 1, FileChecksum(EncodeLines(records)))];
             && k < |all| && i <= |all[k]| && (i < |all[k]| ==> x != all[k][i])
             && (k == |records| || (k + 1 == |records| && i == |records[k]|))
    ensures var all := records + [FooterRecord(|records| + 1, FileChecksum(EncodeLines(records)))];
            AllAscii(ChangedLines(all, k, i, x)) && ParseRecords(ChangedLines(all, k, i, x), flow).Failure?
  {
    var n, c := |records| + 1, FileChecksum(EncodeLines(records));
    var all := records + [FooterRecord(n, c)];
    FooterIsAscii(n, c);
    ChangedIsAscii(all, k, i, x);
    assert all[..|records|] == records && all[|all| - 2] == records[|records| - 1];
    LastOfChanged(all, k, i, x);
    FooterChanged(records[|records| - 1], n, c, i, x);
    WrongFooter(ChangedLines(all, k, i, x), flow);
  }

  lemma HeaderHasSeparator(flow: Flow, header: Header, body: seq<Node>)
    requires BuildRecords(flow, header, body).Success?
    ensures var records := BuildRecords(flow, header, body).value;
            records != [] && forall k :: 0 <= k < |records| ==> SEPARATOR in records[k]
  {
    var records := BuildRecords(flow, header, body).value;
    BuiltRecordsAreValid(flow, header, body);
    BuiltLinesHaveSeparator(body, flow.records, 0);
    assert records == [records[0]] + records[1..];
    assert records[0][|records[0]| - 1] == SEPARATOR;
  }

  lemma {:induction false} BuiltLinesHaveSeparator(nodes: seq<Node>, specs: seq<Record>, count: nat)
    requires BuildGroup(nodes, specs, count).Some?
    ensures forall line :: line in BuildGroup(nodes, specs, count).value ==> SEPARATOR in line
    decreases nodes, |specs|
  {
    if specs != [] {
      if nodes != [] && nodes[0].recordType == specs[0].recordType {
        var line, inner, others := BuiltNode(nodes, specs, count);
        assert line[|line| - 1] == SEPARATOR;
        BuiltLinesHaveSeparator(nodes[0].children, specs[0].children, 0);
        BuiltLinesHaveSeparator(nodes[1..], specs, count + 1);
      } else {
        BuiltLinesHaveSeparator(nodes, specs[1..], 0);
      }
    }
  }

  lemma ChangedBytes(text: string, p: nat, b: Byte)
    requires Ascii(text) && p < |text|
    ensures b >= 0x80 ==> FromBytes(ToBytes(text)[p := b]).None?
    ensures b < 0x80 ==> Ascii(text[p := b as char]) && FromBytes(ToBytes(text)[p := b]) == Some(text[p := b as char])
  {
    var changed := ToBytes(text)[p := b];
    assert changed[p] == b;
    if b < 0x80 {
      assert Ascii(text[p := b as char]);
      assert FromBytes(changed).Some? && FromBytes(changed).value == text[p := b as char];
    }
  }

  // No substitution of one byte of a built file is accepted, wherever the byte stands, whatever it
  // becomes, and whatever flow the receiver expects: parsing ends with a response code.
  lemma NoSubstitutionAccepted(flow: Flow, header: Header, body: seq<Node>, p: nat, b: Byte, expected: Flow)
    requires Build(flow, header, body).Success?
    requires p < |Build(flow, header, body).value| && b != Build(flow, header, body).value[p]
    ensures ParseFile(Build(flow, header, body).value[p := b], expected).Failure?
  {
    var records, footer := BuiltFile(flow, header, body);
    var all := records + [footer];
    var text := Assemble(records, footer);
    assert Build(flow, header, body).value == ToBytes(text);
    ChangedBytes(text, p, b);
    if b < 0x80 {
      var x := b as char;
      TerminateIsJoin(all);
      var k, i := ChangedRecords(all, p, x);
      HeaderHasSeparator(flow, header, body);
      assert Ascii([x]);
      if k < |records| && (i < |records[k]| || k + 1 < |records|) {
        FooterKept(records, k, i, x, footer);
        ChangedBeforeFooter(records, k, i, x, footer, expected);
      } else {
        ChangedAtFooter(records, k, i, x, expected);
      }
    }
  }
}
