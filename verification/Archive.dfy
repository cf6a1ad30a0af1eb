// The write-once archive, and the keys of the files in it.
module Archive {
  import opened Wrappers
  import opened Digits
  import opened Checksum
  import opened Lines
  import opened Fields
  import opened FileTables

  // --- keys -------------------------------------------------------------------------

  function DatePath(d: Date): string {
    TwoDigitsFit();
    PadNat(d.year, 4) + "/" + PadNat(d.month, 2) + "/" + PadNat(d.day, 2)
  }

  // Date-partitioned, for a day in GMT.
  function ObjectKey(direction: string, day: Date, filename: string, id: nat): string {
    direction + "/" + DatePath(day) + "/" + filename + "-" + TwelveDigits(id)
  }

  lemma TwelveDigitsDiffer(a: nat, b: nat)
    ensures AllDigits(TwelveDigits(a)) && (TwelveDigits(a) == TwelveDigits(b) ==> a == b)
  {
    assert Digits.Value(TwelveDigits(a)) == a && Digits.Value(TwelveDigits(b)) == b;
  }

  // What follows the last hyphen is determined by the text.
  lemma AfterLastHyphen(a: string, x: string, b: string, y: string)
    requires a + "-" + x == b + "-" + y
    requires '-' !in x && '-' !in y
    ensures x == y
  {
    var s, t := a + "-" + x, b + "-" + y;
    assert forall k :: |a| < k < |s| ==> s[k] in x;
    assert forall k :: |b| < k < |t| ==> t[k] in y;
    assert s[|a|] == '-' && t[|b|] == '-';
    assert x == s[|a| + 1..] && y == t[|b| + 1..];
  }

  // Two files never share a key, whatever their names and dates.
  lemma KeysDiffer(direction: string, d: Date, f: string, i: nat, e: Date, g: string, j: nat)
    requires ObjectKey(direction, d, f, i) == ObjectKey(direction, e, g, j)
    ensures i == j
  {
    TwelveDigitsDiffer(i, j);
    TwelveDigitsDiffer(j, i);
    var a, b := direction + "/" + DatePath(d) + "/" + f, direction + "/" + DatePath(e) + "/" + g;
    assert forall k :: 0 <= k < |TwelveDigits(i)| ==> IsDigit(TwelveDigits(i)[k]);
    assert forall k :: 0 <= k < |TwelveDigits(j)| ==> IsDigit(TwelveDigits(j)[k]);
    AfterLastHyphen(a, TwelveDigits(i), b, TwelveDigits(j));
  }

  // Names of two files of two-letter roles are never the same either (section 2.2.5).
  lemma FilenamesDiffer(r: string, i: nat, s: string, j: nat)
    requires |r| == |s| && MakeFilename(r, i).Some? && MakeFilename(r, i) == MakeFilename(s, j)
    ensures r == s && i == j
  {
    var name := MakeFilename(r, i).value;
    assert r == name[..|r|] && s == name[..|s|];
    assert TwelveDigits(i) == name[|r|..] && TwelveDigits(j) == name[|s|..];
    TwelveDigitsDiffer(i, j);
  }

  // --- URIs ---------------------------------------------------------------------------

  const SCHEME := "gs://"

  function UriOf(bucket: string, key: string): string {
    SCHEME + bucket + "/" + key
  }

  // str.partition at the first slash
  function BeforeSlash(s: string): (head: string)
    ensures head <= s && '/' !in head
    ensures |head| < |s| ==> s[|head|] == '/'
  {
    if s == "" || s[0] == '/' then "" else [s[0]] + BeforeSlash(s[1..])
  }

  // The bucket and the key of a URI; None where ArchiveError is raised.
  function SplitUri(uri: string): Option<(string, string)> {
    if !StartsWith(uri, SCHEME) then None
    else
      var rest := uri[|SCHEME|..];
      var bucket := BeforeSlash(rest);
      if bucket == "" || |rest| <= |bucket| + 1 then None else Some((bucket, rest[|bucket| + 1..]))
  }

  lemma {:induction false} BeforeSlashOf(bucket: string, key: string)
    requires '/' !in bucket
    ensures BeforeSlash(bucket + "/" + key) == bucket
  {
    if bucket != "" {
      BeforeSlashOf(bucket[1..], key);
      assert (bucket + "/" + key)[1..] == bucket[1..] + "/" + key;
    }
  }

  lemma UriRoundTrip(bucket: string, key: string)
    requires bucket != "" && '/' !in bucket && key != ""
    ensures SplitUri(UriOf(bucket, key)) == Some((bucket, key))
  {
    var rest := bucket + "/" + key;
    assert UriOf(bucket, key) == SCHEME + rest;
    assert UriOf(bucket, key)[|SCHEME|..] == rest;
    BeforeSlashOf(bucket, key);
    assert rest[|bucket| + 1..] == key;
  }

  // --- the store ------------------------------------------------------------------------

  datatype ArchiveError = AlreadyArchived | NotFound | BadUri

  type Bucket = s: string | s != "" && '/' !in s witness "b"

  function Lookup(objects: map<string, Bytes>, bucket: Bucket, uri: string): Result<Bytes, ArchiveError> {
    match SplitUri(uri)
    case None => Failure(BadUri)
    case Some((b, key)) =>
      if b != bucket then Failure(BadUri)
      else if key !in objects then Failure(NotFound)
      else Success(objects[key])
  }

  class Store {
    const bucket: Bucket
    var objects: map<string, Bytes>

    constructor (bucket: Bucket)
      ensures this.bucket == bucket && objects == map[]
    {
      this.bucket, objects := bucket, map[];
    }

    // An object is never overwritten, and get() of the URI returned gives the bytes back.
    method Put(key: string, payload: Bytes) returns (uri: Result<string, ArchiveError>)
      requires key != ""
      modifies `objects
      ensures key in old(objects) ==> uri == Failure(AlreadyArchived) && objects == old(objects)
      ensures key !in old(objects) ==>
                && objects == old(objects)[key := payload]
                && uri == Success(UriOf(bucket, key))
                && Lookup(objects, bucket, uri.value) == Success(payload)
    {
      UriRoundTrip(bucket, key);
      if key in objects {
        return Failure(AlreadyArchived);
      }
      objects := objects[key := payload];
      return Success(UriOf(bucket, key));
    }

    method Get(uri: string) returns (payload: Result<Bytes, ArchiveError>)
      ensures payload == Lookup(objects, bucket, uri)
    {
      var parts := SplitUri(uri);
      if parts.None? || parts.value.0 != bucket {
        return Failure(BadUri);
      }
      if parts.value.1 !in objects {
        return Failure(NotFound);
      }
      return Success(objects[parts.value.1]);
    }
  }
}
