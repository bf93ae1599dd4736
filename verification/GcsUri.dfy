/** The gs:// URI grammar: the adapter writes it, the runtime reads it. */
module GcsUri {
  import opened Texts

  const GCS_SCHEME := "gs://"
  const STAGED_PACK_NAME := "pack.json"

  datatype UriError = BadScheme | BadShape

  type ObjectKey = (string, string)

  // internal/vertex/staging.go: the object name carries the pack hash.
  function StagedPackObject(packHash: string): string {
    "packs/" + packHash + "/" + STAGED_PACK_NAME
  }

  function StagedPackUri(bucket: string, packHash: string): string {
    if bucket == "" || packHash == "" then ""
    else TrimRight(bucket, {'/'}) + "/" + StagedPackObject(packHash)
  }

  // The adapter's reader: CutPrefix, then Cut.
  function SplitGcsUri(uri: string): Result<ObjectKey, UriError> {
    if !HasPrefix(uri, GCS_SCHEME) then Err(BadScheme)
    else
      match Cut(uri[|GCS_SCHEME|..], '/')
      case None => Err(BadShape)
      case Some(halves) => if halves.0 == "" || halves.1 == "" then Err(BadShape) else Ok(halves)
  }

  // strings.TrimPrefix
  function TrimPrefix(s: string, prefix: string): string {
    if HasPrefix(s, prefix) then s[|prefix|..] else s
  }

  // The runtime's own reader (cmd/vertex-runtime/pack.go).
  function ParseGcsUri(uri: string): Result<ObjectKey, UriError> {
    if !HasPrefix(uri, GCS_SCHEME) then Err(BadScheme)
    else
      var halves := Cut(TrimPrefix(uri, GCS_SCHEME), '/');
      if halves.None? || halves.value.0 == "" || halves.value.1 == "" then Err(BadShape)
      else Ok((halves.value.0, halves.value.1))
  }

  // What a readable URI looks like, stated without cutting anything.
  ghost predicate Addresses(uri: string, bucket: string, path: string) {
    && uri == GCS_SCHEME + bucket + "/" + path
    && bucket != "" && '/' !in bucket
    && path != ""
  }

  // Both readers succeed exactly on gs://bucket/object and return those halves.
  lemma {:induction false} SplitExactly(uri: string, bucket: string, path: string)
    ensures SplitGcsUri(uri) == Ok((bucket, path)) <==> Addresses(uri, bucket, path)
    ensures ParseGcsUri(uri) == Ok((bucket, path)) <==> Addresses(uri, bucket, path)
  {
    if Addresses(uri, bucket, path) {
      var rest := uri[|GCS_SCHEME|..];
      assert rest == bucket + ['/'] + path;
      CutUnique(rest, '/', bucket, path);
    }
    if SplitGcsUri(uri) == Ok((bucket, path)) {
      assert uri == GCS_SCHEME + uri[|GCS_SCHEME|..];
    }
  }

  lemma SplitInjective(p: string, q: string)
    requires SplitGcsUri(p).Ok? && SplitGcsUri(p) == SplitGcsUri(q)
    ensures p == q
  {}

  function Slashes(n: nat): (s: string)
    ensures |s| == n && forall i | 0 <= i < n :: s[i] == '/'
  {
    seq(n, _ => '/')
  }

  lemma {:induction false} TrimSlashes(stem: string, n: nat)
    requires stem == [] || stem[|stem| - 1] != '/'
    ensures TrimRight(stem + Slashes(n), {'/'}) == stem
  {
    var s := stem + Slashes(n);
    var r := TrimRight(s, {'/'});
    assert forall i | |stem| <= i < |s| :: s[i] == '/';
    assert forall i | 0 <= i < |stem| :: s[i] == stem[i];
    assert |r| == |stem|;
  }

  lemma ObjectName(packHash: string)
    ensures StagedPackObject(packHash) == "packs/" + packHash + "/pack.json"
  {}

  // Splitting inverts building, however many slashes trail the bucket.
  lemma SplitInvertsStagedPackUri(name: string, trailing: nat, packHash: string)
    requires name != "" && '/' !in name && packHash != ""
    ensures SplitGcsUri(StagedPackUri(GCS_SCHEME + name + Slashes(trailing), packHash))
            == Ok((name, "packs/" + packHash + "/pack.json"))
  {
    TrimSlashes(GCS_SCHEME + name, trailing);
    var uri := StagedPackUri(GCS_SCHEME + name + Slashes(trailing), packHash);
    assert Addresses(uri, name, StagedPackObject(packHash));
    SplitExactly(uri, name, StagedPackObject(packHash));
    hide SplitGcsUri, StagedPackUri, Addresses;
    ObjectName(packHash);
    hide StagedPackObject;
  }

  // A staged URI determines the hash it was built from, because a hash has no slash.
  lemma StagedPackUriInjective(b1: string, h1: string, b2: string, h2: string)
    requires StagedPackUri(b1, h1) == StagedPackUri(b2, h2) != ""
    requires '/' !in h1 && '/' !in h2
    ensures h1 == h2
  {
    var p1, p2 := TrimRight(b1, {'/'}) + "/packs", TrimRight(b2, {'/'}) + "/packs";
    UriParts(b1, h1);
    UriParts(b2, h2);
    hide StagedPackUri, TrimRight;
    SameStem(p1 + "/" + h1, p2 + "/" + h2, "/" + STAGED_PACK_NAME);
    LastHalfUnique(p1 + "/" + h1, p1, h1, p2, h2);
  }

  lemma UriParts(bucket: string, packHash: string)
    requires StagedPackUri(bucket, packHash) != ""
    ensures StagedPackUri(bucket, packHash)
            == TrimRight(bucket, {'/'}) + "/packs" + "/" + packHash + ("/" + STAGED_PACK_NAME)
  {
    hide TrimRight;
  }

  lemma SameStem(p: string, q: string, tail: string)
    requires p + tail == q + tail
    ensures p == q
  {
    assert p == (p + tail)[..|p|] && q == (q + tail)[..|q|];
  }

  lemma LastHalfUnique(s: string, p1: string, h1: string, p2: string, h2: string)
    requires s == p1 + "/" + h1 && s == p2 + "/" + h2
    requires '/' !in h1 && '/' !in h2
    ensures h1 == h2
  {
    assert s[|p1|] == '/' && s[|p2|] == '/';
    assert forall i | |p1| < i < |s| :: s[i] == h1[i - |p1| - 1] && s[i] != '/';
    assert forall i | |p2| < i < |s| :: s[i] == h2[i - |p2| - 1] && s[i] != '/';
    assert |p1| == |p2|;
    assert h1 == s[|p1| + 1..] && h2 == s[|p2| + 1..];
  }
}
