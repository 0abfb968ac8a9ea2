/**
 * The remote-object path syntax of s3cp: an argument names an object in a bucket
 * exactly when it matches the anchored pattern `^s3:([^:]+):(.+)$` under Go's
 * default (Perl) regular-expression flags. The first group is the bucket, the
 * second the key.
 *
 * `MatchesPattern` is the language of that pattern, written as a reference
 * definition; `ParseS3` is a regex-free scanner, proved to accept exactly that
 * language and to return the unique groups.
 */
module S3Path {
  import opened Wrappers

  /** The literal text the pattern starts with. */
  const Prefix: string := "s3:"

  /** The character class `[^:]`. Go's default flags include ClassNL, so it admits '\n'. */
  predicate InBucketClass(c: char) {
    c != ':'
  }

  /** The class `.`. Without the `s` flag Go's `.` admits every character but '\n'. */
  predicate InKeyClass(c: char) {
    c != '\n'
  }

  /** Text matched by `[^:]+`. */
  predicate ValidBucket(b: string) {
    |b| > 0 && forall i :: 0 <= i < |b| ==> InBucketClass(b[i])
  }

  /** Text matched by `.+`. */
  predicate ValidKey(k: string) {
    |k| > 0 && forall i :: 0 <= i < |k| ==> InKeyClass(k[i])
  }

  /** The path a bucket and a key spell. */
  function Compose(bucket: string, key: string): (s: string)
    ensures |s| == |Prefix| + |bucket| + 1 + |key|
  {
    Prefix + bucket + ":" + key
  }

  /**
   * The language of `^s3:([^:]+):(.+)$`: both anchors are text anchors (no `m` flag),
   * so the whole string is "s3:", a bucket, ":" and a key.
   */
  ghost predicate MatchesPattern(s: string): (m: bool)
    ensures m ==> |s| >= |Prefix| + 3 && s[..|Prefix|] == Prefix
  {
    exists b, k :: ValidBucket(b) && ValidKey(k) && s == Compose(b, k)
  }

  /** The index of the first ':' in `s` at or after `from`, if there is one. */
  function FirstColonFrom(s: string, from: nat): (r: Option<nat>)
    requires from <= |s|
    ensures r.Some? ==> from <= r.value < |s| && s[r.value] == ':'
    ensures r.Some? ==> forall i :: from <= i < r.value ==> s[i] != ':'
    ensures r.None? ==> forall i :: from <= i < |s| ==> s[i] != ':'
    decreases |s| - from
  {
    if from == |s| then None
    else if s[from] == ':' then Some(from)
    else FirstColonFrom(s, from + 1)
  }

  /**
   * The submatches of the pattern: `Some((bucket, key))` when `s` matches, `None`
   * (Go's nil slice) when it does not. The bucket runs up to the first ':' after
   * the prefix; the key is everything after that colon.
   */
  function ParseS3(s: string): (r: Option<(string, string)>)
    ensures r.Some? ==> ValidBucket(r.value.0) && ValidKey(r.value.1)
    ensures r.Some? ==> s == Compose(r.value.0, r.value.1)
  {
    if |s| < |Prefix| || s[..|Prefix|] != Prefix then None
    else
      match FirstColonFrom(s, |Prefix|)
      case None => None
      case Some(j) =>
        var bucket, key := s[|Prefix|..j], s[j + 1..];
        if |bucket| > 0 && |key| > 0 && forall i :: 0 <= i < |key| ==> key[i] != '\n' then
          assert s == Prefix + bucket + ":" + key by {
            assert s == s[..|Prefix|] + s[|Prefix|..j] + s[j..j + 1] + s[j + 1..];
          }
          Some((bucket, key))
        else None
  }

  /** Any bucket and key the pattern admits are recovered exactly from the path they spell. */
  lemma ParseS3Compose(bucket: string, key: string)
    requires ValidBucket(bucket) && ValidKey(key)
    ensures ParseS3(Compose(bucket, key)) == Some((bucket, key))
  {
    var s := Compose(bucket, key);
    var j := |Prefix| + |bucket|;
    assert s[..|Prefix|] == Prefix;
    assert s[j] == ':';
    assert forall i :: |Prefix| <= i < j ==> s[i] == bucket[i - |Prefix|];
    assert FirstColonFrom(s, |Prefix|) == Some(j);
    assert s[|Prefix|..j] == bucket;
    assert s[j + 1..] == key;
  }

  /** The scanner accepts a string exactly when it is in the pattern's language. */
  lemma ParseS3AcceptsPattern(s: string)
    ensures ParseS3(s).Some? <==> MatchesPattern(s)
  {
    if MatchesPattern(s) {
      var b, k :| ValidBucket(b) && ValidKey(k) && s == Compose(b, k);
      ParseS3Compose(b, k);
    }
    if ParseS3(s).Some? {
      var r := ParseS3(s).value;
      assert ValidBucket(r.0) && ValidKey(r.1) && s == Compose(r.0, r.1);
    }
  }

  /** The classifier `regexp.MatchString(s3pathre, s)`: true exactly on the pattern's language. */
  predicate IsS3Path(s: string): (m: bool)
    ensures m <==> MatchesPattern(s)
  {
    ParseS3AcceptsPattern(s);
    ParseS3(s).Some?
  }

  /**
   * The split is unique: whenever `s` is spelled by some admissible bucket and key,
   * the parser returns that very pair.
   */
  lemma ParseS3Iff(s: string, bucket: string, key: string)
    ensures ParseS3(s) == Some((bucket, key)) <==> ValidBucket(bucket) && ValidKey(key) && s == Compose(bucket, key)
  {
    if ValidBucket(bucket) && ValidKey(key) && s == Compose(bucket, key) {
      ParseS3Compose(bucket, key);
    }
  }

  /**
   * The colon that ends the bucket is the first ':' after the prefix; the key may hold
   * further colons.
   */
  lemma ParseS3SplitsAtFirstColon(s: string)
    requires IsS3Path(s)
    ensures var (b, k) := ParseS3(s).value;
      |s| > |Prefix| + |b| && s[|Prefix| + |b|] == ':' &&
      (forall i :: |Prefix| <= i < |Prefix| + |b| ==> s[i] != ':') &&
      s[|Prefix| + |b| + 1..] == k
  {
  }

  /** A '\n' anywhere in the key text makes the argument local, since `.` does not admit it. */
  lemma NewlineInKeyIsLocal(bucket: string, key: string, i: nat)
    requires ValidBucket(bucket)
    requires i < |key| && key[i] == '\n'
    ensures !IsS3Path(Compose(bucket, key))
  {
    if IsS3Path(Compose(bucket, key)) {
      var r := ParseS3(Compose(bucket, key)).value;
      SplitOfColonFreePrefix(bucket, key, r.0, r.1);
      assert false;
    }
  }

  /** A '\n' in the bucket text is kept, since `[^:]` admits it under Go's default flags. */
  lemma NewlineInBucketIsKept()
    ensures ParseS3("s3:my\nbucket:k") == Some(("my\nbucket", "k"))
  {
    assert Compose("my\nbucket", "k") == "s3:my\nbucket:k";
    ParseS3Compose("my\nbucket", "k");
  }

  /** Two spellings whose buckets are colon-free split at the same place. */
  lemma SplitOfColonFreePrefix(b1: string, k1: string, b2: string, k2: string)
    requires ValidBucket(b1) && ValidBucket(b2)
    requires Compose(b1, k1) == Compose(b2, k2)
    ensures b1 == b2 && k1 == k2
  {
    var s := Compose(b1, k1);
    assert forall i :: 0 <= i < |b1| ==> s[|Prefix| + i] == b1[i];
    assert forall i :: 0 <= i < |b2| ==> s[|Prefix| + i] == b2[i];
    assert s[|Prefix| + |b1|] == ':';
    assert s[|Prefix| + |b2|] == ':';
    assert |b1| == |b2|;
    assert b1 == s[|Prefix|..|Prefix| + |b1|];
    assert b2 == s[|Prefix|..|Prefix| + |b2|];
    assert k1 == s[|Prefix| + |b1| + 1..];
    assert k2 == s[|Prefix| + |b2| + 1..];
  }

  /** Text with no ':' after the prefix has no second separator, so it is a local path. */
  lemma NoSeparatorIsLocal(s: string)
    requires forall i :: |Prefix| <= i < |s| ==> s[i] != ':'
    ensures !IsS3Path(s)
  {
  }
}
