/** `s3://` locations: the URI an object is announced under, and the way the
    Glue scripts take an output path apart again (`replace("s3://", "")`,
    then the first `/` segment is the bucket and the rest the prefix). */
module S3Paths {
  import opened Wrappers
  import opened Strings

  const SCHEME: string := "s3://"

  /** A CSV object a Glue job uploads: a header line and rows of cells. */
  datatype CsvObject = CsvObject(bucket: string, key: string, header: seq<string>, rows: seq<seq<string>>)

  /** `f"s3://{bucket}/{key}"`. */
  function ObjectUri(bucket: string, key: string): string {
    SCHEME + bucket + "/" + key
  }

  /** `path.replace('s3://', '')`: every occurrence is removed. */
  function Strip(path: string): string {
    Replace(path, SCHEME, "")
  }

  /** `get_s3_bucket_name_from_path`: the first `/` segment of the stripped path. */
  function Bucket(path: string): (r: string)
    ensures !Contains(r, "/")
  {
    SplitPartsFree(Strip(path), "/");
    Split(Strip(path), "/")[0]
  }

  /** `'/'.join(path.replace('s3://', '').split('/')[1:])`. */
  function Prefix(path: string): string {
    Join(Split(Strip(path), "/")[1..], "/")
  }

  /** The bucket, a `/` and the prefix give back the stripped path whenever
      the prefix is not empty. */
  lemma {:induction false} BucketThenPrefix(path: string)
    requires |Split(Strip(path), "/")| >= 2
    ensures Bucket(path) + "/" + Prefix(path) == Strip(path)
  {
    var parts := Split(Strip(path), "/");
    JoinSplit(Strip(path), "/");
    assert parts == [parts[0]] + parts[1..];
    JoinCons(parts[0], parts[1..], "/");
  }

  /** A single leading scheme is stripped and nothing else changes. */
  lemma StripScheme(rest: string)
    requires !Contains(rest, SCHEME)
    ensures Strip(SCHEME + rest) == rest
  {
    var s := SCHEME + rest;
    assert SCHEME <= s;
    assert IndexOf(s, SCHEME) == Some(0);
    assert s[|SCHEME|..] == rest;
    SplitSingle(rest, SCHEME);
    assert s[..0] == "";
    assert Split(s, SCHEME) == [""] + Split(rest, SCHEME) == ["", rest];
    assert Join(["", rest], "") == "" + "" + Join([rest], "");
  }

  /** Taking an object URI apart gives its bucket and key back, as long as
      the bucket has no `/` and the scheme does not recur. */
  lemma UriParts(bucket: string, key: string)
    requires '/' !in bucket && !Contains(bucket + "/" + key, SCHEME)
    ensures Bucket(ObjectUri(bucket, key)) == bucket
    ensures Prefix(ObjectUri(bucket, key)) == key
  {
    var rest := bucket + "/" + key;
    assert ObjectUri(bucket, key) == SCHEME + rest;
    StripScheme(rest);
    SplitCharFree(bucket, '/', key);
    var parts := Split(rest, "/");
    assert parts == [bucket] + Split(key, "/");
    assert parts[1..] == Split(key, "/");
    JoinSplit(key, "/");
  }
}
