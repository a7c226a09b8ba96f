/** The two upload functions: both download an exported bundle and store it
    as `{format}_{job}/{format}_{job}.<ext>` in a bucket. The `.qs` variant
    writes with the function's own credentials; the `.zip` variant assumes a
    role in the target account and refuses a download whose HTTP status is
    not 200. The download, the role session and the write are inputs. */
module UploadAssets {
  import opened Wrappers
  import opened Strings
  import opened Clock
  import opened Http
  import opened Arns
  import opened S3Paths

  type Bytes = seq<bv8>

  const QS_EXTENSION: string := ".qs"
  const ZIP_EXTENSION: string := ".zip"

  /** The keys both variants read, in reading order. */
  const REQUEST_KEYS: seq<string> := ["download_url", "job_id", "export_format", "bucket_name"]

  /** The `.zip` variant's additional keys. */
  const TARGET_KEYS: seq<string> := ["target_account_id", "target_role_name"]

  datatype Request = Request(downloadUrl: string, jobId: string, exportFormat: string, bucketName: string, awsRegion: string)

  datatype Target = Target(accountId: string, roleName: string)

  /** Whose credentials a write uses. */
  datatype Credentials = Ambient(region: string) | AssumedRole(roleArn: string, sessionName: string)

  /** One object written to S3. */
  datatype PutObject = PutObject(bucket: string, key: string, content: Bytes, via: Credentials)

  datatype Body =
    | Uploaded(bucketName: string, s3Key: string, s3Uri: string, jobId: string)
    | Crash(fault: Fault)

  /** The reply and the object that was stored, if the write happened. */
  datatype Upload = Upload(reply: Reply<Body>, stored: Option<PutObject>)

  /** An HTTP download: the status code and the content. */
  datatype Download = Download(statusCode: int, content: Bytes)

  /** `.qs` remote side: `urlopen` either yields the bytes or raises. */
  datatype QsSide = QsSide(download: Result<Bytes, Fault>, put: Option<Fault>)

  /** `.zip` remote side: the role session, `requests.get`, and the write. */
  datatype ZipSide = ZipSide(session: Option<Fault>, download: Result<Download, Fault>, put: Option<Fault>)

  /** `{format}_{job}/{format}_{job}<extension>`. */
  function BundleKey(exportFormat: string, jobId: string, extension: string): string {
    var localPath := exportFormat + "_" + jobId;
    localPath + "/" + localPath + extension
  }

  /** Only a POST from API Gateway carries its fields in a JSON body; every
      other event, whatever its method, is read as a direct invocation. */
  function Fields(event: Event, parse: Parser): (r: Result<map<string, string>, Fault>)
    ensures !("httpMethod" in event && event["httpMethod"] == "POST") ==> r == Ok(event)
  {
    if "httpMethod" in event && event["httpMethod"] == "POST" then
      var text :- Get(event, "body");
      ParseJson(parse, text)
    else Ok(event)
  }

  function ReadRequest(m: map<string, string>): Result<Request, Fault> {
    var v :- ReadAll(m, REQUEST_KEYS);
    Ok(Request(v[0], v[1], v[2], v[3], GetOr(m, "aws_region", DEFAULT_REGION)))
  }

  /** The `.zip` variant reads the same four keys and then the target. */
  function ReadTargeted(m: map<string, string>): Result<(Request, Target), Fault> {
    var request :- ReadRequest(m);
    var v :- ReadAll(m, TARGET_KEYS);
    Ok((request, Target(v[0], v[1])))
  }

  function QsRequest(event: Event, parse: Parser): Result<Request, Fault> {
    var m :- Fields(event, parse);
    ReadRequest(m)
  }

  function ZipRequest(event: Event, parse: Parser): Result<(Request, Target), Fault> {
    var m :- Fields(event, parse);
    ReadTargeted(m)
  }

  function Success(request: Request, key: string, api: bool): Reply<Body> {
    Reply(200, api, Uploaded(request.bucketName, key, ObjectUri(request.bucketName, key), request.jobId))
  }

  /** `lambda_handler` of the `.qs` variant. */
  function HandleQs(event: Event, parse: Parser, side: QsSide): Upload {
    var api := "httpMethod" in event;
    match QsRequest(event, parse)
    case Err(f) => Upload(Reply(500, api, Crash(f)), None)
    case Ok(request) =>
      if side.download.Err? then Upload(Reply(500, api, Crash(side.download.error)), None)
      else
        var key := BundleKey(request.exportFormat, request.jobId, QS_EXTENSION);
        if side.put.Some? then Upload(Reply(500, api, Crash(side.put.value)), None)
        else Upload(Success(request, key, api), Some(PutObject(request.bucketName, key, side.download.value, Ambient(request.awsRegion))))
  }

  /** The exception raised for a download that did not answer 200. */
  function DownloadRefused(statusCode: int): Fault {
    Raised("Failed to download file. Status code: " + Decimal(statusCode))
  }

  /** `lambda_handler` of the `.zip` variant. */
  function HandleZip(event: Event, parse: Parser, side: ZipSide): Upload {
    var api := "httpMethod" in event;
    match ZipRequest(event, parse)
    case Err(f) => Upload(Reply(500, api, Crash(f)), None)
    case Ok((request, target)) =>
      if side.session.Some? then Upload(Reply(500, api, Crash(side.session.value)), None)
      else if side.download.Err? then Upload(Reply(500, api, Crash(side.download.error)), None)
      else if side.download.value.statusCode != 200 then
        Upload(Reply(500, api, Crash(DownloadRefused(side.download.value.statusCode))), None)
      else
        var key := BundleKey(request.exportFormat, request.jobId, ZIP_EXTENSION);
        if side.put.Some? then Upload(Reply(500, api, Crash(side.put.value)), None)
        else
          var via := AssumedRole(RoleArn(target.accountId, target.roleName), SESSION_NAME);
          Upload(Success(request, key, api), Some(PutObject(request.bucketName, key, side.download.value.content, via)))
  }

  /** The key's two `/` segments are the local path and the file name. */
  lemma BundleKeyParts(exportFormat: string, jobId: string, extension: string)
    requires '/' !in exportFormat && '/' !in jobId && '/' !in extension
    ensures var localPath := exportFormat + "_" + jobId;
      Split(BundleKey(exportFormat, jobId, extension), "/") == [localPath, localPath + extension]
  {
    var localPath := exportFormat + "_" + jobId;
    assert '/' !in localPath;
    assert BundleKey(exportFormat, jobId, extension) == localPath + ['/'] + (localPath + extension);
    SplitCharFree(localPath, '/', localPath + extension);
    SplitCharAbsent(localPath + extension, '/');
  }

  /** Bundle keys of one format are equal exactly for equal job ids. */
  lemma BundleKeyInjective(exportFormat: string, jobId: string, other: string, extension: string)
    requires '/' !in exportFormat && '/' !in jobId && '/' !in other && '/' !in extension
    ensures BundleKey(exportFormat, jobId, extension) == BundleKey(exportFormat, other, extension) <==> jobId == other
  {
    if BundleKey(exportFormat, jobId, extension) == BundleKey(exportFormat, other, extension) {
      BundleKeyParts(exportFormat, jobId, extension);
      BundleKeyParts(exportFormat, other, extension);
      var p, q := exportFormat + "_" + jobId, exportFormat + "_" + other;
      assert p == q;
      assert p[|exportFormat| + 1..] == jobId;
      assert q[|exportFormat| + 1..] == other;
    }
  }

  /** `.qs`: a reply is 200 exactly when the object was stored; the stored
      object is the downloaded content under the bundle key, written with
      the function's own credentials, and the reply echoes it. */
  lemma QsStoresDownload(event: Event, parse: Parser, side: QsSide)
    ensures var u := HandleQs(event, parse, side);
      (u.reply.statusCode == 200 <==> u.stored.Some?) &&
      (u.reply.statusCode != 200 ==> u.reply.statusCode == 500 && u.reply.body.Crash?) &&
      u.reply.jsonHeader == ("httpMethod" in event)
    ensures var u := HandleQs(event, parse, side);
      u.stored.Some? ==>
        var request := QsRequest(event, parse).value;
        var key := BundleKey(request.exportFormat, request.jobId, QS_EXTENSION);
        side.download.Ok? && side.put.None? &&
        u.stored.value == PutObject(request.bucketName, key, side.download.value, Ambient(request.awsRegion)) &&
        u.reply.body == Uploaded(request.bucketName, key, ObjectUri(request.bucketName, key), request.jobId)
  {
  }

  /** `.zip`: nothing is stored unless the session, the download (with
      status 200) and the write all succeed; a refused download answers 500
      naming its status; the write goes through the assumed target role. */
  lemma ZipStoresDownload(event: Event, parse: Parser, side: ZipSide)
    ensures var u := HandleZip(event, parse, side);
      (u.reply.statusCode == 200 <==> u.stored.Some?) &&
      (u.reply.statusCode != 200 ==> u.reply.statusCode == 500 && u.reply.body.Crash?) &&
      u.reply.jsonHeader == ("httpMethod" in event)
    ensures var u := HandleZip(event, parse, side);
      var read := ZipRequest(event, parse);
      read.Ok? && side.session.None? && side.download.Ok? && side.download.value.statusCode != 200 ==>
        u.reply.body == Crash(Raised("Failed to download file. Status code: " + Decimal(side.download.value.statusCode)))
    ensures var u := HandleZip(event, parse, side);
      u.stored.Some? ==>
        var (request, target) := ZipRequest(event, parse).value;
        var key := BundleKey(request.exportFormat, request.jobId, ZIP_EXTENSION);
        side.session.None? && side.download.Ok? && side.download.value.statusCode == 200 && side.put.None? &&
        u.stored.value == PutObject(request.bucketName, key, side.download.value.content,
                                    AssumedRole(RoleArn(target.accountId, target.roleName), SESSION_NAME)) &&
        u.reply.body == Uploaded(request.bucketName, key, ObjectUri(request.bucketName, key), request.jobId)
  {
  }

  /** Distinct refused statuses give distinct messages. */
  lemma RefusalNamesStatus(a: int, b: int)
    ensures DownloadRefused(a) == DownloadRefused(b) <==> a == b
  {
    if DownloadRefused(a) == DownloadRefused(b) {
      var p := "Failed to download file. Status code: ";
      assert (p + Decimal(a))[|p|..] == Decimal(a);
      assert (p + Decimal(b))[|p|..] == Decimal(b);
      DecimalInjective(a, b);
    }
  }

  /** The announced URI, taken apart the way the admin scripts take apart
      their output path, gives back the bucket and the bundle key. */
  lemma UploadedUriParts(bucket: string, exportFormat: string, jobId: string, extension: string)
    requires '/' !in bucket
    requires !Contains(bucket + "/" + BundleKey(exportFormat, jobId, extension), SCHEME)
    ensures Bucket(ObjectUri(bucket, BundleKey(exportFormat, jobId, extension))) == bucket
    ensures Prefix(ObjectUri(bucket, BundleKey(exportFormat, jobId, extension))) == BundleKey(exportFormat, jobId, extension)
  {
    UriParts(bucket, BundleKey(exportFormat, jobId, extension));
  }

  /** A direct or non-POST event missing a key fails with the first missing
      one; the `.zip` variant also demands the target keys. */
  lemma ZipNeedsTarget(m: map<string, string>)
    ensures ReadTargeted(m).Ok? <==> FirstMissing(m, REQUEST_KEYS).None? && FirstMissing(m, TARGET_KEYS).None?
    ensures ReadTargeted(m).Err? ==>
      ReadTargeted(m).error == MissingKey(if FirstMissing(m, REQUEST_KEYS).Some? then FirstMissing(m, REQUEST_KEYS).value
                                          else FirstMissing(m, TARGET_KEYS).value)
  {
    ReadAllFails(m, REQUEST_KEYS);
    ReadAllFails(m, TARGET_KEYS);
  }
}
