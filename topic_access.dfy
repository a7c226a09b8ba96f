/** The Q topic Glue job: list every topic, describe each, write one CSV of
    topic and dataset pairs and one CSV of topic permissions under the
    job's `S3_OUTPUT_PATH`. The QuickSight answers are inputs; a describe
    that raised is a topic id missing from `described`, and a permission
    lookup that raised or returned nothing is an id missing from
    `permissions` (the script turns both into an empty list). */
module TopicAccess {
  import opened Wrappers
  import opened Strings
  import opened Paging
  import opened S3Paths
  import opened Http
  import opened Seqs

  const ASSET_TYPE: string := "Q Topic"
  const ACTION_SEPARATOR: string := "|"
  const GROUP_MARKER: string := ":group/"
  const USER_MARKER: string := ":user/"

  const ACCESS_FIELDS: seq<string> := ["AWS Account ID", "Region", "Asset Type", "Q Topic Name", "Q Topic ID",
                                       "Permission granted", "Owner Name", "ARN", "Namespace", "permissions set"]
  const INFO_FIELDS: seq<string> := ["TopicId", "Name", "DatasetArn", "DatasetName", "Description", "UserExperienceVersion"]

  const INFO_SUFFIX: string := "/q_topics_info/q_topics_info.csv"
  const ACCESS_SUFFIX: string := "/q_object_access/q_object_access.csv"

  /** An entry of `TopicsSummaries`. */
  datatype TopicSummary = TopicSummary(topicId: string, name: Option<string>)

  /** An entry of `Permissions`; every key may be missing. */
  datatype Permission = Permission(principal: Option<string>, actions: Option<seq<string>>, namespace: Option<string>)

  datatype DataSetRef = DataSetRef(datasetArn: string, datasetName: Option<string>)

  /** `describe_topic(...)['Topic']`, with `TopicId` set from the summary. */
  datatype Topic = Topic(topicId: string, name: Option<string>, dataSets: Option<seq<DataSetRef>>,
                         description: Option<string>, userExperienceVersion: Option<string>)

  datatype AccessRow = AccessRow(accountId: string, region: string, assetType: string, topicName: string,
                                 topicId: string, permissionGranted: string, ownerName: string, arn: string,
                                 namespace: string, permissionsSet: string)
  {
    /** The row as the CSV writer lays it out under `ACCESS_FIELDS`. */
    function Fields(): (r: seq<string>)
      ensures |r| == |ACCESS_FIELDS|
    {
      [accountId, region, assetType, topicName, topicId, permissionGranted, ownerName, arn, namespace, permissionsSet]
    }
  }

  /** A topic-info row; `None` is how the writer receives a missing `Name`
      and writes as an empty cell. */
  datatype InfoRow = InfoRow(topicId: string, name: Option<string>, datasetArn: string, datasetName: string,
                             description: string, userExperienceVersion: string)

  // ---- list_all_topics ----

  /** `list_all_topics`: ask page after page until the token is missing or
      empty; each later request carries the token the page before returned. */
  method ListAllTopics(pages: seq<Page<TopicSummary>>) returns (topics: seq<TopicSummary>, sent: seq<Option<string>>)
    requires Ends(pages, UntilFalsy)
    ensures topics == Collected(pages, UntilFalsy)
    ensures |sent| == Fetched(pages, UntilFalsy) && sent[0] == None
    ensures forall i :: 1 <= i < |sent| ==> sent[i] == pages[i - 1].nextToken && sent[i].Some? && sent[i].value != ""
  {
    var n := Fetched(pages, UntilFalsy);
    topics, sent := [], [];
    var nextToken: Option<string> := None;
    var i := 0;
    var more := true;
    while more
      invariant 0 <= i <= n
      invariant more ==> i < n
      invariant !more ==> i == n
      invariant topics == Items(pages[..i])
      invariant |sent| == i && (i > 0 ==> sent[0] == None)
      invariant forall k :: 1 <= k < i ==> sent[k] == pages[k - 1].nextToken
      invariant i == 0 ==> nextToken == None
      invariant i > 0 ==> nextToken == pages[i - 1].nextToken
      invariant i > 0 && more ==> !IsLast(UntilFalsy, nextToken)
      decreases n - i
    {
      var token := if nextToken.Some? && nextToken.value != "" then nextToken else None;
      var response := pages[i];
      assert pages[..i + 1][..i] == pages[..i];
      topics := topics + response.items;
      sent := sent + [token];
      nextToken := response.nextToken;
      i := i + 1;
      more := !IsLast(UntilFalsy, nextToken);
    }
  }

  // ---- describe_topic_details ----

  /** The described topics, in summary order; a topic whose describe raised
      is skipped. */
  function Described(summaries: seq<TopicSummary>, described: map<string, Topic>): seq<Topic> {
    if summaries == [] then []
    else
      var id := summaries[|summaries| - 1].topicId;
      Described(summaries[..|summaries| - 1], described) + (if id in described then [described[id].(topicId := id)] else [])
  }

  method DescribeTopicDetails(summaries: seq<TopicSummary>, described: map<string, Topic>) returns (details: seq<Topic>)
    ensures details == Described(summaries, described)
  {
    details := [];
    for i := 0 to |summaries|
      invariant details == Described(summaries[..i], described)
    {
      assert summaries[..i + 1][..i] == summaries[..i];
      var topicId := summaries[i].topicId;
      if topicId in described {
        var topic := described[topicId].(topicId := topicId);
        details := details + [topic];
      }
    }
    assert summaries[..|summaries|] == summaries;
  }

  /** A described topic is the answer for a summary's id, carrying that id;
      no topic is invented and at most one comes per summary. */
  lemma {:induction false} DescribedMembers(summaries: seq<TopicSummary>, described: map<string, Topic>)
    ensures |Described(summaries, described)| <= |summaries|
    ensures forall t :: t in Described(summaries, described) <==>
      exists i :: 0 <= i < |summaries| && summaries[i].topicId in described && t == described[summaries[i].topicId].(topicId := summaries[i].topicId)
  {
    if summaries != [] {
      var init := summaries[..|summaries| - 1];
      DescribedMembers(init, described);
      forall t ensures t in Described(summaries, described) <==>
        exists i :: 0 <= i < |summaries| && summaries[i].topicId in described && t == described[summaries[i].topicId].(topicId := summaries[i].topicId)
      {
        if exists i :: 0 <= i < |summaries| && summaries[i].topicId in described && t == described[summaries[i].topicId].(topicId := summaries[i].topicId) {
          var i :| 0 <= i < |summaries| && summaries[i].topicId in described && t == described[summaries[i].topicId].(topicId := summaries[i].topicId);
          if i < |init| { assert init[i] == summaries[i]; }
        }
        if t in Described(init, described) {
          var i :| 0 <= i < |init| && init[i].topicId in described && t == described[init[i].topicId].(topicId := init[i].topicId);
          assert summaries[i] == init[i];
        }
      }
    }
  }

  // ---- build_access_data ----

  /** `'Group'` if the ARN names a group, else `'User'` if it names a user,
      else `'Unknown'`; a group marker wins over a user marker. */
  function PrincipalType(principal: string): (r: string)
    ensures r == "Group" <==> Contains(principal, GROUP_MARKER)
    ensures r == "User" <==> !Contains(principal, GROUP_MARKER) && Contains(principal, USER_MARKER)
    ensures r == "Unknown" <==> !Contains(principal, GROUP_MARKER) && !Contains(principal, USER_MARKER)
  {
    if Contains(principal, GROUP_MARKER) then "Group" else if Contains(principal, USER_MARKER) then "User" else "Unknown"
  }

  /** The owner name: everything after the last `/`, or the whole principal
      when it has none. */
  function OwnerName(principal: string): (r: string)
    ensures '/' !in r && |r| <= |principal| && principal[|principal| - |r|..] == r
    ensures '/' in principal ==> |r| < |principal| && principal[|principal| - |r| - 1] == '/'
    ensures '/' !in principal ==> r == principal
  {
    if '/' in principal then
      LastPartAfterSeparator(principal, '/');
      SplitPartsFree(principal, "/");
      var r := Last(Split(principal, "/"));
      assert '/' !in r by {
        ContainsIff(r, "/");
        forall k | 0 <= k < |r| ensures r[k] != '/' {
          assert !OccursAt(r, "/", k);
          assert r[k..k + 1] == [r[k]];
        }
      }
      r
    else principal
  }

  /** The row one permission of a topic gives. */
  function PermissionRow(accountId: string, region: string, topic: TopicSummary, p: Permission): AccessRow {
    var principal := p.principal.GetOr("");
    AccessRow(accountId, region, ASSET_TYPE, topic.name.GetOr(""), topic.topicId, PrincipalType(principal),
              OwnerName(principal), principal, p.namespace.GetOr(""), Join(p.actions.GetOr([]), ACTION_SEPARATOR))
  }

  function PermissionRows(accountId: string, region: string, topic: TopicSummary, perms: seq<Permission>): seq<AccessRow> {
    Map(p => PermissionRow(accountId, region, topic, p), perms)
  }

  /** The permissions the script sees for a topic. */
  function PermissionsOf(permissions: map<string, seq<Permission>>, topicId: string): seq<Permission> {
    if topicId in permissions then permissions[topicId] else []
  }

  /** The access rows: the rows of each topic's permissions, topic after topic. */
  function AccessRows(accountId: string, region: string, topics: seq<TopicSummary>, permissions: map<string, seq<Permission>>): seq<AccessRow> {
    Flatten(t => TopicRows(accountId, region, t, permissions), topics)
  }

  /** The rows of one topic's permissions. */
  function TopicRows(accountId: string, region: string, t: TopicSummary, permissions: map<string, seq<Permission>>): seq<AccessRow> {
    PermissionRows(accountId, region, t, PermissionsOf(permissions, t.topicId))
  }

  /** How many permissions the topics have between them. */
  function PermissionTotal(topics: seq<TopicSummary>, permissions: map<string, seq<Permission>>): nat {
    if topics == [] then 0
    else PermissionTotal(topics[..|topics| - 1], permissions) + |PermissionsOf(permissions, topics[|topics| - 1].topicId)|
  }

  /** `build_access_data`. */
  method BuildAccessData(accountId: string, region: string, topics: seq<TopicSummary>, permissions: map<string, seq<Permission>>)
    returns (rows: seq<AccessRow>)
    ensures rows == AccessRows(accountId, region, topics, permissions)
  {
    rows := [];
    if topics == [] {
      return;
    }
    for i := 0 to |topics|
      invariant rows == AccessRows(accountId, region, topics[..i], permissions)
    {
      assert topics[..i + 1][..i] == topics[..i];
      var topic := topics[i];
      assert AccessRows(accountId, region, topics[..i + 1], permissions) ==
        AccessRows(accountId, region, topics[..i], permissions) + TopicRows(accountId, region, topic, permissions);
      var perms := PermissionsOf(permissions, topic.topicId);
      if perms == [] {
        continue;
      }
      rows := AddPermissionRows(rows, accountId, region, topic, perms);
    }
    assert topics[..|topics|] == topics;
  }

  /** The inner loop of `build_access_data`: one row per permission, in order. */
  method AddPermissionRows(rows: seq<AccessRow>, accountId: string, region: string, topic: TopicSummary, perms: seq<Permission>)
    returns (out: seq<AccessRow>)
    ensures out == rows + PermissionRows(accountId, region, topic, perms)
  {
    out := rows;
    for j := 0 to |perms|
      invariant out == rows + PermissionRows(accountId, region, topic, perms[..j])
    {
      assert perms[..j + 1][..j] == perms[..j];
      out := out + [PermissionRow(accountId, region, topic, perms[j])];
    }
    assert perms[..|perms|] == perms;
  }

  lemma PermissionRowsShape(accountId: string, region: string, topic: TopicSummary, perms: seq<Permission>)
    ensures var rows := PermissionRows(accountId, region, topic, perms);
      |rows| == |perms| && forall j :: 0 <= j < |perms| ==> rows[j] == PermissionRow(accountId, region, topic, perms[j])
  {
    forall j | 0 <= j < |perms|
      ensures PermissionRows(accountId, region, topic, perms)[j] == PermissionRow(accountId, region, topic, perms[j])
    {
      MapAt(p => PermissionRow(accountId, region, topic, p), perms, j);
    }
  }

  /** One row per permission: no topics, or topics without permissions, give
      no rows. */
  lemma {:induction false} AccessRowCount(accountId: string, region: string, topics: seq<TopicSummary>, permissions: map<string, seq<Permission>>)
    ensures |AccessRows(accountId, region, topics, permissions)| == PermissionTotal(topics, permissions)
  {
    if topics != [] {
      var t := topics[|topics| - 1];
      AccessRowCount(accountId, region, topics[..|topics| - 1], permissions);
      PermissionRowsShape(accountId, region, t, PermissionsOf(permissions, t.topicId));
    }
  }

  /** Every access row is the row of one permission of one listed topic, and
      every such row is there. */
  lemma AccessRowMembers(accountId: string, region: string, topics: seq<TopicSummary>,
                         permissions: map<string, seq<Permission>>, row: AccessRow)
    ensures row in AccessRows(accountId, region, topics, permissions) <==>
      exists i :: 0 <= i < |topics| && row in TopicRows(accountId, region, topics[i], permissions)
  {
    FlattenMembers(t => TopicRows(accountId, region, t, permissions), topics, row);
  }

  /** Each access row says `Q Topic`, carries the principal as given and its
      actions joined by `|`. */
  lemma PermissionRowFields(accountId: string, region: string, topic: TopicSummary, p: Permission)
    ensures var row := PermissionRow(accountId, region, topic, p);
      var principal := p.principal.GetOr("");
      row.assetType == ASSET_TYPE && row.topicId == topic.topicId && row.arn == principal &&
      row.permissionsSet == Join(p.actions.GetOr([]), ACTION_SEPARATOR) &&
      (row.permissionGranted == "Group" <==> Contains(principal, GROUP_MARKER)) &&
      '/' !in row.ownerName && principal[|principal| - |row.ownerName|..] == row.ownerName
  {
  }

  // ---- write_topics_info_to_s3 ----

  function InfoRowsOf(topic: Topic): seq<InfoRow> {
    var dataSets := topic.dataSets.GetOr([]);
    var description, version := topic.description.GetOr(""), topic.userExperienceVersion.GetOr("");
    if dataSets == [] then [InfoRow(topic.topicId, topic.name, "", "", description, version)]
    else
      seq(|dataSets|, j requires 0 <= j < |dataSets| =>
        InfoRow(topic.topicId, topic.name, dataSets[j].datasetArn, dataSets[j].datasetName.GetOr(""), description, version))
  }

  /** The topic-info rows: each topic's rows, topic after topic. */
  function InfoRows(topics: seq<Topic>): seq<InfoRow> {
    if topics == [] then [] else InfoRows(topics[..|topics| - 1]) + InfoRowsOf(topics[|topics| - 1])
  }

  /** `max(1, |DataSets|)` summed over the topics. */
  function InfoRowTotal(topics: seq<Topic>): nat {
    if topics == [] then 0
    else
      var n := |topics[|topics| - 1].dataSets.GetOr([])|;
      InfoRowTotal(topics[..|topics| - 1]) + (if n == 0 then 1 else n)
  }

  /** The row loop of `write_topics_info_to_s3`. */
  method FlattenTopics(topics: seq<Topic>) returns (rows: seq<InfoRow>)
    ensures rows == InfoRows(topics)
  {
    rows := [];
    for i := 0 to |topics|
      invariant rows == InfoRows(topics[..i])
    {
      assert topics[..i + 1][..i] == topics[..i];
      var topic := topics[i];
      var dataSets := topic.dataSets.GetOr([]);
      var description, version := topic.description.GetOr(""), topic.userExperienceVersion.GetOr("");
      if dataSets == [] {
        rows := rows + [InfoRow(topic.topicId, topic.name, "", "", description, version)];
      } else {
        var before := rows;
        for j := 0 to |dataSets|
          invariant rows == before + InfoRowsOf(topic)[..j]
        {
          assert InfoRowsOf(topic)[..j + 1] == InfoRowsOf(topic)[..j] + [InfoRowsOf(topic)[j]];
          rows := rows + [InfoRow(topic.topicId, topic.name, dataSets[j].datasetArn, dataSets[j].datasetName.GetOr(""), description, version)];
        }
        assert InfoRowsOf(topic)[..|dataSets|] == InfoRowsOf(topic);
      }
    }
    assert topics[..|topics|] == topics;
  }

  /** A topic without datasets gives one row with empty dataset cells, a
      topic with datasets one row per dataset; so the row count is the sum of
      `max(1, |DataSets|)`. */
  lemma {:induction false} InfoRowCount(topics: seq<Topic>)
    ensures |InfoRows(topics)| == InfoRowTotal(topics)
    ensures forall t :: t in topics && t.dataSets.GetOr([]) == [] ==> InfoRow(t.topicId, t.name, "", "", t.description.GetOr(""), t.userExperienceVersion.GetOr("")) in InfoRows(topics)
  {
    if topics != [] {
      var init := topics[..|topics| - 1];
      InfoRowCount(init);
      assert topics == init + [topics[|topics| - 1]];
    }
  }

  function InfoFields(row: InfoRow): (r: seq<string>)
    ensures |r| == |INFO_FIELDS|
  {
    [row.topicId, row.name.GetOr(""), row.datasetArn, row.datasetName, row.description, row.userExperienceVersion]
  }

  // ---- the output locations ----

  function InfoKey(outputPath: string): string {
    Prefix(outputPath) + INFO_SUFFIX
  }

  function AccessKey(outputPath: string): string {
    Prefix(outputPath) + ACCESS_SUFFIX
  }

  /** `write_access_to_s3`'s return value: nothing for no rows, else the
      object's URI. */
  function AccessUri(outputPath: string, rows: seq<AccessRow>): (r: Option<string>)
    ensures r.None? <==> rows == []
    ensures r.Some? ==> r.value == ObjectUri(Bucket(outputPath), AccessKey(outputPath))
  {
    if rows == [] then None else Some(SCHEME + Bucket(outputPath) + "/" + AccessKey(outputPath))
  }

  /** The topic-info object's rows, without the header. */
  function InfoObject(outputPath: string, topics: seq<Topic>): CsvObject {
    CsvObject(Bucket(outputPath), InfoKey(outputPath), INFO_FIELDS, seq(|InfoRows(topics)|, k requires 0 <= k < |InfoRows(topics)| => InfoFields(InfoRows(topics)[k])))
  }

  function AccessObject(outputPath: string, rows: seq<AccessRow>): CsvObject {
    CsvObject(Bucket(outputPath), AccessKey(outputPath), ACCESS_FIELDS, seq(|rows|, k requires 0 <= k < |rows| => rows[k].Fields()))
  }

  /** What the job writes, for a listing that ends. */
  function Written(accountId: string, region: string, outputPath: string, pages: seq<Page<TopicSummary>>,
                   described: map<string, Topic>, permissions: map<string, seq<Permission>>): seq<CsvObject>
    requires Ends(pages, UntilFalsy)
  {
    var summaries := Collected(pages, UntilFalsy);
    var access := AccessRows(accountId, region, summaries, permissions);
    [InfoObject(outputPath, Described(summaries, described))] + (if access == [] then [] else [AccessObject(outputPath, access)])
  }

  /** `main`: check access with one listing call, list, describe, write the
      topic-info CSV, then the access CSV when there is a row for it. */
  method RunJob(accountId: string, region: string, outputPath: string, probe: Option<Fault>, pages: seq<Page<TopicSummary>>,
                described: map<string, Topic>, permissions: map<string, seq<Permission>>)
    returns (r: Result<seq<CsvObject>, Fault>)
    requires Ends(pages, UntilFalsy)
    ensures probe.Some? ==> r == Err(probe.value)
    ensures probe.None? ==> r == Ok(Written(accountId, region, outputPath, pages, described, permissions))
  {
    if probe.Some? {
      return Err(probe.value);
    }
    var summaries, _ := ListAllTopics(pages);
    var details := DescribeTopicDetails(summaries, described);
    var info := InfoObject(outputPath, details);
    var access := BuildAccessData(accountId, region, summaries, permissions);
    if access != [] {
      return Ok([info] + [AccessObject(outputPath, access)]);
    }
    return Ok([info] + []);
  }

  /** The topic-info object is always written; the access object exactly
      when some listed topic has a permission, at the key under the same
      prefix. */
  lemma WrittenObjects(accountId: string, region: string, outputPath: string, pages: seq<Page<TopicSummary>>,
                       described: map<string, Topic>, permissions: map<string, seq<Permission>>)
    requires Ends(pages, UntilFalsy)
    ensures var w := Written(accountId, region, outputPath, pages, described, permissions);
      var summaries := Collected(pages, UntilFalsy);
      1 <= |w| <= 2 && w[0].key == InfoKey(outputPath) && w[0].bucket == Bucket(outputPath) &&
      (|w| == 2 <==> PermissionTotal(summaries, permissions) > 0) &&
      (|w| == 2 ==> w[1].key == AccessKey(outputPath) && |w[1].rows| == PermissionTotal(summaries, permissions))
  {
    AccessRowCount(accountId, region, Collected(pages, UntilFalsy), permissions);
  }
}
