/** The update-permissions function: finds the imported dashboard by name in
    the target account and grants the admin user the dashboard actions and,
    one dataset at a time, the dataset actions.

    The role session, the caller identity, the search, the describe answer
    and the outcome of each grant call are inputs (`PermissionsSide`). */
module UpdatePermissions {
  import opened Wrappers
  import opened Strings
  import opened Http
  import opened Arns

  const DASHBOARD_ACTIONS: seq<string> := [
    "quicksight:DescribeDashboard", "quicksight:ListDashboardVersions",
    "quicksight:UpdateDashboardPermissions", "quicksight:QueryDashboard",
    "quicksight:UpdateDashboard", "quicksight:DeleteDashboard",
    "quicksight:DescribeDashboardPermissions", "quicksight:UpdateDashboardPublishedVersion"]

  const DATASET_ACTIONS: seq<string> := [
    "quicksight:UpdateDataSetPermissions", "quicksight:DescribeDataSet",
    "quicksight:DescribeDataSetPermissions", "quicksight:PassDataSet",
    "quicksight:DescribeIngestion", "quicksight:ListIngestions",
    "quicksight:UpdateDataSet", "quicksight:DeleteDataSet",
    "quicksight:CreateIngestion", "quicksight:CancelIngestion"]

  const UPDATED_MESSAGE: string := "Permissions updated successfully"

  const REQUEST_KEYS: seq<string> := ["dashboard_name", "target_account_id", "target_role_name", "target_admin_user"]

  datatype Request = Request(dashboardName: string, targetAccountId: string, targetRoleName: string,
                             targetAdminUser: string, awsRegion: string)

  /** One `update_*_permissions` call that went through. */
  datatype Grant =
    | DashboardGrant(dashboardId: string, principal: string, actions: seq<string>)
    | DatasetGrant(dataSetId: string, principal: string, actions: seq<string>)

  /** The remote side, in call order. `search` is the `DashboardSummaryList`;
      `dataSetArns` the dashboard version's `DataSetArns`; the dataset grant
      call number `k` (from 0) raises `grantFaults[k]` when `k` is a key. */
  datatype PermissionsSide = PermissionsSide(
    session: Option<Fault>,
    callerAccount: Result<string, Fault>,
    search: Result<seq<map<string, string>>, Fault>,
    dashboardGrant: Option<Fault>,
    dataSetArns: Result<seq<string>, Fault>,
    grantFaults: map<nat, Fault>)

  datatype Body =
    | Updated(dashboardId: string, datasetsUpdated: nat, message: string)
    | Message(error: string)               // `{'error': text}`
    | Crash(fault: Fault)                  // `{'error': str(e)}`

  /** The reply and the grants made, in order. */
  datatype Outcome = Outcome(reply: Reply<Body>, grants: seq<Grant>)

  function ReadRequest(event: Event, parse: Parser): Result<Request, Fault> {
    var m :- if "httpMethod" in event && event["httpMethod"] == "POST" then
               var text :- Get(event, "body"); ParseJson(parse, text)
             else Ok(event);
    var v :- ReadAll(m, REQUEST_KEYS);
    Ok(Request(v[0], v[1], v[2], v[3], GetOr(m, "aws_region", DEFAULT_REGION)))
  }

  /** `dataset.split(":")[-1].split("/")[-1]`. */
  function DataSetId(arn: string): string {
    Last(Split(Last(Split(arn, ":")), "/"))
  }

  /** The standard dataset ARN's id is read back exactly. */
  lemma DataSetIdOfArn(region: string, accountId: string, id: string)
    requires ':' !in id && '/' !in id
    ensures DataSetId("arn:aws:quicksight:" + region + ":" + accountId + ":dataset/" + id) == id
  {
    var arn := "arn:aws:quicksight:" + region + ":" + accountId + ":dataset/" + id;
    var resource := "dataset/" + id;
    assert arn == ("arn:aws:quicksight:" + region + ":" + accountId) + [':'] + resource;
    assert ':' !in resource;
    LastOfSplitAfter("arn:aws:quicksight:" + region + ":" + accountId, ':', resource);
    assert resource == "dataset" + ['/'] + id;
    LastOfSplitAfter("dataset", '/', id);
  }

  /** One dataset grant per ARN, in order, all to `principal`. */
  function DatasetGrants(arns: seq<string>, principal: string): (gs: seq<Grant>)
    ensures |gs| == |arns|
    ensures forall i :: 0 <= i < |arns| ==> gs[i] == DatasetGrant(DataSetId(arns[i]), principal, DATASET_ACTIONS)
  {
    seq(|arns|, i requires 0 <= i < |arns| => DatasetGrant(DataSetId(arns[i]), principal, DATASET_ACTIONS))
  }

  /** The number of the first grant call that raises, or `n` if none of the
      first `n` does (counting from `from`). */
  function FirstFailing(faults: map<nat, Fault>, from: nat, n: nat): (k: nat)
    requires from <= n
    ensures from <= k <= n
    ensures forall j :: from <= j < k ==> j !in faults
    ensures k < n ==> k in faults
    decreases n - from
  {
    if from == n || from in faults then from else FirstFailing(faults, from + 1, n)
  }

  /** The `for dataset in datasets` loop: one grant per ARN until a call raises. */
  method GrantDatasets(arns: seq<string>, principal: string, faults: map<nat, Fault>)
    returns (grants: seq<Grant>, fault: Option<Fault>)
    ensures var k := FirstFailing(faults, 0, |arns|);
      grants == DatasetGrants(arns[..k], principal) &&
      fault == (if k < |arns| then Some(faults[k]) else None)
  {
    grants := [];
    var i := 0;
    while i < |arns|
      invariant 0 <= i <= |arns|
      invariant forall j :: 0 <= j < i ==> j !in faults
      invariant grants == DatasetGrants(arns[..i], principal)
    {
      if i in faults {
        return grants, Some(faults[i]);
      }
      assert arns[..i + 1] == arns[..i] + [arns[i]];
      grants := grants + [DatasetGrant(DataSetId(arns[i]), principal, DATASET_ACTIONS)];
      i := i + 1;
    }
    assert arns[..i] == arns;
    fault := None;
  }

  /** `lambda_handler`. */
  function Handle(event: Event, parse: Parser, side: PermissionsSide): Outcome {
    var api := "httpMethod" in event;
    match ReadRequest(event, parse)
    case Err(f) => Outcome(Reply(500, api, Crash(f)), [])
    case Ok(request) =>
      if side.session.Some? then Outcome(Reply(500, api, Crash(side.session.value)), [])
      else if side.callerAccount.Err? then Outcome(Reply(500, api, Crash(side.callerAccount.error)), [])
      else if side.search.Err? then Outcome(Reply(500, api, Crash(side.search.error)), [])
      else if side.search.value == [] then
        Outcome(Reply(404, false, Message("Dashboard " + request.dashboardName + " not found")), [])
      else if "DashboardId" !in side.search.value[0] then Outcome(Reply(500, api, Crash(MissingKey("DashboardId"))), [])
      else
        var dashboardId := side.search.value[0]["DashboardId"];
        var principal := UserArn(request.targetAdminUser, side.callerAccount.value, request.awsRegion, DEFAULT_NAMESPACE);
        if side.dashboardGrant.Some? then Outcome(Reply(500, api, Crash(side.dashboardGrant.value)), [])
        else
          var first := [DashboardGrant(dashboardId, principal, DASHBOARD_ACTIONS)];
          if side.dataSetArns.Err? then Outcome(Reply(500, api, Crash(side.dataSetArns.error)), first)
          else
            var arns := side.dataSetArns.value;
            var k := FirstFailing(side.grantFaults, 0, |arns|);
            var grants := first + DatasetGrants(arns[..k], principal);
            if k < |arns| then Outcome(Reply(500, api, Crash(side.grantFaults[k])), grants)
            else Outcome(Reply(200, api, Updated(dashboardId, |arns|, UPDATED_MESSAGE)), grants)
  }

  /** The handler as written: straight-line calls around the grant loop. */
  method LambdaHandler(event: Event, parse: Parser, side: PermissionsSide) returns (reply: Reply<Body>, grants: seq<Grant>)
    ensures Outcome(reply, grants) == Handle(event, parse, side)
  {
    var api := "httpMethod" in event;
    var read := ReadRequest(event, parse);
    if read.Err? {
      return Reply(500, api, Crash(read.error)), [];
    }
    var request := read.value;
    if side.session.Some? {
      return Reply(500, api, Crash(side.session.value)), [];
    }
    if side.callerAccount.Err? {
      return Reply(500, api, Crash(side.callerAccount.error)), [];
    }
    var principal := UserArn(request.targetAdminUser, side.callerAccount.value, request.awsRegion, DEFAULT_NAMESPACE);
    if side.search.Err? {
      return Reply(500, api, Crash(side.search.error)), [];
    }
    if side.search.value == [] {
      return Reply(404, false, Message("Dashboard " + request.dashboardName + " not found")), [];
    }
    if "DashboardId" !in side.search.value[0] {
      return Reply(500, api, Crash(MissingKey("DashboardId"))), [];
    }
    var dashboardId := side.search.value[0]["DashboardId"];
    if side.dashboardGrant.Some? {
      return Reply(500, api, Crash(side.dashboardGrant.value)), [];
    }
    grants := [DashboardGrant(dashboardId, principal, DASHBOARD_ACTIONS)];
    if side.dataSetArns.Err? {
      return Reply(500, api, Crash(side.dataSetArns.error)), grants;
    }
    var arns := side.dataSetArns.value;
    var made, fault := GrantDatasets(arns, principal, side.grantFaults);
    grants := grants + made;
    if fault.Some? {
      return Reply(500, api, Crash(fault.value)), grants;
    }
    reply := Reply(200, api, Updated(dashboardId, |arns|, UPDATED_MESSAGE));
  }

  /** The handler's way to its answer, completely: which calls had to go
      through for which reply. */
  predicate Reached(event: Event, parse: Parser, side: PermissionsSide) {
    ReadRequest(event, parse).Ok? && side.session.None? && side.callerAccount.Ok? && side.search.Ok?
  }

  /** An empty search answers 404 without header, naming the dashboard, and
      grants nothing. */
  lemma NotFound(event: Event, parse: Parser, side: PermissionsSide)
    requires Reached(event, parse, side) && side.search.value == []
    ensures Handle(event, parse, side) ==
      Outcome(Reply(404, false, Message("Dashboard " + ReadRequest(event, parse).value.dashboardName + " not found")), [])
  {
  }

  /** A 200 reply means: exactly one dashboard grant, to the first search
      result, then one dataset grant per ARN in order, all to the admin
      user's ARN, and `datasets_updated` is the number of ARNs. */
  lemma FanOut(event: Event, parse: Parser, side: PermissionsSide)
    ensures var o := Handle(event, parse, side);
      o.reply.statusCode == 200 ==>
        Reached(event, parse, side) && side.search.value != [] && "DashboardId" in side.search.value[0] &&
        side.dataSetArns.Ok? &&
        var request := ReadRequest(event, parse).value;
        var principal := UserArn(request.targetAdminUser, side.callerAccount.value, request.awsRegion, DEFAULT_NAMESPACE);
        var arns := side.dataSetArns.value;
        o.grants == [DashboardGrant(side.search.value[0]["DashboardId"], principal, DASHBOARD_ACTIONS)] + DatasetGrants(arns, principal) &&
        o.reply.body == Updated(side.search.value[0]["DashboardId"], |arns|, UPDATED_MESSAGE) &&
        |o.grants| == 1 + |arns|
  {
    var o := Handle(event, parse, side);
    if o.reply.statusCode == 200 {
      var arns := side.dataSetArns.value;
      assert arns[..|arns|] == arns;
    }
  }

  /** Codes and headers: 200, 404 (no header) or 500; only the first grant
      is a dashboard grant; a 500 after the dashboard grant keeps the
      dataset grants made before the failing call. */
  lemma ReplyShape(event: Event, parse: Parser, side: PermissionsSide)
    ensures var o := Handle(event, parse, side);
      o.reply.statusCode in {200, 404, 500} &&
      (o.reply.statusCode == 404 <==> Reached(event, parse, side) && side.search.value == []) &&
      (o.reply.statusCode != 404 ==> o.reply.jsonHeader == ("httpMethod" in event)) &&
      (o.reply.statusCode == 500 <==> o.reply.body.Crash?) &&
      (forall i :: 0 <= i < |o.grants| ==> (o.grants[i].DashboardGrant? <==> i == 0))
  {
    ReplyCodes(event, parse, side);
    GrantOrder(event, parse, side);
  }

  lemma ReplyCodes(event: Event, parse: Parser, side: PermissionsSide)
    ensures var o := Handle(event, parse, side);
      o.reply.statusCode in {200, 404, 500} &&
      (o.reply.statusCode == 404 <==> Reached(event, parse, side) && side.search.value == []) &&
      (o.reply.statusCode != 404 ==> o.reply.jsonHeader == ("httpMethod" in event)) &&
      (o.reply.statusCode == 500 <==> o.reply.body.Crash?)
  {
    if ReadRequest(event, parse).Ok? && side.session.None? && side.callerAccount.Ok? && side.search.Ok? &&
       side.search.value != [] && "DashboardId" in side.search.value[0] && side.dashboardGrant.None? && side.dataSetArns.Ok? {
      var arns := side.dataSetArns.value;
      var k := FirstFailing(side.grantFaults, 0, |arns|);
      if k < |arns| {
        assert Handle(event, parse, side).reply.statusCode == 500;
      } else {
        assert Handle(event, parse, side).reply.statusCode == 200;
      }
    }
  }

  lemma GrantOrder(event: Event, parse: Parser, side: PermissionsSide)
    ensures var o := Handle(event, parse, side);
      forall i :: 0 <= i < |o.grants| ==> (o.grants[i].DashboardGrant? <==> i == 0)
  {
  }
}
