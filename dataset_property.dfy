/** The dataset-permission Glue script: one CSV row per dataset and
    permission, with the dataset's latest SPICE refresh. It runs at module
    level, so `ConsumedSpiceCapacityInBytes` and `Type` are global variables
    that keep their values from one dataset to the next, and any exception
    ends the script before the upload. The QuickSight answers about a
    dataset (its permissions, its ingestions, the capacity
    `describe_data_set` reports) travel with its summary. */
module DatasetProperty {
  import opened Wrappers
  import opened Strings
  import opened Http
  import opened Paging
  import opened Seqs
  import opened Ingestions
  import opened Arns
  import opened S3Paths

  const BUCKET_PREFIX: string := "admin-console-new-"
  const KEY: string := "monitoring/quicksight/datasets_properties/datasets_properties.csv"
  const HEADER: seq<string> := ["Region", "DataSetID", "Name", "LastUpdatedTime", "ImportMode", "ConsumedSPICECapacityinBytes",
                                "RowsIngested", "RowsDropped", "RefreshTriggeredTime", "RefreshTimeinSeconds", "RequestSource",
                                "RequestType", "IngestionStatus", "ErrorInfoType", "ErrorInfoMessage", "PrincipalType",
                                "Principal", "AdditionalInfo", "Actions", "IsFile"]
  const ORPHAN_CELLS: seq<string> := ["", "Orphaned", "", ""]
  const ACTION_SEPARATOR: string := "|"

  /** Python's `IndexError` for `xs[k]` out of range. */
  const INDEX_ERROR: Fault := Raised("list index out of range")

  /** Python's `NameError` for a global read before its first assignment. */
  function Unassigned(variable: string): Fault {
    Raised("name '" + variable + "' is not defined")
  }

  datatype Permission = Permission(principal: string, actions: seq<string>)

  /** A `DataSetSummaries` entry and what the service answers about it. */
  datatype Dataset = Dataset(dataSetId: string, name: string, lastUpdatedTime: string, importMode: string, arn: string,
                             permissions: seq<Permission>, ingestions: seq<Ingestion>, described: Option<string>)

  /** The three principal cells. */
  datatype Grantee = Grantee(principalType: string, principal: string, additionalInfo: string)

  /** The cells of a dataset's rows around the principal cells: those
      before them in a row for a four-part principal (`front`) and in a row
      for a three-part principal or an orphaned dataset (`shortFront`), and
      the `IsFile` cell after them. */
  datatype Frame = Frame(front: seq<string>, shortFront: seq<string>, isFile: string)

  /** The script's variables between datasets: the rows so far, the
      counter, and the capacity globals. */
  datatype State = State(access: seq<seq<string>>, count: nat, spice: Spice)

  const INITIAL: State := State([], 0, UNASSIGNED)

  /** `Arn.split(":")[3]`. */
  function Region(arn: string): Result<string, Fault> {
    ArnRegion(arn, INDEX_ERROR)
  }

  /** The principal cells taken from a principal ARN split on `/`: the
      type after the last `:` of the first part, the second-to-last part as
      additional information, and the principal from the last one or two
      parts. A principal with no `/` raises; one with two parts or more than
      four gives no row. */
  function GranteeOf(principal: string): (r: Result<Option<Grantee>, Fault>)
    ensures r.Err? <==> '/' !in principal
    ensures r.Err? ==> r.error == INDEX_ERROR
    ensures r.Ok? && r.value.Some? <==> |Split(principal, "/")| == 3 || |Split(principal, "/")| == 4
    ensures r.Ok? && r.value.Some? ==>
      var parts := Split(principal, "/");
      r.value.value.principalType == Last(Split(parts[0], ":")) &&
      r.value.value.additionalInfo == parts[|parts| - 2] &&
      r.value.value.principal == (if |parts| == 4 then parts[2] + "/" + parts[3] else parts[2])
  {
    var parts := Split(principal, "/");
    SplitSingle(principal, "/");
    ContainsChar(principal, '/');
    if |parts| < 2 then Err(INDEX_ERROR)
    else
      var g := Grantee(Last(Split(parts[0], ":")), "", parts[|parts| - 2]);
      if |parts| == 4 then Ok(Some(g.(principal := parts[2] + "/" + parts[3])))
      else if |parts| == 3 then Ok(Some(g.(principal := parts[2])))
      else Ok(None)
  }

  /** A QuickSight user ARN names type `user`, the user, and the namespace. */
  lemma UserGrantee(username: string, accountId: string, region: string, namespace: string)
    requires username != "root"
    requires '/' !in username && '/' !in accountId && '/' !in region && '/' !in namespace
    ensures GranteeOf(UserArn(username, accountId, region, namespace)) == Ok(Some(Grantee("user", username, namespace)))
  {
    var front := "arn:aws:quicksight:" + region + ":" + accountId;
    UserArnSlashes(username, accountId, region, namespace);
    LastOfSplitAfter(front, ':', "user");
    assert front + [':'] + "user" == front + ":user";
  }

  /** The slash-separated parts of a user ARN. */
  lemma UserArnSlashes(username: string, accountId: string, region: string, namespace: string)
    requires username != "root"
    requires '/' !in username && '/' !in accountId && '/' !in region && '/' !in namespace
    ensures Split(UserArn(username, accountId, region, namespace), "/")
         == ["arn:aws:quicksight:" + region + ":" + accountId + ":user", namespace, username]
  {
    var head := "arn:aws:quicksight:" + region + ":" + accountId + ":user";
    var tail := namespace + ['/'] + username;
    UserArnPieces(username, accountId, region, namespace);
    SplitCharAbsent(username, '/');
    SplitCharFree(namespace, '/', username);
    SplitCharFree(head, '/', tail);
  }

  lemma UserArnPieces(username: string, accountId: string, region: string, namespace: string)
    requires username != "root" && '/' !in accountId && '/' !in region
    ensures var head := "arn:aws:quicksight:" + region + ":" + accountId + ":user";
      UserArn(username, accountId, region, namespace) == head + ['/'] + (namespace + ['/'] + username) && '/' !in head
  {
  }

  /** The five cells the refresh status fills, read in the script's order;
      `None` for a status it writes no row for. A completed refresh must
      carry its row counts and time, a failed one its error type. */
  datatype StatusCells = StatusCells(rowsIngested: string, rowsDropped: string, refreshTime: string,
                                     errorType: string, errorMessage: string)

  function StatusCellsOf(ing: Ingestion): (r: Result<Option<StatusCells>, Fault>)
    ensures r.Ok? && r.value.None? <==> !Handled(ing.status)
    ensures r.Err? ==> r.error.MissingKey? && (ing.status == COMPLETED || ing.status == FAILED)
    ensures ing.status == COMPLETED ==>
      (r.Ok? <==> ing.rowInfo.Some? && ing.rowInfo.value.rowsDropped.Some? && ing.rowInfo.value.rowsIngested.Some? &&
                  ing.ingestionTimeInSeconds.Some?)
    ensures ing.status == COMPLETED && r.Ok? ==>
      r.value == Some(StatusCells(ing.rowInfo.value.rowsIngested.value, ing.rowInfo.value.rowsDropped.value,
                                  ing.ingestionTimeInSeconds.value, NO_ERROR_TYPE, NO_ERROR_MESSAGE))
    ensures ing.status == FAILED ==> (r.Ok? <==> ing.errorInfo.Some? && ing.errorInfo.value.errorType.Some?)
    ensures ing.status == FAILED && r.Ok? ==>
      r.value == Some(StatusCells("", "", "", ing.errorInfo.value.errorType.value,
                                  ErrorMessage(ing.errorInfo.value.message.GetOr(""))))
    ensures ing.status in IN_PROGRESS ==> r == Ok(Some(StatusCells("", "", "", NO_ERROR_TYPE, NO_ERROR_MESSAGE)))
    ensures r.Ok? && r.value.Some? && ing.status != FAILED ==>
      r.value.value.errorType == NO_ERROR_TYPE && r.value.value.errorMessage == NO_ERROR_MESSAGE
  {
    if ing.status == COMPLETED then
      match ing.rowInfo
      case None => Err(MissingKey("RowInfo"))
      case Some(info) =>
        if info.rowsDropped.None? then Err(MissingKey("RowsDropped"))
        else if info.rowsIngested.None? then Err(MissingKey("RowsIngested"))
        else if ing.ingestionTimeInSeconds.None? then Err(MissingKey("IngestionTimeInSeconds"))
        else Ok(Some(StatusCells(info.rowsIngested.value, info.rowsDropped.value, ing.ingestionTimeInSeconds.value,
                                 NO_ERROR_TYPE, NO_ERROR_MESSAGE)))
    else if ing.status == FAILED then
      match ing.errorInfo
      case None => Err(MissingKey("ErrorInfo"))
      case Some(info) =>
        if info.errorType.None? then Err(MissingKey("Type"))
        else Ok(Some(StatusCells("", "", "", info.errorType.value, ErrorMessage(info.message.GetOr("")))))
    else if ing.status in IN_PROGRESS then Ok(Some(StatusCells("", "", "", NO_ERROR_TYPE, NO_ERROR_MESSAGE)))
    else Ok(None)
  }

  /** The frame of a SPICE row; building it reads the capacity globals,
      which raises while they are unassigned. */
  function SpiceFrame(region: string, d: Dataset, spice: Spice, ing: Ingestion, c: StatusCells): Result<Frame, Fault> {
    if spice.capacity.None? then Err(Unassigned("ConsumedSpiceCapacityInBytes"))
    else if spice.isFile.None? then Err(Unassigned("Type"))
    else
      var front := [region, d.dataSetId, d.name, d.lastUpdatedTime, d.importMode, spice.capacity.value,
                    c.rowsIngested, c.rowsDropped, ing.createdTime, c.refreshTime, ing.requestSource,
                    ing.requestType, ing.status, c.errorType, c.errorMessage];
      Ok(Frame(front, front, spice.isFile.value))
  }

  /** The frame of a DIRECT_QUERY row: capacity `'0'`, no refresh, no file.
      The rows for a three-part principal and the orphan row carry one more
      empty cell before the error cells than the four-part rows do. */
  function DirectQueryFrame(region: string, d: Dataset): Frame {
    var head := [region, d.dataSetId, d.name, d.lastUpdatedTime, d.importMode, "0"];
    var errors := [NO_ERROR_TYPE, NO_ERROR_MESSAGE];
    Frame(head + ["", "", "", "", "", "", ""] + errors, head + ["", "", "", "", "", "", "", ""] + errors, "")
  }

  function GranteeCells(g: Grantee, actions: seq<string>): seq<string> {
    [g.principalType, g.principal, g.additionalInfo, Join(actions, ACTION_SEPARATOR)]
  }

  /** The rows of a dataset's permissions, in order; a permission whose
      principal has the wrong number of parts gives none. */
  function PermissionRows(frame: Result<Frame, Fault>, perms: seq<Permission>): Result<seq<seq<string>>, Fault> {
    if perms == [] then Ok([])
    else
      var rows :- PermissionRows(frame, perms[..|perms| - 1]);
      var p := perms[|perms| - 1];
      var g :- GranteeOf(p.principal);
      if g.None? then Ok(rows)
      else
        var f :- frame;
        var front := if |Split(p.principal, "/")| == 4 then f.front else f.shortFront;
        Ok(rows + [front + GranteeCells(g.value, p.actions) + [f.isFile]])
  }

  /** The rows of one dataset: one per usable permission, or the single
      `Orphaned` row when it has no permission at all. */
  function DatasetRows(frame: Result<Frame, Fault>, perms: seq<Permission>): Result<seq<seq<string>>, Fault> {
    if perms == [] then
      var f :- frame;
      Ok([f.shortFront + ORPHAN_CELLS + [f.isFile]])
    else PermissionRows(frame, perms)
  }

  /** One pass of the dataset loop. */
  function Step(st: State, d: Dataset): Result<State, Fault> {
    var region :- Region(d.arn);
    if d.importMode == SPICE then
      if d.ingestions == [] then Err(INDEX_ERROR)
      else
        var ing := d.ingestions[0];
        var spice := SpiceAfter(st.spice, d.described, ing);
        var status :- StatusCellsOf(ing);
        if status.None? then Ok(State(st.access, st.count + 1, spice))
        else
          var rows :- DatasetRows(SpiceFrame(region, d, spice, ing, status.value), d.permissions);
          Ok(State(st.access + rows, st.count + 1, spice))
    else if d.importMode == DIRECT_QUERY then
      var rows :- DatasetRows(Ok(DirectQueryFrame(region, d)), d.permissions);
      Ok(State(st.access + rows, st.count + 1, st.spice))
    else Ok(State(st.access, st.count + 1, st.spice))
  }

  /** The loop over a run of datasets; the first exception ends it. */
  function Process(st: State, ds: seq<Dataset>): Result<State, Fault> {
    if ds == [] then Ok(st)
    else
      var before :- Process(st, ds[..|ds| - 1]);
      Step(before, ds[|ds| - 1])
  }

  // ---- the loops ----

  /** The permission loop of one dataset. */
  method PermissionLoop(frame: Result<Frame, Fault>, perms: seq<Permission>) returns (r: Result<seq<seq<string>>, Fault>)
    ensures r == PermissionRows(frame, perms)
  {
    var rows: seq<seq<string>> := [];
    for j := 0 to |perms|
      invariant PermissionRows(frame, perms[..j]) == Ok(rows)
    {
      assert perms[..j + 1][..j] == perms[..j];
      var p := perms[j];
      var g := GranteeOf(p.principal);
      if g.Err? {
        PermissionRowsFail(frame, perms, j + 1);
        return Err(g.error);
      }
      if g.value.Some? {
        if frame.Err? {
          PermissionRowsFail(frame, perms, j + 1);
          return Err(frame.error);
        }
        var front := if |Split(p.principal, "/")| == 4 then frame.value.front else frame.value.shortFront;
        rows := rows + [front + GranteeCells(g.value.value, p.actions) + [frame.value.isFile]];
      }
    }
    assert perms[..|perms|] == perms;
    return Ok(rows);
  }

  lemma {:induction false} PermissionRowsFail(frame: Result<Frame, Fault>, perms: seq<Permission>, k: nat)
    requires k <= |perms| && PermissionRows(frame, perms[..k]).Err?
    ensures PermissionRows(frame, perms) == PermissionRows(frame, perms[..k])
    decreases |perms|
  {
    if k < |perms| {
      var init := perms[..|perms| - 1];
      assert init[..k] == perms[..k];
      PermissionRowsFail(frame, init, k);
    } else {
      assert perms[..k] == perms;
    }
  }

  /** The body of the dataset loop. */
  method ProcessDataset(st: State, d: Dataset) returns (r: Result<State, Fault>)
    ensures r == Step(st, d)
  {
    var fields := Split(d.arn, ":");
    if |fields| < 4 {
      return Err(INDEX_ERROR);
    }
    var region := fields[3];
    var rows: Result<seq<seq<string>>, Fault>;
    var spice := st.spice;
    if d.importMode == SPICE {
      if d.ingestions == [] {
        return Err(INDEX_ERROR);
      }
      var ing := d.ingestions[0];
      spice := SpiceAfter(st.spice, d.described, ing);
      var status := StatusCellsOf(ing);
      if status.Err? {
        return Err(status.error);
      }
      if status.value.None? {
        return Ok(State(st.access, st.count + 1, spice));
      }
      var frame := SpiceFrame(region, d, spice, ing, status.value.value);
      if d.permissions == [] {
        if frame.Err? {
          return Err(frame.error);
        }
        rows := Ok([frame.value.shortFront + ORPHAN_CELLS + [frame.value.isFile]]);
      } else {
        rows := PermissionLoop(frame, d.permissions);
      }
    } else if d.importMode == DIRECT_QUERY {
      var frame := DirectQueryFrame(region, d);
      if d.permissions == [] {
        rows := Ok([frame.shortFront + ORPHAN_CELLS + [frame.isFile]]);
      } else {
        rows := PermissionLoop(Ok(frame), d.permissions);
      }
    } else {
      return Ok(State(st.access, st.count + 1, st.spice));
    }
    if rows.Err? {
      return Err(rows.error);
    }
    return Ok(State(st.access + rows.value, st.count + 1, spice));
  }

  lemma {:induction false} ProcessFail(st: State, a: seq<Dataset>, b: seq<Dataset>)
    requires Process(st, a).Err?
    ensures Process(st, a + b) == Process(st, a)
    decreases |b|
  {
    if b == [] {
      assert a + b == a;
    } else {
      var b' := b[..|b| - 1];
      assert (a + b)[..|a + b| - 1] == a + b';
      ProcessFail(st, a, b');
    }
  }

  /** A failed prefix is the result of the whole sequence. */
  lemma ProcessFailPrefix(st: State, pre: seq<Dataset>, all: seq<Dataset>)
    requires pre <= all && Process(st, pre).Err?
    ensures Process(st, all) == Process(st, pre)
  {
    assert all == pre + all[|pre|..];
    ProcessFail(st, pre, all[|pre|..]);
  }

  /** One more dataset of the page is one more step. */
  lemma ProcessNext(st: State, done: seq<Dataset>, items: seq<Dataset>, j: nat)
    requires j < |items| && Process(st, done + items[..j]).Ok?
    ensures Process(st, done + items[..j + 1]) == Step(Process(st, done + items[..j]).value, items[j])
  {
    SnocSlices(done, items, j);
    ProcessSnoc(st, done + items[..j], items[j]);
  }

  lemma ProcessSnoc(st: State, a: seq<Dataset>, d: Dataset)
    requires Process(st, a).Ok?
    ensures Process(st, a + [d]) == Step(Process(st, a).value, d)
  {
    SnocParts(a, d);
  }

  /** The dataset loop over one page, after the datasets `done`. */
  method ProcessPage(st: State, ghost done: seq<Dataset>, items: seq<Dataset>) returns (r: Result<State, Fault>)
    requires Process(INITIAL, done) == Ok(st)
    ensures r == Process(INITIAL, done + items)
  {
    var cur := st;
    assert done + items[..0] == done;
    for j := 0 to |items|
      invariant Process(INITIAL, done + items[..j]) == Ok(cur)
    {
      ProcessNext(INITIAL, done, items, j);
      var next := ProcessDataset(cur, items[j]);
      if next.Err? {
        assert done + items[..j + 1] <= done + items;
        ProcessFailPrefix(INITIAL, done + items[..j + 1], done + items);
        return next;
      }
      cur := next.value;
    }
    assert items[..|items|] == items;
    return Ok(cur);
  }

  /** The module-level page loop with its dataset loop inside. */
  method CollectProperties(pages: seq<Page<Dataset>>) returns (r: Result<State, Fault>, sent: seq<Option<string>>)
    requires Ends(pages, UntilAbsent)
    ensures r == Process(INITIAL, Collected(pages, UntilAbsent))
    ensures r.Ok? ==> |sent| == Fetched(pages, UntilAbsent) && sent[0] == None
    ensures r.Ok? ==> forall i :: 1 <= i < |sent| ==> sent[i] == Requested(pages[i - 1].nextToken)
  {
    var n := Fetched(pages, UntilAbsent);
    var st := INITIAL;
    sent := [];
    var nextToken: Option<string> := None;
    var i := 0;
    var more := true;
    while more
      invariant 0 <= i <= n
      invariant more ==> i < n
      invariant !more ==> i == n
      invariant Process(INITIAL, Items(pages[..i])) == Ok(st)
      invariant |sent| == i && (i > 0 ==> sent[0] == None)
      invariant forall k :: 1 <= k < i ==> sent[k] == Requested(pages[k - 1].nextToken)
      invariant i == 0 ==> nextToken == None
      invariant i > 0 ==> nextToken == pages[i - 1].nextToken
      decreases n - i
    {
      SentNext(sent, pages, i, nextToken);
      sent := sent + [Requested(nextToken)];
      var page := pages[i];
      ghost var done := Items(pages[..i]);
      ItemsNext(pages, i);
      var next := ProcessPage(st, done, page.items);
      if next.Err? {
        PageFailEnds(pages, i);
        return next, sent;
      }
      st := next.value;
      nextToken := page.nextToken;
      i := i + 1;
      more := nextToken.Some?;
    }
    return Ok(st), sent;
  }

  /** An exception on a page is the result of the whole loop. */
  lemma PageFailEnds(pages: seq<Page<Dataset>>, i: nat)
    requires Ends(pages, UntilAbsent) && i < Fetched(pages, UntilAbsent)
    requires Process(INITIAL, Items(pages[..i]) + pages[i].items).Err?
    ensures Process(INITIAL, Collected(pages, UntilAbsent)) == Process(INITIAL, Items(pages[..i]) + pages[i].items)
  {
    CollectedFrom(pages, UntilAbsent, i);
    ProcessFailPrefix(INITIAL, Items(pages[..i]) + pages[i].items, Collected(pages, UntilAbsent));
  }

  /** The script: collect the rows, then upload them under the header. */
  method RunJob(accountId: string, pages: seq<Page<Dataset>>) returns (r: Result<CsvObject, Fault>)
    requires Ends(pages, UntilAbsent)
    ensures r.Ok? <==> Process(INITIAL, Collected(pages, UntilAbsent)).Ok?
    ensures r.Ok? ==> r.value == CsvObject(BUCKET_PREFIX + accountId, KEY, HEADER, Process(INITIAL, Collected(pages, UntilAbsent)).value.access)
  {
    var st, _ := CollectProperties(pages);
    if st.Err? {
      return Err(st.error);
    }
    return Ok(CsvObject(BUCKET_PREFIX + accountId, KEY, HEADER, st.value.access));
  }

  // ---- properties ----

  /** Each dataset is counted once, and rows are only ever appended. */
  lemma {:induction false} Counted(st: State, ds: seq<Dataset>)
    requires Process(st, ds).Ok?
    ensures Process(st, ds).value.count == st.count + |ds|
    ensures st.access <= Process(st, ds).value.access
  {
    if ds != [] {
      Counted(st, ds[..|ds| - 1]);
    }
  }

  /** Every row has one cell per header column, or one more. */
  ghost predicate Widths(rows: seq<seq<string>>, shortest: nat, longest: nat) {
    forall k :: 0 <= k < |rows| ==> shortest <= |rows[k]| <= longest
  }

  lemma WidthsAppend(a: seq<seq<string>>, b: seq<seq<string>>, shortest: nat, longest: nat)
    requires Widths(a, shortest, longest) && Widths(b, shortest, longest)
    ensures Widths(a + b, shortest, longest)
  {
    assert forall k :: |a| <= k < |a + b| ==> (a + b)[k] == b[k - |a|];
  }

  lemma {:induction false} PermissionRowsWidth(frame: Result<Frame, Fault>, perms: seq<Permission>)
    requires frame.Ok? ==> |frame.value.front| == 15 && 15 <= |frame.value.shortFront| <= 16
    ensures PermissionRows(frame, perms).Ok? ==>
      Widths(PermissionRows(frame, perms).value, 20, if frame.Ok? then 5 + |frame.value.shortFront| else 20)
  {
    if perms != [] {
      PermissionRowsWidth(frame, perms[..|perms| - 1]);
    }
  }

  lemma DatasetRowsWidth(frame: Result<Frame, Fault>, perms: seq<Permission>)
    requires frame.Ok? ==> |frame.value.front| == 15 && 15 <= |frame.value.shortFront| <= 16
    ensures DatasetRows(frame, perms).Ok? ==>
      Widths(DatasetRows(frame, perms).value, 20, if frame.Ok? then 5 + |frame.value.shortFront| else 20)
  {
    PermissionRowsWidth(frame, perms);
  }

  /** A SPICE dataset's rows have exactly one cell per header column; a
      DIRECT_QUERY dataset's have that many or one more. */
  lemma StepWidth(st: State, d: Dataset)
    requires Widths(st.access, |HEADER|, |HEADER| + 1)
    ensures Step(st, d).Ok? ==> Widths(Step(st, d).value.access, |HEADER|, |HEADER| + 1)
    ensures Step(st, d).Ok? && d.importMode == SPICE ==> Widths(Step(st, d).value.access[|st.access|..], |HEADER|, |HEADER|)
  {
    var region := Region(d.arn);
    if region.Ok? {
      if d.importMode == SPICE && d.ingestions != [] {
        var ing := d.ingestions[0];
        var status := StatusCellsOf(ing);
        if status.Ok? && status.value.Some? {
          var frame := SpiceFrame(region.value, d, SpiceAfter(st.spice, d.described, ing), ing, status.value.value);
          DatasetRowsWidth(frame, d.permissions);
          if DatasetRows(frame, d.permissions).Ok? {
            var rows := DatasetRows(frame, d.permissions).value;
            assert Widths(rows, |HEADER|, |HEADER| + 1) by {
              forall k | 0 <= k < |rows| ensures |HEADER| <= |rows[k]| <= |HEADER| + 1 {
                assert |HEADER| <= |rows[k]| <= |HEADER|;
              }
            }
            WidthsAppend(st.access, rows, |HEADER|, |HEADER| + 1);
            assert (st.access + rows)[|st.access|..] == rows;
          }
        }
      } else if d.importMode == DIRECT_QUERY {
        var frame := Ok(DirectQueryFrame(region.value, d));
        DatasetRowsWidth(frame, d.permissions);
        if DatasetRows(frame, d.permissions).Ok? {
          WidthsAppend(st.access, DatasetRows(frame, d.permissions).value, |HEADER|, |HEADER| + 1);
        }
      }
    }
  }

  lemma {:induction false} ProcessWidth(st: State, ds: seq<Dataset>)
    requires Widths(st.access, |HEADER|, |HEADER| + 1)
    ensures Process(st, ds).Ok? ==> Widths(Process(st, ds).value.access, |HEADER|, |HEADER| + 1)
  {
    if ds != [] {
      ProcessWidth(st, ds[..|ds| - 1]);
      if Process(st, ds[..|ds| - 1]).Ok? {
        StepWidth(Process(st, ds[..|ds| - 1]).value, ds[|ds| - 1]);
      }
    }
  }

  /** A DIRECT_QUERY dataset without permissions gives exactly one row,
      marked `Orphaned`; it has 21 cells, so from the error cells on each
      sits one column right of its title and `Orphaned` lands under
      `AdditionalInfo`. */
  lemma DirectQueryOrphanRow(st: State, d: Dataset, region: string)
    requires d.permissions == [] && Region(d.arn) == Ok(region) && d.importMode == DIRECT_QUERY
    ensures Step(st, d).Ok?
    ensures var rows := Step(st, d).value.access[|st.access|..];
      |rows| == 1 && |rows[0]| == |HEADER| + 1 && rows[0][15] == NO_ERROR_MESSAGE && rows[0][17] == "Orphaned" &&
      HEADER[17] == "AdditionalInfo"
  {
    var frame := DirectQueryFrame(region, d);
    assert Step(st, d).value.access == st.access + [frame.shortFront + ORPHAN_CELLS + [frame.isFile]];
  }

  /** A SPICE dataset without permissions, with a handled refresh status and
      an assigned capacity, gives exactly one row, `Orphaned` under
      `Principal`. */
  lemma SpiceOrphanRow(st: State, d: Dataset, region: string)
    requires d.permissions == [] && Region(d.arn) == Ok(region) && d.importMode == SPICE && d.ingestions != []
    requires StatusCellsOf(d.ingestions[0]).Ok? && StatusCellsOf(d.ingestions[0]).value.Some?
    requires SpiceAfter(st.spice, d.described, d.ingestions[0]).capacity.Some?
    requires SpiceAfter(st.spice, d.described, d.ingestions[0]).isFile.Some?
    ensures Step(st, d).Ok?
    ensures var rows := Step(st, d).value.access[|st.access|..];
      |rows| == 1 && |rows[0]| == |HEADER| && rows[0][16] == "Orphaned" && HEADER[16] == "Principal"
  {
    var ing := d.ingestions[0];
    var frame := SpiceFrame(region, d, SpiceAfter(st.spice, d.described, ing), ing, StatusCellsOf(ing).value.value);
    assert Step(st, d).value.access == st.access + [frame.value.shortFront + ORPHAN_CELLS + [frame.value.isFile]];
  }

  /** A DIRECT_QUERY dataset with one permission: a four-part principal
      gives a row of 20 cells, each under its title; a three-part one gives
      21 cells, its principal type under `Principal`. */
  lemma DirectQueryPermissionRow(st: State, d: Dataset, region: string, g: Grantee)
    requires |d.permissions| == 1 && Region(d.arn) == Ok(region) && d.importMode == DIRECT_QUERY
    requires GranteeOf(d.permissions[0].principal) == Ok(Some(g))
    ensures Step(st, d).Ok?
    ensures var rows := Step(st, d).value.access[|st.access|..];
      var four := |Split(d.permissions[0].principal, "/")| == 4;
      |rows| == 1 && rows[0][5] == "0" &&
      (four ==> |rows[0]| == |HEADER| && rows[0][13] == NO_ERROR_TYPE && rows[0][15] == g.principalType &&
                rows[0][16] == g.principal && rows[0][17] == g.additionalInfo &&
                rows[0][18] == Join(d.permissions[0].actions, ACTION_SEPARATOR) && rows[0][19] == "") &&
      (!four ==> |rows[0]| == |HEADER| + 1 && rows[0][14] == NO_ERROR_TYPE && rows[0][16] == g.principalType)
  {
    var frame := DirectQueryFrame(region, d);
    var p := d.permissions[0];
    assert d.permissions == [p];
    SinglePermissionRow(frame, p, g);
  }

  lemma SinglePermissionRow(frame: Frame, p: Permission, g: Grantee)
    requires GranteeOf(p.principal) == Ok(Some(g))
    ensures PermissionRows(Ok(frame), [p])
         == Ok([(if |Split(p.principal, "/")| == 4 then frame.front else frame.shortFront) + GranteeCells(g, p.actions) + [frame.isFile]])
  {
    assert [p][..|[p]| - 1] == [];
    assert PermissionRows(Ok(frame), []) == Ok([]);
    assert [p][|[p]| - 1] == p;
    var row := (if |Split(p.principal, "/")| == 4 then frame.front else frame.shortFront) + GranteeCells(g, p.actions) + [frame.isFile];
    assert PermissionRows(Ok(frame), [p]).value == [] + [row];
    assert [] + [row] == [row];
  }

  /** A SPICE dataset whose latest refresh has an unhandled status adds no
      row, though its capacity lookup still updates the globals. */
  lemma UnhandledStatusNoRow(st: State, d: Dataset)
    requires Region(d.arn).Ok? && d.importMode == SPICE && d.ingestions != [] && !Handled(d.ingestions[0].status)
    ensures Step(st, d) == Ok(State(st.access, st.count + 1, SpiceAfter(st.spice, d.described, d.ingestions[0])))
  {
  }

  /** A SPICE dataset without ingestions, an ARN with fewer than four `:`
      fields, or a first principal without a `/` ends the script; for a
      SPICE dataset the last applies once its refresh status gives a row. */
  lemma Aborts(st: State, d: Dataset)
    ensures |Split(d.arn, ":")| < 4 ==> Step(st, d) == Err(INDEX_ERROR)
    ensures Region(d.arn).Ok? && d.importMode == SPICE && d.ingestions == [] ==> Step(st, d) == Err(INDEX_ERROR)
    ensures Region(d.arn).Ok? && d.permissions != [] && '/' !in d.permissions[0].principal && d.importMode == DIRECT_QUERY ==>
      Step(st, d) == Err(INDEX_ERROR)
    ensures Region(d.arn).Ok? && d.permissions != [] && '/' !in d.permissions[0].principal && d.importMode == SPICE &&
            d.ingestions != [] && StatusCellsOf(d.ingestions[0]).Ok? && StatusCellsOf(d.ingestions[0]).value.Some? ==>
      Step(st, d) == Err(INDEX_ERROR)
  {
    if Region(d.arn).Ok? && d.permissions != [] && '/' !in d.permissions[0].principal {
      if d.importMode == DIRECT_QUERY {
        FirstPrincipalRaises(Ok(DirectQueryFrame(Region(d.arn).value, d)), d.permissions);
      } else if d.importMode == SPICE && d.ingestions != [] && StatusCellsOf(d.ingestions[0]).Ok? &&
                StatusCellsOf(d.ingestions[0]).value.Some? {
        var ing := d.ingestions[0];
        var spice := SpiceAfter(st.spice, d.described, ing);
        FirstPrincipalRaises(SpiceFrame(Region(d.arn).value, d, spice, ing, StatusCellsOf(ing).value.value), d.permissions);
      }
    }
  }

  /** The first principal is split before any cell of the row is read, so
      one without a `/` raises whatever the frame. */
  lemma FirstPrincipalRaises(frame: Result<Frame, Fault>, perms: seq<Permission>)
    requires perms != [] && '/' !in perms[0].principal
    ensures PermissionRows(frame, perms) == Err(INDEX_ERROR)
  {
    assert PermissionRows(frame, perms[..1]) == Err(INDEX_ERROR) by {
      assert perms[..1][..0] == [];
    }
    PermissionRowsFail(frame, perms, 1);
  }

  /** A dataset whose capacity cannot be found and whose refresh is not
      failed reports the capacity and file flag of the dataset before it. */
  lemma StaleCapacity(st: State, d: Dataset)
    requires d.importMode == SPICE && d.ingestions != [] && d.described.None?
    requires d.ingestions[0].sizeInBytes.None? && d.ingestions[0].status != FAILED
    requires Step(st, d).Ok?
    ensures Step(st, d).value.spice == st.spice
  {
  }
}
