/** The combined dataset Glue script: dashboard lineage rows (which
    analysis and data sources feed each dashboard's datasets), a data
    dictionary of every dataset's output columns, and one property row per
    dataset with its latest SPICE refresh. The QuickSight answers are
    inputs: pages of listings, and per-id maps of what the describe and
    list calls return or raise (an id missing from a map is not found). */
module DatasetMetadata {
  import opened Wrappers
  import opened Strings
  import opened Paging
  import opened Seqs
  import opened Ingestions
  import opened S3Paths
  import Arns

  const RESOURCE_NOT_FOUND: string := "ResourceNotFoundException"
  const BUCKET_MISSING: string := "404"
  const NOT_AVAILABLE: string := "N/A"
  const ANALYSIS: string := "analysis"
  /** Describe errors whose text contains these are passed over. */
  const FLAT_FILE: string := "flat file"
  const UNSUPPORTED: string := "data set type is not supported"

  const INFO_SUFFIX: string := "/datasets_info/datasets_info.csv"
  const DICTIONARY_SUFFIX: string := "/data_dictionary/data_dictionary.csv"
  const PROPERTIES_SUFFIX: string := "/datasets_properties/datasets_properties.csv"

  const HEADER: seq<string> := ["Region", "DataSetID", "Name", "LastUpdatedTime", "ImportMode", "ConsumedSPICECapacityinBytes",
                                "RowsIngested", "RowsDropped", "RefreshTriggeredTime", "RefreshTimeinSeconds", "RequestSource",
                                "RequestType", "IngestionStatus", "ErrorInfoType", "ErrorInfoMessage", "IsFile"]

  /** What a call raises: a botocore `ClientError` with its error code, any
      other exception with its text, or `sys.exit` with its status. */
  datatype Raise = ClientError(code: string) | Exception(message: string) | Exit(status: int)

  const NOT_FOUND: Raise := ClientError(RESOURCE_NOT_FOUND)
  const INDEX_ERROR: Raise := Exception("list index out of range")

  /** `KeyError(key)`, whose text is the quoted key. */
  function KeyError(key: string): Raise {
    Exception("'" + key + "'")
  }

  /** `NameError` for a global read before its first assignment. */
  function Unassigned(variable: string): Raise {
    Exception("name '" + variable + "' is not defined")
  }

  /** The answer for `id`; an id the service does not know is not found. */
  function Lookup<T>(answers: map<string, Result<T, Raise>>, id: string): (r: Result<T, Raise>)
    ensures id !in answers ==> r == Err(NOT_FOUND)
  {
    if id in answers then answers[id] else Err(NOT_FOUND)
  }

  // ---- _list ----

  /** `_list`: the first page, then one request per `NextToken` until the
      token is absent; an empty token is sent as it is. */
  method ListAll<T>(pages: seq<Page<T>>) returns (result: seq<T>, sent: seq<Option<string>>)
    requires Ends(pages, UntilAbsent)
    ensures result == Collected(pages, UntilAbsent)
    ensures |sent| == Fetched(pages, UntilAbsent) && sent[0] == None
    ensures forall i :: 1 <= i < |sent| ==> sent[i] == pages[i - 1].nextToken && sent[i].Some?
  {
    var n := Fetched(pages, UntilAbsent);
    result := pages[0].items;
    sent := [None];
    var nextToken := pages[0].nextToken;
    assert pages[..1][..0] == [];
    var i := 1;
    while nextToken.Some?
      invariant 1 <= i <= n
      invariant result == Items(pages[..i])
      invariant nextToken == pages[i - 1].nextToken
      invariant nextToken.None? ==> i == n
      invariant |sent| == i && sent[0] == None
      invariant forall k :: 1 <= k < i ==> sent[k] == pages[k - 1].nextToken && sent[k].Some?
      decreases n - i
    {
      sent := sent + [nextToken];
      var response := pages[i];
      assert pages[..i + 1][..i] == pages[..i];
      nextToken := response.nextToken;
      result := result + response.items;
      i := i + 1;
    }
  }

  // ---- lineage: dashboards, their source analysis, their datasets ----

  /** An analysis or data source: its id and name, or `N/A` for both. */
  datatype Source = Source(id: string, name: string)

  const NO_SOURCE: Source := Source(NOT_AVAILABLE, NOT_AVAILABLE)

  /** A describe call for `id` answered with a name: a resource that is
      not found reads as `N/A`, any other error is raised. */
  function Resolved(id: string, answer: Result<string, Raise>): (r: Result<Source, Raise>)
    ensures r.Err? <==> answer.Err? && answer.error != NOT_FOUND
    ensures r.Err? ==> r.error == answer.error
    ensures answer.Ok? ==> r == Ok(Source(id, answer.value))
    ensures answer == Err(NOT_FOUND) ==> r == Ok(NO_SOURCE)
  {
    match answer
    case Ok(name) => Ok(Source(id, name))
    case Err(e) => if e == NOT_FOUND then Ok(NO_SOURCE) else Err(e)
  }

  /** The resource type of an ARN: the text after its last `:` up to the
      first `/`. */
  function ResourceType(arn: string): string {
    Split(Last(Split(arn, ":")), "/")[0]
  }

  /** The resource id of an ARN: the text after its last `/`. */
  function ResourceId(arn: string): string {
    Last(Split(arn, "/"))
  }

  /** The dashboard's source: the analysis named by `SourceEntityArn` when
      it names one. */
  function SourceOf(sourceEntityArn: Option<string>, analyses: map<string, Result<string, Raise>>): Result<Source, Raise> {
    match sourceEntityArn
    case None => Ok(NO_SOURCE)
    case Some(arn) =>
      if ResourceType(arn) == ANALYSIS then Resolved(ResourceId(arn), Lookup(analyses, ResourceId(arn)))
      else Ok(NO_SOURCE)
  }

  /** A QuickSight ARN `…:<type>/<id>` has that resource type and id. */
  lemma ArnParts(region: string, accountId: string, resource: string, id: string)
    requires ':' !in resource && '/' !in resource && ':' !in id && '/' !in id
    ensures ResourceType("arn:aws:quicksight:" + region + ":" + accountId + ":" + resource + "/" + id) == resource
    ensures ResourceId("arn:aws:quicksight:" + region + ":" + accountId + ":" + resource + "/" + id) == id
  {
    var front := "arn:aws:quicksight:" + region + ":" + accountId;
    var arn := "arn:aws:quicksight:" + region + ":" + accountId + ":" + resource + "/" + id;
    assert arn == front + [':'] + (resource + ['/'] + id);
    assert ':' !in resource + ['/'] + id;
    LastOfSplitAfter(front, ':', resource + ['/'] + id);
    SplitCharFree(resource, '/', id);
    assert arn == (front + ":" + resource) + ['/'] + id;
    LastOfSplitAfter(front + ":" + resource, '/', id);
  }

  /** A dashboard made from an analysis names it, or `N/A` if the analysis
      is gone; one whose source is of another type names none. */
  lemma DashboardSource(region: string, accountId: string, resource: string, id: string, analyses: map<string, Result<string, Raise>>)
    requires ':' !in resource && '/' !in resource && ':' !in id && '/' !in id
    ensures var arn := "arn:aws:quicksight:" + region + ":" + accountId + ":" + resource + "/" + id;
      (resource == ANALYSIS && id in analyses && analyses[id].Ok? ==> SourceOf(Some(arn), analyses) == Ok(Source(id, analyses[id].value))) &&
      (resource == ANALYSIS && id !in analyses ==> SourceOf(Some(arn), analyses) == Ok(NO_SOURCE)) &&
      (resource != ANALYSIS ==> SourceOf(Some(arn), analyses) == Ok(NO_SOURCE))
  {
    ArnParts(region, accountId, resource, id);
  }

  datatype RelationalTable = RelationalTable(dataSourceArn: string, catalog: Option<string>, schema: Option<string>, name: Option<string>)
  datatype CustomSql = CustomSql(dataSourceArn: string, name: string, sqlQuery: string)
  /** A `PhysicalTableMap` entry; neither part is present for other kinds. */
  datatype PhysicalTable = PhysicalTable(relationalTable: Option<RelationalTable>, customSql: Option<CustomSql>)
  datatype OutputColumn = OutputColumn(name: string, columnType: string, description: Option<string>)

  /** `describe_data_set(...)['DataSet']`. */
  datatype DataSetDetails = DataSetDetails(name: string, lastUpdatedTime: string, physicalTables: seq<PhysicalTable>,
                                           outputColumns: seq<OutputColumn>, consumedSpiceCapacityInBytes: Option<string>)

  /** `describe_dashboard(...)['Dashboard']`. */
  datatype Dashboard = Dashboard(name: string, sourceEntityArn: Option<string>, dataSetArns: seq<string>)

  /** A `DashboardSummaryList` entry with what `describe_dashboard` answers. */
  datatype DashboardSummary = DashboardSummary(dashboardId: string, described: Result<Dashboard, Raise>)

  /** The service's answers the script reads by id. */
  datatype Service = Service(analyses: map<string, Result<string, Raise>>,
                             dataSets: map<string, Result<DataSetDetails, Raise>>,
                             dataSources: map<string, Result<string, Raise>>,
                             ingestions: map<string, Result<seq<Ingestion>, Raise>>)

  /** The SQL of a custom query with its line breaks and tabs removed. */
  function FlatSql(sql: string): (r: string)
    ensures r == Without(sql, {'\n', '\r', '\t'})
  {
    var r := Replace(Replace(Replace(sql, "\n", ""), "\r", ""), "\t", "");
    ReplaceCharByNothing(sql, '\n');
    ReplaceCharByNothing(Without(sql, {'\n'}), '\r');
    ReplaceCharByNothing(Without(Without(sql, {'\n'}), {'\r'}), '\t');
    WithoutTwice(sql, {'\n'}, {'\r'});
    WithoutTwice(sql, {'\n'} + {'\r'}, {'\t'});
    assert {'\n'} + {'\r'} + {'\t'} == {'\n', '\r', '\t'};
    r
  }

  /** The flattened SQL has no line break or tab left, is no longer than
      the query, and a query without any is kept as it is. */
  lemma FlatSqlClean(sql: string)
    ensures forall k :: 0 <= k < |FlatSql(sql)| ==> FlatSql(sql)[k] !in {'\n', '\r', '\t'}
    ensures |FlatSql(sql)| <= |sql|
    ensures (forall k :: 0 <= k < |sql| ==> sql[k] !in {'\n', '\r', '\t'}) ==> FlatSql(sql) == sql
  {
    if forall k :: 0 <= k < |sql| ==> sql[k] !in {'\n', '\r', '\t'} {
      WithoutNone(sql, {'\n', '\r', '\t'});
    }
  }

  /** Rows written so far and the exception that ended the loop, if any. */
  datatype Partial = Partial(rows: seq<seq<string>>, raised: Option<Raise>)

  /** The rows of one physical table after the eight lineage cells: one
      for a relational table (catalog, schema and name default to `N/A`),
      one for a custom query (catalog `N/A`, the query flattened). */
  function TableRows(lineage: seq<string>, t: PhysicalTable, dataSources: map<string, Result<string, Raise>>): Partial {
    var first := match t.relationalTable
      case None => Partial([], None)
      case Some(rt) =>
        var id := ResourceId(rt.dataSourceArn);
        match Resolved(id, Lookup(dataSources, id))
        case Err(e) => Partial([], Some(e))
        case Ok(ds) => Partial([lineage + [ds.name, ds.id, rt.catalog.GetOr(NOT_AVAILABLE), rt.schema.GetOr(NOT_AVAILABLE),
                                          rt.name.GetOr(NOT_AVAILABLE)]], None);
    if first.raised.Some? then first
    else match t.customSql
      case None => first
      case Some(cs) =>
        var id := ResourceId(cs.dataSourceArn);
        match Resolved(id, Lookup(dataSources, id))
        case Err(e) => Partial(first.rows, Some(e))
        case Ok(ds) => Partial(first.rows + [lineage + [ds.name, ds.id, NOT_AVAILABLE, cs.name, FlatSql(cs.sqlQuery)]], None)
  }

  /** The table loop: rows until the first exception. */
  function TablesRows(lineage: seq<string>, tables: seq<PhysicalTable>, dataSources: map<string, Result<string, Raise>>): Partial {
    if tables == [] then Partial([], None)
    else
      var before := TablesRows(lineage, tables[..|tables| - 1], dataSources);
      if before.raised.Some? then before
      else
        var last := TableRows(lineage, tables[|tables| - 1], dataSources);
        Partial(before.rows + last.rows, last.raised)
  }

  /** The `except` clauses around a dataset: any `ClientError`, and an
      exception whose text contains `marker`, move on to the next dataset. */
  predicate Caught(e: Raise, marker: string) {
    e.ClientError? || (e.Exception? && Contains(e.message, marker))
  }

  /** The rows written for one of a dashboard's datasets, which stay
      written when the loop moves on after a caught exception. */
  function DatasetLineage(region: string, dashboardId: string, d: Dashboard, source: Source, dataSetArn: string, service: Service)
    : Result<seq<seq<string>>, Raise>
  {
    var dsid := ResourceId(dataSetArn);
    var p := match Lookup(service.dataSets, dsid)
      case Err(e) => Partial([], Some(e))
      case Ok(details) =>
        TablesRows([region, d.name, dashboardId, source.name, source.id, details.name, dsid, details.lastUpdatedTime],
                   details.physicalTables, service.dataSources);
    if p.raised.None? || Caught(p.raised.value, FLAT_FILE) then Ok(p.rows) else Err(p.raised.value)
  }

  /** The rows of one dashboard, dataset by dataset. */
  function DashboardLineage(region: string, dashboardId: string, d: Dashboard, source: Source, arns: seq<string>, service: Service)
    : Result<seq<seq<string>>, Raise>
  {
    if arns == [] then Ok([])
    else
      var before :- DashboardLineage(region, dashboardId, d, source, arns[..|arns| - 1], service);
      var rows :- DatasetLineage(region, dashboardId, d, source, arns[|arns| - 1], service);
      Ok(before + rows)
  }

  /** The lineage rows of all dashboards; a failed `describe_dashboard` or
      analysis lookup ends the script. */
  function Lineage(region: string, dashboards: seq<DashboardSummary>, service: Service): Result<seq<seq<string>>, Raise> {
    if dashboards == [] then Ok([])
    else
      var before :- Lineage(region, dashboards[..|dashboards| - 1], service);
      var summary := dashboards[|dashboards| - 1];
      var d :- summary.described;
      var source :- SourceOf(d.sourceEntityArn, service.analyses);
      var rows :- DashboardLineage(region, summary.dashboardId, d, source, d.dataSetArns, service);
      Ok(before + rows)
  }

  method TableLoop(lineage: seq<string>, tables: seq<PhysicalTable>, dataSources: map<string, Result<string, Raise>>)
    returns (p: Partial)
    ensures p == TablesRows(lineage, tables, dataSources)
  {
    var rows: seq<seq<string>> := [];
    for j := 0 to |tables|
      invariant TablesRows(lineage, tables[..j], dataSources) == Partial(rows, None)
    {
      assert tables[..j + 1][..j] == tables[..j];
      var t := TableRows(lineage, tables[j], dataSources);
      rows := rows + t.rows;
      if t.raised.Some? {
        TablesRaised(lineage, tables, dataSources, j + 1);
        return Partial(rows, t.raised);
      }
    }
    assert tables[..|tables|] == tables;
    return Partial(rows, None);
  }

  lemma {:induction false} TablesRaised(lineage: seq<string>, tables: seq<PhysicalTable>, dataSources: map<string, Result<string, Raise>>, k: nat)
    requires k <= |tables| && TablesRows(lineage, tables[..k], dataSources).raised.Some?
    ensures TablesRows(lineage, tables, dataSources) == TablesRows(lineage, tables[..k], dataSources)
    decreases |tables|
  {
    if k < |tables| {
      assert tables[..|tables| - 1][..k] == tables[..k];
      TablesRaised(lineage, tables[..|tables| - 1], dataSources, k);
    } else {
      assert tables[..k] == tables;
    }
  }

  /** The dashboard loop with its dataset loop inside. */
  method LineageLoop(region: string, dashboards: seq<DashboardSummary>, service: Service) returns (r: Result<seq<seq<string>>, Raise>)
    ensures r == Lineage(region, dashboards, service)
  {
    var info: seq<seq<string>> := [];
    for i := 0 to |dashboards|
      invariant Lineage(region, dashboards[..i], service) == Ok(info)
    {
      LineageNext(region, dashboards, service, i, info);
      var summary := dashboards[i];
      if summary.described.Err? {
        LineageFail(region, dashboards, service, i + 1);
        return Err(summary.described.error);
      }
      var d := summary.described.value;
      var source := SourceOf(d.sourceEntityArn, service.analyses);
      if source.Err? {
        LineageFail(region, dashboards, service, i + 1);
        return Err(source.error);
      }
      var rows := DashboardLoop(region, summary.dashboardId, d, source.value, service);
      if rows.Err? {
        LineageFail(region, dashboards, service, i + 1);
        return Err(rows.error);
      }
      info := info + rows.value;
    }
    assert dashboards[..|dashboards|] == dashboards;
    return Ok(info);
  }

  /** The dataset loop of one dashboard. */
  method DashboardLoop(region: string, dashboardId: string, d: Dashboard, source: Source, service: Service)
    returns (r: Result<seq<seq<string>>, Raise>)
    ensures r == DashboardLineage(region, dashboardId, d, source, d.dataSetArns, service)
  {
    var rows: seq<seq<string>> := [];
    for j := 0 to |d.dataSetArns|
      invariant DashboardLineage(region, dashboardId, d, source, d.dataSetArns[..j], service) == Ok(rows)
    {
      DashboardNext(region, dashboardId, d, source, d.dataSetArns, service, j, rows);
      var more := DatasetStep(region, dashboardId, d, source, d.dataSetArns[j], service);
      if more.Err? {
        DashboardFail(region, dashboardId, d, source, d.dataSetArns, service, j + 1);
        return more;
      }
      rows := rows + more.value;
    }
    assert d.dataSetArns[..|d.dataSetArns|] == d.dataSetArns;
    return Ok(rows);
  }

  /** One dataset of a dashboard: its tables' rows, or the exception the
      `except` clauses do not catch. */
  method DatasetStep(region: string, dashboardId: string, d: Dashboard, source: Source, dataSetArn: string, service: Service)
    returns (r: Result<seq<seq<string>>, Raise>)
    ensures r == DatasetLineage(region, dashboardId, d, source, dataSetArn, service)
  {
    var dsid := ResourceId(dataSetArn);
    var described := Lookup(service.dataSets, dsid);
    var p: Partial;
    if described.Err? {
      p := Partial([], Some(described.error));
    } else {
      var details := described.value;
      p := TableLoop([region, d.name, dashboardId, source.name, source.id, details.name, dsid,
                      details.lastUpdatedTime], details.physicalTables, service.dataSources);
    }
    if p.raised.Some? && !Caught(p.raised.value, FLAT_FILE) {
      return Err(p.raised.value);
    }
    return Ok(p.rows);
  }

  /** One more dashboard extends the rows so far, or ends them with the
      first exception its description, its analysis or its datasets raise. */
  lemma LineageNext(region: string, dashboards: seq<DashboardSummary>, service: Service, i: nat, info: seq<seq<string>>)
    requires i < |dashboards| && Lineage(region, dashboards[..i], service) == Ok(info)
    ensures var summary := dashboards[i];
      var d := summary.described;
      Lineage(region, dashboards[..i + 1], service) ==
        if d.Err? then Err(d.error)
        else
          var source := SourceOf(d.value.sourceEntityArn, service.analyses);
          if source.Err? then Err(source.error)
          else
            var rows := DashboardLineage(region, summary.dashboardId, d.value, source.value, d.value.dataSetArns, service);
            if rows.Err? then Err(rows.error) else Ok(info + rows.value)
  {
    assert dashboards[..i + 1][..i] == dashboards[..i];
  }

  /** One more dataset extends the rows so far, or ends them with its
      exception. */
  lemma DashboardNext(region: string, dashboardId: string, d: Dashboard, source: Source, arns: seq<string>, service: Service,
                      j: nat, rows: seq<seq<string>>)
    requires j < |arns| && DashboardLineage(region, dashboardId, d, source, arns[..j], service) == Ok(rows)
    ensures var more := DatasetLineage(region, dashboardId, d, source, arns[j], service);
      DashboardLineage(region, dashboardId, d, source, arns[..j + 1], service) ==
        (if more.Err? then Err(more.error) else Ok(rows + more.value))
  {
    assert arns[..j + 1][..j] == arns[..j];
  }

  lemma {:induction false} DashboardFail(region: string, dashboardId: string, d: Dashboard, source: Source, arns: seq<string>,
                                         service: Service, k: nat)
    requires k <= |arns| && DashboardLineage(region, dashboardId, d, source, arns[..k], service).Err?
    ensures DashboardLineage(region, dashboardId, d, source, arns, service) == DashboardLineage(region, dashboardId, d, source, arns[..k], service)
    decreases |arns|
  {
    if k < |arns| {
      assert arns[..|arns| - 1][..k] == arns[..k];
      DashboardFail(region, dashboardId, d, source, arns[..|arns| - 1], service, k);
    } else {
      assert arns[..k] == arns;
    }
  }

  lemma {:induction false} LineageFail(region: string, dashboards: seq<DashboardSummary>, service: Service, k: nat)
    requires k <= |dashboards| && Lineage(region, dashboards[..k], service).Err?
    ensures Lineage(region, dashboards, service) == Lineage(region, dashboards[..k], service)
    decreases |dashboards|
  {
    if k < |dashboards| {
      assert dashboards[..|dashboards| - 1][..k] == dashboards[..k];
      LineageFail(region, dashboards[..|dashboards| - 1], service, k);
    } else {
      assert dashboards[..k] == dashboards;
    }
  }

  /** Every lineage row has thirteen cells. */
  ghost predicate Wide(rows: seq<seq<string>>, width: nat) {
    forall k :: 0 <= k < |rows| ==> |rows[k]| == width
  }

  lemma WideAppend(a: seq<seq<string>>, b: seq<seq<string>>, width: nat)
    requires Wide(a, width) && Wide(b, width)
    ensures Wide(a + b, width)
  {
    assert forall k :: |a| <= k < |a + b| ==> (a + b)[k] == b[k - |a|];
  }

  lemma {:induction false} TablesRowsWide(lineage: seq<string>, tables: seq<PhysicalTable>, dataSources: map<string, Result<string, Raise>>)
    requires |lineage| == 8
    ensures Wide(TablesRows(lineage, tables, dataSources).rows, 13)
  {
    if tables != [] {
      TablesRowsWide(lineage, tables[..|tables| - 1], dataSources);
      WideAppend(TablesRows(lineage, tables[..|tables| - 1], dataSources).rows,
                 TableRows(lineage, tables[|tables| - 1], dataSources).rows, 13);
    }
  }

  lemma {:induction false} DashboardLineageWide(region: string, dashboardId: string, d: Dashboard, source: Source, arns: seq<string>,
                                                service: Service)
    ensures DashboardLineage(region, dashboardId, d, source, arns, service).Ok? ==>
      Wide(DashboardLineage(region, dashboardId, d, source, arns, service).value, 13)
  {
    if arns != [] {
      DashboardLineageWide(region, dashboardId, d, source, arns[..|arns| - 1], service);
      var dsid := ResourceId(arns[|arns| - 1]);
      var described := Lookup(service.dataSets, dsid);
      if described.Ok? {
        TablesRowsWide([region, d.name, dashboardId, source.name, source.id, described.value.name, dsid,
                        described.value.lastUpdatedTime], described.value.physicalTables, service.dataSources);
      }
      var before := DashboardLineage(region, dashboardId, d, source, arns[..|arns| - 1], service);
      var rows := DatasetLineage(region, dashboardId, d, source, arns[|arns| - 1], service);
      if before.Ok? && rows.Ok? {
        WideAppend(before.value, rows.value, 13);
      }
    }
  }

  lemma {:induction false} LineageWide(region: string, dashboards: seq<DashboardSummary>, service: Service)
    ensures Lineage(region, dashboards, service).Ok? ==> Wide(Lineage(region, dashboards, service).value, 13)
  {
    if dashboards != [] {
      var init := dashboards[..|dashboards| - 1];
      LineageWide(region, init, service);
      var summary := dashboards[|dashboards| - 1];
      if Lineage(region, init, service).Ok? && summary.described.Ok? {
        var d := summary.described.value;
        var source := SourceOf(d.sourceEntityArn, service.analyses);
        if source.Ok? {
          DashboardLineageWide(region, summary.dashboardId, d, source.value, d.dataSetArns, service);
          var rows := DashboardLineage(region, summary.dashboardId, d, source.value, d.dataSetArns, service);
          if rows.Ok? {
            WideAppend(Lineage(region, init, service).value, rows.value, 13);
          }
        }
      }
    }
  }

  /** A relational table written with its gaps filled: the data source's
      name and id, then `N/A` for each missing catalog, schema or name. */
  lemma RelationalRow(lineage: seq<string>, rt: RelationalTable, source: string, dataSources: map<string, Result<string, Raise>>)
    requires ResourceId(rt.dataSourceArn) in dataSources && dataSources[ResourceId(rt.dataSourceArn)] == Ok(source)
    ensures TableRows(lineage, PhysicalTable(Some(rt), None), dataSources)
         == Partial([lineage + [source, ResourceId(rt.dataSourceArn), rt.catalog.GetOr(NOT_AVAILABLE), rt.schema.GetOr(NOT_AVAILABLE),
                                rt.name.GetOr(NOT_AVAILABLE)]], None)
  {
  }

  /** A custom query whose data source is gone is written with `N/A` for
      the data source and its SQL on one line. */
  lemma CustomSqlRow(lineage: seq<string>, cs: CustomSql, dataSources: map<string, Result<string, Raise>>)
    requires ResourceId(cs.dataSourceArn) !in dataSources
    ensures var rows := TableRows(lineage, PhysicalTable(None, Some(cs)), dataSources).rows;
      |rows| == 1 && rows[0] == lineage + [NOT_AVAILABLE, NOT_AVAILABLE, NOT_AVAILABLE, cs.name, FlatSql(cs.sqlQuery)] &&
      '\n' !in rows[0][|lineage| + 4] && '\r' !in rows[0][|lineage| + 4] && '\t' !in rows[0][|lineage| + 4]
  {
    var rows := TableRows(lineage, PhysicalTable(None, Some(cs)), dataSources).rows;
    assert rows == [] + [lineage + [NOT_AVAILABLE, NOT_AVAILABLE, NOT_AVAILABLE, cs.name, FlatSql(cs.sqlQuery)]];
    assert rows[0][|lineage| + 4] == FlatSql(cs.sqlQuery);
  }

  /** A dataset the service does not know, or whose describe raises a
      flat-file error, adds no lineage row and does not stop the script. */
  lemma UnknownDatasetSkipped(region: string, dashboardId: string, d: Dashboard, source: Source, dataSetArn: string, service: Service)
    requires Lookup(service.dataSets, ResourceId(dataSetArn)).Err?
    ensures var e := Lookup(service.dataSets, ResourceId(dataSetArn)).error;
      DatasetLineage(region, dashboardId, d, source, dataSetArn, service) == (if Caught(e, FLAT_FILE) then Ok([]) else Err(e))
  {
  }

  // ---- dictionary and property rows ----

  /** A `DataSetSummaries` entry. */
  datatype DataSetSummary = DataSetSummary(dataSetId: string, name: string, lastUpdatedTime: string, importMode: string, arn: string)

  /** The dictionary rows, the property rows and the capacity globals. */
  datatype Tables = Tables(dictionary: seq<seq<string>>, properties: seq<seq<string>>, spice: Spice)

  const INITIAL: Tables := Tables([], [], UNASSIGNED)

  /** One dictionary row per output column; a missing description is
      written as an empty cell, as the CSV writer writes `None`. */
  function DictionaryRows(s: DataSetSummary, columns: seq<OutputColumn>): (rows: seq<seq<string>>)
    ensures |rows| == |columns|
    ensures forall k :: 0 <= k < |rows| ==>
      rows[k] == [s.name, s.dataSetId, columns[k].name, columns[k].columnType, columns[k].description.GetOr("")]
  {
    if columns == [] then []
    else DictionaryRows(s, columns[..|columns| - 1]) + [[s.name, s.dataSetId, columns[|columns| - 1].name,
                                                         columns[|columns| - 1].columnType, columns[|columns| - 1].description.GetOr("")]]
  }

  /** `Arn.split(":")[3]`, outside the `try`. */
  function Region(arn: string): Result<string, Raise> {
    Arns.ArnRegion(arn, INDEX_ERROR)
  }

  /** The property row of a SPICE dataset's latest refresh, `None` for an
      unhandled status. A completed refresh defaults missing counts and time
      to `0`; a failed one must carry its error type. The capacity globals
      are read for the row, which raises while they are unassigned. */
  function SpiceRow(region: string, s: DataSetSummary, spice: Spice, ing: Ingestion): Result<Option<seq<string>>, Raise> {
    var cells :-
      if ing.status == COMPLETED then
        var info := ing.rowInfo.GetOr(RowInfo(None, None));
        Ok(Some([info.rowsIngested.GetOr("0"), info.rowsDropped.GetOr("0"), ing.createdTime,
                 ing.ingestionTimeInSeconds.GetOr("0"), NO_ERROR_TYPE, NO_ERROR_MESSAGE]))
      else if ing.status == FAILED then
        if ing.errorInfo.None? then Err(KeyError("ErrorInfo"))
        else if ing.errorInfo.value.errorType.None? then Err(KeyError("Type"))
        else Ok(Some(["", "", ing.createdTime, "", ing.errorInfo.value.errorType.value,
                      ErrorMessage(ing.errorInfo.value.message.GetOr(""))]))
      else if ing.status in IN_PROGRESS then Ok(Some(["", "", ing.createdTime, "", NO_ERROR_TYPE, NO_ERROR_MESSAGE]))
      else Ok(None);
    if cells.None? then Ok(None)
    else if spice.capacity.None? then Err(Unassigned("ConsumedSpiceCapacityInBytes"))
    else if spice.isFile.None? then Err(Unassigned("Type"))
    else
      var c := cells.value;
      Ok(Some([region, s.dataSetId, s.name, s.lastUpdatedTime, s.importMode, spice.capacity.value, c[0], c[1], c[2], c[3],
               ing.requestSource, ing.requestType, ing.status, c[4], c[5], spice.isFile.value]))
  }

  /** The property row of a DIRECT_QUERY dataset. */
  function DirectQueryRow(region: string, s: DataSetSummary): seq<string> {
    [region, s.dataSetId, s.name, s.lastUpdatedTime, s.importMode, "0", "", "", "", "", "", "", "", NO_ERROR_TYPE, NO_ERROR_MESSAGE, ""]
  }

  /** The body of the dataset `try`: what it has written when it finishes
      or raises, and what it raised. */
  datatype Attempt = Attempt(tables: Tables, raised: Option<Raise>)

  function Attempted(st: Tables, region: string, s: DataSetSummary, service: Service): Attempt {
    match Lookup(service.dataSets, s.dataSetId)
    case Err(e) => Attempt(st, Some(e))
    case Ok(details) =>
      var dictionary := st.dictionary + DictionaryRows(s, details.outputColumns);
      var st1 := st.(dictionary := dictionary);
      if s.importMode == SPICE then
        match Lookup(service.ingestions, s.dataSetId)
        case Err(e) => Attempt(st1, Some(e))
        case Ok(ings) =>
          if ings == [] then Attempt(st1, None)
          else
            var spice := SpiceAfter(st.spice, details.consumedSpiceCapacityInBytes, ings[0]);
            var st2 := st1.(spice := spice);
            match SpiceRow(region, s, spice, ings[0])
            case Err(e) => Attempt(st2, Some(e))
            case Ok(row) => Attempt(if row.Some? then st2.(properties := st.properties + [row.value]) else st2, None)
      else if s.importMode == DIRECT_QUERY then Attempt(st1.(properties := st.properties + [DirectQueryRow(region, s)]), None)
      else Attempt(st1, None)
  }

  /** One pass of the dataset loop. */
  function Step(st: Tables, s: DataSetSummary, service: Service): Result<Tables, Raise> {
    var region :- Region(s.arn);
    var a := Attempted(st, region, s, service);
    if a.raised.None? || Caught(a.raised.value, UNSUPPORTED) then Ok(a.tables) else Err(a.raised.value)
  }

  function Process(st: Tables, ds: seq<DataSetSummary>, service: Service): Result<Tables, Raise> {
    if ds == [] then Ok(st)
    else
      var before :- Process(st, ds[..|ds| - 1], service);
      Step(before, ds[|ds| - 1], service)
  }

  /** The body of the dataset loop, with the output-column loop. */
  method DescribeDataset(st: Tables, s: DataSetSummary, service: Service) returns (r: Result<Tables, Raise>)
    ensures r == Step(st, s, service)
  {
    var fields := Split(s.arn, ":");
    if |fields| < 4 {
      return Err(INDEX_ERROR);
    }
    var region := fields[3];
    var a: Attempt;
    var described := Lookup(service.dataSets, s.dataSetId);
    if described.Err? {
      a := Attempt(st, Some(described.error));
    } else {
      var details := described.value;
      var dictionary := st.dictionary;
      for k := 0 to |details.outputColumns|
        invariant dictionary == st.dictionary + DictionaryRows(s, details.outputColumns[..k])
      {
        assert details.outputColumns[..k + 1][..k] == details.outputColumns[..k];
        var column := details.outputColumns[k];
        dictionary := dictionary + [[s.name, s.dataSetId, column.name, column.columnType, column.description.GetOr("")]];
      }
      assert details.outputColumns[..|details.outputColumns|] == details.outputColumns;
      var st1 := st.(dictionary := dictionary);
      if s.importMode == SPICE {
        var listed := Lookup(service.ingestions, s.dataSetId);
        if listed.Err? {
          a := Attempt(st1, Some(listed.error));
        } else if listed.value == [] {
          a := Attempt(st1, None);
        } else {
          var ing := listed.value[0];
          var spice := SpiceAfter(st.spice, details.consumedSpiceCapacityInBytes, ing);
          var st2 := st1.(spice := spice);
          var row := SpiceRow(region, s, spice, ing);
          if row.Err? {
            a := Attempt(st2, Some(row.error));
          } else if row.value.Some? {
            a := Attempt(st2.(properties := st.properties + [row.value.value]), None);
          } else {
            a := Attempt(st2, None);
          }
        }
      } else if s.importMode == DIRECT_QUERY {
        a := Attempt(st1.(properties := st.properties + [DirectQueryRow(region, s)]), None);
      } else {
        a := Attempt(st1, None);
      }
    }
    if a.raised.Some? && !Caught(a.raised.value, UNSUPPORTED) {
      return Err(a.raised.value);
    }
    return Ok(a.tables);
  }

  lemma {:induction false} ProcessFail(st: Tables, a: seq<DataSetSummary>, b: seq<DataSetSummary>, service: Service)
    requires Process(st, a, service).Err?
    ensures Process(st, a + b, service) == Process(st, a, service)
    decreases |b|
  {
    if b == [] {
      assert a + b == a;
    } else {
      assert (a + b)[..|a + b| - 1] == a + b[..|b| - 1];
      ProcessFail(st, a, b[..|b| - 1], service);
    }
  }

  /** A failed prefix is the result of the whole sequence. */
  lemma ProcessFailPrefix(st: Tables, pre: seq<DataSetSummary>, all: seq<DataSetSummary>, service: Service)
    requires pre <= all && Process(st, pre, service).Err?
    ensures Process(st, all, service) == Process(st, pre, service)
  {
    assert all == pre + all[|pre|..];
    ProcessFail(st, pre, all[|pre|..], service);
  }

  /** One more dataset of the page is one more step. */
  lemma ProcessNext(st: Tables, done: seq<DataSetSummary>, items: seq<DataSetSummary>, j: nat, service: Service)
    requires j < |items| && Process(st, done + items[..j], service).Ok?
    ensures Process(st, done + items[..j + 1], service) == Step(Process(st, done + items[..j], service).value, items[j], service)
  {
    SnocSlices(done, items, j);
    ProcessSnoc(st, done + items[..j], items[j], service);
  }

  lemma ProcessSnoc(st: Tables, a: seq<DataSetSummary>, d: DataSetSummary, service: Service)
    requires Process(st, a, service).Ok?
    ensures Process(st, a + [d], service) == Step(Process(st, a, service).value, d, service)
  {
    SnocParts(a, d);
  }

  /** The dataset loop over one page, after the datasets `done`. */
  method DescribePage(st: Tables, ghost done: seq<DataSetSummary>, items: seq<DataSetSummary>, service: Service)
    returns (r: Result<Tables, Raise>)
    requires Process(INITIAL, done, service) == Ok(st)
    ensures r == Process(INITIAL, done + items, service)
  {
    var cur := st;
    assert done + items[..0] == done;
    for j := 0 to |items|
      invariant Process(INITIAL, done + items[..j], service) == Ok(cur)
    {
      ProcessNext(INITIAL, done, items, j, service);
      var next := DescribeDataset(cur, items[j], service);
      if next.Err? {
        assert done + items[..j + 1] <= done + items;
        ProcessFailPrefix(INITIAL, done + items[..j + 1], done + items, service);
        return next;
      }
      cur := next.value;
    }
    assert items[..|items|] == items;
    return Ok(cur);
  }

  lemma PageFailEnds(pages: seq<Page<DataSetSummary>>, i: nat, service: Service)
    requires Ends(pages, UntilAbsent) && i < Fetched(pages, UntilAbsent)
    requires Process(INITIAL, Items(pages[..i]) + pages[i].items, service).Err?
    ensures Process(INITIAL, Collected(pages, UntilAbsent), service) == Process(INITIAL, Items(pages[..i]) + pages[i].items, service)
  {
    CollectedFrom(pages, UntilAbsent, i);
    ProcessFailPrefix(INITIAL, Items(pages[..i]) + pages[i].items, Collected(pages, UntilAbsent), service);
  }

  /** The `while True` loop over dataset pages. */
  method DatasetLoop(pages: seq<Page<DataSetSummary>>, service: Service) returns (r: Result<Tables, Raise>, sent: seq<Option<string>>)
    requires Ends(pages, UntilAbsent)
    ensures r == Process(INITIAL, Collected(pages, UntilAbsent), service)
    ensures r.Ok? ==> |sent| == Fetched(pages, UntilAbsent) && sent[0] == None
    ensures r.Ok? ==> forall i :: 1 <= i < |sent| ==> sent[i] == Requested(pages[i - 1].nextToken)
  {
    var n := Fetched(pages, UntilAbsent);
    var st := INITIAL;
    sent := [];
    var nextToken: Option<string> := None;
    var i := 0;
    var more := true;
    while more
      invariant 0 <= i <= n
      invariant more ==> i < n
      invariant !more ==> i == n
      invariant Process(INITIAL, Items(pages[..i]), service) == Ok(st)
      invariant |sent| == i && (i > 0 ==> sent[0] == None)
      invariant forall k :: 1 <= k < i ==> sent[k] == Requested(pages[k - 1].nextToken)
      invariant i == 0 ==> nextToken == None
      invariant i > 0 ==> nextToken == pages[i - 1].nextToken
      decreases n - i
    {
      SentNext(sent, pages, i, nextToken);
      sent := sent + [Requested(nextToken)];
      var page := pages[i];
      ghost var done := Items(pages[..i]);
      ItemsNext(pages, i);
      var next := DescribePage(st, done, page.items, service);
      if next.Err? {
        PageFailEnds(pages, i, service);
        return next, sent;
      }
      st := next.value;
      nextToken := page.nextToken;
      i := i + 1;
      more := nextToken.Some?;
    }
    return Ok(st), sent;
  }

  // ---- the script ----

  /** The three objects the script uploads; only the property file has a
      header line. */
  datatype Outputs = Outputs(info: CsvObject, dictionary: CsvObject, properties: CsvObject)

  function Uploaded(outputPath: string, info: seq<seq<string>>, t: Tables): Outputs {
    var bucket, prefix := Bucket(outputPath), Prefix(outputPath);
    Outputs(CsvObject(bucket, prefix + INFO_SUFFIX, [], info),
            CsvObject(bucket, prefix + DICTIONARY_SUFFIX, [], t.dictionary),
            CsvObject(bucket, prefix + PROPERTIES_SUFFIX, HEADER, t.properties))
  }

  /** `__main__`: check the bucket (`404` exits with status 1, any other
      error is raised), write the lineage, then the dataset tables. */
  method RunJob(region: string, outputPath: string, bucketProbe: Option<string>, dashboardPages: seq<Page<DashboardSummary>>,
                dataSetPages: seq<Page<DataSetSummary>>, service: Service) returns (r: Result<Outputs, Raise>)
    requires Ends(dashboardPages, UntilAbsent) && Ends(dataSetPages, UntilAbsent)
    ensures bucketProbe == Some(BUCKET_MISSING) ==> r == Err(Exit(1))
    ensures bucketProbe.Some? && bucketProbe.value != BUCKET_MISSING ==> r == Err(ClientError(bucketProbe.value))
    ensures bucketProbe.None? ==>
      var info := Lineage(region, Collected(dashboardPages, UntilAbsent), service);
      var t := Process(INITIAL, Collected(dataSetPages, UntilAbsent), service);
      (r.Ok? <==> info.Ok? && t.Ok?) &&
      (info.Err? ==> r == Err(info.error)) &&
      (info.Ok? && t.Err? ==> r == Err(t.error)) &&
      (r.Ok? ==> r.value == Uploaded(outputPath, info.value, t.value))
  {
    if bucketProbe.Some? {
      if bucketProbe.value == BUCKET_MISSING {
        return Err(Exit(1));
      }
      return Err(ClientError(bucketProbe.value));
    }
    var dashboards, _ := ListAll(dashboardPages);
    var info := LineageLoop(region, dashboards, service);
    if info.Err? {
      return Err(info.error);
    }
    var t, _ := DatasetLoop(dataSetPages, service);
    if t.Err? {
      return Err(t.error);
    }
    return Ok(Uploaded(outputPath, info.value, t.value));
  }

  // ---- properties of the dataset tables ----

  /** Rows are only ever appended, and every property row has one cell per
      header column and every dictionary row five. */
  lemma StepShape(st: Tables, s: DataSetSummary, service: Service)
    requires Wide(st.properties, |HEADER|) && Wide(st.dictionary, 5)
    ensures Step(st, s, service).Ok? ==>
      var t := Step(st, s, service).value;
      st.properties <= t.properties && st.dictionary <= t.dictionary && |t.properties| <= |st.properties| + 1 &&
      Wide(t.properties, |HEADER|) && Wide(t.dictionary, 5)
  {
    var region := Region(s.arn);
    if region.Ok? {
      var described := Lookup(service.dataSets, s.dataSetId);
      if described.Ok? {
        var rows := DictionaryRows(s, described.value.outputColumns);
        WideAppend(st.dictionary, rows, 5);
        var listed := Lookup(service.ingestions, s.dataSetId);
        if s.importMode == SPICE && listed.Ok? && listed.value != [] {
          var ing := listed.value[0];
          var row := SpiceRow(region.value, s, SpiceAfter(st.spice, described.value.consumedSpiceCapacityInBytes, ing), ing);
          if row.Ok? && row.value.Some? {
            WideAppend(st.properties, [row.value.value], |HEADER|);
          }
        } else if s.importMode == DIRECT_QUERY {
          WideAppend(st.properties, [DirectQueryRow(region.value, s)], |HEADER|);
        }
      }
    }
  }

  lemma {:induction false} ProcessShape(st: Tables, ds: seq<DataSetSummary>, service: Service)
    requires Wide(st.properties, |HEADER|) && Wide(st.dictionary, 5)
    ensures Process(st, ds, service).Ok? ==>
      var t := Process(st, ds, service).value;
      st.properties <= t.properties && st.dictionary <= t.dictionary && |t.properties| <= |st.properties| + |ds| &&
      Wide(t.properties, |HEADER|) && Wide(t.dictionary, 5)
  {
    if ds != [] {
      ProcessShape(st, ds[..|ds| - 1], service);
      if Process(st, ds[..|ds| - 1], service).Ok? {
        StepShape(Process(st, ds[..|ds| - 1], service).value, ds[|ds| - 1], service);
      }
    }
  }

  /** A SPICE dataset without ingestions writes its dictionary rows and no
      property row. */
  lemma NoIngestionsNoRow(st: Tables, s: DataSetSummary, service: Service, details: DataSetDetails)
    requires Region(s.arn).Ok? && s.importMode == SPICE
    requires Lookup(service.dataSets, s.dataSetId) == Ok(details) && Lookup(service.ingestions, s.dataSetId) == Ok([])
    ensures Step(st, s, service) == Ok(st.(dictionary := st.dictionary + DictionaryRows(s, details.outputColumns)))
  {
  }

  /** A refresh status outside the six handled ones writes no property row
      and reads no capacity. */
  lemma UnhandledStatusNoRow(region: string, s: DataSetSummary, spice: Spice, ing: Ingestion)
    requires !Handled(ing.status)
    ensures SpiceRow(region, s, spice, ing) == Ok(None)
  {
  }

  /** A handled status writes a row once the capacity is assigned; a
      completed refresh fills in `0` for missing counts and time, a failed
      one its shortened message. */
  lemma HandledStatusRow(region: string, s: DataSetSummary, spice: Spice, ing: Ingestion)
    requires Handled(ing.status) && spice.capacity.Some? && spice.isFile.Some?
    requires ing.status == FAILED ==> ing.errorInfo.Some? && ing.errorInfo.value.errorType.Some?
    ensures SpiceRow(region, s, spice, ing).Ok? && SpiceRow(region, s, spice, ing).value.Some?
    ensures var row := SpiceRow(region, s, spice, ing).value.value;
      row[5] == spice.capacity.value && row[12] == ing.status && row[15] == spice.isFile.value &&
      (ing.status == COMPLETED && ing.rowInfo.None? ==> row[6] == "0" && row[7] == "0") &&
      (ing.status == COMPLETED && ing.ingestionTimeInSeconds.None? ==> row[9] == "0") &&
      (ing.status == FAILED ==> row[13] == ing.errorInfo.value.errorType.value &&
                                row[14] == ErrorMessage(ing.errorInfo.value.message.GetOr(""))) &&
      (ing.status != FAILED ==> row[13] == NO_ERROR_TYPE && row[14] == NO_ERROR_MESSAGE)
  {
  }

  /** A DIRECT_QUERY dataset reports no capacity in use and no error. */
  lemma DirectQueryRowCells(st: Tables, s: DataSetSummary, service: Service, region: string)
    requires Region(s.arn) == Ok(region) && s.importMode == DIRECT_QUERY && Lookup(service.dataSets, s.dataSetId).Ok?
    ensures Step(st, s, service).Ok?
    ensures var t := Step(st, s, service).value;
      t.properties == st.properties + [DirectQueryRow(region, s)] && |DirectQueryRow(region, s)| == |HEADER| &&
      DirectQueryRow(region, s)[5] == "0" && DirectQueryRow(region, s)[13] == NO_ERROR_TYPE && t.spice == st.spice
  {
  }

  /** A dataset whose describe or ingestion listing raises a `ClientError`
      is passed over: what it wrote before stays, nothing else is added. */
  lemma ClientErrorSkips(st: Tables, s: DataSetSummary, service: Service, code: string)
    requires Region(s.arn).Ok? && Lookup(service.dataSets, s.dataSetId) == Err(ClientError(code))
    ensures Step(st, s, service) == Ok(st)
  {
  }

  /** A SPICE dataset whose capacity cannot be found and whose refresh is
      not failed keeps the capacity and file flag of the dataset before. */
  lemma StaleCapacity(st: Tables, s: DataSetSummary, service: Service, details: DataSetDetails, ing: Ingestion, rest: seq<Ingestion>)
    requires Region(s.arn).Ok? && s.importMode == SPICE
    requires Lookup(service.dataSets, s.dataSetId) == Ok(details) && details.consumedSpiceCapacityInBytes.None?
    requires Lookup(service.ingestions, s.dataSetId) == Ok([ing] + rest) && ing.sizeInBytes.None? && ing.status != FAILED
    requires Step(st, s, service).Ok?
    ensures Step(st, s, service).value.spice == st.spice
  {
  }

  /** The three keys sit under the output path's prefix in its bucket. */
  lemma UploadedKeys(outputPath: string, info: seq<seq<string>>, t: Tables)
    ensures var o := Uploaded(outputPath, info, t);
      o.info.bucket == Bucket(outputPath) && o.dictionary.bucket == Bucket(outputPath) && o.properties.bucket == Bucket(outputPath) &&
      !Contains(o.info.bucket, "/") &&
      o.info.key == Prefix(outputPath) + INFO_SUFFIX && o.dictionary.key == Prefix(outputPath) + DICTIONARY_SUFFIX &&
      o.properties.key == Prefix(outputPath) + PROPERTIES_SUFFIX &&
      o.properties.header == HEADER && |HEADER| == 16 && o.info.rows == info && o.properties.rows == t.properties
  {
  }
}
