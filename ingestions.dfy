/** What the two dataset Glue scripts share about SPICE refreshes: the
    latest ingestion's record, the failed-refresh message they write, and
    the module-level capacity variables their dataset loops assign. */
module Ingestions {
  import opened Wrappers
  import opened Strings

  const COMPLETED: string := "COMPLETED"
  const FAILED: string := "FAILED"
  /** The statuses that give a row without counts or error details. */
  const IN_PROGRESS: seq<string> := ["INITIALIZED", "QUEUED", "RUNNING", "CANCELLED"]

  const NO_ERROR_TYPE: string := "NoErrorInfoType"
  const NO_ERROR_MESSAGE: string := "NoErrorInfoMessage"
  const SEE_SUMMARY: string := "Please refer dataset refresh summary for complete error"

  /** Messages up to this length keep their beginning. */
  const MESSAGE_LIMIT: nat := 100
  /** How much of such a message is kept. */
  const MESSAGE_KEPT: nat := 50

  const SPICE: string := "SPICE"
  const DIRECT_QUERY: string := "DIRECT_QUERY"

  datatype RowInfo = RowInfo(rowsDropped: Option<string>, rowsIngested: Option<string>)

  datatype ErrorInfo = ErrorInfo(errorType: Option<string>, message: Option<string>)

  /** `list_ingestions(...)['Ingestions'][0]`; numbers are kept as the text
      the CSV writer gives them, and every optional key is an `Option`. */
  datatype Ingestion = Ingestion(status: string, requestSource: string, requestType: string, createdTime: string,
                                 sizeInBytes: Option<string>, rowInfo: Option<RowInfo>,
                                 ingestionTimeInSeconds: Option<string>, errorInfo: Option<ErrorInfo>)

  /** A status the scripts write a row for. */
  predicate Handled(status: string) {
    status == COMPLETED || status == FAILED || status in IN_PROGRESS
  }

  /** The failed-refresh message: a message of at most 100 characters keeps
      its first 50 and a dash before the fixed advice; a longer one is
      replaced by the advice alone. */
  function ErrorMessage(m: string): (r: string)
    ensures |r| >= |SEE_SUMMARY| && r[|r| - |SEE_SUMMARY|..] == SEE_SUMMARY
    ensures |r| <= MESSAGE_KEPT + 1 + |SEE_SUMMARY|
    ensures |m| <= MESSAGE_LIMIT ==> r[..|r| - |SEE_SUMMARY|] == Take(m, MESSAGE_KEPT) + "-"
    ensures |m| > MESSAGE_LIMIT ==> r == SEE_SUMMARY
  {
    if |m| <= MESSAGE_LIMIT then
      var r := Take(m, MESSAGE_KEPT) + "-" + SEE_SUMMARY;
      assert r[|r| - |SEE_SUMMARY|..] == SEE_SUMMARY;
      assert r[..|r| - |SEE_SUMMARY|] == Take(m, MESSAGE_KEPT) + "-";
      r
    else SEE_SUMMARY
  }

  /** A message of at most 50 characters survives whole; one of 51 to 100
      characters loses everything after its 50th; longer ones all read the
      same. */
  lemma ErrorMessageKeeps(m: string, other: string)
    ensures |m| <= MESSAGE_KEPT ==> ErrorMessage(m) == m + "-" + SEE_SUMMARY
    ensures MESSAGE_KEPT < |m| <= MESSAGE_LIMIT ==> ErrorMessage(m) == m[..MESSAGE_KEPT] + "-" + SEE_SUMMARY
    ensures |m| > MESSAGE_LIMIT && |other| > MESSAGE_LIMIT ==> ErrorMessage(m) == ErrorMessage(other)
  {
  }

  /** The module-level `ConsumedSpiceCapacityInBytes` and `Type`: `None`
      until the first assignment. The loop never resets them, so a dataset
      that assigns neither reuses the previous dataset's values. */
  datatype Spice = Spice(capacity: Option<string>, isFile: Option<string>)

  const UNASSIGNED: Spice := Spice(None, None)

  /** The two variables are assigned together. */
  predicate Paired(s: Spice) {
    s.capacity.Some? <==> s.isFile.Some?
  }

  /** The capacity lookup: the dataset's own `ConsumedSpiceCapacityInBytes`
      if `describe_data_set` gave one (`N`, not a file), else the ingestion's
      size (`Y`), else `'0'` (`Y`) for a failed refresh, else nothing is
      assigned. */
  function SpiceAfter(before: Spice, described: Option<string>, ingestion: Ingestion): Spice {
    if described.Some? then Spice(described, Some("N"))
    else if ingestion.sizeInBytes.Some? then Spice(ingestion.sizeInBytes, Some("Y"))
    else if ingestion.status == FAILED then Spice(Some("0"), Some("Y"))
    else before
  }

  /** After a failed refresh both variables are always assigned. */
  lemma FailedAssigns(before: Spice, described: Option<string>, ingestion: Ingestion)
    requires ingestion.status == FAILED
    ensures SpiceAfter(before, described, ingestion).capacity.Some? && SpiceAfter(before, described, ingestion).isFile.Some?
  {
  }

  /** A lookup that finds a capacity forgets whatever came before; one that
      finds none for a refresh that is not failed keeps it unchanged. */
  lemma FoundForgets(a: Spice, b: Spice, described: Option<string>, ingestion: Ingestion)
    ensures described.Some? || ingestion.sizeInBytes.Some? ==> SpiceAfter(a, described, ingestion) == SpiceAfter(b, described, ingestion)
    ensures described.None? && ingestion.sizeInBytes.None? && ingestion.status != FAILED ==> SpiceAfter(a, described, ingestion) == a
    ensures Paired(a) ==> Paired(SpiceAfter(a, described, ingestion))
  {
  }
}
