/** The `while True` loops of the export and import functions: describe the
    job, read `JobStatus`, stop at a terminal status. The remote side is the
    sequence of answers the describe calls would give, in order. */
module Polling {
  import opened Wrappers
  import opened Http

  /** One describe call: the response's fields, or the exception it raised. */
  type Observation = Result<map<string, string>, Fault>

  /** The loop leaves at this answer: the call raised, `JobStatus` is absent
      (a KeyError) or the status is terminal. */
  predicate Stops(o: Observation, terminal: set<string>) {
    o.Err? || "JobStatus" !in o.value || o.value["JobStatus"] in terminal
  }

  /** Some answer ends the loop (otherwise the function runs until its time limit). */
  ghost predicate Reaches(obs: seq<Observation>, terminal: set<string>) {
    exists i :: 0 <= i < |obs| && Stops(obs[i], terminal)
  }

  /** The index of the answer the loop leaves at. */
  function FirstStop(obs: seq<Observation>, terminal: set<string>): (i: nat)
    requires Reaches(obs, terminal)
    ensures i < |obs| && Stops(obs[i], terminal)
    ensures forall j :: 0 <= j < i ==> !Stops(obs[j], terminal)
    decreases |obs|
  {
    if Stops(obs[0], terminal) then 0
    else
      assert Reaches(obs[1..], terminal) by {
        var k :| 0 <= k < |obs| && Stops(obs[k], terminal);
        assert obs[1..][k - 1] == obs[k];
      }
      var i := FirstStop(obs[1..], terminal);
      assert forall j :: 1 <= j <= i ==> obs[j] == obs[1..][j - 1];
      1 + i
  }

  /** What the loop hands on: the final describe response, or the exception
      that ended it (KeyError for a response without `JobStatus`). */
  function Final(obs: seq<Observation>, terminal: set<string>): (r: Result<map<string, string>, Fault>)
    requires Reaches(obs, terminal)
    ensures r.Ok? ==> "JobStatus" in r.value && r.value["JobStatus"] in terminal
    ensures r.Ok? <==> obs[FirstStop(obs, terminal)].Ok? && "JobStatus" in obs[FirstStop(obs, terminal)].value
  {
    var o := obs[FirstStop(obs, terminal)];
    if o.Err? then Err(o.error)
    else if "JobStatus" !in o.value then Err(MissingKey("JobStatus"))
    else Ok(o.value)
  }

  /** The loop itself: describe until the answer stops it. */
  method Poll(obs: seq<Observation>, terminal: set<string>) returns (i: nat)
    requires Reaches(obs, terminal)
    ensures i == FirstStop(obs, terminal)
  {
    i := 0;
    while !Stops(obs[i], terminal)
      invariant i <= FirstStop(obs, terminal)
      decreases FirstStop(obs, terminal) - i
    {
      i := i + 1;
    }
  }
}
