/** What the Lambda handlers share: the exceptions they catch, dictionary
    lookups that may raise, and the reply shape API Gateway expects. */
module Http {
  import opened Wrappers

  /** An exception caught by a handler's `except Exception` clause. */
  datatype Fault =
    | MissingKey(key: string)   // KeyError from `d[key]`
    | MalformedJson             // `json.loads` on text that is not a JSON object
    | Raised(message: string)   // an error raised by a remote service call

  /** A flat event or request body: string keys to string values. */
  type Event = map<string, string>

  /** `{'statusCode': ..., 'headers': {'Content-Type': 'application/json'}?, 'body': json.dumps(...)}`. */
  datatype Reply<B> = Reply(statusCode: int, jsonHeader: bool, body: B)

  /** Python's `d[key]`. */
  function Get<V>(m: map<string, V>, key: string): (r: Result<V, Fault>)
    ensures r.Ok? <==> key in m
    ensures r.Ok? ==> r.value == m[key]
    ensures r.Err? ==> r.error == MissingKey(key)
  {
    if key in m then Ok(m[key]) else Err(MissingKey(key))
  }

  /** Python's `d.get(key)`. */
  function Lookup<V>(m: map<string, V>, key: string): (r: Option<V>)
    ensures r.Some? <==> key in m
    ensures r.Some? ==> r.value == m[key]
  {
    if key in m then Some(m[key]) else None
  }

  /** Python's `d.get(key, default)`. */
  function GetOr<V>(m: map<string, V>, key: string, default: V): V {
    Lookup(m, key).GetOr(default)
  }

  /** `json.loads` of a text, where `None` is text that is not a JSON object. */
  type Parser = string -> Option<map<string, string>>

  /** `json.loads(text)` used as a dictionary, or the error that raises. */
  function ParseJson(parse: Parser, text: string): (r: Result<map<string, string>, Fault>)
    ensures r.Ok? <==> parse(text).Some?
    ensures r.Ok? ==> r.value == parse(text).value
    ensures r.Err? ==> r.error == MalformedJson
  {
    match parse(text)
    case None => Err(MalformedJson)
    case Some(m) => Ok(m)
  }

  /** The first key of `keys` missing from `m`. */
  function FirstMissing<V>(m: map<string, V>, keys: seq<string>): (r: Option<string>)
    ensures r.None? <==> forall k :: 0 <= k < |keys| ==> keys[k] in m
    ensures r.Some? ==> r.value !in m && exists i :: 0 <= i < |keys| && keys[i] == r.value
                                                   && forall j :: 0 <= j < i ==> keys[j] in m
  {
    if keys == [] then None
    else if keys[0] !in m then Some(keys[0])
    else match FirstMissing(m, keys[1..])
      case None => None
      case Some(k) =>
        var i :| 0 <= i < |keys[1..]| && keys[1..][i] == k && forall j :: 0 <= j < i ==> keys[1..][j] in m;
        assert keys[i + 1] == k;
        Some(k)
  }

  /** `m[k]` for each key in turn, failing on the first one missing. */
  function ReadAll(m: map<string, string>, keys: seq<string>): (r: Result<seq<string>, Fault>)
    ensures r.Ok? ==> |r.value| == |keys| && forall i :: 0 <= i < |keys| ==> keys[i] in m && r.value[i] == m[keys[i]]
  {
    if keys == [] then Ok([])
    else
      var v :- Get(m, keys[0]);
      var rest :- ReadAll(m, keys[1..]);
      Ok([v] + rest)
  }

  /** Reading keys in turn fails exactly when one is missing, and then on the
      first missing one. */
  lemma {:induction false} ReadAllFails(m: map<string, string>, keys: seq<string>)
    ensures ReadAll(m, keys).Err? <==> FirstMissing(m, keys).Some?
    ensures ReadAll(m, keys).Err? ==> ReadAll(m, keys).error == MissingKey(FirstMissing(m, keys).value)
  {
    if keys != [] && keys[0] in m {
      ReadAllFails(m, keys[1..]);
    }
  }
}
