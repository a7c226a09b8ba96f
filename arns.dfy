/** ARN and session helpers shared by the executor functions (`shared/utils.py`). */
module Arns {
  import opened Wrappers
  import opened Strings

  const SESSION_NAME: string := "quicksight-lambda"
  const DEFAULT_REGION: string := "us-east-1"
  const DEFAULT_NAMESPACE: string := "default"

  /** `arn.split(":")[3]`, the region field of an ARN, as the Glue scripts
      read it; an ARN with fewer than four fields raises `indexError`. */
  function ArnRegion<E>(arn: string, indexError: E): (r: Result<string, E>)
    ensures r.Ok? <==> |Split(arn, ":")| >= 4
    ensures r.Ok? ==> r.value == Split(arn, ":")[3]
    ensures r.Err? ==> r.error == indexError
  {
    var fields := Split(arn, ":");
    if |fields| >= 4 then Ok(fields[3]) else Err(indexError)
  }

  /** The role `assume_role` asks STS for. */
  function RoleArn(accountId: string, roleName: string): string {
    "arn:aws:iam::" + accountId + ":role/" + roleName
  }

  /** `get_user_arn`: the account root, or a QuickSight user in a namespace. */
  function UserArn(username: string, accountId: string, region: string, namespace: string): string {
    if username == "root" then "arn:aws:iam::" + accountId + ":root"
    else "arn:aws:quicksight:" + region + ":" + accountId + ":user/" + namespace + "/" + username
  }

  /** A role ARN reads back as its six colon-separated fields. */
  lemma RoleArnFields(accountId: string, roleName: string)
    requires ':' !in accountId && ':' !in roleName
    ensures Split(RoleArn(accountId, roleName), ":") == ["arn", "aws", "iam", "", accountId, "role/" + roleName]
  {
    var fields := ["arn", "aws", "iam", "", accountId, "role/" + roleName];
    assert ':' !in "role/" + roleName;
    JoinSix("arn", "aws", "iam", "", accountId, "role/" + roleName, ":");
    assert RoleArn(accountId, roleName) == "arn" + ":" + ("aws" + ":" + ("iam" + ":" + ("" + ":" + (accountId + ":" + ("role/" + roleName)))));
    SplitJoinChar(fields, ':');
  }

  /** A user ARN reads back as its six colon-separated fields. */
  lemma UserArnFields(username: string, accountId: string, region: string, namespace: string)
    requires username != "root"
    requires ':' !in username && ':' !in accountId && ':' !in region && ':' !in namespace
    ensures Split(UserArn(username, accountId, region, namespace), ":")
         == ["arn", "aws", "quicksight", region, accountId, "user/" + namespace + "/" + username]
  {
    var tail := "user/" + namespace + "/" + username;
    var fields := ["arn", "aws", "quicksight", region, accountId, tail];
    assert ':' !in tail;
    assert UserArn(username, accountId, region, namespace) == Join(fields, ":") by {
      JoinSix("arn", "aws", "quicksight", region, accountId, tail, ":");
      UserArnShape(username, accountId, region, namespace);
    }
    assert forall k :: 0 <= k < |fields| ==> ':' !in fields[k] by {
      forall k | 0 <= k < |fields| ensures ':' !in fields[k] {
        if k == 5 { assert fields[k] == tail; }
      }
    }
    SplitJoinChar(fields, ':');
  }

  lemma UserArnShape(username: string, accountId: string, region: string, namespace: string)
    requires username != "root"
    ensures UserArn(username, accountId, region, namespace)
         == "arn" + ":" + ("aws" + ":" + ("quicksight" + ":" + (region + ":" + (accountId + ":" + ("user/" + namespace + "/" + username)))))
  {
    var y := region + ":" + (accountId + ":" + ("user/" + namespace + "/" + username));
    UserArnTail(username, accountId, region, namespace);
    QuickSightPrefix(y);
  }

  lemma UserArnTail(username: string, accountId: string, region: string, namespace: string)
    ensures "arn:aws:quicksight:" + region + ":" + accountId + ":user/" + namespace + "/" + username
         == "arn:aws:quicksight:" + (region + ":" + (accountId + ":" + ("user/" + namespace + "/" + username)))
  {
  }

  lemma QuickSightPrefix(y: string)
    ensures "arn:aws:quicksight:" + y == "arn" + ":" + ("aws" + ":" + ("quicksight" + ":" + y))
  {
  }

  /** The last slash-separated part of a user ARN is the user name. */
  lemma UserArnName(username: string, accountId: string, region: string, namespace: string)
    requires username != "root" && '/' !in username
    ensures Last(Split(UserArn(username, accountId, region, namespace), "/")) == username
  {
    var head := "arn:aws:quicksight:" + region + ":" + accountId + ":user/" + namespace;
    assert UserArn(username, accountId, region, namespace) == head + "/" + username;
    LastOfSplitAfter(head, '/', username);
  }
}
