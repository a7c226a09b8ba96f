/** The `NextToken` loops of the Glue scripts. The service's answers are an
    input: `pages[i]` is the page answering the `i`-th request. The loops
    differ only in when they stop and in what token their next request
    carries, so those two are spelled out per loop. */
module Paging {
  import opened Wrappers

  datatype Page<T> = Page(items: seq<T>, nextToken: Option<string>)

  /** When a loop treats the token as the end of the listing. */
  datatype Rule =
    | UntilFalsy   // `if not next_token: break`: no token, or an empty one
    | UntilAbsent  // `while next_token is not None`: no token only

  predicate IsLast(rule: Rule, token: Option<string>) {
    token.None? || (rule.UntilFalsy? && token.value == "")
  }

  /** Some page ends the listing (otherwise the loop does not end). */
  ghost predicate Ends<T>(pages: seq<Page<T>>, rule: Rule) {
    exists i :: 0 <= i < |pages| && IsLast(rule, pages[i].nextToken)
  }

  /** How many pages the loop reads: up to and including the first last one. */
  function Fetched<T>(pages: seq<Page<T>>, rule: Rule): (n: nat)
    requires Ends(pages, rule)
    ensures 1 <= n <= |pages| && IsLast(rule, pages[n - 1].nextToken)
    ensures forall i :: 0 <= i < n - 1 ==> !IsLast(rule, pages[i].nextToken)
  {
    if IsLast(rule, pages[0].nextToken) then 1
    else
      assert Ends(pages[1..], rule) by {
        var i :| 0 <= i < |pages| && IsLast(rule, pages[i].nextToken);
        assert pages[1..][i - 1] == pages[i];
      }
      1 + Fetched(pages[1..], rule)
  }

  /** The pages' items, one page after another. */
  function Items<T>(pages: seq<Page<T>>): seq<T> {
    if pages == [] then [] else Items(pages[..|pages| - 1]) + pages[|pages| - 1].items
  }

  /** What a loop under `rule` returns. */
  function Collected<T>(pages: seq<Page<T>>, rule: Rule): seq<T>
    requires Ends(pages, rule)
  {
    Items(pages[..Fetched(pages, rule)])
  }

  lemma {:induction false} ItemsAppend<T>(a: seq<Page<T>>, b: seq<Page<T>>)
    ensures Items(a + b) == Items(a) + Items(b)
    decreases |b|
  {
    if b != [] {
      var b' := b[..|b| - 1];
      assert (a + b)[..|a + b| - 1] == a + b';
      assert (a + b)[|a + b| - 1] == b[|b| - 1];
      ItemsAppend(a, b');
      assert Items(a + b) == Items(a) + Items(b') + b[|b| - 1].items;
    } else {
      assert a + b == a;
    }
  }

  /** Every item comes from some page, in page order, and nothing is dropped. */
  lemma {:induction false} ItemsMembers<T>(pages: seq<Page<T>>, x: T)
    ensures x in Items(pages) <==> exists i :: 0 <= i < |pages| && x in pages[i].items
  {
    if pages != [] {
      var init := pages[..|pages| - 1];
      ItemsMembers(init, x);
      if x in Items(pages) && x !in Items(init) {
        assert x in pages[|pages| - 1].items;
      }
      if exists i :: 0 <= i < |pages| && x in pages[i].items {
        var i :| 0 <= i < |pages| && x in pages[i].items;
        if i < |pages| - 1 { assert init[i] == pages[i]; }
      }
    }
  }

  /** The pages read so far, with one more. */
  lemma ItemsNext<T>(pages: seq<Page<T>>, i: nat)
    requires i < |pages|
    ensures Items(pages[..i + 1]) == Items(pages[..i]) + pages[i].items
  {
    assert pages[..i + 1][..i] == pages[..i];
  }

  /** The items of the pages read so far, with the current page's, begin
      the whole listing. */
  lemma CollectedFrom<T>(pages: seq<Page<T>>, rule: Rule, i: nat)
    requires Ends(pages, rule) && i < Fetched(pages, rule)
    ensures Items(pages[..i]) + pages[i].items <= Collected(pages, rule)
  {
    var n := Fetched(pages, rule);
    assert pages[..n] == pages[..i + 1] + pages[i + 1..n];
    ItemsAppend(pages[..i + 1], pages[i + 1..n]);
    ItemsNext(pages, i);
  }

  /** The token a loop guarded by `if next_token:` sends after a page: an
      empty token is left out, so that request asks for the first page
      again. */
  function Requested(token: Option<string>): (r: Option<string>)
    ensures r.Some? <==> !IsLast(UntilFalsy, token)
    ensures r.Some? ==> r == token
  {
    if token.Some? && token.value != "" then token else None
  }

  /** The tokens a `while True` loop sends: none first, then each page's
      token as `Requested` passes it on; sending the `i`-th keeps that so. */
  lemma SentNext<T>(sent: seq<Option<string>>, pages: seq<Page<T>>, i: nat, token: Option<string>)
    requires |sent| == i && i <= |pages| && (i > 0 ==> sent[0] == None)
    requires forall k :: 1 <= k < i ==> sent[k] == Requested(pages[k - 1].nextToken)
    requires i == 0 ==> token == None
    requires i > 0 ==> token == pages[i - 1].nextToken
    ensures var next := sent + [Requested(token)];
      |next| == i + 1 && next[0] == None &&
      forall k :: 1 <= k < i + 1 ==> next[k] == Requested(pages[k - 1].nextToken)
  {
    var next := sent + [Requested(token)];
    forall k | 1 <= k < i + 1
      ensures next[k] == Requested(pages[k - 1].nextToken)
    {
      if k < i { assert next[k] == sent[k]; }
    }
  }

  /** A listing whose first page is the last returns that page's items. */
  lemma SinglePage<T>(pages: seq<Page<T>>, rule: Rule)
    requires |pages| >= 1 && IsLast(rule, pages[0].nextToken)
    ensures Ends(pages, rule) && Collected(pages, rule) == pages[0].items
  {
    assert 0 < |pages| && IsLast(rule, pages[0].nextToken);
    assert Fetched(pages, rule) == 1;
    assert pages[..1] == [pages[0]];
    assert [pages[0]][..0] == [];
    assert Items([pages[0]]) == Items([pages[0]][..0]) + pages[0].items;
  }

  /** An empty token ends a topic listing but not a dataset listing: under
      `UntilAbsent` the loop reads on past it. */
  lemma EmptyTokenReadsOn<T>(first: Page<T>, rest: seq<Page<T>>)
    requires first.nextToken == Some("") && Ends(rest, UntilAbsent)
    ensures Ends([first] + rest, UntilFalsy) && Collected([first] + rest, UntilFalsy) == first.items
    ensures Ends([first] + rest, UntilAbsent) && Collected([first] + rest, UntilAbsent) == first.items + Collected(rest, UntilAbsent)
  {
    var pages := [first] + rest;
    SinglePage(pages, UntilFalsy);
    var i :| 0 <= i < |rest| && IsLast(UntilAbsent, rest[i].nextToken);
    assert pages[i + 1] == rest[i];
    assert pages[1..] == rest;
    var n := Fetched(rest, UntilAbsent);
    assert pages[..n + 1] == [first] + rest[..n];
    ItemsAppend([first], rest[..n]);
    assert [first][..0] == [];
  }
}
