/** The page loops of the collectors: follow `NextToken`, but never beyond one hundred pages. */
module AwsPages {
  import opened Wrappers

  const MAX_AWS_PAGES: nat := 100

  datatype Page<T> = Page(items: seq<T>, nextToken: Option<string>)

  /** A provider answers every token, and the first request, with a page. */
  type Client<T> = Option<string> -> Page<T>

  /** An absent and an empty token both end the listing. */
  predicate More(token: Option<string>) {
    token.Some? && token.value != ""
  }

  /** The pages the provider would deliver, as a list that follows its tokens to the end. */
  predicate Listing<T(==)>(client: Client<T>, from: Option<string>, pages: seq<Page<T>>)
    decreases |pages|
  {
    && pages != [] && pages[0] == client(from)
    && if More(pages[0].nextToken) then Listing(client, pages[0].nextToken, pages[1..]) else |pages| == 1
  }

  function ItemsOf<T>(pages: seq<Page<T>>): seq<T> {
    if pages == [] then [] else pages[0].items + ItemsOf(pages[1..])
  }

  /** What the loop returns when it may still fetch `left` pages. */
  function Collected<T>(client: Client<T>, from: Option<string>, left: nat): Result<seq<T>, string>
    decreases left
  {
    if left == 0 then Err("PageLimitExceeded")
    else
      var page := client(from);
      if !More(page.nextToken) then Ok(page.items)
      else
        match Collected(client, page.nextToken, left - 1)
        case Ok(rest) => Ok(page.items + rest)
        case Err(e) => Err(e)
  }

  /** A collector's loop. */
  method Collect<T>(client: Client<T>) returns (r: Result<seq<T>, string>)
    ensures r == Collected(client, None, MAX_AWS_PAGES)
  {
    var items: seq<T>, token: Option<string> := [], None;
    PrefixedByNothing(Collected(client, None, MAX_AWS_PAGES));
    for page := 0 to MAX_AWS_PAGES
      invariant Collected(client, None, MAX_AWS_PAGES)
          == Prefixed(items, Collected(client, token, MAX_AWS_PAGES - page))
    {
      var response := client(token);
      ghost var before := items;
      items := items + response.items;
      token := response.nextToken;
      if !More(token) { return Ok(items); }
      PrefixedTwice(before, response.items, Collected(client, token, MAX_AWS_PAGES - page - 1));
    }
    return Err("PageLimitExceeded");
  }

  function Prefixed<T>(items: seq<T>, r: Result<seq<T>, string>): Result<seq<T>, string> {
    match r
    case Ok(rest) => Ok(items + rest)
    case Err(e) => Err(e)
  }

  lemma PrefixedByNothing<T>(r: Result<seq<T>, string>)
    ensures Prefixed([], r) == r
  {
    if r.Ok? { assert [] + r.value == r.value; }
  }

  lemma PrefixedTwice<T>(a: seq<T>, b: seq<T>, r: Result<seq<T>, string>)
    ensures Prefixed(a, Prefixed(b, r)) == Prefixed(a + b, r)
  {
    if r.Ok? { assert a + (b + r.value) == a + b + r.value; }
  }

  /** A listing is collected whole if it has at most `left` pages, and not at all otherwise. */
  lemma {:induction false} CollectedIffWithinLimit<T>(client: Client<T>, from: Option<string>, pages: seq<Page<T>>,
    left: nat)
    requires Listing(client, from, pages)
    ensures Collected(client, from, left) == if |pages| <= left then Ok(ItemsOf(pages)) else Err("PageLimitExceeded")
    decreases |pages|
  {
    if left > 0 {
      if More(pages[0].nextToken) {
        CollectedIffWithinLimit(client, pages[0].nextToken, pages[1..], left - 1);
      } else {
        assert pages[0].items + ItemsOf(pages[1..]) == pages[0].items;
      }
    }
  }

  /** The loop's result is an error exactly when the provider does not end its listing within the limit. */
  lemma {:induction false} EndsWithinLimit<T>(client: Client<T>, from: Option<string>, left: nat)
    ensures Collected(client, from, left).Ok? <==> exists pages :: Listing(client, from, pages) && |pages| <= left
    decreases left
  {
    forall pages | Listing(client, from, pages) && |pages| <= left ensures Collected(client, from, left).Ok? {
      CollectedIffWithinLimit(client, from, pages, left);
    }
    if Collected(client, from, left).Ok? {
      var page := client(from);
      if More(page.nextToken) {
        EndsWithinLimit(client, page.nextToken, left - 1);
        var rest :| Listing(client, page.nextToken, rest) && |rest| <= left - 1;
        assert ([page] + rest)[1..] == rest;
        assert Listing(client, from, [page] + rest);
      } else {
        assert Listing(client, from, [page]);
      }
    }
  }
}
