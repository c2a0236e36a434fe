/** `tasks/list` pages (a2x/task-store.ts, `listTasks` and `decodePageToken`). */
module Paging {
  import opened Options
  import opened Decimal
  import opened OrderedMaps

  const MAX_SAFE_INTEGER: nat := 0x1F_FFFF_FFFF_FFFF

  /** The longest array a JavaScript engine can hold. */
  const MAX_LENGTH: nat := 0xFFFF_FFFF

  datatype Query = Query(pageSize: Option<int>, pageToken: Option<string>)

  datatype Page<T> = Page(tasks: seq<T>, nextPageToken: string, pageSize: nat, totalSize: nat)

  function PageSize(requested: Option<int>): (size: nat)
    ensures 1 <= size <= 100
  {
    var size := if requested.None? then 50 else requested.value;
    if size < 1 then 1 else if size > 100 then 100 else size
  }

  /** An absent, malformed or unsafe token starts over. */
  function DecodePageToken(token: Option<string>): nat {
    if token.None? || !IsNumeral(token.value) then 0
    else if Val(token.value) <= MAX_SAFE_INTEGER then Val(token.value) else 0
  }

  function Min(a: nat, b: nat): nat {
    if a < b then a else b
  }

  function PageOf<T>(found: seq<T>, query: Query): Page<T> {
    var size := PageSize(query.pageSize);
    var offset := DecodePageToken(query.pageToken);
    var start := Min(offset, |found|);
    var page := found[start..Min(start + size, |found|)];
    var next := offset + |page|;
    Page(page, if next < |found| then Dec(next) else "", size, |found|)
  }

  function Values<V>(m: OrderedMap<V>): seq<V> {
    seq(|m|, i requires 0 <= i < |m| => m[i].1)
  }

  function Matching<T>(all: seq<T>, matches: T -> bool): seq<T> {
    if all == [] then []
    else Matching(all[..|all| - 1], matches) + (if matches(all[|all| - 1]) then [all[|all| - 1]] else [])
  }

  method Filter<T>(all: seq<T>, matches: T -> bool) returns (found: seq<T>)
    ensures found == Matching(all, matches)
  {
    found := [];
    for i := 0 to |all|
      invariant found == Matching(all[..i], matches)
    {
      assert all[..i + 1][..i] == all[..i];
      if matches(all[i]) {
        found := found + [all[i]];
      }
    }
    assert all[..|all|] == all;
  }

  /** A client following the tokens from `token` on: the pages it reads, one after another. */
  function Followed<T>(found: seq<T>, pageSize: Option<int>, token: Option<string>): seq<seq<T>>
    requires |found| <= MAX_LENGTH
    decreases |found| - Min(DecodePageToken(token), |found|), 1
  {
    var page := PageOf(found, Query(pageSize, token));
    [page.tasks] +
    (if page.nextPageToken == "" then []
     else
       NextTokenAdvances(found, pageSize, token);
       Followed(found, pageSize, Some(page.nextPageToken)))
  }

  lemma NextTokenAdvances<T>(found: seq<T>, pageSize: Option<int>, token: Option<string>)
    requires |found| <= MAX_LENGTH
    requires PageOf(found, Query(pageSize, token)).nextPageToken != ""
    ensures var page := PageOf(found, Query(pageSize, token));
            && DecodePageToken(Some(page.nextPageToken)) == DecodePageToken(token) + |page.tasks| < |found|
            && page.tasks != []
  {
    var page := PageOf(found, Query(pageSize, token));
    ValDec(DecodePageToken(token) + |page.tasks|);
  }

  /** Every page says how many tasks match in all and how many it may hold: what was asked
      for within 1 and 100, and 50 when nothing was. Only the last one holds fewer. */
  lemma PageCounts<T>(found: seq<T>, query: Query)
    requires |found| <= MAX_LENGTH
    ensures var page := PageOf(found, query);
            && page.totalSize == |found|
            && (query.pageSize.None? ==> page.pageSize == 50)
            && (query.pageSize.Some? && 1 <= query.pageSize.value <= 100 ==> page.pageSize == query.pageSize.value)
            && (query.pageSize.Some? && query.pageSize.value < 1 ==> page.pageSize == 1)
            && (query.pageSize.Some? && query.pageSize.value > 100 ==> page.pageSize == 100)
            && |page.tasks| <= page.pageSize
            && (page.nextPageToken != "" ==> |page.tasks| == page.pageSize)
            && (|page.tasks| == page.pageSize && page.nextPageToken == "" ==>
                  DecodePageToken(query.pageToken) + |page.tasks| >= |found|)
  {
    var page := PageOf(found, query);
    ValDec(DecodePageToken(query.pageToken) + |page.tasks|);
  }

  /** A numeral token starts the page at its number; any other, and one beyond the safe
      integers, starts over. */
  lemma TokenStarts<T>(found: seq<T>, pageSize: Option<int>, token: string)
    requires |found| <= MAX_LENGTH
    ensures var page := PageOf(found, Query(pageSize, Some(token))).tasks;
            if IsNumeral(token) && Val(token) <= 0x1F_FFFF_FFFF_FFFF
            then page <= found[if Val(token) < |found| then Val(token) else |found|..]
            else page == PageOf(found, Query(pageSize, None)).tasks && page <= found
  {
  }

  function Flatten<T>(pages: seq<seq<T>>): seq<T> {
    if pages == [] then [] else pages[0] + Flatten(pages[1..])
  }

  /** Following the tokens stops, and reads every matching task exactly once, in order. */
  lemma {:induction false} PagesCoverOnce<T>(found: seq<T>, pageSize: Option<int>, token: Option<string>)
    requires |found| <= MAX_LENGTH
    ensures Flatten(Followed(found, pageSize, token)) == found[Min(DecodePageToken(token), |found|)..]
    ensures |Followed(found, pageSize, token)| <= 1 + (|found| - Min(DecodePageToken(token), |found|))
    decreases |found| - Min(DecodePageToken(token), |found|)
  {
    var page := PageOf(found, Query(pageSize, token));
    var start := Min(DecodePageToken(token), |found|);
    var pages := Followed(found, pageSize, token);
    if page.nextPageToken != "" {
      NextTokenAdvances(found, pageSize, token);
      PagesCoverOnce(found, pageSize, Some(page.nextPageToken));
      MiddlePage(found, Query(pageSize, token));
    }
    assert Flatten(pages) == page.tasks + Flatten(pages[1..]);
  }

  lemma MiddlePage<T>(found: seq<T>, query: Query)
    requires PageOf(found, query).nextPageToken != ""
    ensures var start := DecodePageToken(query.pageToken);
            var next := start + |PageOf(found, query).tasks|;
            next <= |found| && found[start..] == PageOf(found, query).tasks + found[next..]
  {
  }
}
