/** Paginated list responses: `find(query).skip(skip).limit(limit)` beside
    `countDocuments(query)`, answered as `{ page, limit, total, data }`. */
module Pagination {
  import opened Common

  datatype Page<T> = Page(page: int, limit: int, total: nat, data: seq<T>)

  /** The window of `limit` records starting at offset `skip`. */
  function Slice<T>(s: seq<T>, skip: nat, limit: nat): (r: seq<T>)
    ensures |r| <= limit && |r| <= |s|
    ensures |r| == (if skip >= |s| then 0 else if skip + limit <= |s| then limit else |s| - skip)
    ensures r != [] ==> skip + |r| <= |s|
    ensures forall k :: 0 <= k < |r| ==> r[k] == s[skip + k]
  {
    if skip >= |s| then [] else if skip + limit <= |s| then s[skip..skip + limit] else s[skip..]
  }

  function Abs(n: int): nat {
    if n < 0 then -n else n
  }

  /** `.skip(skip).limit(limit)`: a limit of 0 means no limit, and a negative
      limit returns as many records as its absolute value. */
  function Window<T>(s: seq<T>, skip: nat, limit: int): (r: seq<T>)
    ensures limit != 0 ==> |r| <= Abs(limit)
    ensures |r| == (if skip >= |s| then 0 else if limit != 0 && skip + Abs(limit) <= |s| then Abs(limit) else |s| - skip)
    ensures forall k :: 0 <= k < |r| ==> skip + k < |s| && r[k] == s[skip + k]
  {
    if limit == 0 then (if skip >= |s| then [] else s[skip..]) else Slice(s, skip, Abs(limit))
  }

  /** The response: the page and limit echoed, the count of all matches and
      the window of them; `None` (a server error) when the skip is negative,
      which the store refuses. */
  function Respond<T>(matches: seq<T>, page: int, limit: int, skip: int): (r: Option<Page<T>>)
    ensures r.None? <==> skip < 0
    ensures r.Some? ==> r.value.page == page && r.value.limit == limit && r.value.total == |matches|
    ensures r.Some? ==> r.value.data == Window(matches, skip, limit)
    ensures r.Some? ==> |r.value.data| <= r.value.total && (limit != 0 ==> |r.value.data| <= Abs(limit))
    ensures r.Some? ==> forall k :: 0 <= k < |r.value.data| ==> r.value.data[k] == matches[skip + k]
  {
    if skip < 0 then None else Some(Page(page, limit, |matches|, Window(matches, skip, limit)))
  }

  /** With `skip = (page - 1) * limit`, every match is on exactly the page its
      index says: match `i` is item `i % limit` of page `i / limit + 1`. */
  lemma MatchOnItsPage<T>(s: seq<T>, limit: nat, i: nat)
    requires limit >= 1 && i < |s|
    ensures var skip := (i / limit) * limit;
            i % limit < |Window(s, skip, limit)| && Window(s, skip, limit)[i % limit] == s[i]
  {
    var skip := (i / limit) * limit;
    assert skip + i % limit == i;
  }
}
