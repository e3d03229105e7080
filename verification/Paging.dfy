/** The pagination helpers, with Go's 64-bit uint and int and the panic of an out-of-range slice. */
module Paging {
  import opened Jobs
  import L = Lifecycle

  const INT_LIMIT: int := 0x8000_0000_0000_0000
  /** No slice is longer than this: its elements would not fit in the address space. */
  const MAX_SLICE: int := 0x4000_0000_0000_0000

  newtype uint = u: int | 0 <= u < 0x1_0000_0000_0000_0000

  /** int(x) for an unsigned x. */
  function ToInt(x: uint): int {
    L.Wrap64(x as int)
  }

  /** items[start:end], or None for the panic. */
  function Slice<T>(items: seq<T>, start: int, end: int): Option<seq<T>> {
    if 0 <= start <= end <= |items| then Some(items[start..end]) else None
  }

  function Paginate<T>(items: seq<T>, limit: uint, offset: uint): Option<seq<T>> {
    var limit := if limit == 0 then 100 else limit;
    if offset as int >= |items| then Some(items[..0])
    else
      var start := ToInt(offset);
      var end := L.Wrap64(start + ToInt(limit));
      Slice(items, start, if end > |items| then |items| else end)
  }

  function PaginateWithMore<T>(items: seq<T>, limit: uint, offset: uint): Option<(seq<T>, bool)> {
    if offset as int >= |items| then Some((items[..0], false))
    else
      var start := ToInt(offset);
      var end := L.Wrap64(start + ToInt(limit));
      match Slice(items, start, if end > |items| then |items| else end)
      case Some(page) => Some((page, end < |items|))
      case None => None
  }

  function TrimLookahead<T>(jobs: seq<T>, limit: uint): (seq<T>, bool) {
    if |jobs| <= limit as int then (jobs, false) else (jobs[..limit], true)
  }

  function NormalizeJobQueryLimit(limit: uint): (r: uint)
    ensures 1 <= r <= 100
    ensures 1 <= limit <= 100 ==> r == limit
    ensures limit == 0 ==> r == 25
    ensures limit > 100 ==> r == 100
  {
    if limit == 0 then 25 else if limit > 100 then 100 else limit
  }

  function Min(a: int, b: int): int {
    if a < b then a else b
  }

  /** The rows that LIMIT and OFFSET select. */
  function Window<T>(items: seq<T>, limit: nat, offset: nat): seq<T> {
    items[Min(offset, |items|)..Min(offset + limit, |items|)]
  }

  /** A page panics exactly when its end does not fit in an int and there is something to list. */
  lemma PageFitsIff<T>(items: seq<T>, limit: uint, offset: uint)
    requires |items| < MAX_SLICE
    ensures PaginateWithMore(items, limit, offset).Some? <==>
      offset as int >= |items| || offset as int + limit as int < INT_LIMIT
    ensures limit != 0 ==> (Paginate(items, limit, offset).Some? <==> PaginateWithMore(items, limit, offset).Some?)
  {
  }

  /** A legacy listing without a limit shows a hundred rows. */
  lemma NoLimitIsAHundred<T>(items: seq<T>, offset: uint)
    requires |items| < MAX_SLICE && (offset as int >= |items| || offset as int + 100 < INT_LIMIT)
    ensures Paginate(items, 0, offset) == Some(items[Min(offset as int, |items|)..Min(offset as int + 100, |items|)])
  {
    if offset as int >= |items| {
      assert items[..0] == items[|items|..|items|];
    }
  }

  /** A page is the window on the list, and hasMore says whether the list goes on behind it. */
  lemma PageIsWindow<T>(items: seq<T>, limit: uint, offset: uint)
    requires |items| < MAX_SLICE && (offset as int >= |items| || offset as int + limit as int < INT_LIMIT)
    ensures PaginateWithMore(items, limit, offset)
         == Some((Window(items, limit as int, offset as int), offset as int + (limit as int) < |items|))
    ensures limit > 0 ==> Paginate(items, limit, offset) == Some(Window(items, limit as int, offset as int))
  {
    if offset as int >= |items| {
      assert items[..0] == [] && Window(items, limit as int, offset as int) == [];
    }
  }

  /** The lookahead of one row that the legacy listing and the SQL listing use gives the same page. */
  lemma LookaheadIsPaginateWithMore<T>(items: seq<T>, limit: uint, offset: uint)
    requires |items| < MAX_SLICE && limit >= 1 && offset as int + limit as int + 1 < INT_LIMIT
    ensures Paginate(items, limit + 1, offset).Some?
    ensures PaginateWithMore(items, limit, offset) == Some(TrimLookahead(Paginate(items, limit + 1, offset).value, limit))
  {
    PageIsWindow(items, limit, offset);
    PageIsWindow(items, limit + 1, offset);
    var longer, page := Window(items, limit as int + 1, offset as int), Window(items, limit as int, offset as int);
    if |longer| <= limit as int {
      assert longer == page;
    } else {
      assert longer[..limit] == page;
    }
  }

  /** All rows a client sees that starts at `offset` and asks for the next page until hasMore is false. */
  function Walk<T>(items: seq<T>, limit: uint, offset: uint): seq<T>
    requires |items| < MAX_SLICE && 1 <= limit <= 100 && offset as int < INT_LIMIT - 200
    decreases |items| - offset as int
  {
    PageIsWindow(items, limit, offset);
    var (page, hasMore) := PaginateWithMore(items, limit, offset).value;
    if hasMore then page + Walk(items, limit, offset + limit) else page
  }

  /** The pages of a walk put together are the list: nothing is skipped and nothing is shown twice. */
  lemma {:induction false} PagesPartition<T>(items: seq<T>, limit: uint, offset: uint)
    requires |items| < MAX_SLICE && 1 <= limit <= 100 && offset as int <= |items|
    ensures Walk(items, limit, offset) == items[offset..]
    decreases |items| - offset as int
  {
    PageIsWindow(items, limit, offset);
    if offset as int + (limit as int) < |items| {
      PagesPartition(items, limit, offset + limit);
      assert items[offset..] == items[offset..offset + limit] + items[offset + limit..];
    }
  }
}
