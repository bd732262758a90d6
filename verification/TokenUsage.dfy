/** The API token usage list: an exchange sort in place, newest first, and paging by offset and limit. */
module TokenUsage {
  /** A usage record; `createdAt` is its time. */
  datatype Usage = Usage(id: string, tokenId: string, endpoint: string, createdAt: int)

  predicate NewestFirst(us: seq<Usage>) {
    forall i, j :: 0 <= i < j < |us| ==> us[i].createdAt >= us[j].createdAt
  }

  /** The first `n` are in order and none of the others is newer than any of them. */
  ghost predicate Settled(us: seq<Usage>, n: int) {
    forall i, j :: 0 <= i < j < |us| && i < n ==> us[i].createdAt >= us[j].createdAt
  }

  function Swapped(us: seq<Usage>, i: nat, j: nat): seq<Usage>
    requires i < j < |us|
  {
    us[i := us[j]][j := us[i]]
  }

  predicate SameRecords(us: seq<Usage>, vs: seq<Usage>) {
    multiset(us) == multiset(vs)
  }

  /** Record `i` is no older than those after it, as far as `j`. */
  ghost predicate Newest(us: seq<Usage>, i: nat, j: nat) {
    i < j <= |us| && forall k :: i < k < j ==> us[i].createdAt >= us[k].createdAt
  }

  lemma SwapKeepsRecords(us: seq<Usage>, i: nat, j: nat, original: seq<Usage>)
    requires i < j < |us| && SameRecords(us, original)
    ensures SameRecords(Swapped(us, i, j), original)
  {
  }

  lemma SwapKeepsOrder(us: seq<Usage>, i: nat, j: nat)
    requires Newest(us, i, j) && j < |us| && Settled(us, i)
    requires us[i].createdAt < us[j].createdAt
    ensures Settled(Swapped(us, i, j), i) && Newest(Swapped(us, i, j), i, j + 1)
  {
  }

  lemma NewestIsNext(us: seq<Usage>, i: nat)
    requires Settled(us, i) && Newest(us, i, |us|)
    ensures Settled(us, i + 1)
  {
  }

  /** Afterwards the array holds the same records, newest first. */
  method SortNewestFirst(a: array<Usage>)
    modifies a
    ensures NewestFirst(a[..])
    ensures SameRecords(a[..], old(a[..]))
  {
    hide Settled, Newest, SameRecords, NewestFirst;
    StartsSettled(a[..]);
    var i := 0;
    while i < a.Length - 1
      invariant 0 <= i <= a.Length
      invariant a.Length > 0 ==> i < a.Length
      invariant Settled(a[..], i) && SameRecords(a[..], old(a[..]))
    {
      var j := i + 1;
      NewestOfOne(a[..], i);
      while j < a.Length
        invariant i < j <= a.Length
        invariant Settled(a[..], i) && Newest(a[..], i, j) && SameRecords(a[..], old(a[..]))
      {
        ghost var before := a[..];
        if a[i].createdAt < a[j].createdAt {
          SwapKeepsOrder(before, i, j);
          SwapKeepsRecords(before, i, j, old(a[..]));
          a[i], a[j] := a[j], a[i];
          assert a[..] == Swapped(before, i, j);
        } else {
          NewestGrows(before, i, j);
        }
        j := j + 1;
      }
      NewestIsNext(a[..], i);
      i := i + 1;
    }
    SettledIsSorted(a[..], i);
  }

  lemma StartsSettled(us: seq<Usage>)
    ensures Settled(us, 0) && SameRecords(us, us)
  {
  }

  lemma NewestOfOne(us: seq<Usage>, i: nat)
    requires i < |us|
    ensures Newest(us, i, i + 1)
  {
  }

  lemma NewestGrows(us: seq<Usage>, i: nat, j: nat)
    requires Newest(us, i, j) && j < |us| && us[i].createdAt >= us[j].createdAt
    ensures Newest(us, i, j + 1)
  {
  }

  lemma SettledIsSorted(us: seq<Usage>, n: nat)
    requires Settled(us, n) && n + 1 >= |us|
    ensures NewestFirst(us)
  {
  }

  // ---- paging ----

  function Clipped(n: nat, total: nat): nat {
    if n > total then total else n
  }

  /** The slice of one page, with both ends clipped to the list. */
  function Page<T>(us: seq<T>, offset: nat, limit: nat): seq<T> {
    us[Clipped(offset, |us|)..Clipped(offset + limit, |us|)]
  }

  method Paginate<T>(us: seq<T>, offset: nat, limit: nat) returns (page: seq<T>)
    ensures page == Page(us, offset, limit)
    ensures |page| <= limit && (offset + limit <= |us| ==> |page| == limit)
    ensures forall k :: 0 <= k < |page| ==> offset + k < |us| && page[k] == us[offset + k]
  {
    var total := |us|;
    var start := offset;
    var end := offset + limit;
    if start > total {
      start := total;
    }
    if end > total {
      end := total;
    }
    page := us[start..end];
  }

  /** The pages at `offset`, `offset + limit` and so on, one after the other. */
  function PagesFrom<T>(us: seq<T>, offset: nat, limit: nat): seq<T>
    requires limit > 0
    decreases |us| - offset
  {
    if offset >= |us| then [] else Page(us, offset, limit) + PagesFrom(us, offset + limit, limit)
  }

  /** Turning the pages shows the whole list, each record once and in order, for every page size. */
  lemma {:induction false} PagesCoverList<T>(us: seq<T>, offset: nat, limit: nat)
    requires limit > 0 && offset <= |us|
    ensures PagesFrom(us, offset, limit) == us[offset..]
    decreases |us| - offset
  {
    if offset < |us| {
      if offset + limit <= |us| {
        PagesCoverList(us, offset + limit, limit);
        assert us[offset..] == us[offset..offset + limit] + us[offset + limit..];
      }
    }
  }

  /** There is nothing to see past the end. */
  lemma PagesEnd<T>(us: seq<T>, offset: nat, limit: nat)
    ensures Page(us, offset, limit) == [] <==> offset >= |us| || limit == 0
  {
  }
}
