/**
 * The paging loops of the provider. Each asks the API for page after page:
 * the first call without a page number (0), every later call with the
 * NextPage of the answer before it. A loop stops after an error, after a page
 * whose CurrentPage >= TotalPages, or, for the scan-and-match loops, after the
 * page where it found its item. The answers are given up front, in call
 * order; a sequence that ends earlier stands for a server with nothing more.
 */
module Paging {
  import opened Wrappers
  import opened Scalr

  predicate IsLastPage<T>(p: Page<T>)
  {
    p.currentPage >= p.totalPages
  }

  function NextPageOf<T>(r: Response<T>): int
  {
    if r.Success? then r.value.nextPage else 0
  }

  /** The page number sent with the k-th list call (0 means none). */
  function PageNumber<T>(rs: seq<Response<T>>, k: nat): int
    requires k <= |rs|
  {
    if k == 0 then 0 else NextPageOf(rs[k - 1])
  }

  /** The page numbers of the first n list calls, in call order. */
  function PageNumbers<T>(rs: seq<Response<T>>, n: nat): (r: seq<int>)
    requires n <= |rs|
    ensures |r| == n
    ensures forall k :: 0 <= k < n ==> r[k] == PageNumber(rs, k)
  {
    if n == 0 then [] else PageNumbers(rs, n - 1) + [PageNumber(rs, n - 1)]
  }

  // ---------------------------------------------------------------------
  // Scan-and-match: look for the item whose key is `target`.
  // ---------------------------------------------------------------------

  /** Index of the first item whose key is `target`. */
  function FirstMatch<T>(items: seq<T>, key: T -> string, target: string): (r: Option<nat>)
    ensures r.None? <==> forall j :: 0 <= j < |items| ==> key(items[j]) != target
    ensures r.Some? ==> r.value < |items| && key(items[r.value]) == target
    ensures r.Some? ==> forall j :: 0 <= j < r.value ==> key(items[j]) != target
  {
    if items == [] then None
    else if key(items[0]) == target then Some(0)
    else match FirstMatch(items[1..], key, target)
      case None => None
      case Some(i) => Some(i + 1)
  }

  datatype Lookup<T> = Found(item: T) | Absent | ListFailed(error: ApiError)

  /** Whether the scan stops after this answer. */
  predicate Ends<T>(r: Response<T>, key: T -> string, target: string)
  {
    r.Failure? || FirstMatch(r.value.items, key, target).Some? || IsLastPage(r.value)
  }

  /** What an answer tells the scan on its own. */
  function Verdict<T>(r: Response<T>, key: T -> string, target: string): Lookup<T>
  {
    match r
    case Failure(e) => ListFailed(e)
    case Success(p) =>
      match FirstMatch(p.items, key, target)
      case Some(i) => Found(p.items[i])
      case None => Absent
  }

  /** The outcome of the scan-and-match loop over the answers `rs`. */
  function Scan<T>(rs: seq<Response<T>>, key: T -> string, target: string): Lookup<T>
    decreases |rs|
  {
    if rs == [] then Absent
    else if Ends(rs[0], key, target) then Verdict(rs[0], key, target)
    else Scan(rs[1..], key, target)
  }

  /** The number of list calls that loop makes. */
  function ScanCalls<T>(rs: seq<Response<T>>, key: T -> string, target: string): (n: nat)
    ensures n <= |rs|
    decreases |rs|
  {
    if rs == [] then 0
    else if Ends(rs[0], key, target) then 1
    else 1 + ScanCalls(rs[1..], key, target)
  }

  /** The loop reads answer k: every answer before it was a full page without the item. */
  ghost predicate Reached<T>(rs: seq<Response<T>>, key: T -> string, target: string, k: nat)
  {
    k < |rs| && forall j :: 0 <= j < k ==> !Ends(rs[j], key, target)
  }

  /**
   * The scan reads a prefix of the answers that ends with the first answer
   * that stops it (or with the last answer), and its outcome is that answer's
   * verdict.
   */
  lemma {:induction false} ScanStops<T>(rs: seq<Response<T>>, key: T -> string, target: string)
    ensures rs == [] ==> ScanCalls(rs, key, target) == 0 && Scan(rs, key, target) == Absent
    ensures rs != [] ==>
      var n := ScanCalls(rs, key, target);
      1 <= n <= |rs| && Reached(rs, key, target, n - 1) &&
      Scan(rs, key, target) == Verdict(rs[n - 1], key, target) &&
      (n < |rs| ==> Ends(rs[n - 1], key, target))
    decreases |rs|
  {
    if rs != [] && !Ends(rs[0], key, target) {
      var tail := rs[1..];
      ScanStops(tail, key, target);
      if tail != [] {
        var n := ScanCalls(tail, key, target);
        forall j | 0 <= j < n
          ensures !Ends(rs[j], key, target)
        {
          if j > 0 { assert rs[j] == tail[j - 1]; }
        }
      }
    }
  }

  /**
   * The scan finds an item exactly when an item with the target key sits on
   * one of the pages it reads; the item found is the first such item on the
   * first such page.
   */
  lemma {:induction false} ScanFindsFirst<T>(rs: seq<Response<T>>, key: T -> string, target: string)
    ensures Scan(rs, key, target).Found? <==>
      exists k, i :: 0 <= k < ScanCalls(rs, key, target) && rs[k].Success? &&
        0 <= i < |rs[k].value.items| && key(rs[k].value.items[i]) == target
    ensures Scan(rs, key, target).Found? ==>
      var k := ScanCalls(rs, key, target) - 1;
      rs[k].Success? && FirstMatch(rs[k].value.items, key, target).Some? &&
      Scan(rs, key, target).item == rs[k].value.items[FirstMatch(rs[k].value.items, key, target).value] &&
      forall j :: 0 <= j < k ==> rs[j].Success? && FirstMatch(rs[j].value.items, key, target).None?
  {
    ScanStops(rs, key, target);
    if rs != [] {
      var n := ScanCalls(rs, key, target);
      var r := rs[n - 1];
      if Scan(rs, key, target).Found? {
        var i := FirstMatch(r.value.items, key, target).value;
        assert 0 <= n - 1 < n && rs[n - 1].Success? && key(rs[n - 1].value.items[i]) == target;
      } else {
        forall k, i | 0 <= k < n && rs[k].Success? && 0 <= i < |rs[k].value.items|
          ensures key(rs[k].value.items[i]) != target
        {
          assert FirstMatch(rs[k].value.items, key, target).None?;
        }
      }
    }
  }

  /** The scan fails exactly when one of the answers it reads is an error, and then with that error. */
  lemma {:induction false} ScanFailsOnError<T>(rs: seq<Response<T>>, key: T -> string, target: string, e: ApiError)
    ensures Scan(rs, key, target) == ListFailed(e) <==>
      exists k :: 0 <= k < ScanCalls(rs, key, target) && rs[k] == Failure(e)
  {
    ScanStops(rs, key, target);
    if rs != [] {
      var n := ScanCalls(rs, key, target);
      if Scan(rs, key, target) == ListFailed(e) {
        assert rs[n - 1] == Failure(e);
      }
    }
  }

  /**
   * The loop itself: list pages in order, stop at an error, at the first item
   * with the target key, or after the last page.
   */
  method FindByKey<T>(rs: seq<Response<T>>, key: T -> string, target: string)
    returns (r: Lookup<T>, pages: seq<int>)
    ensures r == Scan(rs, key, target)
    ensures pages == PageNumbers(rs, ScanCalls(rs, key, target))
  {
    var k := 0;
    var pageNumber := 0;
    pages := [];
    while k < |rs|
      invariant 0 <= k <= |rs|
      invariant Scan(rs[k..], key, target) == Scan(rs, key, target)
      invariant k + ScanCalls(rs[k..], key, target) == ScanCalls(rs, key, target)
      invariant pages == PageNumbers(rs, k)
      invariant pageNumber == PageNumber(rs, k)
      decreases |rs| - k
    {
      pages := pages + [pageNumber];
      var response := rs[k];
      assert rs[k..][0] == response;
      if response.Failure? {
        return ListFailed(response.error), pages;
      }
      var p := response.value;
      var i := 0;
      while i < |p.items|
        invariant 0 <= i <= |p.items|
        invariant forall j :: 0 <= j < i ==> key(p.items[j]) != target
      {
        if key(p.items[i]) == target {
          return Found(p.items[i]), pages;
        }
        i := i + 1;
      }
      if IsLastPage(p) {
        return Absent, pages;
      }
      pageNumber := p.nextPage;
      assert rs[k..][1..] == rs[k + 1..];
      k := k + 1;
    }
    r := Absent;
  }

  // ---------------------------------------------------------------------
  // Walk: read every page, keeping all items.
  // ---------------------------------------------------------------------

  /** The number of list calls a loop without early exit makes. */
  function WalkCalls<T>(rs: seq<Response<T>>): (n: nat)
    ensures n <= |rs|
  {
    if rs == [] then 0
    else if rs[0].Failure? || IsLastPage(rs[0].value) then 1
    else 1 + WalkCalls(rs[1..])
  }

  /** The error that ends such a loop, if any. */
  function WalkFailure<T>(rs: seq<Response<T>>): Option<ApiError>
  {
    if rs == [] then None
    else if rs[0].Failure? then Some(rs[0].error)
    else if IsLastPage(rs[0].value) then None
    else WalkFailure(rs[1..])
  }

  /** The items of the pages such a loop reads, in order. */
  function WalkItems<T>(rs: seq<Response<T>>): seq<T>
  {
    if rs == [] || rs[0].Failure? then []
    else if IsLastPage(rs[0].value) then rs[0].value.items
    else rs[0].value.items + WalkItems(rs[1..])
  }

  /** The items of the successful answers among `rs`, in order. */
  function PageItems<T>(rs: seq<Response<T>>): seq<T>
  {
    if rs == [] then []
    else (if rs[0].Success? then rs[0].value.items else []) + PageItems(rs[1..])
  }

  /**
   * The walk reads every answer up to the first error or last page: it goes
   * on past successful pages that are not the last, stops only after an
   * error or a last page (or when the answers run out), and fails exactly
   * when it reads an error.
   */
  lemma {:induction false} WalkStops<T>(rs: seq<Response<T>>)
    ensures rs != [] ==> WalkCalls(rs) >= 1
    ensures forall j :: 0 <= j < WalkCalls(rs) - 1 ==> rs[j].Success? && !IsLastPage(rs[j].value)
    ensures 0 < WalkCalls(rs) < |rs| ==> rs[WalkCalls(rs) - 1].Failure? || IsLastPage(rs[WalkCalls(rs) - 1].value)
    ensures WalkFailure(rs).Some? <==> exists k :: 0 <= k < WalkCalls(rs) && rs[k].Failure?
    ensures WalkFailure(rs).Some? ==> rs[WalkCalls(rs) - 1] == Failure(WalkFailure(rs).value)
    decreases |rs|
  {
    if rs != [] && !rs[0].Failure? && !IsLastPage(rs[0].value) {
      var tail := rs[1..];
      WalkStops(tail);
      forall j | 0 <= j < WalkCalls(rs)
        ensures rs[j] == (if j == 0 then rs[0] else tail[j - 1])
      {
      }
    }
  }

  /** Without an error, the items the walk keeps are all the items of the pages it reads. */
  lemma {:induction false} WalkReadsAll<T>(rs: seq<Response<T>>)
    ensures WalkFailure(rs).None? ==> WalkItems(rs) == PageItems(rs[..WalkCalls(rs)])
    decreases |rs|
  {
    if rs != [] && rs[0].Success? {
      var n := WalkCalls(rs);
      if IsLastPage(rs[0].value) {
        assert rs[..n] == [rs[0]];
        assert PageItems(rs[..n][1..]) == [];
      } else {
        WalkReadsAll(rs[1..]);
        assert rs[..n][1..] == rs[1..][..n - 1];
      }
    }
  }
}
