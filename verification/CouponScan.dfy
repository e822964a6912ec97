/** The all-or-nothing scan of a paginated coupon catalogue.

    The provider is arbitrary: `pages(p)` is its answer to the p-th read, which asks for page p.
    The clock is arbitrary too: `clock(k)` is its k-th reading. */
module CouponScan {
  import opened Common

  const PAGE_SIZE := 100
  const MAX_SAFE_INTEGER := 0x1F_FFFF_FFFF_FFFF

  /** An array element: not an object, or an object whose `id` is an integer or something else. */
  datatype Item = Junk | Coupon(id: Option<int>, body: string)

  /** A count is None when it is not an integer, the coupons when they are not an array. */
  datatype Page = Page(coupons: Option<seq<Item>>, total: Option<int>, totalPages: Option<int>)

  datatype Answer = Threw | Answered(page: Page)

  /** PageLimitInvalid and PagesExhausted are "too_many_pages" in the program; DurationInvalid and
      TimedOut are "provider_unavailable"; LengthMismatch and PageIncomplete "incomplete_pages". */
  datatype ScanError =
    | PageLimitInvalid | PagesExhausted
    | DurationInvalid | TimedOut | ReadFailed
    | InvalidPage | UnstablePages
    | PageIncomplete | LengthMismatch

  predicate SafeInteger(n: int) { -MAX_SAFE_INTEGER <= n <= MAX_SAFE_INTEGER }

  function Min(a: int, b: int): int { if a < b then a else b }

  function Max(a: int, b: int): int { if a > b then a else b }

  function CeilPages(total: nat): nat { (total + PAGE_SIZE - 1) / PAGE_SIZE }

  /** How many reads a catalogue of this size takes. */
  function ReadsFor(total: nat): nat { Max(1, CeilPages(total)) }

  predicate ValidItem(item: Item) {
    item.Coupon? && item.id.Some? && 0 < item.id.value <= MAX_SAFE_INTEGER
  }

  /** Every element is a coupon, and identifiers strictly increase. */
  ghost predicate Ordered(list: seq<Item>) {
    && (forall i :: 0 <= i < |list| ==> ValidItem(list[i]))
    && (forall i, j :: 0 <= i < j < |list| ==> list[i].id.value < list[j].id.value)
  }

  function Slice(list: seq<Item>, page: nat): seq<Item>
    requires page >= 1 && (page - 1) * PAGE_SIZE <= |list|
  {
    list[(page - 1) * PAGE_SIZE..Min(page * PAGE_SIZE, |list|)]
  }

  /** A page that agrees with the catalogue: its total, its slice, and a page count that matches
      the total (zero pages may be reported for anything that fits one page). */
  ghost predicate PageAgrees(answer: Answer, list: seq<Item>, page: nat)
    requires page >= 1 && (page - 1) * PAGE_SIZE <= |list|
  {
    && answer.Answered?
    && answer.page.total == Some(|list|)
    && answer.page.coupons == Some(Slice(list, page))
    && (answer.page.totalPages == Some(CeilPages(|list|))
        || (answer.page.totalPages == Some(0) && |list| <= PAGE_SIZE))
  }

  /** The provider served this catalogue consistently on every page read, in time. */
  ghost predicate Served(pages: nat -> Answer, clock: nat -> int, maxPages: int, maxMs: int, list: seq<Item>) {
    && 1 <= maxPages <= 200
    && 1 <= maxMs <= MAX_SAFE_INTEGER
    && |list| <= PAGE_SIZE * maxPages
    && Ordered(list)
    && (forall p :: 1 <= p <= ReadsFor(|list|) ==> PageAgrees(pages(p), list, p))
    && (forall k :: 1 <= k <= 2 * ReadsFor(|list|) ==> clock(k) - clock(0) < maxMs)
  }

  /** What the loop has established after reading `page - 1` pages without an objection. */
  ghost predicate Progress(pages: nat -> Answer, clock: nat -> int, maxPages: int, maxMs: int,
                           page: nat, total: Option<int>, result: seq<Item>) {
    && 1 <= page
    && Ordered(result)
    && (page == 1 ==> total == None && result == [])
    && (page > 1 ==> total.Some? && 0 <= total.value <= PAGE_SIZE * maxPages
                     && page - 1 < ReadsFor(total.value) && |result| == (page - 1) * PAGE_SIZE)
    && (forall p :: 1 <= p < page ==> pages(p).Answered? && pages(p).page.total == total
                                      && pages(p).page.coupons == Some(Slice(result, p))
                                      && pages(p).page.totalPages == Some(CeilPages(total.value)))
    && (forall k :: 1 <= k < 2 * page - 1 ==> clock(k) - clock(0) < maxMs)
  }

  /** Where a scan of a served catalogue stands before reading a page. */
  ghost predicate Aligned(list: seq<Item>, page: nat, total: Option<int>, result: seq<Item>) {
    && 1 <= page <= ReadsFor(|list|)
    && (total.Some? ==> total.value == |list|)
    && |result| == (page - 1) * PAGE_SIZE
    && result <= list
  }

  /** A served catalogue passes every check made on a page. */
  lemma ServedPage(pages: nat -> Answer, clock: nat -> int, maxPages: int, maxMs: int, list: seq<Item>,
                   page: nat, total: Option<int>, result: seq<Item>)
    requires Served(pages, clock, maxPages, maxMs, list) && Aligned(list, page, total, result)
    ensures clock(2 * page - 1) - clock(0) < maxMs && clock(2 * page) - clock(0) < maxMs
    ensures PageAgrees(pages(page), list, page)
    ensures var coupons := pages(page).page.coupons.value;
            && |coupons| == Min(PAGE_SIZE, |list| - |result|)
            && Ordered(result + coupons)
            && if page == ReadsFor(|list|) then result + coupons == list
               else Aligned(list, page + 1, Some(|list|), result + coupons)
  {
    var coupons := pages(page).page.coupons.value;
    assert PageAgrees(pages(page), list, page) && coupons == Slice(list, page);
    assert result + coupons <= list;
  }

  lemma ProgressStep(pages: nat -> Answer, clock: nat -> int, maxPages: int, maxMs: int, page: nat,
                     previous: Option<int>, total: nat, before: seq<Item>, coupons: seq<Item>)
    requires Progress(pages, clock, maxPages, maxMs, page, previous, before)
    requires pages(page).Answered? && pages(page).page.total == Some(total)
    requires pages(page).page.coupons == Some(coupons) && pages(page).page.totalPages == Some(CeilPages(total))
    requires total <= PAGE_SIZE * maxPages && page < ReadsFor(total) && (previous == None || previous == Some(total))
    requires |coupons| == Min(PAGE_SIZE, total - |before|) && Ordered(before + coupons)
    requires clock(2 * page - 1) - clock(0) < maxMs && clock(2 * page) - clock(0) < maxMs
    ensures Progress(pages, clock, maxPages, maxMs, page + 1, Some(total), before + coupons)
  {
    var result := before + coupons;
    assert page * PAGE_SIZE < total;
    assert |before| == (page - 1) * PAGE_SIZE;
    forall p | 1 <= p < page + 1
      ensures pages(p).Answered? && pages(p).page.total == Some(total)
              && pages(p).page.coupons == Some(Slice(result, p))
              && pages(p).page.totalPages == Some(CeilPages(total))
    {
      if p == page {
        assert Slice(result, p) == coupons;
      } else {
        assert Slice(result, p) == Slice(before, p);
      }
    }
  }

  /** When the last page is accepted the whole catalogue has been served. */
  lemma LastPage(pages: nat -> Answer, clock: nat -> int, maxPages: int, maxMs: int, page: nat,
                 previous: Option<int>, total: nat, before: seq<Item>, coupons: seq<Item>)
    requires 1 <= maxPages <= 200 && 1 <= maxMs <= MAX_SAFE_INTEGER
    requires Progress(pages, clock, maxPages, maxMs, page, previous, before)
    requires pages(page).Answered? && pages(page).page.total == Some(total)
    requires pages(page).page.coupons == Some(coupons) && pages(page).page.totalPages.Some?
    requires var n := pages(page).page.totalPages.value;
             n >= 0 && Max(1, n) == ReadsFor(total) && (n == 0 || total > 0)
    requires total <= PAGE_SIZE * maxPages && page == ReadsFor(total) && (previous == None || previous == Some(total))
    requires |coupons| == Min(PAGE_SIZE, total - |before|) && Ordered(before + coupons)
    requires clock(2 * page - 1) - clock(0) < maxMs && clock(2 * page) - clock(0) < maxMs
    ensures |before + coupons| == total
    ensures Served(pages, clock, maxPages, maxMs, before + coupons)
  {
    var result := before + coupons;
    assert |before| == (page - 1) * PAGE_SIZE;
    forall p | 1 <= p <= page
      ensures PageAgrees(pages(p), result, p)
    {
      if p == page {
        assert Slice(result, p) == coupons;
      } else {
        assert Slice(result, p) == Slice(before, p);
      }
    }
  }

  /** Two catalogues cannot both have been served. */
  lemma ServedIsUnique(pages: nat -> Answer, clock: nat -> int, maxPages: int, maxMs: int, a: seq<Item>, b: seq<Item>)
    requires Served(pages, clock, maxPages, maxMs, a) && Served(pages, clock, maxPages, maxMs, b)
    ensures a == b
  {
    assert PageAgrees(pages(1), a, 1) && PageAgrees(pages(1), b, 1);
    forall i | 0 <= i < |a|
      ensures a[i] == b[i]
    {
      var p := i / PAGE_SIZE + 1;
      assert PageAgrees(pages(p), a, p) && PageAgrees(pages(p), b, p);
      assert a[i] == Slice(a, p)[i - (p - 1) * PAGE_SIZE];
      assert b[i] == Slice(b, p)[i - (p - 1) * PAGE_SIZE];
    }
  }

  /** The loop's book-keeping variables describe the list built so far. */
  ghost predicate Tracks(result: seq<Item>, seen: set<int>, previousId: int)
    requires Ordered(result)
  {
    && (forall i :: 0 <= i < |result| ==> result[i].id.value <= previousId)
    && (forall id :: id in seen ==> 0 < id <= previousId)
    && (result == [] ==> previousId == 0)
    && (result != [] ==> result[|result| - 1].id.value == previousId)
  }

  lemma OrderedSnoc(result: seq<Item>, item: Item, seen: set<int>, previousId: int)
    requires Ordered(result) && Tracks(result, seen, previousId)
    requires ValidItem(item) && item.id.value > previousId
    ensures Ordered(result + [item]) && Tracks(result + [item], seen + {item.id.value}, item.id.value)
  {}

  /** No element of an ordered list would be refused. */
  lemma NextIsAccepted(list: seq<Item>, result: seq<Item>, seen: set<int>, previousId: int)
    requires Ordered(list) && Ordered(result) && Tracks(result, seen, previousId)
    requires result <= list && |result| < |list|
    ensures var item := list[|result|];
            ValidItem(item) && item.id.value > previousId && item.id.value !in seen
  {
    if result != [] {
      assert list[|result| - 1] == result[|result| - 1];
    }
  }

  /** The coupons of one page are accepted exactly when they extend the list in order. */
  method AppendPage(before: seq<Item>, coupons: seq<Item>, seenBefore: set<int>, lastBefore: int)
    returns (r: Result<seq<Item>, ScanError>, seen: set<int>, previousId: int)
    requires Ordered(before) && Tracks(before, seenBefore, lastBefore)
    ensures r.Ok? <==> Ordered(before + coupons)
    ensures r.Ok? ==> r.value == before + coupons && Tracks(r.value, seen, previousId)
    ensures r.Err? ==> r.error == InvalidPage || r.error == UnstablePages
  {
    hide Ordered, Tracks;
    var result := before;
    seen, previousId := seenBefore, lastBefore;
    for index := 0 to |coupons|
      invariant result == before + coupons[..index]
      invariant Ordered(result) && Tracks(result, seen, previousId)
    {
      var item := coupons[index];
      ghost var whole := before + coupons;
      assert item == whole[|result|] && result <= whole;
      if Ordered(whole) { NextIsAccepted(whole, result, seen, previousId); }
      if item.Junk? {
        return Err(InvalidPage), seen, previousId;
      }
      if item.id.None? || !SafeInteger(item.id.value) || item.id.value <= 0
         || item.id.value in seen || item.id.value <= previousId {
        return Err(UnstablePages), seen, previousId;
      }
      OrderedSnoc(result, item, seen, previousId);
      previousId := item.id.value;
      seen := seen + {previousId};
      result := result + [item];
    }
    assert result == before + coupons;
    r := Ok(result);
  }

  /** The scan returns a catalogue exactly when the provider served that catalogue: nothing
      partial, duplicated, reordered or inconsistent is ever returned, and nothing consistent is
      ever refused.  `catalogue` is any list at all.  The throw after the loop and the last
      length check cannot be reached. */
  method ReadAll(pages: nat -> Answer, clock: nat -> int, maxPages: int, maxMs: int, ghost catalogue: seq<Item>)
    returns (r: Result<seq<Item>, ScanError>, readCount: nat)
    ensures r == Ok(catalogue) <==> Served(pages, clock, maxPages, maxMs, catalogue)
    ensures r.Ok? ==> Ordered(r.value) && readCount == ReadsFor(|r.value|) <= maxPages
    ensures r.Err? ==> r.error != PagesExhausted && r.error != LengthMismatch
  {
    readCount := 0;
    if maxPages < 1 || maxPages > 200 { return Err(PageLimitInvalid), readCount; }
    if !SafeInteger(maxMs) || maxMs < 1 { return Err(DurationInvalid), readCount; }
    ghost var served := Served(pages, clock, maxPages, maxMs, catalogue);
    var maxCoupons := PAGE_SIZE * maxPages;
    var result: seq<Item> := [];
    var seen: set<int> := {};
    var expectedTotal: Option<int> := None;
    var expectedPages: Option<int> := None;
    var previousId := 0;
    assert Progress(pages, clock, maxPages, maxMs, 1, None, []);
    hide Served, Progress, PageAgrees, Ordered, Aligned;
    for page := 1 to maxPages + 1
      invariant Progress(pages, clock, maxPages, maxMs, page, expectedTotal, result)
      invariant expectedTotal.Some? ==> 0 <= expectedTotal.value && page <= ReadsFor(expectedTotal.value) <= maxPages
      invariant expectedPages == if expectedTotal.None? then None else Some(ReadsFor(expectedTotal.value))
      invariant Tracks(result, seen, previousId)
      invariant readCount == page - 1
      invariant served ==> Aligned(catalogue, page, expectedTotal, result)
    {
      if served { ServedPage(pages, clock, maxPages, maxMs, catalogue, page, expectedTotal, result); }
      if clock(2 * page - 1) - clock(0) >= maxMs { return Err(TimedOut), readCount; }
      var answer := pages(page);
      readCount := readCount + 1;
      if answer.Threw? { return Err(ReadFailed), readCount; }
      if clock(2 * page) - clock(0) >= maxMs { return Err(TimedOut), readCount; }
      var response := answer.page;
      if response.total.None? || response.total.value < 0 || response.total.value > maxCoupons
         || response.totalPages.None? || response.totalPages.value < 0 || response.totalPages.value > maxPages
         || response.coupons.None? {
        return Err(InvalidPage), readCount;
      }
      ghost var before, previous := result, expectedTotal;
      var total, totalPages := response.total.value, response.totalPages.value;
      var pageCount := Max(1, totalPages);
      if pageCount != Max(1, CeilPages(total)) || (totalPages != 0 && total == 0)
         || (expectedTotal.Some? && total != expectedTotal.value)
         || (expectedPages.Some? && pageCount != expectedPages.value) {
        return Err(UnstablePages), readCount;
      }
      expectedTotal := Some(total);
      expectedPages := Some(pageCount);
      var coupons := response.coupons.value;
      if |coupons| > PAGE_SIZE || |coupons| != Min(PAGE_SIZE, total - |result|) {
        return Err(PageIncomplete), readCount;
      }
      var appended;
      appended, seen, previousId := AppendPage(result, coupons, seen, previousId);
      if appended.Err? { return Err(appended.error), readCount; }
      result := appended.value;
      if page == pageCount {
        LastPage(pages, clock, maxPages, maxMs, page, previous, total, before, coupons);
        if served { ServedIsUnique(pages, clock, maxPages, maxMs, catalogue, result); }
        if |result| != total { return Err(LengthMismatch), readCount; }
        return Ok(result), readCount;
      }
      ProgressStep(pages, clock, maxPages, maxMs, page, previous, total, before, coupons);
    }
    return Err(PagesExhausted), readCount;
  }

  /** An honest provider: fixed-size pages of one ordered list, and the count of those pages. */
  ghost predicate Honest(pages: nat -> Answer, list: seq<Item>) {
    && Ordered(list)
    && forall p :: p >= 1 && (p - 1) * PAGE_SIZE <= |list| ==>
        pages(p) == Answered(Page(Some(Slice(list, p)), Some(|list|), Some(CeilPages(|list|))))
  }

  /** An honest provider with at most 100 coupons a permitted page is always read in full, as
      long as the clock does not run out. */
  lemma HonestProviderIsServed(pages: nat -> Answer, clock: nat -> int, maxPages: int, maxMs: int, list: seq<Item>)
    requires Honest(pages, list) && 1 <= maxPages <= 200 && 1 <= maxMs <= MAX_SAFE_INTEGER
    requires forall k :: clock(k) - clock(0) < maxMs
    ensures Served(pages, clock, maxPages, maxMs, list) <==> |list| <= PAGE_SIZE * maxPages
  {
    forall p | 1 <= p <= ReadsFor(|list|)
      ensures PageAgrees(pages(p), list, p)
    {
      assert (p - 1) * PAGE_SIZE <= |list|;
    }
  }
}
