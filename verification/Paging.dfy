/** Newest-first paging that stops at the watermark floor. */
module Paging {
  import opened Prelude
  import opened Watermarks

  /** Every entry at or below the floor; with a zero floor only an empty page counts. */
  predicate IsPageBelowFloor(floor: nat, page: seq<nat>) {
    page == [] || (floor != 0 && forall i :: 0 <= i < |page| ==> page[i] <= floor)
  }

  method PageBelowFloor(floor: nat, page: seq<nat>) returns (below: bool)
    ensures below == IsPageBelowFloor(floor, page)
  {
    if |page| == 0 {
      return true;
    }
    if floor == 0 {
      return false;
    }
    for i := 0 to |page|
      invariant forall j :: 0 <= j < i ==> page[j] <= floor
    {
      if page[i] > floor {
        return false;
      }
    }
    below := true;
  }

  /** Why no further page was read. */
  predicate Stopped(fetch: nat -> Option<seq<nat>>, aborted: nat -> bool, floor: nat, maxPages: nat, pages: seq<seq<nat>>) {
    || |pages| == maxPages
    || aborted(|pages|)
    || fetch(|pages|).None? || fetch(|pages|) == Some([])
    || (pages != [] && IsPageBelowFloor(floor, pages[|pages| - 1]))
  }

  /** The yielded pages are the first ones, none after one below the floor, until a reason to stop. */
  predicate Harvested(fetch: nat -> Option<seq<nat>>, aborted: nat -> bool, floor: nat, maxPages: nat, pages: seq<seq<nat>>) {
    && |pages| <= maxPages
    && (forall i :: 0 <= i < |pages| ==> fetch(i) == Some(pages[i]) && pages[i] != [])
    && (forall i :: 0 <= i < |pages| - 1 ==> !IsPageBelowFloor(floor, pages[i]))
    && Stopped(fetch, aborted, floor, maxPages, pages)
  }

  /** Where the harvest of one emitter may stop: nowhere in a backstop scan or without watermarks. */
  function FloorFor(watermarks: Option<Store>, bypass: bool, chain: nat, emitter: string): nat {
    if bypass || watermarks.None? then 0 else PagingFloor(watermarks.value, chain, emitter)
  }

  method HarvestVaaPages(fetch: nat -> Option<seq<nat>>, aborted: nat -> bool, watermarks: Option<Store>, bypass: bool,
                         chain: nat, emitter: string, maxPages: nat)
    returns (pages: seq<seq<nat>>, fetched: nat)
    ensures Harvested(fetch, aborted, FloorFor(watermarks, bypass, chain, emitter), maxPages, pages)
    ensures |pages| <= fetched <= |pages| + 1
  {
    var floor := 0;
    if !bypass && watermarks.Some? {
      floor := PagingFloor(watermarks.value, chain, emitter);
    }
    pages, fetched := [], 0;
    var page := 0;
    while page < maxPages
      invariant page == |pages| == fetched <= maxPages
      invariant forall i :: 0 <= i < |pages| ==> fetch(i) == Some(pages[i]) && pages[i] != []
      invariant forall i :: 0 <= i < |pages| ==> !IsPageBelowFloor(floor, pages[i])
    {
      if aborted(page) {
        return;
      }
      var items := if fetch(page).Some? then fetch(page).value else [];
      fetched := fetched + 1;
      if |items| == 0 {
        return;
      }
      pages := pages + [items];
      var below := PageBelowFloor(floor, items);
      if below {
        return;
      }
      page := page + 1;
    }
  }

  // ------------------------------------------------------------- on a fixed listing

  predicate NewestFirst(listing: seq<nat>) {
    forall i, j :: 0 <= i < j < |listing| ==> listing[i] > listing[j]
  }

  function Clamp(n: nat, len: nat): nat { if n <= len then n else len }

  function PageOf(listing: seq<nat>, size: nat, page: nat): seq<nat> {
    listing[Clamp(page * size, |listing|)..Clamp(page * size + size, |listing|)]
  }

  lemma {:induction false} PageIndex(index: nat, size: nat)
    requires size > 0
    ensures index / size * size <= index < index / size * size + size
    ensures index - index / size * size == index % size
  {
  }

  lemma {:induction false} PagesBefore(p: nat, q: nat, size: nat)
    requires p < q
    ensures p * size + size <= q * size
  {
    if q == p + 1 {
      assert (p + 1) * size == p * size + size;
    } else {
      PagesBefore(p, q - 1, size);
      assert q * size == (q - 1) * size + size;
    }
  }

  /** A page that starts inside the listing begins with the entry at its start. */
  lemma {:induction false} PageStart(listing: seq<nat>, size: nat, page: nat)
    requires size > 0
    ensures PageOf(listing, size, page) != [] <==> page * size < |listing|
    ensures page * size < |listing| ==> PageOf(listing, size, page)[0] == listing[page * size]
  {
  }

  lemma {:induction false} PageEntry(listing: seq<nat>, size: nat, page: nat, index: nat)
    requires page * size <= index < page * size + size && index < |listing|
    ensures index - page * size < |PageOf(listing, size, page)|
    ensures PageOf(listing, size, page)[index - page * size] == listing[index]
  {
  }

  /** The floor does not apply to a sequence: it is above, or the floor is zero, which stops nothing. */
  predicate Wanted(floor: nat, sequence: nat) { floor == 0 || sequence > floor }

  /** Pages up to the one holding a wanted entry are non-empty, and no reason to stop. */
  lemma {:induction false} PagesUpToAreWanted(listing: seq<nat>, size: nat, floor: nat, index: nat, page: nat)
    requires size > 0 && NewestFirst(listing) && index < |listing| && Wanted(floor, listing[index])
    requires page * size <= index
    ensures PageOf(listing, size, page) != [] && !IsPageBelowFloor(floor, PageOf(listing, size, page))
  {
    PageStart(listing, size, page);
  }

  lemma {:induction false} EarlierPages(p: nat, q: nat, size: nat)
    requires p <= q
    ensures p * size <= q * size
  {
    if p < q {
      PagesBefore(p, q, size);
    }
  }

  /** A harvest does not stop before a page that holds a wanted entry. */
  lemma {:induction false} ReachesPage(listing: seq<nat>, size: nat, floor: nat, maxPages: nat, pages: seq<seq<nat>>, index: nat)
    requires size > 0 && NewestFirst(listing) && index < |listing| && Wanted(floor, listing[index])
    requires Harvested(page => Some(PageOf(listing, size, page)), page => false, floor, maxPages, pages)
    requires |pages| * size <= index
    ensures |pages| == maxPages
  {
    PagesUpToAreWanted(listing, size, floor, index, |pages|);
    if |pages| > 0 {
      EarlierPages(|pages| - 1, |pages|, size);
      PagesUpToAreWanted(listing, size, floor, index, |pages| - 1);
    }
  }

  /**
   * On any newest-first listing without fetch errors or an abort, every sequence above the floor
   * among the first `maxPages` pages is in the harvest, at its place in its page; with a zero floor,
   * every sequence is.
   */
  lemma {:induction false} NothingAboveFloorLost(listing: seq<nat>, size: nat, floor: nat, maxPages: nat,
                                                 pages: seq<seq<nat>>, index: nat)
    requires size > 0 && NewestFirst(listing)
    requires Harvested(page => Some(PageOf(listing, size, page)), page => false, floor, maxPages, pages)
    requires index < |listing| && Wanted(floor, listing[index]) && index / size < maxPages
    ensures index / size < |pages| && index % size < |pages[index / size]|
    ensures pages[index / size][index % size] == listing[index]
  {
    PageIndex(index, size);
    if |pages| <= index / size {
      EarlierPages(|pages|, index / size, size);
      ReachesPage(listing, size, floor, maxPages, pages, index);
    }
    PageEntry(listing, size, index / size, index);
  }

  /**
   * With the floor that the harvest itself looks up: every sequence above the watermark less five
   * among the first `maxPages` pages is harvested, and in a backstop scan every sequence is.
   */
  lemma {:induction false} NothingNewLost(listing: seq<nat>, size: nat, watermarks: Option<Store>, bypass: bool, chain: nat,
                                          emitter: string, maxPages: nat, pages: seq<seq<nat>>, index: nat)
    requires size > 0 && NewestFirst(listing) && index < |listing| && index / size < maxPages
    requires Harvested(page => Some(PageOf(listing, size, page)), page => false,
                       FloorFor(watermarks, bypass, chain, emitter), maxPages, pages)
    requires bypass || watermarks.None? ||
             listing[index] > Mark(watermarks.value, WatermarkKey(chain, emitter)) - BACKFILL_COUNT
    ensures index / size < |pages| && index % size < |pages[index / size]|
    ensures pages[index / size][index % size] == listing[index]
  {
    NothingAboveFloorLost(listing, size, FloorFor(watermarks, bypass, chain, emitter), maxPages, pages, index);
  }

  /** The same when the watermarks are what this process recorded: nothing newer than the newest less five is lost. */
  lemma {:induction false} NothingNewSinceRecordsLost(listing: seq<nat>, size: nat, records: seq<Seen>, newest: nat, chain: nat,
                                                      emitter: string, maxPages: nat, pages: seq<seq<nat>>, index: nat)
    requires size > 0 && NewestFirst(listing) && index < |listing| && index / size < maxPages
    requires Harvested(page => Some(PageOf(listing, size, page)), page => false,
                       FloorFor(Some(Replay(records)), false, chain, emitter), maxPages, pages)
    requires IsMax(records, WatermarkKey(chain, emitter), newest) && listing[index] > newest - BACKFILL_COUNT
    ensures index / size < |pages| && index % size < |pages[index / size]|
    ensures pages[index / size][index % size] == listing[index]
  {
    var key := WatermarkKey(chain, emitter);
    ReplayIsMax(records, key);
    MaxIsUnique(records, key, newest, Mark(Replay(records), key));
    NothingNewLost(listing, size, Some(Replay(records)), false, chain, emitter, maxPages, pages, index);
  }

  predicate WhollyBelow(floor: nat, page: seq<nat>) { forall i :: 0 <= i < |page| ==> page[i] <= floor }

  lemma {:induction false} PagesDescend(listing: seq<nat>, size: nat, page: nat)
    requires size > 0 && NewestFirst(listing) && PageOf(listing, size, page + 1) != []
    ensures PageOf(listing, size, page) != [] && PageOf(listing, size, page)[0] > PageOf(listing, size, page + 1)[0]
  {
    PagesBefore(page, page + 1, size);
    PageStart(listing, size, page);
    PageStart(listing, size, page + 1);
  }

  /** At most one page wholly at or below the floor is yielded: the last. */
  lemma {:induction false} AtMostOnePageBelow(listing: seq<nat>, size: nat, floor: nat, maxPages: nat,
                                              pages: seq<seq<nat>>, i: nat)
    requires size > 0 && NewestFirst(listing)
    requires Harvested(page => Some(PageOf(listing, size, page)), page => false, floor, maxPages, pages)
    requires i < |pages| && WhollyBelow(floor, pages[i])
    ensures i == |pages| - 1
  {
    if i + 1 < |pages| {
      assert pages[i + 1] == PageOf(listing, size, i + 1);
      PagesDescend(listing, size, i);
    }
  }

  /** With the looked-up floor, at most one yielded page holds nothing above the watermark less five: the last. */
  lemma {:induction false} AtMostOneOldPage(listing: seq<nat>, size: nat, store: Store, chain: nat, emitter: string,
                                            maxPages: nat, pages: seq<seq<nat>>, i: nat)
    requires size > 0 && NewestFirst(listing)
    requires Harvested(page => Some(PageOf(listing, size, page)), page => false,
                       FloorFor(Some(store), false, chain, emitter), maxPages, pages)
    requires i < |pages|
    requires forall j :: 0 <= j < |pages[i]| ==> pages[i][j] <= Mark(store, WatermarkKey(chain, emitter)) - BACKFILL_COUNT
    ensures i == |pages| - 1
  {
    assert pages[i] != [];
    AtMostOnePageBelow(listing, size, FloorFor(Some(store), false, chain, emitter), maxPages, pages, i);
  }
}
