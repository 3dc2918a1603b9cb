/**
 * The paging of the playlist carousel (src/components/Carousel.tsx): the
 * integer arithmetic as functions, and the component's state (`currentIndex`,
 * `isAnimating`, `itemsPerPage` and the timers it arms) as an object whose
 * handlers update it.
 */
module Carousel {
  import opened Types

  /** `updateItemsPerPage` for a window `width` pixels wide. */
  function ItemsPerPage(width: int): (n: int)
    ensures 1 <= n <= 4
  {
    if width < 640 then 1
    else if width < 1024 then 2
    else if width < 1280 then 3
    else 4
  }

  /** A wider window never shows fewer playlists per page. */
  lemma ItemsPerPageMonotonic(narrow: int, wide: int)
    requires narrow <= wide
    ensures ItemsPerPage(narrow) <= ItemsPerPage(wide)
  {
  }

  /** `Math.max(1, Math.ceil(count / perPage))` */
  function TotalPages(count: nat, perPage: int): (pages: int)
    requires perPage >= 1
    ensures pages >= 1
    ensures count <= pages * perPage                  // every playlist has a page
    ensures pages == 1 || (pages - 1) * perPage < count   // no page is left empty
    ensures count == 0 ==> pages == 1
  {
    var n := count + perPage - 1;
    var q := n / perPage;
    assert n == q * perPage + n % perPage;
    assert q * perPage <= n < q * perPage + perPage;
    if q < 1 then 1 else q
  }

  /** JavaScript's `%` on integers: the remainder takes the dividend's sign. */
  function JsRem(a: int, b: int): (r: int)
    requires b > 0
    ensures a >= 0 ==> 0 <= r < b
    ensures a < 0 ==> -b < r <= 0
    ensures (a - r) % b == 0
  {
    if a >= 0 then
      ModOfMultiple(a / b, b);
      a % b
    else
      var m := (-a) % b;
      assert -a == ((-a) / b) * b + m;
      assert a - (-m) == (-((-a) / b)) * b;
      ModOfMultiple(-((-a) / b), b);
      -m
  }

  /** A multiple of `b` leaves no remainder. */
  lemma ModOfMultiple(k: int, b: int)
    requires b > 0
    ensures (k * b) % b == 0
  {
    var x := k * b;
    var q, m := x / b, x % b;
    assert x == q * b + m && 0 <= m < b;
    assert (k - q) * b == m;
    if k - q >= 1 {
      MulMonotonic(1, k - q, b);
    } else if k - q <= -1 {
      MulMonotonic(k - q, -1, b);
    }
  }

  /** `nextSlide`: `(prev + 1) % totalPages` */
  function NextPage(current: int, total: int): int
    requires total >= 1
  {
    JsRem(current + 1, total)
  }

  /** `prevSlide`: `(prev - 1 + totalPages) % totalPages` */
  function PrevPage(current: int, total: int): int
    requires total >= 1
  {
    JsRem(current - 1 + total, total)
  }

  /**
   * From any index the carousel can hold (the pages, and -1 for a playlist
   * it could not find), both arrows land on a page that exists.
   */
  lemma ArrowsStayInRange(current: int, total: int)
    requires total >= 1 && current >= -1
    ensures 0 <= NextPage(current, total) < total
    ensures 0 <= PrevPage(current, total) < total
  {
  }

  /** The arrows wrap around: past the last page is the first and before the first the last. */
  lemma ArrowsWrap(total: int)
    requires total >= 1
    ensures NextPage(total - 1, total) == 0
    ensures PrevPage(0, total) == total - 1
  {
  }

  /** A remainder of a dividend below twice the divisor. */
  lemma RemBelowTwice(a: int, b: int)
    requires b > 0 && 0 <= a < 2 * b
    ensures a % b == if a < b then a else a - b
  {
    var q := a / b;
    assert a == q * b + a % b;
    assert q == 0 || q == 1;
  }

  /**
   * With all playlists on one page neither arrow moves: `(0 + 1) % 1` and
   * `(0 - 1 + 1) % 1` are both 0. The index does not change, so the
   * `[currentIndex]` effect does not run again, and `NextSlide`/`PrevSlide`
   * leave the carousel animating with no timer armed to end it.
   */
  lemma OnePageArrowsStay(count: nat, perPage: int)
    requires 1 <= perPage && count <= perPage
    ensures TotalPages(count, perPage) == 1
    ensures NextPage(0, 1) == 0 && PrevPage(0, 1) == 0
  {
    var pages := TotalPages(count, perPage);
    if pages > 1 {
      MulMonotonic(1, pages - 1, perPage);
    }
  }

  /** On a page that exists, each arrow undoes the other. */
  lemma ArrowsInverse(page: int, total: int)
    requires 0 <= page < total
    ensures PrevPage(NextPage(page, total), total) == page
    ensures NextPage(PrevPage(page, total), total) == page
  {
    RemBelowTwice(page + 1, total);
    var next := NextPage(page, total);
    RemBelowTwice(next - 1 + total, total);
    RemBelowTwice(page - 1 + total, total);
    var prev := PrevPage(page, total);
    RemBelowTwice(prev + 1, total);
  }

  // ---------------------------------------------------------------------
  // Where a playlist is rendered and which page a click targets
  // ---------------------------------------------------------------------

  /** `playlists.findIndex(p => p.id === id)` */
  function PlaylistIndex(playlists: seq<Playlist>, id: string): (r: int)
    ensures -1 <= r < |playlists|
    ensures r >= 0 ==> playlists[r].id == id && forall k :: 0 <= k < r ==> playlists[k].id != id
    ensures r == -1 ==> forall k :: 0 <= k < |playlists| ==> playlists[k].id != id
  {
    if playlists == [] then -1
    else if playlists[0].id == id then 0
    else
      var i := PlaylistIndex(playlists[1..], id);
      assert forall k :: 1 <= k < |playlists| ==> playlists[k] == playlists[1..][k - 1];
      if i < 0 then -1 else i + 1
  }

  /** `Math.floor(playlistIndex / itemsPerPage)` */
  function TargetPage(playlists: seq<Playlist>, p: Playlist, perPage: int): int
    requires perPage >= 1
  {
    PlaylistIndex(playlists, p.id) / perPage
  }

  /**
   * The page loop renders `playlists[page * perPage + slot]` for each page
   * and slot: the playlist at index `i` is drawn on page `i / perPage` in
   * slot `i % perPage`, and that page is one of the `TotalPages` pages.
   */
  lemma RenderedOnItsPage(count: nat, perPage: int, i: nat)
    requires perPage >= 1 && i < count
    ensures (i / perPage) * perPage + i % perPage == i && 0 <= i % perPage < perPage
    ensures i / perPage < TotalPages(count, perPage)
  {
    var pages := TotalPages(count, perPage);
    var q := i / perPage;
    assert q * perPage <= i;
    if q >= pages {
      MulMonotonic(pages, q, perPage);
    }
  }

  /** No other page and slot draws the playlist at index `i`. */
  lemma RenderedOnce(perPage: int, i: nat, page: nat, slot: nat)
    requires perPage >= 1 && slot < perPage
    requires page * perPage + slot == i
    ensures page == i / perPage && slot == i % perPage
  {
    var q := i / perPage;
    assert q * perPage + i % perPage == i;
    if page < q {
      MulMonotonic(page + 1, q, perPage);
    } else if page > q {
      MulMonotonic(q + 1, page, perPage);
    }
  }

  lemma MulMonotonic(a: int, b: int, k: nat)
    requires a <= b
    ensures a * k <= b * k
  {
  }

  /**
   * A playlist click aims at the page the playlist is drawn on; for a
   * playlist not in the list the target is -1, which nothing guards.
   */
  lemma ClickTargetsItsPage(playlists: seq<Playlist>, p: Playlist, perPage: int, i: nat)
    requires perPage >= 1
    requires i < |playlists| && playlists[i].id == p.id
    requires forall k :: 0 <= k < i ==> playlists[k].id != p.id
    ensures TargetPage(playlists, p, perPage) == i / perPage
  {
    var r := PlaylistIndex(playlists, p.id);
    assert r != -1;
  }

  lemma AbsentPlaylistTargetsMinusOne(playlists: seq<Playlist>, p: Playlist, perPage: int)
    requires perPage >= 1
    requires forall k :: 0 <= k < |playlists| ==> playlists[k].id != p.id
    ensures TargetPage(playlists, p, perPage) == -1
  {
    assert PlaylistIndex(playlists, p.id) == -1;
  }

  // ---------------------------------------------------------------------
  // The component's state
  // ---------------------------------------------------------------------

  class CarouselState {
    var currentIndex: int
    var isAnimating: bool
    var itemsPerPage: int
    /** The 500 ms timer the `[currentIndex]` effect arms to end an animation. */
    var resetArmed: bool
    /** Playlists whose `handlePlaylistClick` timer has not fired yet, oldest first. */
    var pendingOpens: seq<Playlist>

    ghost predicate Valid()
      reads this
    {
      1 <= itemsPerPage <= 4 && currentIndex >= -1
    }

    /** Mounting: `updateItemsPerPage()` runs and the effect arms its timer. */
    constructor (width: int)
      ensures Valid()
      ensures currentIndex == 0 && !isAnimating && itemsPerPage == ItemsPerPage(width)
      ensures resetArmed && pendingOpens == []
    {
      currentIndex := 0;
      isAnimating := false;
      itemsPerPage := ItemsPerPage(width);
      resetArmed := true;
      pendingOpens := [];
    }

    /** The `resize` listener. */
    method Resize(width: int)
      requires Valid()
      modifies this
      ensures Valid()
      ensures itemsPerPage == ItemsPerPage(width)
      ensures currentIndex == old(currentIndex) && isAnimating == old(isAnimating)
      ensures resetArmed == old(resetArmed) && pendingOpens == old(pendingOpens)
    {
      itemsPerPage := ItemsPerPage(width);
    }

    /**
     * `nextSlide` with `count` playlists. The reset timer is armed only
     * when the index actually changes, so on a single page the carousel
     * stays animating.
     */
    method NextSlide(count: nat)
      requires Valid()
      modifies this
      ensures Valid()
      ensures old(isAnimating) ==>
        currentIndex == old(currentIndex) && isAnimating && resetArmed == old(resetArmed)
      ensures !old(isAnimating) ==>
        isAnimating &&
        currentIndex == NextPage(old(currentIndex), TotalPages(count, itemsPerPage)) &&
        0 <= currentIndex < TotalPages(count, itemsPerPage) &&
        resetArmed == (old(resetArmed) || currentIndex != old(currentIndex))
      ensures itemsPerPage == old(itemsPerPage) && pendingOpens == old(pendingOpens)
    {
      if isAnimating {
        return;
      }
      isAnimating := true;
      var total := TotalPages(count, itemsPerPage);
      var next := NextPage(currentIndex, total);
      ArrowsStayInRange(currentIndex, total);
      if next != currentIndex {
        resetArmed := true;
      }
      currentIndex := next;
    }

    /** `prevSlide` with `count` playlists. */
    method PrevSlide(count: nat)
      requires Valid()
      modifies this
      ensures Valid()
      ensures old(isAnimating) ==>
        currentIndex == old(currentIndex) && isAnimating && resetArmed == old(resetArmed)
      ensures !old(isAnimating) ==>
        isAnimating &&
        currentIndex == PrevPage(old(currentIndex), TotalPages(count, itemsPerPage)) &&
        0 <= currentIndex < TotalPages(count, itemsPerPage) &&
        resetArmed == (old(resetArmed) || currentIndex != old(currentIndex))
      ensures itemsPerPage == old(itemsPerPage) && pendingOpens == old(pendingOpens)
    {
      if isAnimating {
        return;
      }
      isAnimating := true;
      var total := TotalPages(count, itemsPerPage);
      var prev := PrevPage(currentIndex, total);
      ArrowsStayInRange(currentIndex, total);
      if prev != currentIndex {
        resetArmed := true;
      }
      currentIndex := prev;
    }

    /** A click on the dot of page `index`. */
    method DotClick(index: nat)
      requires Valid()
      modifies this
      ensures Valid()
      ensures old(isAnimating) ==>
        currentIndex == old(currentIndex) && isAnimating && resetArmed == old(resetArmed)
      ensures !old(isAnimating) ==>
        isAnimating && currentIndex == index &&
        resetArmed == (old(resetArmed) || index != old(currentIndex))
      ensures itemsPerPage == old(itemsPerPage) && pendingOpens == old(pendingOpens)
    {
      if !isAnimating {
        isAnimating := true;
        if index != currentIndex {
          resetArmed := true;
        }
        currentIndex := index;
      }
    }

    /**
     * `handlePlaylistClick(p)`: not guarded by `isAnimating`. When `p` is on
     * the page shown it opens at once (`openNow`); otherwise the carousel
     * moves to its page and opens it when the 500 ms timer fires.
     */
    method PlaylistClick(playlists: seq<Playlist>, p: Playlist) returns (openNow: bool)
      requires Valid()
      modifies this
      ensures Valid()
      ensures var target := TargetPage(playlists, p, old(itemsPerPage));
        openNow == (target == old(currentIndex)) &&
        (openNow ==>
          currentIndex == old(currentIndex) && isAnimating == old(isAnimating) &&
          resetArmed == old(resetArmed) && pendingOpens == old(pendingOpens)) &&
        (!openNow ==>
          currentIndex == target && isAnimating && resetArmed &&
          pendingOpens == old(pendingOpens) + [p])
      ensures itemsPerPage == old(itemsPerPage)
    {
      var target := TargetPage(playlists, p, itemsPerPage);
      if target != currentIndex {
        isAnimating := true;
        currentIndex := target;
        resetArmed := true;
        pendingOpens := pendingOpens + [p];
        openNow := false;
      } else {
        openNow := true;
      }
    }

    /** The effect's timer fires: the animation is over. */
    method ResetTimerFired()
      requires Valid() && resetArmed
      modifies this
      ensures Valid()
      ensures !isAnimating && !resetArmed
      ensures currentIndex == old(currentIndex) && itemsPerPage == old(itemsPerPage)
      ensures pendingOpens == old(pendingOpens)
    {
      isAnimating := false;
      resetArmed := false;
    }

    /** The oldest `handlePlaylistClick` timer fires and opens its playlist. */
    method OpenTimerFired() returns (target: Playlist)
      requires Valid() && pendingOpens != []
      modifies this
      ensures Valid()
      ensures !isAnimating && target == old(pendingOpens)[0] && pendingOpens == old(pendingOpens)[1..]
      ensures currentIndex == old(currentIndex) && itemsPerPage == old(itemsPerPage)
      ensures resetArmed == old(resetArmed)
    {
      isAnimating := false;
      target := pendingOpens[0];
      pendingOpens := pendingOpens[1..];
    }
  }
}
