/** The page shell's own state: the lightbox cursor and the active price
    filter key, with the handlers the page wires to them. */
module App {
  import opened Services
  import opened Lightbox

  class Page {
    var lightboxIndex: Cursor
    var activePriceFilter: string

    /** The cursor always names one of the gallery's images when open. */
    ghost predicate Valid()
      reads this
    {
      InRange(lightboxIndex, GallerySize)
    }

    /** Lightbox closed, every service listed. */
    constructor ()
      ensures Valid() && lightboxIndex == Closed && activePriceFilter == AllKey
    {
      lightboxIndex := Closed;
      activePriceFilter := AllKey;
    }

    /** Clicking gallery thumbnail `idx`. */
    method OpenLightbox(idx: nat)
      requires Valid() && idx < GallerySize
      modifies this
      ensures Valid() && lightboxIndex == Open(idx)
      ensures activePriceFilter == old(activePriceFilter)
    {
      lightboxIndex := Open(idx);
    }

    /** The lightbox's "next" button (rendered only while it is open). */
    method ShowNext()
      requires Valid() && lightboxIndex.Open?
      modifies this
      ensures Valid() && lightboxIndex == Open(Next(old(lightboxIndex.index), GallerySize))
      ensures activePriceFilter == old(activePriceFilter)
    {
      lightboxIndex := Open(Next(lightboxIndex.index, GallerySize));
    }

    /** The lightbox's "previous" button (rendered only while it is open). */
    method ShowPrevious()
      requires Valid() && lightboxIndex.Open?
      modifies this
      ensures Valid() && lightboxIndex == Open(Prev(old(lightboxIndex.index), GallerySize))
      ensures activePriceFilter == old(activePriceFilter)
    {
      lightboxIndex := Open(Prev(lightboxIndex.index, GallerySize));
    }

    /** The close button or a click on the backdrop. */
    method CloseLightbox()
      requires Valid()
      modifies this
      ensures Valid() && lightboxIndex == Closed
      ensures activePriceFilter == old(activePriceFilter)
    {
      lightboxIndex := Closed;
    }

    /** A price filter button. */
    method SelectPriceFilter(key: string)
      requires Valid()
      modifies this
      ensures Valid() && activePriceFilter == key
      ensures lightboxIndex == old(lightboxIndex)
    {
      activePriceFilter := key;
    }

    /** The "current / total" counter while the lightbox is open. */
    function Counter(): (r: int)
      reads this
      requires Valid() && lightboxIndex.Open?
      ensures 1 <= r <= GallerySize
      ensures r == lightboxIndex.index + 1
    {
      CounterLabel(lightboxIndex.index, GallerySize)
    }

    /** The services the price section lists for the active filter: all of
        them for "all", exactly the PMU ones for "pmu", exactly the
        cosmetology ones for "cosmetology", in their original order. */
    function FilteredServices(): (r: seq<string>)
      reads this
      ensures IsSubsequence(r, ServiceIds)
      ensures activePriceFilter == AllKey ==> r == ServiceIds
      ensures activePriceFilter == PmuKey ==> r == PmuIds
      ensures activePriceFilter == CosmetologyKey ==> r == CosmetologyIds
    {
      PriceListIsOrderedSublist(ServiceIds, activePriceFilter);
      PmuPriceList();
      CosmetologyPriceList();
      PriceList(ServiceIds, activePriceFilter)
    }
  }
}
