/**
 * The public catalogue: the auctions whose title contains the search text
 * (ignoring case) and whose category is the selected one, or any for 'All'.
 */
module AuctionList {
  import opened Js
  import opened Lists

  const AllCategories: string := "All"

  /** The category buttons. */
  const Categories: seq<string> := ["All", "Watches", "Art", "Automobiles", "Electronics", "Jewelry"]

  /** The catalogue entry fields the filter reads. */
  datatype Listing = Listing(id: int, title: string, category: string)

  /** The filter's predicate. */
  predicate Listed(a: Listing, search: string, category: string) {
    Includes(Lower(a.title), Lower(search)) && (category == AllCategories || a.category == category)
  }

  /** The callback of the filter. */
  function ListingFilter(search: string, category: string): Listing -> bool {
    (a: Listing) => Listed(a, search, category)
  }

  /** `filteredAuctions`: exactly the listed auctions, in the catalogue's order. */
  function FilteredAuctions(auctions: seq<Listing>, search: string, category: string): (r: seq<Listing>)
    ensures forall a :: a in r <==> a in auctions && Listed(a, search, category)
    ensures Sublist(r, auctions)
  {
    FilterIsSublist(auctions, ListingFilter(search, category));
    Filter(auctions, ListingFilter(search, category))
  }

  /** 'All' with an empty search lists the whole catalogue. */
  lemma EverythingByDefault(auctions: seq<Listing>)
    ensures FilteredAuctions(auctions, "", AllCategories) == auctions
  {
    forall k | 0 <= k < |auctions|
      ensures Listed(auctions[k], "", AllCategories)
    {
      EmptyIncluded(Lower(auctions[k].title));
    }
    FilterKeepsAll(auctions, ListingFilter("", AllCategories));
  }

  /**
   * The category comparison is exact: any category other than 'All' lists only
   * listings of exactly that category, so one differing only in case lists
   * nothing of the other, while the title search ignores case.
   */
  lemma CategoryIsCaseSensitive()
    ensures forall a: Listing, search: string, category: string ::
      category != AllCategories && a.category != category ==> !Listed(a, search, category)
    ensures !Listed(Listing(1, "Rolex", "Watches"), "", "watches")
    ensures Listed(Listing(1, "Rolex", "Watches"), "", "Watches")
    ensures Listed(Listing(1, "Rolex", "Watches"), "ROL", "Watches")
  {
    assert Lower("ROL") == "rol";
    assert Lower("Rolex") == "rolex";
    assert "rolex"[..3] == "rol";
    EmptyIncluded(Lower("Rolex"));
  }

  /** Narrowing to one category never lists more than 'All' with the same search. */
  lemma CategoryNarrows(auctions: seq<Listing>, search: string, category: string)
    ensures |FilteredAuctions(auctions, search, category)| <= |FilteredAuctions(auctions, search, AllCategories)|
  {
    FilterMonotone(auctions, ListingFilter(search, category), ListingFilter(search, AllCategories));
  }
}
