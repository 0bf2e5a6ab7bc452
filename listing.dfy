/**
 * The listing page's query engine: the filter controls, the chain of filters the
 * page runs over a copy of the catalog, the four orderings it can sort by, the
 * reset of the controls, and the list of cities offered for selection.
 */
module ListingQuery {
  import opened Wrappers
  import opened Text
  import opened Seqs
  import opened Sorting
  import opened Catalog

  /** The values of the page's filter and sort controls. */
  datatype Controls = Controls(
    selectedCity: string,
    priceMin: int,
    priceMax: int,
    wifi: bool,
    ac: bool,
    food: bool,
    parking: bool,
    sortOption: string)

  /** The controls as the page opens and as "clear filters" leaves them. */
  const DefaultControls := Controls("", 0, 20000, false, false, false, false, "featured")

  /**
   * The listings the page must show, stated on its own: a listing qualifies when it
   * is in the chosen city (any city if none is chosen; letters compared without
   * case), its rent lies within the range with both ends included, and it has every
   * amenity whose box is ticked.
   */
  predicate Passes(p: Property, c: Controls) {
    && (c.selectedCity == "" || ToLower(p.city) == ToLower(c.selectedCity))
    && c.priceMin <= p.price <= c.priceMax
    && (c.wifi ==> p.hasWifi)
    && (c.ac ==> p.hasAC)
    && (c.food ==> p.hasFood)
    && (c.parking ==> p.hasParking)
  }

  function PassesFor(c: Controls): Property -> bool {
    (p: Property) => Passes(p, c)
  }

  /** `price_low`: cheaper first. */
  function PriceLow(a: Property, b: Property): int {
    a.price - b.price
  }

  /** `price_high`: dearer first. */
  function PriceHigh(a: Property, b: Property): int {
    b.price - a.price
  }

  /** `rating`: better rated first. */
  function RatingFirst(a: Property, b: Property): int {
    b.rating - a.rating
  }

  /** Any other option: featured listings first, then better rated first. */
  function FeaturedFirst(a: Property, b: Property): int {
    if a.isFeatured == b.isFeatured then b.rating - a.rating
    else if a.isFeatured then -1
    else 1
  }

  /** The comparator the page sorts with for a sort option. */
  function Comparator(sortOption: string): (Property, Property) -> int {
    if sortOption == "price_low" then PriceLow
    else if sortOption == "price_high" then PriceHigh
    else if sortOption == "rating" then RatingFirst
    else FeaturedFirst
  }

  /** What the page shows for the controls `c`: the qualifying listings, sorted stably. */
  function Query(catalog: seq<Property>, c: Controls): seq<Property> {
    SortSeq(Filter(catalog, PassesFor(c)), Comparator(c.sortOption))
  }

  /** Each of the four comparators orders listings consistently. */
  lemma ComparatorConsistent(sortOption: string)
    ensures Consistent(Comparator(sortOption))
  {
  }

  /** Two listings tie under a sort option exactly when they agree on its key. */
  lemma TiedIff(sortOption: string, a: Property, b: Property)
    ensures Tied(Comparator(sortOption), a, b) <==>
      if sortOption == "price_low" || sortOption == "price_high" then a.price == b.price
      else if sortOption == "rating" then a.rating == b.rating
      else a.isFeatured == b.isFeatured && a.rating == b.rating
  {
  }

  /**
   * The result is a permutation of exactly the catalog listings that qualify: a
   * listing occurs in it as often as in the catalog if it qualifies, and not at all
   * otherwise; so the result is never longer than the catalog.
   */
  lemma QueryMembership(catalog: seq<Property>, c: Controls)
    ensures forall p :: multiset(Query(catalog, c))[p] == if Passes(p, c) then multiset(catalog)[p] else 0
    ensures forall p :: p in Query(catalog, c) <==> p in catalog && Passes(p, c)
    ensures |Query(catalog, c)| <= |catalog|
  {
    var kept := Filter(catalog, PassesFor(c));
    SortSeqPermutes(kept, Comparator(c.sortOption));
    FilterCount(catalog, PassesFor(c));
    assert forall p :: p in Query(catalog, c) <==> p in multiset(Query(catalog, c));
  }

  /** A price range whose lower end exceeds its upper end leaves nothing. */
  lemma InvertedRangeIsEmpty(catalog: seq<Property>, c: Controls)
    requires c.priceMin > c.priceMax
    ensures Query(catalog, c) == []
  {
    QueryMembership(catalog, c);
  }

  /** The four amenity boxes of the page. */
  datatype AmenityBox = WifiBox | ACBox | FoodBox | ParkingBox

  /** The controls with one amenity box set to `on`. */
  function WithBox(c: Controls, box: AmenityBox, on: bool): Controls {
    match box
    case WifiBox => c.(wifi := on)
    case ACBox => c.(ac := on)
    case FoodBox => c.(food := on)
    case ParkingBox => c.(parking := on)
  }

  /** Whether a listing has the amenity of a box. */
  predicate HasBox(p: Property, box: AmenityBox) {
    match box
    case WifiBox => p.hasWifi
    case ACBox => p.hasAC
    case FoodBox => p.hasFood
    case ParkingBox => p.hasParking
  }

  /**
   * Ticking an amenity box keeps exactly the listings shown without it that have
   * that amenity.
   */
  lemma AmenityNarrows(catalog: seq<Property>, c: Controls, box: AmenityBox)
    ensures forall p :: p in Query(catalog, WithBox(c, box, true)) <==>
                        p in Query(catalog, WithBox(c, box, false)) && HasBox(p, box)
  {
    QueryMembership(catalog, WithBox(c, box, true));
    QueryMembership(catalog, WithBox(c, box, false));
  }

  /** With no city chosen, the city does not matter: a query for one city shows a subset. */
  lemma CityNarrows(catalog: seq<Property>, c: Controls, city: string)
    requires c.selectedCity == ""
    ensures forall p :: p in Query(catalog, c.(selectedCity := city)) <==>
                        p in Query(catalog, c) && (city == "" || ToLower(p.city) == ToLower(city))
  {
    QueryMembership(catalog, c.(selectedCity := city));
    QueryMembership(catalog, c);
  }

  /** The result is ordered as the sort option asks. */
  lemma {:induction false} QueryOrdered(catalog: seq<Property>, c: Controls)
    ensures var r := Query(catalog, c);
      forall i, j :: 0 <= i < j < |r| ==>
        if c.sortOption == "price_low" then r[i].price <= r[j].price
        else if c.sortOption == "price_high" then r[i].price >= r[j].price
        else if c.sortOption == "rating" then r[i].rating >= r[j].rating
        else (r[i].isFeatured || !r[j].isFeatured) &&
             (r[i].isFeatured == r[j].isFeatured ==> r[i].rating >= r[j].rating)
  {
    ComparatorConsistent(c.sortOption);
    SortSeqSorted(Filter(catalog, PassesFor(c)), Comparator(c.sortOption));
  }

  /**
   * Ties keep catalog order: the listings of the result that tie with `p` under the
   * sort option are the qualifying listings that tie with `p`, in catalog order.
   */
  lemma QueryStable(catalog: seq<Property>, c: Controls, p: Property)
    ensures var cmp := Comparator(c.sortOption);
      TiedWith(Query(catalog, c), cmp, p) == Filter(catalog, (x: Property) => Passes(x, c) && Tied(cmp, x, p))
  {
    var cmp := Comparator(c.sortOption);
    ComparatorConsistent(c.sortOption);
    SortSeqStable(Filter(catalog, PassesFor(c)), cmp, p);
    FilterFuse(catalog, PassesFor(c), TiedTo(cmp, p), (x: Property) => Passes(x, c) && Tied(cmp, x, p));
  }

  /** The city filter's test. */
  function InCity(city: string): Property -> bool {
    (p: Property) => ToLower(p.city) == ToLower(city)
  }

  /** The price filter's test, inclusive at both ends. */
  function InPriceRange(lo: int, hi: int): Property -> bool {
    (p: Property) => p.price >= lo && p.price <= hi
  }

  function HasWifi(p: Property): bool { p.hasWifi }
  function HasAC(p: Property): bool { p.hasAC }
  function HasFood(p: Property): bool { p.hasFood }
  function HasParking(p: Property): bool { p.hasParking }

  /** The city test, run only when a city is chosen, ahead of the price test. */
  lemma CityThenPrice(catalog: seq<Property>, c: Controls)
    requires !c.wifi && !c.ac && !c.food && !c.parking
    ensures var r := if c.selectedCity != "" then Filter(catalog, InCity(c.selectedCity)) else catalog;
      Filter(r, InPriceRange(c.priceMin, c.priceMax)) == Filter(catalog, PassesFor(c))
  {
    if c.selectedCity != "" {
      FilterFuse(catalog, InCity(c.selectedCity), InPriceRange(c.priceMin, c.priceMax), PassesFor(c));
    } else {
      FilterExt(catalog, InPriceRange(c.priceMin, c.priceMax), PassesFor(c));
    }
  }

  /**
   * One amenity test, run only when `on`, after the tests of `c`: together they are
   * the tests of `next`.
   */
  lemma AmenityStep(catalog: seq<Property>, c: Controls, next: Controls, on: bool, has: Property -> bool)
    requires forall p :: Passes(p, next) == (Passes(p, c) && (on ==> has(p)))
    ensures (if on then Filter(Filter(catalog, PassesFor(c)), has) else Filter(catalog, PassesFor(c))) ==
            Filter(catalog, PassesFor(next))
  {
    if on {
      FilterFuse(catalog, PassesFor(c), has, PassesFor(next));
    } else {
      FilterExt(catalog, PassesFor(c), PassesFor(next));
    }
  }

  /** The filter chain of the page's effect: yields the qualifying listings in catalog order. */
  method Narrow(catalog: seq<Property>, c: Controls) returns (r: seq<Property>)
    ensures r == Filter(catalog, PassesFor(c))
  {
    ghost var cityAndPrice := c.(wifi := false, ac := false, food := false, parking := false);
    r := catalog;
    if c.selectedCity != "" {
      r := Filter(r, InCity(c.selectedCity));
    }
    r := Filter(r, InPriceRange(c.priceMin, c.priceMax));
    CityThenPrice(catalog, cityAndPrice);
    if c.wifi {
      r := Filter(r, HasWifi);
    }
    AmenityStep(catalog, cityAndPrice, cityAndPrice.(wifi := c.wifi), c.wifi, HasWifi);
    if c.ac {
      r := Filter(r, HasAC);
    }
    AmenityStep(catalog, cityAndPrice.(wifi := c.wifi), cityAndPrice.(wifi := c.wifi, ac := c.ac), c.ac, HasAC);
    if c.food {
      r := Filter(r, HasFood);
    }
    AmenityStep(catalog, cityAndPrice.(wifi := c.wifi, ac := c.ac),
                cityAndPrice.(wifi := c.wifi, ac := c.ac, food := c.food), c.food, HasFood);
    if c.parking {
      r := Filter(r, HasParking);
    }
    AmenityStep(catalog, cityAndPrice.(wifi := c.wifi, ac := c.ac, food := c.food), c, c.parking, HasParking);
  }

  /**
   * The page's filter effect: narrows a copy of the catalog, sorts the survivors in
   * place with the comparator the sort option selects, and yields exactly
   * `Query(catalog, c)`.
   */
  method RunQuery(catalog: seq<Property>, c: Controls) returns (result: seq<Property>)
    ensures result == Query(catalog, c)
  {
    var r := Narrow(catalog, c);
    var a := new Property[|r|](i requires 0 <= i < |r| => r[i]);
    assert a[..] == r;
    if c.sortOption == "price_low" {
      SortInPlace(a, PriceLow);
    } else if c.sortOption == "price_high" {
      SortInPlace(a, PriceHigh);
    } else if c.sortOption == "rating" {
      SortInPlace(a, RatingFirst);
    } else {
      SortInPlace(a, FeaturedFirst);
    }
    result := a[..];
  }

  /** The catalog's cities, one entry per listing. */
  function CityColumn(catalog: seq<Property>): (r: seq<string>)
    ensures |r| == |catalog| && forall i :: 0 <= i < |catalog| ==> r[i] == catalog[i].city
  {
    seq(|catalog|, i requires 0 <= i < |catalog| => catalog[i].city)
  }

  /** The cities offered for selection: each catalog city once, in order of first appearance. */
  function Cities(): seq<string> {
    Dedup(CityColumn(Properties))
  }

  /** The offered cities are Bangalore, Mumbai and Delhi, in that order. */
  lemma CitiesListed()
    ensures Cities() == ["Bangalore", "Mumbai", "Delhi"]
  {
    assert CityColumn(Properties) ==
      ["Bangalore", "Bangalore", "Bangalore", "Bangalore", "Mumbai", "Mumbai", "Delhi", "Delhi"];
    DedupRuns("Bangalore", "Mumbai", "Delhi");
  }

  /** With the default controls the page shows every listing of the catalog. */
  lemma DefaultShowsAll()
    ensures multiset(Query(Properties, DefaultControls)) == multiset(Properties)
  {
    ListingsWellFormed();
    assert forall p :: p in Properties ==> Passes(p, DefaultControls);
    FilterAll(Properties, PassesFor(DefaultControls));
    SortSeqPermutes(Properties, Comparator(DefaultControls.sortOption));
  }

  /** The home page's featured section: the featured listings, in catalog order. */
  function Featured(catalog: seq<Property>): seq<Property> {
    Filter(catalog, (p: Property) => p.isFeatured)
  }

  /** Filtering eight elements of which exactly the first, second and fifth pass. */
  lemma FilterFirstSecondFifth<T(!new)>(s: seq<T>, keep: T -> bool)
    requires |s| == 8
    requires keep(s[0]) && keep(s[1]) && !keep(s[2]) && !keep(s[3])
    requires keep(s[4]) && !keep(s[5]) && !keep(s[6]) && !keep(s[7])
    ensures Filter(s, keep) == [s[0], s[1], s[4]]
  {
    assert s[..1][..0] == [];
    assert Filter(s[..1], keep) == [s[0]];
    assert s[..2][..1] == s[..1];
    assert Filter(s[..2], keep) == [s[0], s[1]];
    assert s[..3][..2] == s[..2];
    assert Filter(s[..3], keep) == [s[0], s[1]];
    assert s[..4][..3] == s[..3];
    assert Filter(s[..4], keep) == [s[0], s[1]];
    assert s[..5][..4] == s[..4];
    assert Filter(s[..5], keep) == [s[0], s[1], s[4]];
    assert s[..6][..5] == s[..5];
    assert Filter(s[..6], keep) == [s[0], s[1], s[4]];
    assert s[..7][..6] == s[..6];
    assert Filter(s[..7], keep) == [s[0], s[1], s[4]];
    assert s[..7] == s[..|s| - 1];
  }

  /** The featured section shows listings 1, 2 and 5, in that order. */
  lemma FeaturedListed()
    ensures Featured(Properties) == [Listing1, Listing2, Listing5]
    ensures forall p :: p in Featured(Properties) <==> p in Properties && p.id in {1, 2, 5}
  {
    FilterFirstSecondFifth(Properties, (p: Property) => p.isFeatured);
    FeaturedAreOneTwoFive();
  }

  /** The state of the listing page. */
  class ListingPage {
    var selectedCity: string
    var priceMin: int
    var priceMax: int
    var hasWifi: bool
    var hasAC: bool
    var hasFood: bool
    var hasParking: bool
    var sortOption: string
    var filteredProperties: seq<Property>

    function CurrentControls(): Controls
      reads this
    {
      Controls(selectedCity, priceMin, priceMax, hasWifi, hasAC, hasFood, hasParking, sortOption)
    }

    /** The page opens with the default controls, showing the catalog as it stands. */
    constructor()
      ensures CurrentControls() == DefaultControls
      ensures filteredProperties == Properties
    {
      selectedCity := "";
      priceMin, priceMax := 0, 20000;
      hasWifi, hasAC, hasFood, hasParking := false, false, false, false;
      sortOption := "featured";
      filteredProperties := Properties;
    }

    /** A non-empty `city` parameter in the address selects that city; nothing else changes. */
    method SeedCityFromUrl(cityParam: Option<string>)
      modifies this
      ensures cityParam.Some? && cityParam.value != "" ==>
                CurrentControls() == old(CurrentControls()).(selectedCity := cityParam.value)
      ensures !(cityParam.Some? && cityParam.value != "") ==> CurrentControls() == old(CurrentControls())
      ensures filteredProperties == old(filteredProperties)
    {
      if cityParam.Some? && cityParam.value != "" {
        selectedCity := cityParam.value;
      }
    }

    /** The filter effect, run whenever a control changes. */
    method ApplyFilters()
      modifies this
      ensures filteredProperties == Query(Properties, CurrentControls())
      ensures CurrentControls() == old(CurrentControls())
    {
      filteredProperties := RunQuery(Properties, CurrentControls());
    }

    /** "Clear filters" puts every control back to its default; the list follows on the next effect run. */
    method ClearFilters()
      modifies this
      ensures CurrentControls() == DefaultControls
      ensures filteredProperties == old(filteredProperties)
    {
      selectedCity := "";
      priceMin, priceMax := 0, 20000;
      hasWifi := false;
      hasAC := false;
      hasFood := false;
      hasParking := false;
      sortOption := "featured";
    }
  }
}
