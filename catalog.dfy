/**
 * The listing catalog: the `Property` record and the constant list of the eight
 * listings every page reads. Ratings, decimals with one place in the catalog,
 * are held as integer tenths (4.8 is 48).
 */
module Catalog {
  import opened Wrappers
  import opened Text

  datatype Property = Property(
    id: int,
    title: string,
    location: string,
    price: int,
    rating: int,
    image: string,
    roomType: string,
    amenities: seq<string>,
    hasWifi: bool,
    hasAC: bool,
    hasFood: bool,
    hasParking: bool,
    isFeatured: bool,
    city: string)

  const Properties: seq<Property> := [Listing1, Listing2, Listing3, Listing4, Listing5, Listing6, Listing7, Listing8]

  const Image1: string := "https://images.unsplash.com/photo-1522771739844-6a9f6d5f14af?ixlib=rb-4.0.3&auto=format&fit=crop&w=1200&q=80"
  const Listing1: Property := Property(
    id := 1, title := "Premium PG Near Tech Park", location := "Koramangala, Bangalore",
    price := 12000, rating := 48,
    image := Image1,
    roomType := "Single Room",
    amenities := ["WiFi", "AC", "Food", "Laundry", "Cleaning", "TV"],
    hasWifi := true, hasAC := true, hasFood := true, hasParking := true,
    isFeatured := true, city := "Bangalore")

  const Image2: string := "https://images.unsplash.com/photo-1560448204-603b3fc33ddc?ixlib=rb-4.0.3&auto=format&fit=crop&w=1200&q=80"
  const Listing2: Property := Property(
    id := 2, title := "Deluxe Co-living Space", location := "HSR Layout, Bangalore",
    price := 15000, rating := 49,
    image := Image2,
    roomType := "Private Room",
    amenities := ["WiFi", "AC", "Food", "Gym", "Recreation Room", "Housekeeping"],
    hasWifi := true, hasAC := true, hasFood := true, hasParking := false,
    isFeatured := true, city := "Bangalore")

  const Image3: string := "https://images.unsplash.com/photo-1554995207-c18c203602cb?ixlib=rb-4.0.3&auto=format&fit=crop&w=1200&q=80"
  const Listing3: Property := Property(
    id := 3, title := "Budget Friendly PG", location := "BTM Layout, Bangalore",
    price := 8000, rating := 42,
    image := Image3,
    roomType := "Shared Room",
    amenities := ["WiFi", "Food", "Common Area", "Laundry"],
    hasWifi := true, hasAC := false, hasFood := true, hasParking := false,
    isFeatured := false, city := "Bangalore")

  const Image4: string := "https://images.unsplash.com/photo-1540518614846-7eded433c457?ixlib=rb-4.0.3&auto=format&fit=crop&w=1200&q=80"
  const Listing4: Property := Property(
    id := 4, title := "Women's PG Near Metro", location := "Indiranagar, Bangalore",
    price := 10500, rating := 45,
    image := Image4,
    roomType := "Single Room",
    amenities := ["WiFi", "AC", "Food", "Laundry", "Security"],
    hasWifi := true, hasAC := true, hasFood := true, hasParking := false,
    isFeatured := false, city := "Bangalore")

  const Image5: string := "https://images.unsplash.com/photo-1502672260266-1c1ef2d93688?ixlib=rb-4.0.3&auto=format&fit=crop&w=1200&q=80"
  const Listing5: Property := Property(
    id := 5, title := "Luxury PG with Terrace", location := "Powai, Mumbai",
    price := 18000, rating := 47,
    image := Image5,
    roomType := "Private Room",
    amenities := ["WiFi", "AC", "Food", "Gym", "Terrace Garden", "TV"],
    hasWifi := true, hasAC := true, hasFood := true, hasParking := true,
    isFeatured := true, city := "Mumbai")

  const Image6: string := "https://images.unsplash.com/photo-1567767292278-a4f21aa2d36e?ixlib=rb-4.0.3&auto=format&fit=crop&w=1200&q=80"
  const Listing6: Property := Property(
    id := 6, title := "Working Professional PG", location := "Andheri, Mumbai",
    price := 14000, rating := 44,
    image := Image6,
    roomType := "Single Room",
    amenities := ["WiFi", "AC", "Food", "Work Desk", "Power Backup"],
    hasWifi := true, hasAC := true, hasFood := true, hasParking := false,
    isFeatured := false, city := "Mumbai")

  const Image7: string := "https://images.unsplash.com/photo-1505693416388-ac5ce068fe85?ixlib=rb-4.0.3&auto=format&fit=crop&w=1200&q=80"
  const Listing7: Property := Property(
    id := 7, title := "Centrally Located PG", location := "Connaught Place, Delhi",
    price := 13500, rating := 43,
    image := Image7,
    roomType := "Double Sharing",
    amenities := ["WiFi", "AC", "Food", "Housekeeping", "Security"],
    hasWifi := true, hasAC := true, hasFood := true, hasParking := false,
    isFeatured := false, city := "Delhi")

  const Image8: string := "https://images.unsplash.com/photo-1513694203232-719a280e022f?ixlib=rb-4.0.3&auto=format&fit=crop&w=1200&q=80"
  const Listing8: Property := Property(
    id := 8, title := "Student Housing Near University", location := "North Campus, Delhi",
    price := 9000, rating := 40,
    image := Image8,
    roomType := "Triple Sharing",
    amenities := ["WiFi", "Food", "Study Area", "Library", "Common Room"],
    hasWifi := true, hasAC := false, hasFood := true, hasParking := false,
    isFeatured := false, city := "Delhi")

  /** `properties.find(p => p.id === id)`: the first listing carrying `id`, if any. */
  function Find(catalog: seq<Property>, id: int): (r: Option<Property>)
    ensures r.None? <==> forall p :: p in catalog ==> p.id != id
    ensures r.Some? ==> exists k :: 0 <= k < |catalog| && catalog[k] == r.value && r.value.id == id &&
                                  forall j :: 0 <= j < k ==> catalog[j].id != id
  {
    if catalog == [] then None
    else if catalog[0].id == id then Some(catalog[0])
    else
      var r := Find(catalog[1..], id);
      assert r.Some? ==> exists k :: 0 <= k < |catalog[1..]| && catalog[1..][k] == r.value && r.value.id == id &&
                                    forall j :: 0 <= j < k ==> catalog[1..][j].id != id;
      r
  }

  /**
   * The listing a route's `:id` names. The parameter is read as a number; `None`
   * stands for a parameter that is not a number, which matches no listing.
   */
  function LookupId(catalog: seq<Property>, id: Option<int>): Option<Property> {
    match id
    case None => None
    case Some(n) => Find(catalog, n)
  }

  /** Ids run from 1 to 8 in catalog order, so they are distinct and ascending. */
  lemma IdsAreOneToEight()
    ensures |Properties| == 8
    ensures forall i :: 0 <= i < |Properties| ==> Properties[i].id == i + 1
  {
  }

  /** Every listing id 1..8 is found, and it is the listing at position id - 1. */
  lemma FindCatalogId(id: int)
    requires 1 <= id <= 8
    ensures Find(Properties, id) == Some(Properties[id - 1])
  {
    IdsAreOneToEight();
  }

  /** An id outside 1..8, or a parameter that is not a number, names no listing. */
  lemma LookupMiss(id: Option<int>)
    requires id.None? || id.value < 1 || id.value > 8
    ensures LookupId(Properties, id) == None
  {
    IdsAreOneToEight();
  }

  /**
   * What every catalog listing satisfies: a monthly rent between 8000 and 18000, a
   * rating between 4.0 and 4.9, and a location written "<area>, <city>".
   */
  predicate WellFormedListing(p: Property) {
    && 8000 <= p.price <= 18000
    && 40 <= p.rating <= 49
    && EndsWith(p.location, ", " + p.city)
  }

  lemma Listing1WellFormed() ensures WellFormedListing(Listing1) {}
  lemma Listing2WellFormed() ensures WellFormedListing(Listing2) {}
  lemma Listing3WellFormed() ensures WellFormedListing(Listing3) {}
  lemma Listing4WellFormed() ensures WellFormedListing(Listing4) {}
  lemma Listing5WellFormed() ensures WellFormedListing(Listing5) {}
  lemma Listing6WellFormed() ensures WellFormedListing(Listing6) {}
  lemma Listing7WellFormed() ensures WellFormedListing(Listing7) {}
  lemma Listing8WellFormed() ensures WellFormedListing(Listing8) {}

  /** Every listing of the catalog is well formed. */
  lemma ListingsWellFormed()
    ensures forall p :: p in Properties ==> WellFormedListing(p)
  {
    Listing1WellFormed();
    Listing2WellFormed();
    Listing3WellFormed();
    Listing4WellFormed();
    Listing5WellFormed();
    Listing6WellFormed();
    Listing7WellFormed();
    Listing8WellFormed();
  }

  /** Exactly listings 1, 2 and 5 are featured. */
  lemma FeaturedAreOneTwoFive()
    ensures forall p :: p in Properties ==> (p.isFeatured <==> p.id in {1, 2, 5})
  {
  }

  /** The catalog covers three cities. */
  lemma CitySet()
    ensures (set p | p in Properties :: p.city) == {"Bangalore", "Mumbai", "Delhi"}
  {
  }

  /**
   * The amenity names and the amenity flags are not kept consistent: listings 1 and 5
   * have the parking flag set but no "Parking" amenity name.
   */
  lemma AmenityNamesDisagreeWithFlags()
    ensures Properties[0].id == 1 && Properties[0].hasParking && "Parking" !in Properties[0].amenities
    ensures Properties[4].id == 5 && Properties[4].hasParking && "Parking" !in Properties[4].amenities
  {
  }
}
