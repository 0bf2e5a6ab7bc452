# Paying-guest marketplace: a Dafny model of its page logic

The system is a React front end for a marketplace of paying-guest rooms. Most of
it is rendering. This project models the rules the pages run, and proves what
those rules promise:

- the catalog of eight listings;
- the listing page's filter-and-sort query, its reset, its city list and the
  city taken from the address;
- the admin table's sort state machine, its case-insensitive search and its
  column sort;
- the booking page's amount due, its room-type preselection, its listing
  lookup and its date guard;
- the detail page's wrap-around picture carousel, its save toggle and its
  price breakdown;
- the two listing-entry forms: the bounded picture list with previews,
  single-field record updates, and the submit checks;
- access control: the authentication context's transitions, the route guard,
  and the login and sign-up handlers.

Every module corresponds to one source file. Five helper modules serve them:

- `Wrappers`: the `Option` type for lookups and navigations.
- `Text`: ASCII lower-casing, substring search and JavaScript string `<`.
- `Seqs`: an order-preserving `Filter` and first-occurrence deduplication.
- `Sorting`: `Array.prototype.sort`. Its functional specification `SortSeq` is
  a stable insertion sort. `SortInPlace` sorts an array in place and is proved
  to produce exactly `SortSeq` of the old contents.
- `FormParts`: the amenity boxes and the picture and preview lists that both
  entry forms share.

A page's state becomes a class whose methods are its handlers and effects. Each
method states its new state outright, and in most cases ties it to a
specification function. The lemmas about those functions carry the properties.

Modelling conventions:

- Ratings are integer tenths: 4.8 is `48`.
- A route's `:id` arrives as `Option<int>`, where `None` is a parameter that is
  not a number.
- A navigation is an `Option<string>` result, where `None` means the page stays.
- A preview address is the token `ObjectUrl(file)`.
- The answers of the authentication service and of the role store are method
  parameters.

Two behaviours of the code are easy to misread, and the model follows the code in both:

- An unknown sort option sorts like "featured", as the final `else` of
  `PGListPage.tsx` does. No error is raised.
- The admin comparator never returns 0. For two rows with equal keys it
  returns -1 both ways, so the tie order depends on which pairs a sort engine
  asks about. The model promises a permutation and an order for the admin
  table, but no tie order.

## Model

| member | source | states |
|---|---|---|
| Catalog.Find | src/pages/BookingPage.tsx:33 | `properties.find`: `None` exactly when no listing carries the id; otherwise the first listing that does |
| Catalog.LookupId | src/pages/BookingPage.tsx:33 | the listing a route's id names: a parameter that is not a number names none, and a number is looked up with `Find`, whose contract states the result |
| Catalog.IdsAreOneToEight | src/data/properties.ts:20-157 | the catalog has eight listings, and the one at position i has id i+1, so ids are distinct and ascending |
| Catalog.FindCatalogId | src/data/properties.ts:20-157 | every id 1..8 finds the listing at position id-1 |
| Catalog.LookupMiss | src/pages/BookingPage.tsx:33 | an id outside 1..8, or a parameter that is not a number, finds nothing |
| Catalog.ListingsWellFormed | src/data/properties.ts:20-157 | every listing has a rent in 8000..18000, a rating in 4.0..4.9, and a location ending in ", " + its city |
| Catalog.FeaturedAreOneTwoFive | src/data/properties.ts:35-103 | a listing is featured exactly when its id is 1, 2 or 5 |
| Catalog.CitySet | src/data/properties.ts:36-155 | the set of catalog cities is {Bangalore, Mumbai, Delhi} |
| Catalog.AmenityNamesDisagreeWithFlags | src/data/properties.ts:21-105 | listings 1 and 5 set the parking flag but name no "Parking" amenity, so names and flags are not kept consistent |
| Text.ToLower | src/pages/PGListPage.tsx:47 | lower-casing keeps the length and maps each character on its own |
| Text.ContainsEmpty | src/components/admin/AdminPropertyList.tsx:26-29 | every string contains the empty string |
| Text.StrLessAsymmetric | src/components/admin/AdminPropertyList.tsx:33 | string `<` never holds both ways |
| Text.StrLessTotal | src/components/admin/AdminPropertyList.tsx:33 | two different strings are ordered one way or the other |
| Text.StrLessTransitive | src/components/admin/AdminPropertyList.tsx:33 | string `<` is transitive |
| Text.StrNotGreaterTransitive | src/components/admin/AdminPropertyList.tsx:33 | "not greater" on strings is transitive |
| Seqs.Filter | src/pages/PGListPage.tsx:46-60 | `filter` never lengthens its input |
| Seqs.FilterCount | src/pages/PGListPage.tsx:46-60 | an element kept by the test occurs in the result as often as in the input; any other element does not occur |
| Seqs.FilterFuse | src/pages/PGListPage.tsx:46-60 | two filters in a row are one filter on the conjunction of their tests |
| Seqs.FilterCommute | src/pages/PGListPage.tsx:57-60 | the order of two filters does not matter |
| Seqs.FilterAll | src/components/admin/AdminPropertyList.tsx:26-29 | a test that keeps every element leaves the input unchanged |
| Seqs.DedupSpec | src/pages/PGListPage.tsx:91 | `[...new Set(xs)]` holds the elements of xs, each once, in order of first occurrence |
| Seqs.Dedup | src/pages/PGListPage.tsx:91 | `[...new Set(xs)]` is never longer than its input; `DedupSpec` states its contents and order |
| Sorting.SortSeqPermutes | src/pages/PGListPage.tsx:63-75 | the sort only reorders: the result is a permutation of its input |
| Sorting.SortSeqSorted | src/pages/PGListPage.tsx:63-75 | for a consistent comparator, no element is followed by one it must come after |
| Sorting.SortSeqStable | src/pages/PGListPage.tsx:63-75 | the elements tied with any given element keep their input order |
| Sorting.Insert | src/pages/PGListPage.tsx:63-75 | one step of the reference sort adds exactly one element; `InsertAt` states where it lands |
| Sorting.SortSeq | src/pages/PGListPage.tsx:63-75 | the reference sort keeps the length of its input; `SortSeqPermutes`, `SortSeqSorted` and `SortSeqStable` state the rest |
| Sorting.InsertAt | src/pages/PGListPage.tsx:63-75 | an inserted element lands right after the last element it need not follow, with all later elements following it |
| Sorting.InsertInPlace | src/pages/PGListPage.tsx:64 | one step of the in-place sort inserts `a[i]` into the sorted prefix and leaves the rest of the array alone |
| Sorting.SortInPlace | src/pages/PGListPage.tsx:63-75 | `result.sort(cmp)` leaves the array holding exactly `SortSeq` of its old contents |
| ListingQuery.Passes | src/pages/PGListPage.tsx:44-60 | the listing test: the chosen city without case, the rent within the range with both ends included, and every ticked amenity; `QueryMembership` and `Narrow` state its use |
| ListingQuery.PriceLow | src/pages/PGListPage.tsx:64 | the `price_low` comparator, cheaper first; `ComparatorConsistent` and `TiedIff` state its order |
| ListingQuery.PriceHigh | src/pages/PGListPage.tsx:66 | the `price_high` comparator, dearer first; `ComparatorConsistent` and `TiedIff` state its order |
| ListingQuery.RatingFirst | src/pages/PGListPage.tsx:68 | the `rating` comparator, better rated first; `ComparatorConsistent` and `TiedIff` state its order |
| ListingQuery.FeaturedFirst | src/pages/PGListPage.tsx:71-74 | the default comparator, featured first and then better rated first; `ComparatorConsistent` and `TiedIff` state its order |
| ListingQuery.Comparator | src/pages/PGListPage.tsx:63-75 | the comparator chosen by the sort option, with any unknown option sorting like "featured"; `QueryOrdered` states the order each gives |
| ListingQuery.Query | src/pages/PGListPage.tsx:42-78 | the list the page shows: the qualifying listings sorted stably by the option's comparator; `QueryMembership`, `QueryOrdered` and `QueryStable` state its properties |
| ListingQuery.ComparatorConsistent | src/pages/PGListPage.tsx:63-75 | each of the four comparators orders consistently |
| ListingQuery.TiedIff | src/pages/PGListPage.tsx:63-75 | two listings tie exactly when they agree on the option's key: price, rating, or featured flag and rating |
| ListingQuery.QueryMembership | src/pages/PGListPage.tsx:42-60 | the result is a permutation of exactly the qualifying catalog listings, so it is never longer than the catalog |
| ListingQuery.InvertedRangeIsEmpty | src/pages/PGListPage.tsx:52-54 | a price range whose lower end exceeds its upper end shows nothing |
| ListingQuery.AmenityNarrows | src/pages/PGListPage.tsx:57-60 | ticking any one of the four amenity boxes keeps exactly the listings shown without it that have that amenity |
| ListingQuery.CityNarrows | src/pages/PGListPage.tsx:45-49 | an empty city excludes nothing; a chosen city keeps exactly the listings whose lower-cased city equals it lower-cased |
| ListingQuery.QueryOrdered | src/pages/PGListPage.tsx:63-75 | price_low is ascending by price, price_high descending, rating descending by rating; any other option puts featured first, then rating descending |
| ListingQuery.QueryStable | src/pages/PGListPage.tsx:63-75 | listings tied under the option appear in catalog order |
| ListingQuery.CityThenPrice | src/pages/PGListPage.tsx:45-54 | the optional city filter followed by the price filter keeps the listings that pass both tests |
| ListingQuery.AmenityStep | src/pages/PGListPage.tsx:57-60 | a flag-guarded amenity filter adds exactly its test to those already applied |
| ListingQuery.Narrow | src/pages/PGListPage.tsx:42-60 | the filter chain yields the qualifying listings in catalog order |
| ListingQuery.RunQuery | src/pages/PGListPage.tsx:40-78 | the effect, which narrows a copy and sorts it in place, yields exactly the specified query result |
| ListingQuery.CityColumn | src/pages/PGListPage.tsx:91 | `properties.map(p => p.city)`: one city per listing, in catalog order |
| ListingQuery.Cities | src/pages/PGListPage.tsx:91 | the offered cities, each catalog city once in order of first appearance; `CitiesListed` states them |
| ListingQuery.CitiesListed | src/pages/PGListPage.tsx:91 | the offered cities are Bangalore, Mumbai and Delhi, in that order |
| ListingQuery.DefaultShowsAll | src/pages/PGListPage.tsx:20-26 | with the default controls, every catalog listing is shown |
| ListingQuery.Featured | src/pages/HomePage.tsx:12 | the featured listings in catalog order; `FeaturedListed` states them |
| ListingQuery.FilterFirstSecondFifth | src/pages/HomePage.tsx:12 | filtering eight elements of which only the first, second and fifth pass yields exactly those three, in order |
| ListingQuery.FeaturedListed | src/pages/HomePage.tsx:12 | the featured section shows exactly listings 1, 2 and 5, in that order, and a catalog listing appears there exactly when it is featured |
| ListingQuery.ListingPage.constructor | src/pages/PGListPage.tsx:16-26 | the page opens with the default controls and the whole catalog |
| ListingQuery.ListingPage.SeedCityFromUrl | src/pages/PGListPage.tsx:28-38 | a non-empty `city` parameter selects that city; anything else changes nothing |
| ListingQuery.ListingPage.ApplyFilters | src/pages/PGListPage.tsx:40-78 | the shown list becomes the query result for the current controls; the controls and the catalog are untouched |
| ListingQuery.ListingPage.ClearFilters | src/pages/PGListPage.tsx:80-88 | city "", range 0..20000, all boxes clear, sort "featured" |
| AdminList.ClickHeader | src/components/admin/AdminPropertyList.tsx:17-24 | a click on the sorted column flips the direction; a click on another column sorts by it ascending |
| AdminList.ClickTwiceRestores | src/components/admin/AdminPropertyList.tsx:18-19 | two clicks on the sorted column restore the sort state |
| AdminList.ClickAwayAndBack | src/components/admin/AdminPropertyList.tsx:20-23 | clicking another column and back sorts ascending, whatever the direction was before |
| AdminList.Greater | src/components/admin/AdminPropertyList.tsx:33-35 | `a[f] > b[f]` per column: numbers by value, strings by JavaScript `<`, `true > false`; `GreaterOrders` states its laws |
| AdminList.AdminCompare | src/components/admin/AdminPropertyList.tsx:31-37 | the table comparator for the sort state; `NeverZero`, `EqualKeysFirstBothWays` and `AdminCompareConsistent` state its behaviour |
| AdminList.NeverZero | src/components/admin/AdminPropertyList.tsx:31-37 | the table comparator returns only 1 or -1 |
| AdminList.EqualKeysFirstBothWays | src/components/admin/AdminPropertyList.tsx:33-35 | for two rows with equal keys the comparator returns -1 both ways, so each call puts its first argument first |
| AdminList.GreaterOrders | src/components/admin/AdminPropertyList.tsx:33-35 | on every column, `>` is asymmetric and "not greater" is transitive |
| AdminList.AdminCompareConsistent | src/components/admin/AdminPropertyList.tsx:31-37 | the table comparator orders consistently in both directions |
| AdminList.Matches | src/components/admin/AdminPropertyList.tsx:26-29 | the search test: the lower-cased term occurs in the lower-cased title or location |
| AdminList.Search | src/components/admin/AdminPropertyList.tsx:26-29 | the matching listings in catalog order; `SearchMembership` and `EmptyTermFindsAll` state its result |
| AdminList.SearchMembership | src/components/admin/AdminPropertyList.tsx:26-29 | a listing is found exactly when the lower-cased term occurs in its lower-cased title or location |
| AdminList.EmptyTermFindsAll | src/components/admin/AdminPropertyList.tsx:26-29 | the empty term finds the whole catalog, in order |
| AdminList.SortedRows | src/components/admin/AdminPropertyList.tsx:31-37 | the rows are a permutation of the found listings, non-decreasing in the column for asc and non-increasing for desc |
| AdminList.AdminPropertyList.constructor | src/components/admin/AdminPropertyList.tsx:13-15 | the table opens with an empty search, sorted by id ascending |
| AdminList.AdminPropertyList.HandleSort | src/components/admin/AdminPropertyList.tsx:17-24 | the sort state moves as `ClickHeader` says, and the search term is kept |
| AdminList.AdminPropertyList.SetSearchTerm | src/components/admin/AdminPropertyList.tsx:13 | the search term is replaced and the sort state kept |
| AdminList.AdminPropertyList.Rows | src/components/admin/AdminPropertyList.tsx:26-37 | the rows shown for the current search and sort |
| Booking.QuoteFor | src/pages/BookingPage.tsx:44-46 | the rent, a deposit of one month's rent and the fixed fee of 1000; `TotalIsTwoRentsAndFee` states it |
| Booking.TotalAmount | src/pages/BookingPage.tsx:43-49 | `getTotalAmount`, the three amounts added up; `TotalIsTwoRentsAndFee` and `TotalAtLeastFee` state its value |
| Booking.TotalIsTwoRentsAndFee | src/pages/BookingPage.tsx:43-49 | the total is price + price + 1000, and the deposit equals one month's rent |
| Booking.TotalDependsOnPriceOnly | src/pages/BookingPage.tsx:43-49 | two listings with the same rent have the same total |
| Booking.TotalAtLeastFee | src/pages/BookingPage.tsx:46-48 | for a rent that is not negative the total is at least 1000, and it grows with the rent |
| Booking.CatalogTotalsInRange | src/pages/BookingPage.tsx:43-49 | every catalog listing costs between 17000 and 37000 on booking |
| Booking.RoomTypeFor | src/pages/BookingPage.tsx:36 | the preselected room type, "single" when the lower-cased type includes "single" and "shared" otherwise; the lemmas below state it per room type |
| Booking.PrivateRoomCountsAsShared | src/pages/BookingPage.tsx:36 | a "Private Room" listing is preselected as "shared" |
| Booking.SingleRoomCountsAsSingle | src/pages/BookingPage.tsx:36 | a "Single Room" listing is preselected as "single" |
| Booking.SharedRoomCountsAsShared | src/pages/BookingPage.tsx:36 | a "Shared Room" listing is preselected as "shared" |
| Booking.DoubleSharingCountsAsShared | src/pages/BookingPage.tsx:36 | a "Double Sharing" listing is preselected as "shared" |
| Booking.TripleSharingCountsAsShared | src/pages/BookingPage.tsx:36 | a "Triple Sharing" listing is preselected as "shared" |
| Booking.RoomTypesByPosition | src/pages/BookingPage.tsx:36 | listings 1, 4 and 6 are preselected as "single" and the other five as "shared" |
| Booking.CatalogRoomTypes | src/pages/BookingPage.tsx:36 | across the catalog, a listing is preselected as "single" exactly when its id is 1, 4 or 6 |
| Booking.BookingPage.constructor | src/pages/BookingPage.tsx:22-29 | the page starts on the first listing with no date, duration "1", room type "single" and payment "card" |
| Booking.BookingPage.LoadProperty | src/pages/BookingPage.tsx:31-41 | a found id selects the listing and preselects its room type; a miss navigates to "/not-found" and keeps the state |
| Booking.BookingPage.GetTotalAmount | src/pages/BookingPage.tsx:43-49 | the amount the page shows as due, `TotalAmount` of the shown listing; `TotalIgnoresChoices` states what it ignores |
| Booking.BookingPage.SetMoveInDate | src/pages/BookingPage.tsx:26 | the date is replaced and the rest of the booking state kept |
| Booking.BookingPage.HandleSubmit | src/pages/BookingPage.tsx:51-71 | no move-in date means no navigation; otherwise the page navigates to "/" |
| Booking.TotalIgnoresChoices | src/pages/BookingPage.tsx:43-49 | the amount due ignores the duration, room type, payment method and date |
| Detail.Images | src/pages/PropertyDetailPage.tsx:42-47 | the gallery has four pictures, the listing's own first |
| Detail.NextIndex | src/pages/PropertyDetailPage.tsx:53-55 | the right arrow moves to (i + 1) mod 4 and stays within 0..3 |
| Detail.PrevIndex | src/pages/PropertyDetailPage.tsx:49-51 | the left arrow moves to (i + 3) mod 4 and stays within 0..3 |
| Detail.ArrowsUndoEachOther | src/pages/PropertyDetailPage.tsx:49-55 | next then previous, and previous then next, return to the starting picture |
| Detail.NextClicksWrap | src/pages/PropertyDetailPage.tsx:53-55 | k clicks on the right arrow advance by k modulo 4 |
| Detail.FourClicksComeBack | src/pages/PropertyDetailPage.tsx:49-55 | four clicks on either arrow come back to the starting picture |
| Detail.BreakdownFor | src/pages/PropertyDetailPage.tsx:353-371 | the breakdown beside the booking button: rent, deposit, a fee of 1000 and the total; `BreakdownAgreesWithBooking` states how they relate |
| Detail.BreakdownAgreesWithBooking | src/pages/PropertyDetailPage.tsx:353-371 | the breakdown's lines add up to its total, and it agrees with the booking page's quote and total |
| Detail.PropertyDetailPage.constructor | src/pages/PropertyDetailPage.tsx:28-30 | the page starts on the first listing, on the first picture, and not saved |
| Detail.PropertyDetailPage.LoadProperty | src/pages/PropertyDetailPage.tsx:32-39 | a found id replaces the shown listing; a miss keeps it |
| Detail.PropertyDetailPage.HandlePrevImage | src/pages/PropertyDetailPage.tsx:49-51 | the picture index moves as `PrevIndex` says and stays within the gallery |
| Detail.PropertyDetailPage.HandleNextImage | src/pages/PropertyDetailPage.tsx:53-55 | the picture index moves as `NextIndex` says and stays within the gallery |
| Detail.PropertyDetailPage.HandleSaveProperty | src/pages/PropertyDetailPage.tsx:57-58 | the saved mark is negated, so two toggles restore it |
| FormParts.NoAmenitiesComplete | src/components/admin/AdminPropertyForm.tsx:91-100 | the starting boxes cover all eight amenities, none ticked |
| FormParts.SetAmenity | src/pages/AddPropertyPage.tsx:54-62 | `{ ...amenities, [k]: checked }`; `SetAmenitySpec`, `SetAmenityLaws` and `SetAmenityCommutes` state its effect |
| FormParts.SetAmenitySpec | src/pages/AddPropertyPage.tsx:54-62 | setting one box sets it to the given value and leaves every other box, and the set of boxes, unchanged |
| FormParts.SetAmenityLaws | src/pages/AddPropertyPage.tsx:54-62 | setting a box to its current value changes nothing, and of two settings the later wins |
| FormParts.SetAmenityCommutes | src/pages/AddPropertyPage.tsx:54-62 | settings of two different boxes commute |
| FormParts.AddFiles | src/components/admin/AdminPropertyForm.tsx:114 | the first five of old ++ new: at most five, exactly min(5, total), and the old pictures remain a prefix |
| FormParts.Previews | src/components/admin/AdminPropertyForm.tsx:118 | one preview per picture, at the same position |
| FormParts.SpliceOne | src/components/admin/AdminPropertyForm.tsx:123-131 | `splice(index, 1)` on a copy; `SpliceOneSpec` states what it removes |
| FormParts.SpliceOneSpec | src/components/admin/AdminPropertyForm.tsx:123-131 | removing an index in range deletes exactly that element and keeps the others in order; an index past the end removes nothing; -1 removes the last |
| FormParts.SpliceOnePreviews | src/components/admin/AdminPropertyForm.tsx:123-131 | removing the same index from the pictures and from the previews keeps them paired |
| AdminForm.Report | src/components/admin/AdminPropertyForm.tsx:46-51 | one check's contribution: its message exactly when the check fails, and no other message |
| AdminForm.SchemaErrors | src/components/admin/AdminPropertyForm.tsx:46-51 | each field's message appears exactly when that field is shorter than its minimum (title 5, description 20, address 5, city 1, price 1), and there are at most five messages |
| AdminForm.NoErrorsIffValid | src/components/admin/AdminPropertyForm.tsx:47-51 | no message exactly when the title has at least 5 characters, the description 20, the address 5, and the city and price at least 1 |
| AdminForm.DefaultsAreInvalid | src/components/admin/AdminPropertyForm.tsx:82-101 | the default values fail all five checks of the schema |
| AdminForm.DefaultsUnticked | src/components/admin/AdminPropertyForm.tsx:82-101 | the defaults have no amenity ticked, room type "single" and not featured |
| AdminForm.AdminPropertyForm.constructor | src/components/admin/AdminPropertyForm.tsx:74-102 | the form starts with the default values, no pictures, no previews and not submitting |
| AdminForm.AdminPropertyForm.SetValues | src/components/admin/AdminPropertyForm.tsx:80-102 | editing changes the values only |
| AdminForm.AdminPropertyForm.HandleImageUpload | src/components/admin/AdminPropertyForm.tsx:109-121 | without a file list nothing changes; otherwise the pictures become `AddFiles` of old and new, each with its preview |
| AdminForm.AdminPropertyForm.RemoveImage | src/components/admin/AdminPropertyForm.tsx:123-132 | the picture at the index and its preview are removed together |
| AdminForm.AdminPropertyForm.HandleSubmit | src/components/admin/AdminPropertyForm.tsx:134-180 | invalid values and a missing picture are rejected before the flag is raised; otherwise the flag goes up and then down, and on success the form is reset and both lists are emptied |
| AddProperty.WithField | src/pages/AddPropertyPage.tsx:46-52 | `{ ...formData, [name]: value }`; `WithFieldSpec` and `WithFieldLaws` state its effect |
| AddProperty.WithAmenity | src/pages/AddPropertyPage.tsx:54-62 | the amenity update of the record; `WithAmenitySpec` states its effect |
| AddProperty.WithFieldSpec | src/pages/AddPropertyPage.tsx:46-52 | an input change sets the named field only; the other fields and all amenities are unchanged |
| AddProperty.WithFieldLaws | src/pages/AddPropertyPage.tsx:46-52 | writing back a field's own value changes nothing, and of two writes the later wins |
| AddProperty.WithAmenitySpec | src/pages/AddPropertyPage.tsx:54-62 | an amenity change sets that box only; the text fields are unchanged |
| AddProperty.MissingInformation | src/pages/AddPropertyPage.tsx:93 | the handler's test for an empty title, description, address, city or price; `MissingIffNotFilled` states it |
| AddProperty.MissingIffNotFilled | src/pages/AddPropertyPage.tsx:93 | the handler's test rejects exactly the records where some required field (all but the room type) is empty |
| AddProperty.InitialIsMissing | src/pages/AddPropertyPage.tsx:27-44 | the starting record lacks required information, and its room type is "single" |
| AddProperty.AddPropertyPage.constructor | src/pages/AddPropertyPage.tsx:24-44 | the page starts with the initial record and no pictures or previews |
| AddProperty.AddPropertyPage.HandleInputChange | src/pages/AddPropertyPage.tsx:46-52 | the record becomes `WithField` of the old record; the pictures are kept |
| AddProperty.AddPropertyPage.HandleAmenityChange | src/pages/AddPropertyPage.tsx:54-62 | the record becomes `WithAmenity` of the old record; the pictures are kept |
| AddProperty.AddPropertyPage.HandleImageUpload | src/pages/AddPropertyPage.tsx:64-76 | without a file list nothing changes; otherwise the pictures become `AddFiles` of old and new, each with its preview |
| AddProperty.AddPropertyPage.RemoveImage | src/pages/AddPropertyPage.tsx:78-87 | the picture at the index and its preview are removed together |
| AddProperty.AddPropertyPage.HandleSubmit | src/pages/AddPropertyPage.tsx:89-119 | a missing required field is reported first, then a missing picture; only a complete form with a picture is listed and navigates to "/" |
| Auth.OnAuthChange | src/contexts/AuthContext.tsx:38-54 | the user is stored and loading ends; for a user the owner flag follows the role ("owner" or "admin"), unless the lookup failed, when the flag is kept; for nobody the flag is cleared |
| Auth.SetOwner | src/contexts/AuthContext.tsx:67 | sets the owner flag and nothing else |
| Auth.RenderGate | src/contexts/AuthContext.tsx:72 | nothing is rendered before the first report, and the children are rendered after any report |
| Auth.LaterReportWins | src/contexts/AuthContext.tsx:38-54 | of two reports, the later alone decides the state, unless its role lookup failed |
| Auth.ReportOverridesSetOwner | src/contexts/AuthContext.tsx:42-45 | an owner flag set by hand is cleared by a later report whose role is not an owner role |
| Auth.AuthProvider.constructor | src/contexts/AuthContext.tsx:33-35 | no user, loading, and not an owner |
| Auth.AuthProvider.OnAuthStateChanged | src/contexts/AuthContext.tsx:38-54 | the cells change exactly as `OnAuthChange` says |
| Auth.AuthProvider.SetIsOwner | src/contexts/AuthContext.tsx:35 | the cells change exactly as `SetOwner` says |
| RouteGuard.Decide | src/components/ProtectedRoute.tsx:10-26 | the guard's view for the context's state, with routes not owner-only unless marked; `DecideCases` states each case |
| RouteGuard.DecideCases | src/components/ProtectedRoute.tsx:10-26 | loading shows the placeholder; otherwise no user redirects to "/login"; otherwise a non-owner on an owner-only route redirects to "/"; otherwise the page renders, each case if and only if its condition holds |
| RouteGuard.SignedInPassesPlainRoutes | src/components/ProtectedRoute.tsx:10 | a route is owner-only only when marked, so every signed-in user passes an unmarked route once loading ends |
| RouteGuard.OwnerOnlyIsStricter | src/components/ProtectedRoute.tsx:21-23 | whoever passes an owner-only route also passes an unmarked one |
| RouteGuard.GuardAfterReports | src/components/ProtectedRoute.tsx:13-23 | before the first report every route waits; after a report of nobody every route redirects to "/login"; after a role is found, an owner-only route opens exactly for owner roles |
| Login.InitialTab | src/pages/LoginPage.tsx:16-18 | the sign-up tab exactly on "/signup", the login tab otherwise |
| Login.SignupTarget | src/pages/LoginPage.tsx:65 | a successful sign-up goes to "/add-pg" or "/" |
| Login.LoginPage.constructor | src/pages/LoginPage.tsx:14-34 | the tab is `InitialTab` of the pathname, the sign-up fields are empty and the owner box is clear |
| Login.LoginPage.SetSignupData | src/pages/LoginPage.tsx:252-282 | the sign-up password, confirmation and owner box are replaced and the tab kept |
| Login.LoginPage.HandleLoginSubmit | src/pages/LoginPage.tsx:36-45 | a successful sign-in navigates to "/"; a failed one goes nowhere |
| Login.LoginPage.HandleSignupSubmit | src/pages/LoginPage.tsx:47-70 | mismatched passwords make no register call; a failed registration changes nothing and goes nowhere; a successful one sets the owner flag from the box and goes to "/add-pg" for an owner and "/" otherwise |
| Login.OwnerSignupLeadsToAddPage | src/pages/LoginPage.tsx:63-65 | only an owner sign-up goes to "/add-pg", and only it sets the owner flag |

## Left out

- Rendering is not modelled: JSX, styling, toasts, number formatting and star icons.
- The stored `description` of each listing is not modelled. No rule reads it.
- A route's `:id` is not parsed. `Number(id)` is replaced by an `Option<int>` parameter.
- `toLowerCase` is modelled as ASCII lower-casing. JavaScript string `<` is
  modelled as the lexicographic order on characters. Code units outside ASCII
  and surrogate pairs are not modelled. The same holds for the schema's
  `.min(n)` length checks in `AdminForm.SchemaErrors`: zod counts UTF-16 code
  units, and the model counts characters.
- `Property.rating` is held as integer tenths, not as a floating-point number.
- The sort's comparator receives each pair in the order an insertion sort asks.
  A different engine may call it differently. For the listing page the result
  is the same, because the comparators there are consistent and the sort is
  stable. For the admin table, the order of rows with equal keys is not
  promised by any engine, and the model promises none.
- AdminList.SortedRows: promises a permutation and the column order but not
  the order of equal keys. For such a pair the comparator returns -1 both
  ways, so the tie order depends on which pairs a sort engine asks about.
- Most input setters are plain state writes. The model has
  `AdminList.AdminPropertyList.SetSearchTerm`, `AdminForm.AdminPropertyForm.SetValues`,
  `Login.LoginPage.SetSignupData` and `Booking.BookingPage.SetMoveInDate`, and
  the amenity handlers. The list page's control setters, the login form's
  fields and the sign-up name and e-mail are not modelled.
- The list page reads the `location` and `type` parameters of the address and
  ignores them. The model ignores them too.
- Effects and handlers run as single steps. React's batching and the order in
  which asynchronous callbacks resolve are not modelled. In particular,
  `Auth.ReportOverridesSetOwner` shows what happens when a report arrives after
  a sign-up. Whether it does arrive after is left to the service.
- `URL.createObjectURL` gives a token per file. `URL.revokeObjectURL` and
  memory release are not modelled.
- The map position (`location.lat`/`lng`), the maps service, the simulated
  database client and the Firebase SDK are not part of this model. Login,
  registration and role lookups appear only through the outcomes passed to
  the handlers.
- AdminForm.AdminPropertyForm.HandleSubmit: the `try` body only logs and shows
  a toast. Whether it fails is a parameter.
- Field and amenity names that are not one of the form's own inputs cannot
  arise from the page's inputs. The model's field and amenity enumerations
  exclude them.
- The booking form's duration, room-type and payment selectors are plain state
  writes. Only the move-in date setter is modelled.
- The Google sign-in handler and the password-visibility toggle of the login
  page are not modelled. The first only navigates on success, and the second
  only renders.
