/**
 * The admin table of listings: a sort state (column and direction) that clicking
 * a column header toggles, a case-insensitive search over title and location,
 * and the sorted copy of the matching listings that the table shows.
 */
module AdminList {
  import opened Text
  import opened Seqs
  import opened Sorting
  import opened Catalog

  /** The columns the table can be sorted by. */
  datatype SortField = Id | Title | Location | Price | RoomType | IsFeatured

  datatype Direction = Asc | Desc

  datatype SortState = SortState(field: SortField, direction: Direction)

  /** The table opens sorted by id, ascending. */
  const InitialSort := SortState(Id, Asc)

  /**
   * A click on the header of `f`: the sorted column flips direction, any other
   * column becomes the sorted one, ascending.
   */
  function ClickHeader(s: SortState, f: SortField): (r: SortState)
    ensures r.field == f
    ensures s.field == f ==> r.direction != s.direction
    ensures s.field != f ==> r.direction == Asc
  {
    if s.field == f then SortState(f, if s.direction == Asc then Desc else Asc)
    else SortState(f, Asc)
  }

  /** Two clicks on the sorted column give back the sort state. */
  lemma ClickTwiceRestores(s: SortState)
    ensures ClickHeader(ClickHeader(s, s.field), s.field) == s
  {
  }

  /** Clicking another column and back sorts ascending by the first one, whatever came before. */
  lemma ClickAwayAndBack(s: SortState, f: SortField)
    requires f != s.field
    ensures ClickHeader(ClickHeader(s, f), s.field) == SortState(s.field, Asc)
  {
  }

  /** `a[f] > b[f]` in JavaScript: numbers and strings by value, `true > false`. */
  predicate Greater(f: SortField, a: Property, b: Property) {
    match f
    case Id => a.id > b.id
    case Title => StrLess(b.title, a.title)
    case Location => StrLess(b.location, a.location)
    case Price => a.price > b.price
    case RoomType => StrLess(b.roomType, a.roomType)
    case IsFeatured => a.isFeatured && !b.isFeatured
  }

  /**
   * The table's comparator. It never returns 0: for two rows with equal keys it
   * returns -1 both ways, so their order depends on which pairs the sort asks about.
   */
  function AdminCompare(s: SortState): (Property, Property) -> int {
    (a: Property, b: Property) =>
      if s.direction == Asc then (if Greater(s.field, a, b) then 1 else -1)
      else (if Greater(s.field, b, a) then 1 else -1)
  }

  /** The comparator never reports a tie. */
  lemma NeverZero(s: SortState, a: Property, b: Property)
    ensures AdminCompare(s)(a, b) != 0
    ensures AdminCompare(s)(a, b) == -1 || AdminCompare(s)(a, b) == 1
  {
  }

  /** Rows with equal keys are each placed first when asked about first. */
  lemma EqualKeysFirstBothWays(s: SortState, a: Property, b: Property)
    requires !Greater(s.field, a, b) && !Greater(s.field, b, a)
    ensures AdminCompare(s)(a, b) == -1 && AdminCompare(s)(b, a) == -1
  {
  }

  /** "Greater" is asymmetric and "not greater" transitive, on every column. */
  lemma GreaterOrders(f: SortField)
    ensures forall a, b :: Greater(f, a, b) ==> !Greater(f, b, a)
    ensures forall a, b, c :: !Greater(f, a, b) && !Greater(f, b, c) ==> !Greater(f, a, c)
  {
    forall a, b | Greater(f, a, b)
      ensures !Greater(f, b, a)
    {
      match f
      case Title => StrLessAsymmetric(b.title, a.title);
      case Location => StrLessAsymmetric(b.location, a.location);
      case RoomType => StrLessAsymmetric(b.roomType, a.roomType);
      case _ =>
    }
    forall a, b, c | !Greater(f, a, b) && !Greater(f, b, c)
      ensures !Greater(f, a, c)
    {
      match f
      case Title => StrNotGreaterTransitive(a.title, b.title, c.title);
      case Location => StrNotGreaterTransitive(a.location, b.location, c.location);
      case RoomType => StrNotGreaterTransitive(a.roomType, b.roomType, c.roomType);
      case _ =>
    }
  }

  /** The comparator orders consistently in both directions. */
  lemma AdminCompareConsistent(s: SortState)
    ensures Consistent(AdminCompare(s))
  {
    GreaterOrders(s.field);
  }

  /** The search test: the term, without case, occurs in the title or in the location. */
  predicate Matches(p: Property, term: string) {
    Contains(ToLower(p.title), ToLower(term)) || Contains(ToLower(p.location), ToLower(term))
  }

  function MatchesFor(term: string): Property -> bool {
    (p: Property) => Matches(p, term)
  }

  /** The listings that match the search term, in catalog order. */
  function Search(catalog: seq<Property>, term: string): seq<Property> {
    Filter(catalog, MatchesFor(term))
  }

  /** A listing is found exactly when it is in the catalog and matches the term. */
  lemma SearchMembership(catalog: seq<Property>, term: string)
    ensures forall p :: p in Search(catalog, term) <==> p in catalog && Matches(p, term)
    ensures forall p :: multiset(Search(catalog, term))[p] == if Matches(p, term) then multiset(catalog)[p] else 0
  {
    FilterCount(catalog, MatchesFor(term));
  }

  /** The empty search term finds the whole catalog. */
  lemma EmptyTermFindsAll(catalog: seq<Property>)
    ensures Search(catalog, "") == catalog
  {
    forall p: Property
      ensures Matches(p, "")
    {
      ContainsEmpty(ToLower(p.title));
    }
    FilterAll(catalog, MatchesFor(""));
  }

  /**
   * The rows the table shows: the search result, copied and sorted in place. The
   * rows are the found listings, rearranged, in non-decreasing order of the column
   * for `Asc` and non-increasing order for `Desc`. Rows with equal keys are left
   * in no promised order.
   */
  method SortedRows(catalog: seq<Property>, term: string, s: SortState) returns (rows: seq<Property>)
    ensures multiset(rows) == multiset(Search(catalog, term))
    ensures forall i, j :: 0 <= i < j < |rows| ==>
              if s.direction == Asc then !Greater(s.field, rows[i], rows[j])
              else !Greater(s.field, rows[j], rows[i])
  {
    var found := Search(catalog, term);
    var a := new Property[|found|](i requires 0 <= i < |found| => found[i]);
    assert a[..] == found;
    SortInPlace(a, AdminCompare(s));
    rows := a[..];
    SortSeqPermutes(found, AdminCompare(s));
    AdminCompareConsistent(s);
    SortSeqSorted(found, AdminCompare(s));
  }

  /** The state of the admin table. */
  class AdminPropertyList {
    var searchTerm: string
    var sort: SortState

    constructor()
      ensures searchTerm == "" && sort == InitialSort
    {
      searchTerm := "";
      sort := InitialSort;
    }

    /** The header click handler. */
    method HandleSort(field: SortField)
      modifies this
      ensures sort == ClickHeader(old(sort), field)
      ensures searchTerm == old(searchTerm)
    {
      if sort.field == field {
        sort := sort.(direction := if sort.direction == Asc then Desc else Asc);
      } else {
        sort := SortState(field, Asc);
      }
    }

    /** The search box's change handler. */
    method SetSearchTerm(term: string)
      modifies this
      ensures searchTerm == term && sort == old(sort)
    {
      searchTerm := term;
    }

    /** The rows shown for the current state. */
    method Rows() returns (rows: seq<Property>)
      ensures multiset(rows) == multiset(Search(Properties, searchTerm))
      ensures forall i, j :: 0 <= i < j < |rows| ==>
                if sort.direction == Asc then !Greater(sort.field, rows[i], rows[j])
                else !Greater(sort.field, rows[j], rows[i])
    {
      rows := SortedRows(Properties, searchTerm, sort);
    }
  }
}
