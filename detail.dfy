/**
 * The listing detail page: the listing named in the route, a four-picture gallery
 * whose arrows wrap around, the save toggle, and the price breakdown.
 */
module Detail {
  import opened Wrappers
  import opened Catalog
  import opened Booking

  const Gallery2 := "https://images.unsplash.com/photo-1522708323590-d24dbb6b0267?ixlib=rb-4.0.3&auto=format&fit=crop&w=1200&q=80"
  const Gallery3 := "https://images.unsplash.com/photo-1600585154340-be6161a56a0c?ixlib=rb-4.0.3&auto=format&fit=crop&w=1200&q=80"
  const Gallery4 := "https://images.unsplash.com/photo-1624026676760-53603406ac94?ixlib=rb-4.0.3&auto=format&fit=crop&w=1200&q=80"

  /** The gallery: the listing's own picture, then three stock pictures. */
  function Images(p: Property): (r: seq<string>)
    ensures |r| == 4 && r[0] == p.image
  {
    [p.image, Gallery2, Gallery3, Gallery4]
  }

  /** The number of pictures in every gallery. */
  const ImageCount := 4

  /** The right arrow: the last picture is followed by the first. */
  function NextIndex(i: int): (r: int)
    ensures 0 <= i < ImageCount ==> 0 <= r < ImageCount && r == (i + 1) % ImageCount
  {
    if i == ImageCount - 1 then 0 else i + 1
  }

  /** The left arrow: the first picture is preceded by the last. */
  function PrevIndex(i: int): (r: int)
    ensures 0 <= i < ImageCount ==> 0 <= r < ImageCount && r == (i + ImageCount - 1) % ImageCount
  {
    if i == 0 then ImageCount - 1 else i - 1
  }

  /** Each arrow undoes the other. */
  lemma ArrowsUndoEachOther(i: int)
    requires 0 <= i < ImageCount
    ensures PrevIndex(NextIndex(i)) == i
    ensures NextIndex(PrevIndex(i)) == i
  {
  }

  /** The picture shown after `k` clicks on the right arrow. */
  function AfterNextClicks(i: int, k: nat): int {
    if k == 0 then i else NextIndex(AfterNextClicks(i, k - 1))
  }

  /** `k` clicks on the right arrow advance by `k` pictures, around the gallery. */
  lemma {:induction false} NextClicksWrap(i: int, k: nat)
    requires 0 <= i < ImageCount
    ensures AfterNextClicks(i, k) == (i + k) % ImageCount
  {
    if k > 0 {
      NextClicksWrap(i, k - 1);
    }
  }

  /** Four clicks on either arrow come back to the same picture. */
  lemma FourClicksComeBack(i: int)
    requires 0 <= i < ImageCount
    ensures AfterNextClicks(i, 4) == i
    ensures PrevIndex(PrevIndex(PrevIndex(PrevIndex(i)))) == i
  {
    NextClicksWrap(i, 4);
  }

  /** The price breakdown the page shows next to the booking button. */
  datatype Breakdown = Breakdown(monthlyRent: int, securityDeposit: int, serviceFee: int, totalDue: int)

  function BreakdownFor(p: Property): Breakdown {
    Breakdown(p.price, p.price, 1000, p.price * 2 + 1000)
  }

  /** The breakdown adds up, and its lines and total are the booking page's quote and total. */
  lemma BreakdownAgreesWithBooking(p: Property)
    ensures var b := BreakdownFor(p);
      && b.totalDue == b.monthlyRent + b.securityDeposit + b.serviceFee
      && Quote(b.monthlyRent, b.securityDeposit, b.serviceFee) == QuoteFor(p)
      && b.totalDue == TotalAmount(p)
  {
  }

  /** The state of the detail page. */
  class PropertyDetailPage {
    var property: Property
    var activeImageIndex: int
    var isSaved: bool

    /** The shown picture is one of the gallery's. */
    predicate Valid()
      reads this
    {
      0 <= activeImageIndex < ImageCount
    }

    /** The page starts on the first listing, its first picture, not saved. */
    constructor()
      ensures Valid()
      ensures property == Properties[0] && activeImageIndex == 0 && !isSaved
    {
      property := Properties[0];
      activeImageIndex := 0;
      isSaved := false;
    }

    /**
     * The lookup effect: a listing with the route's id replaces the shown one; with
     * none, the shown listing stays. The picture index is kept either way.
     */
    method LoadProperty(id: Option<int>)
      modifies this
      ensures LookupId(Properties, id).Some? ==> property == LookupId(Properties, id).value
      ensures LookupId(Properties, id).None? ==> property == old(property)
      ensures activeImageIndex == old(activeImageIndex) && isSaved == old(isSaved)
    {
      var found := LookupId(Properties, id);
      if found.Some? {
        property := found.value;
      }
    }

    /** The gallery shown. */
    function CurrentImages(): seq<string>
      reads this
    {
      Images(property)
    }

    method HandlePrevImage()
      requires Valid()
      modifies this
      ensures Valid()
      ensures activeImageIndex == PrevIndex(old(activeImageIndex))
      ensures property == old(property) && isSaved == old(isSaved)
    {
      activeImageIndex := if activeImageIndex == 0 then |CurrentImages()| - 1 else activeImageIndex - 1;
    }

    method HandleNextImage()
      requires Valid()
      modifies this
      ensures Valid()
      ensures activeImageIndex == NextIndex(old(activeImageIndex))
      ensures property == old(property) && isSaved == old(isSaved)
    {
      activeImageIndex := if activeImageIndex == |CurrentImages()| - 1 then 0 else activeImageIndex + 1;
    }

    /** The save button flips the saved mark. */
    method HandleSaveProperty()
      modifies this
      ensures isSaved == !old(isSaved)
      ensures property == old(property) && activeImageIndex == old(activeImageIndex)
    {
      isSaved := !isSaved;
    }
  }
}
