/**
 * The booking page: the amount due on booking, the room type preselected from
 * the listing, the lookup of the listing named in the route, and the guard on
 * the booking form.
 */
module Booking {
  import opened Wrappers
  import opened Text
  import opened Catalog

  /** The fixed service fee charged on every booking. */
  const ServiceFee := 1000

  /** The amounts due on booking. */
  datatype Quote = Quote(monthlyRent: int, securityDeposit: int, serviceFee: int)

  /** The deposit is one month's rent; the fee is fixed. */
  function QuoteFor(p: Property): Quote {
    Quote(p.price, p.price, ServiceFee)
  }

  /** `getTotalAmount`: rent, deposit and fee added up. */
  function TotalAmount(p: Property): int {
    var q := QuoteFor(p);
    q.monthlyRent + q.securityDeposit + q.serviceFee
  }

  /** The total is two months' rent and the fee, and the deposit equals the rent. */
  lemma TotalIsTwoRentsAndFee(p: Property)
    ensures TotalAmount(p) == 2 * p.price + 1000
    ensures QuoteFor(p).securityDeposit == QuoteFor(p).monthlyRent
  {
  }

  /** The total depends on the rent alone. */
  lemma TotalDependsOnPriceOnly(p: Property, q: Property)
    requires p.price == q.price
    ensures TotalAmount(p) == TotalAmount(q)
  {
  }

  /** A total never falls below the fee, for any rent that is not negative, and grows with the rent. */
  lemma TotalAtLeastFee(p: Property, q: Property)
    requires 0 <= p.price <= q.price
    ensures ServiceFee <= TotalAmount(p) <= TotalAmount(q)
  {
  }

  /** Every catalog listing costs between 17000 and 37000 on booking. */
  lemma CatalogTotalsInRange()
    ensures forall p :: p in Properties ==> 17000 <= TotalAmount(p) <= 37000
  {
    ListingsWellFormed();
  }

  /** The room type preselected for a listing: "single" when its type mentions "single", without case. */
  function RoomTypeFor(p: Property): string {
    if Contains(ToLower(p.roomType), "single") then "single" else "shared"
  }

  /** No occurrence of a text that starts with a character missing from `s`. */
  lemma MissingFirstCharNotContained(s: string, sub: string)
    requires sub != [] && sub[0] !in s
    ensures !Contains(s, sub)
  {
  }

  /**
   * A "Private Room" listing is preselected as "shared": its type does not mention
   * "single".
   */
  lemma PrivateRoomCountsAsShared(p: Property)
    requires p.roomType == "Private Room"
    ensures RoomTypeFor(p) == "shared"
  {
    assert ToLower(p.roomType) == "private room";
    MissingFirstCharNotContained("private room", "single");
  }

  /** A "Single Room" listing is preselected as "single". */
  lemma SingleRoomCountsAsSingle(p: Property)
    requires p.roomType == "Single Room"
    ensures RoomTypeFor(p) == "single"
  {
    assert ToLower(p.roomType) == "single room";
    assert OccursAt("single room", "single", 0);
  }

  /** No occurrence of a text whose first two characters are never adjacent in `s`. */
  lemma MissingPairNotContained(s: string, sub: string)
    requires 2 <= |sub|
    requires forall i :: 0 <= i < |s| - 1 ==> !(s[i] == sub[0] && s[i + 1] == sub[1])
    ensures !Contains(s, sub)
  {
    if Contains(s, sub) {
      var i: nat :| i <= |s| && OccursAt(s, sub, i);
      assert s[i] == sub[0] && s[i + 1] == sub[1] by {
        assert s[i..i + |sub|] == sub;
      }
      assert false;
    }
  }

  /** A "Shared Room" listing is preselected as "shared": its "s" is never followed by "i". */
  lemma SharedRoomCountsAsShared(p: Property)
    requires p.roomType == "Shared Room"
    ensures RoomTypeFor(p) == "shared"
  {
    assert ToLower(p.roomType) == "shared room";
    MissingPairNotContained("shared room", "single");
  }

  /** A "Double Sharing" listing is preselected as "shared". */
  lemma DoubleSharingCountsAsShared(p: Property)
    requires p.roomType == "Double Sharing"
    ensures RoomTypeFor(p) == "shared"
  {
    assert ToLower(p.roomType) == "double sharing";
    MissingPairNotContained("double sharing", "single");
  }

  /** A "Triple Sharing" listing is preselected as "shared". */
  lemma TripleSharingCountsAsShared(p: Property)
    requires p.roomType == "Triple Sharing"
    ensures RoomTypeFor(p) == "shared"
  {
    assert ToLower(p.roomType) == "triple sharing";
    MissingPairNotContained("triple sharing", "single");
  }

  /** Of eight listings with ids 1..8, `f` gives `mark` exactly for the first, fourth and sixth. */
  lemma MarkedAtOneFourSix(s: seq<Property>, f: Property -> string, mark: string)
    requires |s| == 8
    requires forall i :: 0 <= i < 8 ==> s[i].id == i + 1
    requires f(s[0]) == mark && f(s[3]) == mark && f(s[5]) == mark
    requires f(s[1]) != mark && f(s[2]) != mark && f(s[4]) != mark && f(s[6]) != mark && f(s[7]) != mark
    ensures forall i :: 0 <= i < |s| ==> (f(s[i]) == mark <==> s[i].id in {1, 4, 6})
  {
  }

  /** The room type preselected for each catalog position. */
  lemma RoomTypesByPosition()
    ensures RoomTypeFor(Properties[0]) == "single" && RoomTypeFor(Properties[3]) == "single"
    ensures RoomTypeFor(Properties[5]) == "single"
    ensures RoomTypeFor(Properties[1]) == "shared" && RoomTypeFor(Properties[2]) == "shared"
    ensures RoomTypeFor(Properties[4]) == "shared" && RoomTypeFor(Properties[6]) == "shared"
    ensures RoomTypeFor(Properties[7]) == "shared"
  {
    SingleRoomCountsAsSingle(Properties[0]);
    PrivateRoomCountsAsShared(Properties[1]);
    SharedRoomCountsAsShared(Properties[2]);
    SingleRoomCountsAsSingle(Properties[3]);
    PrivateRoomCountsAsShared(Properties[4]);
    SingleRoomCountsAsSingle(Properties[5]);
    DoubleSharingCountsAsShared(Properties[6]);
    TripleSharingCountsAsShared(Properties[7]);
  }

  /** Across the catalog, exactly listings 1, 4 and 6 are preselected as "single". */
  lemma CatalogRoomTypes()
    ensures forall i :: 0 <= i < |Properties| ==>
              (RoomTypeFor(Properties[i]) == "single" <==> Properties[i].id in {1, 4, 6})
  {
    IdsAreOneToEight();
    RoomTypesByPosition();
    assert "shared" != "single" by {
      assert "shared"[1] != "single"[1];
    }
    MarkedAtOneFourSix(Properties, RoomTypeFor, "single");
  }

  /** The state of the booking page. */
  class BookingPage {
    var property: Property
    var moveInDate: string
    var duration: string
    var roomType: string
    var paymentMethod: string

    /** The page starts on the first listing, with a one-month single-room card booking and no date. */
    constructor()
      ensures property == Properties[0]
      ensures moveInDate == "" && duration == "1" && roomType == "single" && paymentMethod == "card"
    {
      property := Properties[0];
      moveInDate := "";
      duration := "1";
      roomType := "single";
      paymentMethod := "card";
    }

    /**
     * The lookup effect: a listing with the route's id is selected and its room type
     * preselected; with none, the page leaves for "/not-found" and keeps its state.
     */
    method LoadProperty(id: Option<int>) returns (navigateTo: Option<string>)
      modifies this
      ensures var found := LookupId(Properties, id);
        && (found.Some? ==> property == found.value && roomType == RoomTypeFor(found.value) && navigateTo == None)
        && (found.None? ==> property == old(property) && roomType == old(roomType) && navigateTo == Some("/not-found"))
      ensures moveInDate == old(moveInDate) && duration == old(duration) && paymentMethod == old(paymentMethod)
    {
      var found := LookupId(Properties, id);
      if found.Some? {
        property := found.value;
        roomType := if Contains(ToLower(found.value.roomType), "single") then "single" else "shared";
        navigateTo := None;
      } else {
        navigateTo := Some("/not-found");
      }
    }

    /** The amount the page shows as due. */
    function GetTotalAmount(): int
      reads this
    {
      TotalAmount(property)
    }

    /** The form's date field. */
    method SetMoveInDate(date: string)
      modifies this
      ensures moveInDate == date
      ensures property == old(property) && duration == old(duration)
      ensures roomType == old(roomType) && paymentMethod == old(paymentMethod)
    {
      moveInDate := date;
    }

    /** Submitting without a move-in date goes nowhere; otherwise the booking is confirmed and the page leaves for "/". */
    method HandleSubmit() returns (navigateTo: Option<string>)
      ensures moveInDate == "" <==> navigateTo == None
      ensures moveInDate != "" ==> navigateTo == Some("/")
    {
      if moveInDate == "" {
        return None;
      }
      navigateTo := Some("/");
    }
  }

  /** The amount due is the same whatever duration, room type, payment method or date is chosen. */
  lemma TotalIgnoresChoices(page: BookingPage, other: BookingPage)
    requires page.property == other.property
    ensures page.GetTotalAmount() == other.GetTotalAmount()
  {
  }
}
