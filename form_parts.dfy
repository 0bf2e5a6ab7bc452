/**
 * Pieces the two listing-entry forms share: the eight amenity check boxes, the
 * bounded list of chosen pictures with one preview per picture, and
 * `Array.prototype.splice(index, 1)`, which removes a picture.
 */
module FormParts {

  datatype Amenity = Wifi | AC | Food | Parking | TV | Laundry | Cleaning | Furniture

  /** The amenity check boxes of a form, keyed by amenity. */
  type Amenities = map<Amenity, bool>

  /** Every box present and unticked, as both forms start. */
  const NoAmenities: Amenities := map[Wifi := false, AC := false, Food := false, Parking := false,
                                      TV := false, Laundry := false, Cleaning := false, Furniture := false]

  /** Whether the box of `k` is ticked. */
  function Has(a: Amenities, k: Amenity): bool {
    k in a && a[k]
  }

  /** `{ ...amenities, [k]: checked }`. */
  function SetAmenity(a: Amenities, k: Amenity, checked: bool): Amenities {
    a[k := checked]
  }

  /** The starting boxes hold every amenity, none ticked. */
  lemma NoAmenitiesComplete()
    ensures forall k :: k in NoAmenities && !Has(NoAmenities, k)
  {
    forall k
      ensures k in NoAmenities
    {
      match k
      case Wifi =>
      case AC =>
      case Food =>
      case Parking =>
      case TV =>
      case Laundry =>
      case Cleaning =>
      case Furniture =>
    }
  }

  /** Setting box `k` ticks or clears box `k` and leaves every other box, and the set of boxes, as it was. */
  lemma SetAmenitySpec(a: Amenities, k: Amenity, checked: bool)
    requires k in a
    ensures Has(SetAmenity(a, k, checked), k) == checked
    ensures forall j :: j != k ==> Has(SetAmenity(a, k, checked), j) == Has(a, j)
    ensures SetAmenity(a, k, checked).Keys == a.Keys
  {
  }

  /** Setting a box to its current value changes nothing; the later of two settings of a box wins. */
  lemma SetAmenityLaws(a: Amenities, k: Amenity, c: bool, d: bool)
    requires k in a
    ensures SetAmenity(a, k, a[k]) == a
    ensures SetAmenity(SetAmenity(a, k, c), k, d) == SetAmenity(a, k, d)
  {
  }

  /** Settings of two different boxes do not interfere. */
  lemma SetAmenityCommutes(a: Amenities, k: Amenity, j: Amenity, c: bool, d: bool)
    requires k != j
    ensures SetAmenity(SetAmenity(a, k, c), j, d) == SetAmenity(SetAmenity(a, j, d), k, c)
  {
  }

  /** A picture the user chose. */
  datatype File = File(handle: nat)

  /** The preview address the browser issues for a picture, seen as a token naming it. */
  datatype PreviewUrl = ObjectUrl(file: File)

  /** At most five pictures are kept. */
  const MaxImages := 5

  /** `[...images, ...files].slice(0, 5)`. */
  function AddFiles(images: seq<File>, files: seq<File>): (r: seq<File>)
    ensures |r| <= MaxImages
    ensures |r| == if |images| + |files| < MaxImages then |images| + |files| else MaxImages
    ensures r == (images + files)[..|r|]
    ensures |images| <= MaxImages ==> images <= r
  {
    var all := images + files;
    if |all| <= MaxImages then all else all[..MaxImages]
  }

  /** One preview per picture, in the same order. */
  function Previews(images: seq<File>): (r: seq<PreviewUrl>)
    ensures |r| == |images|
    ensures forall i :: 0 <= i < |images| ==> r[i] == ObjectUrl(images[i])
  {
    seq(|images|, i requires 0 <= i < |images| => ObjectUrl(images[i]))
  }

  /** Where `splice(index, 1)` starts: a negative index counts from the end. */
  function SpliceStart(len: nat, index: int): (start: nat)
    ensures start <= len
  {
    if index < 0 then (if len + index < 0 then 0 else len + index)
    else if index > len then len
    else index
  }

  /** `s.splice(index, 1)` on a copy of `s`: removes the element at the start position, if any. */
  function SpliceOne<T>(s: seq<T>, index: int): (r: seq<T>)
  {
    var start := SpliceStart(|s|, index);
    if start < |s| then s[..start] + s[start + 1..] else s
  }

  /**
   * Removing at a position in range drops exactly that element and keeps the others
   * in order; a position past the end removes nothing; -1 removes the last element.
   */
  lemma SpliceOneSpec<T>(s: seq<T>, index: int)
    ensures 0 <= index < |s| ==>
      && |SpliceOne(s, index)| == |s| - 1
      && (forall i :: 0 <= i < index ==> SpliceOne(s, index)[i] == s[i])
      && (forall i :: index <= i < |s| - 1 ==> SpliceOne(s, index)[i] == s[i + 1])
    ensures index >= |s| ==> SpliceOne(s, index) == s
    ensures index == -1 && s != [] ==> SpliceOne(s, index) == s[..|s| - 1]
  {
  }

  /** Removing the same position from the pictures and from their previews keeps them paired. */
  lemma SpliceOnePreviews(images: seq<File>, index: int)
    ensures SpliceOne(Previews(images), index) == Previews(SpliceOne(images, index))
  {
    var start := SpliceStart(|images|, index);
    if start < |images| {
      var r := SpliceOne(Previews(images), index);
      assert |r| == |images| - 1;
      forall i | 0 <= i < |r|
        ensures r[i] == Previews(SpliceOne(images, index))[i]
      {
        if i < start {
          assert r[i] == Previews(images)[i];
        } else {
          assert r[i] == Previews(images)[i + 1];
        }
      }
    }
  }
}
