/**
 * The owners' "list your property" page: a form record updated one field or one
 * amenity at a time, the picture list with previews, and the submit handler that
 * checks the required fields, then the pictures, and then leaves for the home page.
 */
module AddProperty {
  import opened Wrappers
  import opened FormParts

  /** The text inputs of the page, by their `name` attribute. */
  datatype TextField = Title | Description | Address | City | Price | RoomType

  /** The form record: the text inputs keyed by name, and the amenity boxes. */
  datatype FormData = FormData(fields: map<TextField, string>, amenities: Amenities)

  /** The record the page starts with. */
  const InitialFormData := FormData(
    map[Title := "", Description := "", Address := "", City := "", Price := "", RoomType := "single"],
    NoAmenities)

  /** The value of a text input; an input missing from the record reads as empty. */
  function Field(d: FormData, f: TextField): string {
    if f in d.fields then d.fields[f] else ""
  }

  /** `{ ...formData, [name]: value }`. */
  function WithField(d: FormData, name: TextField, value: string): FormData {
    d.(fields := d.fields[name := value])
  }

  /** `{ ...formData, amenities: { ...formData.amenities, [amenity]: checked } }`. */
  function WithAmenity(d: FormData, k: Amenity, checked: bool): FormData {
    d.(amenities := SetAmenity(d.amenities, k, checked))
  }

  /** An input change sets the named input and leaves every other input and every box as it was. */
  lemma WithFieldSpec(d: FormData, name: TextField, value: string)
    ensures Field(WithField(d, name, value), name) == value
    ensures forall f :: f != name ==> Field(WithField(d, name, value), f) == Field(d, f)
    ensures WithField(d, name, value).amenities == d.amenities
  {
  }

  /** Writing back the value an input already holds changes nothing, and the later of two writes wins. */
  lemma WithFieldLaws(d: FormData, name: TextField, v: string, w: string)
    requires name in d.fields
    ensures WithField(d, name, Field(d, name)) == d
    ensures WithField(WithField(d, name, v), name, w) == WithField(d, name, w)
  {
  }

  /** A box change sets that box and leaves every other box and every text input as it was. */
  lemma WithAmenitySpec(d: FormData, k: Amenity, checked: bool)
    requires k in d.amenities
    ensures Has(WithAmenity(d, k, checked).amenities, k) == checked
    ensures forall j :: j != k ==> Has(WithAmenity(d, k, checked).amenities, j) == Has(d.amenities, j)
    ensures WithAmenity(d, k, checked).fields == d.fields
  {
    SetAmenitySpec(d.amenities, k, checked);
  }

  /** The inputs that must not be empty; the room type is not among them. */
  predicate Required(f: TextField) {
    f != RoomType
  }

  /** Every required input holds some text. */
  predicate RequiredFilled(d: FormData) {
    forall f :: Required(f) ==> Field(d, f) != ""
  }

  /** The test the handler runs: `!title || !description || !address || !city || !price`. */
  predicate MissingInformation(d: FormData) {
    Field(d, Title) == "" || Field(d, Description) == "" || Field(d, Address) == ""
    || Field(d, City) == "" || Field(d, Price) == ""
  }

  /** The handler's test rejects exactly the records with an empty required input. */
  lemma MissingIffNotFilled(d: FormData)
    ensures MissingInformation(d) <==> !RequiredFilled(d)
  {
    if !MissingInformation(d) {
      forall f | Required(f)
        ensures Field(d, f) != ""
      {
        match f
        case Title =>
        case Description =>
        case Address =>
        case City =>
        case Price =>
      }
    }
  }

  /** The starting record is missing information (and so is never listed as is). */
  lemma InitialIsMissing()
    ensures MissingInformation(InitialFormData)
    ensures Field(InitialFormData, RoomType) == "single"
  {
  }

  /** What a submission ended with. */
  datatype SubmitOutcome = MissingFields | NoImages | Listed

  /** The state of the page. */
  class AddPropertyPage {
    var formData: FormData
    var images: seq<File>
    var imagePreviewUrls: seq<PreviewUrl>

    /** At most five pictures, each with its own preview at the same position. */
    predicate Valid()
      reads this
    {
      |images| <= MaxImages && imagePreviewUrls == Previews(images)
    }

    constructor()
      ensures Valid()
      ensures formData == InitialFormData && images == [] && imagePreviewUrls == []
    {
      formData := InitialFormData;
      images := [];
      imagePreviewUrls := [];
    }

    /** The change handler of the text inputs. */
    method HandleInputChange(name: TextField, value: string)
      modifies this
      ensures formData == WithField(old(formData), name, value)
      ensures images == old(images) && imagePreviewUrls == old(imagePreviewUrls)
    {
      formData := formData.(fields := formData.fields[name := value]);
    }

    /** The change handler of the amenity boxes. */
    method HandleAmenityChange(amenity: Amenity, checked: bool)
      modifies this
      ensures formData == WithAmenity(old(formData), amenity, checked)
      ensures images == old(images) && imagePreviewUrls == old(imagePreviewUrls)
    {
      formData := formData.(amenities := formData.amenities[amenity := checked]);
    }

    /**
     * The picture input's change handler: without a file list nothing changes;
     * otherwise the chosen files are appended, the list is cut to five, and the
     * previews are made afresh, one per picture.
     */
    method HandleImageUpload(files: Option<seq<File>>)
      requires Valid()
      modifies this
      ensures Valid()
      ensures files.None? ==> images == old(images) && imagePreviewUrls == old(imagePreviewUrls)
      ensures files.Some? ==> images == AddFiles(old(images), files.value)
      ensures formData == old(formData)
    {
      if files.Some? {
        var newImages := AddFiles(images, files.value);
        images := newImages;
        imagePreviewUrls := Previews(newImages);
      }
    }

    /** The remove button of picture `index`: drops it and its preview. */
    method RemoveImage(index: int)
      requires Valid()
      modifies this
      ensures Valid()
      ensures images == SpliceOne(old(images), index)
      ensures formData == old(formData)
    {
      SpliceOnePreviews(images, index);
      images := SpliceOne(images, index);
      imagePreviewUrls := SpliceOne(imagePreviewUrls, index);
    }

    /**
     * The submit handler: an empty required input is reported first, then a missing
     * picture; only a complete form with a picture is listed, and only then does the
     * page leave for "/". Nothing of the page's state changes.
     */
    method HandleSubmit() returns (outcome: SubmitOutcome, navigateTo: Option<string>)
      ensures !RequiredFilled(formData) <==> outcome == MissingFields
      ensures RequiredFilled(formData) && images == [] <==> outcome == NoImages
      ensures RequiredFilled(formData) && images != [] <==> outcome == Listed
      ensures navigateTo == (if outcome == Listed then Some("/") else None)
    {
      MissingIffNotFilled(formData);
      if MissingInformation(formData) {
        return MissingFields, None;
      }
      if |images| == 0 {
        return NoImages, None;
      }
      return Listed, Some("/");
    }
  }
}
