/**
 * The admin form for a new listing: its validation schema, its default values,
 * the picture list with previews, and the submit handler that raises and lowers
 * the "submitting" flag.
 */
module AdminForm {
  import opened Wrappers
  import opened FormParts

  /** The values the form collects (the map position is not part of this model). */
  datatype FormValues = FormValues(
    title: string,
    description: string,
    address: string,
    city: string,
    price: string,
    roomType: string,
    isFeatured: bool,
    amenities: Amenities)

  /** The values the form starts from and returns to on reset. */
  const DefaultValues := FormValues("", "", "", "", "", "single", false, NoAmenities)

  /** The schema's requirements, field by field, stated on their own. */
  predicate SchemaValid(v: FormValues) {
    && |v.title| >= 5
    && |v.description| >= 20
    && |v.address| >= 5
    && |v.city| >= 1
    && |v.price| >= 1
  }

  const TitleMessage := "Title must be at least 5 characters"
  const DescriptionMessage := "Description must be at least 20 characters"
  const AddressMessage := "Address must be at least 5 characters"
  const CityMessage := "City is required"
  const PriceMessage := "Price is required"

  /** A check's message when it fails, nothing when it passes. */
  function Report(failed: bool, message: string): (r: seq<string>)
    ensures message in r <==> failed
    ensures forall m :: m in r ==> m == message
  {
    if failed then [message] else []
  }

  /** The schema's messages, in field order, for the values that break it. */
  function SchemaErrors(v: FormValues): (errors: seq<string>)
    ensures |errors| <= 5
    ensures TitleMessage in errors <==> |v.title| < 5
    ensures DescriptionMessage in errors <==> |v.description| < 20
    ensures AddressMessage in errors <==> |v.address| < 5
    ensures CityMessage in errors <==> |v.city| < 1
    ensures PriceMessage in errors <==> |v.price| < 1
  {
    Report(|v.title| < 5, TitleMessage) +
    Report(|v.description| < 20, DescriptionMessage) +
    Report(|v.address| < 5, AddressMessage) +
    Report(|v.city| < 1, CityMessage) +
    Report(|v.price| < 1, PriceMessage)
  }

  /** The form is submitted exactly when the schema reports no error. */
  lemma NoErrorsIffValid(v: FormValues)
    ensures SchemaErrors(v) == [] <==> SchemaValid(v)
  {
  }

  /** The default values fail the schema, on every one of its five checks. */
  lemma DefaultsAreInvalid()
    ensures |SchemaErrors(DefaultValues)| == 5
    ensures !SchemaValid(DefaultValues)
  {
  }

  /** The defaults: no amenity ticked, a single room, not featured. */
  lemma DefaultsUnticked()
    ensures forall k :: !Has(DefaultValues.amenities, k)
    ensures DefaultValues.roomType == "single" && !DefaultValues.isFeatured
  {
    NoAmenitiesComplete();
  }

  /** What a submission ended with. */
  datatype SubmitOutcome = NotValid(errors: seq<string>) | NoImages | Added | Failed

  /** The state of the admin form. */
  class AdminPropertyForm {
    var values: FormValues
    var images: seq<File>
    var imagePreviewUrls: seq<PreviewUrl>
    var isSubmitting: bool
    /** Every value the "submitting" flag has been given, in order. */
    ghost var submittingHistory: seq<bool>

    /** At most five pictures, each with its own preview at the same position. */
    predicate Valid()
      reads this
    {
      |images| <= MaxImages && imagePreviewUrls == Previews(images)
    }

    constructor()
      ensures Valid()
      ensures values == DefaultValues && images == [] && imagePreviewUrls == []
      ensures !isSubmitting && submittingHistory == []
    {
      values := DefaultValues;
      images := [];
      imagePreviewUrls := [];
      isSubmitting := false;
      submittingHistory := [];
    }

    /** The user edits the fields. */
    method SetValues(v: FormValues)
      modifies this
      ensures values == v
      ensures images == old(images) && imagePreviewUrls == old(imagePreviewUrls)
      ensures isSubmitting == old(isSubmitting) && submittingHistory == old(submittingHistory)
    {
      values := v;
    }

    /**
     * The picture input's change handler: without a file list nothing changes;
     * otherwise the chosen files are appended, the list is cut to five, and the
     * previews are made afresh, one per picture.
     */
    method HandleImageUpload(files: Option<seq<File>>)
      requires Valid()
      modifies this
      ensures Valid()
      ensures files.None? ==> images == old(images) && imagePreviewUrls == old(imagePreviewUrls)
      ensures files.Some? ==> images == AddFiles(old(images), files.value)
      ensures values == old(values) && isSubmitting == old(isSubmitting)
      ensures submittingHistory == old(submittingHistory)
    {
      if files.Some? {
        var newImages := AddFiles(images, files.value);
        images := newImages;
        imagePreviewUrls := Previews(newImages);
      }
    }

    /** The remove button of picture `index`: drops it and its preview. */
    method RemoveImage(index: int)
      requires Valid()
      modifies this
      ensures Valid()
      ensures images == SpliceOne(old(images), index)
      ensures values == old(values) && isSubmitting == old(isSubmitting)
      ensures submittingHistory == old(submittingHistory)
    {
      SpliceOnePreviews(images, index);
      images := SpliceOne(images, index);
      imagePreviewUrls := SpliceOne(imagePreviewUrls, index);
    }

    /**
     * The submit handler. Values that break the schema never reach it; without a
     * picture it stops before raising the flag; otherwise it raises the flag, adds
     * the listing and resets the form (or, when `bodyFails`, reports the failure and
     * keeps the form), and lowers the flag on both paths.
     */
    method HandleSubmit(bodyFails: bool) returns (outcome: SubmitOutcome)
      requires Valid()
      modifies this
      ensures Valid()
      ensures !SchemaValid(old(values)) ==> outcome == NotValid(SchemaErrors(old(values))) && unchanged(this)
      ensures SchemaValid(old(values)) && old(images) == [] ==> outcome == NoImages && unchanged(this)
      ensures SchemaValid(old(values)) && old(images) != [] ==>
                && submittingHistory == old(submittingHistory) + [true, false]
                && !isSubmitting
                && (bodyFails ==> outcome == Failed && values == old(values) && images == old(images))
                && (!bodyFails ==> outcome == Added && values == DefaultValues && images == [] && imagePreviewUrls == [])
    {
      if SchemaErrors(values) != [] {
        NoErrorsIffValid(values);
        return NotValid(SchemaErrors(values));
      }
      NoErrorsIffValid(values);
      if |images| == 0 {
        return NoImages;
      }
      isSubmitting := true;
      submittingHistory := submittingHistory + [true];
      if bodyFails {
        outcome := Failed;
      } else {
        values := DefaultValues;
        images := [];
        imagePreviewUrls := [];
        outcome := Added;
      }
      isSubmitting := false;
      submittingHistory := submittingHistory + [false];
    }
  }
}
