/**
 * The "add a new listing" page: form validation, the comma-separated location
 * parse, the request body it sends and the form state it keeps. Numeric inputs
 * hold `None` while the input is empty; a number is falsy when absent or 0.
 */
module NewListing {
  import opened Optional
  import Strings
  import Server

  datatype Coordinates = Coordinates(lat: Option<real>, lng: Option<real>)

  datatype ProductForm = ProductForm(
    productName: string, category: string, price: Option<real>, location: string,
    coordinates: Coordinates, quantity: Option<real>, unit: string, description: string,
    image: Option<string>, preview: string)

  /**
   * The page's `errors` object: one entry per key it can hold, `None` where the key is
   * absent. It has no keys exactly when `IsEmpty()`.
   */
  datatype Errors = Errors(
    productName: Option<string>, category: Option<string>, price: Option<string>,
    quantity: Option<string>, location: Option<string>, coordinates: Option<string>,
    image: Option<string>, submit: Option<string>)
  {
    predicate IsEmpty() {
      productName.None? && category.None? && price.None? && quantity.None? &&
      location.None? && coordinates.None? && image.None? && submit.None?
    }
  }

  /** The messages `validateForm` writes. */
  const NameRequired := "Product name is required"
  const CategoryRequired := "Category is required"
  const PriceTooLow := "Price must be at least MK50"
  const QuantityNotPositive := "Quantity must be positive"
  const LocationRequired := "Location is required"
  const CoordinatesRequired := "Valid coordinates are required"
  const ImageRequired := "Image is required"

  const NoErrors := Errors(None, None, None, None, None, None, None, None)

  /** The only error a failed submission shows. */
  const SubmitFailed := NoErrors.(submit := Some("Failed to add product. Please try again."))

  /** The empty form the page starts with and returns to after a successful add. */
  function InitialForm(): ProductForm {
    ProductForm("", "", None, "", Coordinates(None, None), None, "kg", "", None, "")
  }

  /** JavaScript truthiness of a number: present and not 0. */
  predicate Truthy(x: Option<real>) {
    x.Some? && x.value != 0.0
  }

  /** The message for when `failed` holds, or no entry. */
  function ErrorIf(failed: bool, message: string): (r: Option<string>)
    ensures r.Some? <==> failed
  {
    if failed then Some(message) else None
  }

  /**
   * The errors `validateForm` reports (`!s.trim()` is blankness): a blank name or location, no category, a price
   * missing or below 50, a quantity missing or not positive, a missing or zero
   * coordinate and a missing image, each with its message; never a `submit` entry.
   */
  function FormErrors(p: ProductForm): (e: Errors)
    ensures e.productName.Some? <==> Strings.IsBlank(p.productName)
    ensures e.category.Some? <==> p.category == ""
    ensures e.price.Some? <==> p.price.None? || p.price.value < 50.0
    ensures e.quantity.Some? <==> p.quantity.None? || p.quantity.value <= 0.0
    ensures e.location.Some? <==> Strings.IsBlank(p.location)
    ensures e.coordinates.Some? <==>
      p.coordinates.lat.None? || p.coordinates.lat.value == 0.0 ||
      p.coordinates.lng.None? || p.coordinates.lng.value == 0.0
    ensures e.image.Some? <==> p.image.None?
    ensures e.submit.None?
  {
    Errors(NameError(p.productName), CategoryError(p.category), PriceError(p.price),
           QuantityError(p.quantity), LocationError(p.location), CoordinatesError(p.coordinates),
           ImageError(p.image), None)
  }

  function NameError(name: string): (r: Option<string>)
    ensures r.Some? <==> Strings.IsBlank(name)
  {
    ErrorIf(Strings.IsBlank(name), NameRequired)
  }

  function CategoryError(category: string): (r: Option<string>)
    ensures r.Some? <==> category == ""
  {
    ErrorIf(category == "", CategoryRequired)
  }

  function PriceError(price: Option<real>): (r: Option<string>)
    ensures r.Some? <==> price.None? || price.value < 50.0
  {
    ErrorIf(!Truthy(price) || price.value < 50.0, PriceTooLow)
  }

  function QuantityError(quantity: Option<real>): (r: Option<string>)
    ensures r.Some? <==> quantity.None? || quantity.value <= 0.0
  {
    ErrorIf(!Truthy(quantity) || quantity.value <= 0.0, QuantityNotPositive)
  }

  function LocationError(location: string): (r: Option<string>)
    ensures r.Some? <==> Strings.IsBlank(location)
  {
    ErrorIf(Strings.IsBlank(location), LocationRequired)
  }

  function CoordinatesError(c: Coordinates): (r: Option<string>)
    ensures r.Some? <==> c.lat.None? || c.lat.value == 0.0 || c.lng.None? || c.lng.value == 0.0
  {
    ErrorIf(!Truthy(c.lat) || !Truthy(c.lng), CoordinatesRequired)
  }

  function ImageError(image: Option<string>): (r: Option<string>)
    ensures r.Some? <==> image.None?
  {
    ErrorIf(image.None?, ImageRequired)
  }

  /** `validateForm`: the checks in order, each writing its key of a fresh error object. */
  method ValidateForm(p: ProductForm) returns (newErrors: Errors)
    ensures newErrors == FormErrors(p)
  {
    Strings.TrimEmptyIffBlank(p.productName);
    Strings.TrimEmptyIffBlank(p.location);
    var errors := NoErrors;
    if Strings.Trim(p.productName) == "" {
      errors := errors.(productName := Some(NameRequired));
    }
    assert errors == Errors(NameError(p.productName), None, None, None, None, None, None, None);
    if p.category == "" {
      errors := errors.(category := Some(CategoryRequired));
    }
    assert errors == Errors(NameError(p.productName), CategoryError(p.category), None, None, None, None, None, None);
    if !Truthy(p.price) || p.price.value < 50.0 {
      errors := errors.(price := Some(PriceTooLow));
    }
    assert errors == Errors(NameError(p.productName), CategoryError(p.category), PriceError(p.price),
                            None, None, None, None, None);
    if !Truthy(p.quantity) || p.quantity.value <= 0.0 {
      errors := errors.(quantity := Some(QuantityNotPositive));
    }
    assert errors == Errors(NameError(p.productName), CategoryError(p.category), PriceError(p.price),
                            QuantityError(p.quantity), None, None, None, None);
    if Strings.Trim(p.location) == "" {
      errors := errors.(location := Some(LocationRequired));
    }
    assert errors == Errors(NameError(p.productName), CategoryError(p.category), PriceError(p.price),
                            QuantityError(p.quantity), LocationError(p.location), None, None, None);
    if !Truthy(p.coordinates.lat) || !Truthy(p.coordinates.lng) {
      errors := errors.(coordinates := Some(CoordinatesRequired));
    }
    assert errors == FormErrors(p).(image := None);
    if p.image.None? {
      errors := errors.(image := Some(ImageRequired));
    }
    newErrors := errors;
  }

  /** A fresh or freshly reset form fails every check. */
  lemma InitialFormFailsEverything()
    ensures var e := FormErrors(InitialForm());
      e.productName.Some? && e.category.Some? && e.price.Some? && e.quantity.Some? &&
      e.location.Some? && e.coordinates.Some? && e.image.Some?
  {
    assert Strings.IsBlank("");
  }

  /** The place a location string names. */
  datatype Place = Place(city: string, district: string, country: string)

  function TrimAll(parts: seq<string>): (r: seq<string>)
    ensures |r| == |parts|
    ensures forall i :: 0 <= i < |parts| ==> r[i] == Strings.Trim(parts[i])
  {
    seq(|parts|, i requires 0 <= i < |parts| => Strings.Trim(parts[i]))
  }

  /**
   * The location parse of `handleAddProduct`: the trimmed comma-separated parts give
   * the city (the first), the district (the second, or "") and the country (the last).
   */
  function ParseLocation(s: string): (r: Place)
    ensures ',' !in s ==> r == Place(Strings.Trim(s), "", Strings.Trim(s))
    ensures ',' !in r.city && ',' !in r.district && ',' !in r.country
  {
    var parts := TrimAll(Strings.Split(s, ','));
    var place := Place(parts[0], if |parts| > 1 then parts[1] else "", parts[|parts| - 1]);
    if ',' in s then place
    else
      Strings.SplitNoSep(s, ',');
      place
  }

  /** Reading back a joined list of comma-free parts gives its first, second and last part, trimmed. */
  lemma ParseLocationOfJoin(parts: seq<string>)
    requires |parts| >= 1
    requires forall i :: 0 <= i < |parts| ==> ',' !in parts[i]
    ensures ParseLocation(Strings.Join(parts, ',')) ==
      Place(Strings.Trim(parts[0]), if |parts| > 1 then Strings.Trim(parts[1]) else "", Strings.Trim(parts[|parts| - 1]))
  {
    Strings.SplitJoin(parts, ',');
  }

  /** The request body `handleAddProduct` sends for a valid form. */
  function Payload(form: ProductForm, categoryId: int, imageUrl: Option<string>): (b: Server.ListingBody)
    requires FormErrors(form).IsEmpty()
    ensures b.status == "draft" && b.name == form.productName && b.imageUrl == imageUrl && b.categoryId == categoryId
    ensures b.price == form.price.value && b.quantity == form.quantity.value
    ensures b.unit == form.unit && b.description == form.description
    ensures b.location.latitude == form.coordinates.lat.value && b.location.longitude == form.coordinates.lng.value
    ensures b.location.latitude != 0.0 && b.location.longitude != 0.0
    ensures b.price >= 50.0 && b.quantity > 0.0
    ensures var place := ParseLocation(form.location);
      b.location.city == place.city && b.location.district == place.district && b.location.country == place.country
  {
    var place := ParseLocation(form.location);
    Server.ListingBody(
      categoryId,
      Server.LocationBody(place.city, place.district, place.country,
                          form.coordinates.lat.value, form.coordinates.lng.value),
      form.productName, form.price.value, form.quantity.value, form.unit, form.description, "draft", imageUrl)
  }

  /** The seller name the page shows on a listing it just added. */
  const CurrentSeller := "Current Seller"

  /** A listing kept on the page after it was added. */
  datatype Listed = Listed(id: nat, form: ProductForm, seller: string, status: string)

  /** How the three requests of `handleAddProduct` turned out. */
  datatype AddOutcome =
    | UploadFailed
    | CategoryFailed(imageUrl: Option<string>)
    | InsertFailed(imageUrl: Option<string>, categoryId: int)
    | Inserted(imageUrl: Option<string>, categoryId: int, productId: nat)

  /** One edit of a text or number input: `handleNewProductChange` with its `name` and `value`. */
  datatype FormInput =
    | NameInput(text: string)
    | CategoryInput(text: string)
    | PriceInput(number: Option<real>)
    | QuantityInput(number: Option<real>)
    | UnitInput(text: string)
    | DescriptionInput(text: string)

  function WithInput(f: ProductForm, input: FormInput): ProductForm {
    match input
    case NameInput(v) => f.(productName := v)
    case CategoryInput(v) => f.(category := v)
    case PriceInput(v) => f.(price := v)
    case QuantityInput(v) => f.(quantity := v)
    case UnitInput(v) => f.(unit := v)
    case DescriptionInput(v) => f.(description := v)
  }

  /** Editing one input changes the verdict of no check but its own. */
  lemma InputAffectsOwnCheck(f: ProductForm, input: FormInput)
    ensures var before, after := FormErrors(f), FormErrors(WithInput(f, input));
      && (!input.NameInput? ==> after.productName == before.productName)
      && (!input.CategoryInput? ==> after.category == before.category)
      && (!input.PriceInput? ==> after.price == before.price)
      && (!input.QuantityInput? ==> after.quantity == before.quantity)
      && after.location == before.location && after.coordinates == before.coordinates
      && after.image == before.image
  {
  }

  class NewListingPage {
    var products: seq<Listed>
    var form: ProductForm
    var errors: Errors

    constructor ()
      ensures products == [] && form == InitialForm() && errors == NoErrors
    {
      products, form, errors := [], InitialForm(), NoErrors;
    }

    /** `handleNewProductChange`: the named input takes the new value. */
    method HandleNewProductChange(input: FormInput)
      modifies this`form
      ensures form == WithInput(old(form), input)
    {
      form := WithInput(form, input);
    }

    /** `handleLocationChange`: the location text and its coordinates, as the location picker reports them. */
    method HandleLocationChange(location: string, coordinates: Coordinates)
      modifies this`form
      ensures form == old(form).(location := location, coordinates := coordinates)
    {
      form := form.(location := location, coordinates := coordinates);
    }

    /**
     * `handleAddProduct`. An invalid form only shows its errors and sends nothing.
     * A valid one is sent once an image URL and a category id are known; when the insert
     * succeeds the listing is appended as a draft, the form is reset and the errors
     * are cleared, and on any failure only the submit error is shown.
     */
    method HandleAddProduct(outcome: AddOutcome) returns (sent: Option<Server.ListingBody>)
      modifies this`products, this`form, this`errors
      ensures !FormErrors(old(form)).IsEmpty() ==>
        errors == FormErrors(old(form)) && form == old(form) && products == old(products) && sent == None
      ensures FormErrors(old(form)).IsEmpty() ==>
        && (outcome.InsertFailed? || outcome.Inserted? <==> sent.Some?)
        && (sent.Some? ==> sent.value == Payload(old(form), outcome.categoryId, outcome.imageUrl))
        && (if outcome.Inserted?
            then products == old(products) + [Listed(outcome.productId, old(form), CurrentSeller, "draft")]
                 && form == InitialForm() && errors == NoErrors
            else products == old(products) && form == old(form) && errors == SubmitFailed)
    {
      var validationErrors := ValidateForm(form);
      if !validationErrors.IsEmpty() {
        errors := validationErrors;
        return None;
      }
      sent := Submit(outcome);
    }

    /** The part of `handleAddProduct` after the form passed validation: the three requests and their outcome. */
    method Submit(outcome: AddOutcome) returns (sent: Option<Server.ListingBody>)
      requires FormErrors(form).IsEmpty()
      modifies this`products, this`form, this`errors
      ensures outcome.InsertFailed? || outcome.Inserted? <==> sent.Some?
      ensures sent.Some? ==> sent.value == Payload(old(form), outcome.categoryId, outcome.imageUrl)
      ensures outcome.Inserted? ==>
        products == old(products) + [Listed(outcome.productId, old(form), CurrentSeller, "draft")]
        && form == InitialForm() && errors == NoErrors
      ensures !outcome.Inserted? ==> products == old(products) && form == old(form) && errors == SubmitFailed
    {
      if outcome.UploadFailed? || outcome.CategoryFailed? {
        errors := SubmitFailed;
        return None;
      }
      sent := Some(Payload(form, outcome.categoryId, outcome.imageUrl));
      if outcome.InsertFailed? {
        errors := SubmitFailed;
        return;
      }
      products := products + [Listed(outcome.productId, form, CurrentSeller, "draft")];
      form := InitialForm();
      errors := NoErrors;
    }
  }
}
