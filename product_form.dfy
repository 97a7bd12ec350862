/**
 * The product form: resolves a scanned barcode to product details, lets the
 * user edit them and pick a profile, and on submit hands a draft to the item
 * store.
 */
module ProductForm {
  import opened Wrappers
  import opened Text
  import opened ProfileContext
  import opened BarcodeContext

  /** The form's product state, a `Partial<BarcodeItem>`: every field may be absent. */
  datatype ProductFields = ProductFields(
    barcode: Option<string>,
    productName: Option<string>,
    productImage: Option<string>,
    description: Option<string>,
    price: Option<string>,
    retailer: Option<string>)

  /** The form fields, by the `name` an input event carries. */
  datatype Field = Barcode | ProductName | ProductImage | Description | Price | Retailer

  /** The value of one field. */
  function Get(p: ProductFields, f: Field): Option<string> {
    match f
    case Barcode => p.barcode
    case ProductName => p.productName
    case ProductImage => p.productImage
    case Description => p.description
    case Price => p.price
    case Retailer => p.retailer
  }

  const UnknownName := "Unknown Product"
  const UnknownDescription := "No details available for this barcode"

  /**
   * The mocked product lookup: two known barcodes resolve to fixed records,
   * any other to a fallback with a placeholder name and description and no
   * image, price or retailer. The result always echoes the barcode and
   * always has a non-empty name.
   */
  function FetchProductDetails(barcode: string): (r: ProductFields)
    ensures r.barcode == Some(barcode)
    ensures r.productName.Some? && r.productName.value != ""
    ensures barcode == "9780735211292" ==>
      r.productName == Some("Atomic Habits") && r.price == Some("$11.98") && r.retailer == Some("Amazon")
    ensures barcode == "5060624582615" ==>
      r.productName == Some("LEGO Star Wars Set") && r.price == Some("$19.99") && r.retailer == Some("Target")
    ensures barcode != "9780735211292" && barcode != "5060624582615" ==>
      r.productName == Some(UnknownName) && r.description == Some(UnknownDescription) &&
      r.productImage == None && r.price == None && r.retailer == None
  {
    if barcode == "9780735211292" then
      ProductFields(Some(barcode), Some("Atomic Habits"),
                    Some("https://m.media-amazon.com/images/I/81wgcld4wxL._AC_UF1000,1000_QL80_.jpg"),
                    Some("An Easy & Proven Way to Build Good Habits & Break Bad Ones"),
                    Some("$11.98"), Some("Amazon"))
    else if barcode == "5060624582615" then
      ProductFields(Some(barcode), Some("LEGO Star Wars Set"),
                    Some("https://m.media-amazon.com/images/I/81wId1U0gnL._AC_SL1500_.jpg"),
                    Some("Building set with popular Star Wars character"),
                    Some("$19.99"), Some("Target"))
    else
      ProductFields(Some(barcode), Some(UnknownName), None, Some(UnknownDescription), None, None)
  }

  /** The form's state before the lookup finishes: the barcode, every other field `''`. */
  function InitialFields(barcode: string): (r: ProductFields)
    ensures r.barcode == Some(barcode)
    ensures forall f :: f != Barcode ==> Get(r, f) == Some("")
  {
    ProductFields(Some(barcode), Some(""), Some(""), Some(""), Some(""), Some(""))
  }

  /** `{ ...prev, ...details }`: a field present in `details` wins, any other keeps its old value. */
  function Merge(prev: ProductFields, details: ProductFields): (r: ProductFields)
    ensures forall f :: Get(r, f) == if Get(details, f).Some? then Get(details, f) else Get(prev, f)
  {
    ProductFields(
      if details.barcode.Some? then details.barcode else prev.barcode,
      if details.productName.Some? then details.productName else prev.productName,
      if details.productImage.Some? then details.productImage else prev.productImage,
      if details.description.Some? then details.description else prev.description,
      if details.price.Some? then details.price else prev.price,
      if details.retailer.Some? then details.retailer else prev.retailer)
  }

  /** `{ ...prev, [name]: value }`: the named field takes `value`, every other field is kept. */
  function WithField(p: ProductFields, name: Field, value: string): (r: ProductFields)
    ensures Get(r, name) == Some(value)
    ensures forall f :: f != name ==> Get(r, f) == Get(p, f)
  {
    match name
    case Barcode => p.(barcode := Some(value))
    case ProductName => p.(productName := Some(value))
    case ProductImage => p.(productImage := Some(value))
    case Description => p.(description := Some(value))
    case Price => p.(price := Some(value))
    case Retailer => p.(retailer := Some(value))
  }

  /**
   * After the lookup, the form holds the fetched details with every field
   * the lookup left out at `''`: no field is absent, the barcode is the one
   * scanned and the name is the fetched one.
   */
  lemma LoadedFields(barcode: string)
    ensures var loaded, details := Merge(InitialFields(barcode), FetchProductDetails(barcode)), FetchProductDetails(barcode);
      (forall f :: Get(loaded, f).Some?) &&
      loaded.barcode == Some(barcode) && loaded.productName == details.productName &&
      (forall f :: Get(details, f).None? ==> Get(loaded, f) == Some(""))
  {
  }

  /** What submitting decides: a missing-name or missing-profile toast, or the draft passed to `addItem`. */
  datatype Submission = MissingProductName | MissingProfile | Save(draft: ItemDraft)

  /**
   * `handleSubmit`'s guards and draft: no save without a product name, then
   * none without a selected profile; otherwise a draft for that profile with
   * the form's name, its barcode (or `''`) and its optional fields as they are.
   */
  function Submit(product: ProductFields, selected: Option<Profile>): (r: Submission)
    ensures r.MissingProductName? <==> !Truthy(product.productName)
    ensures r.MissingProfile? <==> Truthy(product.productName) && selected.None?
    ensures r.Save? ==>
      && selected.Some?
      && r.draft.profileId == selected.value.id
      && r.draft.productName == product.productName.value
      && r.draft.productName != ""
      && r.draft.barcode == (if product.barcode.Some? then product.barcode.value else "")
      && r.draft.productImage == product.productImage
      && r.draft.description == product.description
      && r.draft.price == product.price
      && r.draft.retailer == product.retailer
  {
    if !Truthy(product.productName) then MissingProductName
    else if selected.None? then MissingProfile
    else Save(ItemDraft(
      selected.value.id,
      Or(product.barcode, ""),
      Or(product.productName, UnknownName),
      product.productImage,
      product.description,
      product.price,
      product.retailer))
  }

  /**
   * A scan saved without edits: the item carries the scanned barcode, the
   * fetched name and the chosen profile; an unknown barcode is saved with
   * the placeholder name and description and with `''` for the image, price
   * and retailer rather than with those fields absent.
   */
  lemma SavedScan(barcode: string, profile: Profile)
    ensures var s := Submit(Merge(InitialFields(barcode), FetchProductDetails(barcode)), Some(profile));
      && s.Save?
      && s.draft.barcode == barcode
      && s.draft.profileId == profile.id
      && Some(s.draft.productName) == FetchProductDetails(barcode).productName
      && (barcode != "9780735211292" && barcode != "5060624582615" ==>
            s.draft.productName == UnknownName && s.draft.description == Some(UnknownDescription) &&
            s.draft.productImage == Some("") && s.draft.price == Some("") && s.draft.retailer == Some(""))
  {
  }

  /**
   * The form component's state: its props (`barcode`, `profileId`), the
   * product fields, the loading and saving flags, the selected profile,
   * and the two stores it uses.
   */
  class FormState {
    const barcode: string
    const profileId: Option<string>
    const profiles: ProfileProvider
    const barcodes: BarcodeProvider
    var product: ProductFields
    var loading: bool
    var saving: bool
    var selectedProfile: Option<Profile>

    constructor (barcode: string, profileId: Option<string>, profiles: ProfileProvider, barcodes: BarcodeProvider)
      ensures this.barcode == barcode && this.profileId == profileId
      ensures this.profiles == profiles && this.barcodes == barcodes
      ensures product == InitialFields(barcode)
      ensures loading && !saving && selectedProfile == None
    {
      this.barcode := barcode;
      this.profileId := profileId;
      this.profiles := profiles;
      this.barcodes := barcodes;
      product := InitialFields(barcode);
      loading := true;
      saving := false;
      selectedProfile := None;
    }

    /**
     * The load effect: merges the fetched details into the form and, when
     * a `profileId` prop names an existing profile, selects it.
     */
    method LoadProductDetails()
      modifies this
      ensures product == Merge(old(product), FetchProductDetails(barcode))
      ensures selectedProfile ==
        if Truthy(profileId) && profiles.GetProfileById(profileId.value).Some?
        then profiles.GetProfileById(profileId.value) else old(selectedProfile)
      ensures !loading && saving == old(saving)
    {
      loading := true;
      var details := FetchProductDetails(barcode);
      product := Merge(product, details);
      if Truthy(profileId) {
        var profile := profiles.GetProfileById(profileId.value);
        if profile.Some? {
          selectedProfile := profile;
        }
      }
      loading := false;
    }

    /** `handleChange`: an input event for field `name` with text `value`. */
    method HandleChange(name: Field, value: string)
      modifies this`product
      ensures product == WithField(old(product), name, value)
    {
      product := WithField(product, name, value);
    }

    /** `handleProfileSelect`: a profile button was pressed. */
    method HandleProfileSelect(profile: Profile)
      modifies this`selectedProfile
      ensures selectedProfile == Some(profile)
    {
      selectedProfile := Some(profile);
    }

    /**
     * `handleSubmit`, with `id` and `dateAdded` the clock readings `addItem`
     * takes. When the guards pass the draft is appended to the store and the
     * saving flag ends cleared. Because `addItem` returns nothing, the branch
     * that would clear the scan slot and leave the page is never taken: the
     * slot keeps its barcode.
     */
    method HandleSubmit(id: string, dateAdded: string) returns (outcome: Submission)
      requires barcodes.Valid()
      modifies this`saving, barcodes
      ensures barcodes.Valid() && barcodes.loading == old(barcodes.loading)
      ensures outcome == Submit(product, selectedProfile)
      ensures outcome.Save? ==>
        barcodes.items == old(barcodes.items) + [Stamp(outcome.draft, id, dateAdded)] && !saving
      ensures !outcome.Save? ==> barcodes.items == old(barcodes.items) && saving == old(saving)
      ensures barcodes.currentBarcode == old(barcodes.currentBarcode)
      ensures barcodes.loading ==> barcodes.persisted == old(barcodes.persisted)
    {
      outcome := Submit(product, selectedProfile);
      if outcome.Save? {
        saving := true;
        barcodes.AddItem(outcome.draft, id, dateAdded);
        saving := false;
      }
    }

    /** The Cancel button: clears the scan slot and leaves the items alone. */
    method Cancel()
      modifies barcodes`currentBarcode
      ensures barcodes.currentBarcode == None
    {
      barcodes.SetCurrentBarcode(None);
    }
  }
}
