/**
 * The product edit form: its field state, the image list and its preview,
 * and the update request it submits.
 */
module EditProductForm {
  import opened Wrappers
  import opened Types
  import opened Numbers
  import opened ImageList
  import opened Api

  /** The form's text fields, numbers held as the strings the inputs show, and the image URLs. */
  datatype FormData = FormData(
    name: string,
    price: string,
    quantity: string,
    categoryId: string,
    supplyId: string,
    description: string,
    discount: string,
    images: seq<string>)

  /** The inputs that report through `handleChange`, by their `name` attribute. */
  datatype Field = Name | Price | Quantity | CategoryId | SupplyId | Description | Discount

  function FieldValue(f: FormData, k: Field): string {
    match k
    case Name => f.name
    case Price => f.price
    case Quantity => f.quantity
    case CategoryId => f.categoryId
    case SupplyId => f.supplyId
    case Description => f.description
    case Discount => f.discount
  }

  /** `{ ...prev, [name]: value }`: the named field takes the value and nothing else changes. */
  function WithField(f: FormData, k: Field, v: string): (g: FormData)
    ensures FieldValue(g, k) == v
    ensures forall other :: other != k ==> FieldValue(g, other) == FieldValue(f, other)
    ensures g.images == f.images
  {
    match k
    case Name => f.(name := v)
    case Price => f.(price := v)
    case Quantity => f.(quantity := v)
    case CategoryId => f.(categoryId := v)
    case SupplyId => f.(supplyId := v)
    case Description => f.(description := v)
    case Discount => f.(discount := v)
  }

  /** The initial `formData`: the product's fields, numbers as decimal strings, a copy of its images or none. */
  function InitialForm(p: Product): FormData {
    FormData(p.name, IntToString(p.price), IntToString(p.quantity), p.categoryId, p.supplyId,
             p.description, IntToString(p.discount), p.images.GetOr([]))
  }

  /** The eight fields of the multipart update request, all text, and the product it targets. */
  datatype UpdatePayload = UpdatePayload(
    productId: string,
    name: string,
    price: string,
    quantity: string,
    categoryId: string,
    supplyId: string,
    description: string,
    discount: string,
    images: string)

  /** The request `handleSubmit` sends: the images go as one comma-joined string. */
  function PayloadOf(productId: string, f: FormData): UpdatePayload {
    UpdatePayload(productId, f.name, f.price, f.quantity, f.categoryId, f.supplyId,
                  f.description, f.discount, JoinComma(f.images))
  }

  /** The component's state; `previewImages` mirrors `formData.images`. */
  class EditProductForm {
    const productId: string
    var formData: FormData
    var previewImages: seq<string>
    var loading: bool

    ghost predicate Valid()
      reads this
    {
      previewImages == formData.images
    }

    constructor (product: Product)
      ensures Valid()
      ensures productId == product.id && formData == InitialForm(product) && !loading
    {
      productId := product.id;
      formData := InitialForm(product);
      previewImages := InitialForm(product).images;
      loading := false;
    }

    method HandleChange(k: Field, v: string)
      requires Valid()
      modifies this
      ensures Valid()
      ensures formData == WithField(old(formData), k, v) && loading == old(loading)
    {
      formData := WithField(formData, k, v);
    }

    /**
     * `uploadImage`, given what the image service returned: the URL of the
     * stored image, or nothing when the upload failed. A URL is appended to
     * both lists; a failure changes nothing.
     */
    method UploadImage(uploaded: Option<string>)
      requires Valid()
      modifies this
      ensures Valid() && loading == old(loading)
      ensures uploaded.Some? ==> formData == old(formData).(images := old(formData.images) + [uploaded.value])
      ensures uploaded.None? ==> formData == old(formData)
    {
      if uploaded.Some? {
        formData := formData.(images := formData.images + [uploaded.value]);
        previewImages := previewImages + [uploaded.value];
      }
    }

    method RemoveImage(url: string)
      requires Valid()
      modifies this
      ensures Valid() && loading == old(loading)
      ensures formData == old(formData).(images := Without(old(formData.images), url))
    {
      formData := formData.(images := Without(formData.images, url));
      previewImages := Without(previewImages, url);
    }

    /**
     * `handleSubmit`, given how the update request settled: returns the
     * request sent and whether `onSuccess` ran, which it does only after the
     * update succeeded. Loading is over either way; the form is kept.
     */
    method HandleSubmit(update: Settled<()>) returns (sent: UpdatePayload, succeeded: bool)
      requires Valid()
      modifies this
      ensures Valid() && !loading && formData == old(formData)
      ensures sent == PayloadOf(productId, formData)
      ensures succeeded <==> update.Fulfilled?
    {
      loading := true;
      var imageUrl := JoinComma(formData.images);
      sent := UpdatePayload(productId, formData.name, formData.price, formData.quantity,
                            formData.categoryId, formData.supplyId, formData.description,
                            formData.discount, imageUrl);
      succeeded := update.Fulfilled?;
      loading := false;
    }
  }

  /** Submitting an untouched form reads back the product's own numbers. */
  lemma UntouchedNumbersRoundTrip(p: Product)
    ensures ToNumber(PayloadOf(p.id, InitialForm(p)).price) == Finite(p.price)
    ensures ToNumber(PayloadOf(p.id, InitialForm(p)).quantity) == Finite(p.quantity)
    ensures ToNumber(PayloadOf(p.id, InitialForm(p)).discount) == Finite(p.discount)
  {
    IntStringRoundTrip(p.price);
    IntStringRoundTrip(p.quantity);
    IntStringRoundTrip(p.discount);
  }

  /**
   * The comma-joined `images` text still determines the list when there is
   * at least one image and no URL contains a comma.
   */
  lemma SubmittedImagesRecoverable(productId: string, f: FormData)
    requires |f.images| >= 1
    requires forall i :: 0 <= i < |f.images| ==> CommaFree(f.images[i])
    ensures SplitComma(PayloadOf(productId, f).images) == f.images
  {
    JoinSplitRoundTrip(f.images);
  }
}
