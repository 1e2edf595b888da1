/** The new-product form: its fields, its image list and the create request it submits. */
module AddProductForm {
  import opened Wrappers
  import opened Numbers
  import opened ImageList
  import opened Api

  datatype FormData = FormData(
    name: string,
    price: string,
    quantity: string,
    images: seq<string>,
    category: string,
    supplier: string,
    description: string)

  /** The inputs that report through `handleChange`, by their `name` attribute. */
  datatype Field = Name | Price | Quantity | Category | Supplier | Description

  const EmptyForm: FormData := FormData("", "", "", [], "", "", "")

  function FieldValue(f: FormData, k: Field): string {
    match k
    case Name => f.name
    case Price => f.price
    case Quantity => f.quantity
    case Category => f.category
    case Supplier => f.supplier
    case Description => f.description
  }

  /** `{ ...prev, [name]: value }`: exactly the named field changes. */
  function WithField(f: FormData, k: Field, v: string): (g: FormData)
    ensures FieldValue(g, k) == v
    ensures forall other :: other != k ==> FieldValue(g, other) == FieldValue(f, other)
    ensures g.images == f.images
  {
    match k
    case Name => f.(name := v)
    case Price => f.(price := v)
    case Quantity => f.(quantity := v)
    case Category => f.(category := v)
    case Supplier => f.(supplier := v)
    case Description => f.(description := v)
  }

  /** The body of `addProduct`: the form with price and quantity passed through `Number`. */
  datatype CreatePayload = CreatePayload(
    name: string,
    price: JsNumber,
    quantity: JsNumber,
    images: seq<string>,
    category: string,
    supplier: string,
    description: string)

  function PayloadOf(f: FormData): CreatePayload {
    CreatePayload(f.name, ToNumber(f.price), ToNumber(f.quantity), f.images, f.category,
                  f.supplier, f.description)
  }

  class AddProductForm {
    var formData: FormData
    var loading: bool

    constructor ()
      ensures formData == EmptyForm && !loading
    {
      formData := EmptyForm;
      loading := false;
    }

    method HandleChange(k: Field, v: string)
      modifies this
      ensures formData == WithField(old(formData), k, v) && loading == old(loading)
    {
      formData := WithField(formData, k, v);
    }

    /** `uploadImage`, given the stored image's URL or nothing on a failed upload. */
    method UploadImage(uploaded: Option<string>)
      modifies this
      ensures loading == old(loading)
      ensures uploaded.Some? ==> formData == old(formData).(images := old(formData.images) + [uploaded.value])
      ensures uploaded.None? ==> formData == old(formData)
    {
      if uploaded.Some? {
        formData := formData.(images := formData.images + [uploaded.value]);
      }
    }

    method RemoveImage(url: string)
      modifies this
      ensures loading == old(loading)
      ensures formData == old(formData).(images := Without(old(formData.images), url))
    {
      formData := formData.(images := Without(formData.images, url));
    }

    /**
     * `handleSubmit`, given how `addProduct` settled: the request sent, and
     * whether `onSuccess` ran, which it does only on success.
     */
    method HandleSubmit(create: Settled<()>) returns (sent: CreatePayload, succeeded: bool)
      modifies this
      ensures !loading && formData == old(formData)
      ensures sent == PayloadOf(formData)
      ensures succeeded <==> create.Fulfilled?
    {
      loading := true;
      sent := CreatePayload(formData.name, ToNumber(formData.price), ToNumber(formData.quantity),
                            formData.images, formData.category, formData.supplier, formData.description);
      succeeded := create.Fulfilled?;
      loading := false;
    }
  }

  /** Price and quantity go through `Number`: a typed integer arrives as that integer. */
  lemma PayloadConvertsOnlyNumbers(f: FormData, price: int, quantity: int)
    requires f.price == IntToString(price) && f.quantity == IntToString(quantity)
    ensures PayloadOf(f).price == Finite(price) && PayloadOf(f).quantity == Finite(quantity)
  {
    IntStringRoundTrip(price);
    IntStringRoundTrip(quantity);
  }

  /** Every field other than price and quantity is sent as typed, whatever the form holds. */
  lemma PayloadKeepsTextFields(f: FormData)
    ensures PayloadOf(f).name == f.name && PayloadOf(f).images == f.images
    ensures PayloadOf(f).category == f.category && PayloadOf(f).supplier == f.supplier
    ensures PayloadOf(f).description == f.description
  {
  }

  /** Submitting the untouched form sends price and quantity 0 (`Number('')` is 0) and no images. */
  lemma EmptyFormPayload()
    ensures PayloadOf(EmptyForm) == CreatePayload("", Finite(0), Finite(0), [], "", "", "")
  {
  }
}
