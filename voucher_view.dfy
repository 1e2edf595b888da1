/**
 * The voucher view: its own voucher list fetched on mount, and one modal
 * form that creates a voucher or updates the one being edited.
 */
module VoucherView {
  import opened Wrappers
  import opened Types
  import opened Numbers
  import opened Api

  /** The form's seven fields, all text as the inputs hold them. */
  datatype FormData = FormData(
    code: string,
    description: string,
    discountValue: string,
    minimumOrder: string,
    usageLimit: string,
    startDate: string,
    endDate: string)

  datatype Field = Code | Description | DiscountValue | MinimumOrder | UsageLimit | StartDate | EndDate

  const EmptyForm: FormData := FormData("", "", "", "", "", "", "")

  function FieldValue(f: FormData, k: Field): string {
    match k
    case Code => f.code
    case Description => f.description
    case DiscountValue => f.discountValue
    case MinimumOrder => f.minimumOrder
    case UsageLimit => f.usageLimit
    case StartDate => f.startDate
    case EndDate => f.endDate
  }

  /** `handleChange`: exactly the named field changes. */
  function WithField(f: FormData, k: Field, v: string): (g: FormData)
    ensures FieldValue(g, k) == v
    ensures forall other :: other != k ==> FieldValue(g, other) == FieldValue(f, other)
  {
    match k
    case Code => f.(code := v)
    case Description => f.(description := v)
    case DiscountValue => f.(discountValue := v)
    case MinimumOrder => f.(minimumOrder := v)
    case UsageLimit => f.(usageLimit := v)
    case StartDate => f.(startDate := v)
    case EndDate => f.(endDate := v)
  }

  /** `s.substring(0, 10)`: the first ten characters, or all of a shorter string. */
  function DatePart(iso: string): (r: string)
    ensures |r| == if |iso| < 10 then |iso| else 10
    ensures iso == r + iso[|r|..]
  {
    if |iso| < 10 then iso else iso[..10]
  }

  /** The form `handleEdit` fills in: numbers as decimal strings, dates cut to their day. */
  function EditFormOf(v: Voucher): FormData {
    FormData(v.code, v.description, IntToString(v.discountValue), IntToString(v.minimumOrder),
             IntToString(v.usageLimit), DatePart(v.startDate), DatePart(v.endDate))
  }

  /** The body of `createVoucher`/`updateVoucher`: the three numeric fields through `Number`. */
  datatype VoucherPayload = VoucherPayload(
    code: string,
    description: string,
    discountValue: JsNumber,
    minimumOrder: JsNumber,
    usageLimit: JsNumber,
    startDate: string,
    endDate: string)

  function PayloadOf(f: FormData): VoucherPayload {
    VoucherPayload(f.code, f.description, ToNumber(f.discountValue), ToNumber(f.minimumOrder),
            ToNumber(f.usageLimit), f.startDate, f.endDate)
  }

  /** Which write a submit issues: an update of the voucher being edited, else a create. */
  function SubmitCall(editing: Option<Voucher>): (op: Operation)
    ensures editing.Some? ==> op == UpdateVoucher(editing.value.id)
    ensures editing.None? <==> op == CreateVoucher
  {
    match editing
    case Some(v) => UpdateVoucher(v.id)
    case None => CreateVoucher
  }

  class VoucherView {
    var showForm: bool
    var loading: bool
    var vouchers: seq<Voucher>
    var editingVoucher: Option<Voucher>
    var formData: FormData

    constructor ()
      ensures !showForm && !loading && vouchers == [] && editingVoucher == None && formData == EmptyForm
    {
      showForm, loading := false, false;
      vouchers := [];
      editingVoucher := None;
      formData := EmptyForm;
    }

    /** The modal is open while the form is shown or a voucher is being edited. */
    predicate ModalOpen()
      reads this
    {
      showForm || editingVoucher.Some?
    }

    /** `fetchVouchers`, given how the read settled: a failure leaves the list as it was. */
    method FetchVouchers(fetched: Settled<seq<Voucher>>)
      modifies this`vouchers
      ensures vouchers == if fetched.Fulfilled? then fetched.value else old(vouchers)
    {
      if fetched.Fulfilled? {
        vouchers := fetched.value;
      }
    }

    /**
     * `handleSubmit`, given how the write settled and how the re-fetch it
     * starts settles: returns the call and the body sent. On success the
     * list is re-fetched, the modal closes, editing ends and the form
     * resets; on failure only loading changes.
     */
    method HandleSubmit(write: Settled<()>, refetch: Settled<seq<Voucher>>)
      returns (call: Operation, sent: VoucherPayload)
      modifies this
      ensures call == SubmitCall(old(editingVoucher)) && sent == PayloadOf(old(formData))
      ensures !loading
      ensures write.Fulfilled? ==>
        && vouchers == (if refetch.Fulfilled? then refetch.value else old(vouchers))
        && !showForm && editingVoucher == None && formData == EmptyForm && !ModalOpen()
      ensures write.Rejected? ==>
        && vouchers == old(vouchers) && showForm == old(showForm)
        && editingVoucher == old(editingVoucher) && formData == old(formData)
    {
      loading := true;
      call := SubmitCall(editingVoucher);
      sent := VoucherPayload(formData.code, formData.description, ToNumber(formData.discountValue),
                      ToNumber(formData.minimumOrder), ToNumber(formData.usageLimit),
                      formData.startDate, formData.endDate);
      if write.Fulfilled? {
        showForm := false;
        editingVoucher := None;
        formData := EmptyForm;
        FetchVouchers(refetch);
      }
      loading := false;
    }

    /** `handleEdit`: edit mode on `v`, its values in the form, the modal open. */
    method HandleEdit(v: Voucher)
      modifies this`editingVoucher, this`formData, this`showForm
      ensures editingVoucher == Some(v) && formData == EditFormOf(v) && showForm && ModalOpen()
    {
      editingVoucher := Some(v);
      formData := EditFormOf(v);
      showForm := true;
    }

    method HandleChange(k: Field, v: string)
      modifies this`formData
      ensures formData == WithField(old(formData), k, v)
    {
      formData := WithField(formData, k, v);
    }

    /** The "create" button: create mode with an empty form, the modal open. */
    method OpenCreate()
      modifies this`editingVoucher, this`formData, this`showForm
      ensures editingVoucher == None && formData == EmptyForm && showForm
    {
      editingVoucher := None;
      formData := EmptyForm;
      showForm := true;
    }

    /** Cancel: the modal closes and editing ends, but the typed values stay in the form. */
    method Cancel()
      modifies this`editingVoucher, this`showForm
      ensures editingVoucher == None && !showForm && !ModalOpen()
    {
      showForm := false;
      editingVoucher := None;
    }
  }

  /** Editing a voucher and submitting it unchanged sends its own numbers back. */
  lemma EditSubmitRoundTrip(v: Voucher)
    ensures PayloadOf(EditFormOf(v)).discountValue == Finite(v.discountValue)
    ensures PayloadOf(EditFormOf(v)).minimumOrder == Finite(v.minimumOrder)
    ensures PayloadOf(EditFormOf(v)).usageLimit == Finite(v.usageLimit)
    ensures PayloadOf(EditFormOf(v)).code == v.code && PayloadOf(EditFormOf(v)).description == v.description
  {
    IntStringRoundTrip(v.discountValue);
    IntStringRoundTrip(v.minimumOrder);
    IntStringRoundTrip(v.usageLimit);
  }

  /** An ISO-8601 instant as `toISOString` writes it: `YYYY-MM-DDTHH:mm:ss.sssZ`. */
  predicate IsIsoInstant(s: string) {
    && |s| == 24
    && (forall i :: 0 <= i < 4 ==> IsDigit(s[i]))
    && s[4] == '-' && IsDigit(s[5]) && IsDigit(s[6])
    && s[7] == '-' && IsDigit(s[8]) && IsDigit(s[9])
    && s[10] == 'T' && s[23] == 'Z'
  }

  /** A calendar day as a date input holds it: `YYYY-MM-DD`. */
  predicate IsIsoDay(s: string) {
    && |s| == 10
    && (forall i :: 0 <= i < 4 ==> IsDigit(s[i]))
    && s[4] == '-' && IsDigit(s[5]) && IsDigit(s[6])
    && s[7] == '-' && IsDigit(s[8]) && IsDigit(s[9])
  }

  /** Cutting an ISO instant to ten characters leaves exactly its day, which a date input accepts. */
  lemma DatePartIsDay(s: string)
    requires IsIsoInstant(s)
    ensures IsIsoDay(DatePart(s)) && s == DatePart(s) + s[10..]
  {
  }

  /** The worked example: the typed values reach the create request as numbers and days. */
  lemma CreateExample()
    ensures
      var f := FormData("NEWYEAR", "d", "10", "100000", "5", "2024-01-01", "2024-01-31");
      PayloadOf(f) == VoucherPayload("NEWYEAR", "d", Finite(10), Finite(100000), Finite(5), "2024-01-01", "2024-01-31")
  {
    IntStringRoundTrip(10);
    IntStringRoundTrip(100000);
    IntStringRoundTrip(5);
    assert IntToString(10) == "10";
    assert IntToString(100000) == "100000";
    assert IntToString(5) == "5";
  }
}
