/** Starting an order and the payment dialog: `placeOrder` and the confirm
    handler of `showPaymentModal`. The dialog is a small state machine:
    Idle, then Collecting (the dialog is open), then Cancelled or Confirmed. */
module Order {
  import opened Common
  import opened Text

  /** The three radio buttons of the dialog; Credit Card is checked when it opens. */
  datatype PaymentMethod = CreditCard | Upi | CashOnDelivery

  /** What the dialog holds when Confirm is clicked: the checked payment method
      and the raw text of the name, phone and address fields. */
  datatype PaymentForm = PaymentForm(payment: PaymentMethod, name: string, phone: string, address: string)

  /** The object handed to the callback: `{paymentMethod, name, phone, address}`. */
  datatype OrderDetails = OrderDetails(paymentMethod: PaymentMethod, name: string, phone: string, address: string)

  /** The alert shown for the first failing check. */
  datatype ValidationError = MissingName | InvalidPhone | MissingAddress

  /** The shortest phone number accepted, after trimming. */
  const MinPhoneLength: nat := 7

  /** The field holds nothing but white space. */
  ghost predicate Blank(s: string) {
    forall i :: 0 <= i < |s| ==> IsWhiteSpace(s[i])
  }

  /** The confirm handler's checks, in order: a name, then a phone number of
      at least seven characters, then an address, each after trimming. The
      first failing check is the error; when all pass the details carry the
      trimmed fields. */
  function Validate(form: PaymentForm): (r: Result<OrderDetails, ValidationError>)
    ensures r == Err(MissingName) <==> Blank(form.name)
    ensures r == Err(InvalidPhone) <==> !Blank(form.name) && |Trim(form.phone)| < MinPhoneLength
    ensures r == Err(MissingAddress) <==>
              !Blank(form.name) && |Trim(form.phone)| >= MinPhoneLength && Blank(form.address)
    ensures r.Ok? ==> && r.value.paymentMethod == form.payment
                      && r.value.name == Trim(form.name)
                      && r.value.phone == Trim(form.phone)
                      && r.value.address == Trim(form.address)
  {
    TrimEmptyIffBlank(form.name);
    TrimEmptyIffBlank(form.address);
    var name := Trim(form.name);
    var phone := Trim(form.phone);
    var address := Trim(form.address);
    if name == [] then Err(MissingName)
    else if phone == [] || |phone| < MinPhoneLength then Err(InvalidPhone)
    else if address == [] then Err(MissingAddress)
    else Ok(OrderDetails(form.payment, name, phone, address))
  }

  /** Details that passed validation are well formed: every field is
      non-empty and trimmed, and the phone has at least seven characters. */
  ghost predicate WellFormed(d: OrderDetails) {
    && d.name != [] && d.address != [] && |d.phone| >= MinPhoneLength
    && Trim(d.name) == d.name && Trim(d.phone) == d.phone && Trim(d.address) == d.address
  }

  /** Whatever passes validation is well formed, and submitting it again
      yields the very same details. */
  lemma ValidatedIsWellFormed(form: PaymentForm)
    requires Validate(form).Ok?
    ensures WellFormed(Validate(form).value)
    ensures var d := Validate(form).value;
            Validate(PaymentForm(d.paymentMethod, d.name, d.phone, d.address)) == Ok(d)
  {
    TrimIdempotent(form.name);
    TrimIdempotent(form.phone);
    TrimIdempotent(form.address);
  }

  /** Where the checkout stands. `Collecting` is the open dialog, with the
      alert of the last rejected confirm, if any. */
  datatype Phase = Idle | Collecting(lastError: Option<ValidationError>) | Cancelled | Confirmed(details: OrderDetails)

  /** `placeOrder`: with a running total of zero the attempt is refused and
      nothing opens; otherwise the payment dialog opens with no error shown. */
  function PlaceOrder(total: int): (p: Phase)
    ensures total == 0 ==> p == Idle
    ensures total != 0 ==> p == Collecting(None)
  {
    if total == 0 then Idle else Collecting(None)
  }

  /** The button pressed in the payment dialog: Cancel, or Confirm with the
      form as filled in at that moment. */
  datatype DialogAction = PressCancel | PressConfirm(form: PaymentForm)

  /** The Cancel button closes the dialog; the cart is not touched. */
  function Cancel(p: Phase): (q: Phase)
    requires p.Collecting?
    ensures q == Cancelled
  {
    Cancelled
  }

  /** The Confirm button: a rejected form keeps the dialog open and reports
      the first failing check, without calling the callback; an accepted one
      closes it and hands on the trimmed details. */
  function Confirm(p: Phase, form: PaymentForm): (q: Phase)
    requires p.Collecting?
    ensures q.Confirmed? || q.Collecting?
    ensures q.Confirmed? <==> !Blank(form.name) && |Trim(form.phone)| >= MinPhoneLength && !Blank(form.address)
    ensures q.Confirmed? ==> WellFormed(q.details) && q.details.paymentMethod == form.payment
    ensures q.Confirmed? ==> Validate(form) == Ok(q.details)
    ensures q.Collecting? ==> q.lastError.Some? && Validate(form) == Err(q.lastError.value)
  {
    var r := Validate(form);
    if r.Ok? then
      ValidatedIsWellFormed(form);
      Confirmed(r.value)
    else
      Collecting(Some(r.error))
  }

  /** A phone of three characters is refused at the phone check and the
      dialog stays open. */
  lemma ShortPhoneRefused()
    ensures Confirm(Collecting(None), PaymentForm(Upi, "Asha", "123", "12 Park Street"))
            == Collecting(Some(InvalidPhone))
  {
    var form := PaymentForm(Upi, "Asha", "123", "12 Park Street");
    assert form.name[0] == 'A' && !IsWhiteSpace(form.name[0]);
    assert !Blank(form.name);
    assert |Trim(form.phone)| <= 3;
  }

  /** `s` is non-empty and has no white space at either end. */
  predicate NeedsNoTrim(s: string) {
    s != [] && !IsWhiteSpace(s[0]) && !IsWhiteSpace(s[|s| - 1])
  }

  /** A form whose fields need no trimming and pass every check reaches the
      callback exactly as it was typed. */
  lemma TrimmedFormAccepted(form: PaymentForm)
    requires NeedsNoTrim(form.name) && NeedsNoTrim(form.address)
    requires NeedsNoTrim(form.phone) && |form.phone| >= MinPhoneLength
    ensures Validate(form) == Ok(OrderDetails(form.payment, form.name, form.phone, form.address))
    ensures Confirm(Collecting(None), form)
            == Confirmed(OrderDetails(form.payment, form.name, form.phone, form.address))
  {
    TrimFixesTrimmed(form.name);
    TrimFixesTrimmed(form.phone);
    TrimFixesTrimmed(form.address);
  }
}
