/**
 * The checkout page as a view object: the contact form, the promo-code fields, the
 * terms checkbox, the error map and the handlers that change them. The answers of the
 * promo and booking services are parameters of the handlers that wait for them.
 */
module Checkout {
  import opened Wrappers
  import opened JsString
  import opened Types
  import opened Validators
  import Pricing

  /** The three text inputs of the contact form. */
  datatype ContactForm = ContactForm(name: string, email: string, phone: string)

  /** Where the page has sent the browser. */
  datatype Navigation = Stay | ToHome | ToSuccess(booking: Booking)

  /** What became of a promo validation: the service's answer (possibly empty), or a
      rejection carrying the server's message, if any. */
  datatype PromoOutcome = Validated(answer: Option<PromoCodeValidation>) | Rejected(message: Option<string>)

  /** What became of a booking request: the service's answer, or a failure carrying
      the server's message, if any. */
  datatype BookingOutcome = Responded(response: ApiResponse<Booking>) | Failed(message: Option<string>)

  const PromoRejectedMessage: string := "Invalid or expired promo code"
  const TermsAlert: string := "Please agree to the terms and safety policy"
  const BookingFailedAlert: string := "Booking failed. Please try again."

  /** `message || fallback`: the server's message when there is a non-empty one. */
  function MessageOr(message: Option<string>, fallback: string): (m: string)
    ensures message.Some? && message.value != "" ==> m == message.value
    ensures !(message.Some? && message.value != "") ==> m == fallback
    ensures fallback != "" ==> m != ""
  {
    if message.Some? && message.value != "" then message.value else fallback
  }

  /** `appliedPromo?.data?.code || undefined`: the applied code, absent when there is no
      promo, no data or an empty code. */
  function PromoCodeOf(applied: Option<PromoCodeValidation>): (code: Option<string>)
    ensures code.Some? <==> applied.Some? && applied.value.data.Some? && applied.value.data.value.code != ""
    ensures code.Some? ==> code.value == applied.value.data.value.code
  {
    match applied
    case None => None
    case Some(v) =>
      match v.data
      case None => None
      case Some(p) => if p.code == "" then None else Some(p.code)
  }

  /** The value of one text input. */
  function FieldValue(form: ContactForm, field: FormField): string
    requires field != NumberOfPeople
  {
    match field
    case Name => form.name
    case Email => form.email
    case Phone => form.phone
  }

  /** `{ ...prev, [name]: value }`: the form with one input replaced. */
  function WithField(form: ContactForm, field: FormField, value: string): (r: ContactForm)
    requires field != NumberOfPeople
    ensures FieldValue(r, field) == value
    ensures forall g :: g != NumberOfPeople && g != field ==> FieldValue(r, g) == FieldValue(form, g)
  {
    match field
    case Name => form.(name := value)
    case Email => form.(email := value)
    case Phone => form.(phone := value)
  }

  /** `!code.trim()`: the code is empty once trimmed, that is, all whitespace. */
  method IsBlankCode(code: string) returns (blank: bool)
    ensures blank <==> AllWhitespace(code)
  {
    TrimIsEmptyIffBlank(code);
    blank := Trim(code) == "";
  }

  /** The data `validateBookingForm` is given on submit. */
  function SubmittedFields(form: ContactForm, quantity: int): BookingFields {
    BookingFields(form.name, form.email, form.phone, quantity)
  }

  /** Every stored error is its field's message, or the empty string an edit leaves. */
  predicate ErrorsWellFormed(errors: map<FormField, string>) {
    forall f :: f in errors ==> errors[f] == ErrorMessage(f) || errors[f] == ""
  }

  class CheckoutView {
    var state: Option<CheckoutState>
    var formData: ContactForm
    var promoCode: string
    var appliedPromo: Option<PromoCodeValidation>
    var promoError: string
    var applyingPromo: bool
    var agreeToTerms: bool
    var errors: map<FormField, string>
    var loading: bool
    var navigation: Navigation

    /** Between handlers no request is pending; an applied promo shows no error; the
        promo input holds upper-case text; errors hold only the fixed messages. */
    predicate Valid()
      reads this
    {
      && !applyingPromo && !loading
      && (appliedPromo.Some? ==> promoError == "")
      && ToUpper(promoCode) == promoCode
      && ErrorsWellFormed(errors)
    }

    /** The page as opened with the navigation state `state`; without one it redirects
        home. */
    constructor (state: Option<CheckoutState>)
      ensures Valid()
      ensures this.state == state
      ensures formData == ContactForm("", "", "") && promoCode == "" && appliedPromo.None?
      ensures promoError == "" && !agreeToTerms && errors == map[]
      ensures navigation == if state.None? then ToHome else Stay
    {
      this.state := state;
      formData := ContactForm("", "", "");
      promoCode := "";
      appliedPromo := None;
      promoError := "";
      applyingPromo := false;
      agreeToTerms := false;
      errors := map[];
      loading := false;
      navigation := if state.None? then ToHome else Stay;
    }

    /** Price times quantity, before tax. */
    function Subtotal(): (subtotal: real)
      reads this
      requires state.Some?
      ensures subtotal == state.value.experience.price * state.value.quantity as real
    {
      Pricing.Subtotal(state.value.experience.price, state.value.quantity)
    }

    /** The total shown: subtotal plus 6% tax, less the applied promo's discount. */
    function Total(): (total: real)
      reads this
      requires state.Some?
      ensures total == state.value.experience.price * state.value.quantity as real * 1.06
                       - Pricing.Discount(appliedPromo)
    {
      Pricing.TotalsInClosedForm(state.value.experience.price, state.value.quantity, appliedPromo);
      Pricing.CheckoutTotal(state.value.experience.price, state.value.quantity, appliedPromo)
    }

    /** Typing into a contact input: that input takes the value and its error, when one
        is showing, is blanked; nothing else changes. */
    method EditField(field: FormField, value: string)
      requires Valid() && state.Some? && field != NumberOfPeople
      modifies this
      ensures Valid()
      ensures FieldValue(formData, field) == value
      ensures forall g :: g != NumberOfPeople && g != field ==> FieldValue(formData, g) == FieldValue(old(formData), g)
      ensures field in old(errors) && old(errors)[field] != "" ==> errors == old(errors)[field := ""]
      ensures !(field in old(errors) && old(errors)[field] != "") ==> errors == old(errors)
      ensures state == old(state) && promoCode == old(promoCode) && appliedPromo == old(appliedPromo)
      ensures promoError == old(promoError) && agreeToTerms == old(agreeToTerms)
      ensures navigation == old(navigation)
    {
      formData := WithField(formData, field, value);
      if field in errors && errors[field] != "" {
        errors := errors[field := ""];
      }
    }

    /** Typing into the promo input stores the text upper-cased. */
    method EditPromoCode(value: string)
      requires Valid() && state.Some?
      modifies this
      ensures Valid()
      ensures promoCode == ToUpper(value)
      ensures state == old(state) && formData == old(formData) && appliedPromo == old(appliedPromo)
      ensures promoError == old(promoError) && agreeToTerms == old(agreeToTerms) && errors == old(errors)
      ensures navigation == old(navigation)
    {
      promoCode := ToUpper(value);
      ToUpperIdempotent(value);
    }

    /** Ticking or unticking the terms checkbox. */
    method SetAgreeToTerms(checked: bool)
      requires Valid() && state.Some?
      modifies this
      ensures Valid()
      ensures agreeToTerms == checked
      ensures state == old(state) && formData == old(formData) && promoCode == old(promoCode)
      ensures appliedPromo == old(appliedPromo) && promoError == old(promoError) && errors == old(errors)
      ensures navigation == old(navigation)
    {
      agreeToTerms := checked;
    }

    /** The "Apply" button. A blank code (one `trim` empties) changes nothing and sends nothing. Otherwise
        the returned request carries the upper-cased code and the subtotal, and
        `outcome` decides: any answer is applied; a rejection clears the promo and
        shows the server's message or the default one. */
    method ApplyPromo(outcome: PromoOutcome) returns (request: Option<PromoCodeRequest>)
      requires Valid() && state.Some?
      modifies this
      ensures Valid()
      ensures state == old(state) && formData == old(formData) && promoCode == old(promoCode)
      ensures agreeToTerms == old(agreeToTerms) && errors == old(errors) && navigation == old(navigation)
      ensures AllWhitespace(old(promoCode)) ==>
        request.None? && appliedPromo == old(appliedPromo) && promoError == old(promoError)
      ensures !AllWhitespace(old(promoCode)) ==>
        request == Some(PromoCodeRequest(ToUpper(old(promoCode)), Subtotal()))
      ensures request.Some? ==> request.value.code == promoCode
      ensures !AllWhitespace(old(promoCode)) && outcome.Validated? && outcome.answer.Some? ==>
        appliedPromo == outcome.answer && promoError == ""
      ensures !AllWhitespace(old(promoCode)) && outcome.Validated? && outcome.answer.None? ==>
        appliedPromo == old(appliedPromo) && promoError == ""
      ensures !AllWhitespace(old(promoCode)) && outcome.Rejected? ==>
        appliedPromo.None? && promoError == MessageOr(outcome.message, PromoRejectedMessage) && promoError != ""
      ensures !applyingPromo
    {
      var blank := IsBlankCode(promoCode);
      if blank {
        return None;
      }
      applyingPromo := true;
      promoError := "";
      request := Some(PromoCodeRequest(ToUpper(promoCode), Subtotal()));
      match outcome {
        case Validated(answer) =>
          if answer.Some? {
            appliedPromo := answer;
            promoError := "";
          }
        case Rejected(message) =>
          promoError := MessageOr(message, PromoRejectedMessage);
          appliedPromo := None;
      }
      applyingPromo := false;
    }

    /** The remove button next to an applied promo: promo, code and error are cleared. */
    method RemovePromo()
      requires Valid() && state.Some?
      modifies this
      ensures Valid()
      ensures appliedPromo.None? && promoCode == "" && promoError == ""
      ensures PromoCodeOf(appliedPromo).None? && Pricing.Discount(appliedPromo) == 0.0
      ensures state == old(state) && formData == old(formData) && agreeToTerms == old(agreeToTerms)
      ensures errors == old(errors) && navigation == old(navigation)
    {
      appliedPromo := None;
      promoCode := "";
      promoError := "";
    }

    /** The form's submit. A form that fails validation only replaces the error map;
        otherwise unticked terms only raise the terms alert; otherwise the returned
        booking request is sent and `outcome` decides: a successful answer with data
        goes to the success page, a failure raises the server's message or the default
        alert, anything else stays. */
    method Submit(outcome: BookingOutcome) returns (request: Option<BookingFormData>, alert: Option<string>)
      requires Valid() && state.Some?
      modifies this
      ensures Valid()
      ensures state == old(state) && formData == old(formData) && promoCode == old(promoCode)
      ensures appliedPromo == old(appliedPromo) && promoError == old(promoError)
      ensures agreeToTerms == old(agreeToTerms)
      ensures var data := SubmittedFields(old(formData), state.value.quantity);
        !IsValidBooking(data) ==>
          && request.None? && alert.None? && navigation == old(navigation)
          && (Name in errors <==> !IsValidName(data.name))
          && (Email in errors <==> !IsValidEmail(data.email))
          && (Phone in errors <==> !IsValidPhone(data.phone))
          && (NumberOfPeople in errors <==> data.number_of_people < 1)
          && (forall f :: f in errors ==> errors[f] == ErrorMessage(f))
      ensures IsValidBooking(SubmittedFields(old(formData), state.value.quantity)) ==> errors == old(errors)
      ensures IsValidBooking(SubmittedFields(old(formData), state.value.quantity)) && !agreeToTerms ==>
        request.None? && alert == Some(TermsAlert) && navigation == old(navigation)
      ensures request.Some? <==> IsValidBooking(SubmittedFields(old(formData), state.value.quantity)) && agreeToTerms
      ensures request.Some? ==> request.value == BookingFormData(
        formData.name, formData.email, formData.phone, state.value.experience.id, state.value.slot.id,
        state.value.quantity, PromoCodeOf(appliedPromo), None)
      ensures request.Some? && outcome.Responded? && outcome.response.success && outcome.response.data.Some? ==>
        navigation == ToSuccess(outcome.response.data.value) && alert.None?
      ensures request.Some? && outcome.Responded? && !(outcome.response.success && outcome.response.data.Some?) ==>
        navigation == old(navigation) && alert.None?
      ensures request.Some? && outcome.Failed? ==>
        navigation == old(navigation) && alert == Some(MessageOr(outcome.message, BookingFailedAlert))
      ensures navigation.ToSuccess? ==> old(navigation).ToSuccess? || request.Some?
      ensures !loading
    {
      var validationErrors := ValidateBookingForm(SubmittedFields(formData, state.value.quantity));
      if validationErrors != map[] {
        errors := validationErrors;
        return None, None;
      }
      if !agreeToTerms {
        return None, Some(TermsAlert);
      }
      request, alert := SendBooking(outcome);
    }

    /** The part of the submit after both checks passed: the booking request is built
        from the form, the slot and the applied promo, and `outcome` decides where the
        page goes and which alert it raises. */
    method SendBooking(outcome: BookingOutcome) returns (request: Option<BookingFormData>, alert: Option<string>)
      requires Valid() && state.Some?
      modifies this
      ensures Valid()
      ensures state == old(state) && formData == old(formData) && promoCode == old(promoCode)
      ensures appliedPromo == old(appliedPromo) && promoError == old(promoError)
      ensures agreeToTerms == old(agreeToTerms) && errors == old(errors)
      ensures request == Some(BookingFormData(
        formData.name, formData.email, formData.phone, state.value.experience.id, state.value.slot.id,
        state.value.quantity, PromoCodeOf(appliedPromo), None))
      ensures outcome.Responded? && outcome.response.success && outcome.response.data.Some? ==>
        navigation == ToSuccess(outcome.response.data.value) && alert.None?
      ensures outcome.Responded? && !(outcome.response.success && outcome.response.data.Some?) ==>
        navigation == old(navigation) && alert.None?
      ensures outcome.Failed? ==>
        navigation == old(navigation) && alert == Some(MessageOr(outcome.message, BookingFailedAlert))
    {
      loading := true;
      request := Some(BookingFormData(formData.name, formData.email, formData.phone,
        state.value.experience.id, state.value.slot.id, state.value.quantity, PromoCodeOf(appliedPromo), None));
      alert := None;
      match outcome {
        case Responded(response) =>
          if response.success && response.data.Some? {
            navigation := ToSuccess(response.data.value);
          }
        case Failed(message) =>
          alert := Some(MessageOr(message, BookingFailedAlert));
      }
      loading := false;
    }
  }
}
