/**
 * The records the storefront exchanges with its booking API. Amounts are exact reals;
 * the coerced numeric fields of an experience are taken as already numeric.
 */
module Types {
  import opened Wrappers

  /** An experience as the API sends it. The three list fields can be missing
      (`undefined` or `null`), which `None` stands for. */
  datatype Experience = Experience(
    id: int,
    title: string,
    description: string,
    location: string,
    price: real,
    duration: string,
    category: string,
    image_url: string,
    rating: real,
    reviews_count: int,
    highlights: Option<seq<string>>,
    included: Option<seq<string>>,
    not_included: Option<seq<string>>,
    is_active: bool,
    createdAt: string,
    updatedAt: string)

  /** A bookable time on one date. */
  datatype Slot = Slot(
    id: int,
    time: string,
    start_time: string,
    end_time: string,
    available_spots: int,
    max_capacity: int,
    is_available: bool)

  /** An experience with its slots grouped by date. The object `{ [date]: Slot[] }` is
      kept as its entries in key order, the order `Object.keys` reports. */
  datatype ExperienceDetails = ExperienceDetails(
    experience: Experience,
    availableSlots: seq<(string, seq<Slot>)>)

  /** The dates of the availability object, in key order. */
  function Dates(slots: seq<(string, seq<Slot>)>): (dates: seq<string>)
    ensures |dates| == |slots|
    ensures forall i :: 0 <= i < |slots| ==> dates[i] == slots[i].0
  {
    if slots == [] then [] else [slots[0].0] + Dates(slots[1..])
  }

  /** The object's keys are distinct. */
  predicate DistinctDates(slots: seq<(string, seq<Slot>)>) {
    forall i, j :: 0 <= i < j < |slots| ==> slots[i].0 != slots[j].0
  }

  /** `availableSlots[date]`: the slots stored under `date`, `None` when it is no key. */
  function SlotsOn(slots: seq<(string, seq<Slot>)>, date: string): (r: Option<seq<Slot>>)
    ensures r.Some? <==> date in Dates(slots)
    ensures r.Some? ==> (date, r.value) in slots
  {
    if slots == [] then None
    else if slots[0].0 == date then Some(slots[0].1)
    else
      var r := SlotsOn(slots[1..], date);
      assert Dates(slots) == [slots[0].0] + Dates(slots[1..]);
      assert r.Some? ==> (date, r.value) in slots[1..];
      r
  }

  /** With distinct keys, as an object's keys are, each entry is what its date looks up. */
  lemma {:induction false} SlotsOnDistinct(slots: seq<(string, seq<Slot>)>, date: string, list: seq<Slot>)
    requires DistinctDates(slots) && (date, list) in slots
    ensures SlotsOn(slots, date) == Some(list)
  {
    if slots[0] != (date, list) {
      assert slots[0].0 != date by {
        var j :| 0 <= j < |slots| && slots[j] == (date, list);
        assert j != 0;
      }
      assert (date, list) in slots[1..];
      SlotsOnDistinct(slots[1..], date, list);
    }
  }

  /** A booking request; `promo_code` and `special_requests` are optional. */
  datatype BookingFormData = BookingFormData(
    name: string,
    email: string,
    phone: string,
    experience_id: int,
    slot_id: int,
    number_of_people: int,
    promo_code: Option<string>,
    special_requests: Option<string>)

  datatype BookingStatus = Pending | Confirmed | Cancelled | Failed

  /** A stored booking, with the fields the storefront reads of it. */
  datatype Booking = Booking(
    id: int,
    experience_id: int,
    slot_id: int,
    booking_reference: string,
    number_of_people: int,
    base_price: real,
    discount_amount: real,
    total_price: real,
    promo_code: Option<string>,
    status: BookingStatus)

  datatype DiscountType = Percentage | Fixed

  /** What the promo service answers about a code. */
  datatype PromoCodeData = PromoCodeData(
    code: string,
    description: string,
    discount_type: DiscountType,
    discount_value: real,
    discount_amount: real,
    original_amount: real,
    final_amount: real)

  /** A promo validation; the checkout reads `data` through optional chaining, so it may
      be missing. */
  datatype PromoCodeValidation = PromoCodeValidation(
    data: Option<PromoCodeData>,
    success: bool,
    message: Option<string>)

  datatype PromoCodeRequest = PromoCodeRequest(code: string, amount: real)

  /** The envelope every API answer comes in. */
  datatype ApiResponse<T> = ApiResponse(success: bool, message: Option<string>, data: Option<T>)

  /** What the details page hands to checkout. */
  datatype CheckoutState = CheckoutState(experience: Experience, slot: Slot, date: string, quantity: int)
}
