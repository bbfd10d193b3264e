/**
 * The experience details page as a view object: the fetched details, the chosen date,
 * slot and quantity, and the click handlers that change them.
 */
module Details {
  import opened Wrappers
  import opened Types
  import Pricing

  /** Quantity a stepper allows when no slot gives a limit. */
  const DefaultCap: int := 10

  /** Date buttons shown at most. */
  const MaxDateButtons: nat := 5

  /** A slot button is enabled iff the slot is available and has room for `quantity`. */
  predicate Selectable(slot: Slot, quantity: int) {
    slot.is_available && slot.available_spots >= quantity
  }

  /** `selectedSlot?.available_spots || 10`: the selected slot's spots, or 10 when no slot
      is selected or its spots are 0 (falsy). */
  function Cap(selected: Option<Slot>): (cap: int)
    ensures selected.None? ==> cap == DefaultCap
    ensures selected.Some? && selected.value.available_spots != 0 ==> cap == selected.value.available_spots
    ensures selected.Some? && selected.value.available_spots == 0 ==> cap == DefaultCap
  {
    if selected.Some? && selected.value.available_spots != 0 then selected.value.available_spots else DefaultCap
  }

  /** `Math.min(cap, quantity + 1)`. */
  function StepUp(cap: int, quantity: int): (q: int)
    ensures q <= cap && q <= quantity + 1
    ensures q == cap || q == quantity + 1
  {
    if cap < quantity + 1 then cap else quantity + 1
  }

  /** `Math.max(1, quantity - 1)`. */
  function StepDown(quantity: int): (q: int)
    ensures q >= 1 && q >= quantity - 1
    ensures q == 1 || q == quantity - 1
  {
    if quantity - 1 < 1 then 1 else quantity - 1
  }

  /** The quantity after pressing "+" `presses` times. */
  function StepUpTimes(cap: int, quantity: int, presses: nat): int
    decreases presses
  {
    if presses == 0 then quantity else StepUpTimes(cap, StepUp(cap, quantity), presses - 1)
  }

  /** The quantity after pressing "−" `presses` times. */
  function StepDownTimes(quantity: int, presses: nat): int
    decreases presses
  {
    if presses == 0 then quantity else StepDownTimes(StepDown(quantity), presses - 1)
  }

  /** From a quantity within the cap, `n` presses of "+" reach `min(cap, quantity + n)`. */
  lemma {:induction false} StepUpSaturates(cap: int, quantity: int, presses: nat)
    requires quantity <= cap
    decreases presses
    ensures StepUpTimes(cap, quantity, presses) == if quantity + presses <= cap then quantity + presses else cap
  {
    if presses > 0 {
      StepUpSaturates(cap, StepUp(cap, quantity), presses - 1);
    }
  }

  /** From a quantity of at least 1, `n` presses of "−" reach `max(1, quantity - n)`. */
  lemma {:induction false} StepDownSaturates(quantity: int, presses: nat)
    requires quantity >= 1
    decreases presses
    ensures StepDownTimes(quantity, presses) == if quantity - presses >= 1 then quantity - presses else 1
  {
    if presses > 0 {
      StepDownSaturates(StepDown(quantity), presses - 1);
    }
  }

  /** "+" on a quantity already at or above the cap sets it to the cap, so after the slot
      is cleared a quantity above 10 drops to 10. */
  lemma StepUpClampsFromAbove(cap: int, quantity: int)
    requires quantity >= cap
    ensures StepUp(cap, quantity) == cap
  {
  }

  /** A quantity within `[1, cap]` stays there under either button. */
  lemma StepsStayInRange(cap: int, quantity: int)
    requires 1 <= quantity <= cap
    ensures 1 <= StepUp(cap, quantity) <= cap
    ensures 1 <= StepDown(quantity) <= cap
  {
  }

  /** The first `MaxDateButtons` dates, the ones the page offers as buttons. */
  function VisibleDates(slots: seq<(string, seq<Slot>)>): (dates: seq<string>)
    ensures |dates| == if |slots| < MaxDateButtons then |slots| else MaxDateButtons
    ensures forall i :: 0 <= i < |dates| ==> dates[i] == slots[i].0
  {
    var all := Dates(slots);
    if |all| <= MaxDateButtons then all else all[..MaxDateButtons]
  }

  class DetailsView {
    var details: Option<ExperienceDetails>
    var loading: bool
    var selectedDate: string
    var selectedSlot: Option<Slot>
    var quantity: int

    /** The quantity is at least 1 and a selected slot remains selectable for it. */
    predicate Valid()
      reads this
    {
      && quantity >= 1
      && (selectedSlot.Some? ==> Selectable(selectedSlot.value, quantity))
    }

    /** The page is past the loader and has details to show, so its buttons exist. */
    predicate Shown()
      reads this
    {
      !loading && details.Some?
    }

    /** The initial state: loading, nothing fetched, nothing chosen, one ticket. */
    constructor ()
      ensures Valid()
      ensures details.None? && loading && selectedDate == "" && selectedSlot.None? && quantity == 1
    {
      details := None;
      loading := true;
      selectedDate := "";
      selectedSlot := None;
      quantity := 1;
    }

    /** The fetch of the details. `response` is the server's answer, `None` when the
        request failed. A successful answer with data is stored and its first date, if
        any, is selected; in every case loading ends. */
    method FetchCompleted(response: Option<ApiResponse<ExperienceDetails>>)
      requires Valid()
      modifies this
      ensures Valid()
      ensures !loading
      ensures selectedSlot == old(selectedSlot) && quantity == old(quantity)
      ensures response.Some? && response.value.success && response.value.data.Some? ==>
        && details == response.value.data
        && selectedDate == (if response.value.data.value.availableSlots != []
                            then response.value.data.value.availableSlots[0].0
                            else old(selectedDate))
      ensures !(response.Some? && response.value.success && response.value.data.Some?) ==>
        details == old(details) && selectedDate == old(selectedDate)
    {
      loading := true;
      if response.Some? && response.value.success && response.value.data.Some? {
        details := response.value.data;
        var dates := Dates(response.value.data.value.availableSlots);
        if |dates| > 0 {
          selectedDate := dates[0];
        }
      }
      loading := false;
    }

    /** The date buttons on screen. */
    function DateButtons(): seq<string>
      reads this
    {
      if details.Some? then VisibleDates(details.value.availableSlots) else []
    }

    /** `selectedDate ? availableSlots[selectedDate] : []`. A selected date that is no key
        gives no slots here; in the page, `.map` on the `undefined` lookup would throw
        instead. A date is only ever selected from the keys of the fetched details, so
        only a second fetch with other dates could reach that case. */
    function SlotButtons(): seq<Slot>
      reads this
    {
      if selectedDate != "" && details.Some? then SlotsOn(details.value.availableSlots, selectedDate).GetOr([])
      else []
    }

    /** A click on a date button: that date is selected and the slot is cleared. */
    method SelectDate(date: string)
      requires Valid() && Shown() && date in DateButtons()
      modifies this
      ensures Valid()
      ensures selectedDate == date && selectedSlot.None?
      ensures details == old(details) && loading == old(loading) && quantity == old(quantity)
    {
      selectedDate := date;
      selectedSlot := None;
    }

    /** A click on a slot button: it takes effect only when the button is enabled. */
    method SelectSlot(slot: Slot)
      requires Valid() && Shown() && slot in SlotButtons()
      modifies this
      ensures Valid()
      ensures Selectable(slot, quantity) ==> selectedSlot == Some(slot)
      ensures !Selectable(slot, quantity) ==> selectedSlot == old(selectedSlot)
      ensures details == old(details) && loading == old(loading)
      ensures selectedDate == old(selectedDate) && quantity == old(quantity)
    {
      if Selectable(slot, quantity) {
        selectedSlot := Some(slot);
      }
    }

    /** The "−" button: one fewer ticket, never below 1. */
    method Decrement()
      requires Valid() && Shown()
      modifies this
      ensures Valid()
      ensures quantity == StepDown(old(quantity))
      ensures quantity <= old(quantity)
      ensures details == old(details) && loading == old(loading)
      ensures selectedDate == old(selectedDate) && selectedSlot == old(selectedSlot)
    {
      quantity := StepDown(quantity);
    }

    /** The "+" button: one more ticket, never above the cap. */
    method Increment()
      requires Valid() && Shown()
      modifies this
      ensures Valid()
      ensures quantity == StepUp(Cap(selectedSlot), old(quantity))
      ensures selectedSlot.Some? ==> old(quantity) <= quantity <= selectedSlot.value.available_spots
      ensures details == old(details) && loading == old(loading)
      ensures selectedDate == old(selectedDate) && selectedSlot == old(selectedSlot)
    {
      quantity := StepUp(Cap(selectedSlot), quantity);
    }

    /** The "Confirm" button: nothing without a slot and details, otherwise the state
        handed to checkout, whose quantity fits the slot. */
    method Confirm() returns (handoff: Option<CheckoutState>)
      requires Valid()
      ensures handoff.None? <==> selectedSlot.None? || details.None?
      ensures handoff.Some? ==>
        handoff.value == CheckoutState(details.value.experience, selectedSlot.value, selectedDate, quantity)
      ensures handoff.Some? ==> 1 <= handoff.value.quantity <= handoff.value.slot.available_spots
      ensures handoff.Some? ==> handoff.value.slot.is_available
    {
      if selectedSlot.None? || details.None? {
        return None;
      }
      handoff := Some(CheckoutState(details.value.experience, selectedSlot.value, selectedDate, quantity));
    }

    /** The summary's total: price times quantity plus 6% tax, no discount. */
    function Total(): (total: real)
      reads this
      requires details.Some?
      ensures total == details.value.experience.price * quantity as real * 1.06
    {
      Pricing.TotalsInClosedForm(details.value.experience.price, quantity, None);
      Pricing.SummaryTotal(details.value.experience.price, quantity)
    }
  }
}
