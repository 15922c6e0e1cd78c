/**
 * The booking form of components/BookingModal.tsx: the hour count with its
 * clamp, the running total, and handleConfirm, which builds a pending
 * booking draft and hands it to the parent's `onConfirm`.
 *
 * The picked date is carried as the two strings handleConfirm derives from
 * it (its UTC calendar date and its local clock time); how JavaScript's
 * `Date` computes them is not part of this model.
 */
module BookingModal {
  import opened Types
  import opened JsNumbers

  /** The user id every draft carries; there is no session principal yet. */
  const PlaceholderUserId := 1

  /** A picked moment, by the strings the booking stores: `YYYY-MM-DD` and `HH:mm`. */
  datatype Moment = Moment(isoDate: string, clockTime: string)

  /**
   * The hour count the text field sets: `Math.max(1, Number(val) || 1)`.
   * Fractional counts pass; anything below 1, zero, empty or not a number gives 1.
   */
  function ClampHours(text: string): (h: real)
    ensures h >= 1.0
    ensures NumberOf(text).Finite? && NumberOf(text).value >= 1.0 ==> h == NumberOf(text).value
    ensures !(NumberOf(text).Finite? && NumberOf(text).value >= 1.0) ==> h == 1.0
  {
    Max(1.0, OrElse(NumberOf(text), 1.0))
  }

  /** The booking handleConfirm builds for a provider, a moment and an hour count. */
  function DraftBooking(provider: Provider, when: Moment, hours: real): (b: Booking)
    ensures b.totalCost == provider.pricePerHour * b.hours && b.hours == hours
    ensures b.status == Pending && b.id == None
    ensures b.providerId == provider.id && b.userId == PlaceholderUserId
    ensures b.date == when.isoDate && b.time == when.clockTime
  {
    Booking(
      id := None,
      providerId := provider.id,
      userId := PlaceholderUserId,
      date := when.isoDate,
      time := when.clockTime,
      hours := hours,
      totalCost := provider.pricePerHour * hours,
      status := Pending)
  }

  /**
   * A draft built from typed hours costs the price times the clamped count,
   * never the raw input, and is always pending.
   */
  lemma DraftCostUsesClampedHours(provider: Provider, when: Moment, text: string)
    ensures var b := DraftBooking(provider, when, ClampHours(text));
      b.hours >= 1.0 && b.totalCost == provider.pricePerHour * b.hours &&
      b.status == Pending && b.id == None && b.userId == PlaceholderUserId &&
      b.providerId == provider.id
    ensures provider.pricePerHour >= 0.0 ==>
      DraftBooking(provider, when, ClampHours(text)).totalCost >= provider.pricePerHour
  {
    var h := ClampHours(text);
    var price := provider.pricePerHour;
    if price >= 0.0 {
      assert price * h - price == price * (h - 1.0);
      assert price * (h - 1.0) >= 0.0;
    }
  }

  /** Typing "0" gives one hour at the hourly price. */
  lemma ZeroHoursCostsOneHour(provider: Provider, when: Moment)
    ensures ClampHours("0") == 1.0
    ensures DraftBooking(provider, when, ClampHours("0")).totalCost == provider.pricePerHour
  {
    ParseFloatNat(0);
  }

  /** Typing "3" gives three hours at three times the hourly price. */
  lemma ThreeHoursCostThreeTimes(provider: Provider, when: Moment)
    ensures ClampHours("3") == 3.0
    ensures DraftBooking(provider, when, ClampHours("3")).totalCost == 3.0 * provider.pricePerHour
  {
    ParseFloatNat(3);
  }

  /** A negative count gives one hour. */
  lemma NegativeHoursGiveOne(n: nat)
    ensures ClampHours("-" + NatToDigits(n)) == 1.0
  {
    ParseFloatNat(n);
    assert ("-" + NatToDigits(n))[1..] == NatToDigits(n);
  }

  /** Fractional counts are kept: "2.5" is two and a half hours. */
  lemma FractionalHoursKept()
    ensures ClampHours("2.5") == 2.5
  {
    ParseFloatOneDecimal("2", '5');
    NatToDigitsValue(2);
    assert NatToDigits(2) == "2";
    assert "2" + ['.', '5'] == "2.5";
  }

  class BookingForm {
    const provider: Provider
    var when: Moment
    var showPicker: bool
    var hours: real
    var loading: bool
    /** Every booking passed to `onConfirm`, in call order. */
    var confirmed: seq<Booking>

    /** The clamp keeps the count at one hour or more; no confirm is in flight. */
    ghost predicate Valid()
      reads this
    {
      hours >= 1.0 && !loading
    }

    /** `total = provider.pricePerHour * hours` */
    function Total(): (t: real)
      reads this
      ensures hours >= 1.0 && provider.pricePerHour >= 0.0 ==> t >= provider.pricePerHour
    {
      assert hours >= 1.0 && provider.pricePerHour >= 0.0 ==>
        provider.pricePerHour * hours - provider.pricePerHour == provider.pricePerHour * (hours - 1.0) >= 0.0;
      provider.pricePerHour * hours
    }

    /** The form as it opens: the current moment, one hour, nothing confirmed. */
    constructor (provider: Provider, now: Moment)
      ensures Valid()
      ensures this.provider == provider && when == now && !showPicker
      ensures hours == 1.0 && Total() == provider.pricePerHour && confirmed == []
    {
      this.provider := provider;
      when := now;
      showPicker := false;
      hours := 1.0;
      loading := false;
      confirmed := [];
    }

    /** The hours field's onChangeText. */
    method SetHoursFromText(text: string)
      requires Valid()
      modifies this`hours
      ensures Valid()
      ensures hours == ClampHours(text)
    {
      hours := ClampHours(text);
    }

    /** The date field opens the picker. */
    method OpenPicker()
      requires Valid()
      modifies this`showPicker
      ensures Valid()
      ensures showPicker
    {
      showPicker := true;
    }

    /** The picker's onChange: a picked moment replaces the current one; the picker closes. */
    method PickMoment(selected: Option<Moment>)
      requires Valid()
      modifies this`when, this`showPicker
      ensures Valid()
      ensures when == if selected.Some? then selected.value else old(when)
      ensures !showPicker
    {
      if selected.Some? {
        when := selected.value;
      }
      showPicker := false;
    }

    /**
     * handleConfirm: below one hour nothing is sent; otherwise the draft for
     * the current moment and count is passed to `onConfirm` exactly once.
     */
    method Confirm() returns (sent: Option<Booking>)
      modifies this`loading, this`confirmed
      ensures old(hours) < 1.0 ==> sent == None && confirmed == old(confirmed) && loading == old(loading)
      ensures old(hours) >= 1.0 ==>
        sent == Some(DraftBooking(provider, when, hours)) && confirmed == old(confirmed) + [sent.value]
      ensures old(hours) >= 1.0 ==> !loading
      ensures old(Valid()) ==> sent.Some? && Valid()
      ensures sent.Some? ==> sent.value.totalCost == Total() && sent.value.status == Pending
    {
      if hours < 1.0 {
        // Alert.alert("Invalid Input", ...) and return
        return None;
      }
      var booking := DraftBooking(provider, when, hours);
      loading := true;
      confirmed := confirmed + [booking];
      loading := false;
      sent := Some(booking);
    }
  }
}
