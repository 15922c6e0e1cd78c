/**
 * The session store of store/useStore.ts: the providers, the selected
 * provider and the session's bookings, with replace-style setters and an
 * append-only addBooking. An explicit object stands for the one global store.
 */
module Store {
  import opened Types

  /** The updater addBooking passes to `set`: `[...state.bookings, booking]`. */
  function WithBooking(bookings: seq<Booking>, booking: Booking): seq<Booking> {
    bookings + [booking]
  }

  /** The bookings after one addBooking call per element of calls, in order. */
  function AfterAdds(bookings: seq<Booking>, calls: seq<Booking>): seq<Booking>
    decreases |calls|
  {
    if calls == [] then bookings else AfterAdds(WithBooking(bookings, calls[0]), calls[1..])
  }

  /** N calls append the N bookings in call order; nothing is merged or dropped. */
  lemma {:induction false} AfterAddsAppends(bookings: seq<Booking>, calls: seq<Booking>)
    ensures AfterAdds(bookings, calls) == bookings + calls
    decreases |calls|
  {
    if calls != [] {
      AfterAddsAppends(WithBooking(bookings, calls[0]), calls[1..]);
      assert bookings + [calls[0]] + calls[1..] == bookings + calls;
    }
  }

  /** Adding the same booking twice keeps both copies: there is no deduplication. */
  lemma AddingTwiceKeepsBoth(bookings: seq<Booking>, b: Booking)
    ensures AfterAdds(bookings, [b, b]) == bookings + [b, b]
    ensures |AfterAdds(bookings, [b, b])| == |bookings| + 2
  {
    AfterAddsAppends(bookings, [b, b]);
  }

  class SessionStore {
    var providers: seq<Provider>
    var selectedProvider: Option<Provider>
    var bookings: seq<Booking>

    /** The initial state: no providers, none selected, no bookings. */
    constructor ()
      ensures providers == [] && selectedProvider == None && bookings == []
    {
      providers := [];
      selectedProvider := None;
      bookings := [];
    }

    /** Replaces the provider list wholesale. */
    method SetProviders(ps: seq<Provider>)
      modifies this`providers
      ensures providers == ps
      ensures selectedProvider == old(selectedProvider) && bookings == old(bookings)
    {
      providers := ps;
    }

    /** Replaces the selected provider (None for `null`). */
    method SetSelectedProvider(p: Option<Provider>)
      modifies this`selectedProvider
      ensures selectedProvider == p
      ensures providers == old(providers) && bookings == old(bookings)
    {
      selectedProvider := p;
    }

    /** Replaces the booking list wholesale. */
    method SetBookings(bs: seq<Booking>)
      modifies this`bookings
      ensures bookings == bs
      ensures providers == old(providers) && selectedProvider == old(selectedProvider)
    {
      bookings := bs;
    }

    /** Appends one booking; the earlier bookings stay as they were. */
    method AddBooking(b: Booking)
      modifies this`bookings
      ensures bookings == WithBooking(old(bookings), b)
      ensures |bookings| == |old(bookings)| + 1 && bookings[..|old(bookings)|] == old(bookings)
      ensures providers == old(providers) && selectedProvider == old(selectedProvider)
    {
      bookings := WithBooking(bookings, b);
    }
  }

  /** A fresh store that receives the same booking twice holds it twice. */
  method DuplicateBookingKept(b: Booking) returns (held: seq<Booking>)
    ensures held == [b, b]
  {
    var store := new SessionStore();
    store.AddBooking(b);
    store.AddBooking(b);
    held := store.bookings;
  }
}
