/** The booking modal of a listing page
    (src/sections/Listing/components/ListingCreateBookingModal/index.tsx): the price of an
    inclusive date range, the submit handler, and what the mutation's callbacks do to the
    listing page's state. */
module Booking {
  import opened Wrappers
  import opened Calendar
  import Js

  /** Nights booked: the whole days between the two dates, plus one, since both ends count. */
  function DaysBooked(checkIn: Date, checkOut: Date): int
    requires ValidDate(checkIn) && ValidDate(checkOut)
  {
    DayNumber(checkOut) - DayNumber(checkIn) + 1
  }

  /** The total charged: the nightly price times the nights booked. */
  function ListingPrice(price: int, checkIn: Date, checkOut: Date): int
    requires ValidDate(checkIn) && ValidDate(checkOut)
  {
    price * DaysBooked(checkIn, checkOut)
  }

  /** The night count is the number of calendar dates of the stay, first and last included;
      a stay that starts and ends on the same day counts one night. */
  lemma DaysBookedCountsStay(checkIn: Date, checkOut: Date)
    requires ValidDate(checkIn) && ValidDate(checkOut) && DayNumber(checkIn) <= DayNumber(checkOut)
    ensures DaysBooked(checkIn, checkOut) == |StayDates(checkIn, checkOut)|
    ensures DaysBooked(checkIn, checkOut) >= 1
    ensures checkIn == checkOut ==> DaysBooked(checkIn, checkOut) == 1
    ensures StayDates(checkIn, checkOut)[0] == checkIn
    ensures StayDates(checkIn, checkOut)[DaysBooked(checkIn, checkOut) - 1] == checkOut
  {
  }

  /** The listing price is the nightly price once for every calendar date of the stay. */
  lemma ListingPriceIsStayTotal(price: int, checkIn: Date, checkOut: Date)
    requires ValidDate(checkIn) && ValidDate(checkOut) && DayNumber(checkIn) <= DayNumber(checkOut)
    ensures ListingPrice(price, checkIn, checkOut) == price * |StayDates(checkIn, checkOut)|
  {
    DaysBookedCountsStay(checkIn, checkOut);
  }

  /** The figures of the charge summary: `price * days = subtotal` and `Total = total`. */
  datatype ChargeSummary = ChargeSummary(nightlyPrice: int, days: int, subtotal: int, total: int)

  function Summary(price: int, checkIn: Date, checkOut: Date): (c: ChargeSummary)
    requires ValidDate(checkIn) && ValidDate(checkOut)
    ensures c.nightlyPrice == price && c.days == DaysBooked(checkIn, checkOut)
    ensures c.subtotal == c.nightlyPrice * c.days
    ensures c.total == c.subtotal == ListingPrice(price, checkIn, checkOut)
  {
    var days := DaysBooked(checkIn, checkOut);
    var listingPrice := ListingPrice(price, checkIn, checkOut);
    ChargeSummary(price, days, listingPrice, listingPrice)
  }

  datatype StripeToken = StripeToken(id: string)

  datatype StripeError = StripeError(message: Option<string>)

  /** What the payment widget's `createToken` resolves with. */
  datatype TokenResult = TokenResult(token: Option<StripeToken>, error: Option<StripeError>)

  /** The input of the CREATE_BOOKING mutation. */
  datatype CreateBookingInput = CreateBookingInput(id: string, source: string, checkIn: string, checkOut: string)

  /** How one press of "Book" ends. */
  datatype BookingAttempt =
    | StripeUnavailable
    | NoCardElement
    | BookingRequested(input: CreateBookingInput)
    | TokenizationFailed(message: string)

  const StripeUnavailableMessage: string := "Sorry! We weren't able to connect with Stripe."
  const DefaultBookingError: string := "Sorry! We weren't able to book the listing. Please try again later."
  const BookingSuccessTitle: string := "You've succesfully booked the listing"
  const BookingSuccessDescription: string := "Booking history can alwas be found in your User Page."
  const BookingFailedMessage: string :=
    "Sorry! We weren't able to successfully book the listing. Please try again later!"

  /** The decisions of `handleCreateBooking`, in order: the widget is not ready, the card field
      is not mounted, a token came back, or no token came back. `stripeReady` stands for
      `stripe && elements`; `tokenResult` is what tokenizing the card yields. */
  function BookingDecision(
    id: string, checkIn: Date, checkOut: Date,
    stripeReady: bool, cardElementMounted: bool, tokenResult: TokenResult): (a: BookingAttempt)
    requires Formattable(checkIn) && Formattable(checkOut)
    ensures a.StripeUnavailable? <==> !stripeReady
    ensures a.NoCardElement? <==> stripeReady && !cardElementMounted
    ensures a.BookingRequested? <==> stripeReady && cardElementMounted && tokenResult.token.Some?
    ensures a.BookingRequested? ==>
              a.input == CreateBookingInput(id, tokenResult.token.value.id, FormatIsoDate(checkIn), FormatIsoDate(checkOut))
    ensures a.TokenizationFailed? ==>
              if tokenResult.error.Some? && Js.TruthyString(tokenResult.error.value.message)
              then a.message == tokenResult.error.value.message.value
              else a.message == DefaultBookingError
  {
    if !stripeReady then StripeUnavailable
    else if !cardElementMounted then NoCardElement
    else if tokenResult.token.Some? then
      BookingRequested(CreateBookingInput(id, tokenResult.token.value.id, FormatIsoDate(checkIn), FormatIsoDate(checkOut)))
    else
      var error := tokenResult.error;
      TokenizationFailed(if error.Some? && error.value.message.Some? && error.value.message.value != ""
                         then error.value.message.value else DefaultBookingError)
  }

  /** The booking dates travel as parseable `YYYY-MM-DD` strings of the chosen dates. */
  lemma RequestedDatesRoundTrip(
    id: string, checkIn: Date, checkOut: Date,
    stripeReady: bool, cardElementMounted: bool, tokenResult: TokenResult)
    requires Formattable(checkIn) && Formattable(checkOut)
    requires BookingDecision(id, checkIn, checkOut, stripeReady, cardElementMounted, tokenResult).BookingRequested?
    ensures var input := BookingDecision(id, checkIn, checkOut, stripeReady, cardElementMounted, tokenResult).input;
            ParseIsoDate(input.checkIn) == Some(checkIn) && ParseIsoDate(input.checkOut) == Some(checkOut)
  {
    IsoDateRoundTrip(checkIn);
    IsoDateRoundTrip(checkOut);
  }

  /** A user-visible message: an error toast or a success notification. */
  datatype Message =
    | ErrorMessage(text: string)
    | SuccessNotification(title: string, description: string)

  /** The CREATE_BOOKING calls an attempt makes. */
  function RequestsOf(a: BookingAttempt): (r: seq<CreateBookingInput>)
    ensures |r| <= 1
    ensures |r| == 1 <==> a.BookingRequested?
  {
    if a.BookingRequested? then [a.input] else []
  }

  /** The messages an attempt shows. */
  function MessagesOf(a: BookingAttempt): (m: seq<Message>)
    ensures |m| <= 1
    ensures |m| == 0 <==> a.NoCardElement? || a.BookingRequested?
  {
    match a
    case StripeUnavailable => [ErrorMessage(StripeUnavailableMessage)]
    case NoCardElement => []
    case BookingRequested(_) => []
    case TokenizationFailed(msg) => [ErrorMessage(msg)]
  }

  /** The dates selected on the listing page, which the modal books. */
  datatype BookingDraft = BookingDraft(checkIn: Date, checkOut: Date)

  /** The state the modal touches: the listing page's draft, the message area, the booking
      mutation calls made, and the number of listing refetches started. */
  class BookingModal {
    var draft: Option<BookingDraft>
    var messages: seq<Message>
    var bookingRequests: seq<CreateBookingInput>
    var refetches: nat

    constructor (draft: Option<BookingDraft>)
      ensures this.draft == draft && messages == [] && bookingRequests == [] && refetches == 0
    {
      this.draft := draft;
      messages := [];
      bookingRequests := [];
      refetches := 0;
    }

    /** `handleCreateBooking`: return early when the widget or the card field is missing,
        otherwise book with the token or report why there is none. The dates it books are
        the drafted ones, which the listing page passes down while the modal is open. */
    method HandleCreateBooking(
      id: string, checkIn: Date, checkOut: Date,
      stripeReady: bool, cardElementMounted: bool, tokenResult: TokenResult)
      requires draft == Some(BookingDraft(checkIn, checkOut))
      requires Formattable(checkIn) && Formattable(checkOut)
      modifies this
      ensures var a := BookingDecision(id, checkIn, checkOut, stripeReady, cardElementMounted, tokenResult);
              && bookingRequests == old(bookingRequests) + RequestsOf(a)
              && messages == old(messages) + MessagesOf(a)
      ensures draft == old(draft) && refetches == old(refetches)
    {
      if !stripeReady {
        messages := messages + [ErrorMessage(StripeUnavailableMessage)];
        return;
      }
      if !cardElementMounted {
        return;
      }
      if tokenResult.token.Some? {
        var input := CreateBookingInput(id, tokenResult.token.value.id, FormatIsoDate(checkIn), FormatIsoDate(checkOut));
        bookingRequests := bookingRequests + [input];
      } else {
        var error := tokenResult.error;
        var text := if error.Some? && error.value.message.Some? && error.value.message.value != ""
                    then error.value.message.value else DefaultBookingError;
        messages := messages + [ErrorMessage(text)];
      }
    }

    /** The mutation's `onCompleted`: clear the draft, notify, refetch the listing. */
    method OnCompleted()
      modifies this
      ensures draft == None && refetches == old(refetches) + 1
      ensures messages == old(messages) + [SuccessNotification(BookingSuccessTitle, BookingSuccessDescription)]
      ensures bookingRequests == old(bookingRequests)
    {
      draft := None;
      messages := messages + [SuccessNotification(BookingSuccessTitle, BookingSuccessDescription)];
      refetches := refetches + 1;
    }

    /** The mutation's `onError`: only an error message; the draft stays for a retry. */
    method OnError()
      modifies this
      ensures messages == old(messages) + [ErrorMessage(BookingFailedMessage)]
      ensures draft == old(draft) && refetches == old(refetches) && bookingRequests == old(bookingRequests)
    {
      messages := messages + [ErrorMessage(BookingFailedMessage)];
    }
  }
}
