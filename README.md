# TinyHouse client: decision rules of four view components

This project models the logic inside four components of the TinyHouse booking client, a
React/Apollo web application for booking vacation rentals. Markup and styling are not
modelled. Each component's rules are stated in Dafny and proved.

- **Listings query controller** (`Listings.dfy`). The listings search page keeps a location
  anchor in a ref, plus `filter` and `page` state cells. A skip guard holds back the LISTINGS
  query while the route's location has moved and the page has not yet been reset. A
  `[location]` effect resets the page to 1 and re-anchors the ref. The model has a value
  layer: a `ControllerState`, a `Step` function over events, and the requests issued along
  any event sequence. It also has a class, `ListingsController`, whose methods are specified
  by `Step`. The main result is race safety (`TraceIsSafe`): no issued query pairs a location
  with a page number greater than 1 that was chosen for another location. The ghost component
  `pageFor` records which location each page value was chosen under. It exists only to state
  this property. The render phase (`View`) picks a skeleton, an error, the result list or the
  empty state.
- **Host submission** (`Host.dfy`). This covers four rules. The image check runs before
  upload: JPEG or PNG only, under 1 MiB, with one message per violation. The form-values-to-input
  transform spreads the values into a map, overrides fields, then deletes keys. The
  image-upload state update is a two-field class. The render gate decides what the page shows.
- **Booking modal** (`Calendar.dfy`, `Booking.dfy`). The night count is inclusive and is
  checked against the list of calendar dates of the stay, and the total is the nightly price
  once per date of the stay. The decision procedure of the "Book" handler is a function. The handler
  itself and the mutation callbacks are methods of `BookingModal`. Dates are calendar
  triples. Day numbers stand in for moment's whole-day difference. Dates are sent as
  `YYYY-MM-DD` strings, the calendar date in the extended format of ISO 8601, and a proved
  round trip shows that this formatting loses nothing.
- **App session bootstrap** (`App.dfy`). This covers the viewer cell and its initial value,
  the login-completion update (set or remove the `token` session-storage entry), the one-shot
  mount effect, the launch gate, and the `X-CSRF-TOKEN` header function of `authLink`.

External calls are inputs to the model:
- Apollo hook results become `{loading, error, data}` values.
- Stripe tokenization becomes a `TokenResult`.
- Form validation becomes an `Option`.
- The FileReader's data URL becomes an `Option<string>`.
- `sessionStorage` becomes a `map<string, string>` field.

Three facts about the code shape the model:
- Requests carry only an `X-CSRF-TOKEN` header.
- The header is read from `sessionStorage` on every request.
- Title and description lengths are limited only by the inputs' `maxLength`, not by
  validation rules, so they are not part of the modelled validation.

## Model

| member | source | states |
|---|---|---|
| `Listings.Initial` | src/sections/Listings/index.tsx:29-33 | the first state anchors the ref at the route location, with filter low-to-high and page 1; the invariant holds and the query is not skipped |
| `Listings.Skip` | src/sections/Listings/index.tsx:38 | the query is skipped when the route location has left the anchor and the page is not 1 |
| `Listings.Variables` | src/sections/Listings/index.tsx:39-44 | the query variables are the location, the filter, the limit 8 and the page |
| `Listings.Step` | src/sections/Listings/index.tsx:29-51 | only a route change moves the location and only the effect moves the anchor; a render changes nothing; after the effect the anchor is at the location and the query is not skipped, and a location change reset the page to 1; the page changes only by its setter or that reset, the filter only by its setter |
| `Listings.StepIsSafe` | src/sections/Listings/index.tsx:31-51 | every enabled event keeps the invariant, and any query a render issues is safe: the limit is 8, the page is at least 1, and the page was chosen for this location or is 1 |
| `Listings.TraceIsSafe` | src/sections/Listings/index.tsx:31-51 | along any sequence of route changes, renders, effects and setter calls, every issued query is safe; so no query pairs a new location with a stale page greater than 1 |
| `Listings.MountedTraceIsSafe` | src/sections/Listings/index.tsx:29-51 | from the first render on, every query the page ever issues is safe |
| `Listings.RouteChangeCycle` | src/sections/Listings/index.tsx:38-51 | a navigation to a new location, followed by a render, the effect and the re-render, issues at least one query; every query it issues is `{new location, current filter, 8, page 1}` |
| `Listings.View` | src/sections/Listings/index.tsx:55-127 | loading gives only the skeleton; otherwise an error gives the banner and skeleton, with no list; otherwise a non-empty result gives pagination, filters and the list; otherwise the empty state links to `/host`; the "Results for" title appears iff the region is non-null and non-empty |
| `Listings.ListingsController.constructor` | src/sections/Listings/index.tsx:29-33 | the controller starts in `Initial(location)` |
| `Listings.ListingsController.RouteChange` | src/sections/Listings/index.tsx:29 | a new route location changes only `location`; the ref, page and filter keep their values |
| `Listings.ListingsController.Render` | src/sections/Listings/index.tsx:35-46 | the query is skipped exactly when `locationRef != location && page != 1`; otherwise its variables are exactly `{location, filter, limit 8, page}`, and the page is not stale |
| `Listings.ListingsController.RunEffect` | src/sections/Listings/index.tsx:48-51 | when the location has moved away from the anchor, the page goes to 1 and the ref to the location; either way the skip guard is false afterwards |
| `Listings.ListingsController.SetFilter` | src/sections/Listings/index.tsx:32 | changing the filter leaves the page unchanged |
| `Listings.ListingsController.SetPage` | src/sections/Listings/index.tsx:33 | sets the page, chosen for the current location |
| `Calendar.NextDayNumber` | src/sections/Listing/components/ListingCreateBookingModal/index.tsx:43 | the next calendar day is a valid date one day number later, across month and year ends and leap days |
| `Calendar.StayDates` | src/sections/Listing/components/ListingCreateBookingModal/index.tsx:43 | the dates of a stay are consecutive days from check-in that end at check-out; there are as many as the day-number difference plus one |
| `Calendar.FormatIsoDate` | src/sections/Listing/components/ListingCreateBookingModal/index.tsx:84-85 | `YYYY-MM-DD` has ten characters, with dashes at positions 4 and 7 and digits everywhere else |
| `Calendar.IsoDateRoundTrip` | src/sections/Listing/components/ListingCreateBookingModal/index.tsx:84-85 | reading the formatted date back gives the date itself |
| `Booking.DaysBooked` | src/sections/Listing/components/ListingCreateBookingModal/index.tsx:43 | the nights booked are the whole-day difference of the two dates plus one |
| `Booking.ListingPrice` | src/sections/Listing/components/ListingCreateBookingModal/index.tsx:44 | the total charged is the nightly price times the nights booked |
| `Calendar.DayNumberInjective` | src/sections/Listing/components/ListingCreateBookingModal/index.tsx:43 | two valid dates have the same day number iff they are the same date, so a zero whole-day difference means the same day |
| `Booking.DaysBookedCountsStay` | src/sections/Listing/components/ListingCreateBookingModal/index.tsx:43 | the nights booked equal the number of calendar dates of the stay list, which starts at check-in and ends at check-out; a same-day stay counts 1 |
| `Booking.ListingPriceIsStayTotal` | src/sections/Listing/components/ListingCreateBookingModal/index.tsx:44 | the total charged is the nightly price times the number of calendar dates of the stay |
| `Booking.Summary` | src/sections/Listing/components/ListingCreateBookingModal/index.tsx:130-135 | the charge line and the "Total" show the same amount, price × nights booked |
| `Booking.BookingDecision` | src/sections/Listing/components/ListingCreateBookingModal/index.tsx:64-96 | a missing widget gives the Stripe error; otherwise a missing card field gives a silent return; otherwise a token gives a booking with `{id, token id, check-in, check-out}` and dates as `YYYY-MM-DD`; otherwise the message is the tokenization error's own message if it has one, and the default text if not |
| `Booking.RequestedDatesRoundTrip` | src/sections/Listing/components/ListingCreateBookingModal/index.tsx:77-88 | the date strings of a requested booking parse back to the chosen check-in and check-out |
| `Booking.RequestsOf` | src/sections/Listing/components/ListingCreateBookingModal/index.tsx:77-88 | an attempt makes at most one booking call, and makes one exactly when a token came back |
| `Booking.MessagesOf` | src/sections/Listing/components/ListingCreateBookingModal/index.tsx:65-95 | an attempt shows at most one message, and shows none exactly on a silent return or a booking call |
| `Booking.BookingModal.HandleCreateBooking` | src/sections/Listing/components/ListingCreateBookingModal/index.tsx:64-96 | the handler books the drafted dates: it appends exactly the calls and messages of `BookingDecision`; it leaves the draft and the refetch count alone |
| `Booking.BookingModal.OnCompleted` | src/sections/Listing/components/ListingCreateBookingModal/index.tsx:49-56 | on success: the draft is cleared, the success notification is shown and one refetch is started |
| `Booking.BookingModal.OnError` | src/sections/Listing/components/ListingCreateBookingModal/index.tsx:57-61 | on failure: only the error message is added, and the draft is kept |
| `Host.BeforeImageUpload` | src/sections/Host/index.tsx:325-344 | an upload is accepted iff the type is exactly `image/jpeg` or `image/png` and size/1024/1024 < 1, that is size < 1,048,576; a wrong type gets the type message whatever the size; the size message appears exactly for a valid type of 1 MiB or more; at most one message, and none on acceptance |
| `Host.Preview` | src/sections/Host/index.tsx:292-299 | an encoded image is shown when there is one; otherwise the upload button is shown, with a spinner while loading |
| `Host.FormObject` | src/sections/Host/index.tsx:96-97 | the spread form values have one key per form item |
| `Host.BuildHostListingInput` | src/sections/Host/index.tsx:95-105 | a submitted input has no city, state or postal-code key; the address is `address, city, state, postalCode`; the price is the form price × 100; the image is the encoded image, overriding the form's value; type, guests, title and description pass through |
| `Host.HandleHostListing` | src/sections/Host/index.tsx:84-114 | a validation failure shows the incomplete-form message and sends nothing; a success sends the input above |
| `Host.View` | src/sections/Host/index.tsx:116-149 | in order: loading gives the spinner; a created listing redirects to `/listing/{id}`; a viewer without a truthy id or wallet gets the sign-in notice; otherwise the form is shown |
| `Host.HostPage.constructor` | src/sections/Host/index.tsx:46-48 | the image is not loading and no encoded image exists |
| `Host.HostPage.HandleImageUpload` | src/sections/Host/index.tsx:68-82 | "uploading" sets loading and leaves the image alone; "done" with a file stores the encoded image and clears loading; anything else changes nothing |
| `App.InitialViewer` | src/index.tsx:56-62 | the initial viewer has id, token, avatar and wallet all null, and `didRequest` false |
| `App.AuthHeaders` | src/index.tsx:43-49 | the headers are exactly `X-CSRF-TOKEN`, set to the stored token, or "" when none is stored |
| `App.StoreToken` | src/index.tsx:71-75 | a truthy token is stored under `token`; otherwise the entry is removed; no other key changes |
| `App.HeaderCarriesViewerToken` | src/index.tsx:43-75 | after a login, every request's header carries the new viewer's token, or "" when it has none |
| `App.View` | src/index.tsx:86-99 | the launch skeleton is shown iff `!didRequest && !error`; otherwise the error banner is present iff the login mutation failed |
| `App.LaunchShowsSkeleton` | src/index.tsx:56-95 | the app starts behind the launch skeleton |
| `App.AppShell.constructor` | src/index.tsx:64-65 | the viewer cell starts at the initial viewer, with no login call made yet |
| `App.AppShell.Commit` | src/index.tsx:80-84 | the effect with no dependencies runs only after the first commit, so however many commits happen, LOG_IN is called once |
| `App.AppShell.OnLogInCompleted` | src/index.tsx:66-78 | a non-null `logIn` replaces the viewer wholesale and sets or removes the stored token; a null one changes nothing |
| `App.AppShell.OnLogInError` | src/index.tsx:66 | a failed login sets the error flag and nothing else |

## Left out

- Markup, styling and layout of every component. Only the decision each render makes is
  modelled.
- The Home search and Login page controllers (src/sections/Home, src/sections/Login) are
  outside this model.
- The User page is not part of this model. Its only rule, a loading/error phase check, is the
  same shape as the Listings phase rule.
- The other writers of the viewer cell: the header, Login, Stripe and User components each
  receive `setViewer` (src/index.tsx:105-129). `App.AppShell` models only the login-completion
  writer of the bootstrap.
- Route matching by the router's `<Switch>` table (src/index.tsx:107-131).
- Apollo transport, caching, request de-duplication and the order of stale responses, which
  belong to the library. A query that a render issues again with the same variables is counted
  again in `Listings.Requests`.
- What the query hook returns for a skipped render. It comes from the library, so the view is
  modelled only from a given `QueryResult`.
- Listings.ListingsController.SetPage: requires that the anchor has caught up with the
  location, and that the chosen page is at least 1, as the pagination control only offers
  pages from 1. A pagination click can only happen in a committed view, and React runs that
  view's effects first. The event model has the same precondition (`Listings.Enabled`).
- Listings.ListingsController.RunEffect: runs the effect body only when the ref differs from
  the location. This is the `[location]` dependency check, because the ref always holds the
  location of the previous effect run. The mount run is a no-op either way.
- antd form validation internals (`validateFields`). Their outcome is an input, and upload
  statuses other than "uploading" and "done" are treated alike.
- FileReader base64 encoding (`getBase64Value`, src/sections/Host/index.tsx:346-355). It is an
  asynchronous browser API. Its result is an input, and the callback is modelled as running
  at once.
- Stripe tokenization and key loading. The widget's readiness, the card field's presence and
  the tokenization result are inputs.
- The mutations' success notification and error message on the host page (src/sections/Host/index.tsx:53-63), which only display text.
- `formatListingPrice` (lib/utils), which only formats a price for display, is not modelled,
  and neither is moment's display format "MMMM Do YYYY".
- Floating point. The form price is modelled as whole dollars; decimal prices, which the
  price input accepts, and the floating-point product `values.price * 100` are not modelled.
- Times of day and time zones in moment values. A date is a calendar date, and a whole-day
  difference is a day-number difference.
- Calendar.FormatIsoDate: covers years 0 to 9999 only, the range where `YYYY` prints four
  digits.
- React StrictMode double invocation of effects, `window.location`, `reportWebVitals`, and the
  button loading state of the booking modal.
