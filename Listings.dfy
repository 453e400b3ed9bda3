/** The listings search page (src/sections/Listings/index.tsx): a query controller over the
    route's location, a location anchor kept in a ref, and the filter and page state cells. */
module Listings {
  import opened Wrappers
  import Js

  /** Sort order offered by the filter control. */
  datatype ListingsFilter = PriceLowToHigh | PriceHighToLow

  /** The optional route segment of `/listings/:location?`. */
  type Location = Option<string>

  /** Number of listings requested per page. */
  const PageLimit: int := 8

  /** The variables of the LISTINGS query. */
  datatype ListingsVariables = ListingsVariables(location: Location, filter: ListingsFilter, limit: int, page: int)

  /** The controller's state: the route's location, the anchor held in `locationRef`, the two state
      cells, and `pageFor`, a bookkeeping component that the page does not have: the location that
      was current when `page` last received its value. */
  datatype ControllerState = ControllerState(
    location: Location,
    locationRef: Location,
    filter: ListingsFilter,
    page: int,
    pageFor: Location)

  /** What can happen to the controller: a new route location, a render that evaluates the
      query options, the location effect, and the two setters handed to the filter and
      pagination controls. */
  datatype Event =
    | RouteChanged(to: Location)
    | Rendered
    | EffectRan
    | FilterSet(newFilter: ListingsFilter)
    | PageSet(newPage: int)

  /** A query handed to the gateway, with the location its page number was chosen for. */
  datatype Request = Request(variables: ListingsVariables, pageFor: Location)

  /** State on first render: the ref starts at the route location, the filter at
      low-to-high and the page at 1. */
  function Initial(location: Location): (s: ControllerState)
    ensures s.location == location && s.locationRef == location
    ensures s.filter == PriceLowToHigh && s.page == 1
    ensures Invariant(s) && !Skip(s)
  {
    ControllerState(location, location, PriceLowToHigh, 1, location)
  }

  /** The `skip` option of the query. */
  predicate Skip(s: ControllerState) {
    s.locationRef != s.location && s.page != 1
  }

  /** The `variables` option of the query. */
  function Variables(s: ControllerState): ListingsVariables {
    ListingsVariables(s.location, s.filter, PageLimit, s.page)
  }

  /** What holds between events: pages start at 1, and the page was chosen for the anchored location. */
  predicate Invariant(s: ControllerState) {
    s.page >= 1 && s.pageFor == s.locationRef
  }

  /** The page number belongs to another location and is not the first page. */
  predicate StalePage(s: ControllerState) {
    s.pageFor != s.location && s.page != 1
  }

  /** An issued query has the fixed limit, a page of at least 1, and never pairs a location
      with a page number chosen for a different one unless that page is 1. */
  predicate SafeRequest(r: Request) {
    && r.variables.limit == PageLimit
    && r.variables.page >= 1
    && (r.pageFor == r.variables.location || r.variables.page == 1)
  }

  /** Events the framework can deliver in a state. The pagination control only exists in a
      committed view, and React runs a commit's effects before it handles the next user event,
      so a page is only ever chosen once the anchor has caught up with the location. */
  predicate Enabled(s: ControllerState, e: Event) {
    match e
    case PageSet(p) => p >= 1 && s.locationRef == s.location
    case _ => true
  }

  /** The state after one event. The effect depends on `[location]`, so it runs only when the
      location differs from the one of the previous effect run, which is what the ref holds. */
  function Step(s: ControllerState, e: Event): (r: ControllerState)
    ensures !e.RouteChanged? ==> r.location == s.location
    ensures e.Rendered? ==> r == s
    ensures e.EffectRan? ==> r.locationRef == r.location && !Skip(r)
    ensures !e.EffectRan? ==> r.locationRef == s.locationRef
    ensures e.EffectRan? && s.locationRef != s.location ==> r.page == 1
    ensures !e.PageSet? && !(e.EffectRan? && s.locationRef != s.location) ==> r.page == s.page
    ensures !e.FilterSet? ==> r.filter == s.filter
  {
    match e
    case RouteChanged(l) => s.(location := l)
    case Rendered => s
    case EffectRan =>
      if s.locationRef != s.location then s.(page := 1, locationRef := s.location, pageFor := s.location)
      else s
    case FilterSet(f) => s.(filter := f)
    case PageSet(p) => s.(page := p, pageFor := s.location)
  }

  /** The queries one event issues: a render that is not skipped issues the current variables. */
  function Issued(s: ControllerState, e: Event): seq<Request> {
    if e.Rendered? && !Skip(s) then [Request(Variables(s), s.pageFor)] else []
  }

  /** The state after a sequence of events. */
  function Run(s: ControllerState, events: seq<Event>): ControllerState
    decreases |events|
  {
    if events == [] then s else Run(Step(s, events[0]), events[1..])
  }

  /** All queries issued along a sequence of events, in order. */
  function Requests(s: ControllerState, events: seq<Event>): seq<Request>
    decreases |events|
  {
    if events == [] then [] else Issued(s, events[0]) + Requests(Step(s, events[0]), events[1..])
  }

  /** Every event of the sequence is enabled in the state it meets. */
  predicate ValidTrace(s: ControllerState, events: seq<Event>)
    decreases |events|
  {
    events == [] || (Enabled(s, events[0]) && ValidTrace(Step(s, events[0]), events[1..]))
  }

  /** One event keeps the invariant, and whatever it issues is safe. */
  lemma StepIsSafe(s: ControllerState, e: Event)
    requires Invariant(s) && Enabled(s, e)
    ensures Invariant(Step(s, e))
    ensures forall r | r in Issued(s, e) :: SafeRequest(r)
  {
  }

  /** Race safety: along any sequence of events, every issued query is safe. In particular no
      query pairs a new location with a stale page greater than 1. */
  lemma {:induction false} TraceIsSafe(s: ControllerState, events: seq<Event>)
    requires Invariant(s) && ValidTrace(s, events)
    ensures Invariant(Run(s, events))
    ensures forall r | r in Requests(s, events) :: SafeRequest(r)
    decreases |events|
  {
    if events != [] {
      StepIsSafe(s, events[0]);
      TraceIsSafe(Step(s, events[0]), events[1..]);
    }
  }

  /** From the first render on, every issued query is safe. */
  lemma MountedTraceIsSafe(location: Location, events: seq<Event>)
    requires ValidTrace(Initial(location), events)
    ensures forall r | r in Requests(Initial(location), events) :: SafeRequest(r)
  {
    TraceIsSafe(Initial(location), events);
  }

  /** A navigation to a new location, its render, its effect and the re-render triggered by
      `setPage(1)` issue at least one query, and every query they issue asks for the first
      page of the new location with the current filter. */
  lemma RouteChangeCycle(s: ControllerState, l: Location)
    requires Invariant(s) && s.locationRef == s.location && l != s.location
    ensures |Requests(s, [RouteChanged(l), Rendered, EffectRan, Rendered])| >= 1
    ensures forall r | r in Requests(s, [RouteChanged(l), Rendered, EffectRan, Rendered]) ::
              r.variables == ListingsVariables(l, s.filter, PageLimit, 1)
  {
    var evs := [RouteChanged(l), Rendered, EffectRan, Rendered];
    var s1 := Step(s, RouteChanged(l));
    var s2 := Step(s1, Rendered);
    var s3 := Step(s2, EffectRan);
    assert evs[1..] == [Rendered, EffectRan, Rendered];
    assert evs[1..][1..] == [EffectRan, Rendered];
    assert evs[1..][1..][1..] == [Rendered];
    assert [Rendered][1..] == [];
    assert Requests(s3, [Rendered]) == Issued(s3, Rendered);
    assert Requests(s2, [EffectRan, Rendered]) == Issued(s3, Rendered);
    assert Requests(s1, [Rendered, EffectRan, Rendered]) == Issued(s1, Rendered) + Issued(s3, Rendered);
    assert Requests(s, evs) == Issued(s1, Rendered) + Issued(s3, Rendered);
  }

  /** One listing card's data. */
  datatype ListingSummary = ListingSummary(id: string, title: string, price: int)

  /** The `listings` field of a successful response. */
  datatype ListingsPage = ListingsPage(region: Option<string>, total: int, result: seq<ListingSummary>)

  datatype ListingsData = ListingsData(listings: ListingsPage)

  /** What the query hook returns on a render. */
  datatype QueryResult = QueryResult(loading: bool, error: bool, data: Option<ListingsData>)

  /** The body below the optional title: pagination, filters and the list, or the empty state
      with its call to action. */
  datatype Section =
    | ResultsSection(total: int, page: int, limit: int, filter: ListingsFilter, items: seq<ListingSummary>)
    | EmptySection(region: Option<string>, hostLink: string)

  /** What the page renders. */
  datatype ListingsView =
    | SkeletonView
    | ErrorView(description: string)
    | PageView(title: Option<string>, section: Section)

  const ErrorDescription: string :=
    "we either couldn't find anything matching your search or have encounterd an error. If you're searching for a unique location, try searching again with a more common keyword."

  const HostPath: string := "/host"

  /** The region echoed by the response, if there is one. */
  function Region(result: QueryResult): Option<string> {
    if result.data.Some? then result.data.value.listings.region else None
  }

  /** The listings of the response, if there are any. */
  function Items(result: QueryResult): seq<ListingSummary> {
    if result.data.Some? then result.data.value.listings.result else []
  }

  /** The render phase: loading, then error (the banner over a skeleton, no list), then a
      non-empty result list, then the empty state; a title appears only for a truthy region. */
  function View(result: QueryResult, filter: ListingsFilter, page: int): (v: ListingsView)
    ensures v.SkeletonView? <==> result.loading
    ensures v.ErrorView? <==> !result.loading && result.error
    ensures v.ErrorView? ==> v.description == ErrorDescription
    ensures (v.PageView? && v.section.ResultsSection?) <==>
              !result.loading && !result.error && |Items(result)| > 0
    ensures v.PageView? && v.section.ResultsSection? ==>
              result.data.Some?
              && v.section == ResultsSection(result.data.value.listings.total, page, PageLimit, filter, Items(result))
    ensures v.PageView? && v.section.EmptySection? ==>
              v.section.hostLink == HostPath && v.section.region == Region(result)
    ensures v.PageView? ==> (v.title.Some? <==> Js.TruthyString(Region(result)))
    ensures v.PageView? && v.title.Some? ==> v.title == Region(result)
  {
    if result.loading then SkeletonView
    else if result.error then ErrorView(ErrorDescription)
    else
      var listings := if result.data.Some? then Some(result.data.value.listings) else None;
      var region := if listings.Some? then listings.value.region else None;
      var section :=
        if listings.Some? && |listings.value.result| != 0 then
          ResultsSection(listings.value.total, page, PageLimit, filter, listings.value.result)
        else
          EmptySection(region, HostPath);
      var title := if region.Some? && region.value != "" then region else None;
      PageView(title, section)
  }

  /** The component's mutable part: the route location it is rendered with, the ref, and the
      `filter` and `page` state cells. */
  class ListingsController {
    var location: Location
    var locationRef: Location
    var filter: ListingsFilter
    var page: int
    ghost var pageFor: Location

    ghost function State(): ControllerState
      reads this
    {
      ControllerState(location, locationRef, filter, page, pageFor)
    }

    ghost predicate Valid()
      reads this
    {
      Invariant(State())
    }

    /** First render at `initialLocation`. */
    constructor (initialLocation: Location)
      ensures Valid() && State() == Initial(initialLocation)
    {
      location := initialLocation;
      locationRef := initialLocation;
      filter := PriceLowToHigh;
      page := 1;
      pageFor := initialLocation;
    }

    /** The router renders the component with a new `location` parameter. */
    method RouteChange(to: Location)
      requires Valid()
      modifies this
      ensures Valid() && State() == Step(old(State()), RouteChanged(to))
      ensures location == to && locationRef == old(locationRef)
      ensures page == old(page) && filter == old(filter)
    {
      location := to;
    }

    /** Evaluates the query options of a render: the query to issue, or None when skipped. */
    method Render() returns (query: Option<ListingsVariables>)
      requires Valid()
      ensures query.None? <==> (locationRef != location && page != 1)
      ensures query.Some? ==> query.value == ListingsVariables(location, filter, PageLimit, page)
      ensures query.Some? ==> !StalePage(State()) && SafeRequest(Request(query.value, pageFor))
      ensures Issued(State(), Rendered) == if query.Some? then [Request(query.value, pageFor)] else []
    {
      if locationRef != location && page != 1 {
        query := None;
      } else {
        query := Some(ListingsVariables(location, filter, PageLimit, page));
      }
    }

    /** The `[location]` effect: when the location has moved away from the anchor, go back to
      page 1 and re-anchor. Either way the skip guard is off afterwards. */
    method RunEffect()
      requires Valid()
      modifies this
      ensures Valid() && State() == Step(old(State()), EffectRan)
      ensures locationRef == location && !Skip(State())
      ensures old(locationRef) != old(location) ==> page == 1
      ensures location == old(location) && filter == old(filter)
    {
      if locationRef != location {
        page := 1;
        locationRef := location;
        pageFor := location;
      }
    }

    /** The filter control's setter; the page is left as it is. */
    method SetFilter(f: ListingsFilter)
      requires Valid()
      modifies this
      ensures Valid() && State() == Step(old(State()), FilterSet(f))
      ensures filter == f && page == old(page)
      ensures location == old(location) && locationRef == old(locationRef)
    {
      filter := f;
    }

    /** The pagination control's setter. */
    method SetPage(p: int)
      requires Valid() && Enabled(State(), PageSet(p))
      modifies this
      ensures Valid() && State() == Step(old(State()), PageSet(p))
      ensures page == p && filter == old(filter)
      ensures location == old(location) && locationRef == old(locationRef)
    {
      page := p;
      pageFor := location;
    }
  }
}
