/**
 * The start screen's routing guard: two effects race to leave the loading
 * screen, the fallback timer and the end of loading, and a `hasNavigated`
 * flag lets only the first of them navigate.
 */
module StartupRouter {
  import opened Wrappers

  datatype Route = Tabs | Onboarding

  /** What triggers one of the two effects. */
  datatype Event =
    | FallbackFired
    | LoadChanged(isLoading: bool, hasCompleted: Option<bool>)

  /** The `hasNavigated` ref and the `router.replace` calls made so far. */
  datatype RouterState = RouterState(hasNavigated: bool, replaced: seq<Route>)

  const Start: RouterState := RouterState(false, [])

  /** The flag is set exactly when a navigation happened, and at most one did. */
  predicate Guarded(st: RouterState) {
    (!st.hasNavigated && st.replaced == []) || (st.hasNavigated && |st.replaced| == 1)
  }

  /** `hasCompletedOnboarding` is truthy only when it is known to be true. */
  function Destination(hasCompleted: Option<bool>): (r: Route)
    ensures r == Tabs <==> hasCompleted == Some(true)
  {
    if hasCompleted == Some(true) then Tabs else Onboarding
  }

  /**
   * One effect run: the fallback navigates to onboarding, the load effect
   * navigates once loading is over; either does nothing once a navigation happened.
   */
  function Step(st: RouterState, e: Event): (r: RouterState)
    ensures st.hasNavigated ==> r == st
    ensures e.LoadChanged? && e.isLoading ==> r == st
    ensures !st.hasNavigated && e.FallbackFired? ==> r == RouterState(true, st.replaced + [Onboarding])
    ensures !st.hasNavigated && e.LoadChanged? && !e.isLoading ==>
              r == RouterState(true, st.replaced + [Destination(e.hasCompleted)])
  {
    if st.hasNavigated then st
    else match e
      case FallbackFired => RouterState(true, st.replaced + [Onboarding])
      case LoadChanged(isLoading, hasCompleted) =>
        if isLoading then st else RouterState(true, st.replaced + [Destination(hasCompleted)])
  }

  /** The effects, run in the order given. */
  function Run(st: RouterState, events: seq<Event>): RouterState
    decreases |events|
  {
    if events == [] then st else Run(Step(st, events[0]), events[1..])
  }

  /** Whether an event navigates when nothing has navigated yet. */
  predicate Navigates(e: Event) {
    e.FallbackFired? || !e.isLoading
  }

  /** Where an event that navigates goes. */
  function Target(e: Event): Route
    requires Navigates(e)
  {
    if e.FallbackFired? then Onboarding else Destination(e.hasCompleted)
  }

  /** The first event that navigates, if any. */
  function FirstNavigating(events: seq<Event>): (r: Option<nat>)
    ensures r.Some? ==> r.value < |events| && Navigates(events[r.value])
    ensures r.Some? ==> forall j :: 0 <= j < r.value ==> !Navigates(events[j])
    ensures r.None? ==> forall j :: 0 <= j < |events| ==> !Navigates(events[j])
  {
    if events == [] then None
    else if Navigates(events[0]) then Some(0)
    else match FirstNavigating(events[1..])
      case None => None
      case Some(k) => Some(k + 1)
  }

  /** Every run of the effects keeps the guard: `router.replace` is called at most once. */
  lemma {:induction false} RunKeepsGuard(st: RouterState, events: seq<Event>)
    requires Guarded(st)
    ensures Guarded(Run(st, events))
    ensures |Run(st, events).replaced| <= 1
    decreases |events|
  {
    if events != [] {
      RunKeepsGuard(Step(st, events[0]), events[1..]);
    }
  }

  /** Once navigated, nothing more happens. */
  lemma {:induction false} RunAfterNavigation(st: RouterState, events: seq<Event>)
    requires st.hasNavigated
    ensures Run(st, events) == st
    decreases |events|
  {
    if events != [] {
      RunAfterNavigation(Step(st, events[0]), events[1..]);
    }
  }

  /**
   * From the start, the single navigation is decided by the first event that
   * navigates: the fallback goes to onboarding, the end of loading chooses by
   * the flag; with no such event nothing navigates.
   */
  lemma {:induction false} FirstNavigatingEventDecides(events: seq<Event>)
    ensures var r := Run(Start, events);
            match FirstNavigating(events)
            case None => r == Start
            case Some(k) => r == RouterState(true, [Target(events[k])])
    decreases |events|
  {
    if events != [] {
      if Navigates(events[0]) {
        RunAfterNavigation(Step(Start, events[0]), events[1..]);
      } else {
        assert Step(Start, events[0]) == Start;
        FirstNavigatingEventDecides(events[1..]);
      }
    }
  }

  /** The start screen component: the ref and the calls to `router.replace`. */
  class StartScreen {
    var hasNavigated: bool
    var replaced: seq<Route>

    function State(): RouterState
      reads this
    {
      RouterState(hasNavigated, replaced)
    }

    constructor()
      ensures State() == Start
    {
      hasNavigated := false;
      replaced := [];
    }

    /** The fallback timer's callback, three seconds after mounting. */
    method OnFallbackTimer()
      modifies this
      ensures State() == Step(old(State()), FallbackFired)
    {
      if !hasNavigated {
        hasNavigated := true;
        replaced := replaced + [Onboarding];
      }
    }

    /** The effect that runs when `isLoading` or `hasCompletedOnboarding` changes. */
    method OnLoadStateChange(isLoading: bool, hasCompleted: Option<bool>)
      modifies this
      ensures State() == Step(old(State()), LoadChanged(isLoading, hasCompleted))
    {
      if !isLoading && !hasNavigated {
        hasNavigated := true;
        if hasCompleted == Some(true) {
          replaced := replaced + [Tabs];
        } else {
          replaced := replaced + [Onboarding];
        }
      }
    }
  }
}
