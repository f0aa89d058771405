/**
 * Tap-to-part resolution and the selection state of the robot detail
 * screen: `Coordinator.handleTap` writes the `selectedPart` and
 * `showingDetail` bindings, and the `onChange(of: showingDetail)` handler
 * clears the selection when the detail sheet goes away.
 */

module Selection {
  import opened Wrappers
  import opened RobotCatalog
  import opened SceneGraph
  import opened RobotScene

  /** The two `@State` variables of `RobotDetailView`. */
  datatype DetailState = DetailState(selectedPart: Option<RobotPart>, showingDetail: bool)

  /** The state a freshly shown detail screen starts in. */
  function Initial(): DetailState {
    DetailState(None, false)
  }

  /**
   * The hit list of one tap, front to back, given by the name of each node
   * the ray passed through (`None` for an unnamed node).
   */
  type Hits = seq<Option<string>>

  /**
   * The part a tap resolves to: only the front-most hit is looked at, and it
   * must carry a name equal to some part's raw value.
   */
  function TappedPart(hits: Hits): (r: Option<RobotPart>)
    ensures r.Some? <==> |hits| > 0 && hits[0].Some? && exists p: RobotPart :: p.RawValue() == hits[0].value
    ensures r.Some? ==> r.value.RawValue() == hits[0].value
  {
    if |hits| == 0 then None
    else match hits[0]
      case None => None
      case Some(name) => PartNamed(name)
  }

  /**
   * Writing `v` to `showingDetail`. SwiftUI runs the `onChange` handler only
   * when the value actually changes, and the handler clears the selection
   * when the new value is false.
   */
  function SetShowingDetail(s: DetailState, v: bool): (r: DetailState)
    ensures r.showingDetail == v
    ensures s.showingDetail && !v ==> r.selectedPart == None
    ensures !(s.showingDetail && !v) ==> r.selectedPart == s.selectedPart
  {
    var changed := s.showingDetail != v;
    var s' := s.(showingDetail := v);
    if changed && !v then s'.(selectedPart := None) else s'
  }

  /**
   * One tap: on a match the part is written first and `showingDetail` is
   * set to true afterwards; otherwise nothing is written.
   */
  function AfterTap(s: DetailState, hits: Hits): (r: DetailState)
    ensures TappedPart(hits).Some? ==> r == DetailState(TappedPart(hits), true)
    ensures TappedPart(hits).None? ==> r == s
  {
    match TappedPart(hits)
    case None => s
    case Some(part) => SetShowingDetail(s.(selectedPart := Some(part)), true)
  }

  /**
   * Dismissing the sheet (its close button or a swipe) writes false to
   * `showingDetail`; from a Consistent state that is back to (nil, false).
   */
  function AfterDismiss(s: DetailState): (r: DetailState)
    ensures !r.showingDetail
    ensures Consistent(s) ==> r == Initial()
  {
    SetShowingDetail(s, false)
  }

  /**
   * The sheet's content: the part detail view of the selected part while
   * the sheet is up, nothing otherwise.
   */
  function SheetPart(s: DetailState): (r: Option<RobotPart>)
    ensures r.Some? ==> s.showingDetail && r == s.selectedPart
    ensures Consistent(s) ==> (r.Some? <==> s.showingDetail)
  {
    if s.showingDetail then s.selectedPart else None
  }

  /** The sheet is up exactly when a part is selected. */
  predicate Consistent(s: DetailState) {
    s.showingDetail <==> s.selectedPart.Some?
  }

  /** The user-visible events of the detail screen. */
  datatype Event = Tap(hits: Hits) | Dismiss

  function Step(s: DetailState, e: Event): DetailState {
    match e
    case Tap(hits) => AfterTap(s, hits)
    case Dismiss => AfterDismiss(s)
  }

  /** The state after a sequence of events. */
  function Run(s: DetailState, events: seq<Event>): DetailState
    decreases |events|
  {
    if events == [] then s else Run(Step(s, events[0]), events[1..])
  }

  /** `RobotDetailView` with its two state variables. */
  class RobotDetailView {
    const robot: RobotType
    var selectedPart: Option<RobotPart>
    var showingDetail: bool

    function State(): DetailState
      reads this
    {
      DetailState(selectedPart, showingDetail)
    }

    constructor (robot: RobotType)
      ensures this.robot == robot
      ensures State() == Initial()
    {
      this.robot := robot;
      selectedPart := None;
      showingDetail := false;
    }

    /** Assigning the `showingDetail` binding, with the `onChange` reset. */
    method WriteShowingDetail(v: bool)
      modifies this
      ensures State() == SetShowingDetail(old(State()), v)
    {
      var changed := showingDetail != v;
      showingDetail := v;
      if changed && !v {
        selectedPart := None;
      }
    }

    /** The sheet's close button: `presentationMode.wrappedValue.dismiss()`. */
    method DismissDetail()
      modifies this
      ensures State() == AfterDismiss(old(State()))
    {
      WriteShowingDetail(false);
    }
  }

  /** The tap handler of `Robot3DView`, writing through its bindings into `view`. */
  class Coordinator {
    const view: RobotDetailView

    constructor (view: RobotDetailView)
      ensures this.view == view
    {
      this.view := view;
    }

    method HandleTap(hits: Hits)
      modifies view
      ensures view.State() == AfterTap(old(view.State()), hits)
    {
      if |hits| > 0 {
        var first := hits[0];
        if first.Some? {
          var part := PartNamed(first.value);
          if part.Some? {
            view.selectedPart := part;
            view.WriteShowingDetail(true);
          }
        }
      }
    }
  }

  /** Only the first hit counts: whatever lies behind an unnamed front node is ignored. */
  lemma UnnamedFrontHitIgnored(s: DetailState, rest: Hits)
    ensures AfterTap(s, [None] + rest) == s
  {
  }

  /** A front node whose name is no part's raw value leaves the state alone, too. */
  lemma UnknownNameIgnored(s: DetailState, name: string, rest: Hits)
    requires forall p: RobotPart :: p.RawValue() != name
    ensures AfterTap(s, [Some(name)] + rest) == s
  {
  }

  /** A tap on a node named after part `p` selects `p` and shows the sheet for it. */
  lemma TapSelectsPart(s: DetailState, p: RobotPart, rest: Hits)
    ensures AfterTap(s, [Some(p.RawValue())] + rest) == DetailState(Some(p), true)
    ensures SheetPart(AfterTap(s, [Some(p.RawValue())] + rest)) == Some(p)
  {
    PartNameRoundTrip(p);
  }

  /**
   * Every named node of an assembled robot scene is tappable: tapping it
   * selects the part of that name and shows the sheet.
   */
  lemma TapOnScene(t: Tree, s: DetailState, name: string, rest: Hits)
    requires SceneOf(t)
    requires name in Names(t)
    ensures AfterTap(s, [Some(name)] + rest).showingDetail
    ensures AfterTap(s, [Some(name)] + rest).selectedPart.Some?
    ensures AfterTap(s, [Some(name)] + rest).selectedPart.value.RawValue() == name
  {
    OneNamedNodePerPart(t);
  }

  /** Each event keeps the state Consistent. */
  lemma StepConsistent(s: DetailState, e: Event)
    requires Consistent(s)
    ensures Consistent(Step(s, e))
  {
  }

  /**
   * From a Consistent state (the initial one among them), every sequence of
   * taps and dismissals leaves the sheet up exactly when a part is selected: the sheet is never shown
   * empty and a selection never outlives the sheet.
   */
  lemma {:induction false} RunConsistent(s: DetailState, events: seq<Event>)
    requires Consistent(s)
    ensures Consistent(Run(s, events))
    ensures Run(s, events).showingDetail ==> SheetPart(Run(s, events)).Some?
    decreases |events|
  {
    if events != [] {
      StepConsistent(s, events[0]);
      RunConsistent(Step(s, events[0]), events[1..]);
    }
  }

  /** Running one more event after a run. */
  lemma {:induction false} RunSnoc(s: DetailState, events: seq<Event>, e: Event)
    ensures Run(s, events + [e]) == Step(Run(s, events), e)
    decreases |events|
  {
    if events != [] {
      assert (events + [e])[1..] == events[1..] + [e];
      RunSnoc(Step(s, events[0]), events[1..], e);
    }
  }

  /** From the initial state, any run that ends with a dismissal is back to (nil, false). */
  lemma DismissResets(events: seq<Event>)
    ensures Run(Initial(), events + [Dismiss]) == Initial()
  {
    RunSnoc(Initial(), events, Dismiss);
    RunConsistent(Initial(), events);
  }
}
