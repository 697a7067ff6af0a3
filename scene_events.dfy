/**
 * The scene as a whole: both panels wired to the same two setters, each user event
 * handled as one atomic update of the coordinator's cells and the slider panel's
 * session cells, and the invariants that every sequence of events keeps.
 */
module SceneEvents {
  import opened Optional
  import opened SceneTypes
  import opened ControlPanel
  import opened MaterialPanel

  /** Everything the handlers read and write: the two scene cells and the drag session. */
  datatype UiState = UiState(config: WindowConfig, isDragging: bool, session: DragSession)

  /**
   * The events that reach the handlers. A pointer-down comes from a slider and carries
   * the value that slider shows; moves and ups are the document-level ones.
   */
  datatype UiEvent =
    | SliderPointerDown(param: Param, clientX: real)
    | PointerMove(clientX: real, innerWidth: ViewportWidth)
    | PointerUp
    | MaterialClick(material: Material)

  /** The state on mount. */
  const InitialState: UiState := UiState(InitialConfig, false, NoSession)

  /** The effect of one event. */
  function Step(s: UiState, e: UiEvent): UiState
  {
    match e
    case SliderPointerDown(p, clientX) =>
      s.(session := PointerDownSession(p, Field(s.config, p), clientX), isDragging := true)
    case PointerMove(clientX, innerWidth) =>
      if s.session.dragKey.None? then s
      else s.(config := PointerMoveResult(s.session, s.config, clientX, innerWidth).GetOr(s.config))
    case PointerUp =>
      if s.session.dragKey.Some? then s.(session := NoSession, isDragging := false) else s
    case MaterialClick(m) =>
      s.(config := HandleMaterialClick(s.config, m))
  }

  /** The effect of a sequence of events, in delivery order. */
  function Run(s: UiState, events: seq<UiEvent>): UiState
    decreases |events|
  {
    if events == [] then s else Run(Step(s, events[0]), events[1..])
  }

  /**
   * What holds in every reachable state: each field lies within its slider's range; the
   * session cells are all set or all null; the drag flag is raised exactly when they are set.
   */
  predicate Inv(s: UiState)
  {
    && WithinSliderDomains(s.config)
    && (s.session == NoSession || CanMove(s.session))
    && (s.isDragging <==> s.session != NoSession)
  }

  /** The initial configuration lies within every slider's range, and nothing is being dragged. */
  lemma InitialStateValid()
    ensures Inv(InitialState)
    ensures InitialState.config.material == Metal && !InitialState.isDragging
    ensures OrbitControlsEnabled(InitialState.isDragging)
  {
  }

  /** Every event keeps the invariant. */
  lemma StepPreservesInv(s: UiState, e: UiEvent)
    requires Inv(s)
    ensures Inv(Step(s, e))
  {
  }

  /** Every sequence of events keeps the invariant. */
  lemma {:induction false} RunPreservesInv(s: UiState, events: seq<UiEvent>)
    requires Inv(s)
    ensures Inv(Run(s, events))
    decreases |events|
  {
    if events != [] {
      StepPreservesInv(s, events[0]);
      RunPreservesInv(Step(s, events[0]), events[1..]);
    }
  }

  /** In a state the invariant holds of, the camera is enabled exactly when no drag session exists. */
  lemma CameraEnabledExactlyWhenIdle(s: UiState)
    requires Inv(s)
    ensures OrbitControlsEnabled(s.isDragging) <==> s.session == NoSession
    ensures OrbitControlsEnabled(s.isDragging) <==> s.session.dragKey.None?
  {
  }

  /**
   * From mount, after any events whatever: every field is within its slider's range and
   * the camera is locked exactly while a drag is in progress.
   */
  lemma {:induction false} ReachableStatesValid(events: seq<UiEvent>)
    ensures WithinSliderDomains(Run(InitialState, events).config)
    ensures OrbitControlsEnabled(Run(InitialState, events).isDragging) <==> Run(InitialState, events).session.dragKey.None?
  {
    RunPreservesInv(InitialState, events);
    CameraEnabledExactlyWhenIdle(Run(InitialState, events));
  }

  /**
   * Only a move changes the numbers and only a click changes the material; only a
   * slider pointer-down or a pointer-up changes the drag flag and the session.
   */
  lemma WhoChangesWhat(s: UiState, e: UiEvent)
    ensures Step(s, e).config != s.config ==> e.PointerMove? || e.MaterialClick?
    ensures Step(s, e).config.material != s.config.material ==> e.MaterialClick?
    ensures (Step(s, e).isDragging != s.isDragging || Step(s, e).session != s.session) ==>
              e.SliderPointerDown? || e.PointerUp?
  {
  }

  /** Pointer-up with no drag in progress changes nothing; so does a move. */
  lemma IdleIgnoresPointer(s: UiState, clientX: real, innerWidth: ViewportWidth)
    requires s.session.dragKey.None?
    ensures Step(s, PointerUp) == s
    ensures Step(s, PointerMove(clientX, innerWidth)) == s
  {
  }

  /**
   * A new drag starts from a session that depends only on the slider, the pointer and
   * the configuration: nothing of an earlier session carries over.
   */
  lemma NewDragForgetsEarlierSession(s1: UiState, s2: UiState, p: Param, clientX: real)
    requires s1.config == s2.config
    ensures Step(s1, SliderPointerDown(p, clientX)) == Step(s2, SliderPointerDown(p, clientX))
    ensures Step(s1, SliderPointerDown(p, clientX)).session == PointerDownSession(p, Field(s1.config, p), clientX)
  {
  }

  /**
   * Grabbing the width or depth slider, moving by zero pixels and releasing leaves the
   * configuration as it was.
   */
  lemma ZeroDisplacementDragKeepsConfig(s: UiState, p: Param, clientX: real, innerWidth: ViewportWidth)
    requires Inv(s)
    requires p != Height
    ensures Run(s, [SliderPointerDown(p, clientX), PointerMove(clientX, innerWidth), PointerUp]).config == s.config
  {
    var events := [SliderPointerDown(p, clientX), PointerMove(clientX, innerWidth), PointerUp];
    var s1 := Step(s, events[0]);
    var s2 := Step(s1, events[1]);
    ZeroDisplacementRoundTrip(p, Field(s.config, p), clientX, innerWidth);
    assert s2.config == s.config;
    assert events[1..][1..] == [PointerUp];
    assert Run(s, events) == Run(s2, [PointerUp]) == Step(s2, PointerUp);
  }

  /** The same gesture on the height slider, from mount, turns height 1.5 into 4/3. */
  lemma ZeroDisplacementHeightDragFromMount(clientX: real, innerWidth: ViewportWidth)
    ensures Run(InitialState, [SliderPointerDown(Height, clientX), PointerMove(clientX, innerWidth), PointerUp]).config
            == InitialConfig.(height := 4.0 / 3.0)
  {
    var events := [SliderPointerDown(Height, clientX), PointerMove(clientX, innerWidth), PointerUp];
    var s1 := Step(InitialState, events[0]);
    var s2 := Step(s1, events[1]);
    HeightDriftAtInitialHeight(clientX, innerWidth);
    assert s2.config == InitialConfig.(height := 4.0 / 3.0);
    assert events[1..][1..] == [PointerUp];
    assert Run(InitialState, events) == Run(s2, [PointerUp]) == Step(s2, PointerUp);
  }

  // ---------------------------------------------------------------------------
  // The handlers on the live objects
  // ---------------------------------------------------------------------------

  /** The live cells of a slider panel and the coordinator it was handed, as one value. */
  function Snapshot(panel: Panel): UiState
    reads panel, panel.scene
  {
    UiState(panel.scene.windowConfig, panel.scene.isDragging, panel.Session())
  }

  /**
   * Delivers one event to the handler that receives it: a slider's pointer-down passes
   * that slider's current value; moves and ups go to the document-level listeners; a
   * material button's click goes to the material panel, wired to the same coordinator.
   */
  method Dispatch(panel: Panel, e: UiEvent)
    modifies panel, panel.scene
    ensures Snapshot(panel) == Step(old(Snapshot(panel)), e)
  {
    match e {
      case SliderPointerDown(p, clientX) =>
        panel.HandlePointerDown(p, Field(panel.scene.windowConfig, p), clientX);
      case PointerMove(clientX, innerWidth) =>
        panel.HandlePointerMoveGlobal(clientX, innerWidth);
      case PointerUp =>
        panel.HandlePointerUpGlobal();
      case MaterialClick(m) =>
        Click(panel.scene, m);
    }
  }
}
