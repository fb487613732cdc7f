/** The drag state of a carousel as a value, with one function per event handler.
    Both carousel classes keep this state in four fields and are proved to update
    them as these functions say; the properties of whole event sequences are proved
    here, once. */
module DragMachine {
  import opened Bounds

  datatype Phase = Idle | Dragging

  /** `startX` is where the drag began, in canvas coordinates; `currentTranslateX` is
      the translation drawn now; `previousTranslateX` is the translation committed by
      the last release. */
  datatype DragState = DragState(state: Phase, startX: real, currentTranslateX: real,
                                 previousTranslateX: real)

  /** A pointer or touch event, reduced to the client X of its first contact point and
      the left edge of the canvas' bounding rectangle. */
  datatype Event = Down(clientX: real, left: real) | Move(clientX: real, left: real) | Up

  /** The state a carousel is constructed with. */
  const Initial: DragState := DragState(Idle, 0.0, 0.0, 0.0)

  /** Pointer down: start dragging from `clientX - left`. Unguarded: a second down
      while dragging simply re-seeds the start. */
  function OnDown(s: DragState, clientX: real, left: real): DragState {
    s.(state := Dragging, startX := clientX - left)
  }

  /** Pointer up: stop dragging and commit the current translation, also when idle. */
  function OnUp(s: DragState): DragState {
    s.(state := Idle, previousTranslateX := s.currentTranslateX)
  }

  /** Pointer move in the carousel that delegates to UpdateTranslateX. */
  function OnMove(s: DragState, clientX: real, left: real, maxTranslateX: real): DragState {
    if s.state != Dragging then s
    else s.(currentTranslateX := UpdateTranslateX(clientX, s.startX, left, s.previousTranslateX, maxTranslateX))
  }

  /** Pointer move in the carousel that clamps inline, in two steps. */
  function OnMoveInline(s: DragState, clientX: real, left: real, maxTranslateX: real): DragState {
    if s.state != Dragging then s
    else s.(currentTranslateX := SequentialClamp(DragOffset(clientX, s.startX, left, s.previousTranslateX), maxTranslateX))
  }

  function Step(s: DragState, e: Event, maxTranslateX: real): DragState {
    match e
    case Down(clientX, left) => OnDown(s, clientX, left)
    case Move(clientX, left) => OnMove(s, clientX, left, maxTranslateX)
    case Up => OnUp(s)
  }

  function StepInline(s: DragState, e: Event, maxTranslateX: real): DragState {
    match e
    case Down(clientX, left) => OnDown(s, clientX, left)
    case Move(clientX, left) => OnMoveInline(s, clientX, left, maxTranslateX)
    case Up => OnUp(s)
  }

  /** The state after handling `events` in order, with a fixed image count and canvas width. */
  function Run(s: DragState, events: seq<Event>, maxTranslateX: real): DragState
    decreases |events|
  {
    if events == [] then s else Run(Step(s, events[0], maxTranslateX), events[1..], maxTranslateX)
  }

  function RunInline(s: DragState, events: seq<Event>, maxTranslateX: real): DragState
    decreases |events|
  {
    if events == [] then s else RunInline(StepInline(s, events[0], maxTranslateX), events[1..], maxTranslateX)
  }

  /** Both translations lie in the legal range `[maxTranslateX, 0]`. */
  predicate InRange(s: DragState, maxTranslateX: real) {
    maxTranslateX <= s.currentTranslateX <= 0.0 && maxTranslateX <= s.previousTranslateX <= 0.0
  }

  /** While idle, nothing is drawn but what has been committed. */
  predicate Committed(s: DragState) {
    s.state == Idle ==> s.currentTranslateX == s.previousTranslateX
  }

  /** Every event keeps the idle state committed. */
  lemma StepKeepsCommitted(s: DragState, e: Event, maxTranslateX: real)
    requires Committed(s)
    ensures Committed(Step(s, e, maxTranslateX))
    ensures Committed(StepInline(s, e, maxTranslateX))
  {
  }

  /** Any sequence of events keeps the idle state committed. */
  lemma {:induction false} RunKeepsCommitted(s: DragState, events: seq<Event>, maxTranslateX: real)
    requires Committed(s)
    ensures Committed(Run(s, events, maxTranslateX))
    ensures Committed(RunInline(s, events, maxTranslateX))
    decreases |events|
  {
    if events != [] {
      StepKeepsCommitted(s, events[0], maxTranslateX);
      RunKeepsCommitted(Step(s, events[0], maxTranslateX), events[1..], maxTranslateX);
      RunKeepsCommitted(StepInline(s, events[0], maxTranslateX), events[1..], maxTranslateX);
    }
  }

  /** Up runs even when idle, but after any history from the constructed state it then
      changes nothing: the committed translation moves only on a release of a drag. */
  lemma UpWhileIdleChangesNothing(events: seq<Event>, maxTranslateX: real)
    ensures Run(Initial, events, maxTranslateX).state == Idle ==>
              OnUp(Run(Initial, events, maxTranslateX)) == Run(Initial, events, maxTranslateX)
    ensures RunInline(Initial, events, maxTranslateX).state == Idle ==>
              OnUp(RunInline(Initial, events, maxTranslateX)) == RunInline(Initial, events, maxTranslateX)
  {
    RunKeepsCommitted(Initial, events, maxTranslateX);
  }

  /** Down starts a drag and touches neither translation. */
  lemma DownStartsDrag(s: DragState, clientX: real, left: real)
    ensures var t := OnDown(s, clientX, left);
            t.state == Dragging && t.startX == clientX - left
            && t.currentTranslateX == s.currentTranslateX && t.previousTranslateX == s.previousTranslateX
  {
  }

  /** A second down forgets the first one's start. */
  lemma DownReseeds(s: DragState, c1: real, l1: real, c2: real, l2: real)
    ensures OnDown(OnDown(s, c1, l1), c2, l2) == OnDown(s, c2, l2)
  {
  }

  /** Up goes idle, commits the current translation and leaves it drawn as it is. */
  lemma UpCommits(s: DragState)
    ensures var t := OnUp(s);
            t.state == Idle && t.previousTranslateX == s.currentTranslateX
            && t.currentTranslateX == s.currentTranslateX && t.startX == s.startX
  {
  }

  /** A second up changes nothing more. */
  lemma UpIdempotent(s: DragState)
    ensures OnUp(OnUp(s)) == OnUp(s)
  {
  }

  /** A move while idle is ignored, in both carousels. */
  lemma MoveWhileIdleIgnored(s: DragState, clientX: real, left: real, maxTranslateX: real)
    requires s.state == Idle
    ensures OnMove(s, clientX, left, maxTranslateX) == s
    ensures OnMoveInline(s, clientX, left, maxTranslateX) == s
  {
  }

  /** A move while dragging changes only the current translation, and puts it in range. */
  lemma MoveWhileDragging(s: DragState, clientX: real, left: real, maxTranslateX: real)
    requires s.state == Dragging && maxTranslateX <= 0.0
    ensures var t := OnMove(s, clientX, left, maxTranslateX);
            t.state == s.state && t.startX == s.startX && t.previousTranslateX == s.previousTranslateX
            && maxTranslateX <= t.currentTranslateX <= 0.0
  {
  }

  /** The translation committed by a release changes only on Up. */
  lemma PreviousChangesOnlyOnUp(s: DragState, e: Event, maxTranslateX: real)
    requires !e.Up?
    ensures Step(s, e, maxTranslateX).previousTranslateX == s.previousTranslateX
    ensures StepInline(s, e, maxTranslateX).previousTranslateX == s.previousTranslateX
  {
  }

  /** Every event keeps both translations in range. */
  lemma StepKeepsRange(s: DragState, e: Event, maxTranslateX: real)
    requires InRange(s, maxTranslateX)
    ensures InRange(Step(s, e, maxTranslateX), maxTranslateX)
    ensures InRange(StepInline(s, e, maxTranslateX), maxTranslateX)
  {
  }

  /** Any sequence of events keeps both translations in range. */
  lemma {:induction false} RunKeepsRange(s: DragState, events: seq<Event>, maxTranslateX: real)
    requires InRange(s, maxTranslateX)
    ensures InRange(Run(s, events, maxTranslateX), maxTranslateX)
    ensures InRange(RunInline(s, events, maxTranslateX), maxTranslateX)
    decreases |events|
  {
    if events != [] {
      StepKeepsRange(s, events[0], maxTranslateX);
      RunKeepsRange(Step(s, events[0], maxTranslateX), events[1..], maxTranslateX);
      RunKeepsRange(StepInline(s, events[0], maxTranslateX), events[1..], maxTranslateX);
    }
  }

  /** Starting from the constructed state, the translations stay in range whatever
      the user does, as long as there is at least one image (so the range is not empty). */
  lemma InRangeAfterAnyHistory(events: seq<Event>, maxTranslateX: real)
    requires maxTranslateX <= 0.0
    ensures InRange(Run(Initial, events, maxTranslateX), maxTranslateX)
    ensures InRange(RunInline(Initial, events, maxTranslateX), maxTranslateX)
  {
    RunKeepsRange(Initial, events, maxTranslateX);
  }

  /** When the range is not empty, both carousels go through the same states. */
  lemma {:induction false} RunInlineMatchesRun(s: DragState, events: seq<Event>, maxTranslateX: real)
    requires maxTranslateX <= 0.0
    ensures RunInline(s, events, maxTranslateX) == Run(s, events, maxTranslateX)
    decreases |events|
  {
    if events != [] {
      var e := events[0];
      if e.Move? {
        SequentialClampMatchesUpdateTranslateX(e.clientX, s.startX, e.left, s.previousTranslateX, maxTranslateX);
      }
      assert StepInline(s, e, maxTranslateX) == Step(s, e, maxTranslateX);
      RunInlineMatchesRun(Step(s, e, maxTranslateX), events[1..], maxTranslateX);
    }
  }

  /** No jump: after a release, pressing and moving at the same point draws exactly
      the committed translation. */
  lemma NoJump(s: DragState, clientX: real, left: real, maxTranslateX: real)
    requires maxTranslateX <= s.currentTranslateX <= 0.0
    ensures var u := OnUp(s);
            OnMove(OnDown(u, clientX, left), clientX, left, maxTranslateX).currentTranslateX == u.previousTranslateX
    ensures var u := OnUp(s);
            OnMoveInline(OnDown(u, clientX, left), clientX, left, maxTranslateX).currentTranslateX == u.previousTranslateX
  {
  }

  /** No jump, after any history that starts from the constructed state. */
  lemma NoJumpAfterAnyHistory(events: seq<Event>, clientX: real, left: real, maxTranslateX: real)
    requires maxTranslateX <= 0.0
    ensures var u := OnUp(Run(Initial, events, maxTranslateX));
            OnMove(OnDown(u, clientX, left), clientX, left, maxTranslateX).currentTranslateX == u.previousTranslateX
    ensures var u := OnUp(RunInline(Initial, events, maxTranslateX));
            OnMoveInline(OnDown(u, clientX, left), clientX, left, maxTranslateX).currentTranslateX == u.previousTranslateX
  {
    InRangeAfterAnyHistory(events, maxTranslateX);
    NoJump(Run(Initial, events, maxTranslateX), clientX, left, maxTranslateX);
    NoJump(RunInline(Initial, events, maxTranslateX), clientX, left, maxTranslateX);
  }

  /** With a single image every drag move draws translation 0. */
  lemma SingleImageMovesToZero(s: DragState, clientX: real, left: real, canvasWidth: real)
    requires s.state == Dragging
    ensures OnMove(s, clientX, left, MaxTranslateX(1, canvasWidth)).currentTranslateX == 0.0
    ensures OnMoveInline(s, clientX, left, MaxTranslateX(1, canvasWidth)).currentTranslateX == 0.0
  {
  }

  /** Without images the inline clamp pins every drag move at one canvas width, while
      this model's UpdateTranslateX gives 0 for a rightward offset. */
  lemma NoImagesMoves(s: DragState, clientX: real, left: real, canvasWidth: real)
    requires s.state == Dragging && canvasWidth > 0.0
    ensures OnMoveInline(s, clientX, left, MaxTranslateX(0, canvasWidth)).currentTranslateX == canvasWidth
    ensures DragOffset(clientX, s.startX, left, s.previousTranslateX) > 0.0 ==>
              OnMove(s, clientX, left, MaxTranslateX(0, canvasWidth)).currentTranslateX == 0.0
  {
  }
}
