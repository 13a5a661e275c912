/**
  The single-slot lifecycle manager (`BulletinManager`). It holds at most one
  current bulletin, an auto-dismiss timer, and the window and view controller
  the bulletin is shown in. Presenting over a shown bulletin dismisses it first
  and presents the new one from the dismissal's completion.

  Asynchrony is made explicit. A `present(_:after:)` call only dispatches a block
  (`dispatched`); `Deliver` is the main queue running one. An exit animation in
  flight is an entry of `exits` with its completion; `CompleteExit` is that
  animation finishing. `FireTimer` is the timer firing. The interaction
  delegate's callbacks and the tap actions are recorded in `log`.

  The step functions below are the specification; the class
  `BulletinManager` holds the source's fields. Each of its event methods (all
  but the helpers `AnimateBulletinIn` and `AnimateCurrentBulletinOut`) is
  proved to perform one step and to keep the slot consistent.
*/
module Manager {
  import opened Wrappers
  import opened View

  /** `dismissCurrentBulletin`'s default exit velocity. */
  const DefaultExitVelocity: real := 0.3
  /** The release speed that dismisses a bulletin by itself. */
  const DismissVelocity: real := 1200.0
  /** A drag of height / 1.7 toward the edge dismisses a bulletin. */
  const HeightFraction: real := 1.7
  /** `UIWindowLevelNormal` and `UIWindowLevelStatusBar`. */
  const WindowLevelNormal: real := 0.0
  const WindowLevelStatusBar: real := 1000.0

  /** A scheduled timer: the bulletin view in its user info, its interval, and
      whether it can still fire. */
  datatype Timer = Timer(view: BulletinView, interval: real, valid: bool)

  /** The completion closures handed to `dismissCurrentBulletin`; each holds on
      to the view object it was created for. */
  datatype Completion =
    | NoCompletion
    | PresentAgain(next: BulletinView)     // from `present`: present `next` again
    | RunAction(tapped: BulletinView, action: nat)  // from a tap: dismiss again, then run the action captured at the tap

  /** An exit animation in flight. */
  datatype ExitAnimation = ExitAnimation(velocity: real, completion: Completion)

  /** A block dispatched by `present(_:after:)` that has not run yet. It holds
      the view object, and reads the view's properties only when it runs. */
  datatype Dispatched = Dispatched(view: BulletinView, delay: real)

  /** Interaction-delegate callbacks, by bulletin view; a tap action that ran,
      by its view and the action token captured at the tap. */
  datatype Notice =
    | WillAppear(view: BulletinView)
    | WillDisappear(view: BulletinView)
    | WasAutomaticallyDismissed(view: BulletinView)
    | WasInteractivelyDismissed(view: BulletinView)
    | ActionRan(view: BulletinView, action: nat)

  /** The manager's fields, and the events that are pending. */
  datatype ManagerState = ManagerState(
    view: Option<Bulletin>,          // bulletinView, as it was when shown
    controller: Option<Bulletin>,    // bulletinViewController, by the bulletin it shows
    window: Option<real>,            // bulletinWindow, by its window level
    timer: Option<Timer>,
    exits: seq<ExitAnimation>,
    dispatched: seq<Dispatched>,
    log: seq<Notice>)

  const Initial: ManagerState := ManagerState(None, None, None, None, [], [], [])

  function RemoveAt<T>(s: seq<T>, k: nat): (r: seq<T>)
    requires k < |s|
    ensures |r| == |s| - 1
    ensures multiset(r) + multiset{s[k]} == multiset(s)
  {
    assert s == s[..k] + [s[k]] + s[k + 1..];
    s[..k] + s[k + 1..]
  }

  /** The level of the window a bulletin is shown in. */
  function WindowLevel(c: PresentationContext): (r: real)
    ensures r > WindowLevelStatusBar <==> c == OverStatusBar
    ensures c == DefaultContext ==> r == WindowLevelNormal
  {
    if c == OverStatusBar then WindowLevelStatusBar + 1.0 else WindowLevelNormal
  }

  /** The timer interval of a duration: `.limit(t)` gives t, `.forever` gives 0. */
  function TimerInterval(d: Duration): real {
    match d
    case Forever => 0.0
    case Limit(t) => t
  }

  /** Whether a bulletin of this duration gets an auto-dismiss timer. */
  predicate ArmsTimer(d: Duration) {
    TimerInterval(d) > 0.0
  }

  /** A timer is armed only for `.limit(t)` with t > 0. */
  lemma ArmsTimerExactly(d: Duration)
    ensures ArmsTimer(d) <==> d.Limit? && d.seconds > 0.0
    ensures ArmsTimer(d) ==> TimerInterval(d) == d.seconds
  {
  }

  /** `timer?.invalidate()`: the reference is kept, the timer can no longer fire. */
  function Invalidated(t: Option<Timer>): (r: Option<Timer>)
    ensures r.None? <==> t.None?
    ensures r.Some? ==> !r.value.valid && r.value.view == t.value.view && r.value.interval == t.value.interval
  {
    match t
    case None => None
    case Some(x) => Some(x.(valid := false))
  }

  /** No timer that can still fire. */
  predicate NoLiveTimer(s: ManagerState) {
    s.timer.None? || !s.timer.value.valid
  }

  /** The shown bulletin, its view controller and its window exist together. */
  ghost predicate Consistent(s: ManagerState) {
    && s.controller == s.view
    && (s.window.Some? <==> s.view.Some?)
    && (s.view.Some? ==> s.window == Some(WindowLevel(s.view.value.context)))
  }

  // ---------------------------------------------------------------------------
  // Steps

  /** `present(_:after:)`: dispatches the presentation block for view `v`. */
  function Schedule(s: ManagerState, v: BulletinView, delay: real): (r: ManagerState)
    ensures |r.dispatched| == |s.dispatched| + 1
    ensures r.dispatched[..|s.dispatched|] == s.dispatched
    ensures r.dispatched[|s.dispatched|] == Dispatched(v, delay)
    ensures r.(dispatched := s.dispatched) == s
  {
    s.(dispatched := s.dispatched + [Dispatched(v, delay)])
  }

  /** The presentation block's show branch, `animateBulletinIn` included. */
  function Show(s: ManagerState, b: Bulletin): (r: ManagerState)
    ensures r.view == Some(b) && r.controller == Some(b) && r.window == Some(WindowLevel(b.context))
    ensures r.log == s.log + [WillAppear(b.identity)]
    ensures r.exits == s.exits && r.dispatched == s.dispatched
    ensures ArmsTimer(b.duration) ==> r.timer == Some(Timer(b.identity, b.duration.seconds, true))
    ensures !ArmsTimer(b.duration) ==> NoLiveTimer(r)
  {
    var t := if ArmsTimer(b.duration) then Some(Timer(b.identity, TimerInterval(b.duration), true)) else Invalidated(s.timer);
    s.(view := Some(b), controller := Some(b), window := Some(WindowLevel(b.context)),
       timer := t, log := s.log + [WillAppear(b.identity)])
  }

  /** `dismissCurrentBulletin`: nothing without a current bulletin; otherwise drops
      the timer, notifies will-disappear and starts the exit animation. */
  function DismissCurrent(s: ManagerState, velocity: real, completion: Completion): (r: ManagerState)
    ensures r.view == s.view && r.controller == s.controller && r.window == s.window
    ensures r.dispatched == s.dispatched
    ensures s.view.None? ==> r == s
    ensures s.view.Some? ==> r.timer.None? && r.log == s.log + [WillDisappear(s.view.value.identity)]
    ensures s.view.Some? && s.controller.Some? ==> r.exits == s.exits + [ExitAnimation(velocity, completion)]
    ensures s.controller.None? ==> r.exits == s.exits
  {
    if s.view.None? then s
    else
      var s1 := s.(timer := None, log := s.log + [WillDisappear(s.view.value.identity)]);
      if s1.controller.Some? then s1.(exits := s1.exits + [ExitAnimation(velocity, completion)]) else s1
  }

  /** The presentation block, run with the view's properties `b` as they are
      when it runs: over a shown bulletin it dismisses that one and presents the
      view again from the completion; otherwise it shows `b`. */
  function RunPresentation(s: ManagerState, b: Bulletin): (r: ManagerState)
    ensures r.dispatched == s.dispatched
    ensures s.view.Some? ==> r.view == s.view && r.timer.None?
    ensures s.view.None? ==> r.view == Some(b)
  {
    if s.view.Some? then DismissCurrent(s, DefaultExitVelocity, PresentAgain(b.identity)) else Show(s, b)
  }

  /** The main queue runs the `k`-th dispatched block; `b` is the dispatched
      view's properties at that moment. */
  function Deliver(s: ManagerState, k: nat, b: Bulletin): (r: ManagerState)
    requires k < |s.dispatched| && b.identity == s.dispatched[k].view
    ensures r.dispatched == RemoveAt(s.dispatched, k)
    ensures r.view == if s.view.Some? then s.view else Some(b)
  {
    RunPresentation(s.(dispatched := RemoveAt(s.dispatched, k)), b)
  }

  /** `dismiss(_:)`: dismisses only the current bulletin, compared by object. */
  function DismissIfCurrent(s: ManagerState, v: BulletinView): (r: ManagerState)
    ensures r.view == s.view && r.dispatched == s.dispatched
    ensures r != s ==> s.view.Some? && s.view.value.identity == v
  {
    if s.view.Some? && s.view.value.identity == v then DismissCurrent(s, DefaultExitVelocity, NoCompletion) else s
  }

  /** Running a dismissal's completion closure. */
  function RunCompletion(s: ManagerState, c: Completion): (r: ManagerState)
    ensures r.view == s.view && r.controller == s.controller && r.window == s.window
  {
    match c
    case NoCompletion => s
    case PresentAgain(v) => Schedule(s, v, 0.0)
    case RunAction(v, a) =>
      var s1 := DismissCurrent(s, DefaultExitVelocity, NoCompletion);
      s1.(log := s1.log + [ActionRan(v, a)])
  }

  /** The `k`-th exit animation finishes: the bulletin, view controller and window
      are cleared, and then the completion runs. */
  function CompleteExit(s: ManagerState, k: nat): (r: ManagerState)
    requires k < |s.exits|
    ensures r.view.None? && r.controller.None? && r.window.None?
  {
    var cleared := s.(view := None, controller := None, window := None, exits := RemoveAt(s.exits, k));
    RunCompletion(cleared, s.exits[k].completion)
  }

  /** `bulletinTimerDidFire(_:)`: dismisses the current bulletin and notifies the
      timer's bulletin that it was dismissed automatically. */
  function FireTimer(s: ManagerState): (r: ManagerState)
    requires s.timer.Some? && s.timer.value.valid
    ensures NoLiveTimer(r) && r.view == s.view && r.dispatched == s.dispatched
  {
    var v := s.timer.value.view;
    var s1 := DismissCurrent(s.(timer := Some(s.timer.value.(valid := false))), DefaultExitVelocity, NoCompletion);
    s1.(log := s1.log + [WasAutomaticallyDismissed(v)])
  }

  /** `bulletinViewDidTap(_:)`, with `b` the tapped view's properties. */
  function Tap(s: ManagerState, b: Bulletin): (r: ManagerState)
    ensures b.action.None? ==> r == s
    ensures r.view == s.view && r.dispatched == s.dispatched
  {
    if b.action.None? then s else DismissCurrent(s, DefaultExitVelocity, RunAction(b.identity, b.action.value))
  }

  /** `bulletinViewDidBeginPanning(_:)`. */
  function BeginPan(s: ManagerState, b: Bulletin): (r: ManagerState)
    ensures NoLiveTimer(r)
    ensures r.(timer := s.timer) == s
  {
    s.(timer := Invalidated(s.timer))
  }

  /** Whether a pan that ends with this translation and velocity dismisses the
      bulletin: past height / 1.7, or faster than 1200, toward its edge. */
  predicate DismissesInteractively(b: Bulletin, ty: real, vy: real) {
    match b.position
    case Top => ty <= -(b.height / HeightFraction) || vy <= -DismissVelocity
    case Bottom => ty >= b.height / HeightFraction || vy >= DismissVelocity
    case Center => false
  }

  /** `bulletinViewDidEndPanning(_:withTranslation:velocity:)`: dismisses
      interactively, or snaps back and re-arms the timer for the full duration. */
  function EndPan(s: ManagerState, b: Bulletin, translation: Point, velocity: Point): (r: ManagerState)
    ensures r.view == s.view && r.dispatched == s.dispatched
  {
    if DismissesInteractively(b, translation.y, velocity.y) then
      var s1 := DismissCurrent(s, velocity.y, NoCompletion);
      s1.(log := s1.log + [WasInteractivelyDismissed(b.identity)])
    else if ArmsTimer(b.duration) then
      s.(timer := Some(Timer(b.identity, TimerInterval(b.duration), true)))
    else s
  }

  // ---------------------------------------------------------------------------
  // Every step keeps the slot consistent

  lemma InitialConsistent()
    ensures Consistent(Initial) && Initial.view.None? && NoLiveTimer(Initial)
  {
  }

  lemma ScheduleKeepsConsistent(s: ManagerState, v: BulletinView, delay: real)
    requires Consistent(s)
    ensures Consistent(Schedule(s, v, delay))
    ensures Schedule(s, v, delay).view == s.view && Schedule(s, v, delay).timer == s.timer
  {
  }

  lemma DismissCurrentKeepsConsistent(s: ManagerState, velocity: real, c: Completion)
    requires Consistent(s)
    ensures Consistent(DismissCurrent(s, velocity, c))
    ensures DismissCurrent(s, velocity, c).view == s.view
  {
  }

  lemma DeliverKeepsConsistent(s: ManagerState, k: nat, b: Bulletin)
    requires Consistent(s) && k < |s.dispatched| && b.identity == s.dispatched[k].view
    ensures Consistent(Deliver(s, k, b))
  {
  }

  lemma CompleteExitKeepsConsistent(s: ManagerState, k: nat)
    requires Consistent(s) && k < |s.exits|
    ensures Consistent(CompleteExit(s, k))
  {
  }

  lemma FireTimerKeepsConsistent(s: ManagerState)
    requires Consistent(s) && s.timer.Some? && s.timer.value.valid
    ensures Consistent(FireTimer(s))
  {
  }

  lemma GesturesKeepConsistent(s: ManagerState, b: Bulletin, translation: Point, velocity: Point)
    requires Consistent(s)
    ensures Consistent(Tap(s, b)) && Consistent(BeginPan(s, b))
    ensures Consistent(EndPan(s, b, translation, velocity))
  {
  }

  // ---------------------------------------------------------------------------
  // Presenting

  /** Presenting with nothing shown makes the bulletin current with the
      properties it has when the block runs, notifies will-appear, and leaves a
      live timer exactly when its duration is then `.limit(t)` with t > 0,
      running for t. */
  lemma PresentIntoEmptySlot(s: ManagerState, k: nat, b: Bulletin)
    requires k < |s.dispatched| && b.identity == s.dispatched[k].view && s.view.None?
    ensures var r := Deliver(s, k, b);
      && r.view == Some(b) && r.controller == Some(b) && r.window == Some(WindowLevel(b.context))
      && r.log == s.log + [WillAppear(b.identity)]
      && (!NoLiveTimer(r) <==> b.duration.Limit? && b.duration.seconds > 0.0)
      && (!NoLiveTimer(r) ==> r.timer == Some(Timer(b.identity, b.duration.seconds, true)))
      && r.exits == s.exits
  {
    ArmsTimerExactly(b.duration);
  }

  /** Presenting over a shown bulletin does not show the new one: it keeps the
      current one, drops the timer and starts its exit, whose completion
      presents the new view again. */
  lemma PresentOverShownDefers(s: ManagerState, k: nat, b: Bulletin)
    requires Consistent(s) && k < |s.dispatched| && b.identity == s.dispatched[k].view && s.view.Some?
    ensures var r := Deliver(s, k, b);
      && r.view == s.view && r.timer == None
      && r.exits == s.exits + [ExitAnimation(DefaultExitVelocity, PresentAgain(b.identity))]
      && r.log == s.log + [WillDisappear(s.view.value.identity)]
  {
  }

  /** The whole sequence: presenting view `v` over a shown bulletin, that
      bulletin's exit finishing, and the re-dispatched block running, leaves `v`
      current with the properties it has when the last block runs. */
  lemma {:induction false} PresentReplacesAfterExit(s: ManagerState, v: BulletinView, delay: real, first: Bulletin, last: Bulletin)
    requires Consistent(s) && s.view.Some? && s.exits == [] && s.dispatched == []
    requires first.identity == v && last.identity == v
    ensures var s1 := Deliver(Schedule(s, v, delay), 0, first);
      && s1.view == s.view && |s1.exits| == 1
      && var s2 := CompleteExit(s1, 0);
      && s2.view.None? && s2.exits == [] && s2.dispatched == [Dispatched(v, 0.0)]
      && var s3 := Deliver(s2, 0, last);
      && s3.view == Some(last) && s3.exits == [] && s3.dispatched == []
  {
    var s0 := Schedule(s, v, delay);
    assert s0.dispatched == [Dispatched(v, delay)];
    PresentOverShownDefers(s0, 0, first);
    var s1 := Deliver(s0, 0, first);
    assert s1.exits == [ExitAnimation(DefaultExitVelocity, PresentAgain(v))];
    assert s1.dispatched == [];
    var s2 := CompleteExit(s1, 0);
    assert s2.view.None? && s2.dispatched == [Dispatched(v, 0.0)];
    PresentIntoEmptySlot(s2, 0, last);
  }

  // ---------------------------------------------------------------------------
  // Dismissing

  /** `dismissCurrentBulletin` does nothing when no bulletin is shown; otherwise
      it drops the timer and starts exactly one exit animation. */
  lemma DismissCurrentEffect(s: ManagerState, velocity: real, c: Completion)
    requires Consistent(s)
    ensures s.view.None? ==> DismissCurrent(s, velocity, c) == s
    ensures s.view.Some? ==> var r := DismissCurrent(s, velocity, c);
      && r.timer.None? && r.view == s.view
      && r.exits == s.exits + [ExitAnimation(velocity, c)]
      && r.log == s.log + [WillDisappear(s.view.value.identity)]
  {
  }

  /** `dismiss(v)` does nothing unless `v` is the current bulletin's view. */
  lemma DismissOnlyCurrent(s: ManagerState, v: BulletinView)
    ensures s.view.None? || s.view.value.identity != v ==> DismissIfCurrent(s, v) == s
    ensures s.view.Some? && s.view.value.identity == v ==> DismissIfCurrent(s, v) != s
  {
    if s.view.Some? && s.view.value.identity == v {
      assert |DismissIfCurrent(s, v).log| == |s.log| + 1;
    }
  }

  /** The `k`-th exit finishing empties the slot, and only then runs that exit's
      completion: none changes nothing more; a re-presentation is dispatched, not
      shown; a tap's completion finds the slot empty, so its second dismissal
      starts nothing, and the action runs. */
  lemma CompleteExitRunsCompletion(s: ManagerState, k: nat)
    requires k < |s.exits|
    ensures var r := CompleteExit(s, k); var c := s.exits[k].completion;
      && r.view.None? && r.controller.None? && r.window.None?
      && r.exits == RemoveAt(s.exits, k) && r.timer == s.timer
      && (c.NoCompletion? ==> r.log == s.log && r.dispatched == s.dispatched)
      && (c.PresentAgain? ==> r.log == s.log && r.dispatched == s.dispatched + [Dispatched(c.next, 0.0)])
      && (c.RunAction? ==> r.log == s.log + [ActionRan(c.tapped, c.action)] && r.dispatched == s.dispatched)
  {
  }

  /** A second `dismiss(v)` after the first one's exit has finished has no effect. */
  lemma {:induction false} DismissTwice(s: ManagerState, v: BulletinView)
    requires Consistent(s) && s.view.Some? && s.view.value.identity == v
    ensures var s1 := DismissIfCurrent(s, v);
      && |s1.exits| == |s.exits| + 1
      && var s2 := CompleteExit(s1, |s1.exits| - 1);
      && s2.view.None?
      && DismissIfCurrent(s2, v) == s2
  {
    var s1 := DismissIfCurrent(s, v);
    DismissCurrentEffect(s, DefaultExitVelocity, NoCompletion);
    assert s1.exits[|s1.exits| - 1].completion == NoCompletion;
  }

  /** The timer firing dismisses the current bulletin (whichever it is) and
      reports the timer's bulletin as dismissed automatically. */
  lemma FireTimerEffect(s: ManagerState)
    requires Consistent(s) && s.timer.Some? && s.timer.value.valid
    ensures var r := FireTimer(s);
      && NoLiveTimer(r) && r.view == s.view
      && r.log[|r.log| - 1] == WasAutomaticallyDismissed(s.timer.value.view)
      && (s.view.Some? ==> r.exits == s.exits + [ExitAnimation(DefaultExitVelocity, NoCompletion)])
      && (s.view.None? ==> r.exits == s.exits)
  {
  }

  // ---------------------------------------------------------------------------
  // Gestures

  /** A tap with an action dismisses the current bulletin; the action runs when
      that exit finishes, and the nested second dismissal is a no-op because the
      slot is already empty. */
  lemma {:induction false} TapRunsActionAfterExit(s: ManagerState, b: Bulletin)
    requires Consistent(s) && s.view.Some? && b.action.Some?
    ensures var s1 := Tap(s, b);
      && s1.exits == s.exits + [ExitAnimation(DefaultExitVelocity, RunAction(b.identity, b.action.value))]
      && s1.log == s.log + [WillDisappear(s.view.value.identity)]
      && var s2 := CompleteExit(s1, |s.exits|);
      && s2.view.None? && s2.exits == s.exits && s2.timer == s1.timer
      && s2.log == s1.log + [ActionRan(b.identity, b.action.value)]
  {
    DismissCurrentEffect(s, DefaultExitVelocity, RunAction(b.identity, b.action.value));
    var s1 := Tap(s, b);
    CompleteExitRunsCompletion(s1, |s.exits|);
    assert RemoveAt(s1.exits, |s.exits|) == s.exits;
  }

  /** A center bulletin is never dismissed by a pan, and the rule for a bottom
      bulletin mirrors the rule for a top one. */
  lemma DismissThresholdsMirror(b: Bulletin, ty: real, vy: real)
    ensures b.position == Center ==> !DismissesInteractively(b, ty, vy)
    ensures DismissesInteractively(b.(position := Top), ty, vy)
        <==> DismissesInteractively(b.(position := Bottom), -ty, -vy)
  {
  }

  /** Dragging farther, or releasing faster, toward the edge never turns a
      dismissal into a snap-back. */
  lemma DismissThresholdsMonotone(b: Bulletin, ty: real, vy: real, ty': real, vy': real)
    requires DismissesInteractively(b, ty, vy)
    requires b.position == Top ==> ty' <= ty && vy' <= vy
    requires b.position == Bottom ==> ty' >= ty && vy' >= vy
    ensures DismissesInteractively(b, ty', vy')
  {
  }

  /** A pan ending past the threshold dismisses the current bulletin with the
      release velocity and reports it as interactively dismissed; otherwise the
      slot is untouched and the timer is re-armed for the FULL duration. */
  lemma EndPanEffect(s: ManagerState, b: Bulletin, translation: Point, velocity: Point)
    requires Consistent(s)
    ensures var r := EndPan(s, b, translation, velocity);
      DismissesInteractively(b, translation.y, velocity.y) ==>
        && r.log[|r.log| - 1] == WasInteractivelyDismissed(b.identity)
        && r.view == s.view
        && (s.view.Some? ==> r.timer.None? && r.exits == s.exits + [ExitAnimation(velocity.y, NoCompletion)])
    ensures var r := EndPan(s, b, translation, velocity);
      !DismissesInteractively(b, translation.y, velocity.y) ==>
        && r.view == s.view && r.exits == s.exits && r.log == s.log
        && (b.duration.Limit? && b.duration.seconds > 0.0 ==> r.timer == Some(Timer(b.identity, b.duration.seconds, true)))
        && (!(b.duration.Limit? && b.duration.seconds > 0.0) ==> r.timer == s.timer)
  {
    ArmsTimerExactly(b.duration);
  }

  /** A drag of a bulletin limited to t seconds that snaps back stops the timer
      when it begins and arms a new one for the whole t seconds when it ends. */
  lemma {:induction false} SnapBackRestartsTimer(s: ManagerState, b: Bulletin, t: real, translation: Point, velocity: Point)
    requires Consistent(s) && s.view == Some(b) && b.duration == Limit(t) && t > 0.0
    requires !DismissesInteractively(b, translation.y, velocity.y)
    ensures NoLiveTimer(BeginPan(s, b))
    ensures EndPan(BeginPan(s, b), b, translation, velocity).timer == Some(Timer(b.identity, t, true))
    ensures EndPan(BeginPan(s, b), b, translation, velocity).view == Some(b)
  {
    EndPanEffect(BeginPan(s, b), b, translation, velocity);
  }

  // ---------------------------------------------------------------------------
  // The manager object

  class BulletinManager {
    var bulletinView: Option<Bulletin>
    var bulletinViewController: Option<Bulletin>
    var bulletinWindow: Option<real>
    var timer: Option<Timer>
    /** Exit animations in flight, with their completions. */
    var exits: seq<ExitAnimation>
    /** Presentation blocks dispatched to the main queue. */
    var dispatched: seq<Dispatched>
    /** Delegate callbacks and tap actions so far. */
    var log: seq<Notice>

    /** The fields, and the pending events, as one value. */
    function State(): ManagerState
      reads this
    {
      ManagerState(bulletinView, bulletinViewController, bulletinWindow, timer, exits, dispatched, log)
    }

    ghost predicate Valid()
      reads this
    {
      Consistent(State())
    }

    constructor ()
      ensures Valid() && State() == Initial
    {
      bulletinView, bulletinViewController, bulletinWindow, timer := None, None, None, None;
      exits, dispatched, log := [], [], [];
    }

    /** `present(_:after:)`. */
    method Present(v: BulletinView, delay: real)
      modifies this
      ensures State() == Schedule(old(State()), v, delay)
      ensures old(Valid()) ==> Valid()
    {
      dispatched := dispatched + [Dispatched(v, delay)];
    }

    /** The main queue runs the `k`-th dispatched presentation block; `bulletin`
        is the dispatched view's properties as they are now. */
    method RunDispatched(k: nat, bulletin: Bulletin)
      requires Valid() && k < |dispatched| && bulletin.identity == dispatched[k].view
      modifies this
      ensures Valid()
      ensures State() == Deliver(old(State()), k, bulletin)
    {
      DeliverKeepsConsistent(State(), k, bulletin);
      dispatched := RemoveAt(dispatched, k);
      if bulletinView.Some? {
        DismissCurrentBulletin(DefaultExitVelocity, PresentAgain(bulletin.identity));
      } else {
        timer := Invalidated(timer);
        bulletinView := Some(bulletin);
        AnimateBulletinIn(bulletin);
        log := log + [WillAppear(bulletin.identity)];
        var duration := 0.0;
        if bulletin.duration.Limit? {
          duration := bulletin.duration.seconds;
        }
        if duration > 0.0 {
          timer := Some(Timer(bulletin.identity, duration, true));
        }
      }
    }

    /** `dismissCurrentBulletin(withDuration:damping:velocity:completion:)`. */
    method DismissCurrentBulletin(velocity: real, completion: Completion)
      requires Valid()
      modifies this
      ensures Valid()
      ensures State() == DismissCurrent(old(State()), velocity, completion)
    {
      DismissCurrentKeepsConsistent(State(), velocity, completion);
      if bulletinView.None? {
        return;
      }
      var cbv := bulletinView.value;
      timer := None;
      log := log + [WillDisappear(cbv.identity)];
      AnimateCurrentBulletinOut(velocity, completion);
    }

    /** `dismiss(_:)`. */
    method Dismiss(v: BulletinView)
      requires Valid()
      modifies this
      ensures Valid()
      ensures State() == DismissIfCurrent(old(State()), v)
    {
      if bulletinView.Some? && bulletinView.value.identity == v {
        DismissCurrentBulletin(DefaultExitVelocity, NoCompletion);
      }
    }

    /** `animateBulletinIn(_:)`: creates the window and the view controller. */
    method AnimateBulletinIn(b: Bulletin)
      modifies this`bulletinWindow, this`bulletinViewController
      ensures bulletinWindow == Some(WindowLevel(b.context)) && bulletinViewController == Some(b)
    {
      bulletinWindow := Some(WindowLevel(b.context));
      bulletinViewController := Some(b);
    }

    /** `animateCurrentBulletinOut`: starts the exit animation, if there is a
        view controller to run it. */
    method AnimateCurrentBulletinOut(velocity: real, completion: Completion)
      modifies this`exits
      ensures exits == if bulletinViewController.Some? then old(exits) + [ExitAnimation(velocity, completion)] else old(exits)
    {
      if bulletinViewController.Some? {
        exits := exits + [ExitAnimation(velocity, completion)];
      }
    }

    /** The completion of the `k`-th exit animation. */
    method ExitAnimationDidComplete(k: nat)
      requires Valid() && k < |exits|
      modifies this
      ensures Valid()
      ensures State() == CompleteExit(old(State()), k)
    {
      CompleteExitKeepsConsistent(State(), k);
      var completion := exits[k].completion;
      exits := RemoveAt(exits, k);
      bulletinView := None;
      bulletinViewController := None;
      bulletinWindow := None;
      match completion {
        case NoCompletion =>
        case PresentAgain(v) =>
          Present(v, 0.0);
        case RunAction(v, a) =>
          DismissCurrentBulletin(DefaultExitVelocity, NoCompletion);
          log := log + [ActionRan(v, a)];
      }
    }

    /** `bulletinTimerDidFire(_:)`. */
    method BulletinTimerDidFire()
      requires Valid() && timer.Some? && timer.value.valid
      modifies this
      ensures Valid()
      ensures State() == FireTimer(old(State()))
    {
      FireTimerKeepsConsistent(State());
      var bulletin := timer.value.view;
      timer := Some(timer.value.(valid := false));
      DismissCurrentBulletin(DefaultExitVelocity, NoCompletion);
      log := log + [WasAutomaticallyDismissed(bulletin)];
    }

    /** `bulletinViewDidTap(_:)`. */
    method BulletinViewDidTap(b: Bulletin)
      requires Valid()
      modifies this
      ensures Valid()
      ensures State() == Tap(old(State()), b)
    {
      if b.action.None? {
        return;
      }
      var action := b.action.value;
      DismissCurrentBulletin(DefaultExitVelocity, RunAction(b.identity, action));
    }

    /** `bulletinViewDidBeginPanning(_:)`. */
    method BulletinViewDidBeginPanning(b: Bulletin)
      requires Valid()
      modifies this`timer
      ensures Valid()
      ensures State() == BeginPan(old(State()), b)
    {
      timer := Invalidated(timer);
    }

    /** `bulletinViewDidEndPanning(_:withTranslation:velocity:)`. */
    method BulletinViewDidEndPanning(b: Bulletin, translation: Point, velocity: Point)
      requires Valid()
      modifies this
      ensures Valid()
      ensures State() == EndPan(old(State()), b, translation, velocity)
    {
      GesturesKeepConsistent(State(), b, translation, velocity);
      var threshold := if b.position == Top then -(b.height / HeightFraction) else b.height / HeightFraction;
      if b.position == Top && (translation.y <= threshold || velocity.y <= -DismissVelocity) {
        DismissCurrentBulletin(velocity.y, NoCompletion);
        log := log + [WasInteractivelyDismissed(b.identity)];
      } else if b.position == Bottom && (translation.y >= threshold || velocity.y >= DismissVelocity) {
        DismissCurrentBulletin(velocity.y, NoCompletion);
        log := log + [WasInteractivelyDismissed(b.identity)];
      } else {
        var duration := 0.0;
        if b.duration.Limit? {
          duration := b.duration.seconds;
        }
        if duration > 0.0 {
          timer := Some(Timer(b.identity, duration, true));
        }
      }
    }
  }
}
