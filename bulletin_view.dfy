/**
  The bulletin view (`BulletinView`): its configuration enums and defaults, the
  style settings the manager and the gestures read, and the view's own gesture
  handling. `didPan` and `didPress` change the view's `transform`; the values
  they compute are the pure functions `YTransform`, `TouchScale`,
  `PanTransform` and `PressTransform`.
*/
module View {
  import opened Wrappers

  /** How long a bulletin stays on screen. */
  datatype Duration = Forever | Limit(seconds: real)

  /** Where a bulletin rests on screen. */
  datatype Position = Top | Center | Bottom

  datatype PresentationContext = DefaultContext | OverStatusBar

  /** The bulletin's on-screen level (`default`, `statusBar`, `alert`). */
  datatype Level = DefaultLevel | StatusBar | Alert

  datatype BlurStyle = Light | ExtraLight | Dark

  datatype BackgroundEffect = NoEffect | Darken(alpha: real) | Blur(style: BlurStyle)

  /** The members of the `UIRectCorner` option set. */
  datatype Corner = TopLeft | TopRight | BottomLeft | BottomRight

  const AllCorners: set<Corner> := {TopLeft, TopRight, BottomLeft, BottomRight}

  /** The style settings of a bulletin (`StyleSettings`), shadows left out. */
  datatype Style = Style(
    backgroundEffect: BackgroundEffect,
    horizontalEdgeOffset: real,
    verticalEdgeOffset: real,
    roundedCorners: set<Corner>,
    roundedCornerRadius: real,
    isStretchingEnabled: bool,
    isAnimatedTouchEnabled: bool,
    isBackgroundDismissEnabled: bool)

  const DefaultStyle: Style := Style(NoEffect, 8.0, 24.0, AllCorners, 4.0, true, true, true)

  datatype Point = Point(x: real, y: real)

  /** A `CGAffineTransform`: the matrix [a b; c d] and the translation (tx, ty). */
  datatype Transform = Transform(a: real, b: real, c: real, d: real, tx: real, ty: real)

  const Identity: Transform := Transform(1.0, 0.0, 0.0, 1.0, 0.0, 0.0)

  /** `CGAffineTransform.identity.translatedBy(x:y:)`. */
  function Translation(x: real, y: real): (t: Transform)
    ensures t == Identity.(tx := x, ty := y)
  {
    Transform(1.0, 0.0, 0.0, 1.0, x, y)
  }

  /** `t.scaledBy(x:y:)`: scales the matrix part and keeps the translation. */
  function ScaledBy(t: Transform, sx: real, sy: real): (r: Transform)
    ensures r.tx == t.tx && r.ty == t.ty
    ensures sx == 1.0 && sy == 1.0 ==> r == t
  {
    Transform(t.a * sx, t.b * sx, t.c * sy, t.d * sy, t.tx, t.ty)
  }

  datatype GestureState = Possible | Began | Changed | Ended | Cancelled | Failed

  /** The delegate call a pan gesture makes, if any. */
  datatype PanCall = NoCall | BeginPanning | EndPanning(translation: Point, velocity: Point)

  /** What the manager reads from a bulletin view at one moment: the view
      object itself, which is its identity, and the properties
      `BulletinManager` consults. */
  datatype Bulletin = Bulletin(
    identity: BulletinView,
    position: Position,
    duration: Duration,
    context: PresentationContext,
    action: Option<nat>,
    height: real)

  function Abs(x: real): real {
    if x < 0.0 then -x else x
  }

  /** The scale a touched bulletin shrinks to. */
  function TouchScale(animatedTouch: bool): (s: real)
    ensures s < 1.0 <==> animatedTouch
    ensures 0.9 < s <= 1.0
  {
    if animatedTouch then 0.98 else 1.0
  }

  /** The y-translation a pan applies for the raw translation `ty`. */
  function YTransform(ty: real, position: Position, stretching: bool): (y: real)
    ensures Abs(y) <= Abs(ty)
    ensures y == 0.0 || (y > 0.0) == (ty > 0.0)
  {
    if position == Top then
      (if ty <= 0.0 then ty else if stretching then ty - (ty * 0.8) else 0.0)
    else
      (if ty >= 0.0 then ty else if stretching then ty - (ty * 0.8) else 0.0)
  }

  /** A drag toward the edge the bulletin is dismissed through is followed
      exactly; a drag away from it stretches to a fifth, or not at all. */
  lemma YTransformRule(ty: real, position: Position, stretching: bool)
    requires position != Center
    ensures ((position == Top && ty <= 0.0) || (position == Bottom && ty >= 0.0))
              ==> YTransform(ty, position, stretching) == ty
    ensures ((position == Top && ty > 0.0) || (position == Bottom && ty < 0.0))
              ==> YTransform(ty, position, stretching) == (if stretching then ty / 5.0 else 0.0)
  {
  }

  /** The transform a pan in the `changed` state applies. */
  function PanTransform(ty: real, position: Position, style: Style): (t: Transform)
    ensures t.tx == 0.0 && t.b == 0.0 && t.c == 0.0
    ensures t.a == t.d == TouchScale(style.isAnimatedTouchEnabled)
    ensures t.ty == YTransform(ty, position, style.isStretchingEnabled)
  {
    var s := TouchScale(style.isAnimatedTouchEnabled);
    ScaledBy(Translation(0.0, YTransform(ty, position, style.isStretchingEnabled)), s, s)
  }

  /** The transform a long press leaves behind (the end value of its animation). */
  function PressTransform(t: Transform, position: Position, animatedTouch: bool, state: GestureState): (r: Transform)
    ensures r.tx == t.tx && r.ty == t.ty
    ensures position == Center || !animatedTouch || state !in {Began, Ended} ==> r == t
  {
    if position == Center then t
    else
      var scale := TouchScale(animatedTouch);
      if scale < 1.0 then
        if state == Began then ScaledBy(t, scale, scale)
        else if state == Ended then Translation(t.tx, t.ty)
        else t
      else t
  }

  /** Pressing and releasing a bulletin that is only translated restores its
      transform. */
  lemma PressReleaseRestores(x: real, y: real, position: Position, animatedTouch: bool)
    ensures PressTransform(PressTransform(Translation(x, y), position, animatedTouch, Began),
                           position, animatedTouch, Ended) == Translation(x, y)
  {
  }

  class BulletinView {
    var position: Position
    var duration: Duration
    var context: PresentationContext
    var level: Level
    var style: Style
    /** The tap action, by an opaque token of the closure. */
    var action: Option<nat>
    /** The tap recognizer the view holds a reference to. */
    var tapRecognizer: Option<nat>
    /** The tap recognizers attached to the content view. */
    var tapRecognizers: seq<nat>
    /** How many tap recognizers the view has created (a source of fresh names). */
    var recognizersCreated: nat
    var transform: Transform
    /** `bounds.height`. */
    var height: real

    /** Every attached tap recognizer was created before the next one. */
    ghost predicate RecognizersFresh()
      reads this
    {
      forall x :: x in tapRecognizers ==> x < recognizersCreated
    }

    /** `init()`: a 10-by-10 view at the top, shown for five seconds. */
    constructor ()
      ensures RecognizersFresh()
      ensures position == Top && duration == Limit(5.0)
      ensures context == DefaultContext && level == DefaultLevel && style == DefaultStyle
      ensures action == None && tapRecognizer == None && tapRecognizers == [] && recognizersCreated == 0
      ensures transform == Identity && height == 10.0
    {
      position := Top;
      duration := Limit(5.0);
      context := DefaultContext;
      level := DefaultLevel;
      style := DefaultStyle;
      action := None;
      tapRecognizer := None;
      tapRecognizers := [];
      recognizersCreated := 0;
      transform := Identity;
      height := 10.0;
    }

    /** The properties the manager consults, as they are now. */
    function Snapshot(): (b: Bulletin)
      reads this
      ensures b.identity == this && b.position == position && b.duration == duration
      ensures b.context == context && b.height == height
      ensures b.action == action
    {
      Bulletin(this, position, duration, context, action, height)
    }

    /** The `action` property's observer: clearing the action removes the
        referenced tap recognizer; setting one attaches a new recognizer. */
    method SetAction(a: Option<nat>)
      modifies this`action, this`tapRecognizer, this`tapRecognizers, this`recognizersCreated
      ensures action == a
      ensures a.None? ==> tapRecognizer == None && recognizersCreated == old(recognizersCreated)
      ensures a.None? && old(tapRecognizer).Some? ==> tapRecognizers == Without(old(tapRecognizers), old(tapRecognizer).value)
      ensures a.None? && old(tapRecognizer).None? ==> tapRecognizers == old(tapRecognizers)
      ensures a.Some? ==> tapRecognizer == Some(old(recognizersCreated))
      ensures a.Some? ==> tapRecognizers == old(tapRecognizers) + [old(recognizersCreated)]
      ensures a.Some? ==> recognizersCreated == old(recognizersCreated) + 1
      ensures old(RecognizersFresh()) ==> RecognizersFresh()
    {
      action := a;
      if a.None? {
        if tapRecognizer.Some? {
          tapRecognizers := Without(tapRecognizers, tapRecognizer.value);
          tapRecognizer := None;
        }
        return;
      }
      tapRecognizer := Some(recognizersCreated);
      tapRecognizers := tapRecognizers + [recognizersCreated];
      recognizersCreated := recognizersCreated + 1;
    }

    /** `didPress(_:)`: center bulletins ignore presses; otherwise, with animated
        touch, a press shrinks the view and a release restores the scale. */
    method DidPress(state: GestureState)
      modifies this`transform
      ensures transform == PressTransform(old(transform), position, style.isAnimatedTouchEnabled, state)
      ensures position == Center ==> transform == old(transform)
    {
      if position == Center {
        return;
      }
      var scale := TouchScale(style.isAnimatedTouchEnabled);
      if scale < 1.0 {
        if state == Began {
          transform := ScaledBy(transform, scale, scale);
        } else if state == Ended {
          transform := Translation(transform.tx, transform.ty);
        }
      }
    }

    /** `didPan(_:)`: with no superview or at the center nothing happens;
        otherwise `began` and `ended` notify the delegate and `changed` applies the
        elastic transform. */
    method DidPan(hasSuperview: bool, state: GestureState, translation: Point, velocity: Point)
      returns (call: PanCall)
      modifies this`transform
      ensures !hasSuperview || position == Center ==> call == NoCall && transform == old(transform)
      ensures hasSuperview && position != Center ==>
                call == (if state == Began then BeginPanning
                         else if state == Ended then EndPanning(translation, velocity)
                         else NoCall)
      ensures hasSuperview && position != Center && state == Changed ==>
                transform == PanTransform(translation.y, position, style)
      ensures state != Changed ==> transform == old(transform)
    {
      if !hasSuperview || position == Center {
        return NoCall;
      }
      var ty := translation.y;
      var touchScale := TouchScale(style.isAnimatedTouchEnabled);
      call := NoCall;
      match state {
        case Began =>
          call := BeginPanning;
        case Changed =>
          var yTransform: real;
          if position == Top {
            yTransform := if ty <= 0.0 then ty else (if style.isStretchingEnabled then ty - (ty * 0.8) else 0.0);
          } else {
            yTransform := if ty >= 0.0 then ty else (if style.isStretchingEnabled then ty - (ty * 0.8) else 0.0);
          }
          transform := ScaledBy(Translation(0.0, yTransform), touchScale, touchScale);
        case Ended =>
          call := EndPanning(translation, velocity);
        case _ =>
      }
    }
  }

  /** The sequence with every occurrence of `r` removed (`removeGestureRecognizer`). */
  function Without(s: seq<nat>, r: nat): (t: seq<nat>)
    ensures r !in t
    ensures forall x :: x in t <==> x in s && x != r
  {
    if s == [] then []
    else if s[0] == r then Without(s[1..], r)
    else [s[0]] + Without(s[1..], r)
  }

  /** Setting one action and then another leaves the first recognizer attached,
      and clearing the action afterwards removes only the second one. */
  lemma {:induction false} ReplacedActionLeavesRecognizer(attached: seq<nat>, created: nat)
    requires forall x :: x in attached ==> x < created
    ensures Without(attached + [created] + [created + 1], created + 1) == attached + [created]
  {
    var s := attached + [created] + [created + 1];
    forall i | 0 <= i < |s| - 1 ensures s[i] != created + 1 {
      if i < |attached| {
        assert s[i] in attached;
      }
    }
    WithoutAbsent(s, created + 1);
    assert s[..|s| - 1] == attached + [created];
  }

  lemma {:induction false} WithoutAbsent(s: seq<nat>, r: nat)
    requires |s| > 0 && s[|s| - 1] == r
    requires forall i :: 0 <= i < |s| - 1 ==> s[i] != r
    ensures Without(s, r) == s[..|s| - 1]
  {
    if |s| > 1 {
      WithoutAbsent(s[1..], r);
      assert s[1..][..|s| - 2] == s[1..|s| - 1];
      assert s[..|s| - 1] == [s[0]] + s[1..|s| - 1];
    }
  }
}

/** The view's public entry points, which hand the view to the manager. */
module ViewEntryPoints {
  import opened View
  import Manager

  /** `present(after:)`: dispatches a block that holds on to the view itself. */
  method PresentAfter(v: BulletinView, m: Manager.BulletinManager, delay: real)
    modifies m
    ensures m.State() == Manager.Schedule(old(m.State()), v, delay)
  {
    m.Present(v, delay);
  }

  /** The dispatched block of `v` runs: it reads the view's properties as they
      are at that moment, not as they were when `present` was called. */
  method RunPresentationBlock(v: BulletinView, m: Manager.BulletinManager, k: nat)
    requires m.Valid() && k < |m.dispatched| && m.dispatched[k].view == v
    modifies m
    ensures m.Valid()
    ensures m.State() == Manager.Deliver(old(m.State()), k, v.Snapshot())
  {
    m.RunDispatched(k, v.Snapshot());
  }

  /** `dismiss()`. */
  method Dismiss(v: BulletinView, m: Manager.BulletinManager)
    requires m.Valid()
    modifies m
    ensures m.Valid()
    ensures m.State() == Manager.DismissIfCurrent(old(m.State()), v)
  {
    m.Dismiss(v);
  }
}
