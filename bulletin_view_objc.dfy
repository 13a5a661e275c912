/**
  The Objective-C bridge of the bulletin view (`BulletinView+ObjC`): setters
  that take integer codes and plain numbers instead of Swift enums. Each
  mapping is a total function; each setter assigns one property of the view
  from it and changes nothing else.
*/
module ObjC {
  import opened Wrappers
  import opened View
  import Manager
  import ViewEntryPoints

  /** `set(position:)`: 0 is top, 1 center, 2 bottom; any other code is top. */
  function PositionForCode(code: int): (p: Position)
    ensures p == Center <==> code == 1
    ensures p == Bottom <==> code == 2
    ensures p == Top <==> code != 1 && code != 2
  {
    match code
    case 0 => Top
    case 1 => Center
    case 2 => Bottom
    case _ => Top
  }

  /** The documented code of each position. */
  function PositionCode(p: Position): int {
    match p
    case Top => 0
    case Center => 1
    case Bottom => 2
  }

  lemma PositionCodeRoundTrip(p: Position)
    ensures PositionForCode(PositionCode(p)) == p
    ensures 0 <= PositionCode(p) <= 2
  {
  }

  /** `set(duration:)`: a non-positive duration is `.forever`, a positive one a limit. */
  function DurationForSeconds(d: real): (r: Duration)
    ensures r.Forever? <==> d <= 0.0
    ensures r.Limit? ==> r.seconds == d
  {
    if d <= 0.0 then Forever else Limit(d)
  }

  /** A bulletin whose duration was set from the bridge gets an auto-dismiss
      timer exactly when the number was positive, and it runs for that number. */
  lemma BridgedDurationArmsTimer(d: real)
    ensures Manager.ArmsTimer(DurationForSeconds(d)) <==> d > 0.0
    ensures d > 0.0 ==> Manager.TimerInterval(DurationForSeconds(d)) == d
  {
    Manager.ArmsTimerExactly(DurationForSeconds(d));
  }

  /** `set(level:)`: 0 is default, 1000 the status bar, 2000 alert; any other code is default. */
  function LevelForCode(code: int): (l: Level)
    ensures l == StatusBar <==> code == 1000
    ensures l == Alert <==> code == 2000
    ensures l == DefaultLevel <==> code != 1000 && code != 2000
  {
    match code
    case 0 => DefaultLevel
    case 1000 => StatusBar
    case 2000 => Alert
    case _ => DefaultLevel
  }

  /** The documented code of each level. */
  function LevelCode(l: Level): int {
    match l
    case DefaultLevel => 0
    case StatusBar => 1000
    case Alert => 2000
  }

  lemma LevelCodeRoundTrip(l: Level)
    ensures LevelForCode(LevelCode(l)) == l
  {
  }

  /** `set(backgroundEffect:)`: 1 to 3 darken with alpha 0.25, 0.5 and 0.75;
      4 to 6 blur light, extra light and dark; 0 and every other code is none. */
  function EffectForCode(code: int): (e: BackgroundEffect)
    ensures e.Darken? <==> 1 <= code <= 3
    ensures e.Darken? ==> e.alpha == code as real / 4.0
    ensures e.Blur? <==> 4 <= code <= 6
    ensures e == NoEffect <==> code < 1 || code > 6
  {
    match code
    case 0 => NoEffect
    case 1 => Darken(0.25)
    case 2 => Darken(0.5)
    case 3 => Darken(0.75)
    case 4 => Blur(Light)
    case 5 => Blur(ExtraLight)
    case 6 => Blur(Dark)
    case _ => NoEffect
  }

  /** The documented code of an effect; darkening with any other alpha has none. */
  function EffectCode(e: BackgroundEffect): Option<int> {
    match e
    case NoEffect => Some(0)
    case Darken(alpha) =>
      if alpha == 0.25 then Some(1)
      else if alpha == 0.5 then Some(2)
      else if alpha == 0.75 then Some(3)
      else None
    case Blur(style) =>
      match style
      case Light => Some(4)
      case ExtraLight => Some(5)
      case Dark => Some(6)
  }

  /** The seven documented codes and the effects that have a code correspond
      one to one. */
  lemma EffectCodeRoundTrip(code: int, e: BackgroundEffect)
    ensures 0 <= code <= 6 ==> EffectCode(EffectForCode(code)) == Some(code)
    ensures EffectCode(e).Some? ==> EffectForCode(EffectCode(e).value) == e
  {
  }

  /** `set(cornerRadius:)`: all corners rounded with the given radius; the rest
      of the style is kept. */
  function WithCornerRadius(s: Style, radius: real): (t: Style)
    ensures t.roundedCorners == AllCorners && t.roundedCornerRadius == radius
    ensures t.backgroundEffect == s.backgroundEffect
    ensures t.horizontalEdgeOffset == s.horizontalEdgeOffset && t.verticalEdgeOffset == s.verticalEdgeOffset
    ensures t.isStretchingEnabled == s.isStretchingEnabled
    ensures t.isAnimatedTouchEnabled == s.isAnimatedTouchEnabled
    ensures t.isBackgroundDismissEnabled == s.isBackgroundDismissEnabled
  {
    s.(roundedCorners := AllCorners, roundedCornerRadius := radius)
  }

  method SetPosition(v: BulletinView, code: int)
    modifies v`position
    ensures v.position == PositionForCode(code)
  {
    v.position := PositionForCode(code);
  }

  method SetDuration(v: BulletinView, d: real)
    modifies v`duration
    ensures v.duration == DurationForSeconds(d)
  {
    if d <= 0.0 {
      v.duration := Forever;
      return;
    }
    v.duration := Limit(d);
  }

  method SetLevel(v: BulletinView, code: int)
    modifies v`level
    ensures v.level == LevelForCode(code)
  {
    v.level := LevelForCode(code);
  }

  method SetBackgroundEffect(v: BulletinView, code: int)
    modifies v`style
    ensures v.style == old(v.style).(backgroundEffect := EffectForCode(code))
  {
    v.style := v.style.(backgroundEffect := EffectForCode(code));
  }

  method SetCornerRadius(v: BulletinView, radius: real)
    modifies v`style
    ensures v.style == WithCornerRadius(old(v.style), radius)
  {
    v.style := v.style.(roundedCorners := AllCorners);
    v.style := v.style.(roundedCornerRadius := radius);
  }

  /** `present()`: the same as `present(after: 0)`. */
  method Present(v: BulletinView, m: Manager.BulletinManager)
    modifies m
    ensures m.State() == Manager.Schedule(old(m.State()), v, 0.0)
  {
    ViewEntryPoints.PresentAfter(v, m, 0.0);
  }
}
