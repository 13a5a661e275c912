# Bulletin presentation bookkeeping, modelled in Dafny

Bulletin is a UIKit library that shows transient overlay views ("bulletins":
banners, toasts, alerts, sheets) above an app. This project models the
bookkeeping under its UIKit layer and proves properties of it:

- `Queue` (`bulletin_queue.dfy`): the priority admission queue `BulletinQueue`.
  Its last element is the showing ("top") bulletin. `add` inserts a bulletin by
  priority (Low < High < Required) and may evict the top. `pop` removes the top.
  The class keeps the queue as a `seq`. `Admit` is the functional
  specification of `add`. The lemmas prove the four admission rules, the traces
  written in the source's comments, the permutation property (the new queue plus
  the evicted bulletin is the old queue plus the newcomer) and the invariant that
  a queue non-decreasing by priority stays so.
- `Manager` (`bulletin_manager.dfy`): the single-slot lifecycle manager
  `BulletinManager`. It holds the current bulletin, the auto-dismiss timer, the
  window and the view controller. `present`, `dismiss`, the timer, taps and pans
  are its events. Three things happen later than the call that causes them,
  and each is a pending event in the model:
  - a block dispatched by `present(_:after:)`;
  - an exit animation, together with its completion closure;
  - the timer firing.

  The delegate callbacks and tap actions are recorded in a log. The step
  functions (`Deliver`, `DismissCurrent`, `CompleteExit`, `FireTimer`, `Tap`,
  `BeginPan`, `EndPan`) are the specification. Each event method of the class
  (`Present`, `RunDispatched`, `DismissCurrentBulletin`, `Dismiss`,
  `ExitAnimationDidComplete`, `BulletinTimerDidFire`, `BulletinViewDidTap`,
  `BulletinViewDidBeginPanning`, `BulletinViewDidEndPanning`) is proved to
  perform one step and to keep the slot consistent: the bulletin, its view
  controller and its window exist together. The helpers `AnimateBulletinIn`
  and `AnimateCurrentBulletinOut` only state the fields they set.
- `View` and `ViewEntryPoints` (`bulletin_view.dfy`): the view's enums and
  defaults, its style settings, and the transform rules of `didPan` and
  `didPress`, as pure functions over `real`. Also the view class with its
  gesture handlers and its `action` observer, and `present(after:)`/`dismiss()`,
  which hand the view to the manager.
- `ObjC` (`bulletin_view_objc.dfy`): the Objective-C setters. They are total maps
  from integer codes and numbers to the Swift enums. Round-trip lemmas tie each
  map to the documented codes.

The source mixes revisions. `BulletinView.swift` declares neither `priority` (used by
`BulletinQueue.swift`) nor `level` (set by `BulletinView+ObjC.swift`). The model
gives queue items a priority and the view a level, whose default is taken to be
`.default`. This revision's manager does not use the queue, so the two are
modelled separately. Some behaviour of the code worth knowing:
- a pan that ends dismisses a top bulletin at a translation of at most
  -height/1.7 or a velocity of at most -1200 points per second, and a bottom
  bulletin symmetrically; a center bulletin never;
- priority has three members, Low, High and Required;
- a tap with an action calls `dismissCurrentBulletin` again from inside the
  first dismissal's completion. The second call is modelled as written, and
  `TapRunsActionAfterExit` proves it has no effect.

The manager refers to bulletin views by object: dispatched blocks, completions,
timers and notices hold the `BulletinView` reference itself, so two views are
the same exactly when they are the same Dafny object. The properties the
manager reads (position, duration, context, the tap action, height) reach it as a `View.Bulletin` copy taken at the moment it reads them: a
dispatched presentation block takes the view's copy when it runs, not when
`present` was called, and the same holds for the block a dismissal's completion
dispatches again. Taps and pans hand the manager the copy at that gesture. The
manager's `bulletinView` keeps the copy taken when the bulletin was shown; it
reads nothing from that copy afterwards but its identity. Queue items are
values: an item's `id` stands for its view object, with distinct views taken to
have distinct ids, and its `priority` is the view's priority when it was added.
As long as no queued view's priority changes, two items are the same view
exactly when they are equal. A tap action is identified by a token; the
completion a tap starts holds the token of the action the view had at the tap,
and the log records that token when the action runs.

## Model

| member | source | states |
|---|---|---|
| `Queue.IndexWhere` | Bulletin/Classes/BulletinQueue.swift:49 | the result is the least index whose element passes the test, and none exactly when no element passes |
| `Queue.FirstWhere` | Bulletin/Classes/BulletinQueue.swift:49 | `first(where:)` yields the element at the least passing index, and none exactly when nothing passes |
| `Queue.LocatedIsFirst` | Bulletin/Classes/BulletinQueue.swift:49-50 | `first(where:)` followed by `index(of:)` gives the least passing index |
| `Queue.IndexOf` | Bulletin/Classes/BulletinQueue.swift:50 | `index(of:)` finds the first position holding the item, and none exactly when the item is absent |
| `Queue.Last` | Bulletin/Classes/BulletinQueue.swift:15 | `last` is none exactly for the empty queue, otherwise the last element |
| `Queue.DropLast` | Bulletin/Classes/BulletinQueue.swift:100 | `removeLast` leaves the queue that, followed by the removed top, is the old queue |
| `Queue.Insert` | Bulletin/Classes/BulletinQueue.swift:60 | `insert(_:at:)` puts the item at index i, keeps the elements before i, and shifts the rest up by one |
| `Queue.Admit` | Bulletin/Classes/BulletinQueue.swift:23-95 | the admitted bulletin is in the new queue; the new queue plus the evicted bulletin is, as a multiset, the old queue plus the newcomer; the length grows by one unless a bulletin was evicted |
| `Queue.AdmitRequired` | Bulletin/Classes/BulletinQueue.swift:29-36 | a Required bulletin pops and returns the previous top (none on an empty queue), becomes the top, and the other elements keep their order |
| `Queue.AdmitIntoEmpty` | Bulletin/Classes/BulletinQueue.swift:38-44 | a non-Required bulletin added to the empty queue gives `[b]` and evicts nothing |
| `Queue.AdmitBeforeFirstEqual` | Bulletin/Classes/BulletinQueue.swift:49-61 | with an element of equal priority, the newcomer is inserted at the index of the first such element, nothing is evicted and the length grows by one |
| `Queue.AdmitBeforeFirstGreater` | Bulletin/Classes/BulletinQueue.swift:63-75 | with no equal but some greater priority, the newcomer is inserted at the index of the first greater element, nothing is evicted and the length grows by one |
| `Queue.AdmitEvictsLowerTop` | Bulletin/Classes/BulletinQueue.swift:76-90 | when every element has lower priority, the top is popped and returned, the newcomer is appended as top, and the length is unchanged |
| `Queue.AdmitTop` | Bulletin/Classes/BulletinQueue.swift:81-88 | an eviction always removes the old top and makes the newcomer the top; without an eviction an existing top stays the top |
| `Queue.AdmitKeepsOrdered` | Bulletin/Classes/BulletinQueue.swift:46-90 | a queue non-decreasing by priority stays non-decreasing after `add` |
| `Queue.TraceEqualPriority` | Bulletin/Classes/BulletinQueue.swift:56-57 | [L, H, R] + (H) = [L, H, H, R], with the new H before the old one and no eviction |
| `Queue.TraceGreaterPriority` | Bulletin/Classes/BulletinQueue.swift:69-70 | [H, H, R] + (L) = [L, H, H, R] with no eviction |
| `Queue.TraceLowerTop` | Bulletin/Classes/BulletinQueue.swift:83-84 | [L] + (H) = [H], evicting the L |
| `Queue.BulletinQueue.constructor` | Bulletin/Classes/BulletinQueue.swift:12 | a new queue is empty |
| `Queue.BulletinQueue.Top` | Bulletin/Classes/BulletinQueue.swift:14-16 | `top` is none exactly when the queue is empty, otherwise its last element |
| `Queue.BulletinQueue.IsEmpty` | Bulletin/Classes/BulletinQueue.swift:18-20 | `isEmpty` holds exactly when there is no top |
| `Queue.BulletinQueue.Pop` | Bulletin/Classes/BulletinQueue.swift:98-101 | returns the old top; on the empty queue changes nothing; otherwise removes exactly the last element and leaves the rest untouched |
| `Queue.BulletinQueue.Add` | Bulletin/Classes/BulletinQueue.swift:23-95 | the new queue and the returned bulletin are those of `Admit` |
| `View.TouchScale` | Bulletin/Classes/BulletinView.swift:330 | the touch scale is below 1 exactly when animated touch is on, and always lies in (0.9, 1] |
| `View.YTransform` | Bulletin/Classes/BulletinView.swift:336-343 | the applied y-translation never exceeds the raw one in magnitude and is zero or has its sign |
| `View.YTransformRule` | Bulletin/Classes/BulletinView.swift:338-342 | toward the dismiss edge the raw translation is applied unchanged; away from it the result is a fifth of it when stretching is on and 0 when off, mirrored for the bottom |
| `View.PanTransform` | Bulletin/Classes/BulletinView.swift:336-345 | the pan transform is translated by `YTransform` of the raw y-translation and nothing in x, has no shear, and scales both axes by the touch scale |
| `View.PressTransform` | Bulletin/Classes/BulletinView.swift:293-319 | a press never moves the view; at the center, without animated touch, or in other gesture states it changes nothing |
| `View.PressReleaseRestores` | Bulletin/Classes/BulletinView.swift:299-315 | pressing and then releasing a translated bulletin restores its transform |
| `View.BulletinView.constructor` | Bulletin/Classes/BulletinView.swift:115-118 | a new bulletin is at the top with duration `.limit(5)`, default context and style, no action, no tap recognizer and the identity transform |
| `View.BulletinView.Snapshot` | Bulletin/Classes/BulletinView.swift:115-121 | the copy the manager reads holds this view object and the view's current position, duration, context and height, and its current tap action |
| `View.BulletinView.SetAction` | Bulletin/Classes/BulletinView.swift:121-139 | clearing the action removes the referenced tap recognizer; setting one attaches a newly created recognizer; every attached recognizer stays older than the next one to be created |
| `View.ReplacedActionLeavesRecognizer` | Bulletin/Classes/BulletinView.swift:121-139 | setting an action twice and then clearing it leaves the first recognizer attached |
| `View.BulletinView.DidPress` | Bulletin/Classes/BulletinView.swift:293-319 | the transform becomes `PressTransform` of the old one; center bulletins are unchanged |
| `View.BulletinView.DidPan` | Bulletin/Classes/BulletinView.swift:321-351 | without a superview or at the center nothing happens; `began` and `ended` produce the begin- and end-panning delegate calls with translation and velocity; only `changed` sets the transform, to `PanTransform` |
| `ViewEntryPoints.PresentAfter` | Bulletin/Classes/BulletinView.swift:273-277 | `present(after:)` dispatches a presentation block for this view object with that delay and changes nothing else |
| `ViewEntryPoints.Dismiss` | Bulletin/Classes/BulletinView.swift:279-283 | `dismiss()` is the manager's `dismiss` of this view |
| `View.Translation` | Bulletin/Classes/BulletinView.swift:312 | `identity.translatedBy(x:y:)` is the identity with translation (x, y) |
| `View.ScaledBy` | Bulletin/Classes/BulletinView.swift:304 | `scaledBy(x:y:)` keeps the translation, and scaling by 1 changes nothing |
| `View.Without` | Bulletin/Classes/BulletinView.swift:127 | removing a recognizer leaves exactly the other attached recognizers |
| `ViewEntryPoints.RunPresentationBlock` | Bulletin/Classes/BulletinManager.swift:31-69 | the block `present(after:)` dispatched for a view runs with that view's properties as they are at that moment |
| `Manager.ArmsTimerExactly` | Bulletin/Classes/BulletinManager.swift:58-66 | a timer is armed exactly for `.limit(t)` with t > 0, and runs for t |
| `Manager.Invalidated` | Bulletin/Classes/BulletinManager.swift:51 | `invalidate()` keeps the timer reference and its bulletin and interval, but the timer can no longer fire |
| `Manager.Schedule` | Bulletin/Classes/BulletinManager.swift:29-31 | `present(_:after:)` appends one dispatched block and changes nothing else |
| `Manager.WindowLevel` | Bulletin/Classes/BulletinManager.swift:99 | the window is above the status bar exactly for `.overStatusBar`, and at the normal level for the default context |
| `Manager.Show` | Bulletin/Classes/BulletinManager.swift:45-67 | the show branch makes b current with its controller and window, notifies will-appear, arms a timer for a positive limit, otherwise leaves no live timer, and leaves exits and blocks alone |
| `Manager.DismissCurrent` | Bulletin/Classes/BulletinManager.swift:73-83 | keeps bulletin, controller, window and blocks; with nothing shown changes nothing; otherwise drops the timer and notifies will-disappear; starts one exit exactly when a controller exists |
| `Manager.RunPresentation` | Bulletin/Classes/BulletinManager.swift:33-67 | over a shown bulletin keeps it and leaves no timer; otherwise shows b |
| `Manager.Deliver` | Bulletin/Classes/BulletinManager.swift:31-69 | the block that runs is removed from the dispatched blocks; the current bulletin stays, or becomes b when the slot was empty |
| `Manager.DismissIfCurrent` | Bulletin/Classes/BulletinManager.swift:85-90 | `dismiss(v)` changes something only when v is the current bulletin's view, and never changes which bulletin is current |
| `Manager.RunCompletion` | Bulletin/Classes/BulletinManager.swift:39-41 | running a completion never changes the bulletin, controller or window |
| `Manager.CompleteExit` | Bulletin/Classes/BulletinManager.swift:116-130 | after an exit completes, there is no bulletin, controller or window, whatever the completion did |
| `Manager.FireTimer` | Bulletin/Classes/BulletinManager.swift:134-142 | after the timer fires no timer can fire; the current bulletin and the blocks are unchanged |
| `Manager.DismissesInteractively` | Bulletin/Classes/BulletinManager.swift:169-182 | the pan-end dismissal rule: a top bulletin past -height/1.7 or faster than -1200, a bottom one past height/1.7 or faster than 1200, a center one never |
| `Manager.EndPan` | Bulletin/Classes/BulletinManager.swift:167-220 | a pan end never changes the current bulletin or the dispatched blocks |
| `Manager.InitialConsistent` | Bulletin/Classes/BulletinManager.swift:25-27 | the manager starts with an empty, consistent slot and no live timer |
| `Manager.ScheduleKeepsConsistent` | Bulletin/Classes/BulletinManager.swift:29-31 | dispatching keeps the slot consistent and leaves the current bulletin and timer alone |
| `Manager.DismissCurrentKeepsConsistent` | Bulletin/Classes/BulletinManager.swift:73-83 | starting a dismissal keeps the slot consistent and the bulletin current |
| `Manager.DeliverKeepsConsistent` | Bulletin/Classes/BulletinManager.swift:92-109 | running a presentation block keeps bulletin, view controller and window together |
| `Manager.CompleteExitKeepsConsistent` | Bulletin/Classes/BulletinManager.swift:116-130 | an exit completion keeps the slot consistent |
| `Manager.FireTimerKeepsConsistent` | Bulletin/Classes/BulletinManager.swift:134-142 | the timer firing keeps the slot consistent |
| `Manager.GesturesKeepConsistent` | Bulletin/Classes/BulletinManager.swift:148-220 | tap, pan-begin and pan-end keep the slot consistent |
| `Manager.PresentIntoEmptySlot` | Bulletin/Classes/BulletinManager.swift:45-67 | with no current bulletin, a block running makes the view current with the properties it has at that moment, with its view controller and window, notifies will-appear, and leaves a live timer exactly when that duration is `.limit(t)` with t > 0, running for t |
| `Manager.PresentOverShownDefers` | Bulletin/Classes/BulletinManager.swift:35-44 | a block running over a shown bulletin keeps that one current, drops the timer and starts its exit, whose completion presents the same view object again |
| `Manager.PresentReplacesAfterExit` | Bulletin/Classes/BulletinManager.swift:29-71 | presenting v over a shown bulletin, then its exit completing, then the re-dispatched block running, leaves v current with the properties it has when that last block runs, and no exit or block pending |
| `Manager.DismissCurrentEffect` | Bulletin/Classes/BulletinManager.swift:73-83 | `dismissCurrentBulletin` with nothing shown changes nothing; otherwise it clears the timer, notifies will-disappear and starts exactly one exit with the given velocity and completion |
| `Manager.DismissOnlyCurrent` | Bulletin/Classes/BulletinManager.swift:85-90 | `dismiss(v)` changes nothing exactly when v is not the current bulletin's view object |
| `Manager.CompleteExitRunsCompletion` | Bulletin/Classes/BulletinManager.swift:116-130 | for any exit, its completion clears the bulletin, view controller and window and removes only that exit, and then runs the completion: none changes nothing more, a re-presentation dispatches exactly one block for its view, and a tap's completion runs the action it captured, its second dismissal starting nothing |
| `Manager.DismissTwice` | Bulletin/Classes/BulletinManager.swift:85-90 | once the first dismissal's exit has completed, a second `dismiss(b)` has no effect |
| `Manager.FireTimerEffect` | Bulletin/Classes/BulletinManager.swift:134-142 | the timer firing leaves no live timer, dismisses the current bulletin if any, and reports the timer's bulletin as dismissed automatically |
| `Manager.Tap` | Bulletin/Classes/BulletinManager.swift:148-159 | a tap on a bulletin without an action changes nothing; no tap changes the current bulletin or the dispatched blocks |
| `Manager.TapRunsActionAfterExit` | Bulletin/Classes/BulletinManager.swift:148-159 | a tap with an action, whatever exits are already in flight, starts one exit; the action the view had at the tap runs only when that exit completes, and the nested second dismissal starts no exit |
| `Manager.BeginPan` | Bulletin/Classes/BulletinManager.swift:161-165 | pan begin leaves no timer that can fire and changes nothing else |
| `Manager.DismissThresholdsMirror` | Bulletin/Classes/BulletinManager.swift:169-182 | a center bulletin is never dismissed by a pan; the bottom rule is the top rule with translation and velocity negated |
| `Manager.DismissThresholdsMonotone` | Bulletin/Classes/BulletinManager.swift:169-182 | dragging farther or releasing faster toward the edge keeps a dismissal a dismissal |
| `Manager.EndPanEffect` | Bulletin/Classes/BulletinManager.swift:167-220 | past the threshold, the current bulletin is dismissed with the release velocity and reported as interactively dismissed; otherwise the slot and log are unchanged and the timer is re-armed for the full `.limit` duration |
| `Manager.SnapBackRestartsTimer` | Bulletin/Classes/BulletinManager.swift:161-216 | a drag that snaps back stops the timer when it begins and arms a new timer for the whole t seconds, not the remainder, when it ends |
| `Manager.BulletinManager.constructor` | Bulletin/Classes/BulletinManager.swift:25-27 | the manager starts in the initial, consistent state |
| `Manager.BulletinManager.Present` | Bulletin/Classes/BulletinManager.swift:29-31 | performs `Schedule` |
| `Manager.BulletinManager.RunDispatched` | Bulletin/Classes/BulletinManager.swift:31-69 | performs `Deliver` with the dispatched view's properties as they are when the block runs, and keeps the slot consistent |
| `Manager.BulletinManager.DismissCurrentBulletin` | Bulletin/Classes/BulletinManager.swift:73-83 | performs `DismissCurrent` and keeps the slot consistent |
| `Manager.BulletinManager.Dismiss` | Bulletin/Classes/BulletinManager.swift:85-90 | performs `DismissIfCurrent` and keeps the slot consistent |
| `Manager.BulletinManager.AnimateBulletinIn` | Bulletin/Classes/BulletinManager.swift:92-109 | creates the window at the context's level and the view controller for the bulletin |
| `Manager.BulletinManager.AnimateCurrentBulletinOut` | Bulletin/Classes/BulletinManager.swift:111-132 | starts one exit animation with its completion when a view controller exists, and nothing otherwise |
| `Manager.BulletinManager.ExitAnimationDidComplete` | Bulletin/Classes/BulletinManager.swift:116-130 | performs `CompleteExit` and keeps the slot consistent |
| `Manager.BulletinManager.BulletinTimerDidFire` | Bulletin/Classes/BulletinManager.swift:134-142 | performs `FireTimer` and keeps the slot consistent |
| `Manager.BulletinManager.BulletinViewDidTap` | Bulletin/Classes/BulletinManager.swift:148-159 | performs `Tap` and keeps the slot consistent |
| `Manager.BulletinManager.BulletinViewDidBeginPanning` | Bulletin/Classes/BulletinManager.swift:161-165 | performs `BeginPan`, changing only the timer |
| `Manager.BulletinManager.BulletinViewDidEndPanning` | Bulletin/Classes/BulletinManager.swift:167-220 | performs `EndPan` and keeps the slot consistent |
| `ObjC.PositionForCode` | Bulletin/Classes/BulletinView+ObjC.swift:20-29 | 1 is center and 2 bottom, exactly; every other integer, 0 included, is top |
| `ObjC.PositionCodeRoundTrip` | Bulletin/Classes/BulletinView+ObjC.swift:13-29 | each position's documented code maps back to it |
| `ObjC.DurationForSeconds` | Bulletin/Classes/BulletinView+ObjC.swift:38-47 | `.forever` exactly for d <= 0, otherwise `.limit(d)` |
| `ObjC.BridgedDurationArmsTimer` | Bulletin/Classes/BulletinView+ObjC.swift:31-47 | a duration set from the bridge arms the manager's timer exactly when the number is positive, for that many seconds |
| `ObjC.LevelForCode` | Bulletin/Classes/BulletinView+ObjC.swift:56-65 | 1000 is the status bar and 2000 alert, exactly; every other integer is default |
| `ObjC.LevelCodeRoundTrip` | Bulletin/Classes/BulletinView+ObjC.swift:49-65 | each level's documented code maps back to it |
| `ObjC.EffectForCode` | Bulletin/Classes/BulletinView+ObjC.swift:96-108 | 1-3 darken with alpha code/4 (0.25, 0.5, 0.75); 4-6 blur; every other code is none |
| `ObjC.EffectCodeRoundTrip` | Bulletin/Classes/BulletinView+ObjC.swift:88-108 | the codes 0-6 and the effects that have a code correspond one to one |
| `ObjC.WithCornerRadius` | Bulletin/Classes/BulletinView+ObjC.swift:81-86 | all corners rounded with the given radius, every other style setting kept |
| `ObjC.SetPosition` | Bulletin/Classes/BulletinView+ObjC.swift:20-29 | assigns `PositionForCode(code)` and nothing else |
| `ObjC.SetDuration` | Bulletin/Classes/BulletinView+ObjC.swift:38-47 | assigns `DurationForSeconds(d)` and nothing else |
| `ObjC.SetLevel` | Bulletin/Classes/BulletinView+ObjC.swift:56-65 | assigns `LevelForCode(code)` and nothing else |
| `ObjC.SetBackgroundEffect` | Bulletin/Classes/BulletinView+ObjC.swift:96-108 | replaces only the style's background effect |
| `ObjC.SetCornerRadius` | Bulletin/Classes/BulletinView+ObjC.swift:81-86 | replaces the style by `WithCornerRadius` of it |
| `ObjC.Present` | Bulletin/Classes/BulletinView+ObjC.swift:115-117 | `present()` is `present(after: 0)` |

## Left out

- Real time. The delay of `present(_:after:)`, the timer interval and the animation durations are recorded, not elapsed. A dispatched block, a valid timer and an exit animation can each complete at any point, and exits in any order.
- Animation itself: the view controller's enter and exit animations, the spring parameters, the exit-velocity normalisation and the background effect views. Only "an exit started, with this velocity and completion" is kept.
- The snap-back animation that resets the bulletin's transform to the identity in `bulletinViewDidEndPanning`: the manager receives a copy of the view's properties, so it does not change the view's `transform`.
- Sounds and taptic feedback, the status-bar style bookkeeping (`previousStatusBarStyle`), `removeFromSuperview` and window hiding, and `bulletin.delegate = self`. All are UIKit or foreign effects.
- Manager.BulletinManager.BulletinViewDidEndPanning: a timer the manager stops referencing without invalidating it would still fire in Swift. The model tracks only the referenced timer.
- View.BulletinView.DidPress: the press animations are reduced to their end values.
- `StyleSettings` is a shared reference in Swift. The model keeps it as a value inside the view, so aliasing is not captured. Shadow settings and `layoutSubviews` are not modelled.
- `set(edgeInsets:)` and the `embed(content:)` bridges are not modelled: `edgeInsets` does not exist in this revision's `StyleSettings`, and embedding is view hierarchy.
- The sound-effect URL observer, `tapticFeedback(for:)`, `didTap` and the gesture-recognizer delegate are foreign effects or plain forwarding.
- `BulletinQueue.description` is a debug string and is not modelled.
- Queue.Admit: a queued view's priority is read when the view is added. Swift's `add` re-reads `$0.priority` of every queued view each time it runs, so a change to the priority of a view already in the queue is not modelled.
- `CGFloat` and `TimeInterval` are modelled as exact reals, so floating-point rounding is not modelled.
