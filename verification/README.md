# CalciumDemo state machine in Dafny

This project models the application state machine of the Calcium demo app,
the Java package `net.tclemens.calcium.demo.state`, together with the glyph
set of `LabelFactory`. The app boots a graphics engine and shows a box that
swings left and right beneath a text label. The engine delivers events to the
current state. The state's `update` returns either itself or a fresh state
built by `StateFactory`:

- **Initial** waits for the view to be sized. A `ViewEvent` leads to Splash.
- **Splash** shows "Hello" and schedules an action named "Start" for 2000 ms
  later. The "Start" action event leads to Left.
- **Right** glides the box right. A touch released (`Touch.UP`) restarts
  Right. An animation event flips to Left.
- **Left** is the mirror image of Right. Its class is not part of this model.

Each state is an immutable Java object, so `State` is a Dafny datatype and
`update`, `render` and `schedule` are pure functions. Hidden inputs become
parameters:
- the three `Random.nextInt()` results of `createRandomColor` are a `Draws`
  value;
- the clock read of `schedule` is a parameter `now`.

The glyph set of `LabelFactory` is a static `HashSet` filled in place, so
it is a class with a `set<char>` field and a method `CreateFont`.

Modules: one per source class (`Boxes`, `Labels` for `LabelFactory`,
`StateFactory`, `InitialState`, `SplashState`, `MovingState`,
`RightState`), plus `JavaInt` (Java's `Math.abs`, truncating `/` and `%`,
and wrapping `long` addition), `Engine` and `Frames` (the engine's value
types), `States` (the four states as one datatype), `StateMachine`
(dispatch over the four states, the transition table, and runs over event
sequences) and `AnimationEvaluation` (an explicitly assumed semantics of
the engine's animations).

## Model

| member | source | states |
|---|---|---|
| JavaInt.Abs | calcium-demo/src/main/java/net/tclemens/calcium/demo/state/StateFactory.java:205-207 | `Math.abs` is non-negative exactly when its argument is not `Integer.MIN_VALUE`. Otherwise it returns the argument or its negation, and `MIN_VALUE` comes back unchanged. |
| JavaInt.Quot | calcium-demo/src/main/java/net/tclemens/calcium/demo/state/MovingState.java:53 | Java's `/` truncates toward zero: the quotient is non-negative when the operands have the same sign and non-positive otherwise. `QuotRem` ties it to `Rem`. |
| JavaInt.Rem | calcium-demo/src/main/java/net/tclemens/calcium/demo/state/StateFactory.java:205-207 | Java's `%` lies strictly between `-abs(b)` and `abs(b)` and takes the sign of the dividend. |
| JavaInt.QuotRem | calcium-demo/src/main/java/net/tclemens/calcium/demo/state/StateFactory.java:205-207 | `(a / b) * b + a % b == a` with Java's truncating division, which is what makes `Rem` Java's remainder. |
| JavaInt.AddLong | calcium-demo/src/main/java/net/tclemens/calcium/demo/state/SplashState.java:105 | The `long` sum equals the true sum exactly when it fits in 64 bits. A sum past `Long.MAX_VALUE` wraps below the first operand. |
| Labels.Filled | calcium-demo/src/main/java/net/tclemens/calcium/demo/label/LabelFactory.java:97-115 | The glyph set after `createFont` contains the set before it. It is unchanged exactly when it was already non-empty, and an empty set becomes the full glyph set `Glyphs()`. |
| Labels.Glyphs | calcium-demo/src/main/java/net/tclemens/calcium/demo/label/LabelFactory.java:99-114 | The characters of the 14 adds, in call order (`ADDED`). `GlyphsExactly` and `GlyphCount` state what the set is. |
| Labels.FilledIdempotent | calcium-demo/src/main/java/net/tclemens/calcium/demo/label/LabelFactory.java:97 | A second `createFont` leaves the glyph set as the first one left it. |
| Labels.GlyphsExactly | calcium-demo/src/main/java/net/tclemens/calcium/demo/label/LabelFactory.java:99-114 | The 14 adds yield exactly {H,e,l,o,L,f,t,R,i,g,h}. The repeated 'l', 'e' and 't' add nothing. |
| Labels.GlyphCount | calcium-demo/src/main/java/net/tclemens/calcium/demo/label/LabelFactory.java:99-114 | The filled glyph set has 11 elements. |
| Labels.GlyphsCoverLabelTexts | calcium-demo/src/main/java/net/tclemens/calcium/demo/label/LabelFactory.java:99-114 | The filled glyph set is exactly the set of characters of "Hello", "Left" and "Right", the texts `StateFactory` gives its labels. |
| Labels.NewLabel | calcium-demo/src/main/java/net/tclemens/calcium/demo/label/LabelFactory.java:76-84 | A created label keeps the given position, text and colour, and its font holds the filled glyph set. |
| Labels.LabelFactory.constructor | calcium-demo/src/main/java/net/tclemens/calcium/demo/label/LabelFactory.java:55 | The glyph set starts empty. |
| Labels.LabelFactory.CreateFont | calcium-demo/src/main/java/net/tclemens/calcium/demo/label/LabelFactory.java:93-118 | Fills the set only when it is empty, so afterwards it is `Filled` of the old set. The set only grows, and afterwards it is always the full glyph set. The font is built over that set. |
| Labels.LabelFactory.CreateLabel | calcium-demo/src/main/java/net/tclemens/calcium/demo/label/LabelFactory.java:76-84 | Fills the glyph set as `createFont` does and returns the label for the given position, colour and text unchanged. |
| StateFactory.Channel | calcium-demo/src/main/java/net/tclemens/calcium/demo/state/StateFactory.java:205-207 | A colour channel lies in 0..DEPTH-2 if and only if the draw is not `Integer.MIN_VALUE`. It then equals the draw's absolute value modulo DEPTH-1. At `MIN_VALUE` it is -128. |
| StateFactory.RandomColor | calcium-demo/src/main/java/net/tclemens/calcium/demo/state/StateFactory.java:203-211 | Alpha is DEPTH-1. Red, green and blue are the channels of the first, second and third draw. |
| StateFactory.FirstAnimation | calcium-demo/src/main/java/net/tclemens/calcium/demo/state/StateFactory.java:174-179 | An immediate translation by (x, y, 0). Characterised by `AnimationEvaluation.FirstAnimationImmediate`. |
| StateFactory.SecondAnimation | calcium-demo/src/main/java/net/tclemens/calcium/demo/state/StateFactory.java:190-196 | A translation by (x, y, 0) interpolated linearly from `start` over DURATION. Characterised by `AnimationEvaluation.SecondAnimationGlides`. |
| StateFactory.LeftAnimation | calcium-demo/src/main/java/net/tclemens/calcium/demo/state/StateFactory.java:139-147 | The composite of the first and second animations for Left. Its parts are stated by `LeftAnimationParts`, its path by `AnimationEvaluation.LeftPath`. |
| StateFactory.RightAnimation | calcium-demo/src/main/java/net/tclemens/calcium/demo/state/StateFactory.java:156-164 | The composite of the first and second animations for Right. Its parts are stated by `RightAnimationParts`, its relation to Left's by `RightMirrorsLeft`. |
| StateFactory.LeftAnimationParts | calcium-demo/src/main/java/net/tclemens/calcium/demo/state/StateFactory.java:139-147 | Left's animation is a composite of two parts in this order: a static translation (1,0,0), then a translation (-2,0,0) interpolated linearly from `start` over DURATION = 2000 ms. |
| StateFactory.RightAnimationParts | calcium-demo/src/main/java/net/tclemens/calcium/demo/state/StateFactory.java:156-164 | Right's animation is a static (-1,0,0), then a translation (2,0,0) from `start` over DURATION. |
| StateFactory.MirrorInvolutive | calcium-demo/src/main/java/net/tclemens/calcium/demo/state/StateFactory.java:139-164 | Negating every offset of an animation twice gives the animation back. |
| StateFactory.RightMirrorsLeft | calcium-demo/src/main/java/net/tclemens/calcium/demo/state/StateFactory.java:139-164 | Right's animation is Left's with every offset negated and the same interpolation. |
| StateFactory.LeftMirrorsRight | calcium-demo/src/main/java/net/tclemens/calcium/demo/state/StateFactory.java:139-164 | Left's animation is Right's with every offset negated, so the mirror relation holds in both directions. |
| StateFactory.LabelsHaveTheirGlyphs | calcium-demo/src/main/java/net/tclemens/calcium/demo/state/StateFactory.java:84-130 | Every character of the labels of the splash, Left and Right states has a glyph in that label's font. |
| StateFactory.StartOnlyTimesTheAnimation | calcium-demo/src/main/java/net/tclemens/calcium/demo/state/StateFactory.java:102-130 | Changing `start` changes only the box's animation. The label, colour, position and size of a Left or Right state do not depend on it. |
| StateFactory.CreateInitial | calcium-demo/src/main/java/net/tclemens/calcium/demo/state/StateFactory.java:70-73 | `createInitial` yields the Initial state. |
| StateFactory.CreateSplash | calcium-demo/src/main/java/net/tclemens/calcium/demo/state/StateFactory.java:84-90 | A Splash state with the given width and height, holding a "Hello" label at CENTER in the drawn colour. |
| StateFactory.CreateLeft | calcium-demo/src/main/java/net/tclemens/calcium/demo/state/StateFactory.java:102-110 | A Left state with the given size. Its box is at CENTER with Left's animation from `start`, its "Left" label at BOTTOM, and box and label share one drawn colour. |
| StateFactory.CreateRight | calcium-demo/src/main/java/net/tclemens/calcium/demo/state/StateFactory.java:122-130 | The same as `CreateLeft` with Right's animation and the text "Right". |
| InitialState.Update | calcium-demo/src/main/java/net/tclemens/calcium/demo/state/InitialState.java:38-48 | A `ViewEvent` yields a Splash of exactly the view's width and height, with no check (a height of 0 is accepted). Every other event yields Initial. The result is a Splash if and only if the event is a `ViewEvent`. |
| InitialState.InitialIsUnique | calcium-demo/src/main/java/net/tclemens/calcium/demo/state/InitialState.java:31-35 | Initial has no fields, so every Initial value equals `createInitial()`. |
| SplashState.Update | calcium-demo/src/main/java/net/tclemens/calcium/demo/state/SplashState.java:86-99 | The result is a Left state if and only if the event is an `ActionEvent` named "Start". That Left starts at the event's time and keeps the splash's size. Every other event, including actions with other names, returns the state itself. |
| SplashState.Schedule | calcium-demo/src/main/java/net/tclemens/calcium/demo/state/SplashState.java:103-108 | The action is named "Start". It is due at `now + 2000` exactly when that sum does not overflow a `long`; otherwise the due time wraps to before `now`. |
| SplashState.CreateCamera | calcium-demo/src/main/java/net/tclemens/calcium/demo/state/SplashState.java:147-160 | The eye is at (0,0,5), looking at the origin with up (0,1,0). The orthographic projection has y in [-3,3], z in [0,6], and x symmetric with half-width 3*width/height. |
| SplashState.CreateBatches | calcium-demo/src/main/java/net/tclemens/calcium/demo/state/SplashState.java:169-176 | Exactly one batch: the label's. |
| SplashState.CreateScenes | calcium-demo/src/main/java/net/tclemens/calcium/demo/state/SplashState.java:128-137 | Exactly one scene, with the camera for the frame size and the label batch. |
| SplashState.Render | calcium-demo/src/main/java/net/tclemens/calcium/demo/state/SplashState.java:112-117 | A static frame (no refresh interval) on background (0,0,0,255), of the state's size, with one scene whose only batch is the label. |
| SplashState.ScheduleRoundTrip | calcium-demo/src/main/java/net/tclemens/calcium/demo/state/SplashState.java:86-108 | Delivering the scheduled action's name back as an `ActionEvent` always yields the Left state for the event's time. |
| MovingState.CreateCamera | calcium-demo/src/main/java/net/tclemens/calcium/demo/state/MovingState.java:139-152 | The same fixed camera parameters as the splash screen's. |
| MovingState.CreateBatches | calcium-demo/src/main/java/net/tclemens/calcium/demo/state/MovingState.java:162-170 | Exactly two batches: the box first, then the label. |
| MovingState.CreateScenes | calcium-demo/src/main/java/net/tclemens/calcium/demo/state/MovingState.java:120-129 | Exactly one scene, with the camera for the frame size and the box-then-label batches. |
| MovingState.Render | calcium-demo/src/main/java/net/tclemens/calcium/demo/state/MovingState.java:83-88 | A dynamic frame redrawn every `1000/60` = 16 ms (integer division), on background (0,0,0,255), of the state's size, with one scene holding the box batch and then the label batch. |
| MovingState.GetWidth | calcium-demo/src/main/java/net/tclemens/calcium/demo/state/MovingState.java:95-98 | The frame width. `SizeAsCreated` states that it is the width given when the state was created. |
| MovingState.GetHeight | calcium-demo/src/main/java/net/tclemens/calcium/demo/state/MovingState.java:105-108 | The frame height. `SizeAsCreated` states that it is the height given when the state was created. |
| MovingState.SizeAsCreated | calcium-demo/src/main/java/net/tclemens/calcium/demo/state/MovingState.java:73-108 | `getWidth`/`getHeight` return the width and height given to `createLeft`/`createRight`. |
| RightState.Update | calcium-demo/src/main/java/net/tclemens/calcium/demo/state/RightState.java:50-68 | `TouchEvent` UP yields a new Right from the event's time. Any `AnimationEvent` yields a Left from the event's time. Both keep the width and height. Every other event, including other touch inputs, returns the state itself. |
| RightState.UpdateKeepsSize | calcium-demo/src/main/java/net/tclemens/calcium/demo/state/RightState.java:50-68 | Every transition out of Right yields a moving state with the same frame size. |
| StateMachine.LeftUpdate | calcium-demo/src/main/java/net/tclemens/calcium/demo/state/RightState.java:50-68 | ASSUMED, since LeftState.java is not part of this model: Left's update mirrors Right's. UP restarts Left, an animation event flips to Right, and anything else returns the state itself. |
| StateMachine.Table | calcium-demo/src/main/java/net/tclemens/calcium/demo/state/RightState.java:50-68 | The transition table by state kind, independent of `Update`. It encodes the update rules of `InitialState.java:40-47`, `SplashState.java:88-98` and `RightState.java:50-68`. No transition leads back to Initial, and only Initial reacts to a `ViewEvent`. Left's row is ASSUMED, as for `LeftUpdate`. |
| StateMachine.Update | calcium-demo/src/main/java/net/tclemens/calcium/demo/state/InitialState.java:38-48 | Under the assumed Left rule (`LeftUpdate`): dispatch to the current state's update. An event with no entry in the transition table returns the state unchanged. One with an entry yields a state of the kind the table names. A state other than Initial keeps its width and height, and Initial takes the `ViewEvent`'s. |
| StateMachine.Render | calcium-demo/src/main/java/net/tclemens/calcium/demo/state/MovingState.java:83-88 | Every state but Initial is renderable. The frame has the state's size, and it is redrawn periodically exactly for the moving states. |
| StateMachine.Schedule | calcium-demo/src/main/java/net/tclemens/calcium/demo/state/SplashState.java:103-108 | Only Splash is schedulable, and its action is "Start". |
| StateMachine.Run | calcium-demo/src/main/java/net/tclemens/calcium/demo/state/RightState.java:50-68 | The state after delivering a sequence of events one at a time, each to the state the previous one produced. It stands for the engine's event delivery loop, which is not part of this model; the cited lines are the update it applies. `RunKeepsSize` and `RunFromInitial` state its properties. |
| StateMachine.RunKeepsSize | calcium-demo/src/main/java/net/tclemens/calcium/demo/state/RightState.java:58-64 | Under the assumed Left rule (`LeftUpdate`): along any sequence of events, a machine out of Initial never returns to it and keeps its frame size. |
| StateMachine.RunFromInitial | calcium-demo/src/main/java/net/tclemens/calcium/demo/state/InitialState.java:40-47 | Under the assumed Left rule (`LeftUpdate`), through `RunKeepsSize`: from Initial, the machine leaves Initial if and only if some `ViewEvent` arrives, and then keeps the first such event's size. |
| StateMachine.Oscillation | calcium-demo/src/main/java/net/tclemens/calcium/demo/state/RightState.java:62-65 | From Right, one animation event yields Left. Under the assumed Left rule (`LeftUpdate`), a second yields a Right started at the second event's time. |
| StateMachine.StartUp | calcium-demo/src/main/java/net/tclemens/calcium/demo/state/SplashState.java:86-108 | Initial, then `ViewEvent(w,h)`, then the splash's own scheduled action reaches a Left of size w×h. That Left renders every 16 ms with the box batch and the label batch. |
| StateMachine.CamerasAgree | calcium-demo/src/main/java/net/tclemens/calcium/demo/state/MovingState.java:139-152 | For equal width and height, the moving states' camera equals the splash screen's. |
| AnimationEvaluation.Progress | calcium-demo/src/main/java/net/tclemens/calcium/demo/state/StateFactory.java:190-196 | ASSUMED engine semantics: the progress lies in [0,1]. It is 0 up to `start` and 1 from `start + duration` on. |
| AnimationEvaluation.ProgressMonotonic | calcium-demo/src/main/java/net/tclemens/calcium/demo/state/StateFactory.java:192 | Under the assumed semantics, progress never decreases with time. |
| AnimationEvaluation.Displacement | calcium-demo/src/main/java/net/tclemens/calcium/demo/state/StateFactory.java:139-196 | ASSUMED engine semantics: the translation an animation applies at a time. A static one applies its offset, a dynamic one scales it by the progress, and a composite adds its parts' in order. |
| AnimationEvaluation.FirstAnimationImmediate | calcium-demo/src/main/java/net/tclemens/calcium/demo/state/StateFactory.java:174-179 | Under the assumed semantics, the first animation applies its full offset (x, y, 0) at every instant. |
| AnimationEvaluation.SecondAnimationGlides | calcium-demo/src/main/java/net/tclemens/calcium/demo/state/StateFactory.java:190-196 | Under the assumed semantics, the second animation applies p·(x, y, 0) for its progress p: nothing up to `start` and the full offset from `start + DURATION` on. |
| AnimationEvaluation.MirrorDisplacement | calcium-demo/src/main/java/net/tclemens/calcium/demo/state/StateFactory.java:139-164 | Under the assumed semantics, a mirrored animation moves by the negated offset at every instant. |
| AnimationEvaluation.PairDisplacement | calcium-demo/src/main/java/net/tclemens/calcium/demo/state/StateFactory.java:141-146 | Under the assumed semantics, a two-part composite moves by the sum of its parts' translations, first part first. |
| AnimationEvaluation.LeftPath | calcium-demo/src/main/java/net/tclemens/calcium/demo/state/StateFactory.java:139-147 | Under the assumed semantics, Left's box sits at x = 1 - 2p for the progress p of its glide from `start` over 2000 ms. |
| AnimationEvaluation.LeftEnds | calcium-demo/src/main/java/net/tclemens/calcium/demo/state/StateFactory.java:139-147 | Under the assumed semantics, Left's box is at x = 1 up to `start` and at x = -1 from `start + 2000` on. |
| AnimationEvaluation.RightPath | calcium-demo/src/main/java/net/tclemens/calcium/demo/state/StateFactory.java:156-164 | Under the assumed semantics, Right's box sits at x = 2p - 1, the negation of Left's path. |
| AnimationEvaluation.RightEnds | calcium-demo/src/main/java/net/tclemens/calcium/demo/state/StateFactory.java:156-164 | Under the assumed semantics, Right's box is at x = -1 up to `start` and at x = 1 from `start + 2000` on. |
| AnimationEvaluation.FlipIsSeamless | calcium-demo/src/main/java/net/tclemens/calcium/demo/state/RightState.java:62-65 | Under the assumed semantics, when an animation event arrives after Right's glide is complete, the new Left starts exactly where the box stands. |
| AnimationEvaluation.TapRestarts | calcium-demo/src/main/java/net/tclemens/calcium/demo/state/RightState.java:56-58 | Under the assumed semantics, after a touch UP at time t the new Right's box sits at its static offset (-1,0,0) at t. |

## Left out

- LeftState.java is not part of this model. `StateMachine.LeftUpdate` is the
  mirror of `RightState`'s rule, as an assumption. The transition table in
  `StateMachine.Table` lists Left's row on the same assumption. Whatever
  the model states about Left's transitions rests on it:
  `StateMachine.Update`, `StateMachine.RunKeepsSize`,
  `StateMachine.RunFromInitial` and the second step of
  `StateMachine.Oscillation`.
- The engine's animation, interpolation and transformation factories are not
  part of this model. In `StateFactory` animations are data only.
  `AnimationEvaluation` gives them an assumed meaning: clamped linear progress,
  and composite translations that add up.
- `Color.DEPTH` belongs to the engine and is taken to be 256, matching the
  255 of the background colour. What `ColorFactory.createColor` does with the
  negative channel produced by an `Integer.MIN_VALUE` draw is not modelled.
- The `Touch` enumeration belongs to the engine and is modelled as Down, Move
  and Up. Any input other than Up behaves the same way in every rule.
- `ViewEvent`'s time stamp is not modelled, because no rule reads it.
- The static `Random` generator becomes explicit `Draws` parameters.
  `System.currentTimeMillis()` becomes the `now` parameter of `Schedule`.
- Floats: the camera half-width `3f * width / height` is kept symbolic as
  `Aspect(3, width, height)` (in Java a zero height gives +Infinity or
  -Infinity by the sign of the width, or NaN when the width is 0 too). Label
  height 0.5f, font size 30f, spacing 0f and the label's centring offset
  `-text.getWidth() / 2f` are not modelled. Vector coordinates are reals,
  which hold the source's float literals exactly.
- The state factory functions build labels with `Labels.NewLabel`, whose font
  holds the filled glyph set. They do not thread a `LabelFactory` object
  through, because `update` is modelled as a pure function. What the static set
  holds is stated by `Labels.LabelFactory.CreateFont`, and
  `Labels.LabelFactory.CreateLabel` is proved to return `NewLabel`'s value.
- Android's `Context`, typeface and asset loading, textures, images, shader
  sources, materials, sprites and meshes are engine or host details, left out.
  Box is kept as `{position, animation, color}` and Label as
  `{position, font, text, color}`.
- `MainActivity` (activity lifecycle, engine start and stop, the volatile
  engine field) and the threading of event delivery are host plumbing, left out.
