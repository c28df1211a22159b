# JSCL web studio — a Dafny model of its client-side logic

The JSCL web studio site is a React portfolio. Most of it is presentation. Under the
presentation sit a number of small pieces of logic, and this project models those pieces
and proves what they promise:

- the project catalogue and its slug lookup;
- the two contact forms' submit/success/idle cycle and their copy-address button;
- the two scramble-reveal animations (`TextReveal` and the contact success message);
- the scroll-progress rule that picks the active section;
- the list maintenance of the two canvas demos, the generative drawing canvas and the
  particle playground;
- the logo's gyroscope calibration, spin guard and subtitle rule;
- the physics lab's gravity modes, polling period, reset and explosion;
- the project list's link target and image-fallback rule.

Each modelled source file becomes one Dafny module; two more modules hold what several
of them share (`Options` for an optional value, `ContactForm` for the contact forms'
status and address). Pure logic is written as datatypes, functions
and lemmas. State that the source keeps in React state or refs and updates in place is a
`class` whose methods carry `modifies` clauses. Events become methods, and so do timers:
a timer that a handler starts is a pending-callback counter on the class, and the
callback is a method that requires a pending callback. Random draws are parameters,
constrained to the range or alphabet the source draws from. JavaScript numbers are
modelled as exact reals. Fractional animation counters become integer ticks:

- `TextReveal` advances `1/3` per tick, so its tick `k` stands for iteration `k/3`;
- the success message advances `0.5` per tick, so its tick `h` stands for iteration `h/2`.

Several modules end with a short scenario method that drives a class through a typical
sequence of events and asserts the states it passes through: `ContactSection.SubmissionCycle`,
`ContactPage.SubmissionCycle`, `Logo.SpinAndRecalibrate` and `ProjectList.ImageErrors`.
They state no contract of their own and have no row below.

Some of the proved behaviour is surprising, and the model keeps it as written:

- `TextReveal` never stops its interval when the element leaves the viewport. The cleanup
  that would stop it is returned from a `setTimeout` callback, where it is ignored. So
  `LeaveView` resets the display but leaves running intervals running.
- In `Contact`, the timer that returns the form to idle does not check the status. The
  submit button is never disabled, so this timer can end a later submission early.
- In the generative canvas, the shape fade loop is a forward `forEach` with `splice`. The
  shape after a removed one therefore skips its fade that frame.
- In the particle playground, removal below `height + 100` can only fire through collision
  separation: the wall step alone keeps every ball on the canvas. The effect that spawns
  the first 15 balls also re-runs whenever gravity, mouse force, trails or friction
  change, and each re-run adds 15 more balls.
- In `Projects`, the image error handler tests the project's own image, not the one
  shown. Every listed image is remote, so with this data only the error-card branch is
  taken.

## Model

| member | source | states |
|---|---|---|
| Catalogue.FindBySlug | src/data/projects.ts:110-112 | the result, when present, is a catalogue entry with the requested slug; it is absent exactly when no entry has that slug |
| Catalogue.FindBySlugReturnsFirst | src/data/projects.ts:111 | lookup is `Array.find`: it returns the earliest entry with the slug, even when later entries share it |
| Catalogue.CatalogueIds | src/data/projects.ts:22-108 | the catalogue has five records, with ids 1 to 5 in order |
| Catalogue.CatalogueSlugs | src/data/projects.ts:22-108 | the records' slugs are sceneburn, apex-finance, vanguard-capital, helix-health and mono-architectural, in that order |
| Catalogue.CatalogueDistinctSlugs | src/data/projects.ts:22-108 | no two records share a slug, so lookup is a function of the slug |
| Catalogue.CatalogueScreenshots | src/data/projects.ts:29-106 | every record has exactly one screenshot, equal to its image |
| Catalogue.CatalogueLinks | src/data/projects.ts:30-98 | only `sceneburn` has an external link other than `#` |
| Catalogue.FindBySlugExact | src/data/projects.ts:110-112 | over a list with distinct slugs, lookup returns `p` if and only if `p` is in the list with that slug |
| Catalogue.GetProjectBySlugSpec | src/data/projects.ts:110-112 | `getProjectBySlug` is undefined exactly when no project has the slug, and otherwise returns the project that has it |
| ContactSection.ContactSection.constructor | src/components/Contact.tsx:6-12 | a fresh form is idle, with empty fields, nothing copied and no timer pending |
| ContactSection.ContactSection.Submit | src/components/Contact.tsx:14-18 | with an empty name or an empty email nothing changes (the message is not tested); otherwise the status becomes submitting and a reply timer starts, in any status, and nothing else changes |
| ContactSection.ContactSection.ReplyArrives | src/components/Contact.tsx:21-26 | the first timer sets success, empties all three fields and starts the idle timer; the copy state is untouched |
| ContactSection.ContactSection.ReturnToIdle | src/components/Contact.tsx:26 | the nested timer sets idle whatever the status, and changes nothing else |
| ContactSection.ContactSection.EditName | src/components/Contact.tsx:142 | editing the name replaces the name only |
| ContactSection.ContactSection.EditEmail | src/components/Contact.tsx:157 | editing the email replaces the email only |
| ContactSection.ContactSection.EditMessage | src/components/Contact.tsx:172 | editing the message replaces the message only |
| ContactSection.ContactSection.CopyEmail | src/components/Contact.tsx:30-33 | the clipboard receives `hello@jscl.design`, `copied` is set and its reset timer starts |
| ContactSection.ContactSection.CopiedExpires | src/components/Contact.tsx:33 | the reset timer clears `copied` |
| ContactPage.ContactPage.constructor | src/pages/ContactPage.tsx:14-16 | a fresh form is idle, with empty fields, nothing copied and no timer pending |
| ContactPage.ContactPage.Submit | src/pages/ContactPage.tsx:18-22 | while submitting (the button is disabled) nothing changes; with any of name, email or message empty nothing changes; otherwise the status becomes submitting and a reply timer starts |
| ContactPage.ContactPage.ReplyArrives | src/pages/ContactPage.tsx:23-26 | the first timer sets success, empties all three fields and starts the idle timer |
| ContactPage.ContactPage.ReturnToIdle | src/pages/ContactPage.tsx:26 | the nested timer sets idle and changes nothing else |
| ContactPage.ContactPage.EditName | src/pages/ContactPage.tsx:213 | editing the name replaces the name only |
| ContactPage.ContactPage.EditEmail | src/pages/ContactPage.tsx:226 | editing the email replaces the email only |
| ContactPage.ContactPage.EditMessage | src/pages/ContactPage.tsx:238 | editing the message replaces the message only |
| ContactPage.ContactPage.CopyEmail | src/pages/ContactPage.tsx:30-33 | the clipboard receives `hello@jscl.design`, `copied` is set and its reset timer starts |
| ContactPage.ContactPage.CopiedExpires | src/pages/ContactPage.tsx:33 | the reset timer clears `copied` |
| TextReveal.Frame | src/components/TextReveal.tsx:40-50 | a tick's text has the length of `children`; at tick `k` position `i` shows `children[i]` when `3i < k` and otherwise a character of the scramble alphabet |
| TextReveal.RevealedOnlyGrows | src/components/TextReveal.tsx:44 | a position revealed at one tick stays revealed, showing its own character, at every later tick |
| TextReveal.FrameComplete | src/components/TextReveal.tsx:52-55 | from the tick where the iteration reaches the length, the text is exactly `children` |
| TextReveal.TextReveal.constructor | src/components/TextReveal.tsx:13-15 | the element starts showing `children`, not animating and not started |
| TextReveal.TextReveal.EnterView | src/components/TextReveal.tsx:30-37 | while animating an in-view signal changes nothing; otherwise the element is marked started and animating and the delayed start is scheduled |
| TextReveal.TextReveal.LeaveView | src/components/TextReveal.tsx:22-27 | leaving the viewport shows `children`, clears both flags and cancels a pending start, but does not stop running intervals |
| TextReveal.TextReveal.StartFires | src/components/TextReveal.tsx:37-39 | the delayed start begins one more interval at iteration 0 |
| TextReveal.TextReveal.Tick | src/components/TextReveal.tsx:39-58 | a tick of an interval shows that tick's frame; once the iteration reaches the length the interval is cleared and `children` is shown, otherwise its tick advances by one |
| SuccessAnimation.Scramble | src/components/ContactSuccessAnimation.tsx:18-26 | the text has the target's length; spaces stay spaces; a non-space position `i` shows the target character when `2i < h` and otherwise a character of the alphabet |
| SuccessAnimation.FrameComplete | src/components/ContactSuccessAnimation.tsx:19-33 | a frame computed at an iteration of at least `length - 0.5` is exactly the target, so the last frame is |
| SuccessAnimation.SpaceKept | src/components/ContactSuccessAnimation.tsx:10-22 | every frame is 21 characters long with a space at index 12 |
| SuccessAnimation.Animate | src/components/ContactSuccessAnimation.tsx:13-35 | the interval renders exactly `2·length + 2` frames, frame `j` at iteration `j/2`; the last is the target and completion is scheduled once |
| ScrollProgress.LastReached | src/components/ScrollProgress.tsx:25-31 | the backward scan returns the last section whose element exists and lies at or above the reading line, or nothing when none does |
| ScrollProgress.LastReachedIs | src/components/ScrollProgress.tsx:25-30 | the scan stops at a reached section that has no reached section after it |
| ScrollProgress.SelectAtTop | src/components/ScrollProgress.tsx:34-36 | near the top of the page the result is `hero`, whatever the scan found |
| ScrollProgress.SelectIsLastReached | src/components/ScrollProgress.tsx:23-31 | otherwise the result is the last section reached by `scrollY + innerHeight/3` |
| ScrollProgress.SelectKeepsPrevious | src/components/ScrollProgress.tsx:25-31 | when no section is reached and the page is not near the top, the previous section stays active |
| ScrollProgress.MissingSectionSkipped | src/components/ScrollProgress.tsx:27 | a section without an element is chosen only through the top override or by staying active |
| ScrollProgress.SelectInSections | src/components/ScrollProgress.tsx:9-36 | the active section is always one of the four sections |
| ScrollProgress.ScrollProgress.constructor | src/components/ScrollProgress.tsx:19 | the active section starts as `hero` |
| ScrollProgress.ScrollProgress.HandleScroll | src/components/ScrollProgress.tsx:22-37 | the loop with `break` and the top override compute the selection rule |
| GenerativeCanvas.Steps | src/components/GenerativeCanvas.tsx:158 | a move adds at least one point, one for a distance below 6, and otherwise the largest `n` with `3n <= dist` |
| GenerativeCanvas.StrokePointOnSegment | src/components/GenerativeCanvas.tsx:159-167 | each added point is new (age 0) and lies on the segment from the previous cursor at a fraction `t` with `0 <= t < 1` |
| GenerativeCanvas.StrokeExcludesEndpoint | src/components/GenerativeCanvas.tsx:159-163 | an added point equals the new cursor position only when the cursor did not move |
| GenerativeCanvas.Alpha | src/components/GenerativeCanvas.tsx:231-233 | a drawn point's alpha lies in [0, 1], is 1 when new and 0 at the trail length |
| GenerativeCanvas.LineWidth | src/components/GenerativeCanvas.tsx:238 | a drawn point's line width lies between half the brush and the full brush |
| GenerativeCanvas.DrawnStyle | src/components/GenerativeCanvas.tsx:227-238 | a point the draw loop strokes (index below the last, age at most the trail length) has a next point, an opacity in [0, 1] and a width between half the brush and the brush |
| GenerativeCanvas.ForEachFade | src/components/GenerativeCanvas.tsx:275-292 | the fade pass never lengthens the shape list |
| GenerativeCanvas.ForEachFadeNoRemoval | src/components/GenerativeCanvas.tsx:275-278 | when no shape fades out, every shape is faded once, in order |
| GenerativeCanvas.ForEachFadeSkipsNext | src/components/GenerativeCanvas.tsx:289-291 | when shape `k` fades out, shape `k + 1` takes its place unfaded: the `forEach` skips it |
| GenerativeCanvas.ForEachFadeKeepsAlive | src/components/GenerativeCanvas.tsx:275-292 | a list of visible shapes stays a list of visible shapes |
| GenerativeCanvas.AgePruneSpec | src/components/GenerativeCanvas.tsx:295-305 | after ageing, every kept point is at most the limit old, every point young enough is kept, and the kept points keep their order |
| GenerativeCanvas.AgePruneCount | src/components/GenerativeCanvas.tsx:295-305 | the pruned list has exactly one point per index whose point is young enough, so equal points are not merged |
| GenerativeCanvas.GenerativeCanvas.constructor | src/components/GenerativeCanvas.tsx:25-36 | no points, no shapes, not drawing, trail length 50, line mode |
| GenerativeCanvas.GenerativeCanvas.SetTrailLength | src/components/GenerativeCanvas.tsx:425 | the trail slider sets the trail length within 10 to 100 |
| GenerativeCanvas.GenerativeCanvas.SetShapeMode | src/components/GenerativeCanvas.tsx:457 | the mode buttons set the shape mode |
| GenerativeCanvas.GenerativeCanvas.Start | src/components/GenerativeCanvas.tsx:141-146 | a press starts drawing and anchors the last position at the cursor |
| GenerativeCanvas.GenerativeCanvas.End | src/components/GenerativeCanvas.tsx:192-194 | release or leave stops drawing |
| GenerativeCanvas.GenerativeCanvas.Move | src/components/GenerativeCanvas.tsx:148-190 | while drawing, a move appends exactly `Steps(dist)` stroke points, adds a shape when one is drawn in shapes mode and moves the anchor; otherwise only the cursor moves |
| GenerativeCanvas.GenerativeCanvas.Clear | src/components/GenerativeCanvas.tsx:101-102 | clearing empties the points and the shapes |
| GenerativeCanvas.GenerativeCanvas.FadeShapes | src/components/GenerativeCanvas.tsx:275-292 | the `forEach` loop with `splice` computes `ForEachFade` |
| GenerativeCanvas.GenerativeCanvas.AgePoints | src/components/GenerativeCanvas.tsx:295-305 | the backward loop with `splice` computes `AgePrune` with limit twice the trail length |
| GenerativeCanvas.GenerativeCanvas.AnimationFrame | src/components/GenerativeCanvas.tsx:274-305 | a frame fades the shapes and then ages and prunes the points |
| ParticlePlayground.ColorIndex | src/components/ParticlePlayground.tsx:47 | the colour draw always indexes the palette |
| ParticlePlayground.CreateParticle | src/components/ParticlePlayground.tsx:38-50 | a new ball sits at the given point with radius in [4, 12), mass the square of the radius, a palette colour, an empty trail and a velocity jittered by less than 2 per axis |
| ParticlePlayground.BounceX | src/components/ParticlePlayground.tsx:194-201 | after the side walls, a ball on a canvas at least one diameter wide lies between them; a ball that hit a wall has its horizontal velocity reversed at 0.7; a ball inside is untouched |
| ParticlePlayground.BounceY | src/components/ParticlePlayground.tsx:203-214 | the same for the top and the floor; after a floor hit the horizontal velocity gets the nudge `(jitter - 0.5) * 0.3` exactly when the new vertical speed is below 0.5, and is unchanged otherwise |
| ParticlePlayground.TrailStep | src/components/ParticlePlayground.tsx:254-262 | with trails on, a trail of at most 15 entries ends at the new position and stays within 15 entries; with trails off it is emptied |
| ParticlePlayground.TrailStepKeepsNewest | src/components/ParticlePlayground.tsx:255-259 | with trails on, the trail is the newest positions of the old trail plus the new one: all of them below 15 entries, otherwise with the oldest dropped |
| ParticlePlayground.Advance | src/components/ParticlePlayground.tsx:168-214 | after the dynamics and the walls, a ball keeps its size, colour and trail and lies inside the canvas |
| ParticlePlayground.WallsKeepOnCanvas | src/components/ParticlePlayground.tsx:194-214 | without collisions, no ball can meet the removal test after the wall step |
| ParticlePlayground.ParticlePlayground.constructor | src/components/ParticlePlayground.tsx:21-27 | no balls, count 0, trails on |
| ParticlePlayground.ParticlePlayground.SpawnInitial | src/components/ParticlePlayground.tsx:127-137 | the effect appends exactly 15 balls in the upper half of the canvas and the count matches the list |
| ParticlePlayground.ParticlePlayground.Spawn | src/components/ParticlePlayground.tsx:52-57 | spawning appends exactly `count` new balls at the point, after the existing ones, and the count matches the list |
| ParticlePlayground.ParticlePlayground.Clear | src/components/ParticlePlayground.tsx:59-62 | clearing leaves no balls and count 0 |
| ParticlePlayground.ParticlePlayground.ToggleTrails | src/components/ParticlePlayground.tsx:416 | the button flips the trails setting |
| ParticlePlayground.KeptMembers | src/components/ParticlePlayground.tsx:290-293 | the balls a frame keeps are exactly the balls that have not fallen more than 100 below the canvas |
| ParticlePlayground.KeptCount | src/components/ParticlePlayground.tsx:290-293 | a frame loses exactly as many balls as have fallen more than 100 below the canvas |
| ParticlePlayground.FrameSettled | src/components/ParticlePlayground.tsx:254-293 | after a frame over well-formed balls, every kept ball is above the removal line and its trail ends at its position (or is empty with trails off) |
| ParticlePlayground.ParticlePlayground.ResolveCollisions | src/components/ParticlePlayground.tsx:216-252 | the collision pass for ball `i` changes only the motion of that ball and of every ball before it, each of which keeps its size, mass, colour and trail; no ball from index `i` on is touched |
| ParticlePlayground.ParticlePlayground.UpdateBall | src/components/ParticlePlayground.tsx:166-293 | one visit of the frame loop leaves ball `i` processed (size, mass and colour kept, trail stepped to its new position); the list from `i` on loses that ball exactly when it has fallen, and otherwise holds it, followed by the untouched later balls; earlier balls change only in motion |
| ParticlePlayground.ParticlePlayground.Frame | src/components/ParticlePlayground.tsx:165-294 | each ball is processed once, keeping its size, mass and colour, with its trail stepped to its new position; the list that remains is exactly the processed balls that have not fallen more than 100 below the canvas, in order; its length drops by the number that have; the count equals the length and every kept ball is settled |
| Logo.ShowSubtitle | src/components/Logo.tsx:168-170 | an explicit `withSubtitle` decides; otherwise the subtitle shows for every size except `sm` and `md` |
| Logo.Clamp01 | src/components/Logo.tsx:56-57 | the clamp lands in [0, 1], leaves values inside unchanged and sends values outside to the nearer end |
| Logo.Normalize | src/components/Logo.tsx:52-57 | the tilt lies in [0, 1], is 0.5 at the baseline, and is linear between -30 and 30 degrees, which reach 0 and 1 |
| Logo.NormalizeMonotone | src/components/Logo.tsx:56-57 | a larger deviation never gives a smaller tilt |
| Logo.OrZero | src/components/Logo.tsx:43-44 | a missing angle reads as 0 |
| Logo.Logo.constructor | src/components/Logo.tsx:13-27 | no baseline, centred tilt, gyroscope off, not spinning |
| Logo.Logo.AutoEnableGyro | src/components/Logo.tsx:102-117 | the mount effect enables the gyroscope only for an animated logo on a mobile device that is not iOS and offers orientation events |
| Logo.Logo.RequestGyroPermission | src/components/Logo.tsx:81-99 | the permission request enables the gyroscope unless permission is needed and refused |
| Logo.Logo.OnOrientation | src/components/Logo.tsx:42-61 | the first reading after mount or recalibration becomes the baseline and centres the logo; each tilt is the normalised deviation from the baseline |
| Logo.Logo.Recalibrate | src/components/Logo.tsx:69-71 | recalibrating only forgets the baseline |
| Logo.Logo.MouseMove | src/components/Logo.tsx:119-132 | the cursor sets the tilt unless the logo is static or on mobile |
| Logo.Logo.MouseLeave | src/components/Logo.tsx:134-138 | leaving recentres the logo unless it is static or on mobile |
| Logo.Logo.Click | src/components/Logo.tsx:199-221 | on mobile a click asks for the gyroscope or, if it was on, recalibrates; a click during a spin leaves the spin alone, otherwise it adds 720 degrees and starts the reset timer |
| Logo.Logo.SpinTimerFires | src/components/Logo.tsx:216-219 | the timer ends the spin and jumps the spin back to 0 |
| PhysicsScene.Gravity | src/components/lab/PhysicsScene.tsx:145-168 | with the gyroscope, gravity is `(0.109·gamma, -9.81, 0.109·beta)` in every mode; otherwise zero gives 0, reverse gives `+9.81` up, chaos gives its sample and normal gives `-9.81` |
| PhysicsScene.GravityBounded | src/components/lab/PhysicsScene.tsx:154-167 | without the gyroscope no component exceeds Earth gravity vertically or 5 sideways, and reverse is normal turned around |
| PhysicsScene.PollPeriod | src/components/lab/PhysicsScene.tsx:173-176 | gravity is polled every 50 ms exactly in chaos mode and every 100 ms otherwise |
| PhysicsScene.AtRest | src/components/lab/PhysicsScene.tsx:80-84 | a reset body has the position given, the identity rotation and no velocity |
| PhysicsScene.ResetBody | src/components/lab/PhysicsScene.tsx:78-85 | a mounted body with an initial position at its index is put back there at rest; other entries are left alone |
| PhysicsScene.KickFor | src/components/lab/PhysicsScene.tsx:52-68 | an explosion kick lifts by 5 to 20 and pushes sideways by under 7.5, with a torque under 5 about each axis |
| PhysicsScene.PhysicsObjects.constructor | src/components/lab/PhysicsScene.tsx:98-133 | box `i` is mounted at the `i`-th of the first five positions and sphere `i` at the `i`-th of the last five |
| PhysicsScene.PhysicsObjects.Reset | src/components/lab/PhysicsScene.tsx:75-88 | with the trigger at 0 nothing changes; otherwise each entry of boxes followed by spheres is reset by its index in that concatenation |
| PhysicsScene.PhysicsObjects.Explode | src/components/lab/PhysicsScene.tsx:48-72 | with the trigger at 0 there is no kick; otherwise exactly one kick per mounted body, in order |
| PhysicsScene.ResetRestoresMount | src/components/lab/PhysicsScene.tsx:76-117 | reset puts each box and each sphere back exactly where it was mounted |
| ProjectList.UnsplashIsHttps | src/components/Projects.tsx:20-52 | an image hosted on Unsplash starts with `https` |
| ProjectList.LinkTarget | src/components/Projects.tsx:124 | a link opens in a new tab exactly when it starts with `http`, otherwise in the same tab |
| ProjectList.LinkRel | src/components/Projects.tsx:125 | `rel` is set exactly for `http` links, to `noopener noreferrer` |
| ProjectList.ListedRows | src/components/Projects.tsx:13-55 | every listed image starts with `https`, ids run 1 to 5, and only the first row links out in a new tab |
| ProjectList.ProjectItem.constructor | src/components/Projects.tsx:108-109 | a row starts with the project's image and no error |
| ProjectList.ProjectItem.Shown | src/components/Projects.tsx:152-172 | the error card, naming the project, shows exactly when `hasError`; otherwise the current image |
| ProjectList.ProjectItem.HandleImageError | src/components/Projects.tsx:111-119 | for a local image the row switches to the fallback on every error and never shows the error card; for a remote image it shows the error card and keeps its source |

## Left out

- Rendering is left out: JSX, styles, framer-motion springs and transforms, canvas
  drawing calls, the 3D scenes.
- The Three.js/Rapier engine is left out. A body's state is the last state the scene set.
  An explosion kick is recorded, not integrated.
- Browser plumbing is left out: `addEventListener`, `setTimeout`/`setInterval` delays,
  `requestAnimationFrame`, resizing, clipboard, vibration, console output, navigation.
  Timers are pending-callback counters, and their callbacks are methods the environment
  may call.
- React effect re-run and cleanup ordering is not modelled beyond what the methods state.
- TextReveal.TextReveal.EnterView: `isAnimating` is one of the effect's dependencies, so
  setting it re-runs the effect, and React then runs the cleanup that clears the start
  timeout. `EnterView` and `StartFires` model the start the code sets up, not that
  cancellation, because re-render timing is outside the model.
- ParticlePlayground.ParticlePlayground.Frame: the dynamics (gravity, mouse force, friction, position
  update) and the pair collision response are arbitrary function parameters. So a
  processed ball's position and velocity are not pinned down. The frame's result is tied
  to the processed balls, returned as a ghost result, rather than to a reference function
  of the old list.
- GenerativeCanvas.GenerativeCanvas.AgePoints: points keep their age but not their drift velocity. The
  drift (`x += vx`, damping 0.98) is floating-point motion that affects nothing proved.
- GenerativeCanvas.GenerativeCanvas.Move: the distance is a parameter tied to the move by
  `dist² = dx² + dy²`, because there is no square root over the reals. Shape colours and
  the hue cycle are left out.
- PhysicsScene.Gravity: the chaos components are functions of the clock
  (`Date.now`, sine, cosine), so they come in as a parameter.
- Logo.Logo.MouseMove: the cursor's position relative to the box is a parameter, because the
  bounding-box geometry is not modelled.
- Logo.Logo.Click: the permission outcome arrives with the click rather than asynchronously
  after it. Haptic feedback is left out.
- Size tables, colours, durations and delays in the logo, the physics lab and the
  canvases carry no logic and are left out.
- The scramble alphabets' random choice is modelled as any character of the alphabet.
  The success animation's 1500 ms completion delay is modelled as scheduling completion
  once.
- TextReveal.TextReveal.Tick: the `1/3` floating-point increments are exact integer ticks here. In
  IEEE doubles, repeated addition of `1/3` could land just below an integer.
