# Portfolio page logic, modelled in Dafny

The portfolio site is a single page: a scrolling list of projects, a title
block that moves out of the list's way, popups that drift with the pointer,
and an animated background painted from a noise field. Nearly all of it is
presentation. This project models the few pieces of real logic in it and
proves what they guarantee:

- **Slugs** (`Slug`, slug.dfy): `createSlug` lower-cases a project name,
  turns every run of characters outside `[a-z0-9]` into one `-` and trims one
  hyphen from each end. Proved: the result only has `[a-z0-9-]`, never two
  hyphens in a row and no hyphen at either end. Its alphanumerics are exactly
  those of the lower-cased name, in order. It is empty exactly when the name
  has none. Applying it twice changes nothing. It equals the name's maximal
  alphanumeric runs joined by single hyphens.
- **Title placement** (`TitleLayout`, title_layout.dfy): the width rule of
  `updateTitlePosition`, branch by branch. Proved: the collision test always
  holds and the push it asks for is always 424 pixels. So the rule is "top"
  below 1408 pixels and "right" with an offset of 254.4 from there on, and
  "center" is never chosen. The quarter-window cap on the shift never bites.
  The page's three state values are a class whose update method sets them
  from the rule.
- **Popup drift** (`PopupMotion`, popup_motion.dfy): the pointer-driven move
  of the popup (135 pixels of travel across, 45 down). Proved: no move at the
  element's centre, linear in the pointer, and within ±67.5 and ±22.5 while
  the pointer is over the element. A missing element gives the plain
  `-50%`. A zero-sized one gives a non-finite value.
- **Background colours** (`NoiseColors`, noise_colors.dfy): the map from two
  noise samples to an RGB stop colour, the overlay's opacity, stops and
  geometry, and the canvas's fallback colour. Proved: the colour bands hold
  for every real noise value. With noise in `[-1, 1]` the narrower ranges
  noted in the source hold and the opacity is between 0.03 and 0.07. The
  overlay fades to transparent, and its outer radius is at least its inner
  one.
- **Frames and the clock** (`NoiseRenderer`, noise_renderer.dfy): the stop
  loop of `animate` as a method that builds the eleven stops, a whole frame
  as a function of noise field, theme, canvas size and elapsed time, the
  start-time latch, and the component's refs and canvas size as a class.
  Proved: the stops sit at `i/10`, strictly increasing from 0 to 1, with
  every colour in its band. The start time is the first nonzero timestamp
  and is never overwritten. With non-decreasing timestamps the elapsed time
  is never negative. A theme change does not reset the clock.

The noise field (`createNoise2D` of the `simplex-noise` package) is a
parameter: any function from two reals to a real. Where a property needs it
in `[-1, 1]`, that is a precondition of the lemma. Timestamps, window sizes,
the measured element box and whether a canvas context exists are inputs of
the operations. Arithmetic is over `real` and `int`.

Re-running the effect does not give a fresh clock. `startTimeRef` belongs
to the component, and the theme-keyed effect never resets it. After a theme
change the elapsed time therefore continues from the first frame ever
painted. Only a new mount starts from 0. `NoiseBackground.Setup` and
`NoiseBackground.ChangeTheme` state this (`startTime == old(startTime)`).

## Model

| member | source | states |
|---|---|---|
| Slug.LowerChar | src/app/page.tsx:38 | ASCII capitals become their small letters; `[a-z0-9]` and `-` are unchanged; the result is never empty |
| Slug.Collapse | src/app/page.tsx:39 | the result has only `[a-z0-9-]`, no two adjacent hyphens, is empty only for the empty string, and starts with `-` exactly when the input starts with a separator |
| Slug.TrimHyphen | src/app/page.tsx:40 | the result is the input minus at most one hyphen at the front and at most one at the back, each removed exactly when it is there; on a collapsed string it is a well-formed slug |
| Slug.CreateSlug | src/app/page.tsx:36-41 | every slug has only `[a-z0-9-]`, no doubled hyphen and no hyphen at either end |
| Slug.AlnumsCollapse | src/app/page.tsx:39 | replacing separator runs keeps the alphanumerics, in order |
| Slug.AlnumsTrimHyphen | src/app/page.tsx:40 | trimming edge hyphens keeps the alphanumerics |
| Slug.SlugKeepsAlnums | src/app/page.tsx:37-40 | deleting the hyphens of the slug gives exactly the `[a-z0-9]` characters of the lower-cased name, in order |
| Slug.SlugEmptyIff | src/app/page.tsx:39-40 | the slug is empty if and only if the lower-cased name has no `[a-z0-9]` character |
| Slug.SlugIdempotent | src/app/page.tsx:36-41 | the slug of a slug is the slug itself |
| Slug.CollapseAsWords | src/app/page.tsx:39 | collapsing a string that starts with an alphanumeric gives its words joined by hyphens, plus one hyphen if it ends in separators |
| Slug.SlugIsJoinedWords | src/app/page.tsx:36-41 | the slug equals the maximal `[a-z0-9]` runs of the lower-cased name joined by single hyphens |
| TitleLayout.Place | src/app/page.tsx:126-174 | the placement is never "center"; it is ("top", 0) below 1408 pixels and ("right", 254.4) from 1408 on |
| TitleLayout.CollisionAlways | src/app/page.tsx:135-145 | the title's left edge is always left of the dates column's end plus 100, and the push needed is always 424 |
| TitleLayout.TitleShift | src/app/page.tsx:446-453 | the right placement is shifted by the smaller of its offset and a quarter of the window; the other placements get no extra shift |
| TitleLayout.ShiftNeverCapped | src/app/page.tsx:452 | at every width the shift applied is the offset the rule chose |
| TitleLayout.TitleState.constructor | src/app/page.tsx:27-31 | the initial state is width 0, "center", offset 0 |
| TitleLayout.TitleState.Update | src/app/page.tsx:126-174 | after a resize the width, position and offset are those of the rule; the position is not "center" and the shift is not capped |
| PopupMotion.Move | src/app/page.tsx:99-100 | a zero-sized element, and only that, gives a non-finite move; the move is 0 with the pointer at the element's centre; over an element of positive size the move is within half the travel either way |
| PopupMotion.PopupX | src/app/page.tsx:96-102 | no hovered element gives the plain `-50%`, and only then |
| PopupMotion.PopupY | src/app/page.tsx:104-110 | no hovered element gives the plain `-50%`, and only then |
| PopupMotion.MoveLinear | src/app/page.tsx:99-100 | two moves differ by the pointer's displacement times travel over size |
| PopupMotion.MoveSign | src/app/page.tsx:99-100 | for an element of positive size the move is negative-or-zero left of (above) the centre and positive-or-zero right of (below) it |
| PopupMotion.PopupXBounded | src/app/page.tsx:96-102 | over the element the horizontal drift is within ±67.5 pixels |
| PopupMotion.PopupYBounded | src/app/page.tsx:104-110 | over the element the vertical drift is within ±22.5 pixels |
| NoiseColors.Clamp | src/components/NoiseBackground.tsx:64-75 | the clamped value lies in the band, equals the input inside it and the nearer bound outside it |
| NoiseColors.Channel | src/components/NoiseBackground.tsx:64-75 | the floored, clamped channel is an integer in the band, and the floor of the input when the input is inside it |
| NoiseColors.StopColor | src/components/NoiseBackground.tsx:58-76 | for any real noise values, light stops have red and green in [240,255] and blue in [245,255]; dark stops have red and green in [12,28] and blue in [18,38] |
| NoiseColors.StopColorForUnitNoise | src/components/NoiseBackground.tsx:62-75 | with noise in [-1,1], dark red is in [12,24], dark green in [14,22], dark blue in [18,36] and light green in [243,255] |
| NoiseColors.FallbackColor | src/components/NoiseBackground.tsx:138-139 | the fallback colour lies in its theme's band; in the light theme it is the zero-noise stop colour; in the dark theme it has the zero-noise red and green but a lower blue |
| NoiseColors.OverlayOpacity | src/components/NoiseBackground.tsx:95-96 | for noise in [-1,1] the opacity is in [0.03, 0.07], reaching both ends |
| NoiseColors.OverlayStops | src/components/NoiseBackground.tsx:98-120 | three stops at 0, 0.5 and 1; the last is transparent; the dark first alpha is 1.5 times the opacity, the light one is the opacity |
| NoiseColors.OverlayFadesOut | src/components/NoiseBackground.tsx:95-120 | with noise in [-1,1] every overlay alpha is in [0, 0.105] and alphas do not increase outward |
| NoiseColors.OverlayGeometry | src/components/NoiseBackground.tsx:86-93 | the inner radius is 0 and the outer radius is 0.8 times the larger side, so at least the inner one; the outer centre is at 60% of the canvas |
| NoiseColors.OverlayCentreNear | src/components/NoiseBackground.tsx:86-88 | with noise in [-1,1] the inner centre is within 100 pixels across and 80 down of (30%, 40%) of the canvas |
| NoiseRenderer.Elapsed | src/components/NoiseBackground.tsx:36 | the elapsed time is not negative when the timestamp is not before the start, and 0 at the start |
| NoiseRenderer.LatchedStartKept | src/components/NoiseBackground.tsx:32-34 | once nonzero, the start time survives any sequence of frames |
| NoiseRenderer.StartIsFirstNonzero | src/components/NoiseBackground.tsx:10 | from the initial 0, the start time after a run of frames is their first nonzero timestamp |
| NoiseRenderer.ElapsedNonNegative | src/components/NoiseBackground.tsx:32-36 | for non-decreasing timestamps every frame's elapsed time is at least 0 |
| NoiseRenderer.StopColorAt | src/components/NoiseBackground.tsx:50-76 | the colour of any stop at any size and time is in its theme's band |
| NoiseRenderer.BuildStops | src/components/NoiseBackground.tsx:49-79 | exactly 11 stops, stop k at position k/10 with the colour computed for k, strictly increasing from 0 to 1, every colour in the theme's band |
| NoiseRenderer.FrameAt | src/components/NoiseBackground.tsx:31-123 | a frame has the canvas's size and 11 ordered stops |
| NoiseRenderer.FrameInBand | src/components/NoiseBackground.tsx:49-120 | with noise in [-1,1], all stop colours of a frame are in band and the overlay alphas fall from at most 0.105 to 0 |
| NoiseRenderer.NoiseBackground.constructor | src/components/NoiseBackground.tsx:8-10 | a mounted component starts with both refs at 0 and no effect set up |
| NoiseRenderer.NoiseBackground.Resize | src/components/NoiseBackground.tsx:23-26 | while the effect is set up (the listener exists only then), a resize gives the canvas exactly the window's size and nothing else changes |
| NoiseRenderer.NoiseBackground.Setup | src/components/NoiseBackground.tsx:13-29 | without a canvas or context nothing changes; otherwise the fresh noise field and the theme are captured, the canvas is sized and the first frame's handle is kept; the start time never changes |
| NoiseRenderer.NoiseBackground.Animate | src/components/NoiseBackground.tsx:31-126 | the start time is latched and never overwritten, the frame is the one determined by noise field, theme, canvas size and elapsed time alone, and the next handle is kept |
| NoiseRenderer.NoiseBackground.Teardown | src/components/NoiseBackground.tsx:130-135 | the pending frame is cancelled exactly when the effect had been set up (so it has a cleanup) and the handle is nonzero; afterwards the effect is not set up and nothing else changes |
| NoiseRenderer.NoiseBackground.ChangeTheme | src/components/NoiseBackground.tsx:130-136 | a theme change cancels the pending frame only if the previous run was set up and had a nonzero handle; with a canvas and context it sets up again with the new theme, noise field, window size and frame handle, and without them it leaves the effect torn down with everything else as it was; the start time never changes |

## Left out

- Slug.LowerChar: full Unicode `toLowerCase` is not modelled. ASCII capital letters, U+212A KELVIN SIGN and U+0130 (capital I with dot above) are mapped as JavaScript maps them; every other character is kept. This gives the same slug whenever no other code point lowercases to something containing an ASCII letter or digit, a fact about Unicode's case tables that is not itself proved here.
- IEEE-754 doubles: all arithmetic is exact over reals, so the right-placement offset is 254.4 where JavaScript computes 254.39999999999998. NaN and infinities do not arise, except where the model names them: a zero-sized popup element gives `NotFinite`.
- NoiseRenderer.Latch: JavaScript's `!startTimeRef.current` is also true for NaN; reals have no NaN.
- The noise field itself (`createNoise2D` from `simplex-noise`) comes from a library. It is passed in as an arbitrary function; its range `[-1, 1]` is a precondition where needed.
- Canvas drawing calls (`getContext`, `createLinearGradient`, `createRadialGradient`, `addColorStop`, `fillStyle`, `fillRect`): host APIs. A frame is modelled as the data these calls receive, and the colour strings as numbers.
- Frame scheduling (`requestAnimationFrame`, `cancelAnimationFrame`) and the resize listeners: host scheduling. Handles are parameters, cancellation is the handle `Teardown` returns, and the callbacks are the methods `Animate` and `Resize`.
- React and framer-motion machinery: `useState`/`useEffect` wiring, the `useTransform` range interpolations for the background shift, glow and tint, the spring transitions, the mouse-move and window-dimension listeners, and all JSX (project list, popup tables and images). These are library behaviour and markup.
- DOM reads and actions: `getBoundingClientRect`, whose measured box is an input here; `centerList`'s scroll positioning; `window.open` in `handleProjectClick`. None of them has logic beyond the host call.
- The static project data of the page: constants, not behaviour.
- src/components/SmoothScrollProvider.tsx returns its children unchanged; there is nothing to model.
- src/app/project/[slug]/page.tsx, which turns a slug back into a display name, is not part of this model.
- NoiseRenderer.NoiseBackground.constructor: takes a placeholder noise field and the HTML default canvas size of 300 by 150. Neither is read before `Setup` succeeds, because `Animate` requires a set-up effect.
