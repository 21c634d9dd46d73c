# A model of the heart animation's decision logic

`script.js` drives a single-page animation. A Three.js heart of particles sits over a field of
"snow" particles. A start button plays a song, and a typewriter reveals two text panels. Custom
images float up the page, and a control panel retunes the heart and recolours the page. Most
of the file is rendering, tweening and asset loading. The `World` class also holds a core of
sequential decisions, and that core is what this project models and proves:

- the viewport classifier and the body-class rebuild;
- the per-frame `loop` step;
- the start-button handler and the music-load outcome;
- the heart and snow particle generators;
- the typewriter, `startTextAnimation` and `resetTextAnimation`;
- the per-key side effects of `updateControl`;
- `updateBorderColor` and `updateFloatingHeartColor`;
- the custom-image placement rule.

The state of `World` is an immutable record, and every handler is a pure function of that
state and its event. The modules follow the program's pieces:

| file | module | what it holds |
|---|---|---|
| `common.dfy` | `Common` | `Option` |
| `classlist.dfy` | `ClassList` | a class attribute as a token sequence; `classList.add` and `classList.remove` with DOMTokenList's ordered-set semantics |
| `random.dfy` | `Random` | `Math.random()` as values in `[0, 1)`; `Math.floor(r * n)` |
| `layout.dfy` | `Layout` | `updateLayoutBasedOnScreen`; the initial particle count; the two class regexes |
| `styles.dfy` | `Styles` | `updateBorderColor`, `updateFloatingHeartColor` |
| `particles.dfy` | `Particles` | `addHeart`, `addSnow`: palettes and per-particle attributes |
| `timers.dfy` | `Timers` | `setInterval` / `clearInterval` as a handle pool |
| `typewriter.dfy` | `Typewriter` | `typewriter`, `startTextAnimation`, `resetTextAnimation` |
| `placement.dfy` | `Placement` | `spawnCustomImage`'s anti-overlap rule, with JavaScript's `%` and NaN |
| `frame.dfy` | `Frame` | one call of `loop` |
| `world.dfy` | `World` | the state record, every event handler, and the invariant they keep |

The record's invariant is `World.Inv`, and every handler preserves it. It has six parts:

- Each live typing interval is the one stored in its panel's slot, so a panel never has two.
- The spawner handle names the only live custom-image interval.
- An enabled start button means nothing is running, spawning or loading.
- While a music load is in flight, no analyser exists yet.
- The heart mirrors the configuration.
- The camera's z position and the loudness stay in range.

Randomness enters as an input stream of values in `[0, 1)`. Each handler reads the stream in
the order the source calls `Math.random()`. `Math.sin` and `Math.cos` are passed in as
uninterpreted functions. Real arithmetic is exact.

Three behaviours of the code worth noting:

- The frame delta is `Math.min(60, (current - elapsed) * 1000)`. Its first operand is the
  previous clock reading, so a clock that moved forward gives a negative delta. The delta is
  therefore capped from above only (`Frame.Delta`, `Frame.FrameStep`).
- A successful music load writes the clock to a stray `this.t0` and leaves `time.t0` alone
  (`World.OnMusicLoaded`, field `strayT0`).
- `config.borderColorScheme` is never initialised. The first `updateBorderColor` call therefore
  looks up the key `"undefined"` and gets the default pink pair (`World.InitialStyles`).

## Model

| member | source | states |
|---|---|---|
| `ClassList.Remove` | script.js:834 | `classList.remove(t)`: the result holds exactly the old tokens other than `t`, with no duplicates |
| `ClassList.Add` | script.js:838 | `classList.add(t)`: the result holds exactly the old tokens plus `t`, with no duplicates; a new `t` goes last |
| `ClassList.RemoveIdempotent` | script.js:834 | removing a token twice is removing it once |
| `ClassList.AddIdempotent` | script.js:838 | adding a token twice is adding it once |
| `Layout.Classify` | script.js:117-118 | portrait iff `w < 600 ∧ h > w`; landscape iff `h < 500 ∧ w > h`; desktop iff neither; the mobile tests never both hold |
| `Layout.ClassifyBoundaries` | script.js:117-118 | the thresholds are strict: width 600 is never portrait, height 500 never landscape, a square viewport is desktop |
| `Layout.LayoutProfile` | script.js:125-142 | `(heartZoom, particleSize)` is `(0.065, 0.15)` iff portrait, `(0.050, 0.12)` iff landscape, `(0.08, 0.2)` iff desktop |
| `Layout.InitialParticleCount` | script.js:25-33 | the constructor's count is 1500 iff portrait, 1000 iff landscape, 3000 iff desktop |
| `Layout.ExampleViewports` | script.js:117-142 | 375×700 is portrait `(0.065, 0.15)`; 1920×1080 is desktop `(0.08, 0.2)`; 800×400 is landscape with 1000 particles |
| `Layout.FloatingMatchesFacts` | script.js:169 | `/floating-color-\S+/g` yields only floating-colour tokens, each a suffix of an old token, and keeps every old token that already is one |
| `Layout.BorderMatchesFacts` | script.js:170 | `/border-rainbow/g` yields only copies of `border-rainbow`, and at least one iff some old token contains it |
| `Layout.LayoutTokensInert` | script.js:123-142 | neither regex matches anything in the layout tokens, and none of them is `border-rainbow` |
| `Layout.Relayout` | script.js:167-173 | the rebuilt attribute starts with the layout tokens; every later token is a floating-colour or rainbow token; every old floating-colour token survives; `border-rainbow` is present iff some old token contained it |
| `Layout.RelayoutStable` | script.js:169-173 | if no old token merely embeds `border-rainbow`, rebuilding again for any layout gives the same attribute as rebuilding the original once |
| `Layout.RelayoutGrowsOnEmbeddedBorder` | script.js:169-173 | without that proviso rebuilding is not stable: for the attribute `floating-color-border-rainbow` the second rebuild is longer than the first, because the embedded `border-rainbow` is extracted again |
| `Random.Pick` | script.js:496 | `Math.floor(r * n)` for `r ∈ [0, 1)` is an index in `[0, n)`, the floor of `r·n` |
| `Particles.Palette` | script.js:482-490 | every palette is non-empty, and an unknown scheme gets the `tim1_original` list |
| `Particles.PaletteSizes` | script.js:482-490 | the palette sizes are 7, 3, 3, 3, 3 and 5, and an unknown name gets the default's 5 |
| `Particles.HeartParticleOf` | script.js:492-501 | one heart particle from its five draws: `random`, `random1` in `[0, 1)`, `scale ∈ [0, 0.35)`, colour index below the palette length with the matching colour, `speed ∈ [0, 12.5π)` |
| `Particles.SnowParticleOf` | script.js:641-647 | one snow particle: `phi ∈ [-5, 5)`, randoms in `[0, 1)`, `scale ∈ [0, 0.35)`, a colour from the four snow colours |
| `Particles.HeartField` | script.js:480-501 | `count` records, the i-th built from draws `5i … 5i+4` |
| `Particles.SnowField` | script.js:626-648 | 550 records, each in range |
| `Particles.GenerateHeart` | script.js:480-501 | the generation loop yields exactly `count` in-range records; with an unknown scheme every colour is from `tim1_original`; the records equal `HeartField`'s |
| `Styles.BorderColors` | script.js:825-844 | the colour map: an unknown scheme gets the pink pair, and the pink pair is returned iff the scheme is `tim1_original` or unknown |
| `Styles.UpdateBorderColor` | script.js:820-847 | `border-rainbow` is present afterwards iff the scheme is `rainbow`; no other token changes; rainbow removes both custom properties; any other scheme sets both from the map (pink when unknown) |
| `Styles.UpdateBorderColorIdempotent` | script.js:833-847 | applying the same border scheme twice is applying it once |
| `Styles.UpdateFloatingHeartColor` | script.js:741-748 | the classes of every listed colour other than the chosen one are gone and every other token is untouched; the chosen colour's class is added when it is a valid token (non-empty, no ASCII whitespace), and otherwise `classList.add` throws after the six removals, so nothing is added |
| `Styles.UnlistedColourSurvives` | script.js:741-748 | the class of an earlier colour that is not in the list stays, next to the new one when that is a valid token |
| `Styles.UpdateFloatingHeartColorIdempotent` | script.js:741-748 | choosing the same colour twice is choosing it once |
| `Timers.SetInterval` | script.js:202 | `setInterval` returns a fresh, truthy handle, and the new task is the only change to the live intervals |
| `Timers.ClearInterval` | script.js:194-199 | `clearInterval` stops exactly the given handle, and a missing handle clears nothing |
| `Typewriter.RenderHasNoNewline` | script.js:204-210 | a reveal's HTML holds no newline: each one became `<br>` |
| `Typewriter.RenderPlainText` | script.js:204-210 | a text without newlines is shown exactly as it is |
| `Typewriter.RenderAppend` | script.js:203-211 | rendering character by character is rendering the whole text: the HTML of `a + b` is that of `a` followed by that of `b` |
| `Typewriter.OneLivePerPanel` | script.js:194-229 | under the tracking invariant, two live typing intervals on one panel are the same interval |
| `Typewriter.Typewrite` | script.js:178-229 | empty text only runs the completion and touches no timer; otherwise the panel's previous interval is stopped, a fresh interval with period `duration / K` is stored in that panel's slot, the panel is emptied with the caret on, and the other panel and every other interval are unchanged |
| `Typewriter.TypingTick` | script.js:202-222 | one firing keeps the tracking invariant, the slots and the handle counter |
| `Typewriter.TickLeavesOthers` | script.js:202-222 | a firing of one interval leaves every other interval as it was |
| `Typewriter.TickAppends` | script.js:203-211 | while characters remain, a firing appends the next character's HTML and advances the index |
| `Typewriter.TickFinishes` | script.js:212-221 | the firing after the last character stops the interval, turns the caret off and runs the completion |
| `Typewriter.RevealProgress` | script.js:203-211 | n firings from character k show the first k+n characters rendered, with the interval still running |
| `Typewriter.RevealSpellsText` | script.js:178-229 | for a text of length K the period is `duration / K`; after K firings the panel shows the text with every newline as `<br>`; the next firing stops the interval and runs the completion exactly once; later firings change nothing |
| `Typewriter.StartText` | script.js:273-286 | without both panels nothing happens; otherwise both panels are emptied and unhidden, the left container is shown, and one left reveal becomes due; intervals are untouched |
| `Typewriter.LeftDueFires` | script.js:288-298 | a pending delayed call is consumed and starts the left reveal: a live interval over the stored left text with period `5000 / K` whose completion schedules the right reveal; an empty text schedules the right reveal at once and starts no interval; with nothing pending nothing changes |
| `Typewriter.RightDueFires` | script.js:292-297 | a pending timeout is consumed, shows the right container, and starts a live interval over the stored right text with period `6000 / K` and no completion; with nothing pending nothing changes |
| `Typewriter.ResetText` | script.js:302-328 | both stored intervals are stopped, which stops every live typing interval and nothing else; pending delayed starts stay pending; with both panels present they are emptied and hidden |
| `Frame.InitialFrame` | script.js:70-72 | before the first frame nothing runs, the loudness and shader clocks are 0, and the camera z is in range |
| `Frame.Delta` | script.js:337-340 | the delta is at most 60 and at most the raw difference; a clock that moved forward gives a delta ≤ 0 |
| `Frame.ClampCameraZ` | script.js:373-375 | the clamp lies in `[1.75, 6.5]` for every input and leaves in-range values alone |
| `Frame.Loudness` | script.js:344-345 | `avg · avg / 2000` is never negative, and 0 for a silent input |
| `Frame.RunningStep` | script.js:342-376 | on a running frame the finish fires iff the song stopped; finishing zeroes both angles and sets `t1 = t`; otherwise the angles advance by `delta·0.001·0.63` and `delta·0.001·0.39` and the camera orbits with its z clamped |
| `Frame.Advance` | script.js:380-396 | the heart clock advances by `delta·speed·(1 + 0.2·data)`, the snow clock by `delta·0.0004·(1 + data)`, and a loaded heart spins and sits at `-zoom·2.5` |
| `Frame.FrameStep` | script.js:336-414 | one `loop` call: delta ≤ 60; the finish fires iff analyser, running and not playing; no camera or angle change off a running frame; the shader clocks and the model advance as stated |
| `Frame.Run` | script.js:348-352 | along any run of frames the analyser flag is kept and `isRunning` never turns on |
| `Frame.StoppedNeverFinishes` | script.js:342-352 | a stopped frame never finishes, whatever the inputs |
| `Frame.FinishAtMostOnce` | script.js:348-352 | without a start the finish fires at most once in any run of frames, and after it nothing runs |
| `Frame.CameraZStaysInRange` | script.js:372-376 | the camera z stays in `[1.75, 6.5]` along any run, however large the deltas |
| `Frame.LoudnessStaysNonNegative` | script.js:344-345 | the loudness stays non-negative along any run |
| `World.HeartOf` | script.js:452-511 | `addHeart`: the uniforms take the configured size and zoom, and there are `particleCount` particles in range for the configured palette |
| `World.SnowOf` | script.js:613-658 | `addSnow`: 550 particles, each in range |
| `World.Constructed` | script.js:15-101 | the constructor before its layout call keeps the invariant, with the configured particle count, the snow in range, the initial styles, both typing slots empty and the start button enabled |
| `World.InitialStyles` | script.js:815-818 | `setupControls`' initial calls: the default pink border, no rainbow class, and the `original` floating colour |
| `World.InitialWorld` | script.js:15-108 | the constructor yields a state that keeps the invariant; the particle count comes from the window, the layout from the client size, both typing slots are empty with no reveal pending, and the start button is enabled with no live interval |
| `World.Relayout` | script.js:111-174 | a resize writes the layout's zoom and size to the configuration and the heart uniforms, rebuilds the body classes, and keeps every floating-colour token |
| `World.SpawnImage` | script.js:687-730 | `spawnCustomImage` adds one image: source index below 7, width in `[100, 150)`, lifetime in `[12000, 14000)`, offset from the placement rule, which is remembered |
| `World.Finish` | script.js:350-369 | the finish resets the reveal, stops and forgets the spawner, removes every custom image, brings back the start button (captioned "Bắt đầu") and the controls, and requests the camera ease-back |
| `World.OnFrame` | script.js:336-376 | a frame finishes iff it is running and the song has stopped; a finishing frame leaves no spawner, no images, no typing interval and a pressable start button |
| `World.Start` | script.js:554-581 | a disabled button ignores the click; otherwise the button and controls hide, the reveal is scheduled, one image appears and the spawner starts with a period in `[1000, 1500)`; with a loaded analyser the song restarts from `t0 = elapsed` with zero loudness, without one the load begins |
| `World.OnMusicLoaded` | script.js:591-602 | a finished load runs the frame with the analyser, leaves `time.t0` unchanged, writes the stray `t0`, and only recaptions the still-disabled button |
| `World.OnMusicFailed` | script.js:604-607 | a failed load only recaptions the button |
| `World.OnInterval` | script.js:563-567 | a stopped interval does nothing; the spawner's adds one image; a typing interval takes one reveal tick |
| `World.TypingTickKeepsSpawner` | script.js:202-222 | a typing tick leaves the spawner's interval tracked |
| `World.OnRevealDue` | script.js:288-299 | a due reveal start runs, and the invariant is kept |
| `World.RevealDueKeepsSpawner` | script.js:288-299 | a delayed reveal start keeps every live non-typing interval and adds none |
| `World.TypewriteKeepsOthers` | script.js:178-229 | `typewriter` touches typing intervals only |
| `World.Expire` | script.js:726 | an image's removal timeout removes exactly the images with that id |
| `World.Rebuild` | script.js:443-450 | `updateHeartParticles` rebuilds the heart from the configuration and restarts its clock, keeping the invariant |
| `World.Retune` | script.js:781-792 | the heart-side keys: colour scheme and count rebuild the heart; size and zoom go to their uniforms; speed only to the configuration |
| `World.Restyle` | script.js:784-795 | the page-style keys: the rainbow class tracks the border scheme; the chosen floating colour's class is on when it is a valid token, and the class of every other listed colour is off |
| `World.Dispatch` | script.js:769-796 | `updateControl`: each key's value goes to the configuration, then its side effect runs; the invariant is kept and the frame's running state is unchanged |
| `World.LifecycleStep` | script.js:336-376 | frames, the start button, the music load and the song's end keep the invariant; only a start runs the frame, and the finishing frame stops it |
| `World.AmbientStep` | script.js:417-429 | resizes, timer callbacks, the model load and the controls keep the invariant and never start or stop the frame |
| `World.Step` | script.js:348-373 | every handler keeps the invariant; only the start button and the music load set the frame running; the finishing frame stops it and leaves the start button pressable |
| `World.StoppedStaysStopped` | script.js:348-352 | a stopped world stays stopped and never finishes until a start |
| `World.FinishAtMostOnceBetweenStarts` | script.js:348-373 | between two starts the song finishes at most once, and after it has finished nothing runs |
| `Placement.JsRem` | script.js:708 | JavaScript's `%`: NaN iff the divisor is 0; for a non-negative dividend and positive divisor the result is in `[0, y)`, equal to `x` below `y` and to `x − y` below `2y` |
| `Placement.Drawn` | script.js:702 | the unpushed offset lies in `[0, innerWidth − 125)` when the window is wider than 125, and is 0 when it is exactly 125 |
| `Placement.PlaceImage` | script.js:698-711 | with room to spare and a sensible previous offset the new offset is in `[0, innerWidth − 125)`; without a wrap the new image is at least 145 px from the previous one; a first or NaN previous offset keeps the draw; a 125 px window turns a push into NaN |
| `Placement.WrapCanOverlap` | script.js:705-708 | when the push wraps, the distance is lost: in a 300 px window an image drawn at 100 next to one at 100 goes to 70 |
| `Placement.Spawn` | script.js:691-717 | the three draws give a source index below 7, a width in `[100, 150)` and the placement rule's offset |

## Left out

- Styles.UpdateFloatingHeartColor: a colour that is not a valid class token makes
  `classList.add` throw. The model keeps the state that the throw leaves: the configuration
  is written, the six classes are removed and nothing is added. The exception itself, which
  the event dispatch reports to the console, is not modelled. It is raised by the last
  statement of the input handler, so no later step is skipped.
- Rendering, shaders, instanced geometry buffers, `lookAt` and `renderer.render` are foreign
  calls. Uniforms are plain real fields; each particle's attributes are one record.
- GSAP tweens are library animations over time: the button and panel fades, the camera
  ease-back, the model's scale-in and the mouse parallax (script.js:433-441). The button and the
  controls are visibility flags, and the ease-back is a counter of requests.
- Asset loading is asynchronous I/O: GLTF, textures, audio and `loadMusic`'s promise. The load
  is modelled only as its outcome events, loaded or failed. A load event that arrives while no
  load is in flight is ignored.
- The CSS custom properties written on every frame (script.js:398-408), the slider and
  `toFixed` displays, the fullscreen button and the controls toggle are DOM writes with no
  decision in them.
- The PNG floating-heart spawner (script.js:661-683) is DOM and timers only.
- IEEE doubles and `Float32Array` rounding: arithmetic is exact over the reals, and `Math.PI` is
  its decimal constant.
- `innerHTML` is modelled as the string appended to it. The browser's HTML parsing of a text
  holding `<` or `&` is not modelled.
- Layout.FloatingMatchesFacts: `\S` in the floating-colour regex is modelled as "any
  character". This assumes that no class token holds Unicode whitespace. DOMTokenList splits
  only on ASCII whitespace, so a token may still hold U+000B, U+00A0, U+2028 or U+3000. On such a
  token the regex stops early and may find two matches, while the model finds one match that runs
  to the token's end. `Layout.Relayout` and `Layout.RelayoutStable` rest on the same assumption.
- `parseInt`/`parseFloat` of a slider value: controls carry an already parsed `nat` or `real`,
  so NaN and negative counts are not modelled.
- The 50 ms timeout that starts an image's fly-up only draws a scale for a CSS transform. It is
  not modelled, and the model does not consume its random draw.
- The timeline's 2 s delay and the 0.5 s timeout are pending-start counters with no clock.
  `resetTextAnimation` leaves them pending, as the source does.
- The `if (this.spawnCustomImage)` guard in the click handler always holds after construction,
  so a start always spawns. The `try`/`catch` around `spawnCustomImage` guards only DOM
  failures, so it is not modelled.
- The song's end is a `SongEnded` event that clears `sound.isPlaying`. The heart model's load is
  a `ModelLoaded` event that gives the frame a pose. Mouse movement and the fullscreen button
  are not events of the model.
- Frame.FrameStep: `Math.sin` and `Math.cos` are uninterpreted, so the camera x is stated only
  as `sin(angle) · 2`, with no bound.
- World.Step: randomness comes from an endless source, so a handler never runs short of
  draws.
- Typewriter.Typewrite: element identity is modelled by a panel tag. A call for "any other
  element" therefore cannot be expressed, and every call names the left or the right panel.
- Typewriter.Typewrite: a text is a sequence of Unicode scalar values, but JavaScript's
  `text.length` and `text[i]` count UTF-16 code units. The model matches the source only for text
  inside the Basic Multilingual Plane (up to U+FFFF). For a character above U+FFFF the source's
  K is larger, its period is shorter, and it appends the two surrogate halves on separate ticks.
- Typewriter.RevealSpellsText: for the same reason, "K firings spell the text" holds only for text
  inside the Basic Multilingual Plane. Above it the source ticks once per UTF-16 code unit.
- Particles.Palette: `colorChoices[scheme]` is modelled as an own-key lookup. A name that a
  JavaScript object inherits, such as `constructor`, `toString` or `__proto__`, gives a truthy
  inherited value, so the source skips the `tim1_original` fallback. `addHeart` then throws when
  it reads a colour. The fallback is proved for every name other than the six own keys.
  `Particles.PaletteSizes` and `Particles.GenerateHeart` rest on the same modelling.
- Styles.BorderColors: `colorMap[scheme]` is likewise an own-key lookup. For an inherited name
  the source sets both custom properties to `undefined` instead of the pink pair.
  `Styles.UpdateBorderColor` rests on the same modelling.
