# marq.tv front-end core, modelled in Dafny

This project models the parts of the marq.tv site that carry logic:

- **The particle field behind the hero section**, from `initParticles` in js/modern.js.
  - Particles are built from seven random draws each.
  - Every frame, each particle is pushed away from the pointer, pulled back towards its drifting home, and its home wraps at the canvas edges.
  - `init` creates as many particles as the canvas area calls for (at most 150).
  - `connectParticles` draws a line between every two particles closer than 120 pixels. A line's opacity fades with the distance.
- **The typing effect of the hero headline**, from `initTypingEffect`. Each `type()` call is one step of a state machine that types a phrase, holds it, deletes it and moves to the next phrase.
- **The URL handling of download_resources.py**:
  - `normalize_url` turns a stylesheet, script or image reference into an absolute URL on the original site;
  - a downloaded stylesheet or script gets a local name, with a default when the URL path has no basename.

The code is split into these modules:

- `ParticlePhysics` (particle_physics.dfy): the arithmetic of one particle as pure functions over exact reals:
  - repulsion, spring and wrap;
  - the particle count;
  - line opacity.
- `Links` (links.dfy):
  - the pairs that `connectParticles` visits;
  - the lines it draws, as records (indices, end points, opacity).
- `ParticleField` (particle_field.dfy): the imperative engine.
  - A `Particle` class has mutable `x, y, baseX, baseY` fields.
  - A `Field` class owns the canvas size, the pointer and the particle sequence. Its methods are `init`, resize, the pointer handlers, the per-frame update loop, the nested connection loop and the animation frame.
- `TypingEffect` (typing_effect.dfy):
  - `Step` specifies `type()`;
  - a `Typewriter` class runs the step imperatively;
  - the `data-texts` split is modelled too.
- `Resources` (resources.dfy): `normalize_url` and the local-name fallbacks.
- `Wrappers` (wrappers.dfy): `Option`.

How the environment is modelled:

- `Math.random()` is replaced by explicit draws in [0, 1) (`Draw`).
- `Math.sqrt` is replaced by a distance handed in with the fact that it measures the Euclidean distance (`Measures`), or by a distance function that does so for all points (`IsDistance`).
- `setTimeout` is replaced by the returned delay.

## Model

| member | source | states |
|---|---|---|
| ParticleField.Particle.constructor | js/modern.js:49-67 | The particle's position and home are `draw.x * width`, `draw.y * height`. Size, density, speeds and colour follow the source formulas. This puts every attribute in its range (size in [1,4), density in [1,31), speeds in [-0.25,0.25), colour from the palette) and the home on the canvas. |
| ParticleField.Particle.Update | js/modern.js:77-111 | The particle's new position and home are exactly `Advance` of its old ones: repulsion, then spring towards the old home, then drift, then edge wrap. The pointer distance `d` must be the true distance and non-zero. |
| ParticlePhysics.Falloff | js/modern.js:87-88 | Inside the pointer's reach the force factor `(150 - d) / 150` lies in (0, 1], and equals 1 exactly at distance 0. |
| ParticlePhysics.Push | js/modern.js:87-90 | How far the pointer pushes a particle: positive for a positive density, at most half the density, and exactly half the density with the pointer on the particle. |
| ParticlePhysics.Repel | js/modern.js:79-94 | With no pointer, or the pointer at distance of at least 150, repulsion leaves the position unchanged. Within reach, the displacement is `(x - m.x, y - m.y) * (Push / d)`, i.e. along the line from the pointer. |
| ParticlePhysics.RepelMovesAway | js/modern.js:80-93 | Within reach, the particle moves by exactly `Push(d, density)`, and its new distance to the pointer is `d + Push(d, density)`: it moves straight away from the pointer. |
| ParticlePhysics.PushMonotone | js/modern.js:88-90 | A closer pointer pushes strictly harder. |
| ParticlePhysics.Spring | js/modern.js:97-101 | After the spring step the gap to the home is 0.97 times the old gap. |
| ParticlePhysics.Wrap | js/modern.js:107-111 | A wrapped home coordinate always lies in [0, edge]. It is unchanged when already inside, jumps to the edge when below 0, and to 0 when beyond the edge. |
| ParticlePhysics.Advance | js/modern.js:77-111 | One update always leaves the home on the canvas. |
| ParticlePhysics.AdvanceSpringOnly | js/modern.js:97-111 | Without repulsion, the new gap between position and old home is 97% of the old gap. The home moves by the speed unless it wraps. |
| ParticlePhysics.AdvanceAfterPush | js/modern.js:79-101 | With repulsion, the spring acts on the repelled position: the gap to the old home is 97% of the gap the push left. |
| ParticlePhysics.PaletteIndex | js/modern.js:67 | `Math.floor(r * 5)` is a valid palette index and the floor of `r * 5`. |
| ParticlePhysics.ParticleBound | js/modern.js:120 | The particle bound is the smaller of `width * height / 12000` and 150: it is one of the two and at most each of them. |
| ParticlePhysics.ParticleCount | js/modern.js:120-124 | The count loop runs the ceiling of the bound times: never more than 150, and the smallest integer not below the bound. Up to 1800000 square pixels that is the ceiling of `width * height / 12000`; from there on it is 150. |
| ParticlePhysics.ParticleCountExamples | js/modern.js:120-124 | 1200x800 gives 80 particles, 4000x3000 is capped at 150, 1000x700 gives 59 (a fractional bound rounds up), and an empty canvas gives 0. |
| ParticlePhysics.Opacity | js/modern.js:136 | The line opacity `(120 - d) / 120 * 0.3` is positive, at most 0.3 for `d >= 0`, and exactly 0.3 iff `d = 0`. |
| ParticlePhysics.OpacityMonotone | js/modern.js:136 | Closer particles get a more opaque line. |
| ParticleField.Field.constructor | js/modern.js:23-34 | A new field has the given canvas size, no pointer, and particles built by `Init` from the draws. |
| ParticleField.Field.Init | js/modern.js:118-125 | `init` replaces the particles with exactly `ParticleCount(width, height)` fresh, distinct particles, the k-th built from the k-th draw. It keeps the invariant `Valid`. |
| ParticleField.Field.Resize | js/modern.js:162-166 | A resize takes the new canvas size and rebuilds the particles for it (`init`), keeping `Valid`. |
| ParticleField.Field.PointerMove | js/modern.js:37-40 | `mousemove` records the pointer position and keeps `Valid`. |
| ParticleField.Field.PointerOut | js/modern.js:42-45 | `mouseout` forgets the pointer and keeps `Valid`. |
| ParticleField.Field.UpdateAll | js/modern.js:152 | Every particle made exactly one `update` from its state before the loop, with the pointer's distance to its old position. The particles stay well formed, with their homes on the canvas. |
| ParticleField.Field.ConnectRow | js/modern.js:130-144 | The inner loop for `a` yields the lines of row `a` at the current positions (`RowLines`) and visits the pairs `(a, a+1) … (a, n-1)` in order. |
| ParticleField.Field.ConnectParticles | js/modern.js:128-146 | The nested loop yields exactly `Connections` of the current positions and visits exactly `Pairs(n)`, in order. |
| ParticleField.Field.Animate | js/modern.js:149-156 | A frame updates every particle, then returns the connections at the new positions, keeping the particles well formed. |
| Links.PairsCount | js/modern.js:129-130 | The loops visit n(n-1)/2 pairs. |
| Links.PairsExactlyOnce | js/modern.js:129-130 | The visited pairs are exactly the pairs `a < b < n`, each visited once, n(n-1)/2 in total. |
| Links.PairsBelowMembers | js/modern.js:129-130 | Before the outer index reaches `a`, exactly the pairs with first index below `a` have been visited. |
| Links.PairsBelowOrdered | js/modern.js:129-130 | Pairs are visited in strictly increasing lexicographic order. |
| Links.RowMembers | js/modern.js:130 | The inner loop for `a` visits exactly the pairs `(a, b')` with `a < b' < b`. |
| Links.LineForAt | js/modern.js:131-137 | What `LineFor` draws: for one pair at distance `d`, a line with opacity `(120 - d) / 120 * 0.3` is drawn if `d < 120`, and nothing otherwise. |
| Links.RowLinesMembers | js/modern.js:130-143 | What `RowLines` holds: row `a` draws exactly the lines of the close pairs `(a, b')` with `b' < b`. |
| Links.LinesBelowMembers | js/modern.js:129-145 | What `LinesBelow` holds: before row `a`, exactly the lines of the close pairs with first index below `a` are drawn. |
| Links.RowLinesOrdered | js/modern.js:130-143 | Within a row, lines are drawn in increasing order of the second index. |
| Links.LinesBelowOrdered | js/modern.js:129-145 | All lines are drawn in the loops' lexicographic pair order. |
| Links.ConnectionsMembers | js/modern.js:129-143 | What `Connections` holds: a frame's lines are exactly the lines from particle `a` to particle `b` with `a < b` and distance `d` in [0, 120), with opacity `(120 - d) / 120 * 0.3`. |
| Links.ConnectionsOncePerPair | js/modern.js:129-130 | No two lines of a frame join the same pair. |
| Links.ConnectionsWithinPairs | js/modern.js:129-135 | Every line joins a pair the loops visit. |
| Links.LinkDrawnIff | js/modern.js:129-137 | Particles `a` and `b` are joined iff `a < b` and their distance is below 120. |
| Links.LinkOpacityRange | js/modern.js:136 | Every drawn line has opacity in (0, 0.3]. |
| TypingEffect.Split | js/modern.js:447 | `split(',')` yields at least one part, and no part contains a comma. |
| TypingEffect.JoinSplit | js/modern.js:447 | Splitting loses nothing: joining the parts with commas gives back the attribute text. |
| TypingEffect.SplitJoin | js/modern.js:447 | Comma-free parts come back unchanged from a join followed by a split. |
| TypingEffect.ChooseTexts | js/modern.js:447 | The default list is taken only when the attribute is absent. A present attribute, even an empty one, is split: the phrases are comma-free and join back to the attribute text, which with `SplitJoin` makes them exactly its split. There is always at least one phrase. |
| TypingEffect.EmptyAttributeGivesEmptyPhrase | js/modern.js:447 | A present but empty `data-texts` gives one empty phrase, not the defaults. |
| TypingEffect.Substring | js/modern.js:459-462 | `substring(0, end)` returns a prefix, with `end` clamped to [0, length]. |
| TypingEffect.Step | js/modern.js:455-478 | One call of `type()`. `charIndex` moves by one. The text shown is a prefix of the current phrase. The call turns to deleting (after a 2000 ms pause) exactly when typing reaches the phrase length. It turns back and advances cyclically to the next phrase (after 500 ms) exactly when deleting reaches 0. Otherwise the delay is 100 ms while typing and 50 ms while deleting. |
| TypingEffect.StepPreserves | js/modern.js:455-478 | With no empty phrase, each step keeps the cursor consistent, and the element shows exactly the first `charIndex` characters. |
| TypingEffect.Run | js/modern.js:455-478 | Successive calls of `type()`, `k` of them: the phrase index stays a valid index into the phrases. |
| TypingEffect.RunAdd | js/modern.js:455-478 | `i + j` calls of `type()` are `i` calls followed by `j` more. |
| TypingEffect.RunTyping | js/modern.js:461-470 | Typing from `j` characters reaches the full phrase and switches to deleting. |
| TypingEffect.RunDeleting | js/modern.js:458-474 | Deleting from `j` characters empties the element and moves to the next phrase. |
| TypingEffect.PhraseCycle | js/modern.js:455-478 | A phrase of length L is typed in L steps and deleted in L more, then the next phrase (cyclically) starts from nothing. |
| TypingEffect.EmptyPhraseStalls | js/modern.js:462-468 | An empty phrase is never left: `charIndex` grows forever while nothing is shown. |
| TypingEffect.Typewriter.constructor | js/modern.js:447-450 | The set-up: phrases chosen from the attribute, cursor at phrase 0, character 0, typing. |
| TypingEffect.Typewriter.Type | js/modern.js:455-478 | The imperative `type()` moves the cursor, shown text and delay exactly as `Step` says. |
| Resources.StartsWithIff | download_resources.py:25-27 | Python's `startswith`, as used by `normalize_url`: a string starts with `p` exactly when it is `p` followed by something. |
| Resources.LStripSlashes | download_resources.py:28 | `lstrip('/')` removes exactly the leading slashes: the result is a suffix, everything removed was a slash, and the result does not start with one. |
| Resources.NormalizeUrl | download_resources.py:24-29 | A `//` reference gets `https:` in front. A reference not starting with `http` becomes the site base plus the reference without leading slashes. Anything starting with `http` is kept. The result always starts with `http`. |
| Resources.NormalizeIdempotent | download_resources.py:24-29 | Normalising a normalised URL changes nothing. |
| Resources.NormalizeEmpty | download_resources.py:27-28 | The empty reference becomes the site base. |
| Resources.NormalizeRootRelative | download_resources.py:27-28 | `/a.css` becomes `https://marquestv.page.tl/a.css`. |
| Resources.NormalizeProtocolRelative | download_resources.py:25-26 | `//` becomes `https://`. |
| Resources.LocalName | download_resources.py:56 | The local file name is the basename, or the kind's default (`style.css` or `script.js`) when the basename is empty. It is never empty. |
| Resources.RewrittenReference | download_resources.py:56-69 | The reference is unchanged when the download failed. After a successful download it is a non-empty file name directly inside `css/` or `js/`: the basename when there is one, and `style.css` or `script.js` when it is empty. |

## Left out

- Drawing (`Particle.draw`, called at the end of `update`, and `ctx.arc`, `fill`, `stroke`, `clearRect`, `strokeStyle`): a line is an emitted record of its indices, end points and opacity, and particles are not drawn.
- `requestAnimationFrame`, `cancelAnimationFrame` and the two `resize` listeners are not modelled. Their scheduling is outside the model. `Resize` models the effect of both listeners together (new size, then `init`), and `Animate` models one frame.
- ParticleField.Field.Resize and ParticleField.Field.constructor: the `animate()` call that follows `init()` on resize and at start-up is not part of them; the caller runs `Animate` after them.
- `Math.random`: replaced by explicit draws in [0, 1).
- `Math.sqrt`: distances are parameters that must measure the Euclidean distance (`Measures`, `IsDistance`). The square root itself is not computed.
- Floating point: all arithmetic is on exact reals, so IEEE rounding is not modelled.
- ParticleField.Particle.Update: requires a non-zero pointer distance. With the pointer exactly on a particle the source divides 0 by 0 and the position becomes NaN; that case is not modelled.
- ParticleField.Field.UpdateAll: requires the pointer to be on no particle (`PointerClear`), for the same reason.
- ParticlePhysics.Wrap: follows the code. A home coordinate equal to the edge is kept, so the home lies in the closed interval [0, edge].
- ParticleField.Field.ConnectRow: the inner loop of `connectParticles` is a separate method. The lines of a row are collected and appended when the row ends. The source strokes each line at once; the order of lines is the same.
- ParticleField.Field.UpdateAll and ParticleField.Field.Animate: keep `WellFormed` rather than all of `Valid`. They change only the particles' fields, so the particle count (`Populated`) is untouched. That is not restated in their contracts.
- TypingEffect.StepPreserves: assumes every phrase is non-empty. What happens with an empty phrase is stated by `EmptyPhraseStalls`.
- `setTimeout`: `Type` returns the delay. The first `type()` call and the DOM lookup of `.typing-text` are not modelled.
- JavaScript string lengths count UTF-16 code units. The model counts characters, which agrees for the default phrases.
- The rest of js/modern.js is outside the core: navbar, scroll reveal, counters, forms, `throttle`/`debounce` and the other DOM effects.
- download_resources.py:
  - `download_file`, file and network access, BeautifulSoup's tag search and rewriting, and the image loop with its hashed names are not modelled;
  - `urlparse` and `os.path.basename` are taken as given (the basename is a parameter);
  - whether a download succeeded is a parameter.
- check_external.py is not part of this model.
