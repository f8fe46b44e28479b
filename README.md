# Ribbon sketch: verified model of the ribbon buffer and the animation clock

The sketch in `app.js` builds a closed ribbon along a random closed curve and
animates its two textures in opposite directions. This project models the two
parts of it that hold real logic:

- **Ribbon vertex buffer** (module `Ribbon`, `ribbon.dfy`). `Sketch.addObjects`
  walks the `number + 1` spaced curve points once per half-width in
  `dimensions = [-0.1, 0.1]`. At each step it updates one shared accumulator,
  `binormalShift := (binormalShift + binormals[i]) * d`, and pushes
  `spacedPoints[i] + binormalShift`. It then stitches the seam with two copies:
  `finalPoints[0] := finalPoints[number]` and
  `finalPoints[number + 1] := finalPoints[2 * number + 1]`. The curve samples and
  the binormals are opaque input sequences. Vectors are exact 3-component reals
  (module `Vectors`). `number` is a parameter, not fixed at 1000.
- **Animation state machine** (module `Animation`, `animation.dfy`). Class
  `Sketch` holds `time`, `isPlaying` and the two texture x-offsets in an array.
  `Render` does nothing when stopped. Otherwise it adds `0.001` to `time` and
  writes `+time` to material 0 and `-time` to every later material. `Play` only
  acts when stopped, and `Stop` clears the flag. The constructor sets
  `time = 0`, sets `isPlaying = true`, sets both offsets to `0.5`, and then draws
  its first frame, so a new sketch starts at `time = 0.001`. Each method is
  proved against a function on the abstract `State` (`Rendered`, `Played`,
  `Stopped`). The lemmas about runs of calls are stated on those functions.

Facts about the code that the model keeps as they are:
- Each vertex is `point + accumulator`, not `point + width * binormal`. The
  accumulator carries over from step to step. After step `i` of a pass of
  width `d` it is `d * b[i] + d^2 * b[i-1] + ...` plus the scaled value the
  pass started from, not `d * b[i]`.
- The accumulator is never reset between the two widths. `PassStart` gives its
  value when each pass begins, and `BufferRecurrence` shows it carrying over.
- The buffer has `2 * (number + 1)` vertices.
- There is no error for fewer than three control points and no capacity
  check, so the model has neither.

## Model

| member | source | states |
|---|---|---|
| Ribbon.OffsetAlongBinormals | app.js:213-226 | The nested loop pushes exactly `len(dims) * (number + 1)` vectors. The result is the push-order concatenation of one row per width. Each row entry is a curve point plus the single accumulator, and that accumulator is not reset between widths. The inputs are only read. |
| Ribbon.BuildRibbonPoints | app.js:198-240 | The buffer for the plane has `2 * (number + 1)` entries, which equals the vertex count of the `number` by 1 plane. It is the two-width buffer with the two seam copies applied. |
| Ribbon.Rows | app.js:217-226 | After `k` passes the buffer holds exactly `k * (number + 1)` entries. |
| Ribbon.RibbonPointAt | app.js:214-226 | Entry `k * (number + 1) + i` is `spacedPoints[i]` plus the accumulator after step `i` of pass `k`. Pass `k` starts from where pass `k - 1` ended, and only pass 0 starts from zero. |
| Ribbon.BufferRecurrence | app.js:214-224 | Subtracting each entry's curve point gives back the accumulator. It starts at zero and obeys `s := (s + binormals[i]) * d` at every step. At the first entry of the second pass it continues from the last entry of the first pass. |
| Ribbon.StitchSeam | app.js:233-234 | After the two copies, entry 0 equals entry `number` and entry `number + 1` equals entry `2 * number + 1`. Both hold the pre-copy source values, and every other entry is unchanged. |
| Ribbon.SeamCopiesCommute | app.js:233-234 | Doing the copies in either order gives the same buffer: neither copy reads what the other writes, so the second copy cannot undo the first. |
| Ribbon.SeamVertices | app.js:219-234 | After stitching, the first vertex of each row is that row's last vertex: `spacedPoints[number]` plus the accumulator at the end of that pass. |
| Ribbon.MaterialGroups | app.js:208-209 | There are two groups with the same range (start 0, count 6000). They differ only in material index, 0 versus 1. |
| Ribbon.GroupsSpanPlane | app.js:198-209 | Both groups cover the whole index range of the `number` by 1 plane (6 indices per cell) exactly when `number == 1000`, because the count 6000 is a literal. |
| Animation.ConfigureTextures | app.js:129-139 | Both textures use repeat wrapping on both axes, repeat y 1 and flipY off. The front has repeat x 1 and the back has the mirrored -1. Nothing else differs. |
| Animation.Rendered | app.js:273-288 | Specification of `render`. The flag and the number of materials never change. `time` rises by exactly 0.001 when playing and stays put when stopped. |
| Animation.Played | app.js:266-271 | Specification of `play`. Afterwards the sketch is playing. When it was already playing nothing changes. When it was stopped, one frame is drawn from the current `time`, which ends one step higher. |
| Animation.Stopped | app.js:262-264 | Specification of `stop`. It clears the flag and keeps `time` and the offsets. |
| Animation.RenderEffect | app.js:273-288 | When stopped, `render` changes nothing. When playing, it keeps playing, raises `time` by exactly 0.001, and leaves material 0 at `+time` and every later material at `-time`. |
| Animation.StopThenPlayResumes | app.js:262-271 | `play` while playing changes nothing, and a second `play` changes nothing. `play` after `stop` sets the flag and draws one frame, so `time` resumes at its old value plus one step and is not reset. |
| Animation.FirstFrame | app.js:57-69 | From `time = 0`, playing, offsets 0.5, the constructor's frame gives `time = 0.001` and offsets `+0.001` and `-0.001`. |
| Animation.RunKeepsClock | app.js:262-288 | Over any run of `stop`, `play` and `render`, the offsets stay at `+time` and `-time`. `time` grows by exactly one step per frame drawn, and `play` while playing or `render` while stopped draws no frame. |
| Animation.TicksFromInitial | app.js:273-288 | After `n >= 1` frames from the initial state, `time` is `n * 0.001` and the offsets are `+n * 0.001` and `-n * 0.001`. |
| Animation.Sketch.constructor | app.js:22-74 | A new sketch is playing and has drawn one frame from the initial state. Its textures are configured as above. It satisfies the object invariant: both offsets exist and show `+time` and `-time`. |
| Animation.Sketch.Stop | app.js:262-264 | Clears `isPlaying`, changes nothing else and keeps the object invariant. |
| Animation.Sketch.Play | app.js:266-271 | Updates the object exactly as the `play` specification says: nothing when playing, otherwise the flag is set and one frame is drawn. It keeps the object invariant. |
| Animation.Sketch.Render | app.js:273-293 | The loop over the materials leaves the object in exactly the state the `render` specification gives. It keeps the object invariant, and it establishes the invariant whenever it draws a frame. |

## Left out

- Curve construction (`CatmullRomCurve3`, `getPoints`, `getSpacedPoints`, `computeFrenetFrames`): this is library code that is not shown. Its outputs are inputs here, and nothing is claimed about frame orthonormality or curve closure.
- Control-point generation (app.js:170-182): it uses `Math.random` and floating-point trigonometry.
- `PlaneGeometry` and `setFromPoints` are library code. Their vertex count `(w + 1) * (h + 1)` and index count `6 * w * h` are stated as functions, and vertex positions are not modelled beyond the buffer passed in.
- Renderer, camera, `OrbitControls`, resize handling, GLTF/DRACO loaders, lights, the GUI `settings()`, the unused sphere mesh and the debug curve line: these are I/O and rendering plumbing.
- `requestAnimationFrame` re-scheduling (app.js:292): this is scheduler behaviour, and one `render` call is one frame. A `stop` followed by `play` within one frame can leave two callback chains, and the model does not capture this.
- Floating-point rounding: vectors, offsets and `time` are exact reals.
- Material properties other than the texture offset (side, roughness, metalness, alphaTest): `render` never touches them.
