# Old-photo restoration client: edit session, requests, compare slider and backend dispatch

This project models the client-side edit-session engine of the Old-Photo-Restoration web app, plus the operation
dispatch of its Python backend.

The client (`frontend/main.js`) keeps the following page-wide state:
- the original upload and its object URL;
- a linear history of result blobs, each with its own object URL and a caption;
- a cursor into that history (`currentIndex`, -1 when the history is empty);
- the object URL currently shown as the result.

The undo, reset and thumbnail handlers move the cursor. Choosing a new file clears the session. The restore and apply
buttons send one multipart request to `/api/restore` and push the returned blob.

The model has five modules:

- `EditSession` gives each handler as a transition on a `Session` value (`Push`, `Undo`, `Reset`, `Jump`,
  `SelectFile`, `Completed`). It also defines a trace semantics (`Step`, `Run`). The class `PageSession` holds the
  same state in fields, and each of its methods is proved to perform the matching transition.
  - Browser object URLs are numbered tokens from a counter (`issued`). Revoking a URL records it in the set `revoked`.
  - Each async handler is split at its `await` into two atomic steps: `Prepare*` builds the request, and
    `ReceiveResponse` consumes the response. Any other event may run between the two. As in the code, nothing ties a
    response to the session that sent its request.
- `RestoreClient` models request composition:
  - the active preset's defaults;
  - the parameter object the apply handler fills for the selected operation;
  - the ordered form of `callRestoreAPI`, built entry by entry in a loop;
  - how a response becomes a blob or an error message.
- `Compare` models the comparison slider:
  - the dragging flag and the current percentage from `initSlider`'s closure;
  - the two style values its handlers write, with exact `real` arithmetic.
  Mouse and touch handlers behave the same, so they are modelled once, as pointer events.
- `RestorePipeline` models `restore_old_photo` in `backend/restore_pipeline.py`. The result is a `Transform` value
  that names the chosen transform and its resolved parameters, including the kernel sizes `op_unsharp` and
  `op_bilateral` compute.
- `Wrappers` holds `Option` and `Result`.

Some behaviours of the code that the model follows:
- The history is never truncated. A result pushed after undo or reset is appended at the end.
- When a new file is chosen, only the previous original's URL is revoked. The URLs of the discarded history entries
  are not revoked (`SelectFile`).
- There is no stale-response guard. A response that arrives after a new file was chosen is still pushed.
- `resetSlider` resets only the two slider styles. The closure's `currentPercent` keeps its old value (`ResetStyles`).
- The callers never set the `h`, `clahe` or `sharp` options, so those three form fields always carry preset values.
  Some operations send a parameter under one of those three names, so their form carries that name twice, with the
  preset's value first and the slider's second:
  - `denoise` sends `h` twice;
  - `clahe` sends `clahe` twice;
  - `unsharp` and `sharpen` send `sharp` twice.
- The client never sends the unsharp radius. Were the form's fields forwarded, `op_unsharp` would use its default
  radius, 1.5.
- `backend/app.py` calls `restore_old_photo` without the operation or its parameters. So the client and backend models
  are separate and are not composed.

## Model

| member | source | states |
|---|---|---|
| `RestoreClient.OrDefault` | frontend/main.js:255-257 | `a \|\| b` on possibly-null strings: the value when it is non-empty, else the fallback; the result is never empty |
| `RestoreClient.ActivePresetValues` | frontend/main.js:136-143 | each preset value comes from the active preset when it is a non-empty string, else it is "10", "2.0" or "1.0"; none is empty |
| `RestoreClient.FileToSend` | frontend/main.js:245-248 | a File is sent as it is; a blob is wrapped as `input.png` of type `image/png`; the bytes are always the payload's |
| `RestoreClient.NonNullParams` | frontend/main.js:260-264 | the parameter entries are text parts, and there are no more of them than there are parameters |
| `RestoreClient.NonNullParamsExact` | frontend/main.js:260-264 | a text part `(k, v)` is sent exactly when the parameter map holds `k` with the non-null value `v` (both directions) |
| `RestoreClient.FormLayout` | frontend/main.js:252-264 | every form starts with `file`, `h`, `clahe` and `sharp`; each of the last three is the option when it is non-empty, else the active preset's value, else "10", "2.0" or "1.0", and is never empty; then `op` when it is set; after that, exactly the non-null parameters |
| `RestoreClient.ComposeForm` | frontend/main.js:242-264 | the loop of appends builds exactly the ordered form described by `FormFields` |
| `RestoreClient.ParamsFor` | frontend/main.js:402-414 | the parameter map holds exactly the selected operation's keys, in order, each with the value of its control (`sharp`: the strength slider, else the amount slider) |
| `RestoreClient.ParamsOnlyForSelectedOp` | frontend/main.js:395-414 | a key appears only for the operation that declares it, so no parameter of a previously selected operation leaks into a request |
| `RestoreClient.BuildParams` | frontend/main.js:395-414 | the object filled field by field equals `ParamsFor(op, controls)` |
| `RestoreClient.CallOutcome` | frontend/main.js:273-279 | only a 2xx response yields a blob (its body); a non-2xx response fails with its body text, or "Server error" when the body is empty; a rejected fetch fails with its own message |
| `Compare.Clamp` | frontend/main.js:477-480 | the applied percent lies in [0,100]; in-range values are kept; values below are 0 and values above are 100 |
| `Compare.PercentAt` | frontend/main.js:486-492 | for a positive width: 0 left of the area, 100 right of it, and the proportional offset inside it; the result is always in [0,100] |
| `Compare.PercentMonotone` | frontend/main.js:486-492 | moving the pointer right never moves the split left |
| `Compare.Applied` | frontend/main.js:477-484 | the clamped percent becomes current and sets the slider position; the right inset is 100 minus it |
| `Compare.Pointed` | frontend/main.js:486-494 | a zero-width area changes nothing; otherwise the percent for that position is applied |
| `Compare.OnEvent` | frontend/main.js:497-529 | a press sets dragging; a release clears only the flag; a move while idle changes nothing; a press, an area click or a move while dragging sets the percent and the slider position from the pointer (`PercentAt`), except over a zero-width area, which keeps both; the style reset returns the slider to 50 and keeps the percent |
| `Compare.Replay` | frontend/main.js:497-529 | any sequence of slider events keeps the percentages in range and the inset consistent |
| `Compare.IdleIgnoresMoves` | frontend/main.js:502-505 | while not dragging, any run of pointer moves leaves the slider unchanged |
| `Compare.ReleasedStaysIdle` | frontend/main.js:507-529 | after a release, dragging stays off until the next press on the handle |
| `Compare.CompareSlider.constructor` | frontend/main.js:474-534 | the slider starts idle at 50%, which is also where the `load` handler places it |
| `Compare.CompareSlider.ApplyPercent` | frontend/main.js:477-484 | performs `Applied` on the fields |
| `Compare.CompareSlider.UpdateFromClientX` | frontend/main.js:486-494 | performs `Pointed` on the fields |
| `Compare.CompareSlider.PointerDown` | frontend/main.js:497-500 | mousedown or touchstart: sets dragging, then updates from the position |
| `Compare.CompareSlider.PointerMove` | frontend/main.js:502-505 | mousemove or touchmove: updates only while dragging |
| `Compare.CompareSlider.PointerUp` | frontend/main.js:507-509 | mouseup or touchend: clears dragging |
| `Compare.CompareSlider.AreaClick` | frontend/main.js:512-514 | a click in the area moves the split without touching the flag |
| `Compare.CompareSlider.ResetStyles` | frontend/main.js:189-193 | `resetSlider`: both styles return to 50%; the percent and the flag are unchanged |
| `EditSession.ShownURLIsLive` | frontend/main.js:39-44 | the result URL on display is always a URL in use that has not been revoked |
| `EditSession.Push` | frontend/main.js:82-90 | the length grows by exactly 1; earlier entries are unchanged; the cursor is length − 1; the new entry has a fresh URL, which becomes the shown URL |
| `EditSession.Undo` | frontend/main.js:436-444 | nothing happens when the cursor is ≤ 0; otherwise the cursor decreases by exactly 1, the history is untouched, and the shown URL is `history[currentIndex].url` |
| `EditSession.Reset` | frontend/main.js:446-461 | on an empty history the cursor stays −1 and the original's URL is shown if there is one; otherwise the cursor goes to 0, nothing is truncated, and the first entry is shown |
| `EditSession.Jump` | frontend/main.js:122-128 | a thumbnail click moves the cursor to that entry and shows its URL; the history is unchanged |
| `EditSession.SelectFile` | frontend/main.js:146-187 | no file changes nothing; otherwise the previous original URL is revoked and replaced by a fresh one, and the session ends with an empty history, cursor −1 and no shown URL |
| `EditSession.Completed` | frontend/main.js:283-433 | a successful response pushes its blob; any failure leaves history, cursor and URLs unchanged |
| `EditSession.Step` | frontend/main.js:122-461 | every handler keeps the session invariants: cursor in range, URLs created and distinct, shown URL consistent |
| `EditSession.Run` | frontend/main.js:39-44 | any sequence of intents from a consistent session keeps the invariants |
| `EditSession.HistoryOnlyGrows` | frontend/main.js:82-90 | until a new file is chosen, earlier entries are never removed or rewritten, and the history grows by exactly the number of successful responses |
| `EditSession.ResetThenPushExtends` | frontend/main.js:446-461 | after a reset, the next result lands at index `length`, and the forward entries are kept |
| `EditSession.ButtonsFor` | frontend/main.js:92-95 | undo is disabled iff the cursor is ≤ 0, iff undo would do nothing; reset is disabled iff the length is ≤ 1, and then reset leaves a non-empty session unchanged; undo enabled implies reset enabled |
| `EditSession.ApplyBase` | frontend/main.js:385-393 | no base when there is neither a file nor a history; otherwise the cursor's blob when the history is non-empty, else the original file |
| `EditSession.RestoreRequest` | frontend/main.js:283-296 | no request without an original file; otherwise exactly four fields: the original file and the preset's h, clahe and sharp, with no op |
| `EditSession.ApplyRequest` | frontend/main.js:384-420 | no request iff there is no file and no history; otherwise the form for the base image, the operation and that operation's parameters |
| `EditSession.RestoreApplyUndoScenario` | frontend/main.js:82-95 | load, restore, apply, undo: history `[B]` at 0 with both buttons disabled, then `[B, C]` at 1 with both enabled, then the cursor back at 0 showing B |
| `EditSession.PageSession.constructor` | frontend/main.js:39-44 | the page starts with no file, an empty history, cursor −1 and no URL |
| `EditSession.PageSession.CreateObjectURL` | frontend/main.js:83 | hands out a URL never handed out before |
| `EditSession.PageSession.RevokeObjectURL` | frontend/main.js:157 | records the URL as revoked |
| `EditSession.PageSession.PushHistory` | frontend/main.js:82-90 | performs `Push` on the fields and returns the new URL |
| `EditSession.PageSession.UpdateUndoResetButtons` | frontend/main.js:92-95 | returns the two disabled flags given by `ButtonsFor` |
| `EditSession.PageSession.HandleFileSelected` | frontend/main.js:146-187 | performs `SelectFile`, and resets the slider's styles when a file is given |
| `EditSession.PageSession.PrepareRestore` | frontend/main.js:283-296 | builds the request given by `RestoreRequest` and changes nothing |
| `EditSession.PageSession.PrepareApply` | frontend/main.js:384-420 | builds the request given by `ApplyRequest` and changes nothing |
| `EditSession.PageSession.ReceiveResponse` | frontend/main.js:295-323 | performs `Completed`; an error is returned exactly when the response is not 2xx, with the message `CallOutcome` gives |
| `EditSession.PageSession.UndoClick` | frontend/main.js:436-444 | performs `Undo` on the fields |
| `EditSession.PageSession.ResetClick` | frontend/main.js:446-461 | performs `Reset` on the fields |
| `EditSession.PageSession.ThumbnailClick` | frontend/main.js:122-128 | performs `Jump` on the fields |
| `RestorePipeline.Trunc` | backend/restore_pipeline.py:103 | Python's `int()` on a float truncates toward zero: a non-negative value lands in `[n, n+1)` with `n >= 0`, a negative one in `(n-1, n]` with `n <= 0` |
| `RestorePipeline.BilateralDiameter` | backend/restore_pipeline.py:79 | the diameter is odd, at least 5, and is the least odd integer not below `max(5, floor(2·sigmaSpace/5))` |
| `RestorePipeline.UnsharpRadius` | backend/restore_pipeline.py:101-102 | a radius below 0.5 becomes exactly 0.5; any other radius is kept |
| `RestorePipeline.UnsharpKernelSize` | backend/restore_pipeline.py:103-105 | ksize is odd, at least 3, at most one more than `int(4·radius + 1)`, and larger than four radii |
| `RestorePipeline.RestoreOldPhoto` | backend/restore_pipeline.py:146-208 | the classical pipeline with the given h, clahe_clip and sharp_amount runs exactly when the op is absent, "", "pipeline" or unknown; otherwise the op's own transform runs; every kernel size is odd and is the one computed from the resolved sigmaSpace or radius |
| `RestorePipeline.AbsentParamsAreEmpty` | backend/restore_pipeline.py:162-163 | `params=None` behaves as an empty map |
| `RestorePipeline.OnlyReadKeysMatter` | backend/restore_pipeline.py:171-204 | two parameter maps that agree on the keys an op reads give the same transform |
| `RestorePipeline.DefaultsForMissingKeys` | backend/restore_pipeline.py:173-204 | a key missing from params takes its default whatever else the map holds: denoise uses h, clahe uses clahe_clip, unsharp and sharpen use sharp_amount, bilateral gets sigmas 75 and 25 (diameter 11), unsharp gets radius 1.5 (ksize 7), brightness gets 0 and contrast 1 |
| `RestorePipeline.ParamsOverrideDefaults` | backend/restore_pipeline.py:173-204 | a value present in params wins over its default: `h`, `clahe`, `sharp`, `radius`, `sigmaColor`, `sigmaSpace`, `brightness`, `contrast` |

## Left out

- DOM and presentation are not modelled. This covers element lookups, status and progress text, `alert`, the
  intermediate grid's DOM, the image `src` attributes, the download and open buttons, and the drag/drop and
  file-picker listeners. Only the cursor effect of a thumbnail click is modelled.
- The `fetch` call itself is not modelled. Its outcome is the input `Response`; `res.blob()` and `res.text()` are its
  payloads.
- `URL.createObjectURL` and `URL.revokeObjectURL` are browser calls. They are modelled as a token counter and a
  revoked set.
- `formatBytes` and `updateMetaInfo` are floating-point formatting for display.
- `renderOpParams` only builds the slider DOM. The controls it creates become the `Controls` input map.
- The pixel work is not modelled: `grayworld_whitebalance`, `classical_pipeline`, and the bodies of the `op_*`
  transforms (OpenCV calls, float kernels). Only the integer kernel sizes are modelled.
- `backend/app.py` (Flask routing, file saving, image decoding and encoding) is I/O plumbing and is not part of this
  model.
- RestorePipeline.RestoreOldPhoto: Python floats are modelled as exact reals. NaN, infinities and rounding of `//` and
  `int()` on floats are not modelled, and neither is the conversion of parameter values with `float()`.
- RestorePipeline.BilateralDiameter: oddness holds only under exact reals; in Python the `+ 1` at restore_pipeline.py:79 is a float addition, so for a very large `sigma_space` (around 1e17) it rounds away and the diameter comes out even. No caller reaches this: `backend/app.py` forwards no parameters, and the interface's slider for it spans 5 to 50.
- Compare.PercentAt: browser numbers are modelled as exact reals. NaN and rounding are not modelled.
- EditSession.Jump: an index outside the history is treated as no click. The grid is rebuilt on every history
  change, so its captured indices always exist. `EditSession.PageSession.ThumbnailClick` requires such an index for
  the same reason.
- EditSession.Step: a response may arrive without a request having been prepared. This is a harmless
  over-approximation of the two handlers.
