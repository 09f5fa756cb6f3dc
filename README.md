# Progressive image truncation demo — Dafny model

This project models the two stateful pieces of a browser demo that shows how
images look when only their first bytes are available:

- **`DataProgressBar`** (`src/progress.ts`): a play/pause button and a slider
  holding the global truncation offset. Images report their sizes with
  `SET_MAX_PROGRESS`, and the slider's maximum grows to the largest one.
  Pressing play steps the offset by `max/30`, clamped to `max`, every 100 ms,
  and dispatches `SET_PROGRESS` after each step. Playing while already at the
  maximum first restarts from 0. Dragging the slider stops the animation and
  dispatches the dragged value.
- **`ImageThrottler`** (`src/throttler.ts`): an image panel. Once loaded with
  a non-zero size it fetches its bytes, stores them and announces their
  length. On every `SET_PROGRESS` it clamps the offset to its own length.
  When the clamped count changed, it shows the first bytes as a
  `data:image/whatever;base64,` URL.

Modules:

- `Common`: `Option`, `Min`, `Max`.
- `Events`: the two event kinds. Dispatching is modelled as appending to a
  ghost `log` on the dispatching object.
- `Base64`: `window.btoa` as the base64 encoding of section 4 of RFC 4648.
  The model includes the InvalidCharacterError case, for a character above
  U+00FF, as `None`. It also has a reference decoder with the round trip
  `Decode(Encode(s)) == Some(s)`.
- `Progress`: the step function, the run of offsets it produces, the
  maximum fold, and the class `DataProgressBar`.
- `Throttler`: `arrayBufferToBase64` as a loop proved against
  `BinaryString` and `Btoa`, and the class `ImageThrottler`.
- `Framework`: the page's three images (699144, 460047 and 426041 bytes)
  as an end-to-end scenario.

The asynchronous click handler is split at its awaits. `Click` is the part
that runs before the first 100 ms wait. `Tick` is one resumption after a
timer: the loop test, then either one step and a new wait, or the end of
the loop. The field `suspended` records that a handler is waiting on its
timer. `RunUninterrupted` drives `Click` and then `Tick` until the handler
finishes. It proves that the loop terminates, ends idle at the maximum, and
dispatches exactly `PlayRun(value, max)`.

Consequences of the code that are easy to miss:

- A play run from 0 takes 30 steps only when `max` is a multiple of 30.
  Otherwise it takes 31: for 699144 the step is 23304, 30 steps reach
  699120, and a 31st, clamped step reaches 699144 (`RestartRunLength`,
  `DemoOffsets`).
- Pressing play below the maximum dispatches no `SET_PROGRESS(0)`. The
  first dispatched offset is already one step up. Only a restart from the
  maximum dispatches 0 first (`PlayRun`).
- A negative offset is not clamped to 0 by the panel. The model takes
  offsets as `nat`, as the slider's `min="0"` guarantees.
- `initialize` runs on every load event of the panel's `img`, including
  the load after a re-render. Each such run stores the freshly fetched
  buffer and announces it again, but keeps `numBytes`. The model does the
  same (`Initialize`). So it does not claim that the shown bytes are a
  prefix of the current buffer. It claims they are the bytes behind `src`.

## Model

| member | source | states |
|---|---|---|
| `Progress.Step` | src/progress.ts:64-67 | from a value at most max, a step stays between the value and max; with max >= 30 it strictly increases a value below max; an unclamped result is exactly value + max/30 |
| `Progress.StepsFrom` | src/progress.ts:63-71 | the offsets an uninterrupted loop dispatches: empty exactly when value == max, strictly increasing, all above the start and at most max, the last one equal to max |
| `Progress.StepsFromAt` | src/progress.ts:64-68 | the k-th dispatched offset is min(value + (k+1)*(max/30), max) |
| `Progress.StepsFromCount` | src/progress.ts:62-68 | the number n of steps is the least one covering the distance: (n-1)*(max/30) < max - value <= n*(max/30) |
| `Progress.RestartRunLength` | src/progress.ts:56-71 | from 0 with any maximum >= 65536 the loop takes exactly 30 steps when max is a multiple of 30 and 31 otherwise |
| `Progress.MaxOf` | src/progress.ts:38-39 | the folded maximum is at least the initial 65536 and every reported size, and equals one of them |
| `Progress.PlayRun` | src/progress.ts:48-75 | what one press of play dispatches: non-empty, strictly increasing, ending at max; starting with 0 exactly on a restart, above the old value otherwise |
| `Progress.DataProgressBar.constructor` | src/progress.ts:93-96 | value 0, max 65536, autoProgress false, no handler waiting, nothing dispatched |
| `Progress.DataProgressBar.SetMax` | src/progress.ts:38-41 | max becomes max(old max, n), so it never decreases and stays the maximum of 65536 and every reported size; nothing else changes and nothing is dispatched |
| `Progress.DataProgressBar.Click` | src/progress.ts:48-70 | while playing: the flag clears, with no value change and no dispatch; idle at max: value 0 and SET_PROGRESS(0) logged, then a wait; idle below max: one step, its value logged, then a wait |
| `Progress.DataProgressBar.Tick` | src/progress.ts:63-74 | after a wait: if still playing and below max, one step with exactly the new value logged; otherwise the loop ends, flag and handler cleared, value and log unchanged |
| `Progress.DataProgressBar.SliderInput` | src/progress.ts:78-82 | value becomes the dragged v, autoProgress clears (so the next Tick ends the loop without dispatching), SET_PROGRESS(v) logged |
| `Progress.DataProgressBar.RunUninterrupted` | src/progress.ts:48-75 | a press of play followed only by timer ticks terminates, idle, with value == max, having logged exactly PlayRun(old value, max) |
| `Base64.Encode` | src/throttler.ts:130 | output length 4*ceil(n/3), every character from the RFC 4648 alphabet or the pad |
| `Base64.DecodeEncode` | src/throttler.ts:130 | decoding the encoding of any octet sequence gives it back |
| `Base64.Btoa` | src/throttler.ts:130 | succeeds exactly on strings whose codes are all below 256, and its output decodes to those codes |
| `Throttler.BinaryString` | src/throttler.ts:127-129 | one character per octet, character i having code bytes[i] |
| `Throttler.BtoaOfBinaryString` | src/throttler.ts:128-130 | btoa accepts the binary string of any octets and yields their base64 encoding |
| `Throttler.PrefixLength` | src/throttler.ts:126 | the copied length is at most the buffer length, equals maxNumBytes when that is in range, the whole buffer when it is larger, and 0 when it is negative |
| `Throttler.ArrayBufferToBase64` | src/throttler.ts:123-131 | the loop builds exactly the binary string of the first max(0, min(length, maxNumBytes)) octets, and the result is btoa of it, which decodes back to that prefix |
| `Throttler.DataUrl` | src/throttler.ts:45-47 | the source starts with the data-URL prefix and its payload decodes to exactly the shown octets |
| `Throttler.ImageThrottler.constructor` | src/throttler.ts:28-31 | no buffer, width, height and numBytes 0, the source is the image URL, nothing dispatched |
| `Throttler.ImageThrottler.Initialize` | src/throttler.ts:58-70 | width and height are recorded; a zero dimension or a failed fetch stores nothing and dispatches nothing; otherwise the buffer is stored and SET_MAX_PROGRESS(byte length) logged; numBytes and the source are untouched |
| `Throttler.ImageThrottler.OnSetProgress` | src/throttler.ts:36-55 | without a buffer nothing changes; with one, numBytes == min(n, byte length); if that equals the old count the source is untouched, otherwise the source shows exactly the first numBytes octets |
| `Framework.DemoMax` | src/framework.ts:27-31 | after the three sizes are reported the maximum is 699144 |
| `Framework.DemoOffsets` | src/framework.ts:27 | from 0 with maximum 699144 play dispatches 31 offsets, the k-th being (k+1)*23304 for k < 30 and 699144 last |
| `Framework.DemoJpgSaturates` | src/framework.ts:28 | the 460047-byte panel's clamped count follows the offsets for the first 19 and stays at 460047 from the 20th on |
| `Framework.JpgCounts` | src/throttler.ts:38-43 | clamping each of the 31 offsets to 460047 gives that same saturating sequence |
| `Framework.ShowsCount` | src/throttler.ts:44-47 | a valid panel whose shown octets are a prefix of its buffer shows exactly its first numBytes octets, and its source is the data URL of them |
| `Framework.DeliverToAll` | src/throttler.ts:36-47 | one offset n reaches the three panels: each keeps its buffer, log and size, has numBytes == min(n, its length), and shows either that count or what it showed before |
| `Framework.Broadcast` | src/throttler.ts:36-47 | delivering offsets to three panels leaves each with its buffer, log, width and height, and with min(last offset, its length) as count; each either shows a prefix of its buffer or keeps its old count, source and display; the second panel's count after each offset is min(offset, its length) |
| `Framework.LoadDemo` | src/framework.ts:24-43 | three panels load their images and announce their exact sizes; each still has count 0 and its image URL as source; the bar, still idle at 0, ends with maximum 699144 |
| `Framework.PlayDemo` | src/framework.ts:24-43 | end to end: maximum 699144 after loading, the JPG panel's counts over one play run saturate at 460047 from the 20th offset, the final counts are the three file sizes, and each panel's final source is the data URL of its whole image |

## Left out

- `src/events.ts`: the window event bus is not modelled. A dispatch is an append to the dispatching object's ghost `log`, and `Framework.Broadcast` delivers offsets to the panels explicitly. Listener registration in `connectedCallback` is not modelled, and neither is its removal, which the code never does.
- The `SET_PROGRESS` listener of the progress bar (src/progress.ts:42-44) only writes the `#numBytes` text. It is DOM output. `DataProgressBar.Valid` states instead that the last logged offset equals the slider's value.
- DOM and styling: `textContent`, the button icon, templates and CSS.
- Real time: `setTimeout` is not modelled. Each `Tick` is one timer firing.
- Click: requires `autoProgress || !suspended`. Pressing play again while an earlier handler still waits on its timer (play, pause, play within 100 ms) starts a second, overlapping loop. That asynchronous interleaving is not modelled.
- Initialize: the fetch (`imageUrlToArrayBuffer`: fetch, Blob, FileReader) is network I/O. Its outcome is the `fetched` parameter, `None` for a failure. The await between reading the size and storing the buffer is taken as one step. The SET_PROGRESS listener reads neither `width` nor `height`, so an event arriving during the fetch sees the same state either way.
- Floating point: `max / 30` and `Math.floor` are modelled with integer division, which gives the same value for integer operands. Payloads are integers.
- OnSetProgress: takes `n >= 0`. The code does not clamp a negative offset, and the slider never produces one.
- SliderInput: takes `v <= max`, the slider's range. Moving `max` is done only through `SetMax`.
- `Base64.Decode` is a reference for the round trip. It is not the browser's `atob`, which is not used by the source and is more lenient.
- `src/framework.ts` is Lit composition. Only its three image sizes and URLs appear, in `Framework`.
