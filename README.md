# Video editor: preview worker, volume controls and edit requests

A model of the logic of a small desktop video editor. The editor trims,
resizes, re-encodes and changes the volume of a video file by calling a
media library. Three pieces of it have behaviour that can be stated, and
this model covers them:

- **Preview worker** (`Preview`, from preview.py). `FrameGrab` holds three
  fields: `running`, `timer` and `duration`. `play`, `pause`, `stop`,
  `update_start` and `update_end` change them. Its `run` loop grabs the frame
  at `timer` and moves `timer` on by `1/fps` until `timer >= duration`.
  `VideoPreviewWidget.update_frame` computes the row stride
  `bytes_per_line` of a decoded frame.
- **Volume controls** (`Volume`, from main.py). A slider and a text field
  are kept in step. Digit text is read into the slider and clamped into the
  slider's range. The slider's value is written back as text. An `updating`
  flag stops the two slots from re-entering each other.
- **Edit requests** (`MainEdit` from main.py, `TestEdit` from test.py).
  These cover validating the form and choosing the subclip. They also cover
  choosing the resize and the bitrate argument, and deriving the output
  name. The media library calls are returned as a plan (`MainEdit`) or as
  the ordered list of library operations (`TestEdit`).

`Text` models the ASCII part of Python's `isdigit`, `int()`, `float()`,
`str()` and `removesuffix`. `Wrappers` holds `Option`.

Time is a Dafny `real` in seconds, so `1/fps` is exact. A grabbed frame is
represented by the timestamp it was requested at.

The volume slots are modelled together with the Qt signals that connect
them:
1. `setValue` emits `valueChanged` when the value changes.
2. That runs `update_volume_lcd`, which sets the text.
3. `setText` emits `textChanged` when the text changes.
4. That runs `update_volume_slider`, where the re-entrant call does nothing.

So text typed within range is rewritten to its plain decimal form when the
slider moves. For example, typing `007` with the slider at 5 leaves `7`.
The four methods are mutually recursive. Termination is ordered by the
`updating` flag first and by the position in that cycle second.

## Model

| member | source | states |
|---|---|---|
| `Text.NatToString` | main.py:88 | `str(n)` of a non-negative number is a non-empty digit string with no leading zero |
| `Text.IntToString` | main.py:179 | `str(i)` is made of digits exactly when `i >= 0` and starts with `-` exactly when `i < 0` |
| `Text.LeadingNonzero` | main.py:95 | digit text not starting with `0` has a value of at least 1 |
| `Text.CanonicalDigits` | main.py:95 | digit text in plain decimal form is exactly `str` of its `int` value |
| `Text.NatToStringRoundTrip` | main.py:94-95 | `int(str(n)) == n`: the digits the slider slot writes read back as the same number |
| `Text.IntToStringRoundTrip` | main.py:179 | `int(str(i)) == i` for every integer, negative ones included |
| `Text.ParseIntOfDigits` | main.py:94-95 | text that passes `isdigit` is accepted by `int()` with its decimal value |
| `Text.ParseFloatExtendsParseInt` | test.py:97 | any text `int()` accepts, `float()` accepts with the same value |
| `Text.IsDigits` | main.py:94 | `isdigit` on ASCII text: non-empty, all digits; its contract is carried by `Text.ParseIntOfDigits` and `Text.NatToString` |
| `Text.ParseInt` | main.py:144 | `int()` on an optional sign and digits; its contract is carried by `Text.IntToStringRoundTrip` and `Text.ParseIntOfDigits` |
| `Text.ParseFloat` | test.py:97 | `float()` on an optional sign and a decimal; its contract is carried by `Text.ParseFloatExtendsParseInt` |
| `Text.IndexOf` | test.py:97 | the first position of a character, or the length when it is absent |
| `Text.RemoveSuffix` | main.py:175 | `removesuffix` takes off one trailing copy of the suffix when present and changes nothing otherwise |
| `Preview.BytesPerLine` | preview.py:18-19 | the row stride of a `(height, width, channels)` frame; its contract is carried by `Preview.PixelInRow` |
| `Preview.PixelInRow` | preview.py:17-20 | with rows `channels * width` bytes apart, each sample of row `y` lies in that row's slice, and `height` rows hold exactly `height * width * channels` bytes |
| `Preview.FrameInterval` | preview.py:48-49 | the frame interval is positive and is the reciprocal of the frame rate |
| `Preview.FrameCountExact` | preview.py:50-55 | from `timer`, the loop emits exactly as many frames as there are points `timer + k/fps` below `duration`: 0 when `timer >= duration`, otherwise ceil((duration - timer) * fps) |
| `Preview.StepCount` | preview.py:50-55 | one running iteration uses up exactly one of the remaining frames |
| `Preview.Ticks` | preview.py:50-55 | the emitted timestamps of a running loop number exactly `FrameCount` |
| `Preview.TickAt` | preview.py:52-55 | the `k`-th emitted timestamp is `timer + k/fps` |
| `Preview.TicksOrdered` | preview.py:50-55 | emitted timestamps strictly increase, start at `timer` and stay below `duration` |
| `Preview.FromStart` | preview.py:36-38 | a fresh worker left running emits 0, Δ, 2Δ, … and stops after ceil(duration/Δ) frames (none if `duration <= 0`) |
| `Preview.FrameGrab.constructor` | preview.py:33-38 | a new worker is running, at `timer = 0`, with `duration` the clip's duration |
| `Preview.FrameGrab.UpdateStart` | preview.py:40-42 | stops and then jumps `timer` to the given time, with no bounds check; `duration` is unchanged |
| `Preview.FrameGrab.UpdateEnd` | preview.py:44-45 | sets `duration` and leaves `running` and `timer` alone |
| `Preview.FrameGrab.Play` | preview.py:58-59 | sets `running` and leaves `timer` and `duration` alone |
| `Preview.FrameGrab.Pause` | preview.py:61-62 | clears `running` and leaves `timer` and `duration` alone |
| `Preview.FrameGrab.Stop` | preview.py:64-66 | from any state, clears `running` and resets `timer` to 0, with `duration` unchanged |
| `Preview.FrameGrab.Step` | preview.py:50-57 | one loop iteration. Past `duration` the loop exits. Running, it emits the frame at `timer` and adds exactly `1/fps`. Paused, it changes nothing |
| `Preview.FrameGrab.Run` | preview.py:47-57 | the loop emits exactly `Ticks(timer, duration, 1/fps)`, ends with `timer >= duration`, and moves `timer` by one interval per frame |
| `Volume.Clamp` | main.py:96-100 | the result lies in `[min, max]`; it is the value itself when in range and the nearest bound otherwise |
| `Volume.EditedSlider` | main.py:90-103 | the slider after the text is set, signal cycle included; `Volume.VolumeControl.UpdateVolumeSlider` is proved equal to it and `Volume.EditSyncs`, `Volume.EditIdempotent` carry its properties |
| `Volume.EditedText` | main.py:90-103 | the text after the text is set, signal cycle included; `Volume.VolumeControl.UpdateVolumeSlider` is proved equal to it and `Volume.EditSyncs`, `Volume.EditIdempotent` carry its properties |
| `Volume.EditSyncs` | main.py:90-103 | typed digits leave the slider in range and the text naming the slider's value; non-digit text (empty included) changes neither slider nor text |
| `Volume.CanonicalEditKept` | main.py:94-97 | a number typed in plain decimal form within range is kept as typed, and the slider takes exactly that value |
| `Volume.EditIdempotent` | main.py:90-103 | setting the text to what an edit left changes nothing further |
| `Volume.LcdRoundTrip` | main.py:87-88 | for `v >= 0` the text written by `update_volume_lcd` is all digits and parses back to `v` |
| `Volume.VolumeControl.constructor` | main.py:75-77 | the text starts as the slider's value and `updating` starts false |
| `Volume.VolumeControl.SetSliderValue` | main.py:84 | the slider takes the clamped value. If it changed, the connected slot rewrites the text to that value. The flag is kept |
| `Volume.VolumeControl.UpdateVolumeLcd` | main.py:87-88 | the text becomes `str(value)` and the slider is unchanged |
| `Volume.VolumeControl.SetText` | main.py:85 | new text runs `update_volume_slider`. When re-entered it does nothing further. Otherwise the result is `EditedText`/`EditedSlider` |
| `Volume.VolumeControl.UpdateVolumeSlider` | main.py:90-103 | a re-entrant call changes nothing. The outer call moves the slider to the clamped number. It rewrites the text to `str` of the new value when it clamps. It also rewrites in-range text whenever the slider moves, because `setValue` triggers `update_volume_lcd`: `007` typed with the slider at 5 becomes `7`. The flag ends as it began |
| `MainEdit.RunButtonClicked` | main.py:119-160 | `run_button_clicked` up to starting the worker: an abort reason or the job; its contract is carried by `MainEdit.ClickAborts` and `MainEdit.StartedJobFields` |
| `MainEdit.AbortMessage` | main.py:122-158 | the message printed for each abort reason; its contract is carried by `MainEdit.AbortMessagesDistinct` |
| `MainEdit.AbortMessagesDistinct` | main.py:122-158 | each abort reason prints its own message |
| `MainEdit.ClickAborts` | main.py:119-160 | the click aborts iff the input path is empty or a checked width/height is not an integer, with the reason of the first failure in that order. Start, end and bitrate text never decide it |
| `MainEdit.StartedJobFields` | main.py:127-160 | start and end text are taken unvalidated, width and height parsed, unchecked fields `None`. A parsable checked bitrate is kept as that number; an unparsable one leaves `new_bitrate` unbound |
| `MainEdit.SubclipChoice` | main.py:164-171 | the four-way subclip choice; its contract is carried by `MainEdit.SubclipKeepsBounds` |
| `MainEdit.SubclipKeepsBounds` | main.py:164-171 | the subclip keeps each set bound, defaulting to 0 and the clip's end. The clip stays whole iff no bound is set. Empty text counts as unset |
| `MainEdit.BitrateArgument` | main.py:176-179 | the `bitrate=` argument; its contract is carried by `MainEdit.BitrateArgumentRoundTrip` |
| `MainEdit.BitrateArgumentRoundTrip` | main.py:176-179 | a bitrate argument is passed iff the bitrate is non-zero. It is the number followed by `k` and parses back to it |
| `MainEdit.OutputName` | main.py:175-179 | the output path; its contract is carried by `MainEdit.OutputNameRecovers` |
| `MainEdit.OutputNameRecovers` | main.py:175-179 | the output ends in `-modified.mp4`, never equals the input, and gives back the input (with `.mp4` restored) once that suffix is removed |
| `MainEdit.ProcessVideo` | main.py:163-179 | `process_video`: the write plan, or `NameError` on an unbound bitrate; its contract is carried by `MainEdit.PlanOfJob` and `MainEdit.InvalidBitrateRaises` |
| `MainEdit.PlanOfJob` | main.py:163-179 | a job with a bound bitrate is written. The plan has the input as source, `(w, h)` as target resolution, the four-way subclip choice as trim, `libx264`/`aac` as codecs and the `Nk` bitrate argument. The volume factor is slider/100. No bitrate is passed iff it is `None` or 0 |
| `MainEdit.InvalidBitrateRaises` | main.py:154-158 | as written, a checked bitrate `"fast"` starts the worker, which then raises on the unbound `new_bitrate` |
| `MainEdit.RunButtonClickedFixed` | main.py:154-158 | the button with the missing `return` added; its contract is carried by `MainEdit.FixedNeverRaises` |
| `MainEdit.FixedNeverRaises` | main.py:154-158 | with the missing `return` added, every started job reaches the write. Other forms are handled as before |
| `TestEdit.FirstFailure` | test.py:95-118 | the first failing check's warning. `None` exactly when no check fails |
| `TestEdit.RunButtonClicked` | test.py:80-118 | `run_button_clicked` up to starting the worker: a warning or the job; its contract is carried by `TestEdit.ClickIsFirstFailure` and `TestEdit.StartedJobFields` |
| `TestEdit.WarningMessage` | test.py:84-118 | the message-box text for each warning; its contract is carried by `TestEdit.WarningMessagesDistinct` |
| `TestEdit.WarningMessagesDistinct` | test.py:84-118 | each warning shows its own text, so the message box names the field that failed |
| `TestEdit.ClickIsFirstFailure` | test.py:84-118 | the button warns with the first failure in the order paths, start, end, width, height, and starts the worker only when none fails |
| `TestEdit.StartedJobFields` | test.py:88-118 | a started job has `None` for each unchecked field and the parsed value of each checked one |
| `TestEdit.ResizeChoice` | test.py:130-135 | the four-way resize choice; its contract is carried by `TestEdit.ResizeKeepsDimensions` |
| `TestEdit.ResizeKeepsDimensions` | test.py:130-135 | the chosen resize fixes exactly the given dimensions, and none is chosen iff neither is given |
| `TestEdit.ProcessVideo` | test.py:120-138 | `process_video` as the ordered library operations; its contract is carried by `TestEdit.ProcessVideoOrder` |
| `TestEdit.ProcessVideoOrder` | test.py:120-138 | order is open, subclip, resize, then one write, with nothing else and no operation twice. Subclip comes iff a bound is set, with both bounds as given. Resize comes iff one is chosen |
| `TestEdit.Status` | test.py:140-143 | the reported status; its contract is carried by `TestEdit.StatusIdentifiesOutcome` |
| `TestEdit.StatusIdentifiesOutcome` | test.py:138-143 | failure reports are "An error occurred: " plus the error text, success reports are not, and distinct outcomes give distinct reports |

## Left out

- Qt widget plumbing is not modelled. This covers `.ui` loading, `findChild`, fonts, file dialogs (`select_input_file`), message boxes, signal connections other than the volume pair, and `QImage`/`QPixmap` rendering. They are UI I/O.
- Threads are not modelled: `QThread`, `VideoProcessingThread` and the `msleep` pacing. Only the sequential step semantics are.
- `closeEvent` (preview.py:24-27) is not modelled. It is widget teardown, and it refers to an attribute the widget never sets.
- The busy wait while paused (preview.py:56-57) is modelled only one iteration at a time, as `Step` returning `Idle`. Its ending, which needs another thread to change the state, is not modelled.
- `Step` is atomic, so a command arriving during the `msleep` of preview.py:54 is not modelled. In the source `timer += frame_interval` runs after that sleep, so a `stop()` or `update_start(t)` issued during it leaves `timer` at `frame_interval` or `t + frame_interval`, not at `0` or `t`.
- Preview.FrameGrab.Run: requires `running || timer >= duration`. Without another thread, a paused loop never ends. `Step` models one paused iteration.
- Preview.FrameGrab.Step: requires `fps > 0`. With a zero frame rate, `1 / fps` raises.
- Preview.FrameGrab.Run: requires `fps > 0`, for the same reason.
- Floating point is not modelled. `1 / fps`, `timer += frame_interval` and `slider / 100` are exact reals, and the sleep length `int(frame_interval * 1000)` is dropped.
- Media library calls are not modelled: `VideoFileClip`, `get_frame`, `subclip`, `resize`, `fx(afx.volumex)` and `write_videofile`. They stand as timestamps, a `Plan` or an `Op` list. Library failures appear only as the error text given to `TestEdit.Status`. In main.py they would end the worker thread and are not modelled.
- Looping playback, debounced seeking and start/end range checks are not modelled. preview.py has none of them.
- Python's `int()` and `float()` are modelled on ASCII only: an optional sign, then digits (for `float()`, with one optional decimal point). Whitespace, underscores, non-ASCII digits, exponents, `inf` and `nan` are not modelled. `isdigit` is modelled on ASCII digits only.
- The `try`/`except ValueError` around the start and end text (main.py:133-141) is not modelled. Reading a text field cannot raise there.
- The unused module-level `updating = False` (main.py:25) is not modelled.
- Console prints on a path that does not abort are not modelled. The "Invalid bitrate." message of main.py:158 is printed while the click still starts the worker; `MainEdit.AbortMessage(InvalidBitrate)` is produced only by `MainEdit.RunButtonClickedFixed`.
- Volume.EditSyncs: "text and slider in step" is promised only when the slider's maximum is at least 0. Below that, the clamped value is negative and its text is not a digit string.
- Volume.VolumeControl.SetSliderValue: assumes Qt emits `valueChanged` only on a real change.
- Volume.VolumeControl.SetText: assumes Qt emits `textChanged` only on a real change.

## Findings

| source | as written | input that shows it | evidently intended | confidence | as-written member | corrected member |
|---|---|---|---|---|---|---|
| main.py:154-158 | an unparsable checked bitrate only prints "Invalid bitrate." and falls through, leaving `new_bitrate` unassigned; the worker then raises `NameError` at main.py:176 and writes nothing | input `clip.mp4`, bitrate box checked with text `fast` | abort with the message, as the width and height branches do with `return` | medium; not executed | `MainEdit.InvalidBitrateRaises` | `MainEdit.FixedNeverRaises` |
