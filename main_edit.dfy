/**
 * The "run" button of the editor window (main.py): reading the form into an
 * edit job, then the decisions the worker makes before handing the job to
 * the video library. The library calls themselves are represented by the
 * plan they would be given.
 */
module MainEdit {
  import opened Wrappers
  import opened Text

  /** The form as the window shows it: input path, check boxes and their text fields. */
  datatype Form = Form(
    inputFile: string,
    startChecked: bool, startText: string,
    endChecked: bool, endText: string,
    widthChecked: bool, widthText: string,
    heightChecked: bool, heightText: string,
    bitrateChecked: bool, bitrateText: string)

  datatype Abort = NoInputFile | InvalidWidth | InvalidHeight | InvalidBitrate

  /**
   * The local `new_bitrate`: `None`, a parsed number, or never assigned
   * (the bitrate box is checked but its text is not a number).
   */
  datatype BitrateBinding = NoBitrate | Kbps(kbps: int) | Unbound

  /** The values the worker closes over. */
  datatype Job = Job(
    inputFile: string,
    clipBegin: Option<string>, clipEnd: Option<string>,
    width: Option<int>, height: Option<int>,
    bitrate: BitrateBinding)

  datatype Click = Aborted(reason: Abort) | Started(job: Job)

  /** A subclip bound: the literal `0` or a time string handed to the library. */
  datatype TimeArg = ZeroSeconds | TimeText(text: string)

  /** `subclip(begin)` runs to the end of the clip; `subclip(begin, end)` stops at `end`. */
  datatype Trim = WholeClip | Subclip(begin: TimeArg, end: Option<TimeArg>)

  /** The arguments of the open, subclip, volume and write calls. */
  datatype Plan = Plan(
    source: string,
    targetResolution: (Option<int>, Option<int>),
    trim: Trim,
    volumeFactor: real,
    output: string,
    codec: string,
    audioCodec: string,
    bitrate: Option<string>)

  /** The worker either writes a file or dies on the unbound `new_bitrate`. */
  datatype Outcome = Write(plan: Plan) | NameError

  /** What the button prints before it gives up. */
  function AbortMessage(reason: Abort): string {
    match reason
    case NoInputFile => "No input file selected. Please input a filename to be edited."
    case InvalidWidth => "Invalid resolution width."
    case InvalidHeight => "Invalid resolution height."
    case InvalidBitrate => "Invalid bitrate."
  }

  /** Each reason is reported with its own message. */
  lemma AbortMessagesDistinct(a: Abort, b: Abort)
    ensures AbortMessage(a) == AbortMessage(b) ==> a == b
  {
  }

  /**
   * `run_button_clicked` up to starting the worker. The start and end
   * fields are taken as text; width and height must parse as integers or
   * the click aborts; a bitrate that does not parse is only reported.
   */
  function RunButtonClicked(form: Form): Click {
    if form.inputFile == "" then Aborted(NoInputFile)
    else
      var clipBegin := if form.startChecked then Some(form.startText) else None;
      var clipEnd := if form.endChecked then Some(form.endText) else None;
      if form.widthChecked && ParseInt(form.widthText).None? then Aborted(InvalidWidth)
      else
        var width := if form.widthChecked then ParseInt(form.widthText) else None;
        if form.heightChecked && ParseInt(form.heightText).None? then Aborted(InvalidHeight)
        else
          var height := if form.heightChecked then ParseInt(form.heightText) else None;
          var bitrate :=
            if !form.bitrateChecked then NoBitrate
            else match ParseInt(form.bitrateText)
              case Some(n) => Kbps(n)
              case None => Unbound;
          Started(Job(form.inputFile, clipBegin, clipEnd, width, height, bitrate))
  }

  /** Python truthiness of an optional string: set and non-empty. */
  predicate Truthy(bound: Option<string>) {
    bound.Some? && bound.value != ""
  }

  /** The four-way subclip choice of `process_video`. */
  function SubclipChoice(clipBegin: Option<string>, clipEnd: Option<string>): Trim {
    if Truthy(clipBegin) && Truthy(clipEnd) then
      Subclip(TimeText(clipBegin.value), Some(TimeText(clipEnd.value)))
    else if Truthy(clipBegin) && !Truthy(clipEnd) then Subclip(TimeText(clipBegin.value), None)
    else if Truthy(clipEnd) && !Truthy(clipBegin) then Subclip(ZeroSeconds, Some(TimeText(clipEnd.value)))
    else WholeClip
  }

  /** The window a trim keeps: where it starts, and where it stops (`None`: the clip's end). */
  function Window(trim: Trim): (TimeArg, Option<TimeArg>) {
    match trim
    case WholeClip => (ZeroSeconds, None)
    case Subclip(begin, end) => (begin, end)
  }

  /** The bound a field contributes, or the clip's own start/end when it is unset or empty. */
  function BoundOr(bound: Option<string>, default: Option<TimeArg>): Option<TimeArg> {
    if Truthy(bound) then Some(TimeText(bound.value)) else default
  }

  /**
   * The subclip keeps each bound the user set and falls back to the clip's
   * own start and end for the others; the clip is left whole exactly when
   * neither bound is set, and an empty field counts as unset.
   */
  lemma SubclipKeepsBounds(clipBegin: Option<string>, clipEnd: Option<string>)
    ensures Some(Window(SubclipChoice(clipBegin, clipEnd)).0) == BoundOr(clipBegin, Some(ZeroSeconds))
    ensures Window(SubclipChoice(clipBegin, clipEnd)).1 == BoundOr(clipEnd, None)
    ensures SubclipChoice(clipBegin, clipEnd).WholeClip? <==> !Truthy(clipBegin) && !Truthy(clipEnd)
    ensures SubclipChoice(Some(""), clipEnd) == SubclipChoice(None, clipEnd)
    ensures SubclipChoice(clipBegin, Some("")) == SubclipChoice(clipBegin, None)
  {
  }

  /** The `bitrate=` argument: none for `None` or `0`, otherwise the number followed by `k`. */
  function BitrateArgument(bitrate: BitrateBinding): Option<string>
    requires !bitrate.Unbound?
  {
    if bitrate.NoBitrate? || bitrate.kbps == 0 then None
    else Some(IntToString(bitrate.kbps) + "k")
  }

  /** A bitrate argument that is passed reads back as the number the user typed. */
  lemma BitrateArgumentRoundTrip(kbps: int)
    ensures BitrateArgument(Kbps(kbps)).Some? <==> kbps != 0
    ensures kbps != 0 ==>
      var arg := BitrateArgument(Kbps(kbps)).value;
      EndsWith(arg, "k") && ParseInt(arg[..|arg| - 1]) == Some(kbps)
  {
    if kbps != 0 {
      var arg := BitrateArgument(Kbps(kbps)).value;
      assert arg[..|arg| - 1] == IntToString(kbps);
      IntToStringRoundTrip(kbps);
    }
  }

  /** `input_file.removesuffix(".mp4")` followed by `-modified.mp4`. */
  function OutputName(inputFile: string): string {
    RemoveSuffix(inputFile, ".mp4") + "-modified.mp4"
  }

  /**
   * The output always ends in `-modified.mp4`, is never the input itself,
   * and gives back the input once that suffix is taken off again (with the
   * `.mp4` put back when the input had one).
   */
  lemma OutputNameRecovers(inputFile: string)
    ensures EndsWith(OutputName(inputFile), "-modified.mp4")
    ensures OutputName(inputFile) != inputFile
    ensures EndsWith(inputFile, ".mp4") ==>
      RemoveSuffix(OutputName(inputFile), "-modified.mp4") + ".mp4" == inputFile
    ensures !EndsWith(inputFile, ".mp4") ==>
      RemoveSuffix(OutputName(inputFile), "-modified.mp4") == inputFile
  {
  }

  /** `process_video`, run on the worker with the slider's value at that time. */
  function ProcessVideo(job: Job, sliderValue: int): Outcome {
    if job.bitrate.Unbound? then NameError
    else Write(Plan(
      job.inputFile,
      (job.width, job.height),
      SubclipChoice(job.clipBegin, job.clipEnd),
      sliderValue as real / 100.0,
      OutputName(job.inputFile),
      "libx264", "aac",
      BitrateArgument(job.bitrate)))
  }

  /**
   * The click aborts exactly when the input path is empty or a checked
   * width or height is not an integer, and on the first of those in that
   * order; whatever the start, end and bitrate fields hold never decides it.
   */
  lemma ClickAborts(form: Form, startText: string, endText: string, bitrateText: string)
    ensures RunButtonClicked(form).Aborted? <==>
      form.inputFile == "" ||
      (form.widthChecked && ParseInt(form.widthText).None?) ||
      (form.heightChecked && ParseInt(form.heightText).None?)
    ensures form.inputFile == "" ==> RunButtonClicked(form) == Aborted(NoInputFile)
    ensures form.inputFile != "" && form.widthChecked && ParseInt(form.widthText).None? ==>
      RunButtonClicked(form) == Aborted(InvalidWidth)
    ensures (form.inputFile != "" && !(form.widthChecked && ParseInt(form.widthText).None?) &&
             form.heightChecked && ParseInt(form.heightText).None?) ==>
      RunButtonClicked(form) == Aborted(InvalidHeight)
    ensures RunButtonClicked(form).Aborted? ==> RunButtonClicked(form).reason != InvalidBitrate
    ensures
      var other := form.(startText := startText, endText := endText, bitrateText := bitrateText);
      RunButtonClicked(other).Aborted? == RunButtonClicked(form).Aborted?
  {
  }

  /**
   * A started job carries the start and end text exactly as typed, the
   * parsed width and height, and `None` for every unchecked field.
   */
  lemma StartedJobFields(form: Form)
    requires RunButtonClicked(form).Started?
    ensures
      var job := RunButtonClicked(form).job;
      job.inputFile == form.inputFile &&
      job.clipBegin == (if form.startChecked then Some(form.startText) else None) &&
      job.clipEnd == (if form.endChecked then Some(form.endText) else None) &&
      (form.widthChecked <==> job.width.Some?) &&
      (form.widthChecked ==> ParseInt(form.widthText) == job.width) &&
      (form.heightChecked <==> job.height.Some?) &&
      (form.heightChecked ==> ParseInt(form.heightText) == job.height) &&
      (job.bitrate.NoBitrate? <==> !form.bitrateChecked) &&
      (job.bitrate.Unbound? <==> form.bitrateChecked && ParseInt(form.bitrateText).None?) &&
      (form.bitrateChecked && ParseInt(form.bitrateText).Some? ==>
        job.bitrate == Kbps(ParseInt(form.bitrateText).value))
  {
  }

  /**
   * As written, a checked bitrate that is not a number is reported, the
   * worker starts anyway, and it raises before anything is written.
   */
  lemma InvalidBitrateRaises(sliderValue: int)
    ensures
      var form := Form("clip.mp4", false, "", false, "", false, "", false, "", true, "fast");
      RunButtonClicked(form).Started? &&
      ProcessVideo(RunButtonClicked(form).job, sliderValue) == NameError
  {
  }

  /** The button with the missing `return` added: an invalid bitrate aborts like width and height. */
  function RunButtonClickedFixed(form: Form): Click {
    if form.inputFile != "" && form.bitrateChecked && ParseInt(form.bitrateText).None?
      && !(form.widthChecked && ParseInt(form.widthText).None?)
      && !(form.heightChecked && ParseInt(form.heightText).None?)
    then Aborted(InvalidBitrate)
    else RunButtonClicked(form)
  }

  /**
   * With the fix, every job that starts has its bitrate bound, so the
   * worker always reaches the write; forms the original accepted without
   * trouble are handled as before.
   */
  lemma FixedNeverRaises(form: Form, sliderValue: int)
    ensures RunButtonClickedFixed(form).Started? ==>
      ProcessVideo(RunButtonClickedFixed(form).job, sliderValue).Write?
    ensures !(form.bitrateChecked && ParseInt(form.bitrateText).None?) ==>
      RunButtonClickedFixed(form) == RunButtonClicked(form)
    ensures RunButtonClickedFixed(form) == Aborted(InvalidBitrate) <==>
      RunButtonClicked(form).Started? && RunButtonClicked(form).job.bitrate.Unbound?
  {
  }

  /** What the worker hands the library for a job whose bitrate is bound. */
  lemma PlanOfJob(job: Job, sliderValue: int)
    requires !job.bitrate.Unbound?
    ensures ProcessVideo(job, sliderValue).Write?
    ensures
      var plan := ProcessVideo(job, sliderValue).plan;
      plan.source == job.inputFile &&
      plan.targetResolution == (job.width, job.height) &&
      plan.trim == SubclipChoice(job.clipBegin, job.clipEnd) &&
      plan.output == OutputName(job.inputFile) &&
      plan.codec == "libx264" && plan.audioCodec == "aac" &&
      plan.bitrate == BitrateArgument(job.bitrate) &&
      plan.volumeFactor * 100.0 == sliderValue as real &&
      EndsWith(plan.output, "-modified.mp4") && plan.output != job.inputFile &&
      (plan.bitrate.None? <==> job.bitrate.NoBitrate? || job.bitrate.kbps == 0)
  {
  }
}
