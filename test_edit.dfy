/**
 * The "run" button of the other revision of the editor window (test.py):
 * separate input and output paths, numeric start and end times, and a
 * resize chosen from the width and height fields. The library calls are
 * represented by the operations they would be asked to perform, in order.
 */
module TestEdit {
  import opened Wrappers
  import opened Text

  datatype Form = Form(
    inputFile: string, outputFile: string,
    startChecked: bool, startText: string,
    endChecked: bool, endText: string,
    widthChecked: bool, widthText: string,
    heightChecked: bool, heightText: string)

  /** The reasons the button shows a warning and does nothing else. */
  datatype Warning = MissingFiles | InvalidStart | InvalidEnd | InvalidWidth | InvalidHeight

  datatype Job = Job(
    inputFile: string, outputFile: string,
    clipBegin: Option<real>, clipEnd: Option<real>,
    width: Option<int>, height: Option<int>)

  datatype Click = Warned(warning: Warning) | Started(job: Job)

  datatype Resize = NewSize(w: int, h: int) | ToWidth(width: int) | ToHeight(height: int)

  /** One call into the video library. */
  datatype Op =
    | Open(path: string)
    | Subclip(begin: Option<real>, end: Option<real>)
    | ResizeTo(resize: Resize)
    | WriteFile(path: string, codec: string, audioCodec: string)

  function WarningMessage(warning: Warning): string {
    match warning
    case MissingFiles => "Please specify input and output files."
    case InvalidStart => "Invalid start time."
    case InvalidEnd => "Invalid end time."
    case InvalidWidth => "Invalid resolution width."
    case InvalidHeight => "Invalid resolution height."
  }

  /** Each warning has its own text, so the message box tells which field failed. */
  lemma WarningMessagesDistinct(a: Warning, b: Warning)
    ensures WarningMessage(a) == WarningMessage(b) ==> a == b
  {
  }

  /** `run_button_clicked` up to starting the worker: a chain of early returns. */
  function RunButtonClicked(form: Form): Click {
    if form.inputFile == "" || form.outputFile == "" then Warned(MissingFiles)
    else if form.startChecked && ParseFloat(form.startText).None? then Warned(InvalidStart)
    else if form.endChecked && ParseFloat(form.endText).None? then Warned(InvalidEnd)
    else if form.widthChecked && ParseInt(form.widthText).None? then Warned(InvalidWidth)
    else if form.heightChecked && ParseInt(form.heightText).None? then Warned(InvalidHeight)
    else Started(Job(
      form.inputFile, form.outputFile,
      if form.startChecked then ParseFloat(form.startText) else None,
      if form.endChecked then ParseFloat(form.endText) else None,
      if form.widthChecked then ParseInt(form.widthText) else None,
      if form.heightChecked then ParseInt(form.heightText) else None))
  }

  /** One check of the form: whether it fails, and the warning it shows then. */
  datatype Check = Check(fails: bool, warning: Warning)

  /** The checks the button makes, in the order it makes them. */
  function Checks(form: Form): seq<Check> {
    [ Check(form.inputFile == "" || form.outputFile == "", MissingFiles),
      Check(form.startChecked && ParseFloat(form.startText).None?, InvalidStart),
      Check(form.endChecked && ParseFloat(form.endText).None?, InvalidEnd),
      Check(form.widthChecked && ParseInt(form.widthText).None?, InvalidWidth),
      Check(form.heightChecked && ParseInt(form.heightText).None?, InvalidHeight) ]
  }

  /** The warning of the first failing check, if any. */
  function FirstFailure(checks: seq<Check>): (r: Option<Warning>)
    ensures r.None? <==> forall i :: 0 <= i < |checks| ==> !checks[i].fails
    ensures r.Some? ==> exists i :: 0 <= i < |checks| && checks[i].fails &&
                                     checks[i].warning == r.value &&
                                     forall j :: 0 <= j < i ==> !checks[j].fails
  {
    if checks == [] then None
    else if checks[0].fails then Some(checks[0].warning)
    else
      var rest := FirstFailure(checks[1..]);
      assert forall i :: 1 <= i < |checks| ==> checks[i] == checks[1..][i - 1];
      rest
  }

  /**
   * The button warns with the first failing check in the fixed order
   * paths, start, end, width, height, and starts the worker only when none
   * fails.
   */
  lemma ClickIsFirstFailure(form: Form)
    ensures RunButtonClicked(form).Warned? <==> FirstFailure(Checks(form)).Some?
    ensures RunButtonClicked(form).Warned? ==>
      RunButtonClicked(form).warning == FirstFailure(Checks(form)).value
  {
    var cs := Checks(form);
    assert cs[4..][1..] == [];
    assert FirstFailure(cs[4..]) == if cs[4].fails then Some(cs[4].warning) else None;
    assert cs[3..][1..] == cs[4..];
    assert FirstFailure(cs[3..]) == if cs[3].fails then Some(cs[3].warning) else FirstFailure(cs[4..]);
    assert cs[2..][1..] == cs[3..];
    assert FirstFailure(cs[2..]) == if cs[2].fails then Some(cs[2].warning) else FirstFailure(cs[3..]);
    assert cs[1..][1..] == cs[2..];
    assert FirstFailure(cs[1..]) == if cs[1].fails then Some(cs[1].warning) else FirstFailure(cs[2..]);
    assert FirstFailure(cs) == if cs[0].fails then Some(cs[0].warning) else FirstFailure(cs[1..]);
  }

  /**
   * A started job holds `None` for every unchecked field and the parsed
   * value of every checked one.
   */
  lemma StartedJobFields(form: Form)
    requires RunButtonClicked(form).Started?
    ensures
      var job := RunButtonClicked(form).job;
      job.inputFile == form.inputFile && job.outputFile == form.outputFile &&
      (job.clipBegin.Some? <==> form.startChecked) &&
      (job.clipEnd.Some? <==> form.endChecked) &&
      (job.width.Some? <==> form.widthChecked) &&
      (job.height.Some? <==> form.heightChecked) &&
      (form.startChecked ==> ParseFloat(form.startText) == job.clipBegin) &&
      (form.endChecked ==> ParseFloat(form.endText) == job.clipEnd) &&
      (form.widthChecked ==> ParseInt(form.widthText) == job.width) &&
      (form.heightChecked ==> ParseInt(form.heightText) == job.height)
  {
  }

  /** The resize `process_video` asks for, if any. */
  function ResizeChoice(width: Option<int>, height: Option<int>): Option<Resize> {
    if width.Some? && height.Some? then Some(NewSize(width.value, height.value))
    else if width.Some? then Some(ToWidth(width.value))
    else if height.Some? then Some(ToHeight(height.value))
    else None
  }

  /** The width a resize fixes, if it fixes one. */
  function ResizedWidth(r: Option<Resize>): Option<int> {
    match r
    case Some(NewSize(w, _)) => Some(w)
    case Some(ToWidth(w)) => Some(w)
    case _ => None
  }

  /** The height a resize fixes, if it fixes one. */
  function ResizedHeight(r: Option<Resize>): Option<int> {
    match r
    case Some(NewSize(_, h)) => Some(h)
    case Some(ToHeight(h)) => Some(h)
    case _ => None
  }

  /**
   * The resize fixes exactly the dimensions the user gave, and no resize
   * happens when neither was given.
   */
  lemma ResizeKeepsDimensions(width: Option<int>, height: Option<int>)
    ensures ResizedWidth(ResizeChoice(width, height)) == width
    ensures ResizedHeight(ResizeChoice(width, height)) == height
    ensures ResizeChoice(width, height).None? <==> width.None? && height.None?
  {
  }

  /** `process_video`: open, then subclip if a bound is set, then resize, then write. */
  function ProcessVideo(job: Job): seq<Op> {
    var trim := if job.clipBegin.Some? || job.clipEnd.Some? then [Subclip(job.clipBegin, job.clipEnd)] else [];
    var resize := match ResizeChoice(job.width, job.height)
      case Some(r) => [ResizeTo(r)]
      case None => [];
    [Open(job.inputFile)] + trim + resize + [WriteFile(job.outputFile, "libx264", "aac")]
  }

  predicate IsSubclip(op: Op) { op.Subclip? }
  predicate IsResize(op: Op) { op.ResizeTo? }

  /**
   * The worker opens the input first and writes the output last, once; a
   * subclip, carrying both bounds as given, comes exactly when a bound is
   * set and always before any resize; a resize comes exactly when it is
   * chosen.
   */
  lemma ProcessVideoOrder(job: Job)
    ensures
      var ops := ProcessVideo(job);
      2 <= |ops| <= 4 &&
      ops[0] == Open(job.inputFile) &&
      ops[|ops| - 1] == WriteFile(job.outputFile, "libx264", "aac") &&
      (forall i :: 0 <= i < |ops| - 1 ==> !ops[i].WriteFile?) &&
      (forall i, j :: 0 <= i < |ops| && 0 <= j < |ops| && IsSubclip(ops[i]) && IsResize(ops[j]) ==> i < j) &&
      ((exists i :: 0 <= i < |ops| && IsSubclip(ops[i])) <==> job.clipBegin.Some? || job.clipEnd.Some?) &&
      (forall i :: 0 <= i < |ops| && IsSubclip(ops[i]) ==> ops[i] == Subclip(job.clipBegin, job.clipEnd)) &&
      (forall i :: 0 <= i < |ops| && IsResize(ops[i]) ==> Some(ops[i].resize) == ResizeChoice(job.width, job.height)) &&
      ((exists i :: 0 <= i < |ops| && IsResize(ops[i])) <==> ResizeChoice(job.width, job.height).Some?) &&
      |ops| == 2 + (if job.clipBegin.Some? || job.clipEnd.Some? then 1 else 0)
                 + (if ResizeChoice(job.width, job.height).Some? then 1 else 0)
  {
    var ops := ProcessVideo(job);
    var hasTrim := job.clipBegin.Some? || job.clipEnd.Some?;
    var hasResize := ResizeChoice(job.width, job.height).Some?;
    if hasTrim {
      assert IsSubclip(ops[1]);
    }
    if hasResize {
      assert IsResize(ops[if hasTrim then 2 else 1]);
    }
  }

  /**
   * The status the worker reports: success, or the library's error text
   * behind a fixed prefix.
   */
  function Status(error: Option<string>): string {
    match error
    case None => "Video processing completed successfully."
    case Some(e) => "An error occurred: " + e
  }

  /**
   * A report names its outcome: every failure report starts with
   * "An error occurred: " followed by the error text, a success report does
   * not, and different outcomes never give the same report.
   */
  lemma StatusIdentifiesOutcome(error: Option<string>, other: Option<string>)
    ensures error.Some? <==> |Status(error)| >= 19 && Status(error)[..19] == "An error occurred: "
    ensures error.Some? ==> Status(error)[19..] == error.value
    ensures Status(error) == Status(other) ==> error == other
  {
    var m, n := Status(error), Status(other);
    if error.None? {
      assert m[0] == 'V';
    } else {
      assert m[0] == 'A' && m[19..] == error.value;
    }
    if other.None? {
      assert n[0] == 'V';
    } else {
      assert n[0] == 'A' && n[19..] == other.value;
    }
  }
}
