/**
 * The browser client (static/script.js). The workflow stage lives in the
 * page: the `disabled` class on the column selection, the train button and
 * the prediction group, the options of the two selects and their values.
 * Each handler takes the server's reply as a parameter in place of `fetch`.
 */
module Client {

  import opened Wrappers

  /** The text of the file-info banner (`fileInfo.innerHTML`). */
  datatype FileInfo = Hidden | Uploading | Loaded(filename: string) | UploadError(message: string)

  /** The label of the train button. */
  datatype TrainLabel = Ready | Analyzing

  /** An `<option>` of a select: its value, its displayed text, and whether the user may pick it. */
  datatype SelectOption = SelectOption(value: string, text: string, enabled: bool)

  /** A server reply as `fetch` delivers it: the JSON of an ok response, or an error message. */
  datatype Reply<T> = Ok(value: T) | Failed(message: string)

  /** The body of a successful upload reply. */
  datatype UploadBody = UploadBody(filename: string, columns: seq<string>)

  /** The body of a successful train reply: slope `m`, intercept `c`, `r2` and the plot. */
  datatype TrainBody = TrainBody(slope: real, intercept: real, r2: real, plot: string)

  /** The body `{x_column, y_column}` of a train request. */
  datatype TrainRequest = TrainRequest(xColumn: string, yColumn: string)

  /** What a handler leaves behind: the page, the request it sent if any, and the alert it raised if any. */
  datatype Effect<R> = Effect(view: View, request: Option<R>, alert: Option<string>)

  /** The page state the handlers read and write; the `bool` fields are true when the control is enabled. */
  datatype View = View(
    fileInfo: FileInfo,
    columnSelection: bool,
    trainButton: bool,
    trainLabel: TrainLabel,
    predictGroup: bool,
    xOptions: seq<SelectOption>,
    yOptions: seq<SelectOption>,
    xValue: string,
    yValue: string,
    stats: Option<TrainBody>,
    prediction: Option<real>)

  /** The page as loaded: banner hidden, stage controls disabled, selects empty. */
  const Initial := View(Hidden, false, false, Ready, false, [], [], "", "", None, None)

  const PlaceholderX := SelectOption("", "Select Independent (X)", false)
  const PlaceholderY := SelectOption("", "Select Target (Y)", false)

  const SelectBothAlert := "Please select both X and Y variables."
  const DifferentAlert := "X and Y variables must be different."

  function ColumnOption(column: string): SelectOption
  {
    SelectOption(column, column, true)
  }

  /** A select rebuilt by `populateDropdowns`: the placeholder, then one option per column in order. */
  function Populated(placeholder: SelectOption, columns: seq<string>): seq<SelectOption>
  {
    [placeholder] + seq(|columns|, i requires 0 <= i < |columns| => ColumnOption(columns[i]))
  }

  /** The values of the options, in order. */
  function Values(options: seq<SelectOption>): seq<string>
  {
    if options == [] then [] else [options[0].value] + Values(options[1..])
  }

  /** The values the user can pick, in order. */
  function Offered(options: seq<SelectOption>): seq<string>
  {
    if options == [] then []
    else if options[0].enabled then [options[0].value] + Offered(options[1..])
    else Offered(options[1..])
  }

  /** The page while the upload request is pending. */
  function BeginUpload(v: View): View
  {
    v.(fileInfo := Uploading)
  }

  /** `uploadFile` after the reply: a success rebuilds both selects and enables selection and training. */
  function FinishUpload(v: View, reply: Reply<UploadBody>): View
  {
    match reply
    case Ok(body) =>
      v.(fileInfo := Loaded(body.filename),
         xOptions := Populated(PlaceholderX, body.columns), yOptions := Populated(PlaceholderY, body.columns),
         xValue := "", yValue := "",
         columnSelection := true, trainButton := true)
    case Failed(message) => v.(fileInfo := UploadError(message))
  }

  /**
   * `uploadFile` as a whole. A success offers exactly the returned columns in
   * both selects, resets both choices and leaves the prediction group as it
   * was; a failure changes only the banner.
   */
  function UploadStep(v: View, reply: Reply<UploadBody>): (r: View)
    ensures reply.Failed? ==> r == v.(fileInfo := UploadError(reply.message))
    ensures reply.Ok? ==>
      r == v.(fileInfo := Loaded(reply.value.filename),
              xOptions := Populated(PlaceholderX, reply.value.columns),
              yOptions := Populated(PlaceholderY, reply.value.columns),
              xValue := "", yValue := "",
              columnSelection := true, trainButton := true)
    ensures reply.Ok? ==>
      && r.predictGroup == v.predictGroup
      && Offered(r.xOptions) == reply.value.columns
      && Offered(r.yOptions) == reply.value.columns
      && Values(r.xOptions) == Values(r.yOptions) == [""] + reply.value.columns
  {
    match reply
    case Ok(body) =>
      PopulatedOffers(PlaceholderX, body.columns);
      PopulatedOffers(PlaceholderY, body.columns);
      FinishUpload(BeginUpload(v), reply)
    case Failed(_) => FinishUpload(BeginUpload(v), reply)
  }

  /** The local guard of `trainModel`: the alert it raises instead of sending, if any. */
  function TrainGuard(v: View): Option<string>
  {
    if v.xValue == "" || v.yValue == "" then Some(SelectBothAlert)
    else if v.xValue == v.yValue then Some(DifferentAlert)
    else None
  }

  /** The page while the train request is pending: the button says "Analyzing..." and is disabled. */
  function BeginTraining(v: View): View
  {
    v.(trainLabel := Analyzing, trainButton := false)
  }

  /** `trainModel` after the reply: a success shows the statistics and enables prediction; `finally` restores the button. */
  function FinishTraining(v: View, reply: Reply<TrainBody>): View
  {
    var settled := if reply.Ok? then v.(stats := Some(reply.value), predictGroup := true) else v;
    settled.(trainLabel := Ready, trainButton := true)
  }

  /**
   * `trainModel` as a whole. No request leaves when a choice is empty or
   * both are equal, and then nothing changes; a failure alerts and only
   * restores the train button; a success also enables prediction.
   */
  function TrainStep(v: View, reply: Reply<TrainBody>): (e: Effect<TrainRequest>)
    ensures e.request.None? <==> v.xValue == "" || v.yValue == "" || v.xValue == v.yValue
    ensures e.request.None? ==> e.view == v
    ensures v.xValue == "" || v.yValue == "" ==> e.alert == Some(SelectBothAlert)
    ensures v.xValue != "" && v.yValue != "" && v.xValue == v.yValue ==> e.alert == Some(DifferentAlert)
    ensures e.request.Some? ==>
      && e.request.value == TrainRequest(v.xValue, v.yValue)
      && e.view.trainButton && e.view.trainLabel == Ready
    ensures e.request.Some? && reply.Failed? ==>
      e.view == v.(trainLabel := Ready, trainButton := true) && e.alert == Some("Analysis Error: " + reply.message)
    ensures e.request.Some? && reply.Ok? ==>
      e.view == v.(trainLabel := Ready, trainButton := true, predictGroup := true, stats := Some(reply.value))
      && e.alert.None?
  {
    match TrainGuard(v)
    case Some(alert) => Effect(v, None, Some(alert))
    case None =>
      var after := FinishTraining(BeginTraining(v), reply);
      Effect(after, Some(TrainRequest(v.xValue, v.yValue)),
             if reply.Failed? then Some("Analysis Error: " + reply.message) else None)
  }

  /**
   * `makePrediction`. An empty input sends nothing and changes nothing;
   * otherwise the result is displayed, and no enable flag or selection moves.
   */
  function PredictStep(v: View, input: string, reply: Reply<real>): (e: Effect<string>)
    ensures input == "" ==> e == Effect(v, None, None)
    ensures input != "" ==> e.request == Some(input)
    ensures e.view == v.(prediction := e.view.prediction)
    ensures e.view.prediction != v.prediction ==> input != "" && reply.Ok? && e.view.prediction == Some(reply.value)
    ensures input != "" && reply.Failed? ==> e.view == v && e.alert == Some("Prediction Error: " + reply.message)
    ensures input != "" && reply.Ok? ==> e.view == v.(prediction := Some(reply.value)) && e.alert.None?
  {
    if input == "" then Effect(v, None, None)
    else match reply
      case Ok(p) => Effect(v.(prediction := Some(p)), Some(input), None)
      case Failed(message) => Effect(v, Some(input), Some("Prediction Error: " + message))
  }

  /** A rebuilt select offers exactly the columns, and its values are the placeholder's "" then the columns. */
  lemma PopulatedOffers(placeholder: SelectOption, columns: seq<string>)
    requires !placeholder.enabled && placeholder.value == ""
    ensures Offered(Populated(placeholder, columns)) == columns
    ensures Values(Populated(placeholder, columns)) == [""] + columns
  {
    var options := seq(|columns|, i requires 0 <= i < |columns| => ColumnOption(columns[i]));
    assert Populated(placeholder, columns)[1..] == options;
    ColumnOptionsOffer(columns);
  }

  lemma {:induction false} ColumnOptionsOffer(columns: seq<string>)
    ensures
      var options := seq(|columns|, i requires 0 <= i < |columns| => ColumnOption(columns[i]));
      Offered(options) == columns && Values(options) == columns
    decreases |columns|
  {
    var options := seq(|columns|, i requires 0 <= i < |columns| => ColumnOption(columns[i]));
    if columns != [] {
      ColumnOptionsOffer(columns[1..]);
      assert options[1..] == seq(|columns[1..]|, i requires 0 <= i < |columns[1..]| => ColumnOption(columns[1..][i]));
      assert columns == [columns[0]] + columns[1..];
    }
  }

  /** The page: the three toggled controls, the two selects and the displayed results. */
  class Page {
    var fileInfo: FileInfo
    var columnSelection: bool
    var trainButton: bool
    var trainLabel: TrainLabel
    var predictGroup: bool
    var xOptions: seq<SelectOption>
    var yOptions: seq<SelectOption>
    var xValue: string
    var yValue: string
    var stats: Option<TrainBody>
    var prediction: Option<real>

    function Current(): View
      reads this
    {
      View(fileInfo, columnSelection, trainButton, trainLabel, predictGroup,
           xOptions, yOptions, xValue, yValue, stats, prediction)
    }

    constructor ()
      ensures Current() == Initial
    {
      fileInfo := Hidden;
      columnSelection, trainButton, trainLabel, predictGroup := false, false, Ready, false;
      xOptions, yOptions, xValue, yValue := [], [], "", "";
      stats, prediction := None, None;
    }

    /** `populateDropdowns`: reset both selects to their placeholder, then append one option per column. */
    method PopulateDropdowns(columns: seq<string>)
      modifies this`xOptions, this`yOptions, this`xValue, this`yValue
      ensures xOptions == Populated(PlaceholderX, columns) && yOptions == Populated(PlaceholderY, columns)
      ensures xValue == "" && yValue == ""
    {
      xOptions, xValue := [PlaceholderX], "";
      yOptions, yValue := [PlaceholderY], "";
      for i := 0 to |columns|
        invariant xOptions == Populated(PlaceholderX, columns[..i])
        invariant yOptions == Populated(PlaceholderY, columns[..i])
        invariant xValue == "" && yValue == ""
      {
        xOptions := xOptions + [ColumnOption(columns[i])];
        yOptions := yOptions + [ColumnOption(columns[i])];
      }
      assert columns[..|columns|] == columns;
    }

    /** `uploadFile`: show "Uploading...", then apply the reply. */
    method UploadFile(reply: Reply<UploadBody>) returns (ghost pending: View)
      modifies this
      ensures Current() == UploadStep(old(Current()), reply)
      ensures pending == BeginUpload(old(Current())) && pending.fileInfo == Uploading
    {
      fileInfo := Uploading;
      pending := Current();
      match reply {
        case Ok(body) =>
          fileInfo := Loaded(body.filename);
          PopulateDropdowns(body.columns);
          columnSelection := true;
          trainButton := true;
        case Failed(message) =>
          fileInfo := UploadError(message);
      }
    }

    /** `trainModel`: check the choices, disable the button while pending, apply the reply, restore the button. */
    method TrainModel(reply: Reply<TrainBody>) returns (request: Option<TrainRequest>, alert: Option<string>, ghost pending: View)
      modifies this
      ensures Effect(Current(), request, alert) == TrainStep(old(Current()), reply)
      ensures request.Some? ==> pending == BeginTraining(old(Current())) && !pending.trainButton
    {
      var xKey, yKey := xValue, yValue;
      pending := Current();
      if xKey == "" || yKey == "" {
        return None, Some(SelectBothAlert), pending;
      }
      if xKey == yKey {
        return None, Some(DifferentAlert), pending;
      }
      trainLabel := Analyzing;
      trainButton := false;
      pending := Current();
      request := Some(TrainRequest(xKey, yKey));
      alert := None;
      match reply {
        case Ok(body) =>
          stats := Some(body);
          predictGroup := true;
        case Failed(message) =>
          alert := Some("Analysis Error: " + message);
      }
      trainLabel := Ready;
      trainButton := true;
    }

    /** `makePrediction`: nothing for an empty input; otherwise display the result or alert. */
    method MakePrediction(input: string, reply: Reply<real>) returns (request: Option<string>, alert: Option<string>)
      modifies this`prediction
      ensures Effect(Current(), request, alert) == PredictStep(old(Current()), input, reply)
    {
      if input == "" {
        return None, None;
      }
      request := Some(input);
      alert := None;
      match reply {
        case Ok(p) =>
          prediction := Some(p);
        case Failed(message) =>
          alert := Some("Prediction Error: " + message);
      }
    }
  }
}
