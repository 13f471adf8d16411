/**
 * The Flask server's single-user session (app.py). Three module globals hold
 * the state: the loaded table, the fitted model and the feature pair. The
 * handlers `upload_file`, `train_model` and `predict` check their guards in a
 * fixed order, answer with an error or a result, and reassign the globals.
 *
 * pandas, scikit-learn and Python's `float` are foreign code: each becomes a
 * function parameter whose result may be an exception.
 */
module Server {

  import opened Wrappers
  import opened Dataset

  /** The two pandas readers `upload_file` chooses between. */
  datatype Reader = CsvReader | ExcelReader

  /** What a reader does with the saved file: a table, or an exception with its text. */
  datatype ReadResult = Read(frame: Frame) | ReadRaised(message: string)

  /** A fitted `LinearRegression`, opaque to the handlers. */
  datatype Model = Model(token: nat)

  /** What a successful train reply carries: slope, intercept, MSE, R² and the base64 plot. */
  datatype Report = Report(slope: real, intercept: real, mse: real, r2: real, plot: string)

  /**
   * What the scikit-learn part of `train_model` does: the split or the fit
   * raises, or a model is fitted and then evaluating and plotting either
   * produce a report or raise (`None`).
   */
  datatype FitOutcome = FitRaised | Fitted(model: Model, report: Option<Report>)

  /** `current_features`, the dict `{'x': ..., 'y': ...}`. */
  datatype Features = Features(x: Option<string>, y: Option<string>)

  /** `request.files.get('file')`, given by the uploaded file's name. */
  datatype UploadRequest = UploadRequest(file: Option<string>)

  /** `data_req.get('x_column')` and `data_req.get('y_column')`. */
  datatype TrainRequest = TrainRequest(x: Option<string>, y: Option<string>)

  /** `request.json.get('value')`. */
  datatype PredictRequest = PredictRequest(value: Option<string>)

  /** The error replies; `Uncaught` is an exception no handler catches, which Flask turns into a 500 page. */
  datatype Failure =
    | NoFileUploaded
    | NoSelectedFile
    | ReadFailed(message: string)
    | NoDataUploaded
    | InvalidColumns
    | ModelNotTrained
    | InvalidInputValue
    | Uncaught

  datatype Response =
    | Rejected(failure: Failure)
    | Uploaded(columns: seq<string>, filename: string)
    | Trained(report: Report)
    | Predicted(prediction: real)

  /** The three globals `current_data`, `current_model` and `current_features`. */
  datatype Globals = Globals(data: Option<Frame>, model: Option<Model>, features: Features)

  /** A handler's effect: the globals afterwards and the reply. */
  datatype Step = Step(globals: Globals, response: Response)

  /** The globals at import time. */
  const Initial := Globals(None, None, Features(None, None))

  /** The HTTP status of an error reply. */
  function Status(f: Failure): nat
  {
    match f
    case ReadFailed(_) => 500
    case Uncaught => 500
    case _ => 400
  }

  /** The `error` text of an error reply (an uncaught exception has none: Flask sends its own page). */
  function Message(f: Failure): string
  {
    match f
    case NoFileUploaded => "No file uploaded"
    case NoSelectedFile => "No selected file"
    case ReadFailed(m) => m
    case NoDataUploaded => "No data uploaded"
    case InvalidColumns => "Invalid columns"
    case ModelNotTrained => "Model not trained"
    case InvalidInputValue => "Invalid input value"
    case Uncaught => ""
  }

  predicate HasSuffix(s: string, suffix: string)
  {
    |suffix| <= |s| && s[|s| - |suffix|..] == suffix
  }

  /** `file.filename.endswith('.csv')` picks the CSV reader; every other name goes to the Excel reader. */
  function ReaderFor(filename: string): Reader
  {
    if HasSuffix(filename, ".csv") then CsvReader else ExcelReader
  }

  /** `upload_file`: reject a missing file part or an empty name, else read the file and replace the table. */
  function HandleUpload(g: Globals, req: UploadRequest, read: Reader -> ReadResult): (r: Step)
    ensures req.file.None? ==> r == Step(g, Rejected(NoFileUploaded))
    ensures req.file == Some("") ==> r == Step(g, Rejected(NoSelectedFile))
    ensures r.response.Uploaded? <==>
      req.file.Some? && req.file.value != "" && read(ReaderFor(req.file.value)).Read?
    ensures r.response.Uploaded? ==>
      var f := read(ReaderFor(req.file.value)).frame;
      && r.globals.data == Some(f)
      && r.response.filename == req.file.value
      && r.response.columns == NumericNames(f.columns)
      && IsSubsequence(r.response.columns, Names(f.columns))
    ensures req.file.Some? && req.file.value != "" && read(ReaderFor(req.file.value)).ReadRaised? ==>
      r == Step(g, Rejected(ReadFailed(read(ReaderFor(req.file.value)).message)))
    ensures r.globals.model == g.model && r.globals.features == g.features
  {
    match req.file
    case None => Step(g, Rejected(NoFileUploaded))
    case Some(name) =>
      if name == "" then Step(g, Rejected(NoSelectedFile))
      else
        match read(ReaderFor(name))
        case ReadRaised(message) => Step(g, Rejected(ReadFailed(message)))
        case Read(f) =>
          NumericNamesSubsequence(f.columns);
          Step(g.(data := Some(f)), Uploaded(NumericNames(f.columns), name))
  }

  /** Both requested columns are labels of the loaded table (of any dtype). */
  predicate ColumnsValid(g: Globals, req: TrainRequest)
  {
    g.data.Some? && Listed(g.data.value, req.x) && Listed(g.data.value, req.y)
  }

  /**
   * `train_model`: reject when no table is loaded or a column is not a label
   * of it; otherwise store the feature pair first, then fit, then store the
   * model, then evaluate and plot.
   */
  function HandleTrain(g: Globals, req: TrainRequest, fit: (Frame, string, string) -> FitOutcome): (r: Step)
    ensures g.data.None? ==> r == Step(g, Rejected(NoDataUploaded))
    ensures g.data.Some? && !ColumnsValid(g, req) ==> r == Step(g, Rejected(InvalidColumns))
    ensures r.globals.data == g.data
    ensures !ColumnsValid(g, req) ==> r.globals == g && r.response.Rejected?
    ensures ColumnsValid(g, req) ==>
      var outcome := fit(g.data.value, req.x.value, req.y.value);
      && r.globals.features == Features(req.x, req.y)
      && r.globals.model == (if outcome.Fitted? then Some(outcome.model) else g.model)
      && (r.response.Trained? <==> outcome.Fitted? && outcome.report.Some?)
      && (r.response.Trained? ==> r.response.report == outcome.report.value)
      && (!r.response.Trained? ==> r.response == Rejected(Uncaught))
  {
    if g.data.None? then Step(g, Rejected(NoDataUploaded))
    else if !Listed(g.data.value, req.x) || !Listed(g.data.value, req.y) then Step(g, Rejected(InvalidColumns))
    else
      var g' := g.(features := Features(req.x, req.y));
      match fit(g.data.value, req.x.value, req.y.value)
      case FitRaised => Step(g', Rejected(Uncaught))
      case Fitted(m, report) =>
        var g'' := g'.(model := Some(m));
        if report.Some? then Step(g'', Trained(report.value)) else Step(g'', Rejected(Uncaught))
  }

  /**
   * `predict`: reject without a model; `float(None)` raises a TypeError that
   * the handler does not catch; a ValueError from `float` or from the model's
   * `predict` is answered with 'Invalid input value'. Changes no global.
   */
  function HandlePredict(g: Globals, req: PredictRequest, parse: string -> Option<real>,
                         predict: (Model, real) -> Option<real>): (r: Response)
    ensures g.model.None? ==> r == Rejected(ModelNotTrained)
    ensures g.model.Some? && req.value.None? ==> r == Rejected(Uncaught)
    ensures g.model.Some? && req.value.Some? && parse(req.value.value).None? ==> r == Rejected(InvalidInputValue)
    ensures r.Predicted? <==>
      && g.model.Some? && req.value.Some? && parse(req.value.value).Some?
      && predict(g.model.value, parse(req.value.value).value).Some?
    ensures r.Predicted? ==> r.prediction == predict(g.model.value, parse(req.value.value).value).value
    ensures (g.model.Some? && req.value.Some? && parse(req.value.value).Some?
             && predict(g.model.value, parse(req.value.value).value).None?) ==> r == Rejected(InvalidInputValue)
  {
    if g.model.None? then Rejected(ModelNotTrained)
    else if req.value.None? then Rejected(Uncaught)
    else match parse(req.value.value)
      case None => Rejected(InvalidInputValue)
      case Some(v) =>
        match predict(g.model.value, v)
        case None => Rejected(InvalidInputValue)
        case Some(p) => Predicted(p)
  }

  /** The module globals of app.py, reassigned by the handlers. */
  class Session {
    var data: Option<Frame>
    var model: Option<Model>
    var features: Features

    function Snapshot(): Globals
      reads this
    {
      Globals(data, model, features)
    }

    constructor ()
      ensures Snapshot() == Initial
    {
      data := None;
      model := None;
      features := Features(None, None);
    }

    /** `upload_file`: writes `current_data` only. */
    method Upload(req: UploadRequest, read: Reader -> ReadResult) returns (response: Response)
      modifies this`data
      ensures Step(Snapshot(), response) == HandleUpload(old(Snapshot()), req, read)
    {
      if req.file.None? {
        return Rejected(NoFileUploaded);
      }
      var name := req.file.value;
      if name == "" {
        return Rejected(NoSelectedFile);
      }
      var result := read(ReaderFor(name));
      if result.ReadRaised? {
        return Rejected(ReadFailed(result.message));
      }
      data := Some(result.frame);
      response := Uploaded(NumericNames(result.frame.columns), name);
    }

    /** `train_model`: writes `current_features` before fitting, then `current_model`. */
    method Train(req: TrainRequest, fit: (Frame, string, string) -> FitOutcome) returns (response: Response)
      modifies this`model, this`features
      ensures Step(Snapshot(), response) == HandleTrain(old(Snapshot()), req, fit)
    {
      if data.None? {
        return Rejected(NoDataUploaded);
      }
      if !Listed(data.value, req.x) || !Listed(data.value, req.y) {
        return Rejected(InvalidColumns);
      }
      features := features.(x := req.x);
      features := features.(y := req.y);
      var outcome := fit(data.value, req.x.value, req.y.value);
      if outcome.FitRaised? {
        return Rejected(Uncaught);
      }
      model := Some(outcome.model);
      if outcome.report.None? {
        return Rejected(Uncaught);
      }
      response := Trained(outcome.report.value);
    }

    /** `predict`: reads `current_model` and writes nothing. */
    method Predict(req: PredictRequest, parse: string -> Option<real>,
                   predict: (Model, real) -> Option<real>) returns (response: Response)
      ensures response == HandlePredict(Snapshot(), req, parse, predict)
    {
      if model.None? {
        return Rejected(ModelNotTrained);
      }
      if req.value.None? {
        return Rejected(Uncaught);
      }
      var v := parse(req.value.value);
      if v.None? {
        return Rejected(InvalidInputValue);
      }
      var p := predict(model.value, v.value);
      if p.None? {
        return Rejected(InvalidInputValue);
      }
      response := Predicted(p.value);
    }
  }
}
