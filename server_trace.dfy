/**
 * Sequences of requests to the server and what they leave in the globals,
 * together with the quirks of app.py's guards stated as lemmas.
 */
module ServerTrace {

  import opened Wrappers
  import opened Dataset
  import opened Server

  /** One request with the behaviour of the foreign code it meets. */
  datatype Event =
    | UploadEvent(upload: UploadRequest, read: Reader -> ReadResult)
    | TrainEvent(train: TrainRequest, fit: (Frame, string, string) -> FitOutcome)
    | PredictEvent(predict: PredictRequest, parse: string -> Option<real>, model: (Model, real) -> Option<real>)

  function Apply(g: Globals, e: Event): Globals
  {
    match e
    case UploadEvent(req, read) => HandleUpload(g, req, read).globals
    case TrainEvent(req, fit) => HandleTrain(g, req, fit).globals
    case PredictEvent(_, _, _) => g
  }

  /** The globals after handling `events` in order. */
  function Run(g: Globals, events: seq<Event>): Globals
    decreases |events|
  {
    if events == [] then g else Run(Apply(g, events[0]), events[1..])
  }

  /** The table an event loads, independently of the globals: a named file that its reader reads. */
  function LoadedBy(e: Event): Option<Frame>
  {
    match e
    case UploadEvent(req, read) =>
      if req.file.Some? && req.file.value != "" && read(ReaderFor(req.file.value)).Read?
      then Some(read(ReaderFor(req.file.value)).frame)
      else None
    case _ => None
  }

  /** The table of the last event in `events` that loads one. */
  function LastLoaded(events: seq<Event>): Option<Frame>
  {
    if events == [] then None
    else
      var later := LastLoaded(events[1..]);
      if later.Some? then later else LoadedBy(events[0])
  }

  /**
   * What the handlers keep consistent: a model exists only with a stored
   * feature pair, and a feature pair or a model exists only with a table.
   */
  ghost predicate Consistent(g: Globals)
  {
    && (g.model.Some? ==> g.features.x.Some? && g.features.y.Some?)
    && (g.features.x.Some? || g.features.y.Some? || g.model.Some? ==> g.data.Some?)
  }

  lemma ApplyKeepsConsistent(g: Globals, e: Event)
    requires Consistent(g)
    ensures Consistent(Apply(g, e))
  {
  }

  /** Every sequence of requests keeps the globals consistent. */
  lemma {:induction false} RunKeepsConsistent(g: Globals, events: seq<Event>)
    requires Consistent(g)
    ensures Consistent(Run(g, events))
    decreases |events|
  {
    if events != [] {
      ApplyKeepsConsistent(g, events[0]);
      RunKeepsConsistent(Apply(g, events[0]), events[1..]);
    }
  }

  /** Once a model is stored, no request removes it: upload never clears it and train only replaces it. */
  lemma {:induction false} RunKeepsAModel(g: Globals, events: seq<Event>)
    requires g.model.Some?
    ensures Run(g, events).model.Some?
    decreases |events|
  {
    if events != [] {
      RunKeepsAModel(Apply(g, events[0]), events[1..]);
    }
  }

  /** Only the most recent successful upload decides `current_data`; with none, it is as before. */
  lemma {:induction false} RunHoldsLastUpload(g: Globals, events: seq<Event>)
    ensures Run(g, events).data == (if LastLoaded(events).Some? then LastLoaded(events) else g.data)
    decreases |events|
  {
    if events != [] {
      RunHoldsLastUpload(Apply(g, events[0]), events[1..]);
      assert Apply(g, events[0]).data == (if LoadedBy(events[0]).Some? then LoadedBy(events[0]) else g.data);
    }
  }

  /**
   * The columns an upload returns are numeric columns of the stored table,
   * so any two of them pass the column guard of a later train.
   */
  lemma UploadedColumnsPassTrainGuard(g: Globals, req: UploadRequest, read: Reader -> ReadResult, x: string, y: string)
    requires HandleUpload(g, req, read).response.Uploaded?
    requires x in HandleUpload(g, req, read).response.columns && y in HandleUpload(g, req, read).response.columns
    ensures
      var stored := HandleUpload(g, req, read).globals;
      && ColumnsValid(stored, TrainRequest(Some(x), Some(y)))
      && (exists i :: 0 <= i < |stored.data.value.columns| && stored.data.value.columns[i].numeric
                      && stored.data.value.columns[i].name == x)
  {
    var f := HandleUpload(g, req, read).globals.data.value;
    NumericNamesSubsequence(f.columns);
    SubsequenceMembers(NumericNames(f.columns), Names(f.columns), x);
    SubsequenceMembers(NumericNames(f.columns), Names(f.columns), y);
    NumericNamesMembership(f.columns, x);
  }

  /** A name ending in ".csv" is read with the CSV reader. */
  lemma CsvSuffixPicksCsvReader(stem: string)
    ensures ReaderFor(stem + ".csv") == CsvReader
  {
    assert (stem + ".csv")[|stem|..] == ".csv";
  }

  /** The suffix test is case-sensitive: "data.CSV" goes to the Excel reader. */
  lemma UpperCaseCsvPicksExcelReader()
    ensures ReaderFor("data.CSV") == ExcelReader
  {
    assert "data.CSV"[4..] != ".csv" by {
      assert "data.CSV"[4..][1] == 'C';
    }
  }

  /** An upload after training leaves the model in place, so `predict` still answers with it. */
  lemma UploadKeepsTrainedModel(g: Globals, req: UploadRequest, read: Reader -> ReadResult,
                                value: string, parse: string -> Option<real>,
                                predict: (Model, real) -> Option<real>)
    requires g.model.Some?
    requires parse(value).Some? && predict(g.model.value, parse(value).value).Some?
    ensures
      var after := HandleUpload(g, req, read).globals;
      HandlePredict(after, PredictRequest(Some(value)), parse, predict)
        == Predicted(predict(g.model.value, parse(value).value).value)
  {
  }

  /** The columns are checked against every label, so a non-numeric column passes the guard and reaches the fit. */
  lemma TrainAcceptsNonNumericColumn(model: Model, report: Report)
    ensures
      var f := Frame([Column("name", false), Column("age", true)]);
      var g := Initial.(data := Some(f));
      && "name" !in NumericNames(f.columns)
      && HandleTrain(g, TrainRequest(Some("name"), Some("age")), (_, _, _) => Fitted(model, Some(report)))
           == Step(g.(model := Some(model), features := Features(Some("name"), Some("age"))), Trained(report))
  {
    var f := Frame([Column("name", false), Column("age", true)]);
    assert Names(f.columns) == ["name", "age"];
    assert NumericNames(f.columns) == ["age"];
  }

  /** There is no check that the two columns differ: the same column twice is fitted. */
  lemma TrainAcceptsSameColumn(g: Globals, col: string, fit: (Frame, string, string) -> FitOutcome)
    requires g.data.Some? && col in Names(g.data.value.columns)
    ensures HandleTrain(g, TrainRequest(Some(col), Some(col)), fit).globals.features == Features(Some(col), Some(col))
  {
  }

  /** A fit that raises still leaves the new feature pair stored beside the previous model. */
  lemma FailedFitStoresFeatures(g: Globals, req: TrainRequest, fit: (Frame, string, string) -> FitOutcome)
    requires ColumnsValid(g, req) && fit(g.data.value, req.x.value, req.y.value).FitRaised?
    ensures HandleTrain(g, req, fit) == Step(g.(features := Features(req.x, req.y)), Rejected(Uncaught))
  {
  }
}
