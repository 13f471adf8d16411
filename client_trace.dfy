/**
 * Sequences of user actions on the page and what they keep true: the two
 * selects always agree, a choice is always an offered column, and the stage
 * controls are enabled in order.
 */
module ClientTrace {

  import opened Wrappers
  import opened Client

  /** A user action, with the server's reply to the request it may send. */
  datatype Action =
    | Upload(upload: Reply<UploadBody>)
    | PickX(xIndex: nat)
    | PickY(yIndex: nat)
    | Train(train: Reply<TrainBody>)
    | Predict(input: string, predict: Reply<real>)

  /** The browser's select: the user can choose only an enabled option. */
  function Pick(options: seq<SelectOption>, i: nat, current: string): string
  {
    if i < |options| && options[i].enabled then options[i].value else current
  }

  function Act(v: View, a: Action): View
  {
    match a
    case Upload(reply) => UploadStep(v, reply)
    case PickX(i) => v.(xValue := Pick(v.xOptions, i, v.xValue))
    case PickY(i) => v.(yValue := Pick(v.yOptions, i, v.yValue))
    case Train(reply) => TrainStep(v, reply).view
    case Predict(input, reply) => PredictStep(v, input, reply).view
  }

  /** The page after the actions, in order. */
  function Replay(v: View, actions: seq<Action>): View
    decreases |actions|
  {
    if actions == [] then v else Replay(Act(v, actions[0]), actions[1..])
  }

  /** The columns of the last successful upload among the actions. */
  function LastColumns(actions: seq<Action>): Option<seq<string>>
  {
    if actions == [] then None
    else
      var later := LastColumns(actions[1..]);
      if later.Some? then later
      else if actions[0].Upload? && actions[0].upload.Ok? then Some(actions[0].upload.value.columns)
      else None
  }

  /**
   * What every reachable page satisfies between actions: the button is not
   * left "Analyzing...", column selection and training are enabled together
   * once columns are loaded, prediction only after that, both selects offer
   * the same values, and each choice is empty or an offered column.
   */
  ghost predicate Coherent(v: View)
  {
    && v.trainLabel == Ready
    && v.columnSelection == v.trainButton == (v.xOptions != [])
    && (v.predictGroup ==> v.trainButton)
    && Values(v.xOptions) == Values(v.yOptions)
    && Offered(v.xOptions) == Offered(v.yOptions)
    && (v.xValue == "" || v.xValue in Offered(v.xOptions))
    && (v.yValue == "" || v.yValue in Offered(v.yOptions))
  }

  /** The value of an enabled option is offered. */
  lemma {:induction false} EnabledIsOffered(options: seq<SelectOption>, i: nat)
    requires i < |options| && options[i].enabled
    ensures options[i].value in Offered(options)
    decreases i
  {
    if i > 0 {
      EnabledIsOffered(options[1..], i - 1);
    }
  }

  /** A non-empty offered value comes from a non-empty select. */
  lemma OfferedFromSomeOption(options: seq<SelectOption>, s: string)
    requires s in Offered(options)
    ensures options != []
  {
  }

  lemma ActKeepsCoherent(v: View, a: Action)
    requires Coherent(v)
    ensures Coherent(Act(v, a))
  {
    match a
    case Upload(reply) =>
      if reply.Ok? {
        PopulatedOffers(PlaceholderX, reply.value.columns);
        PopulatedOffers(PlaceholderY, reply.value.columns);
      }
    case PickX(i) =>
      if i < |v.xOptions| && v.xOptions[i].enabled {
        EnabledIsOffered(v.xOptions, i);
      }
    case PickY(i) =>
      if i < |v.yOptions| && v.yOptions[i].enabled {
        EnabledIsOffered(v.yOptions, i);
      }
    case Train(reply) =>
      if TrainStep(v, reply).request.Some? {
        OfferedFromSomeOption(v.xOptions, v.xValue);
      }
    case Predict(_, _) =>
  }

  /** Every sequence of actions from a coherent page leaves it coherent. */
  lemma {:induction false} ReplayKeepsCoherent(v: View, actions: seq<Action>)
    requires Coherent(v)
    ensures Coherent(Replay(v, actions))
    decreases |actions|
  {
    if actions != [] {
      ActKeepsCoherent(v, actions[0]);
      ReplayKeepsCoherent(Act(v, actions[0]), actions[1..]);
    }
  }

  /** One action: a successful upload offers its columns in both selects; any other action keeps both offers. */
  lemma ActOffers(v: View, a: Action)
    ensures Offered(Act(v, a).xOptions) ==
      (if a.Upload? && a.upload.Ok? then a.upload.value.columns else Offered(v.xOptions))
    ensures Offered(Act(v, a).yOptions) ==
      (if a.Upload? && a.upload.Ok? then a.upload.value.columns else Offered(v.yOptions))
  {
  }

  /** Only the most recent successful upload decides what the selects offer. */
  lemma {:induction false} ReplayOffersLastUpload(v: View, actions: seq<Action>)
    ensures Offered(Replay(v, actions).xOptions) ==
      (if LastColumns(actions).Some? then LastColumns(actions).value else Offered(v.xOptions))
    ensures Offered(Replay(v, actions).yOptions) ==
      (if LastColumns(actions).Some? then LastColumns(actions).value else Offered(v.yOptions))
    decreases |actions|
  {
    if actions != [] {
      ActOffers(v, actions[0]);
      ReplayOffersLastUpload(Act(v, actions[0]), actions[1..]);
    }
  }

  /** On a coherent page a train request names two different columns that both selects offer. */
  lemma SentTrainRequestIsValid(v: View, reply: Reply<TrainBody>)
    requires Coherent(v) && TrainStep(v, reply).request.Some?
    ensures
      var r := TrainStep(v, reply).request.value;
      && r.xColumn != "" && r.yColumn != "" && r.xColumn != r.yColumn
      && r.xColumn in Offered(v.xOptions) && r.yColumn in Offered(v.yOptions)
  {
  }

  /**
   * From the loaded page, whatever the user did, a train request is sent only
   * after a successful upload and names two different columns of the last one.
   */
  lemma TrainRequestsNameUploadedColumns(actions: seq<Action>, reply: Reply<TrainBody>)
    requires TrainStep(Replay(Initial, actions), reply).request.Some?
    ensures
      var r := TrainStep(Replay(Initial, actions), reply).request.value;
      && LastColumns(actions).Some?
      && r.xColumn != r.yColumn
      && r.xColumn in LastColumns(actions).value && r.yColumn in LastColumns(actions).value
  {
    var v := Replay(Initial, actions);
    ReplayKeepsCoherent(Initial, actions);
    ReplayOffersLastUpload(Initial, actions);
    SentTrainRequestIsValid(v, reply);
  }

  /** On a coherent page, a failed upload, train or prediction leaves every enable flag and both selects as they were. */
  lemma FailureKeepsStage(v: View, a: Action)
    requires Coherent(v)
    requires (a.Upload? && a.upload.Failed?) || (a.Train? && a.train.Failed?) || (a.Predict? && a.predict.Failed?)
    ensures
      var w := Act(v, a);
      && w.columnSelection == v.columnSelection && w.trainButton == v.trainButton && w.predictGroup == v.predictGroup
      && w.xOptions == v.xOptions && w.yOptions == v.yOptions && w.xValue == v.xValue && w.yValue == v.yValue
  {
    if a.Train? && TrainStep(v, a.train).request.Some? {
      OfferedFromSomeOption(v.xOptions, v.xValue);
    }
  }
}
