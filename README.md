# Universal Regression Analysis System: workflow state machine

This project models the workflow core of a small regression web application, which has two halves.

- **The Flask server** (`app.py`) keeps a single-user session in three module globals: the uploaded table (`current_data`), the fitted linear model (`current_model`) and the chosen feature pair (`current_features`). Three handlers change them: `upload_file`, `train_model` and `predict`. Each checks its guards in a fixed order and answers with an error or a result.
- **The browser client** (`static/script.js`) encodes the workflow stage in the page: a `disabled` class on the column selection, the train button and the prediction group, plus the options and values of the X and Y selects. `uploadFile`, `populateDropdowns` and `trainModel` change them; `makePrediction` only displays a result.

## Layout

- `wrappers.dfy`: module `Wrappers`, an `Option` type that stands for Python's `None`.
- `dataset.dfy`: module `Dataset`. A table, known through its column labels and which of them are numeric. Proves that the numeric labels form a subsequence of all labels.
- `server.dfy`: module `Server`.
  - The handlers are pure functions over the three globals (`HandleUpload`, `HandleTrain`, `HandlePredict`). Their contracts say which guard rejects which request and which globals each path writes.
  - The class `Session` holds the globals as fields. Its methods perform the writes in the source's order. Each method is proved equal to its function.
- `server_trace.dfy`: module `ServerTrace`. Replays request sequences and proves:
  - the consistency invariant is kept;
  - the model is never cleared;
  - `current_data` holds the last successful upload.

  It also states the source's quirks as lemmas.
- `client.dfy`: module `Client`.
  - The page state is a `View`, and each client handler is a function over it (`UploadStep`, `TrainStep`, `PredictStep`).
  - The class `Page` holds the same state as fields. Its methods follow `script.js` step by step, including the option-appending loop of `populateDropdowns`.
- `client_trace.dfy`: module `ClientTrace`. Replays user actions, including the browser's choice of an enabled option. Proves:
  - the page stays coherent;
  - the selects offer the columns of the last successful upload;
  - every train request names two distinct columns of that upload.

Foreign code becomes a function parameter:
- the pandas reader: `Reader -> ReadResult`, which may raise;
- the scikit-learn split, fit, evaluation and plot: `(Frame, string, string) -> FitOutcome`;
- Python's `float`: `string -> Option<real>`;
- the model's `predict`: `(Model, real) -> Option<real>`, where `None` is a ValueError.

Each client handler takes the server's reply (`Reply<T>`) in place of `fetch`.

Behaviour of the code worth noting:
- Re-uploading does not reset the downstream state.
  - The server keeps `current_model` and `current_features`.
  - The client leaves the prediction group enabled and the displayed statistics in place.
- The server checks only that both columns are labels of the table, of any dtype. It does not check that they differ.
- The client checks only that both choices are non-empty and different. It relies on the selects to offer only uploaded columns.
- A failed fit is not side-effect free: the features are stored before fitting.
- `makePrediction` does not check that a model was trained. Only the server rejects such a request.
- A successful `train_model` reply carries the slope, intercept, mean squared error, R² and the base64 plot. The client displays all of these except the mean squared error.

`Server.Status` and `Server.Message` only record the status code and error text of each error reply; no contract uses them. `Dataset.NamesMembership` and `Dataset.NumericNamesMembership` characterise the two column lists independently of their recursive definitions; the second is used by `ServerTrace.UploadedColumnsPassTrainGuard`.

## Model

| member | source | states |
|---|---|---|
| Dataset.NamesMembership | app.py:64 | a label is in the column list exactly when some column carries it |
| Dataset.NumericNamesSubsequence | app.py:47 | the numeric columns keep the table's order: they are a subsequence of all labels |
| Dataset.NumericNamesMembership | app.py:47 | a label is reported numeric exactly when some numeric column carries it |
| Dataset.SubsequenceMembers | app.py:47-48 | every returned numeric column is a column of the table |
| Server.HandleUpload | app.py:27-51 | a missing file part or an empty filename is rejected and changes nothing. Otherwise the reader is picked by the filename. A read that raises gives the exception text and changes nothing. A read that succeeds replaces the table and returns its numeric columns, as a subsequence of all columns, with the filename. The model and features are never written |
| Server.HandleTrain | app.py:54-119 | no table gives 'No data uploaded' and changes nothing. A column that is not a label of the table gives 'Invalid columns' and changes nothing. Otherwise the features become (x, y) whatever the fit does, the model becomes the fitted one only if the fit succeeds, and the report is returned only if evaluation also succeeds. The table is never written |
| Server.HandlePredict | app.py:122-131 | no model gives 'Model not trained'. A missing value raises uncaught. A value `float` rejects, or one the model's `predict` rejects with a ValueError, gives 'Invalid input value'. Otherwise the answer is the current model's prediction. No global is written |
| Server.Session.constructor | app.py:18-20 | the globals start with no table, no model and features (None, None) |
| Server.Session.Upload | app.py:27-51 | writes only `current_data`, exactly as `HandleUpload` says |
| Server.Session.Train | app.py:54-81 | writes the features before fitting and then the model, exactly as `HandleTrain` says |
| Server.Session.Predict | app.py:122-131 | writes nothing and answers as `HandlePredict` says |
| ServerTrace.ApplyKeepsConsistent | app.py:27-131 | each handler keeps "a model only with features, features or a model only with a table" |
| ServerTrace.RunKeepsConsistent | app.py:18-131 | every sequence of requests keeps that invariant |
| ServerTrace.RunKeepsAModel | app.py:27-81 | once a model is stored, no request removes it |
| ServerTrace.RunHoldsLastUpload | app.py:40-44 | after any sequence of requests the table is that of the last successful upload, or the earlier one if none succeeded |
| ServerTrace.UploadedColumnsPassTrainGuard | app.py:47-65 | every column an upload returns is a numeric column of the stored table, so any two of them pass the column guard of a later train |
| ServerTrace.CsvSuffixPicksCsvReader | app.py:41-42 | a name ending in ".csv" is read with the CSV reader |
| ServerTrace.UpperCaseCsvPicksExcelReader | app.py:41-44 | the suffix test is case-sensitive: "data.CSV" goes to the Excel reader |
| ServerTrace.UploadKeepsTrainedModel | app.py:28 | after any upload, `predict` still answers with the model trained before it |
| ServerTrace.TrainAcceptsNonNumericColumn | app.py:64-65 | a column absent from the upload reply, because it is not numeric, still passes the column guard and reaches the fit |
| ServerTrace.TrainAcceptsSameColumn | app.py:61-73 | the same column as X and Y passes the guards and is stored as both features |
| ServerTrace.FailedFitStoresFeatures | app.py:72-81 | a fit that raises leaves the new features beside the previous model |
| Client.UploadStep | static/script.js:54-90 | a successful upload gives exactly the old page with: the banner showing the filename; both selects rebuilt as placeholder plus the returned columns in order; both choices ""; column selection and training enabled. Everything else is unchanged, including the train label and the prediction group. Both selects then offer exactly the returned columns, and their values are "" followed by the columns. A failed upload changes only the banner |
| Client.TrainStep | static/script.js:92-129 | no request leaves exactly when a choice is empty or both are equal, and then the page is unchanged. An empty choice raises "Please select both X and Y variables." (checked first); equal choices raise "X and Y variables must be different.". Otherwise the request carries the two choices and the button ends enabled and reading its usual label. A failure alerts "Analysis Error: " with the message and changes nothing else. A success also shows the statistics and enables prediction, with no alert |
| Client.PredictStep | static/script.js:131-150 | an empty input sends nothing and changes nothing. Otherwise the input is sent. A successful reply is displayed and raises no alert. A failure alerts "Prediction Error: " with the message and changes nothing. Nothing but the displayed prediction ever changes |
| Client.PopulatedOffers | static/script.js:82-90 | a rebuilt select offers exactly the columns, and its values are "" followed by the columns |
| Client.ColumnOptionsOffer | static/script.js:86-89 | the appended options carry the columns in order, all selectable |
| Client.Page.constructor | static/script.js:10-15 | the page starts with the banner hidden, every stage control disabled and empty selects |
| Client.Page.PopulateDropdowns | static/script.js:82-90 | resets both selects to their placeholder and appends one option per column, in order, to each |
| Client.Page.UploadFile | static/script.js:54-80 | changes the page exactly as `UploadStep` says. While the request is pending, its ghost snapshot shows the banner reading "Uploading..." |
| Client.Page.TrainModel | static/script.js:92-129 | changes the page, sends and alerts exactly as `TrainStep` says. When a request is sent, its ghost snapshot of the pending page has the button disabled and reading "Analyzing..." |
| Client.Page.MakePrediction | static/script.js:131-150 | writes only the displayed prediction, exactly as `PredictStep` says |
| ClientTrace.EnabledIsOffered | static/script.js:83-88 | the value of any selectable option is among the offered columns |
| ClientTrace.ActKeepsCoherent | static/script.js:54-150 | each action keeps the page coherent |
| ClientTrace.ReplayKeepsCoherent | static/script.js:54-150 | every sequence of actions keeps the page coherent. Coherent means: the button is not left "Analyzing...", selection and training are enabled together once columns are loaded, prediction only after that, both selects offer the same values, and each choice is "" or an offered column |
| ClientTrace.ReplayOffersLastUpload | static/script.js:73-89 | after any actions, the selects offer the columns of the last successful upload |
| ClientTrace.SentTrainRequestIsValid | static/script.js:92-107 | on a coherent page a train request names two distinct, non-empty, offered columns |
| ClientTrace.TrainRequestsNameUploadedColumns | static/script.js:54-107 | starting from the loaded page, a train request is sent only after a successful upload, and it names two distinct columns of the last one |
| ClientTrace.FailureKeepsStage | static/script.js:69-79 | on a coherent page a failed upload, train or prediction leaves every enable flag, both selects and both choices as they were |

## Left out

- HTTP routing, JSON envelopes and the home page (app.py:22-24, 133-134). Error replies keep their text and status (`Server.Message`, `Server.Status`).
- Saving the upload to disk and creating the upload folder (app.py:14-15, 37-38). Neither is modelled, and neither is an exception raised by saving.
- The pandas readers and `select_dtypes`. A table is its labelled columns with a numeric flag. The reader is a parameter that returns a table or an exception.
- Column labels are modelled as strings only. `read_excel` can produce int, float or date labels, such as a header cell 2020. The upload reply lists them, the client sends them back as text ("2020"), and the `in current_data.columns` test of `train_model` then rejects them with 'Invalid columns'. `ServerTrace.UploadedColumnsPassTrainGuard` and `ClientTrace.TrainRequestsNameUploadedColumns` therefore hold only for tables whose labels are all strings, as read by `read_csv`.
- The scikit-learn split, fit, prediction and metrics, and the matplotlib plot (app.py:76-111). They are floating-point work in foreign libraries. The model is an opaque token and the report an opaque record.
- `float` parsing and `toFixed` formatting (app.py:127; static/script.js:113-116, 145). Floating-point text handling is abstracted as "parse may fail"; displayed numbers are kept unformatted.
- A request body that is not JSON, or whose values are not strings (app.py:57-59, 127). Requests carry optional strings only.
- `fetch`, `async`/`await`, drag-and-drop and the file-input listeners (static/script.js:31-50). Each client action takes the server's reply as a parameter.
- `alert` is returned as a value. `innerHTML` markup and attribute escaping are not modelled.
- index.html is not part of this model. The page is assumed to load with the banner hidden, every stage control disabled and empty selects.
- Overlapping requests. The `disabled` class does not block clicks, so a second action while one is pending is possible. Each action is modelled as completing before the next starts.
- `current_features` is written but never read by any handler. It is modelled as written.
