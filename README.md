# Forecast lifecycle of the price-forecast API server

This project models the core of `api_server_5.py`, a small Flask service that
serves price forecasts for a (SKU, time period) key and later reconciles them with
the realised prices. The model covers three parts:

- **Request validation.** Each handler reads fields from the decoded JSON body and
  checks them with Python's `isinstance`. In Python a JSON `true`/`false` passes as
  an `int` and as a number.
- **The forecast pipeline.** `build_features` looks the key up in the read-only
  feature store, projects the row onto the column manifests of pipelines A and B,
  and casts both frames to their dtype manifests. `forecast_prices` then makes the
  four pipeline calls and inserts the forecast once. The chain stops at the first
  failure.
- **The forecast ledger.** This is the `Forecast` table, unique on (sku, time_key).
  `forecast_prices` inserts into it with an atomic insert-if-absent.
  `actual_prices` looks a record up and overwrites its two actual fields.

Modules:

- `Wrappers`: `Option` and `Result`.
- `Json`: decoded request values, Python truthiness, `dict.get` and the `isinstance` checks.
- `Features`: keys, rows, frames and manifests; `Project` and `BuildFeatures`.
- `Inference`: the two opaque pipelines and the all-or-nothing `Infer`.
- `Ledger`: the class `ForecastTable`, whose `rows` map is the table. Its methods
  are `Create` (`Forecast.create`), `Get` (`Forecast.get`) and `Save` (`rec.save()`).
- `Lifecycle`: what each endpoint answers and what it leaves in the table, as
  functions (`ForecastOutcome`, `ActualsOutcome`), with one lemma per outcome.
- `Handlers`: the two endpoints as imperative methods over a `ForecastTable`. They
  are proved to agree with `Lifecycle`.
- `Traces`: any sequence of requests served in order. A stored forecast keeps its
  predictions, and a key is forecast successfully at most once.

External parts are parameters of the model, grouped in `Lifecycle.Env`:

- the feature store (a map from key to row);
- the two schemas (column list and dtype map);
- the cast (`DataFrame.astype`), a function that may fail;
- the two pipelines. Each gives a prediction and a confidence, and either may fail.

Behaviour of the code worth knowing, which the model reproduces:

- An empty string is accepted as a sku; only the type is checked.
- Every failure is meant to reach the client as a structured `{'error': ...}`
  answer. A feature row that lacks a manifest column breaks this: the projection
  raises `KeyError` at `api_server_5.py:42-43`, outside any `try`, so the server
  answers with an internal error (`ServerFault`).
- Actuals for a key can be submitted more than once. The code overwrites them on
  every submission and never refuses a repeat (`Lifecycle.ActualsOverwrite`).
- `data.get` fails on a body that is a truthy JSON value but not an object, such as
  a list, a string, a non-zero number or `true`. This too is an uncaught error.

## Model

| member | source | states |
|---|---|---|
| `Json.PayloadOf` | api_server_5.py:58-59 | `request.get_json() or {}`: a falsy body (`null`, `false`, `0`, `""`, `[]`, `{}`) reads as the empty dictionary; the handler fails with an uncaught error exactly when the body is truthy and not an object; an object body's fields are what the handler reads |
| `Json.BoolsPassAsIntegers` | api_server_5.py:59-60 | a JSON boolean passes `isinstance(_, int)` and `isinstance(_, (int, float))`, and as a key it stands for 1 or 0 |
| `Features.Project` | api_server_5.py:42-43 | the column comprehension succeeds exactly when the row has every manifest column, and then yields the row restricted to those columns |
| `Features.BuildFeatures` | api_server_5.py:36-49 | the outcome is fully characterised: "not found" iff there is no row for the key; a missing-column failure iff the row lacks a column of either manifest; a dtype error iff both projections exist and either cast fails; on success the two frames are exactly the casts of the two projections |
| `Inference.Infer` | api_server_5.py:65-71 | scores exist iff all four pipeline calls succeed, so no partial result; each value comes from its own pipeline run on its own frame |
| `Ledger.ForecastTable.Create` | api_server_5.py:72-75 | atomic insert-if-absent: it succeeds iff the key was absent; it then adds one record with both predictions and null actuals; otherwise the table is unchanged |
| `Ledger.ForecastTable.Get` | api_server_5.py:90-93 | it finds a record iff the key is present, and returns that record |
| `Ledger.ForecastTable.Save` | api_server_5.py:94 | an update by primary key: it replaces the record of a present key and changes nothing else |
| `Lifecycle.ErrorTextIdentifiesKind` | api_server_5.py:60-93 | the `error` texts of different error kinds never coincide, whatever the exception detail in the two f-string messages |
| `Lifecycle.ForecastOutcome` | api_server_5.py:57-80 | the table changes iff the answer is a forecast; the new table is then the old one plus one fresh record under the reported key, which had no forecast before |
| `Lifecycle.ActualsOutcome` | api_server_5.py:83-98 | no key is ever added or removed; the table changes only on a reconciliation, and then only the reported key's actuals are set, to the float values of the submitted numbers |
| `Lifecycle.ForecastRejectsInvalidInput` | api_server_5.py:59-61 | a non-string sku or a non-int time_key gives "Invalid input" with the table unchanged, and the answer does not depend on the store, manifests or pipelines |
| `Lifecycle.ForecastWithoutFeatureRow` | api_server_5.py:37-40 | no feature row for the key gives "SKU or date not found" with the table unchanged |
| `Lifecycle.ForecastMissingColumn` | api_server_5.py:41-43 | a row lacking a manifest column gives an uncaught error with the table unchanged |
| `Lifecycle.ForecastCastFailure` | api_server_5.py:44-48 | a failed cast of either frame gives "Dtype casting error" with the table unchanged; the outcome is the same for any pipelines, so none is invoked |
| `Lifecycle.ForecastInferenceFailure` | api_server_5.py:65-71 | a failure of any of the four pipeline calls gives "Prediction error", and no record (partial or whole) is stored |
| `Lifecycle.ForecastDuplicate` | api_server_5.py:72-75 | for a key that already has a forecast, the table is unchanged and no forecast is answered; once every earlier step succeeds, the answer is "Forecast exists" |
| `Lifecycle.ForecastCreates` | api_server_5.py:73-80 | on success exactly one record is added under the request's key, with both predictions set and both actuals unset; the other records are unchanged; the answer echoes sku, time_key, both predictions and both confidences |
| `Lifecycle.ForecastTwice` | api_server_5.py:72-75 | repeating a request that succeeded gives "Forecast exists" and changes nothing |
| `Lifecycle.ActualsRejectsInvalidInput` | api_server_5.py:87-89 | a non-string sku, a non-int time_key or a non-numeric actual gives "Invalid actuals input" with the table unchanged |
| `Lifecycle.ActualsWithoutForecast` | api_server_5.py:90-93 | valid actuals for a key with no forecast give "No matching forecast" with the table unchanged |
| `Lifecycle.ActualsUpdateOnlyActuals` | api_server_5.py:94-98 | actuals for a stored key set exactly that record's two actual fields to the submitted values; its predictions and every other record are unchanged; the answer echoes the four submitted values |
| `Lifecycle.ActualsOverwrite` | api_server_5.py:90-94 | a repeated submission for the same key is not refused: the table ends as if only the last submission had been sent |
| `Lifecycle.ForecastThenActuals` | api_server_5.py:73-94 | a forecast followed by actuals for the same key leaves one record holding the forecast's predictions and the submitted actuals |
| `Handlers.ForecastPrices` | api_server_5.py:57-80 | the imperative endpoint (validate, resolve, four pipeline calls, insert) answers and updates the table exactly as `ForecastOutcome` says |
| `Handlers.ActualPrices` | api_server_5.py:83-98 | the imperative endpoint (validate, get, assign the actuals, save) answers and updates the table exactly as `ActualsOutcome` says |
| `Traces.RunKeepsForecast` | api_server_5.py:73-94 | over any sequence of requests, a stored forecast is never removed and its two predictions never change |
| `Traces.AtMostOneCreation` | api_server_5.py:72-75 | over any sequence of requests, a key is reported as newly forecast at most once, and never if it already had a forecast; a reported forecast is still stored at the end |

## Left out

- HTTP transport is not modelled: Flask routing, `jsonify`, status codes, `app.run`, and the 400/415 answers `get_json` gives to bodies that are not JSON. An uncaught exception is modelled only as `ServerFault`.
- Loading the pickled pipelines and the column and dtype manifests at start-up is file I/O. These are fixed parameters of the model (`Lifecycle.Env`).
- pandas `DataFrame` construction and `astype` belong to a library the model cannot see. The cast is an arbitrary function that may fail, and A's cast runs before B's. The model keeps a frame's columns as a map. Their order is that of the fixed manifest, so an arbitrary cast or pipeline over the map loses nothing.
- The sklearn calls `predict` and `predict_proba`, the `.max()` over the probabilities and the `float(...)` conversions are opaque. Each pipeline gives a prediction and a confidence directly, or fails. Predictions and confidences are reals on which nothing is computed.
- Exception texts inside the two f-string messages are not modelled. Only the error kind is kept, plus an arbitrary detail string in `Lifecycle.ErrorText`.
- The storage engine is not modelled, and neither are concurrent requests. `Forecast.create` is one atomic insert-if-absent, and requests are served one at a time (`Traces`). The unique constraint serialises only the inserts. The get-then-save of `actual_prices` is not atomic, so two concurrent actuals submissions for one key may interleave. Either way the last save wins and the predictions are never touched.
- The `Forecast` and `FeatureRow` model classes are not part of this model. The model assumes both actual columns are nullable and start out null.
- JSON numbers are exact: floats are reals, and `float(int)` does not round. `NaN` and `Infinity`, which Python's JSON decoder accepts, are not representable.
- A `time_key` outside SQLite's 64-bit integer range makes the database driver raise. The model treats keys as unbounded integers.
- Duplicate field names in a JSON object are resolved by the decoder, which is not part of this model.
