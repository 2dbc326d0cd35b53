/**
 * What the two endpoints answer and how they change the forecast table, as
 * functions of the configuration, the table before the request and the request
 * body. The imperative handlers in module Handlers are proved to agree with them.
 */
module Lifecycle {
  import opened Wrappers
  import opened Json
  import opened Features
  import opened Inference
  import opened Ledger

  /** The `{'error': ...}` answers both endpoints give. */
  datatype ErrorKind =
    | InvalidInput
    | FeatureNotFound
    | DtypeCasting
    | PredictionFailed
    | ForecastExists
    | InvalidActualsInput
    | NoMatchingForecast

  datatype Response =
    | Rejected(kind: ErrorKind)
      /** An exception no handler catches: the server answers with an internal error. */
    | ServerFault
    | Forecasted(sku: string, timeKey: JsonValue, predA: real, probaA: real, predB: real, probaB: real)
    | Reconciled(sku: string, timeKey: JsonValue, actualA: JsonValue, actualB: JsonValue)

  /** The process-wide, read-only collaborators: feature store, manifests and pipelines. */
  datatype Env = Env(
    store: FeatureStore,
    cast: Caster,
    schemaA: Schema,
    schemaB: Schema,
    pipelineA: Pipeline,
    pipelineB: Pipeline)

  datatype Outcome = Outcome(response: Response, table: Table)

  /** The text of the `error` field; `detail` is the exception text of the two f-strings. */
  function ErrorText(kind: ErrorKind, detail: string): string
  {
    match kind
    case InvalidInput => "Invalid input"
    case FeatureNotFound => "SKU or date not found"
    case DtypeCasting => "Dtype casting error: " + detail
    case PredictionFailed => "Prediction error: " + detail
    case ForecastExists => "Forecast exists"
    case InvalidActualsInput => "Invalid actuals input"
    case NoMatchingForecast => "No matching forecast"
  }

  /** A client can tell every error kind from its text, whatever the exception detail. */
  lemma ErrorTextIdentifiesKind(k1: ErrorKind, d1: string, k2: ErrorKind, d2: string)
    requires ErrorText(k1, d1) == ErrorText(k2, d2)
    ensures k1 == k2
  {
    var t := ErrorText(k1, d1);
    assert t[0] == ErrorText(k2, d2)[0];
    if k1 == InvalidInput || k1 == InvalidActualsInput {
      assert t[8] == ErrorText(k2, d2)[8];
    }
  }

  /** The validated key: `sku` a string and `time_key` an int (or a bool). */
  function KeyOf(data: Payload): Option<Key>
  {
    var sku := Get(data, "sku");
    var tk := Get(data, "time_key");
    if IsStr(sku) && IsInt(tk) then Some(Key(sku.s, IntOf(tk))) else None
  }

  /** How the forecast endpoint answers a feature resolution failure. */
  function FeatureErrorResponse(e: FeatureError): Response
  {
    match e
    case NotFound => Rejected(FeatureNotFound)
    case DtypeError => Rejected(DtypeCasting)
    case MissingColumn => ServerFault
  }

  /**
   * `forecast_prices`: validate, resolve features, run both pipelines, then
   * insert once. The table changes exactly when the answer is a forecast, and
   * then only by one fresh record under a key that had none.
   */
  function ForecastOutcome(env: Env, t: Table, body: JsonValue): (o: Outcome)
    ensures o.response.Forecasted? <==> o.table != t
    ensures o.response.Forecasted? ==>
      && IsInt(o.response.timeKey)
      && var key := Key(o.response.sku, IntOf(o.response.timeKey));
      && key !in t
      && o.table == t[key := Fresh(o.response.predA, o.response.predB)]
    ensures !o.response.Reconciled?
  {
    match PayloadOf(body)
    case None => Outcome(ServerFault, t)
    case Some(data) =>
      match KeyOf(data)
      case None => Outcome(Rejected(InvalidInput), t)
      case Some(key) =>
        match BuildFeatures(env.store, env.cast, env.schemaA, env.schemaB, key)
        case Failure(e) => Outcome(FeatureErrorResponse(e), t)
        case Success(frames) =>
          match Infer(env.pipelineA, env.pipelineB, frames.0, frames.1)
          case None => Outcome(Rejected(PredictionFailed), t)
          case Some(s) =>
            if key in t then Outcome(Rejected(ForecastExists), t)
            else
              var record := Fresh(s.predA, s.predB);
              Outcome(Forecasted(key.sku, Get(data, "time_key"), s.predA, s.probaA, s.predB, s.probaB),
                      t[key := record])
  }

  /** The validation of `actual_prices`: a key and two numeric actuals. */
  predicate ActualsInputValid(data: Payload)
  {
    KeyOf(data).Some? && IsNumber(Get(data, "pvp_actual_A")) && IsNumber(Get(data, "pvp_actual_B"))
  }

  /** A record after `rec.pvp_actual_A = aA; rec.pvp_actual_B = aB`. */
  function WithActuals(rec: ForecastRecord, actualA: real, actualB: real): ForecastRecord
  {
    rec.(actualA := Some(actualA), actualB := Some(actualB))
  }

  /**
   * `actual_prices`: validate, look the forecast up, overwrite its two actual
   * fields. No key is ever added or removed, and the table changes only on a
   * reconciliation, and then only in the actuals of the submitted key.
   */
  function ActualsOutcome(t: Table, body: JsonValue): (o: Outcome)
    ensures o.table.Keys == t.Keys
    ensures !o.response.Reconciled? ==> o.table == t
    ensures o.response.Reconciled? ==>
      && IsInt(o.response.timeKey)
      && IsNumber(o.response.actualA) && IsNumber(o.response.actualB)
      && var key := Key(o.response.sku, IntOf(o.response.timeKey));
      && key in t
      && o.table == t[key := WithActuals(t[key], FloatOf(o.response.actualA), FloatOf(o.response.actualB))]
    ensures !o.response.Forecasted?
  {
    match PayloadOf(body)
    case None => Outcome(ServerFault, t)
    case Some(data) =>
      if !ActualsInputValid(data) then Outcome(Rejected(InvalidActualsInput), t)
      else
        var key := KeyOf(data).value;
        if key !in t then Outcome(Rejected(NoMatchingForecast), t)
        else
          var actualA := Get(data, "pvp_actual_A");
          var actualB := Get(data, "pvp_actual_B");
          Outcome(Reconciled(key.sku, Get(data, "time_key"), actualA, actualB),
                  t[key := WithActuals(t[key], FloatOf(actualA), FloatOf(actualB))])
  }

  // ---------------------------------------------------------------------------
  // Forecast endpoint: one lemma per way the chain can end.
  // ---------------------------------------------------------------------------

  /**
   * Invalid input is answered before any collaborator is consulted: the answer is
   * the same under any two configurations, and the table is untouched.
   */
  lemma ForecastRejectsInvalidInput(env1: Env, env2: Env, t: Table, body: JsonValue, data: Payload)
    requires PayloadOf(body) == Some(data) && KeyOf(data).None?
    ensures ForecastOutcome(env1, t, body) == Outcome(Rejected(InvalidInput), t)
    ensures ForecastOutcome(env2, t, body) == ForecastOutcome(env1, t, body)
  {
  }

  /** No feature row for the key: "SKU or date not found", table untouched. */
  lemma ForecastWithoutFeatureRow(env: Env, t: Table, body: JsonValue, data: Payload, key: Key)
    requires PayloadOf(body) == Some(data) && KeyOf(data) == Some(key)
    requires key !in env.store
    ensures ForecastOutcome(env, t, body) == Outcome(Rejected(FeatureNotFound), t)
  {
  }

  /**
   * A failed cast of either frame: "Dtype casting error", table untouched, and the
   * pipelines are never consulted (any other pair of pipelines gives the same outcome).
   */
  lemma ForecastCastFailure(env: Env, pa: Pipeline, pb: Pipeline, t: Table, body: JsonValue,
                            data: Payload, key: Key)
    requires PayloadOf(body) == Some(data) && KeyOf(data) == Some(key)
    requires key in env.store
    requires HasColumns(env.store[key], env.schemaA.columns) && HasColumns(env.store[key], env.schemaB.columns)
    requires || env.cast(Restrict(env.store[key], env.schemaA.columns), env.schemaA.dtypes).None?
             || env.cast(Restrict(env.store[key], env.schemaB.columns), env.schemaB.dtypes).None?
    ensures ForecastOutcome(env, t, body) == Outcome(Rejected(DtypeCasting), t)
    ensures ForecastOutcome(env.(pipelineA := pa, pipelineB := pb), t, body) == ForecastOutcome(env, t, body)
  {
  }

  /**
   * A row lacking a manifest column makes the projection raise outside any `try`:
   * the request fails with a server error and nothing is written.
   */
  lemma ForecastMissingColumn(env: Env, t: Table, body: JsonValue, data: Payload, key: Key)
    requires PayloadOf(body) == Some(data) && KeyOf(data) == Some(key)
    requires key in env.store
    requires !HasColumns(env.store[key], env.schemaA.columns) || !HasColumns(env.store[key], env.schemaB.columns)
    ensures ForecastOutcome(env, t, body) == Outcome(ServerFault, t)
  {
  }

  /** Any of the four pipeline calls failing: "Prediction error", and no partial record. */
  lemma ForecastInferenceFailure(env: Env, t: Table, body: JsonValue, data: Payload, key: Key,
                                 frameA: Frame, frameB: Frame)
    requires PayloadOf(body) == Some(data) && KeyOf(data) == Some(key)
    requires BuildFeatures(env.store, env.cast, env.schemaA, env.schemaB, key) == Success((frameA, frameB))
    requires || env.pipelineA.predict(frameA).None? || env.pipelineA.confidence(frameA).None?
             || env.pipelineB.predict(frameB).None? || env.pipelineB.confidence(frameB).None?
    ensures ForecastOutcome(env, t, body) == Outcome(Rejected(PredictionFailed), t)
  {
  }

  /**
   * A key that already has a forecast never gets another: the existing record and
   * the rest of the table stay as they were, and once every earlier step succeeds
   * the answer is "Forecast exists".
   */
  lemma ForecastDuplicate(env: Env, t: Table, body: JsonValue, data: Payload, key: Key)
    requires PayloadOf(body) == Some(data) && KeyOf(data) == Some(key)
    requires key in t
    ensures ForecastOutcome(env, t, body).table == t
    ensures !ForecastOutcome(env, t, body).response.Forecasted?
    ensures (&& BuildFeatures(env.store, env.cast, env.schemaA, env.schemaB, key).Success?
             && var frames := BuildFeatures(env.store, env.cast, env.schemaA, env.schemaB, key).value;
             && Infer(env.pipelineA, env.pipelineB, frames.0, frames.1).Some?)
            ==> ForecastOutcome(env, t, body).response == Rejected(ForecastExists)
  {
  }

  /**
   * The success path: exactly one record is added, under the request's key, with
   * both predictions set and both actuals unset; the answer echoes the request's
   * sku and time_key with both predictions and confidences.
   */
  lemma ForecastCreates(env: Env, t: Table, body: JsonValue, data: Payload, key: Key,
                        frameA: Frame, frameB: Frame, s: Scores)
    requires PayloadOf(body) == Some(data) && KeyOf(data) == Some(key)
    requires key !in t
    requires BuildFeatures(env.store, env.cast, env.schemaA, env.schemaB, key) == Success((frameA, frameB))
    requires Infer(env.pipelineA, env.pipelineB, frameA, frameB) == Some(s)
    ensures var o := ForecastOutcome(env, t, body);
      && o.response == Forecasted(key.sku, Get(data, "time_key"), s.predA, s.probaA, s.predB, s.probaB)
      && o.table.Keys == t.Keys + {key}
      && |o.table| == |t| + 1
      && o.table[key].predA == s.predA && o.table[key].predB == s.predB
      && o.table[key].actualA.None? && o.table[key].actualB.None?
      && forall k :: k in t ==> o.table[k] == t[k]
  {
  }

  /** Forecasting the same request twice: a success is always followed by "Forecast exists". */
  lemma ForecastTwice(env: Env, t: Table, body: JsonValue)
    ensures var first := ForecastOutcome(env, t, body);
      first.response.Forecasted? ==>
        ForecastOutcome(env, first.table, body) == Outcome(Rejected(ForecastExists), first.table)
  {
  }

  // ---------------------------------------------------------------------------
  // Actuals endpoint.
  // ---------------------------------------------------------------------------

  /** Malformed actuals: "Invalid actuals input", table untouched. */
  lemma ActualsRejectsInvalidInput(t: Table, body: JsonValue, data: Payload)
    requires PayloadOf(body) == Some(data) && !ActualsInputValid(data)
    ensures ActualsOutcome(t, body) == Outcome(Rejected(InvalidActualsInput), t)
  {
  }

  /** Actuals for a key with no forecast: "No matching forecast", table untouched. */
  lemma ActualsWithoutForecast(t: Table, body: JsonValue, data: Payload, key: Key)
    requires PayloadOf(body) == Some(data) && ActualsInputValid(data) && KeyOf(data) == Some(key)
    requires key !in t
    ensures ActualsOutcome(t, body) == Outcome(Rejected(NoMatchingForecast), t)
  {
  }

  /**
   * Actuals for a forecast key set exactly that record's two actual fields to the
   * submitted values; its predictions and every other record stay as they were.
   */
  lemma ActualsUpdateOnlyActuals(t: Table, body: JsonValue, data: Payload, key: Key)
    requires PayloadOf(body) == Some(data) && ActualsInputValid(data) && KeyOf(data) == Some(key)
    requires key in t
    ensures var o := ActualsOutcome(t, body);
      && o.response == Reconciled(key.sku, Get(data, "time_key"),
                                  Get(data, "pvp_actual_A"), Get(data, "pvp_actual_B"))
      && key in o.table
      && o.table[key].predA == t[key].predA && o.table[key].predB == t[key].predB
      && o.table[key].actualA == Some(FloatOf(Get(data, "pvp_actual_A")))
      && o.table[key].actualB == Some(FloatOf(Get(data, "pvp_actual_B")))
      && forall k :: k in t && k != key ==> o.table[k] == t[k]
  {
  }

  /**
   * A second submission for the same key is not refused: it overwrites the
   * actuals, so the table is as if only the second had been sent.
   */
  lemma ActualsOverwrite(t: Table, body1: JsonValue, body2: JsonValue, data1: Payload, data2: Payload)
    requires PayloadOf(body1) == Some(data1) && ActualsInputValid(data1)
    requires PayloadOf(body2) == Some(data2) && ActualsInputValid(data2)
    requires KeyOf(data1) == KeyOf(data2)
    ensures ActualsOutcome(ActualsOutcome(t, body1).table, body2) == ActualsOutcome(t, body2)
  {
  }

  /**
   * The round trip of a key's lifecycle: a forecast followed by actuals for the
   * same key leaves a record holding the predictions of the first request and the
   * actuals of the second.
   */
  lemma ForecastThenActuals(env: Env, t: Table, fbody: JsonValue, abody: JsonValue, adata: Payload)
    requires ForecastOutcome(env, t, fbody).response.Forecasted?
    requires PayloadOf(abody) == Some(adata) && ActualsInputValid(adata)
    requires KeyOf(adata).value == KeyOf(PayloadOf(fbody).value).value
    ensures var f := ForecastOutcome(env, t, fbody);
      var a := ActualsOutcome(f.table, abody);
      var key := KeyOf(adata).value;
      && a.response.Reconciled?
      && key in a.table
      && a.table[key] == ForecastRecord(f.response.predA, f.response.predB,
                                        Some(FloatOf(Get(adata, "pvp_actual_A"))),
                                        Some(FloatOf(Get(adata, "pvp_actual_B"))))
  {
  }
}
