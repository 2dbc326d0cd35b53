/**
 * The two endpoints as the server runs them: a short-circuit chain of steps over
 * the shared forecast table, each proved to answer and to change the table as
 * module Lifecycle says.
 */
module Handlers {
  import opened Wrappers
  import opened Json
  import opened Features
  import opened Inference
  import opened Ledger
  import opened Lifecycle

  /** `forecast_prices`: validate, resolve, infer, then insert once. */
  method ForecastPrices(env: Env, db: ForecastTable, body: JsonValue) returns (response: Response)
    modifies db
    ensures response == ForecastOutcome(env, old(db.rows), body).response
    ensures db.rows == ForecastOutcome(env, old(db.rows), body).table
  {
    var data := PayloadOf(body);
    if data.None? {
      return ServerFault;
    }
    var sku := Get(data.value, "sku");
    var tk := Get(data.value, "time_key");
    if !IsStr(sku) || !IsInt(tk) {
      return Rejected(InvalidInput);
    }
    var key := Key(sku.s, IntOf(tk));

    var features := BuildFeatures(env.store, env.cast, env.schemaA, env.schemaB, key);
    if features.Failure? {
      return FeatureErrorResponse(features.error);
    }
    var frameA, frameB := features.value.0, features.value.1;

    var predA := env.pipelineA.predict(frameA);
    if predA.None? {
      return Rejected(PredictionFailed);
    }
    var probaA := env.pipelineA.confidence(frameA);
    if probaA.None? {
      return Rejected(PredictionFailed);
    }
    var predB := env.pipelineB.predict(frameB);
    if predB.None? {
      return Rejected(PredictionFailed);
    }
    var probaB := env.pipelineB.confidence(frameB);
    if probaB.None? {
      return Rejected(PredictionFailed);
    }

    var created := db.Create(key, predA.value, predB.value);
    if !created {
      return Rejected(ForecastExists);
    }
    response := Forecasted(sku.s, tk, predA.value, probaA.value, predB.value, probaB.value);
  }

  /** `actual_prices`: validate, look the forecast up, overwrite its actuals and save. */
  method ActualPrices(db: ForecastTable, body: JsonValue) returns (response: Response)
    modifies db
    ensures response == ActualsOutcome(old(db.rows), body).response
    ensures db.rows == ActualsOutcome(old(db.rows), body).table
  {
    var data := PayloadOf(body);
    if data.None? {
      return ServerFault;
    }
    var sku := Get(data.value, "sku");
    var tk := Get(data.value, "time_key");
    var actualA := Get(data.value, "pvp_actual_A");
    var actualB := Get(data.value, "pvp_actual_B");
    if !(IsStr(sku) && IsInt(tk) && IsNumber(actualA) && IsNumber(actualB)) {
      return Rejected(InvalidActualsInput);
    }
    var key := Key(sku.s, IntOf(tk));

    var found := db.Get(key);
    if found.None? {
      return Rejected(NoMatchingForecast);
    }
    var rec := found.value.(actualA := Some(FloatOf(actualA)), actualB := Some(FloatOf(actualB)));
    db.Save(key, rec);
    response := Reconciled(sku.s, tk, actualA, actualB);
  }
}
