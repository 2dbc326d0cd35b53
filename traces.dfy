/**
 * Any sequence of requests against one table, modelled as served one at a time
 * (concurrent requests are not part of this model; see README.md). Over every
 * such sequence a forecast, once stored, is never removed and its predictions
 * never change, and a key is forecast successfully at most once.
 */
module Traces {
  import opened Wrappers
  import opened Json
  import opened Features
  import opened Ledger
  import opened Lifecycle

  datatype Request = ForecastRequest(body: JsonValue) | ActualsRequest(body: JsonValue)

  datatype Trace = Trace(responses: seq<Response>, table: Table)

  function Step(env: Env, t: Table, r: Request): Outcome
  {
    match r
    case ForecastRequest(body) => ForecastOutcome(env, t, body)
    case ActualsRequest(body) => ActualsOutcome(t, body)
  }

  /** Serve the requests in order, collecting the answers. */
  function Run(env: Env, t: Table, requests: seq<Request>): Trace
    decreases |requests|
  {
    if requests == [] then Trace([], t)
    else
      var first := Step(env, t, requests[0]);
      var rest := Run(env, first.table, requests[1..]);
      Trace([first.response] + rest.responses, rest.table)
  }

  /** The key a successful forecast answer reports. */
  function CreatedKey(r: Response): Option<Key>
  {
    if r.Forecasted? && IsInt(r.timeKey) then Some(Key(r.sku, IntOf(r.timeKey))) else None
  }

  /** How many answers report a new forecast for the key. */
  function Creations(responses: seq<Response>, key: Key): nat
  {
    if responses == [] then 0
    else (if CreatedKey(responses[0]) == Some(key) then 1 else 0) + Creations(responses[1..], key)
  }

  /** One request keeps every stored key, with its predictions. */
  lemma StepKeepsForecast(env: Env, t: Table, r: Request, key: Key)
    requires key in t
    ensures var t' := Step(env, t, r).table;
      key in t' && t'[key].predA == t[key].predA && t'[key].predB == t[key].predB
  {
  }

  /** A request reports a new forecast for a key only if it had none, and stores it. */
  lemma StepCreation(env: Env, t: Table, r: Request, key: Key)
    requires CreatedKey(Step(env, t, r).response) == Some(key)
    ensures key !in t && key in Step(env, t, r).table
  {
  }

  /** Forecasts are never deleted and their predictions never change. */
  lemma {:induction false} RunKeepsForecast(env: Env, t: Table, requests: seq<Request>, key: Key)
    requires key in t
    ensures var t' := Run(env, t, requests).table;
      key in t' && t'[key].predA == t[key].predA && t'[key].predB == t[key].predB
    decreases |requests|
  {
    if requests != [] {
      var first := Step(env, t, requests[0]);
      StepKeepsForecast(env, t, requests[0], key);
      RunKeepsForecast(env, first.table, requests[1..], key);
    }
  }

  /**
   * Create-once: whatever the requests, a key is reported as newly forecast at most
   * once, never if it already had a forecast, and a reported forecast stays stored.
   */
  lemma {:induction false} AtMostOneCreation(env: Env, t: Table, requests: seq<Request>, key: Key)
    ensures Creations(Run(env, t, requests).responses, key) <= (if key in t then 0 else 1)
    ensures Creations(Run(env, t, requests).responses, key) > 0 ==> key in Run(env, t, requests).table
    decreases |requests|
  {
    if requests != [] {
      var first := Step(env, t, requests[0]);
      var rest := Run(env, first.table, requests[1..]);
      var responses := [first.response] + rest.responses;
      assert responses[1..] == rest.responses;
      AtMostOneCreation(env, first.table, requests[1..], key);
      if key in t {
        StepKeepsForecast(env, t, requests[0], key);
      }
      if CreatedKey(first.response) == Some(key) {
        StepCreation(env, t, requests[0], key);
        RunKeepsForecast(env, first.table, requests[1..], key);
      }
    }
  }
}
