/**
 * The dual inference engine: pipelines A and B, each with a point prediction
 * (`predict(df)[0]`) and a confidence (`predict_proba(df)[0].max()`), both of which
 * may raise. The four calls run A, A, B, B inside one `try`.
 */
module Inference {
  import opened Wrappers
  import opened Features

  /** A loaded scoring pipeline; None stands for a call that raises. */
  datatype Pipeline = Pipeline(predict: Frame -> Option<real>, confidence: Frame -> Option<real>)

  /** The four values the forecast response reports. */
  datatype Scores = Scores(predA: real, probaA: real, predB: real, probaB: real)

  /**
   * All four pipeline calls, or nothing: a single failure discards the values
   * already computed, and each pipeline only ever sees its own frame.
   */
  function Infer(pa: Pipeline, pb: Pipeline, frameA: Frame, frameB: Frame): (r: Option<Scores>)
    ensures r.Some? <==>
      && pa.predict(frameA).Some? && pa.confidence(frameA).Some?
      && pb.predict(frameB).Some? && pb.confidence(frameB).Some?
    ensures r.Some? ==>
      && Some(r.value.predA) == pa.predict(frameA)
      && Some(r.value.probaA) == pa.confidence(frameA)
      && Some(r.value.predB) == pb.predict(frameB)
      && Some(r.value.probaB) == pb.confidence(frameB)
  {
    match pa.predict(frameA)
    case None => None
    case Some(predA) =>
      match pa.confidence(frameA)
      case None => None
      case Some(probaA) =>
        match pb.predict(frameB)
        case None => None
        case Some(predB) =>
          match pb.confidence(frameB)
          case None => None
          case Some(probaB) => Some(Scores(predA, probaA, predB, probaB))
  }
}
