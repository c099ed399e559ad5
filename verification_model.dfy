/** The human verification record (server/app/models/verification.py). */
module VerificationModel {
  import opened Wrappers
  import opened SessionModel

  datatype Verification = Verification(
    id: Uuid,
    predictionId: Uuid,
    sampleId: Uuid,
    sessionId: Uuid,
    responseType: string,
    originalLabel: string,
    verifiedLabel: Option<string>,
    responseTimeMs: Option<int>,
    reputationScore: Option<real>,
    createdAt: int)

  /**
   * `final_label`: `verified_label or original_label`. Python's `or` treats
   * an empty string like a missing one.
   */
  function FinalLabel(v: Verification): (chosen: string)
    ensures v.verifiedLabel.Some? && v.verifiedLabel.value != "" ==> chosen == v.verifiedLabel.value
    ensures v.verifiedLabel.None? || v.verifiedLabel.value == "" ==> chosen == v.originalLabel
    ensures chosen == v.originalLabel || Some(chosen) == v.verifiedLabel
  {
    match v.verifiedLabel
    case Some(l) => if l != "" then l else v.originalLabel
    case None => v.originalLabel
  }

  /** A correction to the empty string is no correction at all. */
  lemma EmptyCorrectionIgnored(v: Verification)
    ensures FinalLabel(v.(verifiedLabel := Some(""))) == FinalLabel(v.(verifiedLabel := None)) == v.originalLabel
  {
  }
}
