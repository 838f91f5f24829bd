/** What the batch worker and the per-backend worker say about messages and the consumer alike. */
module Consumer {

  /** What becomes of a message for a target. */
  datatype Outcome = Success | SkippedPermanent | SkippedMaxRetries | SkippedPoison

  /** How a seek of the consumer followed by a resume goes. */
  datatype Resumption = Fine | SeekRaises | ResumeRaises
}
