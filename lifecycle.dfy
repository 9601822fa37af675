/** Values shared by the server-backed store and the browser-only store. */
module Lifecycle {

  /** A value that may be absent: an SQL NULL, or a JavaScript null or undefined. */
  datatype Option<+T> = None | Some(value: T)

  /** The `status` of a monitoring record: the three stages of its sign-off. */
  datatype Status = PendingFeedback | PendingCommitment | Completed

  /** The six columns (properties) written only by the feedback and commitment steps. */
  datatype SignOff = SignOff(
    supervisorFeedback: Option<string>,
    feedbackDate: Option<string>,
    feedbackSignature: Option<string>,
    agentCommitment: Option<string>,
    commitmentDate: Option<string>,
    commitmentSignature: Option<string>)

  /** Both sign-off sections empty, as a freshly created record has them. */
  const Unsigned := SignOff(None, None, None, None, None, None)
}
