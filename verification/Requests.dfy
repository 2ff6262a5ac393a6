/** What comes of a request to the database or to Chatwoot. */
module Requests {
  /** `Unseen` took effect, but its caller got an exception: the answer came late or not at all. */
  datatype Answer = Done | Refused | Unseen
}
