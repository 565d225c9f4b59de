/** What the two peers of a negotiation tell each other. */
module Signals {
  /** Negotiation ids are random; here they are numbers never drawn twice. */
  type NegId = nat

  /** Session descriptions are opaque.  An answer remembers the description it answers. */
  datatype Description = OfferDesc(id: nat) | AnswerDesc(to: Description)

  datatype Signal =
    | Offer(neg: NegId, sdp: Description)
    | Answer(neg: NegId, sdp: Description)
    | IceCandidate(neg: NegId, body: string)
}
