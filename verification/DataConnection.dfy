/** What all data connections share (src/connection/data.rs). */
module DataConnection {
  /**
   The answer of a connection to one packet. A byte stream that does not take all of
   it has taken the first bytes of its frame; a datagram is taken as a whole or not at all.
   */
  datatype SendOutcome = Sent | WouldBlock(taken: nat) | Failed(taken: nat)
}
