// The seams of diem/seams.go a replica acts through: what it signs and what it sends.
module Seams {
  import opened Wire
  import opened SafetyRules
  import opened ReplicaModel

  /** The signing key. Whether signing succeeds, and the bytes it yields, come from outside. */
  class Crypto {
    /** Everything signed so far, as what it means. */
    ghost var signed: seq<Statement>

    constructor ()
      ensures signed == []
    {
      signed := [];
    }

    /** Sign the digest of `s`. */
    method Sign(digest: Hash, ghost s: Statement, outcome: Option<Blob>) returns (sig: Option<Blob>)
      requires digest == StatementDigest(s)
      modifies this
      ensures sig == outcome
      ensures signed == if outcome.Some? then old(signed) + [s] else old(signed)
    {
      sig := outcome;
      if outcome.Some? {
        signed := signed + [s];
      }
    }
  }

  /** Everything sent so far, in order. */
  class Transport {
    var sent: seq<Message>

    constructor ()
      ensures sent == []
    {
      sent := [];
    }

    method Send(m: Message)
      modifies this
      ensures sent == old(sent) + [m]
    {
      sent := sent + [m];
    }
  }
}
