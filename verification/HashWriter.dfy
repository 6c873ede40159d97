// The digests of diem/hash.go as the code computes them: successive writes into a hash state.
module HashWriter {
  import opened Wire
  import opened Hashing

  /** A running SHA-256 state: what has been written so far. */
  class Hasher {
    var written: seq<Item>

    constructor ()
      ensures written == []
    {
      written := [];
    }

    method Write(items: seq<Item>)
      modifies this
      ensures written == old(written) + items
    {
      written := written + items;
    }

    method WriteUint64(v: nat)
      modifies this
      ensures written == old(written) + U64(v)
    {
      Write(U64(v));
    }

    method WriteUint32(v: nat)
      modifies this
      ensures written == old(written) + U32(v)
    {
      Write(U32(v));
    }

    method WriteBytes(b: Blob)
      modifies this
      ensures written == old(written) + LengthPrefixed(b)
    {
      hide U64;
      WriteUint64(|b|);
      Write(Octets(b));
    }

    method WritePayload(payload: Payload)
      modifies this
      ensures written == old(written) + PayloadField(payload)
    {
      hide U64;
      hide LengthPrefixed;
      WriteUint64(|payload|);
      ghost var start := written;
      for i := 0 to |payload|
        invariant written == start + Txns(payload[..i])
      {
        TxnsSnoc(payload[..i], payload[i]);
        assert payload[..i + 1] == payload[..i] + [payload[i]];
        WriteBytes(payload[i]);
      }
      assert payload[..|payload|] == payload;
    }

    method WriteSigs(sigs: seq<Signature>)
      modifies this
      ensures written == old(written) + SigsField(sigs)
    {
      hide U64;
      hide U32;
      hide LengthPrefixed;
      WriteUint64(|sigs|);
      ghost var start := written;
      for i := 0 to |sigs|
        invariant written == start + SigList(sigs[..i])
      {
        SigListSnoc(sigs[..i], sigs[i]);
        assert sigs[..i + 1] == sigs[..i] + [sigs[i]];
        WriteUint32(sigs[i].signer);
        WriteBytes(sigs[i].sig);
      }
      assert sigs[..|sigs|] == sigs;
    }

    method Sum() returns (h: Hash)
      ensures h == Sha(written)
    {
      h := Sha(written);
    }
  }

  lemma {:induction false} TxnsSnoc(p: seq<Blob>, b: Blob)
    ensures Txns(p + [b]) == Txns(p) + LengthPrefixed(b)
  {
    hide LengthPrefixed;
    if p == [] {
      assert (p + [b])[1..] == [];
    } else {
      assert (p + [b])[1..] == p[1..] + [b];
      TxnsSnoc(p[1..], b);
    }
  }

  lemma {:induction false} SigListSnoc(s: seq<Signature>, x: Signature)
    ensures SigList(s + [x]) == SigList(s) + (U32(x.signer) + LengthPrefixed(x.sig))
  {
    hide U32;
    hide LengthPrefixed;
    if s == [] {
      assert (s + [x])[1..] == [];
    } else {
      assert (s + [x])[1..] == s[1..] + [x];
      SigListSnoc(s[1..], x);
    }
  }

  method ComputeBlockId(author: Id, round: Round, payload: Payload, qc: Option<QuorumCert>) returns (id: Hash)
    ensures id == BlockId(author, round, payload, qc)
  {
    hide U64;
    hide U32;
    hide PayloadField;
    hide HashField;
    hide SigsField;
    var h := new Hasher();
    h.Write([Oct(DOMAIN_BLOCK)]);
    h.WriteUint32(author);
    h.WriteUint64(round);
    h.WritePayload(payload);
    h.Write(HashField(QCBlockId(qc)));
    h.WriteSigs(QCSignatures(qc));
    id := h.Sum();
    assert h.written == BlockPreimage(author, round, payload, QCBlockId(qc), QCSignatures(qc));
  }

  method ComputeVoteInfoHash(v: VoteInfo) returns (d: Hash)
    ensures d == VoteInfoHash(v)
  {
    hide U64;
    hide HashField;
    var h := new Hasher();
    h.Write([Oct(DOMAIN_VOTE_INFO)]);
    h.Write(HashField(v.id));
    h.WriteUint64(v.round);
    h.Write(HashField(v.parentId));
    h.WriteUint64(v.parentRound);
    h.Write(HashField(v.execStateId));
    d := h.Sum();
    assert h.written == VoteInfoPreimage(v);
  }

  method ComputeLedgerCommitDigest(l: LedgerCommitInfo) returns (d: Hash)
    ensures d == LedgerCommitDigest(l)
  {
    hide HashField;
    var h := new Hasher();
    h.Write([Oct(DOMAIN_LEDGER_COMMIT)]);
    h.Write(HashField(l.commitStateId));
    h.Write(HashField(l.voteInfoHash));
    d := h.Sum();
    assert h.written == LedgerCommitPreimage(l);
  }

  method ComputeTimeoutDigest(round: Round, highQcRound: Round) returns (d: Hash)
    ensures d == TimeoutDigest(round, highQcRound)
  {
    hide U64;
    var h := new Hasher();
    h.Write([Oct(DOMAIN_TIMEOUT)]);
    h.WriteUint64(round);
    h.WriteUint64(highQcRound);
    d := h.Sum();
    assert h.written == TimeoutPreimage(round, highQcRound);
  }

  method ComputeQcSigsDigest(sigs: seq<Signature>) returns (d: Hash)
    ensures d == QcSigsDigest(sigs)
  {
    hide SigsField;
    var h := new Hasher();
    h.Write([Oct(DOMAIN_QC_SIGS)]);
    h.WriteSigs(sigs);
    d := h.Sum();
    assert h.written == QcSigsPreimage(sigs);
  }

  method ComputeExecuteHash(prev: Hash, payload: Payload) returns (state: Hash)
    ensures state == ExecuteHash(prev, payload)
  {
    hide PayloadField;
    hide HashField;
    var h := new Hasher();
    h.Write([Oct(DOMAIN_STATE)]);
    h.Write(HashField(prev));
    h.WritePayload(payload);
    state := h.Sum();
    assert h.written == StatePreimage(prev, payload);
  }
}
