/** QuorumCertSecp256k1: collecting signatures into a certificate, checking one, and what a checked
    certificate proves. */
module QuorumCert {
  import opened Chain
  import opened Core
  import opened Quorums

  /** An ideal signature: bytes that either are what a key makes of a hash, or are not. */
  datatype Signature = SignedBy(signer: ReplicaId, msg: Block) | Garbage(bytes: nat)

  predicate Verifies(sig: Signature, key: ReplicaId, msg: Block) {
    sig == SignedBy(key, msg)
  }

  datatype PartCert = PartCert(objHash: Block, sig: Signature)

  /** How a check ends: a result, or an exception (an unregistered replica, or promise::all on
      nothing). */
  datatype Verdict = Accepts | Rejects | Throws

  /** The contents of a certificate: the bit per replica and the signatures by replica. */
  datatype Cert = Cert(objHash: Block, rids: seq<bool>, sigs: map<ReplicaId, Signature>)

  predicate SetBit(c: Cert, i: nat) {
    i < |c.rids| && c.rids[i]
  }

  /** The signatures are exactly those the bits announce. */
  ghost predicate KeysAreBits(c: Cert) {
    forall i: nat :: i in c.sigs <==> SetBit(c, i)
  }

  predicate Registered(n: nat, i: nat) {
    i < n
  }

  predicate GoodAt(c: Cert, n: nat, i: nat) {
    SetBit(c, i) ==> Registered(n, i) && i in c.sigs && Verifies(c.sigs[i], i, c.objHash)
  }

  /** Bit i is set for an unregistered replica, so get_pubkey throws. */
  predicate UnknownAt(c: Cert, n: nat, i: nat) {
    SetBit(c, i) && !Registered(n, i)
  }

  predicate BadSigAt(c: Cert, n: nat, i: nat) {
    SetBit(c, i) && Registered(n, i) && (i in c.sigs ==> !Verifies(c.sigs[i], i, c.objHash))
  }

  ghost predicate AllGood(c: Cert, n: nat) {
    forall i: nat :: GoodAt(c, n, i)
  }

  ghost predicate SyncThrows(c: Cert, n: nat, nmajority: nat) {
    |c.sigs| >= nmajority && exists i: nat :: UnknownAt(c, n, i) && forall j: nat :: j < i ==> GoodAt(c, n, j)
  }

  /** What the synchronous check answers: it stops at the first bit that fails. */
  ghost function SyncVerdict(c: Cert, n: nat, nmajority: nat): Verdict {
    if |c.sigs| >= nmajority && AllGood(c, n) then Accepts
    else if SyncThrows(c, n, nmajority) then Throws else Rejects
  }

  /** What the asynchronous check answers: it starts a task per set bit, then waits for all. */
  ghost function AsyncVerdict(c: Cert, n: nat, nmajority: nat): Verdict {
    if |c.sigs| >= nmajority && c.sigs != map[] && AllGood(c, n) then Accepts
    else if |c.sigs| >= nmajority && (c.sigs == map[] || exists i: nat :: UnknownAt(c, n, i)) then Throws else Rejects
  }

  class QuorumCertSecp256k1 {
    const objHash: Block
    var rids: seq<bool>
    var sigs: map<ReplicaId, Signature>

    ghost function View(): Cert
      reads this
    {
      Cert(objHash, rids, sigs)
    }

    constructor (nreplicas: nat, objHash: Block)
      ensures View() == Cert(objHash, seq(nreplicas, _ => false), map[])
      ensures KeysAreBits(View())
    {
      this.objHash := objHash;
      rids := seq(nreplicas, _ => false);
      sigs := map[];
    }

    /** add_part: false is the exception for a part certificate of another block.  A second part of
        one replica leaves the first in place. */
    method AddPart(rid: ReplicaId, pc: PartCert) returns (ok: bool)
      requires rid < |rids| && KeysAreBits(View())
      modifies this
      ensures ok <==> pc.objHash == objHash
      ensures !ok ==> View() == old(View())
      ensures ok ==> rids == old(rids)[rid := true]
      ensures ok ==> sigs == if rid in old(sigs) then old(sigs) else old(sigs)[rid := pc.sig]
      ensures KeysAreBits(View())
    {
      if pc.objHash != objHash { return false; }
      if rid !in sigs {
        sigs := sigs[rid := pc.sig];
      }
      rids := rids[rid := true];
      return true;
    }

    /** The synchronous check: stops at the first bit that fails. */
    method Verify(n: nat, nmajority: nat) returns (v: Verdict)
      requires KeysAreBits(View())
      ensures v == SyncVerdict(View(), n, nmajority)
    {
      if |sigs| < nmajority { return Rejects; }
      for i := 0 to |rids|
        invariant forall j: nat :: j < i ==> GoodAt(View(), n, j)
      {
        if rids[i] {
          assert SetBit(View(), i);
          if !Registered(n, i) {
            assert UnknownAt(View(), n, i) && !GoodAt(View(), n, i);
            return Throws;
          }
          if !Verifies(sigs[i], i, objHash) {
            assert !GoodAt(View(), n, i);
            return Rejects;
          }
        }
      }
      assert forall i: nat :: GoodAt(View(), n, i) && !UnknownAt(View(), n, i);
      return Accepts;
    }

    /** The asynchronous check: starts a task per set bit, then waits for all of them. */
    method VerifyAsync(n: nat, nmajority: nat) returns (v: Verdict)
      requires KeysAreBits(View())
      ensures v == AsyncVerdict(View(), n, nmajority)
    {
      if |sigs| < nmajority { return Rejects; }
      var vpm: seq<bool> := [];
      ghost var from: seq<nat> := [];  // the bit each task is for
      for i := 0 to |rids|
        invariant forall j: nat :: j < i ==> !UnknownAt(View(), n, j)
        invariant |from| == |vpm| && forall k :: 0 <= k < |vpm| ==> from[k] < i && SetBit(View(), from[k])
        invariant forall k :: 0 <= k < |vpm| ==> (vpm[k] <==> GoodAt(View(), n, from[k]))
        invariant forall j: nat :: j < i && SetBit(View(), j) ==> j in from
      {
        if rids[i] {
          assert SetBit(View(), i);
          if !Registered(n, i) {
            assert UnknownAt(View(), n, i) && !GoodAt(View(), n, i);
            return Throws;
          }
          vpm := vpm + [Verifies(sigs[i], i, objHash)];
          from := from + [i];
        }
      }
      if vpm == [] {
        assert forall i: nat :: !SetBit(View(), i);
        assert sigs == map[];
        return Throws;
      }
      assert SetBit(View(), from[0]);
      var k := 0;
      while k < |vpm|
        invariant 0 <= k <= |vpm|
        invariant forall j :: 0 <= j < k ==> vpm[j]
      {
        if !vpm[k] {
          assert !GoodAt(View(), n, from[k]);
          return Rejects;
        }
        k := k + 1;
      }
      forall i: nat ensures GoodAt(View(), n, i) {
        if SetBit(View(), i) {
          var j :| 0 <= j < |from| && from[j] == i;
          assert vpm[j];
        }
      }
      return Accepts;
    }
  }

  // ---- what the answers mean ----

  /** i is one of n registered replicas, and has signed the block itself. */
  predicate Genuine(c: Cert, n: nat, i: nat) {
    i < n && i in c.sigs && c.sigs[i] == SignedBy(i, c.objHash)
  }

  ghost predicate AllGenuine(c: Cert, n: nat) {
    forall i: nat :: i in c.sigs ==> Genuine(c, n, i)
  }

  /** Somebody unregistered has signed ... */
  predicate Stranger(c: Cert, n: nat, i: nat) {
    i in c.sigs && i >= n
  }

  /** ... and all signatures before are good. */
  ghost predicate StrangerFirst(c: Cert, n: nat, i: nat) {
    Stranger(c, n, i) && forall j: nat :: j < i && j in c.sigs ==> Genuine(c, n, j)
  }

  lemma BitsMean(c: Cert, n: nat, i: nat)
    requires KeysAreBits(c)
    ensures GoodAt(c, n, i) <==> (i in c.sigs ==> Genuine(c, n, i))
    ensures UnknownAt(c, n, i) <==> Stranger(c, n, i)
  {
  }

  /** Both checks accept exactly if at least nmajority signatures are there and each is by a registered replica
      and of this block; the asynchronous one does not accept an empty certificate.  An exception ends the
      synchronous check if an unregistered replica comes before any bad signature, the asynchronous one
      if there is an unregistered replica at all, or no signature. */
  lemma VerdictsAreExact(c: Cert, n: nat, nmajority: nat)
    requires KeysAreBits(c)
    ensures var sync, async := SyncVerdict(c, n, nmajority), AsyncVerdict(c, n, nmajority);
            var enough := |c.sigs| >= nmajority;
            && (sync == Accepts <==> enough && AllGenuine(c, n))
            && (async == Accepts <==> enough && c.sigs != map[] && AllGenuine(c, n))
            && (sync == Throws <==> enough && exists i: nat :: StrangerFirst(c, n, i))
            && (async == Throws <==> enough && (c.sigs == map[] || exists i: nat :: Stranger(c, n, i)))
  {
    hide KeysAreBits, GoodAt, UnknownAt, Genuine, Stranger;
    forall i: nat
      ensures GoodAt(c, n, i) <==> (i in c.sigs ==> Genuine(c, n, i))
      ensures UnknownAt(c, n, i) <==> Stranger(c, n, i)
    {
      BitsMean(c, n, i);
    }
    assert AllGood(c, n) <==> AllGenuine(c, n);
    forall i: nat ensures StrangerFirst(c, n, i) <==> UnknownAt(c, n, i) && forall j: nat :: j < i ==> GoodAt(c, n, j) {
    }
    forall i: nat ensures Stranger(c, n, i) ==> !AllGenuine(c, n) {
      StrangerIsBad(c, n, i);
    }
  }

  lemma StrangerIsBad(c: Cert, n: nat, i: nat)
    ensures Stranger(c, n, i) ==> !AllGenuine(c, n)
  {
    assert Stranger(c, n, i) ==> !Genuine(c, n, i);
  }

  // ---- where the two checks differ ----

  /** Some bit names an unregistered replica, but an earlier signature is bad. */
  ghost predicate BadBeforeUnknown(c: Cert, n: nat) {
    exists i: nat, j: nat :: j < i && UnknownAt(c, n, i) && BadSigAt(c, n, j)
                             && forall k: nat :: k < j ==> !UnknownAt(c, n, k)
  }

  /** The two checks give the same answer except on an empty certificate that needs no signature and
      on one whose first failure is a bad signature ahead of an unregistered replica. */
  lemma ChecksAgreeExactly(c: Cert, n: nat, nmajority: nat)
    requires KeysAreBits(c)
    ensures SyncVerdict(c, n, nmajority) == AsyncVerdict(c, n, nmajority) <==>
              !(|c.sigs| >= nmajority && (c.sigs == map[] || BadBeforeUnknown(c, n)))
  {
    if |c.sigs| >= nmajority && c.sigs != map[] {
      if exists i: nat :: UnknownAt(c, n, i) {
        var u: nat :| UnknownAt(c, n, u);
        assert !GoodAt(c, n, u);
        var f := FirstFailure(c, n, u);
        assert UnknownAt(c, n, f) || BadSigAt(c, n, f);
        assert forall j: nat :: BadSigAt(c, n, j) ==> !GoodAt(c, n, j);
      }
    } else if c.sigs == map[] {
      forall i: nat ensures GoodAt(c, n, i) {
        assert i in c.sigs <==> SetBit(c, i);
      }
    }
  }

  /** A certificate on which they do: every registered replica's bit is set and one more, and the first
      signature is bad.  The synchronous check answers no, the asynchronous one throws. */
  lemma ChecksCanDiffer(b: Block, n: nat, nmajority: nat) returns (c: Cert)
    requires 0 < n && nmajority <= n + 1
    ensures c.objHash == b && KeysAreBits(c) && |c.rids| == n + 1
    ensures SyncVerdict(c, n, nmajority) == Rejects && AsyncVerdict(c, n, nmajority) == Throws
  {
    var sigs := map i: ReplicaId | i in Everyone(n + 1) :: if i == 0 then Garbage(0) else SignedBy(i, b);
    c := Cert(b, seq(n + 1, _ => true), sigs);
    assert sigs.Keys == Everyone(n + 1);
    assert BadSigAt(c, n, 0) && !GoodAt(c, n, 0) && UnknownAt(c, n, n);
    assert 0 in c.sigs;
  }

  lemma FirstFailure(c: Cert, n: nat, u: nat) returns (f: nat)
    requires !GoodAt(c, n, u)
    ensures f <= u && !GoodAt(c, n, f) && forall j: nat :: j < f ==> GoodAt(c, n, j)
  {
    f := 0;
    while GoodAt(c, n, f)
      invariant f <= u && forall j: nat :: j < f ==> GoodAt(c, n, j)
      decreases u - f
    {
      f := f + 1;
    }
  }

  /** A certificate that passes either check has at least nmajority distinct registered signers, each
      of whom signed exactly this block. */
  lemma AcceptedMeansQuorum(c: Cert, n: nat, nmajority: nat)
    requires KeysAreBits(c)
    requires SyncVerdict(c, n, nmajority) == Accepts || AsyncVerdict(c, n, nmajority) == Accepts
    ensures c.sigs.Keys <= Everyone(n) && |c.sigs.Keys| >= nmajority
    ensures forall i: nat :: i in c.sigs ==> c.sigs[i] == SignedBy(i, c.objHash)
  {
    forall i: nat | i in c.sigs ensures i < n && c.sigs[i] == SignedBy(i, c.objHash) {
      assert SetBit(c, i) && GoodAt(c, n, i);
    }
  }

  /** If no signature exists without the vote it stands for, an accepted certificate certifies its
      block in the sense the protocol uses. */
  lemma AcceptedMeansCertified(cfg: Config, bs: set<Ballot>, c: Cert)
    requires KeysAreBits(c)
    requires SyncVerdict(c, cfg.n, Majority(cfg.n)) == Accepts || AsyncVerdict(c, cfg.n, Majority(cfg.n)) == Accepts
    requires forall i: nat :: i in c.sigs && c.sigs[i] == SignedBy(i, c.objHash) && i < cfg.n ==>
               exists x :: x in bs && x.voter == i && x.blk == c.objHash
    ensures Certified(cfg, bs, c.objHash)
  {
    AcceptedMeansQuorum(c, cfg.n, Majority(cfg.n));
    forall i | i in c.sigs.Keys ensures i in Supporters(cfg, bs, c.objHash) {
      var x :| x in bs && x.voter == i && x.blk == c.objHash;
    }
    SubsetSize(c.sigs.Keys, Supporters(cfg, bs, c.objHash));
  }
}
