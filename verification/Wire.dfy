/** The wire formats, as functions on byte sequences: what is written, and what reading gives back.

    The numbers are little-endian, as on the machines the code is built for.  A bit vector is written
    as its length and its bits; that layout belongs to the network library, which is not part of this
    model, and only its being readable again matters here.
  */
module Wire {
  import opened Core

  type Byte = b: nat | b < 256

  type Bytes = seq<Byte>

  /** Reading from the front of a stream: the value and what is left, or an exception. */
  type Reader<T> = Bytes -> Option<(T, Bytes)>

  const HASH := 32
  const SIG := 64

  // ---- numbers and strings of bytes ----

  function Power(k: nat): (p: nat)
    ensures p > 0
  {
    if k == 0 then 1 else 256 * Power(k - 1)
  }

  function Number(k: nat, v: nat): (bs: Bytes)
    ensures |bs| == k
  {
    if k == 0 then [] else [v % 256] + Number(k - 1, v / 256)
  }

  function ValueOf(bs: Bytes): nat {
    if bs == [] then 0 else bs[0] + 256 * ValueOf(bs[1..])
  }

  lemma {:induction false} NumberRoundTrips(k: nat, v: nat)
    requires v < Power(k)
    ensures ValueOf(Number(k, v)) == v
  {
    if k > 0 {
      NumberRoundTrips(k - 1, v / 256);
      assert Number(k, v)[1..] == Number(k - 1, v / 256);
    }
  }

  function ReadBytes(n: nat, s: Bytes): Option<(Bytes, Bytes)> {
    if |s| < n then None else Some((s[..n], s[n..]))
  }

  function ReadNumber(k: nat, s: Bytes): Option<(nat, Bytes)> {
    if |s| < k then None else Some((ValueOf(s[..k]), s[k..]))
  }

  // ---- formats in general ----

  /** Reading what was written, whatever follows it, gives the value back and leaves what follows. */
  ghost predicate RoundTrips<T(!new)>(write: T -> Bytes, read: Reader<T>, ok: T -> bool) {
    forall x, rest :: ok(x) ==> read(write(x) + rest) == Some((x, rest))
  }

  /** Then different values are written differently, and neither is the start of the other. */
  lemma PrefixFree<T(!new)>(write: T -> Bytes, read: Reader<T>, ok: T -> bool, x: T, y: T, more: Bytes)
    requires RoundTrips(write, read, ok) && ok(x) && ok(y)
    requires write(x) == write(y) + more
    ensures x == y && more == []
  {
    assert write(x) + [] == write(x);
    assert read(write(x) + []) == Some((x, []));
    assert read(write(y) + more) == Some((y, more));
  }

  function WriteMany<T>(write: T -> Bytes, xs: seq<T>): Bytes {
    if xs == [] then [] else WriteMany(write, xs[..|xs| - 1]) + write(xs[|xs| - 1])
  }

  function ReadMany<T>(read: Reader<T>, n: nat, s: Bytes): Option<(seq<T>, Bytes)> {
    if n == 0 then Some(([], s))
    else
      match ReadMany(read, n - 1, s)
      case None => None
      case Some((xs, s1)) =>
        match read(s1)
        case None => None
        case Some((x, s2)) => Some((xs + [x], s2))
  }

  lemma {:induction false} ManyRoundTrips<T(!new)>(write: T -> Bytes, read: Reader<T>, ok: T -> bool, xs: seq<T>,
                                                   rest: Bytes)
    requires RoundTrips(write, read, ok) && forall x :: x in xs ==> ok(x)
    ensures ReadMany(read, |xs|, WriteMany(write, xs) + rest) == Some((xs, rest))
  {
    if xs == [] {
      assert [] + rest == rest;
    } else {
      var n := |xs| - 1;
      assert WriteMany(write, xs) + rest == WriteMany(write, xs[..n]) + (write(xs[n]) + rest);
      ManyRoundTrips(write, read, ok, xs[..n], write(xs[n]) + rest);
      assert xs[..n] + [xs[n]] == xs;
    }
  }

  /** A vector, after its size as four bytes. */
  function WriteVector<T>(write: T -> Bytes, xs: seq<T>): Bytes {
    Number(4, |xs|) + WriteMany(write, xs)
  }

  function ReadVector<T>(read: Reader<T>, s: Bytes): Option<(seq<T>, Bytes)> {
    match ReadNumber(4, s)
    case None => None
    case Some((n, s1)) => ReadMany(read, n, s1)
  }

  lemma VectorRoundTrips<T(!new)>(write: T -> Bytes, read: Reader<T>, ok: T -> bool, xs: seq<T>, rest: Bytes)
    requires RoundTrips(write, read, ok) && (forall x :: x in xs ==> ok(x)) && |xs| < Power(4)
    ensures ReadVector(read, WriteVector(write, xs) + rest) == Some((xs, rest))
  {
    var all := WriteVector(write, xs) + rest;
    assert all[..4] == Number(4, |xs|) && all[4..] == WriteMany(write, xs) + rest;
    NumberRoundTrips(4, |xs|);
    ManyRoundTrips(write, read, ok, xs, rest);
  }

  lemma ReadNumberBack(k: nat, v: nat, rest: Bytes)
    requires v < Power(k)
    ensures ReadNumber(k, Number(k, v) + rest) == Some((v, rest))
  {
    NumberRoundTrips(k, v);
    assert (Number(k, v) + rest)[..k] == Number(k, v) && (Number(k, v) + rest)[k..] == rest;
  }

  lemma ReadBytesBack(bs: Bytes, rest: Bytes)
    ensures ReadBytes(|bs|, bs + rest) == Some((bs, rest))
  {
  }

  // ---- hashes and signatures ----

  function Same(bs: Bytes): Bytes {
    bs
  }

  predicate IsHash(h: Bytes) {
    |h| == HASH
  }

  predicate IsSig(s: Bytes) {
    |s| == SIG
  }

  function ReadHash(s: Bytes): Option<(Bytes, Bytes)> {
    ReadBytes(HASH, s)
  }

  function ReadSig(s: Bytes): Option<(Bytes, Bytes)> {
    ReadBytes(SIG, s)
  }

  function WriteBit(b: bool): Bytes {
    [if b then 1 else 0]
  }

  function ReadBit(s: Bytes): Option<(bool, Bytes)> {
    if s == [] then None else Some((s[0] != 0, s[1..]))
  }

  function WriteWord(v: nat): Bytes {
    Number(8, v)
  }

  function ReadWord(s: Bytes): Option<(nat, Bytes)> {
    ReadNumber(8, s)
  }

  predicate IsWord(v: nat) {
    v < Power(8)
  }

  lemma BasicFormats()
    ensures RoundTrips(Same, ReadHash, IsHash) && RoundTrips(Same, ReadSig, IsSig)
    ensures RoundTrips(WriteBit, ReadBit, (b: bool) => true)
    ensures RoundTrips(WriteWord, ReadWord, IsWord)
  {
    forall v, rest | IsWord(v) ensures ReadWord(WriteWord(v) + rest) == Some((v, rest)) {
      ReadNumberBack(8, v, rest);
    }
  }

  // ---- certificates ----

  /** QuorumCertSecp256k1: which replicas signed, and the signatures in the order of the replicas. */
  datatype Cert = Cert(objHash: Bytes, rids: seq<bool>, sigs: seq<Bytes>)

  /** The replicas whose bit is set, in order. */
  function Signers(rids: seq<bool>): seq<nat> {
    if rids == [] then []
    else Signers(rids[..|rids| - 1]) + if rids[|rids| - 1] then [|rids| - 1] else []
  }

  predicate CertOk(c: Cert) {
    IsHash(c.objHash) && |c.rids| < Power(4) && |c.sigs| == |Signers(c.rids)| && forall s :: s in c.sigs ==> IsSig(s)
  }

  function WriteCert(c: Cert): Bytes {
    c.objHash + WriteVector(WriteBit, c.rids) + WriteMany(Same, c.sigs)
  }

  function ReadCert(s: Bytes): Option<(Cert, Bytes)> {
    match ReadHash(s)
    case None => None
    case Some((h, s1)) =>
      match ReadVector(ReadBit, s1)
      case None => None
      case Some((rids, s2)) =>
        match ReadMany(ReadSig, |Signers(rids)|, s2)
        case None => None
        case Some((sigs, s3)) => Some((Cert(h, rids, sigs), s3))
  }

  lemma ThreeParts(a: Bytes, b: Bytes, c: Bytes, rest: Bytes)
    ensures (a + b + c) + rest == a + (b + (c + rest))
  {
  }

  lemma CertRoundTrips(c: Cert, rest: Bytes)
    requires CertOk(c)
    ensures ReadCert(WriteCert(c) + rest) == Some((c, rest))
  {
    hide WriteVector, WriteMany, ReadVector, ReadMany, RoundTrips, Signers;
    BasicFormats();
    var tail := WriteMany(Same, c.sigs) + rest;
    ThreeParts(c.objHash, WriteVector(WriteBit, c.rids), WriteMany(Same, c.sigs), rest);
    ReadBytesBack(c.objHash, WriteVector(WriteBit, c.rids) + tail);
    VectorRoundTrips(WriteBit, ReadBit, (b: bool) => true, c.rids, tail);
    ManyRoundTrips(Same, ReadSig, IsSig, c.sigs, rest);
  }

  // ---- blocks ----

  datatype Block = Block(parents: seq<Bytes>, cmds: seq<Bytes>, qc: Cert, extra: Bytes)

  predicate BlockOk(b: Block) {
    && |b.parents| < Power(4) && |b.cmds| < Power(4) && |b.extra| < Power(4) && CertOk(b.qc)
    && (forall h :: h in b.parents ==> IsHash(h)) && (forall h :: h in b.cmds ==> IsHash(h))
  }

  function WriteBlock(b: Block): Bytes {
    WriteVector(Same, b.parents) + WriteVector(Same, b.cmds) + WriteCert(b.qc) + Number(4, |b.extra|) + b.extra
  }

  function ReadExtra(s: Bytes): Option<(Bytes, Bytes)> {
    match ReadNumber(4, s)
    case None => None
    case Some((n, s1)) => if n == 0 then Some(([], s1)) else ReadBytes(n, s1)
  }

  function ReadBlock(s: Bytes): Option<(Block, Bytes)> {
    match ReadVector(ReadHash, s)
    case None => None
    case Some((parents, s1)) =>
      match ReadVector(ReadHash, s1)
      case None => None
      case Some((cmds, s2)) =>
        match ReadCert(s2)
        case None => None
        case Some((qc, s3)) =>
          match ReadExtra(s3)
          case None => None
          case Some((extra, s4)) => Some((Block(parents, cmds, qc, extra), s4))
  }

  lemma ExtraRoundTrips(extra: Bytes, rest: Bytes)
    requires |extra| < Power(4)
    ensures ReadExtra(Number(4, |extra|) + extra + rest) == Some((extra, rest))
  {
    hide Number, ReadNumber, Power;
    assert Number(4, |extra|) + extra + rest == Number(4, |extra|) + (extra + rest);
    ReadNumberBack(4, |extra|, extra + rest);
    assert |extra| == 0 ==> extra + rest == rest;
  }

  lemma BlockRoundTrips(b: Block, rest: Bytes)
    requires BlockOk(b)
    ensures ReadBlock(WriteBlock(b) + rest) == Some((b, rest))
  {
    hide Number, Power, WriteVector, ReadVector, WriteCert, ReadCert, ReadExtra;
    BasicFormats();
    var t3 := Number(4, |b.extra|) + b.extra + rest;
    var t2 := WriteCert(b.qc) + t3;
    var t1 := WriteVector(Same, b.cmds) + t2;
    assert WriteBlock(b) + rest == WriteVector(Same, b.parents) + t1;
    VectorRoundTrips(Same, ReadHash, IsHash, b.parents, t1);
    VectorRoundTrips(Same, ReadHash, IsHash, b.cmds, t2);
    CertRoundTrips(b.qc, t3);
    ExtraRoundTrips(b.extra, rest);
  }

  /** What is hashed determines the block: no two blocks are written the same way, nor is one a proper
      start of another. */
  lemma BlockEncodingIsInjective(a: Block, b: Block, more: Bytes)
    requires BlockOk(a) && BlockOk(b) && WriteBlock(a) == WriteBlock(b) + more
    ensures a == b && more == []
  {
    assert RoundTrips(WriteBlock, ReadBlock, BlockOk) by {
      forall x, rest | BlockOk(x) ensures ReadBlock(WriteBlock(x) + rest) == Some((x, rest)) {
        BlockRoundTrips(x, rest);
      }
    }
    PrefixFree(WriteBlock, ReadBlock, BlockOk, a, b, more);
  }

  // ---- messages ----

  datatype Vote = Vote(voter: nat, blkHash: Bytes, certHash: Bytes, sig: Bytes)

  predicate VoteOk(v: Vote) {
    v.voter < Power(2) && IsHash(v.blkHash) && IsHash(v.certHash) && IsSig(v.sig)
  }

  function WriteVote(v: Vote): Bytes {
    Number(2, v.voter) + v.blkHash + v.certHash + v.sig
  }

  function ReadVote(s: Bytes): Option<(Vote, Bytes)> {
    match ReadNumber(2, s)
    case None => None
    case Some((voter, s1)) =>
      match ReadHash(s1)
      case None => None
      case Some((blkHash, s2)) =>
        match ReadHash(s2)
        case None => None
        case Some((certHash, s3)) =>
          match ReadSig(s3)
          case None => None
          case Some((sig, s4)) => Some((Vote(voter, blkHash, certHash, sig), s4))
  }

  lemma VoteRoundTrips(v: Vote, rest: Bytes)
    requires VoteOk(v)
    ensures ReadVote(WriteVote(v) + rest) == Some((v, rest))
  {
    assert WriteVote(v) + rest == Number(2, v.voter) + (v.blkHash + (v.certHash + (v.sig + rest)));
    ReadNumberBack(2, v.voter, v.blkHash + (v.certHash + (v.sig + rest)));
    ReadBytesBack(v.blkHash, v.certHash + (v.sig + rest));
    ReadBytesBack(v.certHash, v.sig + rest);
    ReadBytesBack(v.sig, rest);
  }

  /** int8_t, in two's complement. */
  function WriteSigned(d: int): Byte
    requires -128 <= d < 128
  {
    if d < 0 then d + 256 else d
  }

  function ReadSigned(b: Byte): int {
    if b >= 128 then b - 256 else b
  }

  datatype Finality = Finality(rid: nat, decision: int, cmdIdx: nat, cmdHeight: nat, cmdHash: Bytes, blkHash: Bytes)

  predicate FinalityOk(f: Finality) {
    && f.rid < Power(2) && -128 <= f.decision < 128 && f.cmdIdx < Power(4) && f.cmdHeight < Power(4)
    && IsHash(f.cmdHash) && IsHash(f.blkHash)
  }

  function WriteFinality(f: Finality): Bytes
    requires -128 <= f.decision < 128
  {
    Number(2, f.rid) + [WriteSigned(f.decision)] + Number(4, f.cmdIdx) + Number(4, f.cmdHeight) + f.cmdHash
    + if f.decision == 1 then f.blkHash else []
  }

  /** `before` is the block hash in the object that is read into. */
  function ReadFinality(before: Bytes, s: Bytes): Option<(Finality, Bytes)> {
    match ReadNumber(2, s)
    case None => None
    case Some((rid, s1)) =>
      if s1 == [] then None else
      match ReadNumber(4, s1[1..])
      case None => None
      case Some((idx, s2)) =>
        match ReadNumber(4, s2)
        case None => None
        case Some((height, s3)) =>
          match ReadHash(s3)
          case None => None
          case Some((cmdHash, s4)) =>
            var d := ReadSigned(s1[0]);
            if d != 1 then Some((Finality(rid, d, idx, height, cmdHash, before), s4))
            else
              match ReadHash(s4)
              case None => None
              case Some((blkHash, s5)) => Some((Finality(rid, d, idx, height, cmdHash, blkHash), s5))
  }

  /** Everything comes back, except that the block hash is only sent with a decision of 1. */
  lemma FinalityRoundTrips(f: Finality, before: Bytes, rest: Bytes)
    requires FinalityOk(f)
    ensures ReadFinality(before, WriteFinality(f) + rest) ==
            Some((f.(blkHash := if f.decision == 1 then f.blkHash else before), rest))
  {
    hide Number, ReadNumber;
    var t4 := (if f.decision == 1 then f.blkHash else []) + rest;
    var t3 := f.cmdHash + t4;
    var t2 := Number(4, f.cmdHeight) + t3;
    var t1 := Number(4, f.cmdIdx) + t2;
    assert WriteFinality(f) + rest == Number(2, f.rid) + ([WriteSigned(f.decision)] + t1);
    ReadNumberBack(2, f.rid, [WriteSigned(f.decision)] + t1);
    assert ([WriteSigned(f.decision)] + t1)[1..] == t1;
    ReadNumberBack(4, f.cmdIdx, t2);
    ReadNumberBack(4, f.cmdHeight, t3);
    ReadBytesBack(f.cmdHash, t4);
    if f.decision == 1 {
      ReadBytesBack(f.blkHash, rest);
    } else {
      assert t4 == rest;
    }
  }

  /** MsgReqBlock. */
  lemma ReqBlockRoundTrips(hashes: seq<Bytes>, rest: Bytes)
    requires |hashes| < Power(4) && forall h :: h in hashes ==> IsHash(h)
    ensures ReadVector(ReadHash, WriteVector(Same, hashes) + rest) == Some((hashes, rest))
  {
    BasicFormats();
    VectorRoundTrips(Same, ReadHash, IsHash, hashes, rest);
  }

  /** CommandDummy: the client, its counter and the payload words. */
  datatype Cmd = Cmd(cid: nat, n: nat, payload: seq<nat>)

  predicate CmdOk(c: Cmd) {
    c.cid < Power(4) && c.n < Power(4) && |c.payload| < Power(8) && forall w :: w in c.payload ==> IsWord(w)
  }

  function WriteCmd(c: Cmd): Bytes {
    Number(4, c.cid) + Number(4, c.n) + Number(8, |c.payload|) + WriteMany(WriteWord, c.payload)
  }

  function ReadCmd(s: Bytes): Option<(Cmd, Bytes)> {
    match ReadNumber(4, s)
    case None => None
    case Some((cid, s1)) =>
      match ReadNumber(4, s1)
      case None => None
      case Some((n, s2)) =>
        match ReadNumber(8, s2)
        case None => None
        case Some((size, s3)) =>
          match ReadMany(ReadWord, size, s3)
          case None => None
          case Some((payload, s4)) => Some((Cmd(cid, n, payload), s4))
  }

  lemma CmdRoundTrips(c: Cmd, rest: Bytes)
    requires CmdOk(c)
    ensures ReadCmd(WriteCmd(c) + rest) == Some((c, rest))
  {
    BasicFormats();
    var t2 := WriteMany(WriteWord, c.payload) + rest;
    var t1 := Number(8, |c.payload|) + t2;
    assert WriteCmd(c) + rest == Number(4, c.cid) + (Number(4, c.n) + t1);
    ReadNumberBack(4, c.cid, Number(4, c.n) + t1);
    ReadNumberBack(4, c.n, t1);
    ReadNumberBack(8, |c.payload|, t2);
    ManyRoundTrips(WriteWord, ReadWord, IsWord, c.payload, rest);
  }
}
