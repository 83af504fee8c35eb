/** Which byte of a message is what: the formats of Wire by their offsets. */
module WireLayout {
  import opened Arithmetic
  import opened Wire
  import opened DataStreams

  /** x stands in s at offset k. */
  predicate Stands(s: Bytes, k: nat, x: Bytes) {
    k + |x| <= |s| && s[k..k + |x|] == x
  }

  function At(s: Bytes, k: nat): nat
    requires k < |s|
  {
    s[k]
  }

  /** A number in two, four or eight bytes at offset k, the lowest byte first. */
  predicate Two(s: Bytes, k: nat, v: nat) {
    k + 2 <= |s| && v == At(s, k) + 0x100 * At(s, k + 1)
  }

  predicate Four(s: Bytes, k: nat, v: nat) {
    k + 4 <= |s| && v == Value(s, k)
  }

  predicate Eight(s: Bytes, k: nat, v: nat) {
    k + 8 <= |s| && v == Value(s, k) + 0x1_0000_0000 * Value(s, k + 4)
  }

  function Value(s: Bytes, k: nat): nat
    requires k + 4 <= |s|
  {
    At(s, k) + 0x100 * At(s, k + 1) + 0x1_0000 * At(s, k + 2) + 0x100_0000 * At(s, k + 3)
  }

  lemma Standing(a: Bytes, x: Bytes, b: Bytes)
    ensures Stands(a + x + b, |a|, x) && Stands(a + x, |a|, x)
  {
  }

  lemma StandsFurther(a: Bytes, s: Bytes, b: Bytes, k: nat, x: Bytes)
    requires Stands(s, k, x)
    ensures Stands(a + s + b, |a| + k, x)
  {
    assert (a + s + b)[|a| + k..|a| + k + |x|] == s[k..k + |x|];
  }

  lemma TwoBytes(s: Bytes, k: nat, v: nat)
    requires v < Power(2) && Stands(s, k, Number(2, v))
    ensures Two(s, k, v)
  {
    var bs := Number(2, v);
    NumberRoundTrips(2, v);
    assert bs[1..][1..] == [];
    assert ValueOf(bs[1..]) == bs[1];
    assert bs[0] == s[k] && bs[1] == s[k + 1];
  }

  lemma FourBytes(s: Bytes, k: nat, v: nat)
    requires v < Power(4) && Stands(s, k, Number(4, v))
    ensures Four(s, k, v)
  {
    NumberRoundTrips(4, v);
    ValueOfFour(s, k);
  }

  lemma ValueOfFour(s: Bytes, k: nat)
    requires k + 4 <= |s|
    ensures Four(s, k, ValueOf(s[k..k + 4]))
  {
    var bs := s[k..k + 4];
    assert bs[1..][1..] == bs[2..] && bs[2..][1..] == bs[3..] && bs[3..][1..] == [];
    assert ValueOf(bs[1..]) == bs[1] + 256 * ValueOf(bs[2..]);
    assert ValueOf(bs[2..]) == bs[2] + 256 * ValueOf(bs[3..]);
    assert ValueOf(bs[3..]) == bs[3];
    assert bs[0] == s[k] && bs[1] == s[k + 1] && bs[2] == s[k + 2] && bs[3] == s[k + 3];
  }

  lemma {:induction false} ValueOfParts(a: Bytes, b: Bytes)
    ensures ValueOf(a + b) == ValueOf(a) + Power(|a|) * ValueOf(b)
  {
    if a == [] {
      assert a + b == b;
    } else {
      ValueOfParts(a[1..], b);
      assert (a + b)[1..] == a[1..] + b;
      assert 256 * (Power(|a| - 1) * ValueOf(b)) == Power(|a|) * ValueOf(b);
    }
  }

  lemma EightBytes(s: Bytes, k: nat, v: nat)
    requires v < Power(8) && Stands(s, k, Number(8, v))
    ensures Eight(s, k, v)
  {
    var bs := Number(8, v);
    NumberRoundTrips(8, v);
    assert bs == s[k..k + 4] + s[k + 4..k + 8];
    ValueOfParts(s[k..k + 4], s[k + 4..k + 8]);
    ValueOfFour(s, k);
    ValueOfFour(s, k + 4);
    FourPowers();
  }

  lemma FourPowers()
    ensures Power(4) == 0x1_0000_0000
  {
  }

  // ---- vectors ----

  ghost predicate AllOfSize(xs: seq<Bytes>, n: nat) {
    forall i :: 0 <= i < |xs| ==> |xs[i]| == n
  }

  lemma {:induction false} ManyLength(xs: seq<Bytes>, n: nat)
    requires AllOfSize(xs, n)
    ensures |WriteMany(Same, xs)| == n * |xs|
  {
    if xs != [] {
      ManyLength(xs[..|xs| - 1], n);
      MulNext(n, |xs| - 1);
    }
  }

  lemma {:induction false} OneStands(xs: seq<Bytes>, n: nat, i: nat)
    requires AllOfSize(xs, n) && i < |xs|
    ensures Stands(WriteMany(Same, xs), n * i, xs[i])
  {
    var m := |xs| - 1;
    var front := WriteMany(Same, xs[..m]);
    if i < m {
      OneStands(xs[..m], n, i);
      StandsBefore(front, xs[m], n * i, xs[i]);
    } else {
      ManyLength(xs[..m], n);
      Standing(front, xs[m], []);
    }
  }

  lemma StandsBefore(s: Bytes, b: Bytes, k: nat, x: Bytes)
    requires Stands(s, k, x)
    ensures Stands(s + b, k, x)
  {
    assert (s + b)[k..k + |x|] == s[k..k + |x|];
  }

  lemma ManyStand(xs: seq<Bytes>, n: nat)
    requires AllOfSize(xs, n)
    ensures |WriteMany(Same, xs)| == n * |xs|
    ensures forall i: nat :: i < |xs| ==> Stands(WriteMany(Same, xs), n * i, xs[i])
  {
    hide Stands, WriteMany;
    ManyLength(xs, n);
    forall i: nat | i < |xs| ensures Stands(WriteMany(Same, xs), n * i, xs[i]) {
      OneStands(xs, n, i);
    }
  }

  /** The number of hashes, and the hashes one after the other. */
  ghost predicate HashesAt(s: Bytes, k: nat, hashes: seq<Bytes>) {
    && Four(s, k, |hashes|)
    && forall i: nat :: i < |hashes| ==> Stands(s, k + 4 + 32 * i, hashes[i])
  }

  lemma HashesStand(a: Bytes, hashes: seq<Bytes>, b: Bytes)
    requires (forall h :: h in hashes ==> IsHash(h)) && |hashes| < Power(4)
    ensures |WriteVector(Same, hashes)| == 4 + 32 * |hashes|
    ensures HashesAt(a + WriteVector(Same, hashes) + b, |a|, hashes)
  {
    hide WriteMany, Number, Stands, Four, Power;
    var s := a + WriteVector(Same, hashes) + b;
    var n, body := Number(4, |hashes|), WriteMany(Same, hashes);
    assert forall i :: 0 <= i < |hashes| ==> hashes[i] in hashes;
    ManyStand(hashes, HASH);
    ThreeMoves(a, n, body, b);
    Standing(a, n, body + b);
    FourBytes(s, |a|, |hashes|);
    forall i: nat | i < |hashes| ensures Stands(s, |a| + 4 + 32 * i, hashes[i]) {
      StandsFurther(a + n, body, b, HASH * i, hashes[i]);
    }
  }

  lemma ThreeMoves(a: Bytes, n: Bytes, body: Bytes, b: Bytes)
    ensures a + (n + body) + b == a + n + (body + b) == (a + n) + body + b
  {
  }

  /** MsgReqBlock. */
  lemma ReqBlockLayout(hashes: seq<Bytes>)
    requires (forall h :: h in hashes ==> IsHash(h)) && |hashes| < Power(4)
    ensures var s := WriteVector(Same, hashes); |s| == 4 + 32 * |hashes| && HashesAt(s, 0, hashes)
  {
    HashesStand([], hashes, []);
    assert [] + WriteVector(Same, hashes) + [] == WriteVector(Same, hashes);
  }

  // ---- certificates ----

  lemma {:induction false} BitsTakeOneByteEach(bits: seq<bool>)
    ensures |WriteMany(WriteBit, bits)| == |bits|
  {
    if bits != [] {
      BitsTakeOneByteEach(bits[..|bits| - 1]);
    }
  }

  /** The hash that is certified comes first, the signatures last. */
  lemma CertLayout(c: Cert)
    requires CertOk(c)
    ensures var s, n := WriteCert(c), |c.rids|;
            && |s| == 36 + n + 64 * |c.sigs| && Stands(s, 0, c.objHash) && Four(s, 32, n)
            && forall k: nat :: k < |c.sigs| ==> Stands(s, 36 + n + 64 * k, c.sigs[k])
  {
    hide WriteMany, Number, Power, Four;
    var s := WriteCert(c);
    var size, bits, sigs := Number(4, |c.rids|), WriteMany(WriteBit, c.rids), WriteMany(Same, c.sigs);
    BitsTakeOneByteEach(c.rids);
    assert forall i :: 0 <= i < |c.sigs| ==> c.sigs[i] in c.sigs;
    ManyStand(c.sigs, SIG);
    assert s == c.objHash + size + bits + sigs + [] + [];
    Pieces(c.objHash, size, bits, sigs, [], []);
    FourBytes(s, HASH, |c.rids|);
    var front := c.objHash + size + bits;
    assert s == front + sigs + [];
    forall k: nat | k < |c.sigs| ensures Stands(s, 36 + |c.rids| + 64 * k, c.sigs[k]) {
      StandsFurther(front, sigs, [], SIG * k, c.sigs[k]);
    }
  }

  /** They are those of the replicas whose bit is set, in ascending order. */
  lemma {:induction false} SignaturesAreInOrder(rids: seq<bool>, sigs: map<nat, Bytes>)
    requires forall i :: 0 <= i < |rids| && rids[i] ==> i in sigs
    ensures var who := Signers(rids);
            && (forall i: nat :: i in who <==> i < |rids| && rids[i])
            && (forall j, k :: 0 <= j < k < |who| ==> who[j] < who[k])
            && (forall k :: 0 <= k < |who| ==> InOrder(rids, sigs)[k] == sigs[who[k]])
  {
    if rids != [] {
      var n := |rids| - 1;
      SignaturesAreInOrder(rids[..n], sigs);
      var who, before := Signers(rids), Signers(rids[..n]);
      forall k | 0 <= k < |before| ensures before[k] < n && who[k] == before[k] {
        assert before[k] in before;
      }
      forall i: nat ensures i in who <==> i < |rids| && rids[i] {
        assert i in who <==> i in before || (i == n && rids[n]);
      }
    }
  }

  // ---- blocks ----

  /** Parents, commands, certificate and extra bytes, in this order. */
  lemma BlockLayout(b: Block)
    requires BlockOk(b)
    ensures var s := WriteBlock(b);
            var cmds := 4 + 32 * |b.parents|;
            var qc := cmds + 4 + 32 * |b.cmds|;
            var extra := qc + |WriteCert(b.qc)|;
            && |s| == extra + 4 + |b.extra|
            && HashesAt(s, 0, b.parents) && HashesAt(s, cmds, b.cmds) && Stands(s, qc, WriteCert(b.qc))
            && Four(s, extra, |b.extra|) && Stands(s, extra + 4, b.extra)
  {
    hide WriteVector, WriteCert, HashesAt, Four, Stands, Number;
    var s := WriteBlock(b);
    var p, c, q, n := WriteVector(Same, b.parents), WriteVector(Same, b.cmds), WriteCert(b.qc), Number(4, |b.extra|);
    HashesStand([], b.parents, c + q + n + b.extra);
    assert s == [] + p + (c + q + n + b.extra);
    HashesStand(p, b.cmds, q + n + b.extra);
    assert s == p + c + (q + n + b.extra);
    Standing(p + c, q, n + b.extra);
    assert s == p + c + q + (n + b.extra);
    Standing(p + c + q, n, b.extra);
    assert s == p + c + q + n + b.extra;
    FourBytes(s, |p + c + q|, |b.extra|);
    Standing(p + c + q + n, b.extra, []);
  }

  // ---- messages ----

  /** The voter, the block, and the signed part certificate. */
  lemma VoteLayout(v: Vote)
    requires VoteOk(v)
    ensures var s := WriteVote(v);
            && |s| == 130 && Two(s, 0, v.voter)
            && Stands(s, 2, v.blkHash) && Stands(s, 34, v.certHash) && Stands(s, 66, v.sig)
  {
    var n, s := Number(2, v.voter), WriteVote(v);
    assert s == [] + n + (v.blkHash + v.certHash + v.sig);
    Standing([], n, v.blkHash + v.certHash + v.sig);
    TwoBytes(s, 0, v.voter);
    assert s == n + v.blkHash + (v.certHash + v.sig);
    Standing(n, v.blkHash, v.certHash + v.sig);
    Standing(n + v.blkHash, v.certHash, v.sig);
    Standing(n + v.blkHash + v.certHash, v.sig, []);
  }

  /** The decision is one byte, in two's complement. */
  lemma FinalityLayout(f: Finality)
    requires FinalityOk(f)
    ensures var s := WriteFinality(f);
            && |s| == (if f.decision == 1 then 75 else 43)
            && Two(s, 0, f.rid) && f.decision == (if At(s, 2) >= 128 then At(s, 2) - 256 else At(s, 2) as int)
            && Four(s, 3, f.cmdIdx) && Four(s, 7, f.cmdHeight) && Stands(s, 11, f.cmdHash)
            && (f.decision == 1 ==> Stands(s, 43, f.blkHash))
  {
    hide Number, Four, Two, Power;
    var s := WriteFinality(f);
    var rid, d, idx, height := Number(2, f.rid), [WriteSigned(f.decision)], Number(4, f.cmdIdx), Number(4, f.cmdHeight);
    var last := if f.decision == 1 then f.blkHash else [];
    Pieces(rid, d, idx, height, f.cmdHash, last);
    TwoBytes(s, 0, f.rid);
    FourBytes(s, 3, f.cmdIdx);
    FourBytes(s, 7, f.cmdHeight);
    assert At(s, 2) == WriteSigned(f.decision);
  }

  lemma Pieces(a: Bytes, b: Bytes, c: Bytes, d: Bytes, e: Bytes, f: Bytes)
    ensures var s := a + b + c + d + e + f;
            && Stands(s, 0, a) && Stands(s, |a|, b) && Stands(s, |a| + |b|, c) && Stands(s, |a| + |b| + |c|, d)
            && Stands(s, |a| + |b| + |c| + |d|, e) && Stands(s, |a| + |b| + |c| + |d| + |e|, f)
  {
  }

  /** The client, its counter, and the payload with its length. */
  lemma CmdLayout(c: Cmd)
    requires CmdOk(c)
    ensures var s := WriteCmd(c);
            && |s| == 16 + 8 * |c.payload| && Four(s, 0, c.cid) && Four(s, 4, c.n) && Eight(s, 8, |c.payload|)
            && forall i: nat :: i < |c.payload| ==> Eight(s, 16 + 8 * i, c.payload[i])
  {
    hide Number, Four, Eight, Power, WriteMany;
    var s := WriteCmd(c);
    var cid, n, size := Number(4, c.cid), Number(4, c.n), Number(8, |c.payload|);
    var words := WriteMany(WriteWord, c.payload);
    WordsStand(c.payload);
    Pieces(cid, n, size, words, [], []);
    assert s == cid + n + size + words + [] + [];
    FourBytes(s, 0, c.cid);
    FourBytes(s, 4, c.n);
    EightBytes(s, 8, |c.payload|);
    forall i: nat | i < |c.payload| ensures Eight(s, 16 + 8 * i, c.payload[i]) {
      assert c.payload[i] in c.payload;
      StandsFurther(cid + n + size, words, [], 8 * i, WriteWord(c.payload[i]));
      assert cid + n + size + words + [] == s;
      EightBytes(s, 16 + 8 * i, c.payload[i]);
    }
  }

  lemma {:induction false} WordsStand(ws: seq<nat>)
    ensures |WriteMany(WriteWord, ws)| == 8 * |ws|
    ensures forall i: nat :: i < |ws| ==> Stands(WriteMany(WriteWord, ws), 8 * i, WriteWord(ws[i]))
  {
    if ws != [] {
      var m := |ws| - 1;
      var front, last := WriteMany(WriteWord, ws[..m]), WriteWord(ws[m]);
      WordsStand(ws[..m]);
      forall i: nat | i < |ws| ensures Stands(front + last, 8 * i, WriteWord(ws[i])) {
        if i < m {
          assert ws[..m][i] == ws[i];
          StandsBefore(front, last, 8 * i, WriteWord(ws[i]));
        } else {
          Standing(front, last, []);
        }
      }
    }
  }
}
