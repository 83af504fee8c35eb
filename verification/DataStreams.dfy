/** Writing and reading a stream in place: the loops of the serializers of certificates and blocks. */
module DataStreams {
  import opened Core
  import opened Wire

  /** The signatures a certificate keeps by replica, in the order in which they are written. */
  function InOrder(rids: seq<bool>, sigs: map<nat, Bytes>): (r: seq<Bytes>)
    requires forall i :: 0 <= i < |rids| && rids[i] ==> i in sigs
    ensures |r| == |Signers(rids)|
  {
    if rids == [] then []
    else InOrder(rids[..|rids| - 1], sigs) + if rids[|rids| - 1] then [sigs[|rids| - 1]] else []
  }

  lemma {:induction false} InOrderIgnores(rids: seq<bool>, sigs: map<nat, Bytes>, k: nat, sig: Bytes)
    requires (forall i :: 0 <= i < |rids| && rids[i] ==> i in sigs) && k >= |rids|
    ensures InOrder(rids, sigs[k := sig]) == InOrder(rids, sigs)
  {
    if rids != [] {
      InOrderIgnores(rids[..|rids| - 1], sigs, k, sig);
    }
  }

  lemma WriteManySnoc<T>(write: T -> Bytes, xs: seq<T>, x: T)
    ensures WriteMany(write, xs + [x]) == WriteMany(write, xs) + write(x)
  {
    assert (xs + [x])[..|xs|] == xs;
  }

  /** Reading one by one is reading many. */
  lemma ReadManySnoc<T>(read: Reader<T>, n: nat, s: Bytes, xs: seq<T>, s1: Bytes)
    requires ReadMany(read, n, s) == Some((xs, s1))
    ensures ReadMany(read, n + 1, s) ==
            match read(s1) { case None => None case Some((x, s2)) => Some((xs + [x], s2)) }
  {
  }

  /** Once reading has failed, reading more fails. */
  lemma {:induction false} ReadManyFails<T>(read: Reader<T>, n: nat, m: nat, s: Bytes)
    requires ReadMany(read, n, s).None? && n <= m
    ensures ReadMany(read, m, s).None?
  {
    if n < m {
      ReadManyFails(read, n, m - 1, s);
    }
  }

  class DataStream {
    var data: Bytes

    constructor ()
      ensures data == []
    {
      data := [];
    }

    method Put(bs: Bytes)
      modifies this
      ensures data == old(data) + bs
    {
      data := data + bs;
    }

    /** None is the exception of a stream that is too short. */
    method Get(n: nat) returns (r: Option<Bytes>)
      modifies this
      ensures r.None? <==> n > |old(data)|
      ensures r.Some? ==> ReadBytes(n, old(data)) == Some((r.value, data))
      ensures r.None? ==> data == old(data)
    {
      if n > |data| { return None; }
      r := Some(data[..n]);
      data := data[n..];
    }

    method GetNumber(k: nat) returns (r: Option<nat>)
      modifies this
      ensures r.None? <==> ReadNumber(k, old(data)).None?
      ensures r.Some? ==> ReadNumber(k, old(data)) == Some((r.value, data))
    {
      var bs := Get(k);
      r := if bs.None? then None else Some(ValueOf(bs.value));
    }

    method PutHashes(hashes: seq<Bytes>)
      modifies this
      ensures data == old(data) + WriteVector(Same, hashes)
    {
      Put(Number(4, |hashes|));
      for i := 0 to |hashes|
        invariant data == old(data) + Number(4, |hashes|) + WriteMany(Same, hashes[..i])
      {
        assert WriteMany(Same, hashes[..i + 1]) == WriteMany(Same, hashes[..i]) + hashes[i] by {
          assert hashes[..i + 1] == hashes[..i] + [hashes[i]];
          WriteManySnoc(Same, hashes[..i], hashes[i]);
        }
        Put(hashes[i]);
      }
      assert hashes[..|hashes|] == hashes;
    }

    method GetHashes() returns (r: Option<seq<Bytes>>)
      modifies this
      ensures r.None? <==> ReadVector(ReadHash, old(data)).None?
      ensures r.Some? ==> ReadVector(ReadHash, old(data)) == Some((r.value, data))
    {
      var n := GetNumber(4);
      if n.None? { return None; }
      ghost var s := data;
      var hashes: seq<Bytes> := [];
      for i := 0 to n.value
        invariant ReadMany(ReadHash, i, s) == Some((hashes, data))
      {
        ReadManySnoc(ReadHash, i, s, hashes, data);
        var h := Get(HASH);
        if h.None? {
          ReadManyFails(ReadHash, i + 1, n.value, s);
          return None;
        }
        hashes := hashes + [h.value];
      }
      r := Some(hashes);
    }

    method PutBits(bits: seq<bool>)
      modifies this
      ensures data == old(data) + WriteVector(WriteBit, bits)
    {
      Put(Number(4, |bits|));
      for i := 0 to |bits|
        invariant data == old(data) + Number(4, |bits|) + WriteMany(WriteBit, bits[..i])
      {
        assert WriteMany(WriteBit, bits[..i + 1]) == WriteMany(WriteBit, bits[..i]) + WriteBit(bits[i]) by {
          assert bits[..i + 1] == bits[..i] + [bits[i]];
          WriteManySnoc(WriteBit, bits[..i], bits[i]);
        }
        Put(WriteBit(bits[i]));
      }
      assert bits[..|bits|] == bits;
    }

    method GetBits() returns (r: Option<seq<bool>>)
      modifies this
      ensures r.None? <==> ReadVector(ReadBit, old(data)).None?
      ensures r.Some? ==> ReadVector(ReadBit, old(data)) == Some((r.value, data))
    {
      var n := GetNumber(4);
      if n.None? { return None; }
      ghost var s := data;
      var bits: seq<bool> := [];
      for i := 0 to n.value
        invariant ReadMany(ReadBit, i, s) == Some((bits, data))
      {
        ReadManySnoc(ReadBit, i, s, bits, data);
        var b := Get(1);
        if b.None? {
          ReadManyFails(ReadBit, i + 1, n.value, s);
          return None;
        }
        bits := bits + [b.value[0] != 0];
      }
      r := Some(bits);
    }

    /** QuorumCertSecp256k1::serialize. */
    method PutCert(objHash: Bytes, rids: seq<bool>, sigs: map<nat, Bytes>)
      requires forall i :: 0 <= i < |rids| && rids[i] ==> i in sigs
      modifies this
      ensures data == old(data) + WriteCert(Cert(objHash, rids, InOrder(rids, sigs)))
    {
      hide WriteVector, WriteMany;
      Put(objHash);
      PutBits(rids);
      PutSigs(rids, sigs);
    }

    method PutSigs(rids: seq<bool>, sigs: map<nat, Bytes>)
      requires forall i :: 0 <= i < |rids| && rids[i] ==> i in sigs
      modifies this
      ensures data == old(data) + WriteMany(Same, InOrder(rids, sigs))
    {
      for i := 0 to |rids|
        invariant data == old(data) + WriteMany(Same, InOrder(rids[..i], sigs))
      {
        assert rids[..i + 1][..i] == rids[..i];
        if rids[i] {
          WriteManySnoc(Same, InOrder(rids[..i], sigs), sigs[i]);
          Put(sigs[i]);
        } else {
          assert InOrder(rids[..i + 1], sigs) == InOrder(rids[..i], sigs);
        }
      }
      assert rids[..|rids|] == rids;
    }

    /** QuorumCertSecp256k1::unserialize, into a new object. */
    method GetCert() returns (ok: bool, objHash: Bytes, rids: seq<bool>, sigs: map<nat, Bytes>)
      modifies this
      ensures ok <==> ReadCert(old(data)).Some?
      ensures ok ==> && (forall i: nat :: i in sigs <==> i < |rids| && rids[i])
                     && ReadCert(old(data)) == Some((Cert(objHash, rids, InOrder(rids, sigs)), data))
    {
      ok, objHash, rids, sigs := false, [], [], map[];
      var h := Get(HASH);
      if h.None? { return; }
      var bits := GetBits();
      if bits.None? { return; }
      objHash, rids := h.value, bits.value;
      ok, sigs := GetSigs(rids);
    }

    /** The loop over the replicas. */
    method GetSigs(rids: seq<bool>) returns (ok: bool, sigs: map<nat, Bytes>)
      modifies this
      ensures ok <==> ReadMany(ReadSig, |Signers(rids)|, old(data)).Some?
      ensures ok ==> && (forall i: nat :: i in sigs <==> i < |rids| && rids[i])
                     && ReadMany(ReadSig, |Signers(rids)|, old(data)) == Some((InOrder(rids, sigs), data))
    {
      hide InOrder, Signers, ReadMany;
      sigs := map[];
      NothingRead(data);
      assert rids[..0] == [];
      for i := 0 to |rids|
        invariant forall k: nat :: k in sigs <==> k < i && rids[k]
        invariant ReadMany(ReadSig, |Signers(rids[..i])|, old(data)) == Some((InOrder(rids[..i], sigs), data))
      {
        SignersSnoc(rids, i);
        if rids[i] {
          ReadManySnoc(ReadSig, |Signers(rids[..i])|, old(data), InOrder(rids[..i], sigs), data);
          var sig := Get(SIG);
          if sig.None? {
            MoreSigners(rids, i + 1);
            ReadManyFails(ReadSig, |Signers(rids[..i + 1])|, |Signers(rids)|, old(data));
            return false, sigs;
          }
          NextSigner(rids, i, sigs, sig.value);
          sigs := sigs[i := sig.value];
        } else {
          SkipSigner(rids, i, sigs);
        }
      }
      assert rids[..|rids|] == rids;
      ok := true;
    }

    /** Block::serialize. */
    method PutBlock(b: Block, sigs: map<nat, Bytes>)
      requires (forall i :: 0 <= i < |b.qc.rids| && b.qc.rids[i] ==> i in sigs) && b.qc.sigs == InOrder(b.qc.rids, sigs)
      modifies this
      ensures data == old(data) + WriteBlock(b)
    {
      PutHashes(b.parents);
      PutHashes(b.cmds);
      PutCert(b.qc.objHash, b.qc.rids, sigs);
      Put(Number(4, |b.extra|));
      Put(b.extra);
    }

    /** Block::unserialize. */
    method GetBlock() returns (r: Option<Block>)
      modifies this
      ensures r.None? <==> ReadBlock(old(data)).None?
      ensures r.Some? ==> ReadBlock(old(data)) == Some((r.value, data))
    {
      hide ReadVector, ReadCert, ReadNumber;
      var parents := GetHashes();
      if parents.None? { return None; }
      var cmds := GetHashes();
      if cmds.None? { return None; }
      var ok, objHash, rids, sigs := GetCert();
      if !ok { return None; }
      var n := GetNumber(4);
      if n.None? { return None; }
      var extra := Some([]);
      if n.value != 0 {
        extra := Get(n.value);
        if extra.None? { return None; }
      }
      r := Some(Block(parents.value, cmds.value, Cert(objHash, rids, InOrder(rids, sigs)), extra.value));
    }
  }

  lemma NothingRead(s: Bytes)
    ensures Signers([]) == [] && InOrder([], map[]) == [] && ReadMany(ReadSig, 0, s) == Some(([], s))
  {
  }

  lemma SignersSnoc(rids: seq<bool>, i: nat)
    requires i < |rids|
    ensures |Signers(rids[..i + 1])| == |Signers(rids[..i])| + if rids[i] then 1 else 0
  {
    assert rids[..i + 1][..i] == rids[..i];
  }

  lemma NextSigner(rids: seq<bool>, i: nat, sigs: map<nat, Bytes>, sig: Bytes)
    requires i < |rids| && rids[i] && forall k: nat :: k in sigs <==> k < i && rids[k]
    ensures InOrder(rids[..i + 1], sigs[i := sig]) == InOrder(rids[..i], sigs) + [sig]
  {
    assert rids[..i + 1][..i] == rids[..i];
    InOrderIgnores(rids[..i], sigs, i, sig);
  }

  lemma SkipSigner(rids: seq<bool>, i: nat, sigs: map<nat, Bytes>)
    requires i < |rids| && !rids[i] && forall k: nat :: k in sigs <==> k < i && rids[k]
    ensures InOrder(rids[..i + 1], sigs) == InOrder(rids[..i], sigs)
  {
    assert rids[..i + 1][..i] == rids[..i];
  }

  lemma {:induction false} MoreSigners(rids: seq<bool>, i: nat)
    requires i <= |rids|
    ensures |Signers(rids[..i])| <= |Signers(rids)|
    decreases |rids| - i
  {
    if i < |rids| {
      MoreSigners(rids, i + 1);
      assert rids[..i + 1][..i] == rids[..i];
    } else {
      assert rids[..i] == rids;
    }
  }
}
