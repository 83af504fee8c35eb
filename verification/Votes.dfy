/** What a replica makes of the votes it receives for a block. */
module Votes {
  import opened Chain
  import opened Core
  import opened Quorums

  /** The replica's state after a sequence of votes for one block. */
  function AfterVotes(st: State, nmajority: nat, b: Block, voters: seq<ReplicaId>): State {
    if voters == [] then st
    else ReceiveVote(AfterVotes(st, nmajority, b, voters[..|voters| - 1]), nmajority, voters[|voters| - 1], b).state
  }

  function Distinct(voters: seq<ReplicaId>): set<ReplicaId> {
    set v | v in voters
  }

  /** Everybody whose vote for b has arrived, counted or not. */
  function Heard(st: State, b: Block, voters: seq<ReplicaId>): set<ReplicaId> {
    VotedFor(st, b) + Distinct(voters)
  }

  /** The condition under which on_receive_vote computes the certificate and calls on_qc_finish. */
  predicate Finishes(st: State, nmajority: nat, voter: ReplicaId, b: Block) {
    b in st.delivered && voter !in VotedFor(st, b) && |VotedFor(st, b)| + 1 == nmajority
  }

  lemma HeardSnoc(st: State, b: Block, voters: seq<ReplicaId>, v: ReplicaId)
    ensures Heard(st, b, voters + [v]) == Heard(st, b, voters) + {v}
    ensures |Heard(st, b, voters + [v])| == |Heard(st, b, voters)| + if v in Heard(st, b, voters) then 0 else 1
  {
    var all := Heard(st, b, voters);
    forall u ensures u in Distinct(voters + [v]) <==> u in Distinct(voters) || u == v {
      if u in Distinct(voters) {
        var i :| 0 <= i < |voters| && voters[i] == u;
        assert (voters + [v])[i] == u;
      }
    }
    assert Heard(st, b, voters + [v]) == all + {v};
    if v in all {
      assert all + {v} == all;
    }
  }

  /** One vote: it counts if fewer than nmajority replicas have voted, this one not among them. */
  lemma OneVote(st: State, nmajority: nat, b: Block, v: ReplicaId)
    requires b in st.delivered
    ensures var st' := ReceiveVote(st, nmajority, v, b).state;
            && st' == st.(hqc := st'.hqc, voted := st'.voted)
            && VotedFor(st', b) == VotedFor(st, b) + (if |VotedFor(st, b)| < nmajority then {v} else {})
            && (forall c :: c != b ==> VotedFor(st', c) == VotedFor(st, c))
            && st'.hqc == (if Finishes(st, nmajority, v, b) && Height(b) > Height(st.hqc) then b else st.hqc)
  {
    if v in VotedFor(st, b) {
      assert VotedFor(st, b) + {v} == VotedFor(st, b);
    }
  }

  /** What a sequence of votes comes to: they are counted until nmajority replicas have voted, and hqc is
      moved to the block, if that is higher, exactly if that many have. */
  lemma {:induction false} VotesAreExact(st: State, nmajority: nat, b: Block, voters: seq<ReplicaId>)
    requires b in st.delivered && |VotedFor(st, b)| <= nmajority
    ensures var st', all := AfterVotes(st, nmajority, b, voters), Heard(st, b, voters);
            && st' == st.(hqc := st'.hqc, voted := st'.voted)
            && VotedFor(st, b) <= VotedFor(st', b) <= all
            && (forall c :: c != b ==> VotedFor(st', c) == VotedFor(st, c))
            && (if |all| <= nmajority then VotedFor(st', b) == all else |VotedFor(st', b)| == nmajority)
            && st'.hqc == (if |VotedFor(st, b)| < nmajority <= |all| && Height(b) > Height(st.hqc) then b else st.hqc)
  {
    hide ReceiveVote, VotedFor;
    if voters == [] {
      assert Distinct([]) == {};
      assert Heard(st, b, []) == VotedFor(st, b);
    } else {
      var n := |voters| - 1;
      var v := voters[n];
      var st1, all := AfterVotes(st, nmajority, b, voters[..n]), Heard(st, b, voters[..n]);
      assert voters == voters[..n] + [v];
      VotesAreExact(st, nmajority, b, voters[..n]);
      HeardSnoc(st, b, voters[..n], v);
      OneVote(st1, nmajority, b, v);
      SubsetSize(VotedFor(st, b), all);
    }
  }

  lemma FinishesExactly(st: State, nmajority: nat, b: Block, voters: seq<ReplicaId>, k: nat)
    requires b in st.delivered && |VotedFor(st, b)| <= nmajority && k < |voters|
    ensures Finishes(AfterVotes(st, nmajority, b, voters[..k]), nmajority, voters[k], b) <==>
              voters[k] !in Heard(st, b, voters[..k]) && |Heard(st, b, voters[..k])| + 1 == nmajority
  {
    VotesAreExact(st, nmajority, b, voters[..k]);
    SubsetSize(VotedFor(AfterVotes(st, nmajority, b, voters[..k]), b), Heard(st, b, voters[..k]));
  }

  /** The vote that brings the number of distinct voters from nmajority - 1 to nmajority completes the
      certificate, and moves hqc to the block if that is higher.  No other vote does either. */
  lemma CompletesExactlyOnce(st: State, nmajority: nat, b: Block, voters: seq<ReplicaId>, k: nat)
    requires b in st.delivered && |VotedFor(st, b)| <= nmajority && k < |voters|
    ensures var before := AfterVotes(st, nmajority, b, voters[..k]);
            var after := AfterVotes(st, nmajority, b, voters[..k + 1]);
            && (Finishes(before, nmajority, voters[k], b) <==>
                  voters[k] !in Heard(st, b, voters[..k]) && |Heard(st, b, voters[..k])| + 1 == nmajority)
            && after.hqc == (if Finishes(before, nmajority, voters[k], b) && Height(b) > Height(st.hqc) then b
                             else before.hqc)
    ensures Finishes(AfterVotes(st, nmajority, b, voters[..k]), nmajority, voters[k], b) ==>
              forall j :: 0 <= j < |voters| && j != k ==>
                !Finishes(AfterVotes(st, nmajority, b, voters[..j]), nmajority, voters[j], b)
  {
    assert voters[..k + 1] == voters[..k] + [voters[k]];
    HeardSnoc(st, b, voters[..k], voters[k]);
    FinishesExactly(st, nmajority, b, voters, k);
    VotesAreExact(st, nmajority, b, voters[..k]);
    VotesAreExact(st, nmajority, b, voters[..k + 1]);
    forall j | 0 <= j < |voters| && j != k
      ensures Finishes(AfterVotes(st, nmajority, b, voters[..k]), nmajority, voters[k], b) ==>
                !Finishes(AfterVotes(st, nmajority, b, voters[..j]), nmajority, voters[j], b)
    {
      FinishesExactly(st, nmajority, b, voters, j);
      HeardMore(st, b, voters, if j < k then j else k, if j < k then k else j);
    }
  }

  /** A new voter adds to those heard from. */
  lemma HeardMore(st: State, b: Block, voters: seq<ReplicaId>, j: nat, k: nat)
    requires j < k < |voters|
    ensures voters[j] !in Heard(st, b, voters[..j]) ==> |Heard(st, b, voters[..j])| < |Heard(st, b, voters[..k])|
  {
    HeardSnoc(st, b, voters[..j], voters[j]);
    assert voters[..k][..j] == voters[..j] && voters[..k][j] == voters[j];
    forall v | v in voters[..j] ensures v in voters[..k] {
      var i :| 0 <= i < j && voters[..j][i] == v;
      assert voters[..k][i] == v;
    }
    SubsetSize(Heard(st, b, voters[..j] + [voters[j]]), Heard(st, b, voters[..k]));
  }

  /** Votes can arrive in some order. */
  lemma InSomeOrder(vs: set<ReplicaId>) returns (voters: seq<ReplicaId>)
    ensures Distinct(voters) == vs
  {
    voters := [];
    var rest := vs;
    while rest != {}
      invariant rest <= vs && Distinct(voters) == vs - rest
      decreases rest
    {
      var v :| v in rest;
      assert Distinct(voters + [v]) == Distinct(voters) + {v};
      voters, rest := voters + [v], rest - {v};
    }
  }

  /** The certificate of every block with enough votes has been compared with hqc. */
  ghost predicate CompletedKnown(st: State, nmajority: nat) {
    forall c :: c in st.voted && |st.voted[c]| >= nmajority ==> Height(c) <= Height(st.hqc)
  }

  /** So once nmajority votes for a block higher than hqc have arrived, hqc is that block. */
  lemma VotesCertify(st: State, nmajority: nat, b: Block, voters: seq<ReplicaId>)
    requires b in st.delivered && CompletedKnown(st, nmajority) && Height(b) > Height(st.hqc)
    requires |Distinct(voters)| >= nmajority > 0
    ensures var st' := AfterVotes(st, nmajority, b, voters);
            && st' == st.(hqc := b, voted := st'.voted) && CompletedKnown(st', nmajority)
            && VotedFor(st', b) <= Heard(st, b, voters) && (forall c :: c != b ==> VotedFor(st', c) == VotedFor(st, c))
  {
    VotesAreExact(st, nmajority, b, voters);
    SubsetSize(Distinct(voters), Heard(st, b, voters));
    var st' := AfterVotes(st, nmajority, b, voters);
    forall c | c in st'.voted && |st'.voted[c]| >= nmajority ensures Height(c) <= Height(b) {
      assert c != b ==> VotedFor(st', c) == VotedFor(st, c);
    }
  }
}
