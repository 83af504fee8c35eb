/** Replica numbering, fault thresholds and the votes that certify a block. */
module Quorums {
  import opened Chain
  import opened Core

  /** A run's parameters: the number of replicas, which of them are faulty, and the build. */
  datatype Config = Config(n: nat, faulty: set<ReplicaId>, build: Build)

  /** `peers.size() / 3` in HotStuffBase::start, where peers leaves out the replica itself. */
  function NFaulty(n: nat): nat {
    if n == 0 then 0 else (n - 1) / 3
  }

  /** config.nmajority, set by on_init. */
  function Majority(n: nat): nat {
    n - NFaulty(n)
  }

  ghost predicate ValidConfig(cfg: Config) {
    && cfg.n > 0
    && cfg.faulty <= Everyone(cfg.n)
    && |cfg.faulty| <= NFaulty(cfg.n)
  }

  ghost predicate Correct(cfg: Config, r: ReplicaId) {
    r < cfg.n && r !in cfg.faulty
  }

  /** A vote that has been cast.  `lock` is a history variable that no step tests: the b_lock the
      voter held when it decided to vote. */
  datatype Ballot = Ballot(voter: ReplicaId, blk: Block, lock: Block)

  function Supporters(cfg: Config, bs: set<Ballot>, b: Block): set<ReplicaId> {
    set x | x in bs && x.blk == b && x.voter < cfg.n :: x.voter
  }

  /** The supporters of b that were not already locked on b itself when they voted. */
  function FreshSupporters(cfg: Config, bs: set<Ballot>, b: Block): set<ReplicaId> {
    set x | x in bs && x.blk == b && x.voter < cfg.n && (x.lock != b || x.voter in cfg.faulty) :: x.voter
  }

  /** A verifiable certificate for b can exist: genesis needs none, any other block needs
      nmajority distinct signers. */
  predicate Certified(cfg: Config, bs: set<Ballot>, b: Block) {
    b == Genesis || |Supporters(cfg, bs, b)| >= Majority(cfg.n)
  }

  lemma SubsetSize<T>(a: set<T>, b: set<T>)
    requires a <= b
    ensures |a| <= |b|
  {
    if a != {} {
      var x :| x in a;
      SubsetSize(a - {x}, b - {x});
    }
  }

  lemma CertifiedGrows(cfg: Config, bs: set<Ballot>, bs': set<Ballot>, b: Block)
    requires bs <= bs'
    requires Certified(cfg, bs, b)
    ensures Certified(cfg, bs', b)
  {
    SubsetSize(Supporters(cfg, bs, b), Supporters(cfg, bs', b));
  }

  /** Any two quorums of nmajority replicas share at least nfaulty + 1 of them. */
  lemma QuorumsOverlap(n: nat, a: set<ReplicaId>, b: set<ReplicaId>)
    requires n > 0
    requires a <= Everyone(n) && |a| >= Majority(n)
    requires b <= Everyone(n) && |b| >= Majority(n)
    ensures |a * b| >= NFaulty(n) + 1
  {
    SubsetSize(a + b, Everyone(n));
    assert |a + b| == |a| + |b| - |a * b|;
  }

  /** nfaulty is the largest f for which that works: with n - f votes to a quorum, any two share more than f
      replicas exactly if f is no larger. */
  lemma NFaultyIsLargest(n: nat, f: nat)
    requires n > 0 && f <= n
    ensures OverlapBeyond(n, f) <==> f <= NFaulty(n)
  {
    if f <= NFaulty(n) {
      forall a, b | IsQuorum(n, f, a) && IsQuorum(n, f, b) ensures |a * b| > f {
        SubsetSize(a + b, Everyone(n));
        assert |a + b| == |a| + |b| - |a * b|;
      }
    } else {
      var a, b := Everyone(n - f), Everyone(n) - Everyone(f);
      SubsetSize(Everyone(f), Everyone(n));
      assert |b| == n - f;
      assert a * b == Everyone(n - f) - Everyone(f);
      if f <= n - f {
        assert a * b + Everyone(f) == Everyone(n - f);
        assert |a * b| == n - f - f;
      } else {
        assert a * b == {};
      }
      assert IsQuorum(n, f, a) && IsQuorum(n, f, b);
    }
  }

  predicate IsQuorum(n: nat, f: nat, q: set<ReplicaId>) {
    q <= Everyone(n) && |q| + f >= n
  }

  ghost predicate OverlapBeyond(n: nat, f: nat) {
    forall a, b :: IsQuorum(n, f, a) && IsQuorum(n, f, b) ==> |a * b| > f
  }

  /** So, with no more than nfaulty faulty replicas, two quorums share a correct one. */
  lemma QuorumsShareCorrect(cfg: Config, a: set<ReplicaId>, b: set<ReplicaId>) returns (v: ReplicaId)
    requires ValidConfig(cfg)
    requires a <= Everyone(cfg.n) && |a| >= Majority(cfg.n)
    requires b <= Everyone(cfg.n) && |b| >= Majority(cfg.n)
    ensures Correct(cfg, v) && v in a && v in b
  {
    QuorumsOverlap(cfg.n, a, b);
    if a * b <= cfg.faulty {
      SubsetSize(a * b, cfg.faulty);
    }
    v :| v in a * b && v !in cfg.faulty;
  }
}
