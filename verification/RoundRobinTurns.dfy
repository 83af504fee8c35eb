/** PMRoundRobinProposer: whose turn it is, when a rotation ends, and which blocks are made. */
module RoundRobinTurns {
  import opened Core
  import opened Arithmetic
  import opened RoundRobin
  import opened RoundRobinLosses
  import LeaderChain

  // ---- what every part of an event but `rotate` does to the rotation ----

  /** During a rotation the first block of every proposer is noted. */
  predicate Listens(s: Pacer) {
    s.rotating ==> s.ownListen && s.recvListen
  }

  /** The rotation is over once the block noted for the proposer is committed, and then, if that is this
      replica, a re-proposal is scheduled.  Blocks noted stay noted. */
  ghost predicate Turned(env: Env, s: Pacer, s': Pacer) {
    && s'.proposer == s.proposer && s.committed <= s'.committed
    && (forall w :: w in s.propBlk ==> w in s'.propBlk && s'.propBlk[w] == s.propBlk[w])
    && (s'.rotating ==> s.rotating)
    && (s.rotating && !s'.rotating ==>
          s.proposer in s'.propBlk && s'.propBlk[s.proposer] in s'.committed - s.committed)
    && (s.rotating && s.proposer in s.propBlk && s.propBlk[s.proposer] in s'.committed - s.committed ==> !s'.rotating)
    && s'.calls == s.calls + (if s.rotating && !s'.rotating && s.proposer == env.id then 1 else 0)
    && (Listens(s) ==> Listens(s'))
  }

  lemma TurnedTransitive(env: Env, a: Pacer, b: Pacer, c: Pacer)
    requires Turned(env, a, b) && Turned(env, b, c)
    ensures Turned(env, a, c)
  {
  }

  lemma TurnedSame(env: Env, s: Pacer, s': Pacer)
    requires s'.proposer == s.proposer && s'.committed == s.committed && s'.propBlk == s.propBlk
    requires s'.rotating == s.rotating && s'.calls == s.calls
    requires s'.ownListen == s.ownListen && s'.recvListen == s.recvListen
    ensures Turned(env, s, s')
  {
  }

  lemma OnConsensusTurns(env: Env, s: Pacer, b: Blk, hand: multiset<Batch>)
    requires Good(s, hand)
    ensures Turned(env, s, OnConsensus(env, s, b))
    ensures OnConsensus(env, s, b).committed == s.committed + {b}
  {
    hide Wired, Names, Gate, Accounted, RejectBoth;
  }

  lemma {:induction false} CommitAllTurns(env: Env, s: Pacer, bs: seq<Blk>, hand: multiset<Batch>)
    requires Good(s, hand)
    ensures Turned(env, s, CommitAll(env, s, bs))
  {
    hide Good, OnConsensus, Turned;
    if bs == [] {
      TurnedSame(env, s, s);
    } else {
      var n := |bs| - 1;
      CommitAllTurns(env, s, bs[..n], hand);
      CommitAllKeeps(env, s, bs[..n], hand);
      OnConsensusTurns(env, CommitAll(env, s, bs[..n]), bs[n], hand);
      TurnedTransitive(env, s, CommitAll(env, s, bs[..n]), CommitAll(env, s, bs));
    }
  }

  lemma NoteTurns(env: Env, s: Pacer, who: ReplicaId, b: Blk)
    ensures Turned(env, s, NoteReceived(s, who, b)) && Turned(env, s, NoteOwn(env, s, b))
    ensures s.rotating && Listens(s) ==>
              && NoteReceived(s, who, b).propBlk == (if who in s.propBlk then s.propBlk else s.propBlk[who := b])
              && env.id in NoteOwn(env, s, b).propBlk
  {
  }

  lemma ScheduleNextFields(s: Pacer)
    ensures ScheduleNext(s).0 ==
            s.(pending := ScheduleNext(s).0.pending, pms := ScheduleNext(s).0.pms, locked := ScheduleNext(s).0.locked)
  {
    hide Reject, HoldBeat;
  }

  lemma ScheduleNextTurns(env: Env, s: Pacer)
    ensures Turned(env, s, ScheduleNext(s).0)
  {
    hide ScheduleNext, Turned;
    ScheduleNextFields(s);
    TurnedSame(env, s, ScheduleNext(s).0);
  }

  lemma NewLastTurns(env: Env, s: Pacer, b: Blk)
    ensures Turned(env, s, NewLast(s, b)) && NewLast(s, b).own == s.own && NewLast(s, b).certified == s.certified
  {
    hide ScheduleNext;
    var s1 := s.(lastProposed := b, locked := false);
    TurnedSame(env, s, s1);
    ScheduleNextFields(s1);
    ScheduleNextTurns(env, s1);
    TurnedTransitive(env, s, s1, ScheduleNext(s1).0);
    TurnedSame(env, s, s);
  }

  lemma {:induction false} CommitsKeepListening(env: Env, s: Pacer, bs: seq<Blk>)
    ensures CommitAll(env, s, bs).ownListen == s.ownListen && CommitAll(env, s, bs).recvListen == s.recvListen
  {
    hide RejectBoth;
    if bs != [] {
      CommitsKeepListening(env, s, bs[..|bs| - 1]);
    }
  }

  /** The next proposal is noted, and outside a rotation no other one. */
  lemma OwnIsNoted(env: Env, s: Pacer, batch: Option<Batch>)
    ensures s.ownListen ==> env.id in OnPropose(env, s, batch).propBlk
    ensures var s' := OnPropose(env, s, batch);
            s'.ownListen == (s.ownListen && s'.rotating) && s'.recvListen == (s.recvListen && s'.rotating)
  {
    hide CommitAll, ScheduleNext;
    CommitsKeepListening(env, NowProposed(s, batch), env.commits(s.own));
    var b := Own(s.own);
    var s3 := NoteReceived(CommitAll(env, NowProposed(s, batch), env.commits(s.own)), env.id, b);
    ScheduleNextFields(NoteOwn(env, s3, b).(lastProposed := b, locked := false));
  }

  lemma OnProposeTurns(env: Env, s: Pacer, batch: Option<Batch>, hand: multiset<Batch>)
    requires Good(s, if batch.Some? then hand + multiset{batch.value} else hand)
    ensures Turned(env, s, OnPropose(env, s, batch))
    ensures s.rotating && Listens(s) ==> env.id in OnPropose(env, s, batch).propBlk
  {
    OwnIsNoted(env, s, batch);
    hide Good, NewLast, CommitAll, NoteReceived, NoteOwn, Turned;
    var b := Own(s.own);
    var s1 := NowProposed(s, batch);
    NowProposedKeeps(s, batch, hand);
    TurnedSame(env, s, s1);
    CommitAllTurns(env, s1, env.commits(s.own), hand);
    var s2 := CommitAll(env, s1, env.commits(s.own));
    NoteTurns(env, s2, env.id, b);
    var s3 := NoteReceived(s2, env.id, b);
    NoteTurns(env, s3, env.id, b);
    var s4 := NoteOwn(env, s3, b);
    NewLastTurns(env, s4, b);
    TurnedTransitive(env, s, s1, s2);
    TurnedTransitive(env, s, s2, s3);
    TurnedTransitive(env, s, s3, s4);
    TurnedTransitive(env, s, s4, NewLast(s4, b));
  }

  lemma NewConsensusTurns(env: Env, s: Pacer, x: nat, hand: multiset<Batch>)
    requires Good(s, hand)
    ensures Turned(env, s, NewConsensus(env, s, x))
    ensures s.rotating && Listens(s) ==> env.id in NewConsensus(env, s, x).propBlk
  {
    hide Good, OnPropose, Reject, HoldChain, Turned;
    OnProposeTurns(env, s, None, hand);
    TurnedSame(env, OnPropose(env, s, None), NewConsensus(env, s, x));
    TurnedTransitive(env, s, OnPropose(env, s, None), NewConsensus(env, s, x));
  }

  lemma FireBeatTurns(env: Env, s: Pacer, batch: Batch, hand: multiset<Batch>)
    requires Good(s, hand + multiset{batch})
    ensures Turned(env, s, FireBeat(env, s, batch))
  {
    hide Good, OnPropose, Turned;
    if s.proposer == env.id {
      OnProposeTurns(env, s, Some(batch), hand);
    } else {
      TurnedSame(env, s, FireBeat(env, s, batch));
    }
  }

  lemma FireOneTurns(env: Env, s: Pacer, cb: Callback, hand: multiset<Batch>)
    requires Good(s, hand + Beats([cb]))
    ensures Turned(env, s, FireOne(env, s, cb))
  {
    hide Good, NewConsensus, FireBeat, Turned;
    BeatsOfTwo(cb, cb);
    match cb
    case BeatCb(batch) =>
      assert hand + Beats([cb]) == hand + multiset{batch};
      FireBeatTurns(env, s, batch, hand);
    case ChainCb(x) =>
      assert hand + Beats([cb]) == hand;
      if x < LeaderChain.Lag(env.build) {
        NewConsensusTurns(env, s, x + 1, hand);
      } else {
        TurnedSame(env, s, s);
      }
  }

  lemma {:induction false} FireTurns(env: Env, s: Pacer, cbs: seq<Callback>, hand: multiset<Batch>)
    requires Good(s, hand + Beats(cbs))
    ensures Turned(env, s, Fire(env, s, cbs))
  {
    hide Good, FireOne, Turned;
    if cbs == [] {
      TurnedSame(env, s, s);
    } else {
      var n := |cbs| - 1;
      BeatsOfTwo(cbs[n], cbs[n]);
      assert hand + Beats(cbs) == (hand + Beats([cbs[n]])) + Beats(cbs[..n]);
      FireTurns(env, s, cbs[..n], hand + Beats([cbs[n]]));
      FireKeeps(env, s, cbs[..n], hand + Beats([cbs[n]]));
      FireOneTurns(env, Fire(env, s, cbs[..n]), cbs[n], hand);
      TurnedTransitive(env, s, Fire(env, s, cbs[..n]), Fire(env, s, cbs));
    }
  }

  lemma QcFinishTurns(env: Env, s: Pacer, b: Blk, byVotes: bool)
    requires Good(s, multiset{}) && Known(s.own, b)
    ensures Turned(env, s, QcFinish(env, s, b, byVotes))
  {
    hide Good, Fire, Turned, Settled, Beats;
    var (s1, cbs) := Settled(s, b, byVotes);
    SettledKeeps(s, b, byVotes);
    SettledTurns(env, s, b, byVotes);
    assert multiset{} + Beats(cbs) == Beats(cbs);
    FireTurns(env, s1, cbs, multiset{});
    TurnedTransitive(env, s, s1, QcFinish(env, s, b, byVotes));
  }

  lemma SettledTurns(env: Env, s: Pacer, b: Blk, byVotes: bool)
    ensures Turned(env, s, Settled(s, b, byVotes).0)
  {
    hide Turned, Remove;
    TurnedSame(env, s, Settled(s, b, byVotes).0);
  }

  lemma BeatTurns(env: Env, s: Pacer, batch: Batch)
    requires Good(s, multiset{batch})
    ensures Turned(env, s, Beat(env, s, batch))
  {
    hide Good, FireBeat, ScheduleNext, Turned;
    if s.rotating || s.proposer != env.id {
      assert multiset{} + multiset{batch} == multiset{batch};
      FireBeatTurns(env, s, batch, multiset{});
    } else {
      QueuedKeeps(s, batch);
      var s0 := s.(pending := s.pending + [batch]);
      ScheduleNextKeeps(s0, multiset{});
      ScheduleNextTurns(env, s0);
      TurnedSame(env, s, s0);
      var (s1, ready) := ScheduleNext(s0);
      TurnedTransitive(env, s, s0, s1);
      if ready.Some? {
        ReadyTurns(env, s1, ready.value, s.pending == []);
        TurnedTransitive(env, s, s1, Beat(env, s, batch));
      }
    }
  }

  lemma ReadyTurns(env: Env, s: Pacer, batch: Batch, first: bool)
    requires Good(s, multiset{} + multiset{batch})
    ensures Turned(env, s, if first then FireBeat(env, s.(locked := true), batch)
                           else FireBeat(env, s, batch).(locked := true))
  {
    hide Good, FireBeat, Turned;
    LockedKeeps(s, multiset{} + multiset{batch});
    if first {
      TurnedSame(env, s, s.(locked := true));
      FireBeatTurns(env, s.(locked := true), batch, multiset{});
      TurnedTransitive(env, s, s.(locked := true), FireBeat(env, s.(locked := true), batch));
    } else {
      FireBeatTurns(env, s, batch, multiset{});
      var s' := FireBeat(env, s, batch);
      TurnedSame(env, s', s'.(locked := true));
      TurnedTransitive(env, s, s', s'.(locked := true));
    }
  }

  // ---- rotations ----

  /** `rotate` is run: by the second timer, or by an impeachment outside a rotation. */
  predicate Rotates(s: Pacer, e: Event) {
    e.PropTimeout? || (e.Impeach? && !s.rotating)
  }

  /** What an event does to the rotation.  `rotate` turns to the next replica and forgets the blocks noted.
      Otherwise the proposer stays, and a rotation ends when the block noted for it is committed; if it is
      this replica, the call that re-proposes is then scheduled, once.  The block noted for a replica is the
      first one seen since `rotate` was run. */
  lemma RotationIsExact(env: Env, s: Pacer, e: Event)
    requires env.n > 0 && Good(s, multiset{})
    ensures var s' := Step(env, s, e);
            if Rotates(s, e) then
              && s'.proposer == (s.proposer + 1) % env.n && s'.rotating && s'.propBlk == map[] && Listens(s')
              && s'.calls == s.calls && s'.committed == s.committed
            else Turned(env, if e.RunCall? && s.calls > 0 then s.(calls := s.calls - 1) else s, s')
    ensures s.rotating && Listens(s) ==>
              && (e.Receive? ==>
                    Step(env, s, e).propBlk == if e.who in s.propBlk then s.propBlk else s.propBlk[e.who := e.blk])
              && (e.ExpTimeout? && s.proposer == env.id ==> env.id in Step(env, s, e).propBlk)
  {
    hide Good, Beat, QcFinish, OnConsensus, NoteReceived, NewConsensus, Turned, RejectBoth;
    match e
    case Take(batch) =>
      if s.proposer == env.id {
        TakenKeeps(s, batch);
        var s1 := s.(taken := s.taken + multiset{batch});
        TurnedSame(env, s, s1);
        BeatTurns(env, s1, batch);
        TurnedTransitive(env, s, s1, Beat(env, s1, batch));
      } else {
        TurnedSame(env, s, s);
      }
    case Finish(b, byVotes) =>
      if Known(s.own, b) {
        QcFinishTurns(env, s, b, byVotes);
      } else {
        TurnedSame(env, s, s);
      }
    case Consensus(b) => OnConsensusTurns(env, s, b, multiset{});
    case Receive(who, b) => NoteTurns(env, s, who, b);
    case Impeach => TurnedSame(env, s, s);
    case ExpTimeout =>
      TurnedSame(env, s, s);
      NewConsensusTurns(env, s, 0, multiset{});
    case PropTimeout =>
    case RunCall(waiting) =>
      TurnedSame(env, s, s);
      if s.calls > 0 {
        CallKeeps(s);
        TurnedSame(env, s.(calls := s.calls - 1), s.(calls := s.calls - 1));
        NewConsensusTurns(env, s.(calls := s.calls - 1), 0, multiset{});
      }
  }

  /** How often `rotate` is run in a sequence of events. */
  function Rotations(env: Env, s: Pacer, es: seq<Event>): nat
    requires env.n > 0
  {
    if es == [] then 0
    else
      var n := |es| - 1;
      Rotations(env, s, es[..n]) + if Rotates(RunFrom(env, s, es[..n]), es[n]) then 1 else 0
  }

  /** After k rotations the k-th next replica is the proposer; during a rotation first blocks are noted. */
  lemma {:induction false} TurnsGoAround(env: Env, s: Pacer, es: seq<Event>)
    requires env.n > 0 && Good(s, multiset{}) && Listens(s) && s.proposer < env.n
    ensures var s' := RunFrom(env, s, es);
            && Good(s', multiset{}) && Listens(s') && s'.proposer == (s.proposer + Rotations(env, s, es)) % env.n
  {
    hide Good, Step, Rotates;
    if es != [] {
      var n := |es| - 1;
      var s1 := RunFrom(env, s, es[..n]);
      TurnsGoAround(env, s, es[..n]);
      StepKeeps(env, s1, es[n]);
      RotationIsExact(env, s1, es[n]);
      NextRemainder(s.proposer + Rotations(env, s, es[..n]), env.n);
    }
  }

  /** So within n - 1 rotations every replica has had its turn. */
  lemma EveryoneHasATurn(env: Env, s: Pacer, es: seq<Event>, r: ReplicaId) returns (k: nat)
    requires env.n > 0 && Good(s, multiset{}) && Listens(s) && s.proposer < env.n && r < env.n
    requires Rotations(env, s, es) >= env.n - 1
    ensures k <= |es| && RunFrom(env, s, es[..k]).proposer == r
  {
    hide Good, RunFrom, Rotates;
    var d := if r >= s.proposer then r - s.proposer else r + env.n - s.proposer;
    k := AfterRotations(env, s, es, d);
    TurnsGoAround(env, s, es[..k]);
    AroundTo(env.n, s.proposer, d, r);
  }

  lemma {:induction false} AfterRotations(env: Env, s: Pacer, es: seq<Event>, d: nat) returns (k: nat)
    requires env.n > 0 && d <= Rotations(env, s, es)
    ensures k <= |es| && Rotations(env, s, es[..k]) == d
  {
    hide RunFrom, Rotates;
    if d == Rotations(env, s, es) {
      k := |es|;
      assert es[..k] == es;
    } else {
      var n := |es| - 1;
      k := AfterRotations(env, s, es[..n], d);
      assert es[..n][..k] == es[..k];
    }
  }

  /** In every run: the first proposer is replica 0, and which block was first is known throughout a rotation. */
  lemma RunTurns(env: Env, es: seq<Event>)
    requires env.n > 0
    ensures Run(env, es).proposer == Rotations(env, Init(env), es) % env.n && Listens(Run(env, es))
  {
    EveryBatchIsAccountedFor(env, []);
    TurnsGoAround(env, Init(env), es);
  }

  // ---- the blocks made ----

  /** The blocks a callback makes. */
  function MadeBy(env: Env, proposer: ReplicaId, cb: Callback): nat {
    match cb
    case BeatCb(batch) => if proposer == env.id then 1 else 0
    case ChainCb(x) => if x < LeaderChain.Lag(env.build) then 1 else 0
  }

  function MadeByAll(env: Env, proposer: ReplicaId, cbs: seq<Callback>): nat {
    if cbs == [] then 0
    else MadeByAll(env, proposer, cbs[..|cbs| - 1]) + MadeBy(env, proposer, cbs[|cbs| - 1])
  }

  /** The number of blocks grows by `made`, and the last of them is the one the next beat waits for. */
  ghost predicate Made(s: Pacer, s': Pacer, made: nat) {
    && s'.own == s.own + made && s'.certified == s.certified && s'.proposer == s.proposer
    && (made > 0 && !s'.rotating ==> s'.lastProposed == Own(s'.own - 1))
    && (made == 0 ==> s'.lastProposed == s.lastProposed && s'.rotating == s.rotating)
  }

  lemma OnProposeMakes(env: Env, s: Pacer, batch: Option<Batch>, hand: multiset<Batch>)
    requires Good(s, if batch.Some? then hand + multiset{batch.value} else hand)
    ensures Made(s, OnPropose(env, s, batch), 1)
  {
    hide Good, OnPropose, Turned;
    OnProposeKeeps(env, s, batch, hand);
    OnProposeProposes(env, s, batch);
  }

  lemma FireOneMakes(env: Env, s: Pacer, cb: Callback, hand: multiset<Batch>)
    requires Good(s, hand + Beats([cb]))
    ensures Made(s, FireOne(env, s, cb), MadeBy(env, s.proposer, cb))
  {
    hide Good, OnPropose, Reject, HoldChain;
    BeatsOfTwo(cb, cb);
    match cb
    case BeatCb(batch) =>
      assert hand + Beats([cb]) == hand + multiset{batch};
      if s.proposer == env.id {
        OnProposeMakes(env, s, Some(batch), hand);
      }
    case ChainCb(x) =>
      assert hand + Beats([cb]) == hand;
      OnProposeMakes(env, s, None, hand);
  }

  lemma {:induction false} FireMakes(env: Env, s: Pacer, cbs: seq<Callback>, hand: multiset<Batch>)
    requires Good(s, hand + Beats(cbs))
    ensures Made(s, Fire(env, s, cbs), MadeByAll(env, s.proposer, cbs))
  {
    hide Good, FireOne, Beats, MadeBy;
    if cbs != [] {
      var n := |cbs| - 1;
      BeatsSnoc(cbs);
      assert hand + Beats(cbs) == (hand + Beats([cbs[n]])) + Beats(cbs[..n]);
      FireMakes(env, s, cbs[..n], hand + Beats([cbs[n]]));
      FireKeeps(env, s, cbs[..n], hand + Beats([cbs[n]]));
      FireOneMakes(env, Fire(env, s, cbs[..n]), cbs[n], hand);
    }
  }

  lemma BeatsSnoc(cbs: seq<Callback>)
    requires cbs != []
    ensures Beats(cbs) == Beats(cbs[..|cbs| - 1]) + Beats([cbs[|cbs| - 1]])
  {
    BeatsOfTwo(cbs[|cbs| - 1], cbs[|cbs| - 1]);
  }

  /** The blocks that do_new_consensus makes in an event: the first when a timer or the scheduled call starts
      it, the next when the certificate of the last one arrives, up to the number that Lag asks for. */
  function Reproposed(env: Env, s: Pacer, e: Event): nat {
    match e
    case Finish(b, _) => if Known(s.own, b) && GoesOn(env, s.pms, b) then 1 else 0
    case ExpTimeout => if s.proposer == env.id then 1 else 0
    case RunCall(waiting) => if waiting && s.calls > 0 then 1 else 0
    case _ => 0
  }

  lemma WhatIsMade(env: Env, s: Pacer, b: Blk, byVotes: bool)
    requires Good(s, multiset{}) && Known(s.own, b)
    ensures var cbs := Settled(s, b, byVotes).1;
            MadeByAll(env, s.proposer, cbs)
            == (if s.pms.finish == Some(b) && s.proposer == env.id then 1 else 0)
               + (if GoesOn(env, s.pms, b) then 1 else 0)
  {
    hide Good, Settled, Held, MadeByAll, LeaderChain.Lag;
    WhatFires(s, b, byVotes);
    var cbs := Settled(s, b, byVotes).1;
    MadeByFew(env, s.proposer, cbs);
  }

  lemma MadeByFew(env: Env, proposer: ReplicaId, cbs: seq<Callback>)
    ensures |cbs| == 0 ==> MadeByAll(env, proposer, cbs) == 0
    ensures |cbs| == 1 ==> MadeByAll(env, proposer, cbs) == MadeBy(env, proposer, cbs[0])
    ensures |cbs| == 2 ==>
              MadeByAll(env, proposer, cbs) == MadeBy(env, proposer, cbs[0]) + MadeBy(env, proposer, cbs[1])
  {
    hide MadeBy;
    if |cbs| > 0 {
      assert cbs[..|cbs| - 1] == if |cbs| == 1 then [] else cbs[..|cbs| - 1];
      assert cbs[..1][..0] == [];
    }
  }

  /** Exactly how many blocks an event makes, and that outside a rotation the newest of them is the one whose
      certificate the next beat waits for; after a rotation that is genesis until a block is made. */
  lemma BlocksAreExact(env: Env, s: Pacer, e: Event)
    requires env.n > 0 && Good(s, multiset{})
    ensures BlocksOk(env, s, e)
  {
    hide Good, BlocksOk, Step;
    match e
    case Take(batch) => TakeBlocks(env, s, batch);
    case Finish(b, byVotes) => FinishBlocks(env, s, b, byVotes);
    case ExpTimeout => ChainBlocks(env, s, e);
    case RunCall(waiting) => ChainBlocks(env, s, e);
    case _ => OtherBlocks(env, s, e);
  }

  ghost predicate BlocksOk(env: Env, s: Pacer, e: Event)
    requires env.n > 0
  {
    var s' := Step(env, s, e);
    && s'.own == s.own + |Proposing(env, s, e)| + Reproposed(env, s, e)
    && s'.certified == s.certified + (if e.Finish? && e.byVotes && Known(s.own, e.blk) then {e.blk} else {})
    && (s'.own > s.own && !s'.rotating ==> s'.lastProposed == Own(s'.own - 1))
    && (s'.own == s.own ==> s'.lastProposed == if s.rotating && !s'.rotating then Origin else s.lastProposed)
  }

  lemma TakeBlocks(env: Env, s: Pacer, batch: Batch)
    requires env.n > 0 && Good(s, multiset{})
    ensures BlocksOk(env, s, Take(batch))
  {
    hide Good, Beat;
    if s.proposer == env.id {
      BeatMakes(env, s, batch);
    }
  }

  lemma FinishBlocks(env: Env, s: Pacer, b: Blk, byVotes: bool)
    requires env.n > 0 && Good(s, multiset{})
    ensures BlocksOk(env, s, Finish(b, byVotes))
  {
    hide Good, QcFinish, Held, GoesOn;
    if Known(s.own, b) {
      QcFinishMakes(env, s, b, byVotes);
    }
  }

  lemma ChainBlocks(env: Env, s: Pacer, e: Event)
    requires env.n > 0 && Good(s, multiset{}) && (e.ExpTimeout? || e.RunCall?)
    ensures BlocksOk(env, s, e)
  {
    hide Good, NewConsensus;
    if e.ExpTimeout? {
      NewConsensusMakes(env, s, 0);
    } else if s.calls > 0 {
      CallKeeps(s);
      NewConsensusMakes(env, s.(calls := s.calls - 1), 0);
    }
  }

  lemma OtherBlocks(env: Env, s: Pacer, e: Event)
    requires env.n > 0 && Good(s, multiset{}) && (e.Consensus? || e.Receive? || e.Impeach? || e.PropTimeout?)
    ensures BlocksOk(env, s, e)
  {
    hide Good, OnConsensus, RejectBoth;
    if e.Consensus? {
      ConsensusMakes(env, s, e.blk);
    }
  }

  lemma ConsensusMakes(env: Env, s: Pacer, b: Blk)
    requires Good(s, multiset{})
    ensures var s' := OnConsensus(env, s, b);
            && s'.own == s.own && s'.certified == s.certified
            && s'.lastProposed == if s.rotating && !s'.rotating then Origin else s.lastProposed
  {
    hide Wired, Names, Gate, Accounted, RejectBoth;
  }

  lemma NewConsensusMakes(env: Env, s: Pacer, x: nat)
    requires Good(s, multiset{})
    ensures Made(s, NewConsensus(env, s, x), 1)
  {
    hide Good, OnPropose, Reject, HoldChain;
    OnProposeMakes(env, s, None, multiset{});
  }

  lemma QcFinishMakes(env: Env, s: Pacer, b: Blk, byVotes: bool)
    requires Good(s, multiset{}) && Known(s.own, b)
    ensures Made(if byVotes then s.(certified := s.certified + {b}) else s, QcFinish(env, s, b, byVotes),
                 |Proposing(env, s, Finish(b, byVotes))| + (if GoesOn(env, s.pms, b) then 1 else 0))
  {
    hide Good, Fire, Settled, Held, GoesOn, MadeByAll, Beats, Fits, BeatOf, Made;
    var (s1, cbs) := Settled(s, b, byVotes);
    SettledKeeps(s, b, byVotes);
    WhatFires(s, b, byVotes);
    WhatIsMade(env, s, b, byVotes);
    assert multiset{} + Beats(cbs) == Beats(cbs);
    FireMakes(env, s1, cbs, multiset{});
    assert s.pms.finish == Some(b) ==> |Bag(Held(s.pms))| == 1;
    AlsoSettled(s, b, byVotes);
    MadeFrom(if byVotes then s.(certified := s.certified + {b}) else s, s1, QcFinish(env, s, b, byVotes),
             MadeByAll(env, s.proposer, cbs));
  }

  lemma AlsoSettled(s: Pacer, b: Blk, byVotes: bool)
    ensures Settled(s, b, byVotes).0 ==
            (if byVotes then s.(certified := s.certified + {b}) else s).(pms := Settled(s, b, byVotes).0.pms)
  {
    hide Remove;
  }

  lemma MadeFrom(s: Pacer, s1: Pacer, s': Pacer, made: nat)
    requires Made(s1, s', made) && s1 == s.(pms := s1.pms)
    ensures Made(s, s', made)
  {
  }

  lemma BeatMakes(env: Env, s: Pacer, batch: Batch)
    requires Good(s, multiset{}) && s.proposer == env.id
    ensures Made(s, Beat(env, s.(taken := s.taken + multiset{batch}), batch), |Proposing(env, s, Take(batch))|)
  {
    hide Good, FireBeat, OnPropose, ScheduleNext, Made;
    TakenKeeps(s, batch);
    var s0 := s.(taken := s.taken + multiset{batch});
    if s.rotating {
      assert multiset{} + multiset{batch} == multiset{batch};
      OnProposeMakes(env, s0, Some(batch), multiset{});
      FireBeatIs(env, s0, batch);
      SameMade(s, s0, Beat(env, s0, batch), 1);
    } else {
      QueuedMakes(env, s0, batch);
      SameMade(s, s0, Beat(env, s0, batch), |Proposing(env, s, Take(batch))|);
    }
  }

  lemma SameMade(s: Pacer, s0: Pacer, s': Pacer, made: nat)
    requires Made(s0, s', made)
    requires s0 == s.(pending := s0.pending, locked := s0.locked, pms := s0.pms, taken := s0.taken)
    ensures Made(s, s', made)
  {
  }

  lemma QueuedMakes(env: Env, s: Pacer, batch: Batch)
    requires Good(s, multiset{batch}) && s.proposer == env.id && !s.rotating
    ensures Made(s, Beat(env, s, batch), if !s.locked && s.lastProposed in s.certified then 1 else 0)
  {
    hide Good, FireBeat, OnPropose, ScheduleNext, Made;
    QueuedKeeps(s, batch);
    var s1 := s.(pending := s.pending + [batch]);
    ScheduleNextKeeps(s1, multiset{});
    ScheduleNextFields(s1);
    var (s2, ready) := ScheduleNext(s1);
    if ready.Some? {
      ReadyMakes(env, s2, ready.value);
      SameMade(s, s2, Beat(env, s, batch), 1);
    } else {
      NothingMade(s2);
      SameMade(s, s2, s2, 0);
    }
  }

  lemma NothingMade(s: Pacer)
    ensures Made(s, s, 0)
  {
  }

  lemma FireBeatIs(env: Env, s: Pacer, batch: Batch)
    requires s.proposer == env.id
    ensures FireBeat(env, s, batch) == OnPropose(env, s, Some(batch))
  {
    hide OnPropose;
  }

  lemma ReadyMakes(env: Env, s: Pacer, batch: Batch)
    requires Good(s, multiset{} + multiset{batch}) && s.proposer == env.id
    ensures Made(s, FireBeat(env, s.(locked := true), batch), 1)
    ensures Made(s, FireBeat(env, s, batch).(locked := true), 1)
  {
    hide Good, OnPropose;
    LockedKeeps(s, multiset{} + multiset{batch});
    OnProposeMakes(env, s, Some(batch), multiset{});
    OnProposeMakes(env, s.(locked := true), Some(batch), multiset{});
  }

  /** What an event does to the fields that the rotation is about. */
  lemma FieldsTurn(env: Env, s: Pacer, e: Event)
    requires env.n > 0 && Good(s, multiset{})
    ensures var s' := Step(env, s, e);
            match e
            case Impeach =>
              && s'.rotating && s'.proposer == (if s.rotating then s.proposer else (s.proposer + 1) % env.n)
              && s'.propBlk == if s.rotating then s.propBlk else map[]
            case PropTimeout => s'.rotating && s'.proposer == (s.proposer + 1) % env.n && s'.propBlk == map[]
            case Consensus(b) =>
              && s'.committed == s.committed + {b} && s'.proposer == s.proposer
              && (s'.rotating <==>
                    s.rotating && (b in s.committed || !(s.proposer in s.propBlk && s.propBlk[s.proposer] == b)))
              && s'.calls == s.calls + (if s.rotating && !s'.rotating && s.proposer == env.id then 1 else 0)
              && (s.rotating && !s'.rotating ==> !s'.locked && s'.lastProposed == Origin && s'.armed)
            case Receive(who, b) =>
              && s'.propBlk == (if s.recvListen && who !in s.propBlk then s.propBlk[who := b] else s.propBlk)
              && s'.recvListen == (s.recvListen && s.rotating)
            case ExpTimeout => s'.proposer == s.proposer && s'.own == s.own + if s.proposer == env.id then 1 else 0
            case RunCall(waiting) => s'.own == s.own + if waiting && s.calls > 0 then 1 else 0
            case _ => true
  {
    hide Good, Beat, QcFinish, NewConsensus, RejectBoth, Turned, OnConsensus;
    match e
    case Consensus(b) => ConsensusEnds(env, s, b);
    case ExpTimeout =>
      RotationIsExact(env, s, e);
      NewConsensusMakes(env, s, 0);
    case RunCall(waiting) =>
      if s.calls > 0 {
        CallKeeps(s);
        NewConsensusMakes(env, s.(calls := s.calls - 1), 0);
      }
    case _ =>
  }

  lemma ConsensusEnds(env: Env, s: Pacer, b: Blk)
    requires Good(s, multiset{})
    ensures var s' := OnConsensus(env, s, b);
            && s'.committed == s.committed + {b} && s'.proposer == s.proposer
            && (s'.rotating <==>
                  s.rotating && (b in s.committed || !(s.proposer in s.propBlk && s.propBlk[s.proposer] == b)))
            && s'.calls == s.calls + (if s.rotating && !s'.rotating && s.proposer == env.id then 1 else 0)
            && (s.rotating && !s'.rotating ==> !s'.locked && s'.lastProposed == Origin && s'.armed)
  {
    hide Wired, Names, Gate, Accounted, RejectBoth;
  }

  /** All that is said of an event at once. */
  lemma EventTurns(env: Env, s: Pacer, e: Event)
    requires env.n > 0 && Good(s, multiset{})
    ensures var s' := Step(env, s, e);
            && Good(s', multiset{})
            && s'.taken == s.taken + Taking(env, s, e)
            && s'.proposed == s.proposed + Proposing(env, s, e)
            && s'.pms.dropped == s.pms.dropped + Lost(env, s, e)
            && s'.taken == multiset(s'.pending) + Bag(Held(s'.pms)) + s'.proposed + s'.pms.dropped
            && s'.own == s.own + |Proposing(env, s, e)| + Reproposed(env, s, e)
            && s'.proposer == (if Rotates(s, e) then (s.proposer + 1) % env.n else s.proposer)
  {
    hide Good, Step, Proposing, Taking, Lost, Held, Reproposed, Rotates;
    EventIsExact(env, s, e);
    RotationIsExact(env, s, e);
    BlocksAreExact(env, s, e);
  }

  lemma ScheduledCallIs(env: Env, s: Pacer, waiting: bool)
    requires env.n > 0
    ensures var s1 := if s.calls > 0 then s.(calls := s.calls - 1) else s;
            Step(env, s, RunCall(waiting)) == if waiting && s.calls > 0 then NewConsensus(env, s1, 0) else s1
  {
    hide NewConsensus;
  }

  // ---- the gate ----

  /** After a block made outside a rotation the gate is closed exactly if another beat was queued. */
  lemma OnProposeGate(env: Env, s: Pacer, batch: Option<Batch>, hand: multiset<Batch>)
    requires Good(s, if batch.Some? then hand + multiset{batch.value} else hand)
    ensures var s' := OnPropose(env, s, batch); !s'.rotating ==> (s'.locked <==> s.pending != [])
  {
    hide Good, NewLast, CommitAll, NoteReceived, NoteOwn, MovesUp;
    var b := Own(s.own);
    var s1 := NowProposed(s, batch);
    NowProposedKeeps(s, batch, hand);
    CommitAllKeeps(env, s1, env.commits(s.own), hand);
    CommitAllLoses(env, s1, env.commits(s.own), hand);
    var s2 := CommitAll(env, s1, env.commits(s.own));
    NoteKeeps(env, s2, env.id, b, hand);
    var s3 := NoteReceived(s2, env.id, b);
    NoteKeeps(env, s3, env.id, b, hand);
    var s4 := NoteOwn(env, s3, b);
    NewLastKeeps(s4, b, hand);
    NewLastGate(s4, b, hand);
  }

  lemma NewLastGate(s: Pacer, b: Blk, hand: multiset<Batch>)
    requires Good(s, hand)
    ensures s.pending == [] && !s.rotating ==> !NewLast(s, b).locked
  {
    hide Wired, Names, Watch, Accounted, ScheduleNext;
    if s.pending == [] {
      EmptyQueue(s.(lastProposed := b, locked := false));
    }
  }

  /** When the gate is closed after an event: for a batch that arrives, unless it was open, nothing was queued
      and the batch is proposed at once; at the end of a rotation it is open. */
  lemma GateIsExact(env: Env, s: Pacer, e: Event)
    requires env.n > 0 && Good(s, multiset{})
    ensures var s' := Step(env, s, e);
            match e
            case Take(_) =>
              !s.rotating && s.proposer == env.id ==>
                (s'.locked <==> s.locked || s.pending != [] || s.lastProposed !in s.certified)
            case Consensus(_) => s'.locked == (s.locked && (s'.rotating || !s.rotating))
            case ExpTimeout => s.proposer == env.id && !s'.rotating ==> (s'.locked <==> s.pending != [])
            case RunCall(waiting) => s.calls > 0 && waiting && !s'.rotating ==> (s'.locked <==> s.pending != [])
            case Finish(b, _) =>
              s.pms.finish == Some(b) && s.pms.manual != Some(b) && s.proposer == env.id ==>
                (s'.locked <==> s.pending != [])
            case _ => s'.locked == s.locked
  {
    hide Good, Beat, QcFinish, OnConsensus, NewConsensus, RejectBoth;
    match e
    case Take(batch) =>
      if !s.rotating && s.proposer == env.id {
        TakenKeeps(s, batch);
        BeatGate(env, s.(taken := s.taken + multiset{batch}), batch);
      }
    case Consensus(b) => ConsensusGate(env, s, b);
    case ExpTimeout => NewConsensusGate(env, s, 0);
    case RunCall(waiting) =>
      if s.calls > 0 {
        CallKeeps(s);
        NewConsensusGate(env, s.(calls := s.calls - 1), 0);
      }
    case Finish(b, byVotes) =>
      if s.pms.finish == Some(b) && s.pms.manual != Some(b) && s.proposer == env.id {
        FinishIsKnown(s);
        FinishGate(env, s, b, byVotes);
      }
    case _ =>
  }

  lemma ConsensusGate(env: Env, s: Pacer, b: Blk)
    requires Good(s, multiset{})
    ensures var s' := OnConsensus(env, s, b); s'.locked == (s.locked && (s'.rotating || !s.rotating))
  {
    hide Wired, Names, Gate, Accounted, RejectBoth;
  }

  lemma NewConsensusGate(env: Env, s: Pacer, x: nat)
    requires Good(s, multiset{})
    ensures var s' := NewConsensus(env, s, x); !s'.rotating ==> (s'.locked <==> s.pending != [])
  {
    hide Good, OnPropose, Reject, HoldChain;
    OnProposeGate(env, s, None, multiset{});
  }

  lemma FinishGate(env: Env, s: Pacer, b: Blk, byVotes: bool)
    requires Good(s, multiset{}) && Known(s.own, b) && s.proposer == env.id
    requires s.pms.finish == Some(b) && s.pms.manual != Some(b)
    ensures QcFinish(env, s, b, byVotes).locked <==> s.pending != []
  {
    hide Good, OnPropose, Settled, Beats, Held;
    OneBeatFires(env, s, b, byVotes);
    AfterSettled(s, b, byVotes);
    SettledKeeps(s, b, byVotes);
    WhatFires(s, b, byVotes);
    var (s1, cbs) := Settled(s, b, byVotes);
    var batch := Held(s.pms).value;
    BeatsOfTwo(BeatCb(batch), BeatCb(batch));
    FireTwo(env, s1, BeatCb(batch), BeatCb(batch));
    assert multiset{} + multiset{batch} == Beats(cbs);
    OnProposeGate(env, s1, Some(batch), multiset{});
    OnProposeKeeps(env, s1, Some(batch), multiset{});
  }

  lemma BeatGate(env: Env, s: Pacer, batch: Batch)
    requires Good(s, multiset{batch}) && !s.rotating && s.proposer == env.id
    ensures Beat(env, s, batch).locked <==> s.locked || s.pending != [] || s.lastProposed !in s.certified
  {
    hide Good, OnPropose, ScheduleNext;
    QueuedKeeps(s, batch);
    var s1 := s.(pending := s.pending + [batch]);
    ScheduleNextKeeps(s1, multiset{});
    var (s2, ready) := ScheduleNext(s1);
    if ready.Some? && s.pending == [] {
      LockedKeeps(s2, multiset{} + multiset{ready.value});
      OnProposeGate(env, s2.(locked := true), ready, multiset{});
      OnProposeKeeps(env, s2.(locked := true), ready, multiset{});
    }
  }

  // ---- the steps of do_new_consensus ----

  lemma HoldChainIs(ps: Promises, b: Blk, x: nat)
    requires Wired(ps) && ps.manual.None? && (b in ps.qcs ==> ps.qcs[b].Waiting?)
    ensures var ps' := HoldChain(ps, b, x);
            ps'.manual == Some(b) && b in ps'.qcs && ps'.qcs[b].Waiting? && ChainOf(ps'.qcs[b].cbs) == Some(x)
  {
    if b in ps.qcs {
      assert Fits(ps.qcs[b].cbs, ps.finish == Some(b), false);
    }
  }

  /** The x-th block of a re-proposal is held by pm_qc_manual, to go on from there. */
  ghost predicate ChainAt(s: Pacer, b: Blk, x: nat) {
    s.pms.manual == Some(b) && b in s.pms.qcs && s.pms.qcs[b].Waiting? && ChainOf(s.pms.qcs[b].cbs) == Some(x)
  }

  lemma NewConsensusHolds(env: Env, s: Pacer, x: nat, hand: multiset<Batch>)
    requires Good(s, hand)
    ensures ChainAt(NewConsensus(env, s, x), Own(s.own), x)
  {
    hide Good, OnPropose, Reject, HoldChain, Wired;
    OnProposeKeeps(env, s, None, hand);
    var s1 := OnPropose(env, s, None);
    GoodWired(s1, hand);
    FinishIsListed(s1.pms);
    RejectDropsHeldOnly(s1.pms, s1.pms.manual);
    HoldChainIs(Reject(s1.pms, s1.pms.manual), Own(s.own), x);
  }

  /** do_new_consensus starts with step 0, goes on with the next step at the certificate of its last block,
      and is over after step Lag: four blocks in all, three in the two-step build. */
  lemma ReproposalSteps(env: Env, s: Pacer, e: Event)
    requires env.n > 0 && Good(s, multiset{})
    ensures (e.ExpTimeout? || e.RunCall?) && Reproposed(env, s, e) == 1 ==> ChainAt(Step(env, s, e), Own(s.own), 0)
    ensures forall b, x: nat ::
              e.Finish? && e.blk == b && Known(s.own, b) && ChainAt(s, b, x) && s.pms.finish != Some(b) ==>
              if x < LeaderChain.Lag(env.build) then ChainAt(Step(env, s, e), Own(s.own), x + 1)
              else Step(env, s, e).own == s.own && Step(env, s, e).pms.manual.None?
  {
    hide Good, NewConsensus, ChainAt, Beat;
    match e
    case ExpTimeout => NewConsensusHolds(env, s, 0, multiset{});
    case RunCall(waiting) =>
      if s.calls > 0 {
        CallKeeps(s);
        NewConsensusHolds(env, s.(calls := s.calls - 1), 0, multiset{});
      }
    case Finish(b, byVotes) =>
      forall x: nat | Known(s.own, b) && ChainAt(s, b, x) && s.pms.finish != Some(b)
        ensures if x < LeaderChain.Lag(env.build) then ChainAt(Step(env, s, e), Own(s.own), x + 1)
                else Step(env, s, e).own == s.own && Step(env, s, e).pms.manual.None?
      {
        StepGoesOn(env, s, b, byVotes, x);
      }
    case _ =>
  }

  lemma StepGoesOn(env: Env, s: Pacer, b: Blk, byVotes: bool, x: nat)
    requires Good(s, multiset{}) && Known(s.own, b) && ChainAt(s, b, x) && s.pms.finish != Some(b)
    ensures var s' := QcFinish(env, s, b, byVotes);
            if x < LeaderChain.Lag(env.build) then ChainAt(s', Own(s.own), x + 1)
            else s'.own == s.own && s'.pms.manual.None?
  {
    hide Good, NewConsensus, Beats, Remove;
    WhatFires(s, b, byVotes);
    AfterSettled(s, b, byVotes);
    SettledKeeps(s, b, byVotes);
    var (s1, cbs) := Settled(s, b, byVotes);
    assert cbs == [ChainCb(x)];
    BeatsOfTwo(ChainCb(x), ChainCb(x));
    FireTwo(env, s1, ChainCb(x), ChainCb(x));
    if x < LeaderChain.Lag(env.build) {
      NewConsensusHolds(env, s1, x + 1, multiset{});
    }
  }
}
