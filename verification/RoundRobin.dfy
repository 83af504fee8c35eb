/** PMRoundRobinProposer: what becomes of the batches of commands it is given.

    A promise is represented by what its callbacks would do.  A promise of qc_waiting lives in `qcs`;
    pm_qc_finish and pm_qc_manual name the block whose promise they hold, and are None once that
    promise is settled, when resolving or rejecting it again has no effect.  on_propose is taken to
    return normally, so every block it makes is new, and nmajority is at least 2, so no certificate is
    completed by the proposer's own vote.
  */
module RoundRobin {
  import opened Core
  import LeaderChain

  /** Blocks by name: the k-th that this replica proposes, or another's. */
  datatype Blk = Origin | Own(k: nat) | Foreign(name: nat)

  /** BeatCb resolves the beat of a batch, ChainCb continues do_new_consensus. */
  datatype Callback = BeatCb(batch: Batch) | ChainCb(x: nat)

  datatype Qc = Waiting(cbs: seq<Callback>) | Rejected

  /** The replica, and what is left open: the blocks that `update` commits while the replica's k-th
      block is being proposed. */
  datatype Env = Env(id: ReplicaId, n: nat, build: Build, commits: nat -> seq<Blk>)

  datatype Promises = Promises(
    qcs: map<Blk, Qc>,              // qc_waiting
    finish: Option<Blk>,            // pm_qc_finish
    manual: Option<Blk>,            // pm_qc_manual
    dropped: multiset<Batch>)       // history: batches whose callback will never run, or did nothing

  datatype Pacer = Pacer(
    rotating: bool,
    proposer: ReplicaId,
    pending: seq<Batch>,            // pending_beats
    locked: bool,
    lastProposed: Blk,
    pms: Promises,
    armed: bool,                    // pm_wait_propose is pending
    certified: set<Blk>,            // blocks with nmajority votes
    propBlk: map<ReplicaId, Blk>,
    ownListen: bool,                // a reg_proposal callback is registered
    recvListen: bool,               // a reg_receive_proposal callback is registered
    calls: nat,                     // re-proposals handed to async_call
    own: nat,                       // blocks proposed
    committed: set<Blk>,
    taken: multiset<Batch>,         // history: batches taken from the buffer, and batches proposed
    proposed: multiset<Batch>)

  function Bag(b: Option<Batch>): multiset<Batch> {
    if b.Some? then multiset{b.value} else multiset{}
  }

  function Beats(cbs: seq<Callback>): multiset<Batch> {
    if cbs == [] then multiset{}
    else Beats(cbs[..|cbs| - 1])
         + match cbs[|cbs| - 1] { case BeatCb(batch) => multiset{batch} case ChainCb(_) => multiset{} }
  }

  // ---- the steps of the code ----

  /** pm.reject(), pm holding the promise of a block. */
  function Reject(ps: Promises, pm: Option<Blk>): Promises {
    if pm.None? || pm.value !in ps.qcs || ps.qcs[pm.value].Rejected? then ps
    else Promises(ps.qcs[pm.value := Rejected],
                  if ps.finish == pm then None else ps.finish,
                  if ps.manual == pm then None else ps.manual,
                  ps.dropped + Beats(ps.qcs[pm.value].cbs))
  }

  /** .then(cb) on what async_qc_finish(b) returns, b being uncertified. */
  function Attach(ps: Promises, b: Blk, cb: Callback): Promises {
    if b !in ps.qcs then ps.(qcs := ps.qcs[b := Waiting([cb])])
    else if ps.qcs[b].Waiting? then ps.(qcs := ps.qcs[b := Waiting(ps.qcs[b].cbs + [cb])])
    else ps.(dropped := ps.dropped + Beats([cb]))
  }

  /** The promise of b, if it is not settled. */
  function Live(ps: Promises, b: Blk): Option<Blk> {
    if b in ps.qcs && ps.qcs[b].Rejected? then None else Some(b)
  }

  /** The assignments to pm_qc_finish and pm_qc_manual with what is attached to them. */
  function HoldBeat(ps: Promises, b: Blk, batch: Batch): Promises {
    Attach(ps, b, BeatCb(batch)).(finish := Live(ps, b))
  }

  function HoldChain(ps: Promises, b: Blk, x: nat): Promises {
    Attach(ps, b, ChainCb(x)).(manual := Live(ps, b))
  }

  /** The entry of b leaves qc_waiting. */
  function Remove(ps: Promises, b: Blk): Promises {
    ps.(qcs := ps.qcs - {b}, finish := if ps.finish == Some(b) then None else ps.finish,
        manual := if ps.manual == Some(b) then None else ps.manual)
  }

  /** proposer_schedule_next up to the test of the promise; `ready` is the beat that is resolved there
      and then because the last block already has its certificate. */
  function ScheduleNext(s: Pacer): (Pacer, Option<Batch>) {
    if s.pending == [] || s.locked then (s, None)
    else
      var s1 := s.(pending := s.pending[1..], pms := Reject(s.pms, s.pms.finish));
      if s.lastProposed in s.certified then (s1, Some(s.pending[0]))
      else (s1.(pms := HoldBeat(s1.pms, s.lastProposed, s.pending[0]), locked := true), None)
  }

  /** pm_qc_finish.reject() and pm_qc_manual.reject(). */
  function RejectBoth(ps: Promises): Promises {
    var ps1 := Reject(ps, ps.finish);
    Reject(ps1, ps1.manual)
  }

  function StopRotate(env: Env, s: Pacer): Pacer {
    s.(pms := RejectBoth(s.pms), rotating := false, locked := false, lastProposed := Origin, armed := true,
        calls := s.calls + if s.proposer == env.id then 1 else 0)
  }

  function Rotate(env: Env, s: Pacer): Pacer
    requires env.n > 0
  {
    s.(ownListen := true, recvListen := true, propBlk := map[], rotating := true,
       proposer := (s.proposer + 1) % env.n, pms := RejectBoth(s.pms), armed := false)
  }

  /** on_consensus, for a block that was not committed before. */
  function OnConsensus(env: Env, s: Pacer, b: Blk): Pacer {
    if b in s.committed then s
    else
      var s1 := s.(committed := s.committed + {b});
      if s.proposer in s.propBlk && s.propBlk[s.proposer] == b then StopRotate(env, s1) else s1
  }

  function CommitAll(env: Env, s: Pacer, bs: seq<Blk>): Pacer {
    if bs == [] then s else OnConsensus(env, CommitAll(env, s, bs[..|bs| - 1]), bs[|bs| - 1])
  }

  /** The callbacks that note the first block of each proposer since the rotation began. */
  function Note(s: Pacer, who: ReplicaId, b: Blk): Pacer {
    s.(propBlk := if who in s.propBlk then s.propBlk else s.propBlk[who := b])
  }

  function NoteReceived(s: Pacer, who: ReplicaId, b: Blk): Pacer {
    if s.recvListen then Note(s, who, b).(recvListen := s.rotating) else s
  }

  function NoteOwn(env: Env, s: Pacer, b: Blk): Pacer {
    if s.ownListen then Note(s, env.id, b).(ownListen := s.rotating) else s
  }

  /** The callback of update_last_proposed. */
  function NewLast(s: Pacer, b: Blk): Pacer {
    if s.armed then ScheduleNext(s.(lastProposed := b, locked := false)).0 else s
  }

  function NowProposed(s: Pacer, batch: Option<Batch>): Pacer {
    s.(own := s.own + 1, proposed := s.proposed + Bag(batch))
  }

  /** on_propose: `update` may commit blocks, then the registered callbacks see the proposal. */
  function OnPropose(env: Env, s: Pacer, batch: Option<Batch>): Pacer {
    var b := Own(s.own);
    var s2 := CommitAll(env, NowProposed(s, batch), env.commits(s.own));
    NewLast(NoteOwn(env, NoteReceived(s2, env.id, b), b), b)
  }

  function NewConsensus(env: Env, s: Pacer, x: nat): Pacer {
    var s1 := OnPropose(env, s, None);
    s1.(pms := HoldChain(Reject(s1.pms, s1.pms.manual), Own(s.own), x))
  }

  /** The callback of a beat, called with the current proposer. */
  function FireBeat(env: Env, s: Pacer, batch: Batch): Pacer {
    if s.proposer == env.id then OnPropose(env, s, Some(batch))
    else s.(pms := s.pms.(dropped := s.pms.dropped + multiset{batch}))
  }

  function FireOne(env: Env, s: Pacer, cb: Callback): Pacer {
    match cb
    case BeatCb(batch) => FireBeat(env, s, batch)
    case ChainCb(x) => if x >= LeaderChain.Lag(env.build) then s else NewConsensus(env, s, x + 1)
  }

  function Fire(env: Env, s: Pacer, cbs: seq<Callback>): Pacer {
    if cbs == [] then s else FireOne(env, Fire(env, s, cbs[..|cbs| - 1]), cbs[|cbs| - 1])
  }

  /** The callbacks to be run once the certificate of b is there, and the state they start in. */
  function Settled(s: Pacer, b: Blk, byVotes: bool): (Pacer, seq<Callback>) {
    var s1 := if byVotes then s.(certified := s.certified + {b}) else s;
    if b !in s.pms.qcs then (s1, [])
    else (s1.(pms := Remove(s.pms, b)), if s.pms.qcs[b].Waiting? then s.pms.qcs[b].cbs else [])
  }

  /** on_qc_finish, called either when the votes are complete or when a proposal cites the block. */
  function QcFinish(env: Env, s: Pacer, b: Blk, byVotes: bool): Pacer {
    var (s1, cbs) := Settled(s, b, byVotes);
    Fire(env, s1, cbs)
  }

  /** beat, and the callback that the command handler attaches to its result. */
  function Beat(env: Env, s: Pacer, batch: Batch): Pacer {
    if s.rotating || s.proposer != env.id then FireBeat(env, s, batch)
    else
      var (s1, ready) := ScheduleNext(s.(pending := s.pending + [batch]));
      if ready.None? then s1
      else if s.pending == [] then FireBeat(env, s1.(locked := true), ready.value)
      else FireBeat(env, s1, ready.value).(locked := true)  // an older beat: its callback runs inside
  }

  datatype Event =
    | Take(batch: Batch)                   // the command handler, which acts for the proposer only
    | Finish(blk: Blk, byVotes: bool)
    | Consensus(blk: Blk)
    | Receive(who: ReplicaId, blk: Blk)
    | Impeach
    | ExpTimeout                           // whether the timers are set is left open
    | PropTimeout
    | RunCall(waiting: bool)               // are there undecided commands to re-propose

  function Step(env: Env, s: Pacer, e: Event): Pacer
    requires env.n > 0
  {
    match e
    case Take(batch) =>
      if s.proposer == env.id then Beat(env, s.(taken := s.taken + multiset{batch}), batch) else s
    case Finish(b, byVotes) => if b.Own? && b.k >= s.own then s else QcFinish(env, s, b, byVotes)
    case Consensus(b) => OnConsensus(env, s, b)
    case Receive(who, b) => NoteReceived(s, who, b)
    case Impeach => if s.rotating then s else Rotate(env, s)
    case ExpTimeout => if s.proposer == env.id then NewConsensus(env, s, 0) else s
    case PropTimeout => Rotate(env, s)
    case RunCall(waiting) =>
      if s.calls == 0 then s
      else if waiting then NewConsensus(env, s.(calls := s.calls - 1), 0) else s.(calls := s.calls - 1)
  }

  /** init. */
  function Init(env: Env): Pacer {
    Pacer(false, 0, [], false, Origin, Promises(map[], None, None, multiset{}), true, {Origin}, map[], false, false,
          if env.id == 0 then 1 else 0, 0, {Origin}, multiset{}, multiset{})
  }

  function RunFrom(env: Env, s: Pacer, es: seq<Event>): Pacer
    requires env.n > 0
  {
    if es == [] then s else Step(env, RunFrom(env, s, es[..|es| - 1]), es[|es| - 1])
  }

  function Run(env: Env, es: seq<Event>): Pacer
    requires env.n > 0
  {
    RunFrom(env, Init(env), es)
  }

  // ---- where every batch is ----

  function BeatOf(cbs: seq<Callback>): Option<Batch> {
    if |cbs| > 0 && cbs[0].BeatCb? then Some(cbs[0].batch)
    else if |cbs| > 1 && cbs[1].BeatCb? then Some(cbs[1].batch) else None
  }

  /** The callbacks of one promise: a beat exactly when pm_qc_finish holds the promise, the
      continuation of do_new_consensus exactly when pm_qc_manual does. */
  predicate Fits(cbs: seq<Callback>, beat: bool, chain: bool) {
    && |cbs| == (if beat then 1 else 0) + (if chain then 1 else 0)
    && (|cbs| > 0 && cbs[0].BeatCb? ==> beat) && (|cbs| > 0 && cbs[0].ChainCb? ==> chain)
    && (|cbs| > 1 ==> cbs[0].BeatCb? != cbs[1].BeatCb?)
  }

  ghost predicate Wired(ps: Promises) {
    && (ps.finish.Some? ==> ps.finish.value in ps.qcs && ps.qcs[ps.finish.value].Waiting?)
    && (ps.manual.Some? ==> ps.manual.value in ps.qcs && ps.qcs[ps.manual.value].Waiting?)
    && forall b :: b in ps.qcs && ps.qcs[b].Waiting? ==>
         Fits(ps.qcs[b].cbs, ps.finish == Some(b), ps.manual == Some(b))
  }

  /** The batch that waits for a certificate. */
  function Held(ps: Promises): Option<Batch> {
    if ps.finish.Some? && ps.finish.value in ps.qcs && ps.qcs[ps.finish.value].Waiting?
    then BeatOf(ps.qcs[ps.finish.value].cbs) else None
  }

  lemma BeatsFit(cbs: seq<Callback>, beat: bool, chain: bool)
    requires Fits(cbs, beat, chain)
    ensures Beats(cbs) == Bag(BeatOf(cbs)) && (BeatOf(cbs).Some? <==> beat)
  {
    if |cbs| > 0 {
      assert Beats(cbs[..|cbs| - 1][..0]) == multiset{};
    }
  }

  /** Rejecting a promise forgets a batch only if it is the one pm_qc_finish holds. */
  lemma RejectDropsHeldOnly(ps: Promises, pm: Option<Blk>)
    requires Wired(ps) && pm in {ps.finish, ps.manual}
    ensures var ps' := Reject(ps, pm);
            && Wired(ps')
            && ps'.dropped == ps.dropped + (if pm == ps.finish then Bag(Held(ps)) else multiset{})
            && Held(ps') == (if pm == ps.finish then None else Held(ps))
            && ps'.finish == (if pm == ps.finish then None else ps.finish)
            && ps'.manual == (if pm == ps.manual then None else ps.manual)
            && ps'.qcs.Keys == ps.qcs.Keys
            && (forall b :: b in ps.qcs && pm != Some(b) ==> ps'.qcs[b] == ps.qcs[b])
  {
    hide Beats, BeatOf;
    if pm.Some? {
      BeatsFit(ps.qcs[pm.value].cbs, ps.finish == pm, ps.manual == pm);
    }
  }

  /** Once the earlier beat is out of the way, attaching the next one never meets a rejected promise. */
  lemma HoldBeatKeeps(ps: Promises, b: Blk, batch: Batch)
    requires Wired(ps) && ps.finish.None? && (b in ps.qcs ==> ps.qcs[b].Waiting?)
    ensures var ps' := HoldBeat(ps, b, batch);
            && Wired(ps') && Held(ps') == Some(batch) && ps'.dropped == ps.dropped
            && ps'.finish == Some(b) && ps'.manual == ps.manual && ps'.qcs.Keys == ps.qcs.Keys + {b}
            && (forall c :: c in ps.qcs && c != b ==> ps'.qcs[c] == ps.qcs[c])
  {
    if b in ps.qcs {
      assert Fits(ps.qcs[b].cbs, false, ps.manual == Some(b));
    }
  }

  lemma HoldChainKeeps(ps: Promises, b: Blk, x: nat)
    requires Wired(ps) && ps.manual.None? && (b in ps.qcs ==> ps.qcs[b].Waiting?)
    ensures var ps' := HoldChain(ps, b, x);
            && Wired(ps') && Held(ps') == Held(ps) && ps'.dropped == ps.dropped
            && ps'.finish == ps.finish && ps'.manual == Some(b) && ps'.qcs.Keys == ps.qcs.Keys + {b}
            && (forall c :: c in ps.qcs && c != b ==> ps'.qcs[c] == ps.qcs[c])
  {
    if b in ps.qcs {
      assert Fits(ps.qcs[b].cbs, ps.finish == Some(b), false);
      BeatsFit(ps.qcs[b].cbs, ps.finish == Some(b), false);
    }
  }

  lemma RemoveKeeps(ps: Promises, b: Blk)
    requires Wired(ps) && b in ps.qcs
    ensures var ps' := Remove(ps, b);
            && Wired(ps') && Held(ps') == (if ps.finish == Some(b) then None else Held(ps))
            && ps'.qcs.Keys == ps.qcs.Keys - {b} && ps'.dropped == ps.dropped
            && (forall c :: c in ps'.qcs ==> ps'.qcs[c] == ps.qcs[c])
            && ps'.finish == (if ps.finish == Some(b) then None else ps.finish)
    ensures ps.qcs[b].Rejected? ==> ps.finish != Some(b)
    ensures ps.qcs[b].Waiting? ==> Beats(ps.qcs[b].cbs) == if ps.finish == Some(b) then Bag(Held(ps)) else multiset{}
  {
    if ps.qcs[b].Waiting? {
      BeatsFit(ps.qcs[b].cbs, ps.finish == Some(b), ps.manual == Some(b));
    }
  }

  /** Every batch taken is in exactly one place; `hand` are those whose callbacks are being run. */
  ghost predicate Accounted(taken: multiset<Batch>, pending: seq<Batch>, ps: Promises, proposed: multiset<Batch>,
                            hand: multiset<Batch>)
  {
    taken == multiset(pending) + Bag(Held(ps)) + proposed + ps.dropped + hand
  }

  predicate Known(own: nat, b: Blk) {
    b.Own? ==> b.k < own
  }

  ghost predicate Names(own: nat, listed: set<Blk>, certified: set<Blk>, last: Blk) {
    && (forall b :: b in listed ==> Known(own, b))
    && (forall b :: b in certified ==> Known(own, b) && b !in listed)
    && Origin in certified && Known(own, last)
  }

  /** The promise of the last proposed block is never a rejected one, and no beat waits for it while
      the gate is open. */
  ghost predicate Gate(rotating: bool, armed: bool, locked: bool, last: Blk, ps: Promises) {
    && armed == !rotating
    && (rotating ==> ps.finish.None?)
    && (!rotating && last in ps.qcs ==> ps.qcs[last].Waiting?)
    && (!locked ==> ps.finish != Some(last))
  }

  /** Outside a rotation no commit can stop a rotation. */
  ghost predicate Watch(rotating: bool, proposer: ReplicaId, propBlk: map<ReplicaId, Blk>, committed: set<Blk>,
                        listening: bool)
  {
    !rotating ==>
      && (proposer in propBlk ==> propBlk[proposer] in committed)
      && (listening ==> proposer in propBlk)
  }

  ghost predicate Good(s: Pacer, hand: multiset<Batch>) {
    && Wired(s.pms)
    && Names(s.own, s.pms.qcs.Keys, s.certified, s.lastProposed)
    && Gate(s.rotating, s.armed, s.locked, s.lastProposed, s.pms)
    && Watch(s.rotating, s.proposer, s.propBlk, s.committed, s.ownListen || s.recvListen)
    && Accounted(s.taken, s.pending, s.pms, s.proposed, hand)
  }

  lemma FirstLeaves(taken: multiset<Batch>, pending: seq<Batch>, ps: Promises, proposed: multiset<Batch>,
                    hand: multiset<Batch>)
    requires Wired(ps) && pending != [] && Accounted(taken, pending, ps, proposed, hand)
    ensures Accounted(taken, pending[1..], Reject(ps, ps.finish), proposed, hand + multiset{pending[0]})
  {
    hide Wired, Reject;
    assert pending == [pending[0]] + pending[1..];
    RejectDropsHeldOnly(ps, ps.finish);
  }

  lemma FirstIsHeld(taken: multiset<Batch>, pending: seq<Batch>, ps: Promises, b: Blk, proposed: multiset<Batch>,
                    hand: multiset<Batch>)
    requires Wired(ps) && ps.finish.None? && (b in ps.qcs ==> ps.qcs[b].Waiting?) && pending != []
    requires Accounted(taken, pending[1..], ps, proposed, hand + multiset{pending[0]})
    ensures Accounted(taken, pending[1..], HoldBeat(ps, b, pending[0]), proposed, hand)
  {
    hide Wired, HoldBeat;
    HoldBeatKeeps(ps, b, pending[0]);
  }

  /** proposer_schedule_next: it forgets a batch exactly when one is held although the gate is open. */
  lemma ScheduleNextKeeps(s: Pacer, hand: multiset<Batch>)
    requires Good(s, hand) && !s.rotating
    ensures var (s', ready) := ScheduleNext(s);
            && Good(s', if ready.Some? then hand + multiset{ready.value} else hand)
            && s'.pms.dropped == s.pms.dropped + (if s.pending != [] && !s.locked then Bag(Held(s.pms)) else multiset{})
            && s' == s.(pending := s'.pending, pms := s'.pms, locked := s'.locked)
            && (ready.Some? <==> s.pending != [] && !s.locked && s.lastProposed in s.certified)
            && (ready.Some? ==> s'.pms.finish.None? && ready == Some(s.pending[0]) && s'.pending == s.pending[1..])
            && (ready.None? && s.pending != [] ==> s'.locked)
            && s'.pms.manual in {None, s.pms.manual}
            && s'.pms.qcs.Keys <= s.pms.qcs.Keys + {s.lastProposed}
            && (s'.pms.finish.Some? ==> s'.pms.finish == s.pms.finish || s'.locked)
  {
    hide Wired, Watch, Reject, HoldBeat, Accounted;
    if s.pending != [] && !s.locked {
      FirstLeaves(s.taken, s.pending, s.pms, s.proposed, hand);
      RejectDropsHeldOnly(s.pms, s.pms.finish);
      var ps := Reject(s.pms, s.pms.finish);
      if s.lastProposed !in s.certified {
        HoldBeatKeeps(ps, s.lastProposed, s.pending[0]);
        FirstIsHeld(s.taken, s.pending, ps, s.lastProposed, s.proposed, hand);
      }
    }
  }

  lemma RejectBothKeeps(ps: Promises)
    requires Wired(ps)
    ensures var ps' := RejectBoth(ps);
            && Wired(ps') && ps'.finish.None? && ps'.manual.None? && Held(ps').None?
            && ps'.dropped == ps.dropped + Bag(Held(ps)) && ps'.qcs.Keys == ps.qcs.Keys
  {
    hide Wired;
    RejectDropsHeldOnly(ps, ps.finish);
    var ps1 := Reject(ps, ps.finish);
    RejectDropsHeldOnly(ps1, ps1.manual);
  }

  lemma StopRotateKeeps(env: Env, s: Pacer, hand: multiset<Batch>)
    requires Good(s, hand)
    requires s.proposer in s.propBlk && s.propBlk[s.proposer] in s.committed
    ensures var s' := StopRotate(env, s);
            Good(s', hand) && s'.own == s.own && s'.certified == s.certified && s'.pms.qcs.Keys == s.pms.qcs.Keys
  {
    hide Wired;
    RejectBothKeeps(s.pms);
  }

  lemma RotateKeeps(env: Env, s: Pacer, hand: multiset<Batch>)
    requires Good(s, hand) && env.n > 0
    ensures Good(Rotate(env, s), hand)
  {
    hide Wired;
    RejectBothKeeps(s.pms);
  }

  lemma OnConsensusKeeps(env: Env, s: Pacer, b: Blk, hand: multiset<Batch>)
    requires Good(s, hand)
    ensures var s' := OnConsensus(env, s, b);
            && Good(s', hand) && s'.own == s.own && s'.certified == s.certified
            && s'.pms.qcs.Keys == s.pms.qcs.Keys
            && (!s.rotating ==> s' == s.(committed := s'.committed))
  {
    hide Wired, Names, Gate, Accounted, StopRotate;
    var s1 := s.(committed := s.committed + {b});
    if s.proposer in s.propBlk && s.propBlk[s.proposer] == b {
      StopRotateKeeps(env, s1, hand);
    }
  }

  lemma {:induction false} CommitAllKeeps(env: Env, s: Pacer, bs: seq<Blk>, hand: multiset<Batch>)
    requires Good(s, hand)
    ensures var s' := CommitAll(env, s, bs);
            && Good(s', hand) && s'.own == s.own && s'.certified == s.certified
            && s'.pms.qcs.Keys == s.pms.qcs.Keys
            && (!s.rotating ==> s' == s.(committed := s'.committed))
  {
    hide Good;
    if bs != [] {
      CommitAllKeeps(env, s, bs[..|bs| - 1], hand);
      OnConsensusKeeps(env, CommitAll(env, s, bs[..|bs| - 1]), bs[|bs| - 1], hand);
    }
  }

  lemma NoteKeeps(env: Env, s: Pacer, who: ReplicaId, b: Blk, hand: multiset<Batch>)
    requires Good(s, hand)
    ensures Good(NoteReceived(s, who, b), hand) && Good(NoteOwn(env, s, b), hand)
    ensures var s' := NoteReceived(s, who, b); s' == s.(propBlk := s'.propBlk, recvListen := s'.recvListen)
    ensures var s' := NoteOwn(env, s, b); s' == s.(propBlk := s'.propBlk, ownListen := s'.ownListen)
  {
    hide Wired, Names, Gate, Accounted;
  }

  /** The callback of update_last_proposed, for a block just made. */
  lemma NewLastKeeps(s: Pacer, b: Blk, hand: multiset<Batch>)
    requires Good(s, hand) && Known(s.own, b) && b !in s.pms.qcs && b !in s.certified
    ensures var s' := NewLast(s, b);
            && Good(s', hand) && s'.own == s.own && s'.certified == s.certified && s'.rotating == s.rotating
            && s'.pms.dropped == s.pms.dropped
                  + (if !s.rotating && s.pending != [] then Bag(Held(s.pms)) else multiset{})
            && (!s.rotating ==> s'.lastProposed == b)
            && s'.pms.manual in {None, s.pms.manual}
            && (b in s'.pms.qcs ==> s'.pms.qcs[b].Waiting?)
            && s' == s.(pending := s'.pending, pms := s'.pms, locked := s'.locked, lastProposed := s'.lastProposed)
            && (!s.rotating && s.pending != [] ==> s'.locked)
            && (s'.pms.finish.Some? ==> s'.pms.finish == s.pms.finish || s'.locked)
  {
    hide Wired, Accounted, ScheduleNext, Watch;
    FinishIsListed(s.pms);
    if s.armed {
      var s1 := s.(lastProposed := b, locked := false);
      ScheduleNextKeeps(s1, hand);
    }
  }

  lemma FinishIsListed(ps: Promises)
    requires Wired(ps)
    ensures ps.finish.Some? ==> ps.finish.value in ps.qcs
    ensures ps.manual.Some? ==> ps.manual.value in ps.qcs
  {
  }

  /** What on_propose does while not rotating, apart from proposing: it forgets the held batch if
      another one is queued. */
  ghost predicate Proposes(s: Pacer, s': Pacer) {
    && !s'.rotating && s'.proposer == s.proposer
    && s'.pms.dropped == s.pms.dropped + (if s.pending != [] then Bag(Held(s.pms)) else multiset{})
    && (s.pending != [] ==> s'.locked)
    && (s'.pms.finish.Some? ==> s'.pms.finish == s.pms.finish || s'.locked)
    && s'.pms.manual in {None, s.pms.manual}
  }

  lemma NowProposedKeeps(s: Pacer, batch: Option<Batch>, hand: multiset<Batch>)
    requires Good(s, if batch.Some? then hand + multiset{batch.value} else hand)
    ensures var s' := NowProposed(s, batch);
            Good(s', hand) && Own(s.own) !in s'.pms.qcs && Own(s.own) !in s'.certified
  {
    hide Wired, Gate, Watch, Held;
  }

  lemma NewLastProposes(s: Pacer, b: Blk, hand: multiset<Batch>)
    requires Good(s, hand) && Known(s.own, b) && b !in s.pms.qcs && b !in s.certified
    ensures !s.rotating ==> Proposes(s, NewLast(s, b))
    ensures NewLast(s, b).pms.manual != Some(b)
  {
    NewLastKeeps(s, b, hand);
    FinishIsListed(s.pms);
  }

  lemma OnProposeKeeps(env: Env, s: Pacer, batch: Option<Batch>, hand: multiset<Batch>)
    requires Good(s, if batch.Some? then hand + multiset{batch.value} else hand)
    ensures var s' := OnPropose(env, s, batch);
            var b := Own(s.own);
            && Good(s', hand) && s'.own == s.own + 1 && s'.certified == s.certified
            && (!s'.rotating ==> s'.lastProposed == b)
            && b !in s'.certified && (b in s'.pms.qcs ==> s'.pms.qcs[b].Waiting?) && s'.pms.manual != Some(b)
            && (!s.rotating ==> Proposes(s, s'))
  {
    hide Good, NewLast, Held, CommitAll, NoteReceived, NoteOwn;
    var b := Own(s.own);
    NowProposedKeeps(s, batch, hand);
    var s1 := NowProposed(s, batch);
    CommitAllKeeps(env, s1, env.commits(s.own), hand);
    var s2 := CommitAll(env, s1, env.commits(s.own));
    NoteKeeps(env, s2, env.id, b, hand);
    var s3 := NoteReceived(s2, env.id, b);
    NoteKeeps(env, s3, env.id, b, hand);
    var s4 := NoteOwn(env, s3, b);
    NewLastKeeps(s4, b, hand);
    NewLastProposes(s4, b, hand);
    assert OnPropose(env, s, batch) == NewLast(s4, b);
  }

  lemma HoldChainGood(s: Pacer, b: Blk, x: nat, hand: multiset<Batch>)
    requires Good(s, hand) && b.Own? && b.k + 1 == s.own && b !in s.certified
    requires b in s.pms.qcs ==> s.pms.qcs[b].Waiting?
    requires s.pms.manual != Some(b) && (!s.rotating ==> s.lastProposed == b)
    ensures Good(s.(pms := HoldChain(Reject(s.pms, s.pms.manual), b, x)), hand)
  {
    hide Wired, HoldChain, Reject, Held, Watch;
    RejectDropsHeldOnly(s.pms, s.pms.manual);
    HoldChainKeeps(Reject(s.pms, s.pms.manual), b, x);
  }

  lemma NewConsensusKeeps(env: Env, s: Pacer, x: nat, hand: multiset<Batch>)
    requires Good(s, hand)
    ensures Good(NewConsensus(env, s, x), hand)
  {
    hide Good, OnPropose, Reject, HoldChain;
    OnProposeKeeps(env, s, None, hand);
    HoldChainGood(OnPropose(env, s, None), Own(s.own), x, hand);
  }

  lemma FireBeatKeeps(env: Env, s: Pacer, batch: Batch, hand: multiset<Batch>)
    requires Good(s, hand + multiset{batch})
    ensures Good(FireBeat(env, s, batch), hand)
  {
    hide OnPropose;
    if s.proposer == env.id {
      hide Wired, Names, Gate, Watch, Accounted;
      OnProposeKeeps(env, s, Some(batch), hand);
    }
  }

  lemma FireOneKeeps(env: Env, s: Pacer, cb: Callback, hand: multiset<Batch>)
    requires Good(s, hand + Beats([cb]))
    ensures Good(FireOne(env, s, cb), hand)
  {
    hide Good, NewConsensus, FireBeat;
    assert [cb][..0] == [];
    match cb
    case BeatCb(batch) =>
      assert hand + Beats([cb]) == hand + multiset{batch};
      FireBeatKeeps(env, s, batch, hand);
    case ChainCb(x) =>
      assert hand + Beats([cb]) == hand;
      if x < LeaderChain.Lag(env.build) {
        NewConsensusKeeps(env, s, x + 1, hand);
      }
  }

  lemma {:induction false} FireKeeps(env: Env, s: Pacer, cbs: seq<Callback>, hand: multiset<Batch>)
    requires Good(s, hand + Beats(cbs))
    ensures Good(Fire(env, s, cbs), hand)
  {
    hide Good, FireOne;
    if cbs == [] {
      assert hand + Beats(cbs) == hand;
    } else {
      var n := |cbs| - 1;
      assert [cbs[n]][..0] == [];
      assert hand + Beats(cbs) == (hand + Beats([cbs[n]])) + Beats(cbs[..n]);
      FireKeeps(env, s, cbs[..n], hand + Beats([cbs[n]]));
      FireOneKeeps(env, Fire(env, s, cbs[..n]), cbs[n], hand);
    }
  }

  lemma SettledKeeps(s: Pacer, b: Blk, byVotes: bool)
    requires Good(s, multiset{}) && Known(s.own, b)
    ensures Good(Settled(s, b, byVotes).0, Beats(Settled(s, b, byVotes).1))
  {
    hide Wired, Watch, Held, Remove, Known, Accounted;
    if b in s.pms.qcs {
      RemoveKeeps(s.pms, b);
    }
    SettledAccounts(s, b, byVotes);
  }

  lemma NoBeats()
    ensures Beats([]) == multiset{}
  {
  }

  lemma HeldMovesToHand(taken: multiset<Batch>, pending: seq<Batch>, ps: Promises, b: Blk, proposed: multiset<Batch>)
    requires Wired(ps) && ps.finish == Some(b) && Accounted(taken, pending, ps, proposed, multiset{})
    ensures b in ps.qcs && ps.qcs[b].Waiting?
    ensures Accounted(taken, pending, Remove(ps, b), proposed, Beats(ps.qcs[b].cbs))
  {
    RemoveKeeps(ps, b);
    hide Wired, Held, Remove, Beats;
  }

  lemma HeldStays(taken: multiset<Batch>, pending: seq<Batch>, ps: Promises, b: Blk, proposed: multiset<Batch>)
    requires Wired(ps) && ps.finish != Some(b) && b in ps.qcs && Accounted(taken, pending, ps, proposed, multiset{})
    ensures Accounted(taken, pending, Remove(ps, b), proposed, multiset{})
  {
    hide Wired, Held, Remove, Beats;
    RemoveKeeps(ps, b);
  }

  lemma SettledAccounts(s: Pacer, b: Blk, byVotes: bool)
    requires Wired(s.pms) && Accounted(s.taken, s.pending, s.pms, s.proposed, multiset{})
    ensures var (s', cbs) := Settled(s, b, byVotes);
            && Accounted(s'.taken, s'.pending, s'.pms, s'.proposed, Beats(cbs))
            && s'.pms.dropped == s.pms.dropped
            && s'.pms.finish == (if s.pms.finish == Some(b) then None else s.pms.finish)
  {
    hide Wired, Held, Remove, Beats, Accounted;
    NoBeats();
    FinishIsListed(s.pms);
    if b in s.pms.qcs {
      RemoveKeeps(s.pms, b);
      if s.pms.finish == Some(b) {
        HeldMovesToHand(s.taken, s.pending, s.pms, b, s.proposed);
      } else {
        HeldStays(s.taken, s.pending, s.pms, b, s.proposed);
      }
    }
  }

  lemma QcFinishKeeps(env: Env, s: Pacer, b: Blk, byVotes: bool)
    requires Good(s, multiset{}) && Known(s.own, b)
    ensures Good(QcFinish(env, s, b, byVotes), multiset{})
  {
    hide Good, FireOne;
    var (s1, cbs) := Settled(s, b, byVotes);
    SettledKeeps(s, b, byVotes);
    assert multiset{} + Beats(cbs) == Beats(cbs);
    FireKeeps(env, s1, cbs, multiset{});
  }

  /** The new beat joins the queue. */
  lemma QueuedKeeps(s: Pacer, batch: Batch)
    requires Good(s, multiset{batch})
    ensures Good(s.(pending := s.pending + [batch]), multiset{})
  {
    hide Wired, Names, Gate, Watch, Held;
  }

  lemma LockedKeeps(s: Pacer, hand: multiset<Batch>)
    requires Good(s, hand)
    ensures Good(s.(locked := true), hand)
  {
    hide Wired, Names, Watch, Accounted;
  }

  lemma BeatKeeps(env: Env, s: Pacer, batch: Batch)
    requires Good(s, multiset{batch})
    ensures Good(Beat(env, s, batch), multiset{})
  {
    hide Good, FireBeat, ScheduleNext;
    if s.rotating || s.proposer != env.id {
      assert multiset{} + multiset{batch} == multiset{batch};
      FireBeatKeeps(env, s, batch, multiset{});
    } else {
      QueuedKeeps(s, batch);
      var s0 := s.(pending := s.pending + [batch]);
      ScheduleNextKeeps(s0, multiset{});
      var (s1, ready) := ScheduleNext(s0);
      if ready.Some? {
        LockedKeeps(s1, multiset{} + multiset{ready.value});
        FireBeatKeeps(env, s1, ready.value, multiset{});
        FireBeatKeeps(env, s1.(locked := true), ready.value, multiset{});
        LockedKeeps(FireBeat(env, s1, ready.value), multiset{});
      }
    }
  }

  lemma TakenKeeps(s: Pacer, batch: Batch)
    requires Good(s, multiset{})
    ensures Good(s.(taken := s.taken + multiset{batch}), multiset{batch})
  {
    hide Wired, Names, Gate, Watch, Held;
  }

  lemma CallKeeps(s: Pacer)
    requires Good(s, multiset{}) && s.calls > 0
    ensures Good(s.(calls := s.calls - 1), multiset{})
  {
    hide Wired, Names, Gate, Watch, Accounted;
  }

  lemma StepKeeps(env: Env, s: Pacer, e: Event)
    requires env.n > 0 && Good(s, multiset{})
    ensures Good(Step(env, s, e), multiset{})
  {
    hide Good, Beat, QcFinish, OnConsensus, NoteReceived, Rotate, NewConsensus;
    match e
    case Take(batch) =>
      TakenKeeps(s, batch);
      BeatKeeps(env, s.(taken := s.taken + multiset{batch}), batch);
    case Finish(b, byVotes) =>
      if Known(s.own, b) {
        QcFinishKeeps(env, s, b, byVotes);
      }
    case Consensus(b) => OnConsensusKeeps(env, s, b, multiset{});
    case Receive(who, b) => NoteKeeps(env, s, who, b, multiset{});
    case Impeach => RotateKeeps(env, s, multiset{});
    case ExpTimeout => NewConsensusKeeps(env, s, 0, multiset{});
    case PropTimeout => RotateKeeps(env, s, multiset{});
    case RunCall(waiting) =>
      if s.calls > 0 {
        CallKeeps(s);
        NewConsensusKeeps(env, s.(calls := s.calls - 1), 0, multiset{});
      }
  }

  /** In every run: each batch taken from the buffer is in exactly one of the queue of beats, the beat
      that waits for a certificate, the proposals, and the forgotten ones; at most one beat waits, and
      it does so exactly while pm_qc_finish is unsettled. */
  lemma {:induction false} EveryBatchIsAccountedFor(env: Env, es: seq<Event>)
    requires env.n > 0
    ensures var s := Run(env, es);
            && Good(s, multiset{})
            && s.taken == multiset(s.pending) + Bag(Held(s.pms)) + s.proposed + s.pms.dropped
            && (Held(s.pms).Some? <==> s.pms.finish.Some?)
  {
    if es != [] {
      EveryBatchIsAccountedFor(env, es[..|es| - 1]);
      StepKeeps(env, Run(env, es[..|es| - 1]), es[|es| - 1]);
    }
    var s := Run(env, es);
    if s.pms.finish.Some? {
      BeatsFit(s.pms.qcs[s.pms.finish.value].cbs, true, s.pms.manual == s.pms.finish);
    }
  }
}
