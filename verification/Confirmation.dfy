/** When a client may believe that a command is committed: the client's closed loop, the replicas'
    tables of commands waiting for a decision, and the replies in between.

    Commands are numbered by the client's counter, which is part of what is hashed.  Replicas follow
    the code but may stop at any time; what they commit, and in which order, is arbitrary here.
  */
module Confirmation {
  import opened Chain
  import opened Core
  import opened Quorums

  // ---- the client ----

  datatype Client = Client(
    waiting: map<Command, nat>,  // confirmations received so far
    cnt: nat,                    // commands sent
    iters: int,                  // max_iter_num: commands still to be sent, negative for no limit
    dropped: set<Command>)       // commands erased from `waiting`

  /** Every command sent is either waiting or was dropped. */
  ghost predicate ClientOk(c: Client) {
    && (forall x: Command :: x < c.cnt <==> x in c.waiting || x in c.dropped)
    && (forall x :: x in c.waiting ==> x !in c.dropped)
  }

  predicate MaySend(maxAsync: nat, c: Client) {
    |c.waiting| < maxAsync && c.iters != 0
  }

  function SendOne(c: Client): Client {
    Client(c.waiting[c.cnt := 0], c.cnt + 1, if c.iters > 0 then c.iters - 1 else c.iters, c.dropped)
  }

  lemma SendOneOk(c: Client)
    requires ClientOk(c)
    ensures ClientOk(SendOne(c)) && c.cnt !in c.waiting && |SendOne(c).waiting| == |c.waiting| + 1
  {
    assert SendOne(c).waiting.Keys == c.waiting.Keys + {c.cnt};
  }

  /** `while (try_send());` */
  ghost function SendAll(maxAsync: nat, c: Client): (c': Client)
    requires ClientOk(c)
    ensures ClientOk(c') && !MaySend(maxAsync, c')
    ensures c.cnt <= c'.cnt && c'.dropped == c.dropped
    ensures |c.waiting| <= maxAsync ==> |c'.waiting| <= maxAsync
    ensures forall x :: x in c'.waiting <==> x in c.waiting || c.cnt <= x < c'.cnt
    ensures forall x :: x in c'.waiting ==> c'.waiting[x] == if x in c.waiting then c.waiting[x] else 0
    decreases maxAsync - |c.waiting|
  {
    SendOneOk(c);
    if MaySend(maxAsync, c) then SendAll(maxAsync, SendOne(c)) else c
  }

  /** client_resp_cmd_handler. */
  ghost function OnReply(nfaulty: nat, maxAsync: nat, c: Client, decision: int, cmd: Command): Client
    requires ClientOk(c)
  {
    if cmd !in c.waiting || decision != 1 then c
    else if c.waiting[cmd] + 1 <= nfaulty then c.(waiting := c.waiting[cmd := c.waiting[cmd] + 1])
    else
      DropOk(c, cmd);
      SendAll(maxAsync, Drop(c, cmd))
  }

  /** What it does to the counters. */
  lemma ReplyEffect(nfaulty: nat, maxAsync: nat, c: Client, decision: int, cmd: Command)
    requires ClientOk(c)
    ensures var c' := OnReply(nfaulty, maxAsync, c, decision, cmd);
            var counts := decision == 1 && cmd in c.waiting;
            && ClientOk(c') && c.cnt <= c'.cnt && (|c.waiting| <= maxAsync ==> |c'.waiting| <= maxAsync)
            && c'.dropped == c.dropped + (if counts && c.waiting[cmd] + 1 > nfaulty then {cmd} else {})
            && (forall x :: x in c'.waiting && x >= c.cnt ==> c'.waiting[x] == 0)
            && (forall x :: x in c'.waiting && x < c.cnt ==>
                  x in c.waiting && c'.waiting[x] == c.waiting[x] + if counts && x == cmd then 1 else 0)
  {
    if decision == 1 && cmd in c.waiting && c.waiting[cmd] + 1 > nfaulty {
      DropOk(c, cmd);
      assert OnReply(nfaulty, maxAsync, c, decision, cmd) == SendAll(maxAsync, Drop(c, cmd));
    }
  }

  function Drop(c: Client, cmd: Command): Client {
    c.(waiting := c.waiting - {cmd}, dropped := c.dropped + {cmd})
  }

  lemma DropOk(c: Client, cmd: Command)
    requires ClientOk(c) && cmd in c.waiting
    ensures ClientOk(Drop(c, cmd)) && |Drop(c, cmd).waiting| == |c.waiting| - 1
  {
    assert Drop(c, cmd).waiting.Keys == c.waiting.Keys - {cmd};
  }

  class HotStuffClient {
    const nfaulty: nat
    const maxAsync: nat
    var waiting: map<Command, nat>
    var cnt: nat
    var iters: int
    ghost var dropped: set<Command>

    ghost function View(): Client
      reads this
    {
      Client(waiting, cnt, iters, dropped)
    }

    ghost predicate Valid()
      reads this
    {
      ClientOk(View()) && |waiting| <= maxAsync
    }

    constructor (nfaulty: nat, maxAsync: nat, iters: int)
      ensures this.nfaulty == nfaulty && this.maxAsync == maxAsync
      ensures Valid() && View() == Client(map[], 0, iters, {})
    {
      this.nfaulty, this.maxAsync, this.iters := nfaulty, maxAsync, iters;
      waiting, cnt, dropped := map[], 0, {};
    }

    method TrySend() returns (sent: bool)
      requires Valid()
      modifies this`waiting, this`cnt, this`iters
      ensures Valid()
      ensures sent <==> old(MaySend(maxAsync, View()))
      ensures View() == if sent then SendOne(old(View())) else old(View())
    {
      SendOneOk(View());
      sent := |waiting| < maxAsync && iters != 0;
      if sent {
        waiting := waiting[cnt := 0];
        cnt := cnt + 1;
        if iters > 0 {
          iters := iters - 1;
        }
      }
    }

    /** The send loop; the commands with numbers from old cnt up to cnt go out to every replica. */
    method SendLoop()
      requires Valid()
      modifies this`waiting, this`cnt, this`iters
      ensures Valid()
      ensures View() == SendAll(maxAsync, old(View()))
    {
      var sent := true;
      while sent
        invariant Valid() && SendAll(maxAsync, View()) == SendAll(maxAsync, old(View()))
        invariant !sent ==> !MaySend(maxAsync, View())
        decreases maxAsync - |waiting|, sent
      {
        SendOneOk(View());
        sent := TrySend();
      }
    }

    method OnResponse(decision: int, cmd: Command)
      requires Valid()
      modifies this
      ensures Valid()
      ensures View() == OnReply(nfaulty, maxAsync, old(View()), decision, cmd)
    {
      if cmd !in waiting { return; }
      if decision != 1 { return; }
      waiting := waiting[cmd := waiting[cmd] + 1];
      assert waiting.Keys == old(waiting).Keys;
      if waiting[cmd] <= nfaulty { return; }
      DropOk(old(View()), cmd);
      waiting := waiting - {cmd};
      dropped := dropped + {cmd};
      assert View() == Drop(old(View()), cmd);
      SendLoop();
    }
  }

  /** sent = dropped + waiting. */
  lemma SentIsDroppedPlusWaiting(c: Client)
    requires ClientOk(c)
    ensures c.cnt == |c.dropped| + |c.waiting|
  {
    assert c.waiting.Keys + c.dropped == Everyone(c.cnt);
    assert c.waiting.Keys * c.dropped == {};
  }

  // ---- a replica's table of undecided commands ----

  /** Whose callback is stored for a command: that of our client's submission or another's. */
  datatype Ticket = Ours | Theirs

  datatype Desk = Desk(waiting: map<Command, Ticket>, committed: seq<Command>)

  /** What a callback is called with. */
  datatype Reply = Reply(from: ReplicaId, decision: int, cmd: Command)

  function AfterSubmit(d: Desk, cmd: Command, t: Ticket): Desk {
    if cmd in d.waiting then d else d.(waiting := d.waiting[cmd := t])
  }

  function AfterDecide(d: Desk, cmd: Command): Desk {
    Desk(d.waiting - {cmd}, d.committed + [cmd])
  }

  /** Every submission is either answered or the one stored for its command. */
  ghost predicate Answered(asked: seq<Command>, stored: map<Command, nat>, answers: map<nat, int>) {
    && (forall c :: c in stored ==> stored[c] < |asked| && asked[stored[c]] == c)
    && (forall k :: k in answers ==> k < |asked|)
    && (forall k: nat :: k < |asked| ==> (k in answers <==> !(asked[k] in stored && stored[asked[k]] == k)))
  }

  /** Decision 1 means that the command was committed, and decision 0 that it had been submitted before. */
  ghost predicate Justified(asked: seq<Command>, committed: seq<Command>, answers: map<nat, int>) {
    forall k :: k in answers && k < |asked| ==>
      || (answers[k] == 1 && asked[k] in committed)
      || (answers[k] == 0 && exists j :: 0 <= j < k && asked[j] == asked[k])
  }

  lemma AskedMore(asked: seq<Command>, committed: seq<Command>, answers: map<nat, int>, cmd: Command, k: nat)
    requires Justified(asked, committed, answers) && k < |asked| && asked[k] == cmd
    requires forall i :: i in answers ==> i < |asked|
    ensures Justified(asked + [cmd], committed, answers[|asked| := 0])
  {
    var asked' := asked + [cmd];
    assert asked'[k] == asked'[|asked|];
    forall i | i in answers && answers[i] == 0 && exists j :: 0 <= j < i && asked[j] == asked[i]
      ensures exists j :: 0 <= j < i && asked'[j] == asked'[i]
    {
      var j :| 0 <= j < i && asked[j] == asked[i];
      assert asked'[j] == asked'[i];
    }
  }

  lemma AskedNew(asked: seq<Command>, committed: seq<Command>, answers: map<nat, int>, cmd: Command)
    requires Justified(asked, committed, answers)
    requires forall i :: i in answers ==> i < |asked|
    ensures Justified(asked + [cmd], committed, answers)
  {
    var asked' := asked + [cmd];
    forall i | i in answers && answers[i] == 0 && exists j :: 0 <= j < i && asked[j] == asked[i]
      ensures exists j :: 0 <= j < i && asked'[j] == asked'[i]
    {
      var j :| 0 <= j < i && asked[j] == asked[i];
      assert asked'[j] == asked'[i];
    }
  }

  lemma DecidedOne(asked: seq<Command>, committed: seq<Command>, answers: map<nat, int>, cmd: Command, k: nat)
    requires Justified(asked, committed, answers) && k < |asked| && asked[k] == cmd
    ensures Justified(asked, committed + [cmd], answers[k := 1])
  {
  }

  /** The table with its history: submissions are numbered, and each number is answered at most once. */
  class DecisionTable {
    const id: ReplicaId
    var waiting: map<Command, Ticket>    // decision_waiting
    ghost var committed: seq<Command>
    ghost var asked: seq<Command>        // the submissions
    ghost var stored: map<Command, nat>  // whose callback decision_waiting holds
    ghost var answers: map<nat, int>     // the decisions that submissions have been answered with

    ghost function View(): Desk
      reads this
    {
      Desk(waiting, committed)
    }

    ghost predicate Valid()
      reads this
    {
      waiting.Keys == stored.Keys && Answered(asked, stored, answers) && Justified(asked, committed, answers)
    }

    constructor (id: ReplicaId)
      ensures this.id == id && Valid() && View() == Desk(map[], []) && asked == []
    {
      this.id := id;
      waiting, committed, asked, stored, answers := map[], [], [], map[], map[];
    }

    /** The first half of the cmd_pending handler: the new submission is answered at once if one of the
        same command is stored, and is stored otherwise. */
    method Submit(cmd: Command, t: Ticket) returns (reply: Option<Reply>)
      requires Valid()
      modifies this
      ensures Valid() && View() == AfterSubmit(old(View()), cmd, t)
      ensures asked == old(asked) + [cmd] && committed == old(committed)
      ensures reply.Some? <==> cmd in old(stored)
      ensures Refused(old(View()), id, cmd) == if reply.Some? then multiset{reply.value} else multiset{}
      ensures reply.Some? ==> reply == Some(Reply(id, 0, cmd))
                              && answers == old(answers)[|old(asked)| := 0] && stored == old(stored)
      ensures reply.None? ==> answers == old(answers) && stored == old(stored)[cmd := |old(asked)|]
    {
      hide Justified;
      ghost var k := |asked|;
      if cmd !in waiting {
        AskedNew(asked, committed, answers, cmd);
        waiting := waiting[cmd := t];
        stored := stored[cmd := k];
        asked := asked + [cmd];
        return None;
      } else {
        AskedMore(asked, committed, answers, cmd, stored[cmd]);
        answers := answers[k := 0];
        asked := asked + [cmd];
        return Some(Reply(id, 0, cmd));
      }
    }

    /** do_decide: the stored submission of the command, if there is one, is answered, and only it; t is
        whose it is. */
    method Decide(cmd: Command) returns (reply: Option<Reply>, t: Ticket)
      requires Valid()
      modifies this
      ensures Valid() && View() == AfterDecide(old(View()), cmd)
      ensures asked == old(asked) && committed == old(committed) + [cmd]
      ensures reply.Some? <==> cmd in old(stored)
      ensures reply.Some? ==> reply == Some(Reply(id, 1, cmd)) && t == old(waiting)[cmd]
      ensures Told(old(View()), id, cmd) == if reply.Some? && t == Ours then multiset{reply.value} else multiset{}
      ensures reply.Some? ==> old(stored)[cmd] !in old(answers) && answers == old(answers)[old(stored)[cmd] := 1]
      ensures reply.None? ==> answers == old(answers)
      ensures stored == old(stored) - {cmd}
    {
      reply, t := None, Theirs;
      ghost var log := committed;
      committed := log + [cmd];
      if cmd in waiting {
        DecidedOne(asked, log, answers, cmd, stored[cmd]);
        reply, t := Some(Reply(id, 1, cmd)), waiting[cmd];
        answers := answers[stored[cmd] := 1];
      }
      waiting := waiting - {cmd};
      stored := stored - {cmd};
    }
  }

  // ---- the whole ----

  datatype System = System(
    client: Client,
    desks: seq<Desk>,
    inbox: seq<set<Command>>,              // our submissions on their way to each replica
    flight: multiset<Reply>,               // replies on their way to our client
    heard: set<(ReplicaId, Command)>,      // replies the client has processed
    counted: set<(ReplicaId, Command)>)    // those of them that it counted

  datatype Event =
    | Arrive(r: ReplicaId, cmd: Command)       // one of our submissions
    | ForeignSubmit(r: ReplicaId, cmd: Command)
    | Decide(r: ReplicaId, cmd: Command)
    | Hear(reply: Reply)

  datatype Params = Params(n: nat, maxAsync: nat, iters: int)

  ghost function InitSystem(p: Params): System {
    var c0 := Client(map[], 0, p.iters, {});
    var c := SendAll(p.maxAsync, c0);
    System(c, seq(p.n, _ => Desk(map[], [])), seq(p.n, _ => Everyone(c.cnt)), multiset{}, {}, {})
  }

  /** The answer to a submission of a command that is stored already, and the one to a stored submission of
      ours that is decided. */
  function Refused(d: Desk, r: ReplicaId, cmd: Command): multiset<Reply> {
    if cmd in d.waiting then multiset{Reply(r, 0, cmd)} else multiset{}
  }

  function Told(d: Desk, r: ReplicaId, cmd: Command): multiset<Reply> {
    if cmd in d.waiting && d.waiting[cmd] == Ours then multiset{Reply(r, 1, cmd)} else multiset{}
  }

  ghost predicate Next(p: Params, s: System, e: Event, s': System) {
    && ClientOk(s.client) && |s.desks| == |s.inbox| == p.n
    && match e
       case Arrive(r, cmd) =>
         && r < p.n && cmd in s.inbox[r]
         && s' == s.(inbox := s.inbox[r := s.inbox[r] - {cmd}],
                     desks := s.desks[r := AfterSubmit(s.desks[r], cmd, Ours)],
                     flight := s.flight + Refused(s.desks[r], r, cmd))
       case ForeignSubmit(r, cmd) =>
         r < p.n && s' == s.(desks := s.desks[r := AfterSubmit(s.desks[r], cmd, Theirs)])
       case Decide(r, cmd) =>
         && r < p.n
         && s' == s.(desks := s.desks[r := AfterDecide(s.desks[r], cmd)],
                     flight := s.flight + Told(s.desks[r], r, cmd))
       case Hear(m) =>
         && m in s.flight
         && var c := OnReply(NFaulty(p.n), p.maxAsync, s.client, m.decision, m.cmd);
            s' == System(c, s.desks, seq(p.n, r requires 0 <= r < |s.inbox| => s.inbox[r] + NewlySent(s.client, c)),
                         s.flight - multiset{m}, s.heard + {(m.from, m.cmd)},
                         s.counted + if m.decision == 1 && m.cmd in s.client.waiting then {(m.from, m.cmd)} else {})
  }

  /** The commands with numbers from the old counter up to the new one. */
  function NewlySent(c: Client, c': Client): set<Command> {
    Everyone(c'.cnt) - Everyone(c.cnt)
  }

  ghost predicate IsRun(p: Params, run: seq<System>) {
    && |run| > 0 && run[0] == InitSystem(p)
    && forall i :: 0 < i < |run| ==> CanStep(p, run[i - 1], run[i])
  }

  ghost predicate CanStep(p: Params, s: System, s': System) {
    exists e :: Next(p, s, e, s')
  }

  /** In how many places our submission of cmd to r, or its reply, is. */
  function Places(s: System, r: ReplicaId, cmd: Command): nat
    requires r < |s.desks| && r < |s.inbox|
  {
    (if cmd in s.inbox[r] then 1 else 0)
    + (if cmd in s.desks[r].waiting && s.desks[r].waiting[cmd] == Ours then 1 else 0)
    + s.flight[Reply(r, 0, cmd)] + s.flight[Reply(r, 1, cmd)]
    + (if (r, cmd) in s.heard then 1 else 0)
  }

  /** The replicas whose decision=1 reply for cmd was counted, and those that have committed it. */
  function CountedFor(n: nat, counted: set<(ReplicaId, Command)>, cmd: Command): set<ReplicaId> {
    set r | r in Everyone(n) && (r, cmd) in counted
  }

  function Committers(s: System, cmd: Command): set<ReplicaId> {
    set r: ReplicaId | r in Everyone(|s.desks|) && cmd in s.desks[r].committed
  }

  ghost predicate Conserved(p: Params, s: System) {
    && |s.desks| == |s.inbox| == p.n
    && forall r: ReplicaId, cmd: Command :: r < p.n ==> Places(s, r, cmd) == if cmd < s.client.cnt then 1 else 0
  }

  ghost predicate Truthful(p: Params, s: System) {
    && |s.desks| == p.n
    && (forall m :: m in s.flight ==> m.from < p.n && m.decision in {0, 1})
    && (forall m :: m in s.flight && m.decision == 1 ==> m.cmd in s.desks[m.from].committed)
    && (forall r: ReplicaId, cmd: Command :: (r, cmd) in s.counted ==>
          r < p.n && (r, cmd) in s.heard && cmd in s.desks[r].committed)
  }

  /** The client's counters mean what they say. */
  ghost predicate Counts(p: Params, s: System) {
    && ClientOk(s.client) && |s.client.waiting| <= p.maxAsync
    && (forall cmd :: cmd in s.client.waiting ==>
          s.client.waiting[cmd] == |CountedFor(p.n, s.counted, cmd)| <= NFaulty(p.n))
    && (forall cmd :: cmd in s.client.dropped ==> |CountedFor(p.n, s.counted, cmd)| == NFaulty(p.n) + 1)
  }

  ghost predicate Inv(p: Params, s: System) {
    Conserved(p, s) && Truthful(p, s) && Counts(p, s)
  }

  lemma InitInv(p: Params)
    ensures Inv(p, InitSystem(p))
  {
    var s := InitSystem(p);
    forall cmd | cmd in s.client.waiting ensures CountedFor(p.n, s.counted, cmd) == {} {
    }
  }

  lemma SameCounts(p: Params, s: System, s': System)
    requires Counts(p, s) && s'.client == s.client && s'.counted == s.counted
    ensures Counts(p, s')
  {
    forall cmd ensures CountedFor(p.n, s'.counted, cmd) == CountedFor(p.n, s.counted, cmd) {
    }
  }

  lemma ArriveKeeps(p: Params, s: System, r: ReplicaId, cmd: Command, s': System)
    requires Inv(p, s) && Next(p, s, Arrive(r, cmd), s')
    ensures Inv(p, s')
  {
    SameCounts(p, s, s');
    forall q: ReplicaId, x: Command | q < p.n ensures Places(s', q, x) == Places(s, q, x) {
      assert Places(s, r, cmd) <= 1;
    }
  }

  lemma ForeignKeeps(p: Params, s: System, r: ReplicaId, cmd: Command, s': System)
    requires Inv(p, s) && Next(p, s, ForeignSubmit(r, cmd), s')
    ensures Inv(p, s')
  {
    SameCounts(p, s, s');
    forall q: ReplicaId, x: Command | q < p.n ensures Places(s', q, x) == Places(s, q, x) {
    }
  }

  lemma DecideKeeps(p: Params, s: System, r: ReplicaId, cmd: Command, s': System)
    requires Inv(p, s) && Next(p, s, Decide(r, cmd), s')
    ensures Inv(p, s')
  {
    SameCounts(p, s, s');
    forall q: ReplicaId, x: Command | q < p.n ensures Places(s', q, x) == Places(s, q, x) {
    }
  }

  lemma HearInbox(p: Params, s: System, m: Reply, s': System, q: ReplicaId)
    requires Inv(p, s) && Next(p, s, Hear(m), s') && q < p.n
    ensures |s'.inbox| == p.n && s.client.cnt <= s'.client.cnt
    ensures forall x :: x in s'.inbox[q] <==> x in s.inbox[q] || s.client.cnt <= x < s'.client.cnt
  {
    hide OnReply, Conserved, Truthful, Places;
    ReplyEffect(NFaulty(p.n), p.maxAsync, s.client, m.decision, m.cmd);
    assert s'.inbox[q] == s.inbox[q] + NewlySent(s.client, s'.client);
  }

  lemma HearConserves(p: Params, s: System, m: Reply, s': System)
    requires Inv(p, s) && Next(p, s, Hear(m), s')
    ensures Conserved(p, s') && m.from < p.n && (m.from, m.cmd) !in s.heard && (m.from, m.cmd) !in s.counted
  {
    hide OnReply, SendAll, ClientOk, Counts;
    assert Places(s, m.from, m.cmd) <= 1;
    assert s.flight[m] >= 1;
    assert m == Reply(m.from, 0, m.cmd) || m == Reply(m.from, 1, m.cmd);
    forall q: ReplicaId, x: Command | q < p.n
      ensures Places(s', q, x) == Places(s, q, x) + (if s.client.cnt <= x < s'.client.cnt then 1 else 0)
    {
      HearInbox(p, s, m, s', q);
      assert x in s.inbox[q] ==> Places(s, q, x) >= 1;
    }
    HearInbox(p, s, m, s', m.from);
  }

  lemma UncountedYet(p: Params, s: System, x: Command)
    requires Inv(p, s) && x >= s.client.cnt
    ensures CountedFor(p.n, s.counted, x) == {}
  {
    forall r: ReplicaId | r < p.n ensures (r, x) !in s.counted {
      assert Places(s, r, x) == 0;
    }
  }

  lemma AddCounted(n: nat, counted: set<(ReplicaId, Command)>, r: ReplicaId, y: Command, x: Command)
    requires r < n && (r, y) !in counted
    ensures |CountedFor(n, counted + {(r, y)}, x)| == |CountedFor(n, counted, x)| + if x == y then 1 else 0
  {
    if x == y {
      assert CountedFor(n, counted + {(r, y)}, x) == CountedFor(n, counted, x) + {r};
    } else {
      assert CountedFor(n, counted + {(r, y)}, x) == CountedFor(n, counted, x);
    }
  }

  lemma CountedAfter(p: Params, s: System, m: Reply, s': System, x: Command)
    requires Next(p, s, Hear(m), s') && m.from < p.n && (m.from, m.cmd) !in s.counted
    ensures |CountedFor(p.n, s'.counted, x)| == |CountedFor(p.n, s.counted, x)|
            + if m.decision == 1 && m.cmd in s.client.waiting && x == m.cmd then 1 else 0
  {
    hide OnReply, ClientOk, CountedFor;
    assert s.counted + {} == s.counted;
    AddCounted(p.n, s.counted, m.from, m.cmd, x);
  }

  lemma HearCounts(p: Params, s: System, m: Reply, s': System)
    requires Inv(p, s) && Next(p, s, Hear(m), s') && m.from < p.n && (m.from, m.cmd) !in s.counted
    ensures Counts(p, s')
  {
    hide OnReply, CountedFor, Conserved, Truthful;
    ReplyEffect(NFaulty(p.n), p.maxAsync, s.client, m.decision, m.cmd);
    forall x | x in s'.client.waiting
      ensures s'.client.waiting[x] == |CountedFor(p.n, s'.counted, x)| <= NFaulty(p.n)
    {
      CountedAfter(p, s, m, s', x);
      if x >= s.client.cnt {
        UncountedYet(p, s, x);
      }
    }
    forall x | x in s'.client.dropped ensures |CountedFor(p.n, s'.counted, x)| == NFaulty(p.n) + 1 {
      CountedAfter(p, s, m, s', x);
    }
  }

  lemma HearKeeps(p: Params, s: System, m: Reply, s': System)
    requires Inv(p, s) && Next(p, s, Hear(m), s')
    ensures Inv(p, s')
  {
    HearConserves(p, s, m, s');
    HearCounts(p, s, m, s');
  }

  lemma StepKeeps(p: Params, s: System, e: Event, s': System)
    requires Inv(p, s) && Next(p, s, e, s')
    ensures Inv(p, s')
  {
    hide Inv;
    match e
    case Arrive(r, cmd) => ArriveKeeps(p, s, r, cmd, s');
    case ForeignSubmit(r, cmd) => ForeignKeeps(p, s, r, cmd, s');
    case Decide(r, cmd) => DecideKeeps(p, s, r, cmd, s');
    case Hear(m) => HearKeeps(p, s, m, s');
  }

  lemma {:induction false} RunInv(p: Params, run: seq<System>, i: nat)
    requires IsRun(p, run) && i < |run|
    ensures Inv(p, run[i])
  {
    hide Inv, Next;
    if i == 0 {
      InitInv(p);
    } else {
      RunInv(p, run, i - 1);
      assert CanStep(p, run[i - 1], run[i]);
      var e :| Next(p, run[i - 1], e, run[i]);
      StepKeeps(p, run[i - 1], e, run[i]);
    }
  }

  /** In every run: a command the client has dropped from `waiting` is in the committed log of at
      least nfaulty + 1 different replicas, what was sent is what was dropped and what is waiting,
      and no more than max_async commands ever wait. */
  lemma DroppedMeansCommitted(p: Params, run: seq<System>, i: nat, cmd: Command)
    requires IsRun(p, run) && i < |run|
    ensures |run[i].desks| == p.n
    ensures cmd in run[i].client.dropped ==> |Committers(run[i], cmd)| >= NFaulty(p.n) + 1
    ensures run[i].client.cnt == |run[i].client.dropped| + |run[i].client.waiting|
    ensures |run[i].client.waiting| <= p.maxAsync
  {
    RunInv(p, run, i);
    SentIsDroppedPlusWaiting(run[i].client);
    if cmd in run[i].client.dropped {
      SubsetSize(CountedFor(p.n, run[i].counted, cmd), Committers(run[i], cmd));
    }
  }

  /** A replica answers each submission once: of the replies it has sent to our client about one
      command, on their way or processed, there is at most one, whatever its decision. */
  lemma OneReplyPerSubmission(p: Params, run: seq<System>, i: nat, r: ReplicaId, cmd: Command)
    requires IsRun(p, run) && i < |run| && r < p.n
    ensures run[i].flight[Reply(r, 0, cmd)] + run[i].flight[Reply(r, 1, cmd)]
            + (if (r, cmd) in run[i].heard then 1 else 0) <= 1
  {
    RunInv(p, run, i);
    assert Places(run[i], r, cmd) <= 1;
  }

  /** So when at most nfaulty replicas crash, one that has not crashed holds the command. */
  lemma DroppedSurvivesCrashes(p: Params, run: seq<System>, i: nat, cmd: Command, crashed: set<ReplicaId>)
    requires IsRun(p, run) && i < |run| && cmd in run[i].client.dropped && |crashed| <= NFaulty(p.n)
    ensures exists r: ReplicaId :: r < p.n == |run[i].desks| && r !in crashed && cmd in run[i].desks[r].committed
  {
    DroppedMeansCommitted(p, run, i, cmd);
    var all := Committers(run[i], cmd);
    if all <= crashed {
      SubsetSize(all, crashed);
    }
    var r :| r in all && r !in crashed;
  }

  /** The client after hearing k times that cmd was committed. */
  ghost function AfterClaims(nfaulty: nat, maxAsync: nat, c: Client, cmd: Command, k: nat): (c': Client)
    requires ClientOk(c)
    ensures ClientOk(c')
  {
    if k == 0 then c else OnReply(nfaulty, maxAsync, AfterClaims(nfaulty, maxAsync, c, cmd, k - 1), 1, cmd)
  }

  /** The handler does not look at who sent a reply, so the limit to crash faults matters: a single
      replica claiming nfaulty + 1 times that a new command was committed makes the client drop it,
      and no fewer claims do. */
  lemma {:induction false} ClaimsNeedNotBeDistinct(nfaulty: nat, maxAsync: nat, c: Client, cmd: Command, k: nat)
    requires ClientOk(c) && cmd in c.waiting && c.waiting[cmd] == 0 && k <= nfaulty + 1
    ensures var c' := AfterClaims(nfaulty, maxAsync, c, cmd, k);
            if k <= nfaulty then cmd in c'.waiting && c'.waiting[cmd] == k else cmd in c'.dropped
  {
    if k > 0 {
      ClaimsNeedNotBeDistinct(nfaulty, maxAsync, c, cmd, k - 1);
    }
  }
}
