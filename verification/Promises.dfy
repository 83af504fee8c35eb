/** The promise library, in the build without CPPROMISE_USE_STACK_FREE: what settling a promise does.

    Promises are numbered, and callbacks are data.  A user's callback is a finite piece of code that
    settles promises, makes new ones, registers further callbacks and calls `all`, and that returns
    nothing, a value, or a promise.  It refers to the promises it has captured, and then to those it
    makes itself, by their position.  The promise that `then` returns inside `all`, and inside the
    wrapper of a callback that returns a promise, is discarded there and is left out.
  */
module Promises {
  import opened Core

  type Id = nat

  datatype Value = Unit | Num(n: int) | List(vs: seq<Value>)

  /** The functions that callbacks apply to their argument, by name. */
  type Pure = (nat, Value) -> Value

  /** What a callback returns: nothing, a pure function of its argument, by name, or a promise. */
  datatype Return = Nothing | Result(f: nat) | Follow(p: nat)

  datatype Act =
    | Settle(p: nat, up: bool, v: Value)                                  // resolve (`up`) or reject
    | Make                                                                // a new promise
    | Register(p: nat, onFul: Option<Handler>, onRej: Option<Handler>)    // then, fail
    | Await(ps: seq<nat>)                                                 // all

  datatype Handler = Handler(acts: seq<Act>, ret: Return)

  datatype Callback =
    | Call(h: Handler, env: seq<Id>, npm: Id, up: bool)   // run the user's callback, then settle npm
    | Forward(npm: Id, up: bool)                          // settle npm with the same value
    | Slot(a: nat, idx: nat)                              // of `all`: store the value, count down

  /** `then`, `fail` and `all` add to both vectors of callbacks at once. */
  datatype Pair = Pair(ful: Callback, rej: Callback)

  datatype PmState = Pending | Fulfilled(v: Value) | Rejected(v: Value)

  /** `next` is how many callbacks of the vector being triggered have been run. */
  datatype Promise = Promise(state: PmState, cbs: seq<Pair>, next: nat)

  /** History: what has become of each input of an `all`. */
  datatype Link =
    | Todo            // not looked at yet
    | Linked(j: nat)  // its callbacks are the j-th pair of the input
    | Stored          // its value has been stored
    | Lost            // it was rejected when it was looked at

  datatype All = All(inputs: seq<Id>, npm: Id, left: nat, results: seq<Value>, links: seq<Link>)

  /** A call of resolve (`up`) or reject. */
  datatype Request = Request(id: Id, up: bool, v: Value)

  /** History: which callback of which promise was run, in order of time; which promises were settled by
      anybody else than an `all` that returned them; all calls of resolve and reject, in order; and the
      callbacks that were run to their end, other than those of `all`, each with its argument. */
  datatype Store = Store(
    pms: seq<Promise>,
    alls: seq<All>,
    trace: seq<(Id, nat)>,
    touched: set<Id>,
    asked: seq<Request>,
    done: seq<(Callback, Value)>)

  // ---- the code of callbacks ----

  /** How many promises an act makes. */
  function Makes(a: Act): nat {
    if a.Settle? then 0 else 1
  }

  /** The act only refers to the first n promises in scope, and does not throw. */
  predicate ActFits(a: Act, n: nat) {
    match a
    case Settle(p, _, _) => p < n
    case Make => true
    case Register(p, onFul, onRej) =>
      p < n && (onFul.Some? ==> Fits(onFul.value, n)) && (onRej.Some? ==> Fits(onRej.value, n))
    case Await(ps) => ps != [] && forall i :: 0 <= i < |ps| ==> ps[i] < n
  }

  predicate ActsFit(acts: seq<Act>, n: nat) {
    acts == [] || (ActFits(acts[0], n) && ActsFit(acts[1..], n + Makes(acts[0])))
  }

  function ManyMake(acts: seq<Act>): nat {
    if acts == [] then 0 else Makes(acts[0]) + ManyMake(acts[1..])
  }

  predicate Fits(h: Handler, n: nat) {
    ActsFit(h.acts, n) && (h.ret.Follow? ==> h.ret.p < n + ManyMake(h.acts))
  }

  /** How much work there is in a piece of code, counting that of the callbacks it registers. */
  function ActWork(a: Act): nat {
    match a
    case Settle(_, _, _) => 1
    case Make => 2
    case Register(_, onFul, onRej) =>
      5 + (if onFul.Some? then HandlerWork(onFul.value) else 0) + (if onRej.Some? then HandlerWork(onRej.value) else 0)
    case Await(ps) => 3 + 2 * |ps|
  }

  function ActsWork(acts: seq<Act>): nat {
    if acts == [] then 0 else ActWork(acts[0]) + ActsWork(acts[1..])
  }

  function HandlerWork(h: Handler): nat {
    3 + ActsWork(h.acts)
  }

  function Weight(cb: Callback): (w: nat)
    ensures w > 0
  {
    if cb.Call? then 1 + HandlerWork(cb.h) else 1
  }

  function PairWeight(pair: Pair): nat {
    Weight(pair.ful) + Weight(pair.rej)
  }

  function Weights(cbs: seq<Pair>): nat {
    if cbs == [] then 0 else PairWeight(cbs[0]) + Weights(cbs[1..])
  }

  /** What may still happen because of one promise, and because of all of them: every call of the
      library makes this smaller than the work it is given. */
  function Effort(pm: Promise): nat {
    (if pm.state.Pending? then 1 else 0) + if pm.next <= |pm.cbs| then Weights(pm.cbs[pm.next..]) else 0
  }

  function Work(pms: seq<Promise>): nat {
    if pms == [] then 0 else Work(pms[..|pms| - 1]) + Effort(pms[|pms| - 1])
  }

  // ---- what holds between and during calls ----

  /** The callback only knows promises that exist. */
  ghost predicate CallbackOk(n: nat, cb: Callback) {
    match cb
    case Call(h, env, npm, up) => npm < n && (forall i :: 0 <= i < |env| ==> env[i] < n) && Fits(h, |env|)
    case Forward(npm, up) => npm < n
    case Slot(a, i) => false
  }

  /** The j-th pair of promise p was made by an `all`, for the input it says. */
  ghost predicate SlotOk(s: Store, p: Id, j: nat, pair: Pair) {
    && p < |s.pms| && pair.ful.Slot? && pair.ful.a < |s.alls|
    && var all := s.alls[pair.ful.a];
       && pair.ful.idx < |all.inputs| == |all.links| && all.inputs[pair.ful.idx] == p
       && pair.rej == Forward(all.npm, false)
       && (all.links[pair.ful.idx] == Linked(j)
           || (all.links[pair.ful.idx].Stored? && s.pms[p].state.Fulfilled? && s.pms[p].next > j))
  }

  ghost predicate PairOk(s: Store, p: Id, j: nat, pair: Pair) {
    (CallbackOk(|s.pms|, pair.ful) && CallbackOk(|s.pms|, pair.rej)) || SlotOk(s, p, j, pair)
  }

  ghost predicate Wired(s: Store) {
    forall p, j :: 0 <= p < |s.pms| && 0 <= j < |s.pms[p].cbs| ==> PairOk(s, p, j, s.pms[p].cbs[j])
  }

  /** `running` are the promises whose callbacks are being run right now. */
  ghost predicate InProgress(s: Store, running: set<Id>) {
    && (forall p :: p in running ==> p < |s.pms|)
    && forall p :: 0 <= p < |s.pms| ==>
         && s.pms[p].next <= |s.pms[p].cbs|
         && (s.pms[p].state.Pending? ==> s.pms[p].next == 0 && p !in running)
         && (!s.pms[p].state.Pending? && p !in running ==> s.pms[p].next == |s.pms[p].cbs|)
  }

  /** The callbacks of p that were run, in order of time. */
  function StepsOf(trace: seq<(Id, nat)>, p: Id): seq<nat> {
    if trace == [] then []
    else StepsOf(trace[..|trace| - 1], p) + if trace[|trace| - 1].0 == p then [trace[|trace| - 1].1] else []
  }

  function Upto(n: nat): seq<nat> {
    seq(n, i => i)
  }

  ghost predicate Traced(s: Store) {
    && (forall p :: 0 <= p < |s.pms| ==> StepsOf(s.trace, p) == Upto(s.pms[p].next))
    && (forall k :: 0 <= k < |s.trace| ==> s.trace[k].0 < |s.pms|)
    && (forall p :: p in s.touched ==> p < |s.pms|)
  }

  function Open(links: seq<Link>): nat {
    if links == [] then 0 else Open(links[..|links| - 1]) + if links[|links| - 1].Stored? then 0 else 1
  }

  ghost predicate LinkOk(s: Store, all: All, i: nat)
    requires i < |all.inputs| == |all.links| == |all.results| && all.inputs[i] < |s.pms|
  {
    var pm := s.pms[all.inputs[i]];
    match all.links[i]
    case Todo => true
    case Linked(j) =>
      && j < |pm.cbs| && pm.cbs[j].ful.Slot? && pm.cbs[j].ful.idx == i && pm.cbs[j].rej == Forward(all.npm, false)
      && (pm.state.Fulfilled? ==> pm.next <= j)
    case Stored => pm.state == Fulfilled(all.results[i])
    case Lost => pm.state.Rejected?
  }

  /** Input i was rejected, and npm has been told. */
  ghost predicate Told(s: Store, all: All, i: nat)
    requires i < |all.inputs| == |all.links| && all.inputs[i] < |s.pms|
  {
    var pm := s.pms[all.inputs[i]];
    pm.state.Rejected? && (all.links[i].Lost? || (all.links[i].Linked? && all.links[i].j < pm.next))
  }

  /** `due`: npm is about to be settled. */
  ghost predicate AllOk(s: Store, all: All, due: bool) {
    && all.npm < |s.pms| && |all.inputs| == |all.links| == |all.results|
    && (forall i :: 0 <= i < |all.inputs| ==> all.inputs[i] < |s.pms| && LinkOk(s, all, i))
    && all.left == Open(all.links)
    && (all.npm in s.touched
        || match s.pms[all.npm].state
           case Pending => due || (all.left > 0 && forall i :: 0 <= i < |all.inputs| ==> !Told(s, all, i))
           case Fulfilled(v) => all.left == 0 && v == List(all.results)
           case Rejected(v) => exists i :: 0 <= i < |all.inputs| && s.pms[all.inputs[i]].state == Rejected(v))
  }

  ghost predicate AllsOk(s: Store, due: set<nat>) {
    && (forall a :: 0 <= a < |s.alls| ==> AllOk(s, s.alls[a], a in due))
    && (forall a, b :: 0 <= a < b < |s.alls| ==> s.alls[a].npm != s.alls[b].npm)
  }

  ghost predicate Kept(s: Store, running: set<Id>, due: set<nat>) {
    Wired(s) && InProgress(s, running) && Traced(s) && AllsOk(s, due)
  }

  /** A settled promise stays as it is, no callback is forgotten, what was run stays run, and every
      `all` called in between has looked at its inputs. */
  ghost predicate Later(s: Store, s': Store) {
    && |s.pms| <= |s'.pms| && |s.alls| <= |s'.alls|
    && (forall p :: 0 <= p < |s.pms| ==>
          && (!s.pms[p].state.Pending? ==> s'.pms[p].state == s.pms[p].state && s'.pms[p].cbs == s.pms[p].cbs)
          && s.pms[p].cbs <= s'.pms[p].cbs)
    && (forall a :: 0 <= a < |s.alls| ==> AllLater(s.alls[a], s'.alls[a]))
    && (forall a :: |s.alls| <= a < |s'.alls| ==> LookedAt(s'.alls[a]))
    && s.trace <= s'.trace && s.touched <= s'.touched && s.asked <= s'.asked && s.done <= s'.done
  }

  ghost predicate AllLater(all: All, all': All) {
    && all'.inputs == all.inputs && all'.npm == all.npm && |all'.links| == |all.links|
    && forall i :: 0 <= i < |all.links| ==>
         all'.links[i] == all.links[i] || (all.links[i].Linked? && all'.links[i].Stored?)
  }

  /** Every input of the `all` has been looked at. */
  ghost predicate LookedAt(all: All) {
    forall i :: 0 <= i < |all.links| ==> !all.links[i].Todo?
  }

  /** Promises settled before have had no callback run. */
  ghost predicate Still(s: Store, s': Store) {
    |s.pms| <= |s'.pms| && forall p :: 0 <= p < |s.pms| && !s.pms[p].state.Pending? ==> s'.pms[p] == s.pms[p]
  }

  /** One more callback of id has been run, and none of the others settled before. */
  ghost predicate Ran(s: Store, s': Store, id: Id) {
    && Later(s, s') && id < |s.pms| && s'.pms[id] == s.pms[id].(next := s.pms[id].next + 1)
    && forall p :: 0 <= p < |s.pms| && p != id && !s.pms[p].state.Pending? ==> s'.pms[p] == s.pms[p]
  }

  /** Settling promise id this way is right: anybody may, and an `all` may when its inputs say so. */
  ghost predicate MaySettle(s: Store, id: Id, up: bool, v: Value, due: set<nat>) {
    && id < |s.pms|
    && (due == {}
        || exists a :: due == {a} && a < |s.alls| && s.alls[a].npm == id && AllMaySettle(s, s.alls[a], up, v))
  }

  ghost predicate AllMaySettle(s: Store, all: All, up: bool, v: Value) {
    if up then all.left == 0 && v == List(all.results)
    else exists i :: 0 <= i < |all.inputs| && all.inputs[i] < |s.pms| && s.pms[all.inputs[i]].state == Rejected(v)
  }
}
