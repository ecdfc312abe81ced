/** One consensus slot as a step system: recorders, proposers, and a network that may lose,
    delay, duplicate and reorder every message. */
module Concrete {
  import opened Proposals
  import opened Recorders
  import Isr
  import P = Proposer

  /** `n` recorders and any number of proposer instances. */
  datatype Config = Config(n: nat, slot: nat, proposers: seq<P.Config>)

  ghost predicate WellFormed(c: Config) {
    forall a | 0 <= a < |c.proposers| :: c.proposers[a].n == c.n && c.proposers[a].slot == c.slot
  }

  /** Requests go from proposer `src` to recorder `dst`, replies from recorder `src` to the
      proposer instance `dst` that asked. */
  datatype Msg =
    | Req(src: nat, dst: nat, req: Request)
    | Resp(src: nat, dst: nat, resp: Response)

  /** `net` holds every message ever sent: a message that is never delivered is lost, one
      delivered twice is a duplicate. `hedge[a]` says a hedge timer of proposer `a` is armed,
      `kicks[a]` counts its kickoffs while it was
      undecided: a decided proposer ignores them. */
  datatype Sys = Sys(
    recorders: seq<Isr.Register>,
    proposers: seq<P.State>,
    net: set<Msg>,
    hedge: seq<bool>,
    kicks: seq<nat>,
    panicked: bool)

  /** One scheduling choice, with the priorities the generator would produce next and the
      step a hedge check reads from the co-located recorder. */
  datatype Action =
    | Handle(m: Msg)
    | Deliver(m: Msg, draws: seq<nat>)
    | Kick(a: nat, draws: seq<nat>)
    | HedgeFires(a: nat, local: Option<nat>, draws: seq<nat>)
    | RetryFires(a: nat, s: nat)

  function Init(c: Config): Sys {
    Sys(seq(c.n, _ => Isr.EMPTY),
        seq(|c.proposers|, a requires 0 <= a < |c.proposers| => P.Fresh(c.proposers[a])),
        {},
        seq(|c.proposers|, _ => false),
        seq(|c.proposers|, _ => 0),
        false)
  }

  ghost predicate Shaped(c: Config, s: Sys) {
    && |s.recorders| == c.n
    && |s.proposers| == |s.hedge| == |s.kicks| == |c.proposers|
  }

  function Requests(a: nat, sends: P.Sends): set<Msg> {
    set k | 0 <= k < |sends| :: Req(a, sends[k].0, sends[k].1)
  }

  function ArmsHedge(timers: seq<(nat, P.TimerId)>): bool {
    exists k | 0 <= k < |timers| :: timers[k].1 == P.Hedge
  }

  /** Proposer `a` has run a callback with outcome `o`; `armed` is whether a hedge timer is
      still outstanding from before. */
  function Settle(s: Sys, a: nat, o: P.Outcome, armed: bool): Sys
    requires a < |s.proposers| && |s.hedge| == |s.proposers|
  {
    match o
    case Panic => s.(panicked := true)
    case Done(st, sends, timers, _) =>
      s.(proposers := s.proposers[a := st],
         net := s.net + Requests(a, sends),
         hedge := s.hedge[a := armed || ArmsHedge(timers)])
  }

  predicate Enabled(c: Config, s: Sys, act: Action) {
    match act
    case Handle(m) => m in s.net && m.Req? && m.dst < |s.recorders|
    case Deliver(m, draws) =>
      m in s.net && m.Resp? && m.dst < |s.proposers| && m.dst < |c.proposers|
      && P.DrawsOk(c.proposers[m.dst], draws)
    case Kick(a, draws) => a < |s.proposers| && a < |c.proposers| && P.DrawsOk(c.proposers[a], draws)
    case HedgeFires(a, local, draws) =>
      a < |s.proposers| && a < |c.proposers| && a < |s.hedge| && s.hedge[a]
      && P.DrawsOk(c.proposers[a], draws)
    case RetryFires(a, _) => a < |s.proposers| && a < |c.proposers|
  }

  /** The next state; a disabled action, and any action after a panic, changes nothing. */
  function Step(c: Config, s: Sys, act: Action): (s': Sys)
    requires |s.hedge| == |s.kicks| == |s.proposers|
    ensures |s'.hedge| == |s'.kicks| == |s'.proposers| == |s.proposers| && |s'.recorders| == |s.recorders|
  {
    if s.panicked || !Enabled(c, s, act) then s
    else
      match act
      case Handle(m) =>
        var i := Handled(s.recorders[m.dst], m.req);
        s.(recorders := s.recorders[m.dst := i], net := s.net + {Resp(m.dst, m.src, Reply(i, m.req))})
      case Deliver(m, draws) =>
        var a := m.dst;
        Settle(s, a, P.OnResponse(c.proposers[a], s.proposers[a], m.src, m.resp, draws), s.hedge[a])
      case Kick(a, draws) =>
        var t := Settle(s, a, P.OnTimer(c.proposers[a], s.proposers[a], P.Kickoff, None, draws), s.hedge[a]);
        t.(kicks := t.kicks[a := t.kicks[a] + if s.proposers[a].decided.None? then 1 else 0])
      case HedgeFires(a, local, draws) =>
        Settle(s, a, P.OnTimer(c.proposers[a], s.proposers[a], P.Hedge, local, draws), false)
      case RetryFires(a, step) =>
        Settle(s, a, P.OnRetry(c.proposers[a], s.proposers[a], step), s.hedge[a])
  }

  /** The state a schedule leads to. */
  function Exec(c: Config, acts: seq<Action>): (s: Sys)
    ensures Shaped(c, s)
  {
    if acts == [] then Init(c)
    else Step(c, Exec(c, acts[..|acts| - 1]), acts[|acts| - 1])
  }

  /** Every proposer instance was kicked off at most once while it was undecided. */
  ghost predicate StartedOnce(s: Sys) {
    forall a | 0 <= a < |s.kicks| :: s.kicks[a] <= 1
  }

  /** Instances that take themselves for the leader all start from one value. */
  ghost predicate LeadersAgree(c: Config) {
    forall a, b | 0 <= a < |c.proposers| && 0 <= b < |c.proposers|
                  && c.proposers[a].IsLeader() && c.proposers[b].IsLeader() ::
      c.proposers[a].initial == c.proposers[b].initial
  }

  /** The fast path cannot be split: leaders agree, or the membership is so small that any two
      majorities are the same set. */
  ghost predicate Uncontested(c: Config) {
    LeadersAgree(c) || c.n <= 2
  }

  ghost predicate Agreement(s: Sys) {
    forall a, b | 0 <= a < |s.proposers| && 0 <= b < |s.proposers|
                  && s.proposers[a].decided.Some? && s.proposers[b].decided.Some? ::
      s.proposers[a].decided == s.proposers[b].decided
  }
}
