/** The proposer as the object its callbacks update in place, proved against the handler
    functions of module `Proposer`. */
module ProposerNode {
  import opened Proposals
  import opened Recorders
  import opened ProposerRules
  import P = Proposer

  /** The callback context: an outbox, the timers armed, and the seeded generator. */
  class Ctx {
    const rng: nat -> nat
    var drawn: nat
    var sends: P.Sends
    var timers: seq<(nat, P.TimerId)>

    constructor (rng: nat -> nat)
      ensures this.rng == rng && drawn == 0 && sends == [] && timers == []
    {
      this.rng := rng;
      drawn, sends, timers := 0, [], [];
    }

    /** The draw from `1..H`, the upper bound excluded, that the `k`-th output gives: each
        output below `H - 1` a priority of its own. */
    function DrawAt(k: nat): (p: nat)
      ensures 1 <= p < H
      ensures rng(k) < H - 1 ==> p == rng(k) + 1
    {
      1 + rng(k) % (H - 1)
    }

    function Upcoming(n: nat): (draws: seq<nat>)
      reads this`drawn
      ensures |draws| == n && forall k | 0 <= k < n :: draws[k] == DrawAt(drawn + k)
    {
      var d := drawn;
      seq<nat>(n, (k: nat) => DrawAt(d + k))
    }

    method DrawPriority() returns (p: nat)
      modifies this`drawn
      ensures p == DrawAt(old(drawn)) && drawn == old(drawn) + 1
    {
      p := 1 + rng(drawn) % (H - 1);
      drawn := drawn + 1;
    }

    method Send(dst: nat, req: Request)
      modifies this`sends
      ensures sends == old(sends) + [(dst, req)]
    {
      sends := sends + [(dst, req)];
    }

    method ScheduleTimer(after: nat, id: P.TimerId)
      modifies this`timers
      ensures timers == old(timers) + [(after, id)]
    {
      timers := timers + [(after, id)];
    }
  }

  lemma {:induction false} PreparedNext(c: P.Config, st: P.State, draws: seq<nat>, r: nat)
    requires |draws| == c.n && r < c.n
    ensures P.PreparedMap(c, st, draws, r + 1) == P.PreparedMap(c, st, draws, r)[r := P.Prepared(c, st, draws, r)]
    ensures P.PreparedSends(c, st, draws, r + 1)
         == P.PreparedSends(c, st, draws, r) + [(r, Request(c.slot, st.step, P.Prepared(c, st, draws, r)))]
  {
  }

  /** The step a co-located recorder last answered with. */
  class StepCell {
    var value: nat
  }

  class Proposer {
    const c: P.Config
    const localStep: Option<StepCell>
    var step: nat
    var proposal: Proposal
    var decided: Option<int>
    var responses: map<nat, Response>
    var sent: map<nat, Proposal>
    var retries: nat
    var lastSeen: Option<nat>
    var activated: bool

    function State(): P.State
      reads this
    {
      P.State(step, proposal, decided, responses, sent, retries, lastSeen, activated)
    }

    constructor (c: P.Config, localStep: Option<StepCell>)
      ensures this.c == c && this.localStep == localStep && State() == P.Fresh(c)
    {
      this.c, this.localStep := c, localStep;
      step, proposal, decided := 0, Proposal(c.initial, H, c.selfId), None;
      responses, sent, retries := map[], map[], 0;
      lastSeen, activated := None, false;
    }

    /** This callback had outcome `o`, starting from the given outbox, timers and generator. */
    ghost predicate Did(o: P.Outcome, ctx: Ctx, sends: P.Sends, timers: seq<(nat, P.TimerId)>, drawn: nat)
      reads this, ctx
    {
      && o.Done? && State() == o.st
      && ctx.sends == sends + o.sends && ctx.timers == timers + o.timers && ctx.drawn == drawn + o.drawn
    }

    /** Begin the current step. In a phase 0 that is not the leader's first step, every
        recorder is sent a draw of its own, taken from the generator in id order. */
    method BeginStep(ctx: Ctx)
      modifies this, ctx
      ensures Did(P.BeginStep(c, old(State()), old(ctx.Upcoming(c.n))),
                  ctx, old(ctx.sends), old(ctx.timers), old(ctx.drawn))
      ensures old(step) % 4 == 0 && !(old(step) == 4 && c.leader == Some(c.selfId)) ==>
                && ctx.drawn == old(ctx.drawn) + c.n
                && |ctx.sends| == |old(ctx.sends)| + c.n
                && var sends := ctx.sends[|old(ctx.sends)|..];
                   forall k: nat | k < c.n ::
                     sends[k] == (k, Request(c.slot, step, Proposal(proposal.value, ctx.DrawAt(old(ctx.drawn) + k), c.selfId)))
    {
      SendToAll(ctx);
      ctx.ScheduleTimer(P.RETRY_DELAY_TICKS, P.Retry(step));
      ghost var st, draws := old(State()), old(ctx.Upcoming(c.n));
      BeginAsksEveryone(c, st, draws);
      if step % 4 == 0 && !(step == 4 && c.leader == Some(c.selfId)) {
        BeginDrawsForEach(c, st, draws);
      }
    }

    /** The loop that prepares and sends one proposal per recorder. */
    method SendToAll(ctx: Ctx)
      modifies this, ctx
      ensures var o := P.BeginStep(c, old(State()), old(ctx.Upcoming(c.n)));
              && o.Done? && State() == o.st && ctx.sends == old(ctx.sends) + o.sends
              && ctx.timers == old(ctx.timers) && ctx.drawn == old(ctx.drawn) + o.drawn
    {
      ghost var st, draws := State(), ctx.Upcoming(c.n);
      activated := true;
      responses, sent, retries := map[], map[], 0;
      var fast := step % 4 == 0 && step == P.FIRST_ROUND_STEP && c.IsLeader();
      for r := 0 to c.n
        invariant sent == P.PreparedMap(c, st, draws, r)
        invariant ctx.sends == old(ctx.sends) + P.PreparedSends(c, st, draws, r)
        invariant ctx.drawn == old(ctx.drawn) + if P.Randomises(c, st) then r else 0
        invariant ctx.timers == old(ctx.timers)
        invariant State() == st.(activated := true, responses := map[], retries := 0, sent := sent)
      {
        var prepared := proposal;
        if fast {
          prepared := Proposal(proposal.value, H, c.selfId);
        } else if step % 4 == 0 {
          var priority := ctx.DrawPriority();
          prepared := Proposal(proposal.value, priority, c.selfId);
        }
        assert prepared == P.Prepared(c, st, draws, r);
        PreparedNext(c, st, draws, r);
        sent := sent[r := prepared];
        ctx.Send(r, Request(c.slot, step, prepared));
      }
    }

    method ProcessPhase() returns (ok: bool)
      modifies this
      ensures ok == P.ProcessPhase(old(State())).Some?
      ensures ok ==> State() == P.ProcessPhase(old(State())).value
    {
      ok := true;
      if step % 4 == 0 {
        var fast := P.FastPathValue(responses);
        if fast.Some? {
          decided := fast;
        } else {
          var best := Best(P.Firsts(responses));
          if best.None? { return false; }
          proposal := best.value;
        }
      } else if step % 4 == 2 {
        var best := Best(P.PriorAggs(responses));
        if best == Some(proposal) {
          decided := Some(proposal.value);
        }
      } else if step % 4 == 3 {
        var best := Best(P.PriorAggs(responses));
        if best.None? { return false; }
        proposal := best.value;
      }
    }

    method ProcessQuorum(ctx: Ctx) returns (ok: bool)
      modifies this, ctx
      ensures var o := P.ProcessQuorum(c, old(State()), old(ctx.Upcoming(c.n)));
              ok == o.Done? && (ok ==> Did(o, ctx, old(ctx.sends), old(ctx.timers), old(ctx.drawn)))
    {
      if forall r | r in responses :: responses[r].step == step {
        ok := ProcessPhase();
        if ok && decided.None? {
          step := step + 1;
          BeginStep(ctx);
        }
      } else {
        var reply := responses[P.FurthestReply(responses)];
        if reply.step <= step || reply.first.None? { return false; }
        step := reply.step;
        proposal := reply.first.value;
        BeginStep(ctx);
        ok := true;
      }
    }

    method OnResponse(from: nat, resp: Response, ctx: Ctx) returns (ok: bool)
      modifies this, ctx
      ensures var o := P.OnResponse(c, old(State()), from, resp, old(ctx.Upcoming(c.n)));
              ok == o.Done? && (ok ==> Did(o, ctx, old(ctx.sends), old(ctx.timers), old(ctx.drawn)))
    {
      if decided.Some? || resp.slot != c.slot || resp.reqStep != step { return true; }
      if from !in responses {
        responses := responses[from := resp];
      }
      ok := true;
      if |responses| >= c.Quorum() {
        ok := ProcessQuorum(ctx);
      }
    }

    method Start(ctx: Ctx)
      modifies this, ctx
      ensures Did(P.Start(c, old(State()), old(ctx.Upcoming(c.n))),
                  ctx, old(ctx.sends), old(ctx.timers), old(ctx.drawn))
    {
      if decided.Some? { return; }
      step := P.FIRST_ROUND_STEP;
      if c.activationDelay == 0 {
        BeginStep(ctx);
      } else {
        ctx.ScheduleTimer(c.activationDelay, P.Hedge);
      }
    }

    /** What the co-located recorder's cell shows, if one is wired up. */
    function LocalStep(): Option<nat>
      reads if localStep.Some? then {localStep.value} else {}
    {
      if localStep.Some? then Some(localStep.value.value) else None
    }

    method MaybeActivateAfterHedge(ctx: Ctx)
      modifies this, ctx
      ensures Did(P.HedgeCheck(c, old(State()), old(LocalStep()), old(ctx.Upcoming(c.n))),
                  ctx, old(ctx.sends), old(ctx.timers), old(ctx.drawn))
    {
      if decided.Some? { return; }
      var current := LocalStep();
      if current.Some? && current.value > step && current != lastSeen {
        lastSeen := current;
        ctx.ScheduleTimer(P.HEDGE_RECHECK_TICKS, P.Hedge);
      } else {
        BeginStep(ctx);
      }
    }

    /** Resend, once each and in id order, to all recorders that have not replied. */
    method RetryTimer(s: nat, ctx: Ctx) returns (ok: bool)
      modifies this, ctx
      ensures var o := P.OnRetry(c, old(State()), s);
              ok == o.Done? && (ok ==> Did(o, ctx, old(ctx.sends), old(ctx.timers), old(ctx.drawn)))
    {
      if decided.Some? || !activated || s != step || |responses| >= c.Quorum() { return true; }
      ghost var st := State();
      var delay := P.RetryBackoffDelay(retries);
      retries := P.Min(retries + 1, P.MAX_U32);
      for r := 0 to c.n
        invariant State() == st.(retries := P.Min(st.retries + 1, P.MAX_U32))
        invariant forall k | 0 <= k < r && k !in responses :: k in sent
        invariant ctx.sends == old(ctx.sends) + P.Resends(c, st, r)
        invariant ctx.timers == old(ctx.timers) && ctx.drawn == old(ctx.drawn)
      {
        if r !in responses {
          if r !in sent { return false; }
          ctx.Send(r, Request(c.slot, step, sent[r]));
        }
      }
      ctx.ScheduleTimer(delay, P.Retry(step));
      assert forall k | 0 <= k < c.n :: k in st.responses || k in st.sent;
      ok := true;
    }

    method OnTimer(id: P.TimerId, ctx: Ctx) returns (ok: bool)
      modifies this, ctx
      ensures var o := P.OnTimer(c, old(State()), id, old(LocalStep()), old(ctx.Upcoming(c.n)));
              ok == o.Done? && (ok ==> Did(o, ctx, old(ctx.sends), old(ctx.timers), old(ctx.drawn)))
    {
      match id
      case Kickoff => Start(ctx); ok := true;
      case Hedge => MaybeActivateAfterHedge(ctx); ok := true;
      case Retry(s) => ok := RetryTimer(s, ctx);
    }
  }

  datatype Message = RequestMsg(req: Request) | ResponseMsg(resp: Response)

  /** One replica: a proposer and a recorder side by side, the recorder feeding the
      proposer's view of local progress. */
  class ReplicaNode {
    const proposer: Proposer
    const recorder: Recorder
    const localStep: StepCell

    constructor (c: P.Config)
      ensures fresh(proposer) && fresh(recorder) && fresh(recorder.isr) && fresh(localStep)
      ensures proposer.State() == P.Fresh(c) && proposer.localStep == Some(localStep) && localStep.value == 0
    {
      var cell := new StepCell;
      cell.value := 0;
      localStep := cell;
      recorder := new Recorder();
      proposer := new Proposer(c, Some(cell));
    }

    /** Answer a request: the reply is the recorder's, and the published step is the
        recorder's own. */
    method OnRequest(req: Request) returns (resp: Response)
      modifies recorder.isr, localStep
      ensures recorder.isr.State() == Handled(old(recorder.isr.State()), req)
      ensures resp == Reply(recorder.isr.State(), req)
      ensures localStep.value == recorder.isr.State().step
    {
      resp := recorder.Handle(req);
      localStep.value := resp.step;
    }

    /** Requests go to the recorder, whose reply goes back to the sender; replies go to the
        proposer. Neither role touches the other's state. */
    method OnMessage(from: nat, payload: Message, ctx: Ctx) returns (ok: bool, reply: Option<(nat, Response)>)
      modifies recorder.isr, localStep, proposer, ctx
      ensures payload.RequestMsg? ==>
                && ok && recorder.isr.State() == Handled(old(recorder.isr.State()), payload.req)
                && reply == Some((from, Reply(recorder.isr.State(), payload.req)))
                && localStep.value == recorder.isr.State().step
                && proposer.State() == old(proposer.State()) && unchanged(ctx)
      ensures payload.ResponseMsg? ==>
                && reply.None? && recorder.isr.State() == old(recorder.isr.State()) && localStep.value == old(localStep.value)
                && var o := P.OnResponse(proposer.c, old(proposer.State()), from, payload.resp, old(ctx.Upcoming(proposer.c.n)));
                   ok == o.Done? && (ok ==> proposer.Did(o, ctx, old(ctx.sends), old(ctx.timers), old(ctx.drawn)))
    {
      match payload {
        case RequestMsg(req) =>
          var resp := OnRequest(req);
          ok, reply := true, Some((from, resp));
        case ResponseMsg(resp) =>
          reply := None;
          ok := proposer.OnResponse(from, resp, ctx);
      }
    }

    method OnTimer(id: P.TimerId, ctx: Ctx) returns (ok: bool)
      requires proposer.localStep == Some(localStep)
      modifies proposer, ctx
      ensures var o := P.OnTimer(proposer.c, old(proposer.State()), id, Some(localStep.value), old(ctx.Upcoming(proposer.c.n)));
              ok == o.Done? && (ok ==> proposer.Did(o, ctx, old(ctx.sends), old(ctx.timers), old(ctx.drawn)))
    {
      ok := proposer.OnTimer(id, ctx);
    }
  }
}
