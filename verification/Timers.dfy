/** The timers of one proposer, followed through any callbacks in any order: until it decides,
    something that will wake it is always armed. */
module Timers {
  import opened Proposals
  import opened Recorders
  import opened ProposerRules
  import P = Proposer

  /** A proposer and the timers it has armed that have not gone off. */
  datatype Waiting = Waiting(st: P.State, armed: multiset<P.TimerId>, kicked: bool)

  datatype Event =
    | Kicked(draws: seq<nat>)
    | GoesOff(id: P.TimerId, local: Option<nat>, draws: seq<nat>)
    | Hears(from: nat, resp: Response, draws: seq<nat>)

  function Ids(timers: seq<(nat, P.TimerId)>): multiset<P.TimerId> {
    if timers == [] then multiset{} else Ids(timers[..|timers| - 1]) + multiset{timers[|timers| - 1].1}
  }

  function Settle(w: Waiting, o: P.Outcome, armed: multiset<P.TimerId>): Waiting {
    if o.Panic? then w else Waiting(o.st, armed + Ids(o.timers), w.kicked)
  }

  /** Only an armed timer goes off, and it goes off once. */
  function Next(pc: P.Config, w: Waiting, e: Event): Waiting
    requires |e.draws| == pc.n
  {
    match e
    case Kicked(draws) => Settle(w, P.OnTimer(pc, w.st, P.Kickoff, None, draws), w.armed).(kicked := true)
    case GoesOff(id, local, draws) =>
      if id !in w.armed || id.Kickoff? then w
      else Settle(w, P.OnTimer(pc, w.st, id, local, draws), w.armed - multiset{id})
    case Hears(from, resp, draws) => Settle(w, P.OnResponse(pc, w.st, from, resp, draws), w.armed)
  }

  function After(pc: P.Config, events: seq<Event>): Waiting
    requires forall k | 0 <= k < |events| :: |events[k].draws| == pc.n
  {
    if events == [] then Waiting(P.Fresh(pc), multiset{}, false)
    else Next(pc, After(pc, events[..|events| - 1]), events[|events| - 1])
  }

  ghost predicate Awake(w: Waiting) {
    P.Hedge in w.armed || (w.st.activated && P.Retry(w.st.step) in w.armed)
  }

  ghost predicate WaitingOk(pc: P.Config, w: Waiting) {
    && (w.st.decided.None? ==> |w.st.responses| < pc.Quorum())
    && (w.st.activated ==> forall r: nat | r < pc.n :: r in w.st.sent)
    && (w.st.decided.None? && (w.kicked || w.st.activated) ==> Awake(w))
  }

  lemma {:induction false} OneTimer(after: nat, id: P.TimerId)
    ensures Ids([(after, id)]) == multiset{id} && Ids([]) == multiset{}
  {
    assert [(after, id)][..0] == [];
  }

  /** An outcome of a callback that leaves the proposer as it should be, and awake. */
  ghost predicate Wakes(pc: P.Config, o: P.Outcome) {
    && o.Done? && (o.st.decided.None? ==> |o.st.responses| < pc.Quorum())
    && (o.st.activated ==> forall r: nat | r < pc.n :: r in o.st.sent)
    && (o.st.decided.None? ==> P.Hedge in Ids(o.timers) || (o.st.activated && P.Retry(o.st.step) in Ids(o.timers)))
  }

  lemma {:induction false} BeginWakes(pc: P.Config, st: P.State, draws: seq<nat>)
    requires |draws| == pc.n
    ensures Wakes(pc, P.BeginStep(pc, st, draws)) && P.BeginStep(pc, st, draws).st.decided == st.decided
  {
    BeginAsksEveryone(pc, st, draws);
    OneTimer(20, P.Retry(st.step));
    hide P.BeginStep;
  }

  lemma {:induction false} KickWakes(pc: P.Config, w: Waiting, draws: seq<nat>)
    requires |draws| == pc.n && WaitingOk(pc, w)
    ensures WaitingOk(pc, Next(pc, w, Kicked(draws)))
  {
    hide P.BeginStep, Ids;
    StartRule(pc, w.st, draws);
    BeginWakes(pc, w.st.(step := 4), draws);
    OneTimer(pc.activationDelay, P.Hedge);
  }

  lemma {:induction false} HedgeWakes(pc: P.Config, w: Waiting, local: Option<nat>, draws: seq<nat>)
    requires |draws| == pc.n && WaitingOk(pc, w) && P.Hedge in w.armed
    ensures WaitingOk(pc, Next(pc, w, GoesOff(P.Hedge, local, draws)))
  {
    hide P.BeginStep, Ids;
    BeginWakes(pc, w.st, draws);
    OneTimer(20, P.Hedge);
  }

  lemma {:induction false} RetryWakes(pc: P.Config, w: Waiting, s: nat, local: Option<nat>, draws: seq<nat>)
    requires |draws| == pc.n && WaitingOk(pc, w) && P.Retry(s) in w.armed
    ensures WaitingOk(pc, Next(pc, w, GoesOff(P.Retry(s), local, draws)))
  {
    hide P.Resends, Ids, P.RetryBackoffDelay;
    OneTimer(P.RetryBackoffDelay(w.st.retries), P.Retry(s));
  }

  lemma {:induction false} HearsOutcome(pc: P.Config, st: P.State, from: nat, resp: Response, draws: seq<nat>)
    requires |draws| == pc.n && st.decided.None? && |st.responses| < pc.Quorum()
    ensures var o := P.OnResponse(pc, st, from, resp, draws);
            || o.Panic? || o.st.decided.Some? || Wakes(pc, o)
            || (o == P.Done(o.st, [], [], 0) && o.st == st.(responses := o.st.responses) && |o.st.responses| < pc.Quorum())
    ensures var o := P.OnResponse(pc, st, from, resp, draws);
            o.Done? && o.st.decided.Some? ==> o.st == st.(responses := o.st.responses, proposal := o.st.proposal, decided := o.st.decided)
  {
    hide P.ProcessQuorum, Wakes;
    if resp.slot == pc.slot && resp.reqStep == st.step {
      FirstReplyCounts(pc, st, from, resp, draws);
      QuorumOutcome(pc, st.(responses := st.responses[from := resp]), draws);
    }
  }

  lemma {:induction false} QuorumOutcome(pc: P.Config, st: P.State, draws: seq<nat>)
    requires |draws| == pc.n && st.decided.None?
    ensures var o := P.ProcessQuorum(pc, st, draws);
            || o.Panic? || (Wakes(pc, o) && o.st.decided.None?)
            || (o.st.decided.Some? && o.st == st.(proposal := o.st.proposal, decided := o.st.decided))
  {
    hide P.BeginStep, P.AllAtStep, Wakes;
    PhaseChanges(st);
    hide P.ProcessPhase;
    if P.AllAtStep(st) {
      if P.ProcessPhase(st).Some? {
        BeginWakes(pc, P.ProcessPhase(st).value.(step := P.ProcessPhase(st).value.step + 1), draws);
      }
    } else {
      assert st.responses != map[] by { EmptyIsAtStep(st); }
      var reply := st.responses[P.FurthestReply(st.responses)];
      if reply.first.Some? {
        BeginWakes(pc, st.(step := reply.step, proposal := reply.first.value), draws);
      }
    }
  }

  lemma {:induction false} EmptyIsAtStep(st: P.State)
    requires !P.AllAtStep(st)
    ensures st.responses != map[]
  {
  }

  lemma {:induction false} PhaseChanges(st: P.State)
    ensures var p := P.ProcessPhase(st);
            p.Some? ==> p.value == st.(proposal := p.value.proposal, decided := p.value.decided)
  {
  }

  lemma {:induction false} HearsWakes(pc: P.Config, w: Waiting, from: nat, resp: Response, draws: seq<nat>)
    requires |draws| == pc.n && WaitingOk(pc, w)
    ensures WaitingOk(pc, Next(pc, w, Hears(from, resp, draws)))
  {
    if w.st.decided.Some? {
      ReplyIgnored(pc, w.st, from, resp, draws);
    } else {
      HearsOutcome(pc, w.st, from, resp, draws);
    }
    OneTimer(20, P.Hedge);
    hide P.OnResponse;
  }

  lemma {:induction false} NextWakes(pc: P.Config, w: Waiting, e: Event)
    requires |e.draws| == pc.n && WaitingOk(pc, w)
    ensures WaitingOk(pc, Next(pc, w, e))
  {
    hide WaitingOk;
    match e
    case Kicked(draws) => KickWakes(pc, w, draws);
    case GoesOff(id, local, draws) =>
      if id in w.armed {
        match id
        case Kickoff =>
        case Hedge => HedgeWakes(pc, w, local, draws);
        case Retry(s) => RetryWakes(pc, w, s, local, draws);
      }
    case Hears(from, resp, draws) => HearsWakes(pc, w, from, resp, draws);
  }

  /** However often it is kicked off, whatever it hears and whichever timers go off, a proposer
      that has been kicked off and has not decided has its hedge timer armed or, once active,
      the retry timer of its current step. */
  lemma {:induction false} NeverAsleep(pc: P.Config, events: seq<Event>)
    requires forall k | 0 <= k < |events| :: |events[k].draws| == pc.n
    ensures WaitingOk(pc, After(pc, events))
    ensures var w := After(pc, events);
            w.kicked && w.st.decided.None? ==>
              P.Hedge in w.armed || (w.st.activated && P.Retry(w.st.step) in w.armed)
  {
    if events == [] {
    } else {
      hide Next;
      var before := events[..|events| - 1];
      forall k | 0 <= k < |before| ensures |before[k].draws| == pc.n {
        assert before[k] == events[k];
      }
      NeverAsleep(pc, before);
      NextWakes(pc, After(pc, before), events[|events| - 1]);
    }
  }
}
