/** The active proposer: a threshold clock of four phases per round, run over recorder
    quorums. The functions say what each handler does to a proposer's state and what it
    sends; the class updates the same state in place. */
module Proposer {
  import opened Proposals
  import opened Recorders
  import opened Quorums
  import opened Arithmetic

  const FIRST_ROUND_STEP: nat := 4
  const RETRY_DELAY_TICKS: nat := 20
  const RETRY_BACKOFF_MAX_SHIFT: nat := 6
  const HEDGE_RECHECK_TICKS: nat := RETRY_DELAY_TICKS
  const MAX_U32: nat := 0xFFFF_FFFF

  /** What a proposer is built with. */
  datatype Config = Config(
    selfId: nat, n: nat, initial: int, leader: Option<nat>, slot: nat, activationDelay: nat)
  {
    function Quorum(): nat { n / 2 + 1 }

    predicate IsLeader() { leader == Some(selfId) }
  }

  /** What a proposer keeps. */
  datatype State = State(
    step: nat,
    proposal: Proposal,
    decided: Option<int>,
    responses: map<nat, Response>,
    sent: map<nat, Proposal>,
    retries: nat,
    lastSeen: Option<nat>,
    activated: bool)

  datatype TimerId = Kickoff | Hedge | Retry(step: nat)

  type Sends = seq<(nat, Request)>

  /** What one callback does: the new state, the requests it sends, the timers it arms and
      the number of priorities it draws; or a failed `expect`. */
  datatype Outcome =
    | Panic
    | Done(st: State, sends: Sends, timers: seq<(nat, TimerId)>, drawn: nat)

  function Fresh(c: Config): State {
    State(0, Proposal(c.initial, H, c.selfId), None, map[], map[], 0, None, false)
  }

  predicate DrawsOk(c: Config, draws: seq<nat>) {
    |draws| == c.n && forall k | 0 <= k < |draws| :: 1 <= draws[k] < H
  }

  function Min(a: nat, b: nat): nat { if a <= b then a else b }

  function RetryBackoffDelay(retries: nat): nat {
    RETRY_DELAY_TICKS * PowerOfTwo(Min(retries, RETRY_BACKOFF_MAX_SHIFT))
  }

  // ------------------------------------------------------------------- beginning a step

  predicate FastPathRound(c: Config, st: State) {
    st.step == FIRST_ROUND_STEP && c.IsLeader()
  }

  predicate Randomises(c: Config, st: State) {
    st.step % 4 == 0 && !FastPathRound(c, st)
  }

  /** The proposal for one recorder: the reserved priority for the leader's first step, an
      independent draw in every other phase 0, the template unchanged otherwise. */
  function Prepared(c: Config, st: State, draws: seq<nat>, r: nat): Proposal
    requires |draws| == c.n && r < c.n
  {
    if FastPathRound(c, st) then Proposal(st.proposal.value, H, c.selfId)
    else if st.step % 4 == 0 then Proposal(st.proposal.value, draws[r], c.selfId)
    else st.proposal
  }

  function PreparedMap(c: Config, st: State, draws: seq<nat>, upto: nat): map<nat, Proposal>
    requires |draws| == c.n && upto <= c.n
  {
    map r: nat | 0 <= r < upto :: Prepared(c, st, draws, r)
  }

  function PreparedSends(c: Config, st: State, draws: seq<nat>, upto: nat): Sends
    requires |draws| == c.n && upto <= c.n
  {
    seq(upto, r requires 0 <= r < upto => (r, Request(c.slot, st.step, Prepared(c, st, draws, r))))
  }

  function BeginStep(c: Config, st: State, draws: seq<nat>): Outcome
    requires |draws| == c.n
  {
    Done(st.(activated := true, responses := map[], retries := 0,
             sent := PreparedMap(c, st, draws, c.n)),
         PreparedSends(c, st, draws, c.n),
         [(RETRY_DELAY_TICKS, Retry(st.step))],
         if Randomises(c, st) then c.n else 0)
  }

  // ------------------------------------------------------------------ reading a quorum

  function Firsts(responses: map<nat, Response>): set<Proposal> {
    set r | r in responses && responses[r].first.Some? :: responses[r].first.value
  }

  function PriorAggs(responses: map<nat, Response>): set<Proposal> {
    set r | r in responses && responses[r].priorAgg.Some? :: responses[r].priorAgg.value
  }

  /** The phase-0 fast path: the value of the one proposal at the reserved priority that
      every reply names as the first it recorded. */
  function FastPathValue(responses: map<nat, Response>): (v: Option<int>)
    ensures v.Some? <==> exists p: Proposal :: UniformH(responses, p)
    ensures forall p: Proposal | UniformH(responses, p) :: v == Some(p.value)
  {
    if |responses| == 0 then None
    else
      assert responses.Keys != {};
      var k := Minimum(responses.Keys);
      assert forall p: Proposal :: UniformH(responses, p) ==> responses[k].first == Some(p);
      if responses[k].first.None? then None
      else
        var p := responses[k].first.value;
        if p.priority == H && forall j | j in responses :: responses[j].first == Some(p)
        then assert UniformH(responses, p); Some(p.value)
        else None
  }

  ghost predicate UniformH(responses: map<nat, Response>, p: Proposal) {
    |responses| != 0 && p.priority == H && forall j | j in responses :: responses[j].first == Some(p)
  }

  /** Reply order for catch-up: by reported step, ties broken by recorder id. */
  predicate NotAhead(responses: map<nat, Response>, a: nat, b: nat)
    requires a in responses && b in responses
  {
    || responses[a].step < responses[b].step
    || (responses[a].step == responses[b].step && a <= b)
  }

  ghost predicate Furthest(responses: map<nat, Response>, k: nat) {
    k in responses && forall j | j in responses :: NotAhead(responses, j, k)
  }

  ghost predicate FurthestIn(responses: map<nat, Response>, keys: set<nat>, k: nat)
    requires keys <= responses.Keys
  {
    k in keys && forall j | j in keys :: NotAhead(responses, j, k)
  }

  lemma {:induction false} FurthestExists(responses: map<nat, Response>, keys: set<nat>)
    requires keys != {} && keys <= responses.Keys
    ensures exists k :: FurthestIn(responses, keys, k)
    decreases |keys|
  {
    var x :| x in keys;
    var rest := keys - {x};
    if rest == {} {
      assert keys == {x};
      assert FurthestIn(responses, keys, x);
    } else {
      FurthestExists(responses, rest);
      var m :| FurthestIn(responses, rest, m);
      assert forall j :: j in keys <==> j in rest || j == x;
      if NotAhead(responses, x, m) {
        assert FurthestIn(responses, keys, m);
      } else {
        assert FurthestIn(responses, keys, x);
      }
    }
  }

  /** The reply a lagging proposer catches up to. */
  function FurthestReply(responses: map<nat, Response>): (k: nat)
    requires responses != map[]
    ensures Furthest(responses, k)
  {
    assert responses.Keys != {} by { var x :| x in responses; }
    FurthestExists(responses, responses.Keys);
    assert exists k :: k in responses && forall j | j in responses :: NotAhead(responses, j, k) by {
      var k :| FurthestIn(responses, responses.Keys, k);
    }
    var k :| k in responses && forall j | j in responses :: NotAhead(responses, j, k);
    k
  }

  predicate AllAtStep(st: State) {
    forall r | r in st.responses :: st.responses[r].step == st.step
  }

  /** The phase's own work on an all-at-step quorum; nothing when an `expect` fails. */
  function ProcessPhase(st: State): Option<State> {
    if st.step % 4 == 0 then
      match FastPathValue(st.responses)
      case Some(v) => Some(st.(decided := Some(v)))
      case None =>
        match Best(Firsts(st.responses))
        case Some(p) => Some(st.(proposal := p))
        case None => None
    else if st.step % 4 == 1 then Some(st)
    else if st.step % 4 == 2 then
      if Best(PriorAggs(st.responses)) == Some(st.proposal)
      then Some(st.(decided := Some(st.proposal.value)))
      else Some(st)
    else
      match Best(PriorAggs(st.responses))
      case Some(p) => Some(st.(proposal := p))
      case None => None
  }

  function ProcessQuorum(c: Config, st: State, draws: seq<nat>): Outcome
    requires |draws| == c.n
  {
    if AllAtStep(st) then
      match ProcessPhase(st)
      case None => Panic
      case Some(st') =>
        if st'.decided.Some? then Done(st', [], [], 0)
        else BeginStep(c, st'.(step := st'.step + 1), draws)
    else
      assert st.responses != map[];
      var k := FurthestReply(st.responses);
      var reply := st.responses[k];
      if reply.step <= st.step || reply.first.None? then Panic
      else BeginStep(c, st.(step := reply.step, proposal := reply.first.value), draws)
  }

  function Admit(st: State, from: nat, resp: Response): State {
    if from in st.responses then st else st.(responses := st.responses[from := resp])
  }

  function OnResponse(c: Config, st: State, from: nat, resp: Response, draws: seq<nat>): Outcome
    requires |draws| == c.n
  {
    if st.decided.Some? || resp.slot != c.slot || resp.reqStep != st.step then Done(st, [], [], 0)
    else
      var st' := Admit(st, from, resp);
      if |st'.responses| >= c.Quorum() then ProcessQuorum(c, st', draws) else Done(st', [], [], 0)
  }

  // ------------------------------------------------------------------------------ timers

  function Start(c: Config, st: State, draws: seq<nat>): Outcome
    requires |draws| == c.n
  {
    if st.decided.Some? then Done(st, [], [], 0)
    else
      var st' := st.(step := FIRST_ROUND_STEP);
      if c.activationDelay == 0 then BeginStep(c, st', draws)
      else Done(st', [], [(c.activationDelay, Hedge)], 0)
  }

  predicate FreshProgress(st: State, local: Option<nat>) {
    local.Some? && local.value > st.step && local != st.lastSeen
  }

  function HedgeCheck(c: Config, st: State, local: Option<nat>, draws: seq<nat>): Outcome
    requires |draws| == c.n
  {
    if st.decided.Some? then Done(st, [], [], 0)
    else if FreshProgress(st, local) then
      Done(st.(lastSeen := local), [], [(HEDGE_RECHECK_TICKS, Hedge)], 0)
    else BeginStep(c, st, draws)
  }

  /** Resends to every recorder below `upto` that has not replied. */
  function Resends(c: Config, st: State, upto: nat): Sends
    requires forall r | 0 <= r < upto && r !in st.responses :: r in st.sent
  {
    if upto == 0 then []
    else
      Resends(c, st, upto - 1)
      + if upto - 1 in st.responses then []
        else [(upto - 1, Request(c.slot, st.step, st.sent[upto - 1]))]
  }

  function OnRetry(c: Config, st: State, s: nat): Outcome {
    if st.decided.Some? || !st.activated || s != st.step || |st.responses| >= c.Quorum() then
      Done(st, [], [], 0)
    else if exists r | 0 <= r < c.n :: r !in st.responses && r !in st.sent then Panic
    else
      Done(st.(retries := Min(st.retries + 1, MAX_U32)),
           Resends(c, st, c.n),
           [(RetryBackoffDelay(st.retries), Retry(st.step))], 0)
  }

  function OnTimer(c: Config, st: State, id: TimerId, local: Option<nat>, draws: seq<nat>): Outcome
    requires |draws| == c.n
  {
    match id
    case Kickoff => Start(c, st, draws)
    case Hedge => HedgeCheck(c, st, local, draws)
    case Retry(s) => OnRetry(c, st, s)
  }
}
