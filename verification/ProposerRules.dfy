/** What each callback of a proposer does, stated by what goes in and what comes out rather
    than by how it is computed. */
module ProposerRules {
  import opened Proposals
  import opened Recorders
  import opened Arithmetic
  import P = Proposer

  /** The quorum is the least majority. */
  lemma {:induction false} QuorumIsLeastMajority(c: P.Config)
    ensures 2 * c.Quorum() > c.n >= 2 * (c.Quorum() - 1)
  {
  }

  // -------------------------------------------------------------------- beginning a step

  /** Beginning a step asks every recorder once, in id order, forgets the replies and retries
      of the step before, remembers what it sent, and arms one retry timer. */
  lemma {:induction false} BeginAsksEveryone(c: P.Config, st: P.State, draws: seq<nat>)
    requires |draws| == c.n
    ensures var o := P.BeginStep(c, st, draws);
            && o.Done? && |o.sends| == c.n && o.timers == [(20, P.Retry(st.step))]
            && (forall k: nat | k < c.n ::
                  k in o.st.sent && o.sends[k] == (k, Request(c.slot, st.step, o.st.sent[k])))
            && (forall k | k in o.st.sent :: k < c.n)
            && o.st.activated && o.st.responses == map[] && o.st.retries == 0
            && o.st.step == st.step && o.st.proposal == st.proposal && o.st.decided == st.decided
            && o.st.lastSeen == st.lastSeen
  {
  }

  /** In a phase 0 that is not the leader's first step, each recorder gets a draw of its own:
      the k-th request carries the k-th, and exactly one is taken per recorder. */
  lemma {:induction false} BeginDrawsForEach(c: P.Config, st: P.State, draws: seq<nat>)
    requires |draws| == c.n && st.step % 4 == 0 && !(st.step == 4 && c.leader == Some(c.selfId))
    ensures var o := P.BeginStep(c, st, draws);
            && o.Done? && |o.sends| == o.drawn == c.n
            && forall k: nat | k < c.n :: o.sends[k].1.proposal == Proposal(st.proposal.value, draws[k], c.selfId)
  {
  }

  /** The leader's first step sends the reserved priority, later phases the template, and
      neither draws. */
  lemma {:induction false} BeginWithoutDraws(c: P.Config, st: P.State, draws: seq<nat>)
    requires |draws| == c.n && (st.step % 4 != 0 || (st.step == 4 && c.leader == Some(c.selfId)))
    ensures var o := P.BeginStep(c, st, draws);
            && o.Done? && |o.sends| == c.n && o.drawn == 0
            && forall k: nat | k < c.n ::
                 o.sends[k].1.proposal == if st.step == 4 then Proposal(st.proposal.value, H, c.selfId) else st.proposal
  {
  }

  // ----------------------------------------------------------------------------- phases

  ghost predicate NamesFirst(st: P.State, p: Proposal) {
    exists r :: r in st.responses && st.responses[r].first == Some(p)
  }

  ghost predicate NamesPrior(st: P.State, p: Proposal) {
    exists r :: r in st.responses && st.responses[r].priorAgg == Some(p)
  }

  /** `p` is the best that some reply names as the first it recorded. */
  ghost predicate BestFirst(st: P.State, p: Proposal) {
    NamesFirst(st, p) && forall q :: NamesFirst(st, q) ==> Le(q, p)
  }

  ghost predicate BestPrior(st: P.State, p: Proposal) {
    NamesPrior(st, p) && forall q :: NamesPrior(st, q) ==> Le(q, p)
  }

  /** All replies name `p` first, and `p` has the reserved priority. */
  ghost predicate AllTop(st: P.State, p: Proposal) {
    p.priority == H && st.responses != map[] && forall r | r in st.responses :: st.responses[r].first == Some(p)
  }

  lemma {:induction false} FirstsAreNamed(st: P.State)
    ensures forall p :: p in P.Firsts(st.responses) <==> NamesFirst(st, p)
    ensures forall p :: p in P.PriorAggs(st.responses) <==> NamesPrior(st, p)
  {
    forall p | NamesFirst(st, p) ensures p in P.Firsts(st.responses) {
      var r :| r in st.responses && st.responses[r].first == Some(p);
    }
    forall p | NamesPrior(st, p) ensures p in P.PriorAggs(st.responses) {
      var r :| r in st.responses && st.responses[r].priorAgg == Some(p);
    }
  }

  /** Phase 0 decides exactly on a uniform quorum at the reserved priority; otherwise it adopts
      the best first value, and fails exactly when no reply names one. */
  lemma {:induction false} PhaseZeroRule(st: P.State)
    requires st.step % 4 == 0 && st.decided.None?
    ensures forall p | AllTop(st, p) :: P.ProcessPhase(st) == Some(st.(decided := Some(p.value)))
    ensures (forall p :: !AllTop(st, p)) ==>
              if exists p :: NamesFirst(st, p)
              then P.ProcessPhase(st).Some? && P.ProcessPhase(st).value == st.(proposal := P.ProcessPhase(st).value.proposal)
                   && BestFirst(st, P.ProcessPhase(st).value.proposal)
              else P.ProcessPhase(st).None?
  {
    hide Le;
    FirstsAreNamed(st);
    forall p | AllTop(st, p) ensures P.ProcessPhase(st) == Some(st.(decided := Some(p.value))) {
      assert P.UniformH(st.responses, p);
    }
    if forall p :: !AllTop(st, p) {
      assert forall p: Proposal :: P.UniformH(st.responses, p) ==> AllTop(st, p);
      assert P.FastPathValue(st.responses).None?;
    }
  }

  /** Phase 1 does nothing of its own. */
  lemma {:induction false} PhaseOneRule(st: P.State)
    requires st.step % 4 == 1
    ensures P.ProcessPhase(st) == Some(st)
  {
  }

  /** Phase 2 decides exactly when the template is the best gathered, and changes nothing
      otherwise. */
  lemma {:induction false} PhaseTwoRule(st: P.State)
    requires st.step % 4 == 2
    ensures P.ProcessPhase(st)
         == Some(if BestPrior(st, st.proposal) then st.(decided := Some(st.proposal.value)) else st)
  {
    FirstsAreNamed(st);
    if BestPrior(st, st.proposal) {
      var b := Best(P.PriorAggs(st.responses)).value;
      assert Le(b, st.proposal) && Le(st.proposal, b);
    }
  }

  /** Phase 3 adopts the best gathered, and fails exactly when nothing was gathered. */
  lemma {:induction false} PhaseThreeRule(st: P.State)
    requires st.step % 4 == 3
    ensures P.ProcessPhase(st).Some? <==> exists p :: NamesPrior(st, p)
    ensures P.ProcessPhase(st).Some? ==>
              P.ProcessPhase(st).value == st.(proposal := P.ProcessPhase(st).value.proposal)
              && BestPrior(st, P.ProcessPhase(st).value.proposal)
  {
    hide Le;
    FirstsAreNamed(st);
  }

  // ------------------------------------------------------------------------------ quorums

  /** A quorum at the proposer's own step ends in a decision, or in the next step begun. */
  lemma {:induction false} AdvanceRule(c: P.Config, st: P.State, draws: seq<nat>)
    requires |draws| == c.n && st.decided.None? && forall r | r in st.responses :: st.responses[r].step == st.step
    ensures var phase, o := P.ProcessPhase(st), P.ProcessQuorum(c, st, draws);
            && (phase.None? <==> o.Panic?)
            && (phase.Some? && phase.value.decided.Some? ==> o == P.Done(phase.value, [], [], 0))
            && (phase.Some? && phase.value.decided.None? ==>
                  o == P.BeginStep(c, phase.value.(step := st.step + 1), draws))
  {
    hide P.ProcessPhase, P.PreparedMap, P.PreparedSends;
    PhaseKeepsStep(st);
  }

  lemma {:induction false} PhaseKeepsStep(st: P.State)
    ensures P.ProcessPhase(st).Some? ==> P.ProcessPhase(st).value.step == st.step
  {
  }

  /** Reply `k` is from the step furthest ahead, and from the greatest id there. */
  ghost predicate IsFurthest(st: P.State, k: nat) {
    && k in st.responses
    && forall j | j in st.responses ::
         st.responses[j].step < st.responses[k].step || (st.responses[j].step == st.responses[k].step && j <= k)
  }

  /** A quorum that is not all at the proposer's step makes it catch up to the furthest reply,
      and fails exactly when that one is not ahead or names nothing. */
  lemma {:induction false} CatchUpRule(c: P.Config, st: P.State, draws: seq<nat>, k: nat)
    requires |draws| == c.n && IsFurthest(st, k)
    requires exists j :: j in st.responses && st.responses[j].step != st.step
    ensures var reply, o := st.responses[k], P.ProcessQuorum(c, st, draws);
            if reply.step > st.step && reply.first.Some?
            then o == P.BeginStep(c, st.(step := reply.step, proposal := reply.first.value), draws)
            else o.Panic?
  {
    hide P.BeginStep;
    var f := P.FurthestReply(st.responses);
    assert P.Furthest(st.responses, f);
    assert P.NotAhead(st.responses, k, f);
    assert f == k;
  }

  // ------------------------------------------------------------------------------ replies

  /** A reply that is late, foreign or superfluous changes nothing. */
  lemma {:induction false} ReplyIgnored(c: P.Config, st: P.State, from: nat, resp: Response, draws: seq<nat>)
    requires |draws| == c.n
    requires st.decided.Some? || resp.slot != c.slot || resp.reqStep != st.step
    ensures P.OnResponse(c, st, from, resp, draws) == P.Done(st, [], [], 0)
  {
  }

  /** The first reply of a recorder at this step counts, and only the first. */
  lemma {:induction false} FirstReplyCounts(c: P.Config, st: P.State, from: nat, resp: Response, draws: seq<nat>)
    requires |draws| == c.n && st.decided.None? && resp.slot == c.slot && resp.reqStep == st.step
    requires |st.responses| < c.Quorum()
    ensures var o := P.OnResponse(c, st, from, resp, draws);
            if from in st.responses then o == P.Done(st, [], [], 0)
            else
              var heard := st.(responses := st.responses[from := resp]);
              if |st.responses| + 1 < c.Quorum() then o == P.Done(heard, [], [], 0)
              else o == P.ProcessQuorum(c, heard, draws)
  {
    hide P.ProcessQuorum;
  }

  // ------------------------------------------------------------------------------- timers

  /** A kickoff takes an undecided proposer to step 4; it begins at once or waits out its
      activation delay, sending nothing. */
  lemma {:induction false} StartRule(c: P.Config, st: P.State, draws: seq<nat>)
    requires |draws| == c.n
    ensures var o := P.Start(c, st, draws);
            if st.decided.Some? then o == P.Done(st, [], [], 0)
            else if c.activationDelay > 0 then o == P.Done(st.(step := 4), [], [(c.activationDelay, P.Hedge)], 0)
            else o == P.BeginStep(c, st.(step := 4), draws)
  {
    hide P.BeginStep;
  }

  /** A hedge check defers exactly on a local step that is ahead and was not seen before. */
  lemma {:induction false} HedgeRule(c: P.Config, st: P.State, local: nat, draws: seq<nat>)
    requires |draws| == c.n && st.decided.None?
    ensures var o := P.HedgeCheck(c, st, Some(local), draws);
            if local > st.step && st.lastSeen != Some(local)
            then o == P.Done(st.(lastSeen := Some(local)), [], [(20, P.Hedge)], 0)
            else o == P.BeginStep(c, st, draws)
    ensures P.HedgeCheck(c, st, None, draws) == P.BeginStep(c, st, draws)
  {
    hide P.BeginStep;
  }

  ghost predicate Climbs(sends: P.Sends) {
    forall i, j | 0 <= i < j < |sends| :: sends[i].0 < sends[j].0
  }

  /** Every recorder below `upto` without a reply is named. */
  ghost predicate AllNamed(st: P.State, upto: nat, sends: P.Sends) {
    forall r: nat | r < upto && r !in st.responses :: Names(sends, r)
  }

  lemma {:induction false} ResendsNext(c: P.Config, st: P.State, r: nat)
    requires forall k | 0 <= k <= r && k !in st.responses :: k in st.sent
    ensures P.Resends(c, st, r + 1)
         == P.Resends(c, st, r)
            + if r in st.responses then [] else [(r, Request(c.slot, st.step, st.sent[r]))]
  {
  }

  lemma {:induction false} OneMoreNamed(st: P.State, r: nat, sends: P.Sends, more: P.Sends)
    requires AllNamed(st, r, sends) && (r !in st.responses ==> |more| == 1 && more[0].0 == r)
    ensures AllNamed(st, r + 1, sends + more)
  {
    forall k: nat | k < r + 1 && k !in st.responses ensures Names(sends + more, k) {
      if k < r {
        assert Names(sends, k);
        var i :| 0 <= i < |sends| && sends[i].0 == k;
        assert (sends + more)[i] == sends[i];
      } else {
        assert (sends + more)[|sends|].0 == r;
      }
    }
  }

  lemma {:induction false} OneMoreSent(c: P.Config, st: P.State, r: nat, sends: P.Sends, more: P.Sends)
    requires AllResends(c, st, r, sends) && Climbs(sends)
    requires more == [] || (r !in st.responses && r in st.sent && more == [(r, Request(c.slot, st.step, st.sent[r]))])
    ensures AllResends(c, st, r + 1, sends + more) && Climbs(sends + more)
  {
  }

  lemma {:induction false} ResendsInOrder(c: P.Config, st: P.State, upto: nat)
    requires forall r | 0 <= r < upto && r !in st.responses :: r in st.sent
    ensures var sends := P.Resends(c, st, upto);
            AllResends(c, st, upto, sends) && Climbs(sends) && AllNamed(st, upto, sends)
  {
    if upto == 0 {
    } else {
      hide AllNamed, AllResends, Climbs;
      var r := upto - 1;
      ResendsInOrder(c, st, r);
      ResendsNext(c, st, r);
      var more: P.Sends := if r in st.responses then [] else [(r, Request(c.slot, st.step, st.sent[r]))];
      OneMoreSent(c, st, r, P.Resends(c, st, r), more);
      OneMoreNamed(st, r, P.Resends(c, st, r), more);
    }
  }

  /** Every send repeats, to a recorder that has not replied, what it was sent before. */
  ghost predicate AllResends(c: P.Config, st: P.State, upto: nat, sends: P.Sends) {
    forall k | 0 <= k < |sends| ::
      && sends[k].0 < upto && sends[k].0 !in st.responses && sends[k].0 in st.sent
      && sends[k].1 == Request(c.slot, st.step, st.sent[sends[k].0])
  }

  ghost predicate Names(sends: P.Sends, r: nat) {
    exists k :: 0 <= k < |sends| && sends[k].0 == r
  }

  /** A retry timer that finds its step still short of a quorum sends each recorder that has
      not replied, once and in id order, exactly what that recorder was sent before, and arms
      the next retry. */
  lemma {:induction false} RetryAsksTheSilent(c: P.Config, st: P.State)
    requires st.decided.None? && st.activated && |st.responses| < c.Quorum()
    requires forall r: nat | r < c.n :: r in st.sent
    requires st.retries <= 0xFFFF_FFFF
    ensures var o := P.OnRetry(c, st, st.step);
            && o.Done? && o.st == st.(retries := o.st.retries) && o.drawn == 0
            && o.st.retries == (if st.retries < 0xFFFF_FFFF then st.retries + 1 else 0xFFFF_FFFF)
            && o.timers == [(P.RetryBackoffDelay(st.retries), P.Retry(st.step))]
            && AllResends(c, st, c.n, o.sends)
            && Climbs(o.sends) && AllNamed(st, c.n, o.sends)
  {
    hide P.Resends, P.RetryBackoffDelay;
    ResendsInOrder(c, st, c.n);
  }

  /** Any other retry timer does nothing. */
  lemma {:induction false} RetryIgnored(c: P.Config, st: P.State, s: nat)
    requires st.decided.Some? || !st.activated || s != st.step || |st.responses| >= c.Quorum()
    ensures P.OnRetry(c, st, s) == P.Done(st, [], [], 0)
  {
  }

  /** Backoff starts at 20 ticks, doubles six times, and stays there. */
  lemma {:induction false} BackoffDoubles(retries: nat)
    ensures P.RetryBackoffDelay(0) == 20
    ensures P.RetryBackoffDelay(retries + 1)
         == if retries < 6 then 2 * P.RetryBackoffDelay(retries) else P.RetryBackoffDelay(retries)
    ensures 20 <= P.RetryBackoffDelay(retries) <= 1280
  {
    assert PowerOfTwo(6) == 64;
    BackoffBound(P.Min(retries, 6));
  }

  lemma {:induction false} BackoffBound(k: nat)
    requires k <= 6
    ensures 1 <= PowerOfTwo(k) <= PowerOfTwo(6)
    decreases 6 - k
  {
    if k == 6 {
    } else {
      BackoffBound(k + 1);
    }
  }
}
