/** Bounded hedging: a hedged proposer defers only while the recorder beside it keeps moving,
    so it activates once, after no more deferrals than that recorder has taken steps. */
module Hedging {
  import opened Proposals
  import opened Recorders
  import opened Concrete
  import opened Facts
  import opened Invariant
  import opened Preservation
  import opened ProposerRules
  import P = Proposer

  /** In state `s` the action makes the hedge timer of proposer `a` go off. */
  predicate Fires(c: Config, s: Sys, act: Action, a: nat) {
    !s.panicked && Enabled(c, s, act) && act.HedgeFires? && act.a == a
  }

  /** How often the hedge timer of `a` has gone off along a schedule. */
  function Firings(c: Config, acts: seq<Action>, a: nat): nat {
    if acts == [] then 0
    else
      var before, act := acts[..|acts| - 1], acts[|acts| - 1];
      Firings(c, before, a) + if Fires(c, Exec(c, before), act, a) then 1 else 0
  }

  /** How often it went off and left the proposer waiting. */
  function Deferrals(c: Config, acts: seq<Action>, a: nat): nat
    requires a < |c.proposers|
  {
    if acts == [] then 0
    else
      var before, act := acts[..|acts| - 1], acts[|acts| - 1];
      Deferrals(c, before, a)
      + if Fires(c, Exec(c, before), act, a) && !Exec(c, acts).proposers[a].activated then 1 else 0
  }

  /** Every hedge check of `a` reads the current step of recorder `r`. */
  ghost predicate Wired(c: Config, acts: seq<Action>, a: nat, r: nat)
    requires r < c.n
  {
    forall k | 0 <= k < |acts| && acts[k].HedgeFires? && acts[k].a == a ::
      acts[k].local == Some(Exec(c, acts[..k]).recorders[r].step)
  }

  lemma {:induction false} WiredBefore(c: Config, acts: seq<Action>, a: nat, r: nat)
    requires r < c.n && acts != [] && Wired(c, acts, a, r)
    ensures var before, act := acts[..|acts| - 1], acts[|acts| - 1];
            && Wired(c, before, a, r)
            && (act.HedgeFires? && act.a == a ==> act.local == Some(Exec(c, before).recorders[r].step))
  {
    var before := acts[..|acts| - 1];
    forall k | 0 <= k < |before| && before[k].HedgeFires? && before[k].a == a
      ensures before[k].local == Some(Exec(c, before[..k]).recorders[r].step)
    {
      assert acts[k] == before[k] && acts[..k] == before[..k];
    }
  }

  /** What the hedge timer's history and the proposer's state say of each other. */
  ghost predicate HedgeOk(c: Config, s: Sys, a: nat, r: nat, firings: nat, deferrals: nat)
    requires Shaped(c, s) && a < |c.proposers| && r < c.n
  {
    var st := s.proposers[a];
    && (if deferrals == 0 then st.lastSeen.None?
        else st.lastSeen.Some? && 4 + deferrals <= st.lastSeen.value <= s.recorders[r].step)
    && deferrals <= firings <= deferrals + 1
    && (firings > deferrals ==> st.activated)
    && (s.kicks[a] > 0 && !st.activated ==> s.hedge[a])
  }

  lemma {:induction false} HandleMovesOn(c: Config, s: Sys, m: Msg, r: nat)
    requires Shaped(c, s) && r < c.n
    ensures Step(c, s, Handle(m)).recorders[r].step >= s.recorders[r].step
  {
  }

  lemma {:induction false} ProposerShape(c: Config, s: Sys, h: Histories, a: nat)
    requires Inv(c, s, h) && a < |c.proposers|
    ensures Shaped(c, s) && !s.panicked
    ensures var st := s.proposers[a];
            && (s.hedge[a] ==> !st.activated && st.decided.None? && st.step == 4 && s.kicks[a] > 0)
            && (s.kicks[a] == 0 ==> !s.hedge[a] && st.decided.None?)
            && (s.kicks[a] > 0 && st.decided.Some? ==> st.activated)
  {
    assert ProposerOk(c, h, s.net, a, s.proposers[a], s.hedge[a], s.kicks[a]);
  }

  lemma {:induction false} PhaseKeepsSeen(st: P.State)
    ensures var p := P.ProcessPhase(st);
            p.Some? ==> p.value == st.(proposal := p.value.proposal, decided := p.value.decided)
  {
  }

  lemma {:induction false} QuorumKeepsSeen(pc: P.Config, st: P.State, draws: seq<nat>)
    requires |draws| == pc.n
    ensures var o := P.ProcessQuorum(pc, st, draws);
            o.Done? ==> o.st.lastSeen == st.lastSeen && (st.activated ==> o.st.activated) && !ArmsHedge(o.timers)
  {
    hide P.ProcessPhase, P.PreparedMap, P.PreparedSends;
    PhaseKeepsSeen(st);
  }

  /** Replies leave the hedge's own memory alone. */
  lemma {:induction false} DeliverKeepsSeen(pc: P.Config, st: P.State, from: nat, resp: Response, draws: seq<nat>)
    requires |draws| == pc.n
    ensures var o := P.OnResponse(pc, st, from, resp, draws);
            o.Done? ==> o.st.lastSeen == st.lastSeen && (st.activated ==> o.st.activated) && !ArmsHedge(o.timers)
  {
    hide P.ProcessQuorum;
    QuorumKeepsSeen(pc, P.Admit(st, from, resp), draws);
  }

  lemma {:induction false} ArmedHere(after: nat)
    ensures ArmsHedge([(after, P.Hedge)])
  {
    assert [(after, P.Hedge)][0].1 == P.Hedge;
  }

  lemma {:induction false} HedgeHandle(c: Config, s: Sys, m: Msg, a: nat, r: nat, f: nat, d: nat)
    requires Shaped(c, s) && a < |c.proposers| && r < c.n && HedgeOk(c, s, a, r, f, d)
    ensures HedgeOk(c, Step(c, s, Handle(m)), a, r, f, d)
  {
    HandleMovesOn(c, s, m, r);
    var s' := Step(c, s, Handle(m));
    assert s'.proposers == s.proposers && s'.hedge == s.hedge && s'.kicks == s.kicks;
  }

  lemma {:induction false} HedgeDeliver(c: Config, s: Sys, m: Msg, draws: seq<nat>, a: nat, r: nat, f: nat, d: nat)
    requires Shaped(c, s) && a < |c.proposers| && r < c.n && HedgeOk(c, s, a, r, f, d)
    requires Enabled(c, s, Deliver(m, draws))
    ensures HedgeOk(c, Step(c, s, Deliver(m, draws)), a, r, f, d)
  {
    DeliverKeepsSeen(c.proposers[m.dst], s.proposers[m.dst], m.src, m.resp, draws);
    hide P.OnResponse;
    var s' := Step(c, s, Deliver(m, draws));
    assert s'.recorders == s.recorders && s'.kicks == s.kicks;
  }

  lemma {:induction false} HedgeKick(c: Config, s: Sys, b: nat, draws: seq<nat>, a: nat, r: nat, f: nat, d: nat)
    requires Shaped(c, s) && a < |c.proposers| && r < c.n && HedgeOk(c, s, a, r, f, d)
    requires Enabled(c, s, Kick(b, draws)) && s.kicks[b] == 0 && s.proposers[b].decided.None?
    ensures HedgeOk(c, Step(c, s, Kick(b, draws)), a, r, f, d)
  {
    ArmedHere(c.proposers[b].activationDelay);
    var s' := Step(c, s, Kick(b, draws));
    assert s'.recorders == s.recorders;
  }

  lemma {:induction false} HedgeFired(c: Config, s: Sys, b: nat, local: Option<nat>, draws: seq<nat>, a: nat, r: nat, f: nat, d: nat)
    requires Shaped(c, s) && !s.panicked && a < |c.proposers| && r < c.n && HedgeOk(c, s, a, r, f, d)
    requires Enabled(c, s, HedgeFires(b, local, draws))
    requires b == a ==> local == Some(s.recorders[r].step)
    requires var st := s.proposers[b]; !st.activated && st.decided.None? && st.step == 4
    ensures var s' := Step(c, s, HedgeFires(b, local, draws));
            HedgeOk(c, s', a, r, if a == b then f + 1 else f,
                    if a == b && !s'.proposers[a].activated then d + 1 else d)
  {
    ArmedHere(P.HEDGE_RECHECK_TICKS);
    var s' := Step(c, s, HedgeFires(b, local, draws));
    assert s'.recorders == s.recorders && s'.kicks == s.kicks;
  }

  lemma {:induction false} HedgeRetry(c: Config, s: Sys, b: nat, step: nat, a: nat, r: nat, f: nat, d: nat)
    requires Shaped(c, s) && a < |c.proposers| && r < c.n && HedgeOk(c, s, a, r, f, d)
    ensures HedgeOk(c, Step(c, s, RetryFires(b, step)), a, r, f, d)
  {
    var s' := Step(c, s, RetryFires(b, step));
    assert s'.recorders == s.recorders && s'.kicks == s.kicks;
  }

  lemma {:induction false} HedgeKicked(c: Config, s: Sys, h: Histories, b: nat, draws: seq<nat>, a: nat, r: nat, f: nat, d: nat)
    requires Inv(c, s, h) && Shaped(c, s) && a < |c.proposers| && r < c.n && HedgeOk(c, s, a, r, f, d)
    requires Enabled(c, s, Kick(b, draws)) && StartedOnce(Step(c, s, Kick(b, draws)))
    ensures HedgeOk(c, Step(c, s, Kick(b, draws)), a, r, f, d)
  {
    hide Inv, HedgeOk, Step, StartedOnce;
    InvShape(c, s, h);
    if s.proposers[b].decided.Some? {
      DecidedIgnoresKick(c, s, b, draws);
    } else {
      KickedFirst(c, s, b, draws);
      HedgeKick(c, s, b, draws, a, r, f, d);
    }
  }

  lemma {:induction false} HedgeStep(c: Config, s: Sys, h: Histories, act: Action, a: nat, r: nat, f: nat, d: nat)
    requires Inv(c, s, h) && a < |c.proposers| && r < c.n
    requires HedgeOk(c, s, a, r, f, d) && StartedOnce(Step(c, s, act))
    requires act.HedgeFires? && act.a == a ==> act.local == Some(s.recorders[r].step)
    ensures var s' := Step(c, s, act);
            HedgeOk(c, s', a, r, if Fires(c, s, act, a) then f + 1 else f,
                    if Fires(c, s, act, a) && !s'.proposers[a].activated then d + 1 else d)
  {
    hide Inv, HedgeOk, Step, StartedOnce;
    InvShape(c, s, h);
    if !Enabled(c, s, act) {
      DisabledChangesNothing(c, s, act);
    } else {
      match act
      case Handle(m) => HedgeHandle(c, s, m, a, r, f, d);
      case Deliver(m, draws) => HedgeDeliver(c, s, m, draws, a, r, f, d);
      case Kick(b, draws) => HedgeKicked(c, s, h, b, draws, a, r, f, d);
      case HedgeFires(b, local, draws) =>
        ProposerShape(c, s, h, b);
        HedgeFired(c, s, b, local, draws, a, r, f, d);
      case RetryFires(b, step) => HedgeRetry(c, s, b, step, a, r, f, d);
    }
  }

  lemma {:induction false} HedgeReachable(c: Config, acts: seq<Action>, a: nat, r: nat)
    requires WellFormed(c) && StartedOnce(Exec(c, acts)) && a < |c.proposers| && r < c.n && Wired(c, acts, a, r)
    ensures HedgeOk(c, Exec(c, acts), a, r, Firings(c, acts, a), Deferrals(c, acts, a))
  {
    if acts == [] {
    } else {
      var before, act := acts[..|acts| - 1], acts[|acts| - 1];
      KicksGrow(c, Exec(c, before), act);
      WiredBefore(c, acts, a, r);
      Reachable(c, before);
      HedgeReachable(c, before, a, r);
      HedgeStep(c, Exec(c, before), HistoriesOf(c, before), act, a, r, Firings(c, before, a), Deferrals(c, before, a));
    }
  }

  /** Bounded hedging, whatever the activation delay: each deferral is paid for by a step of
      the co-located recorder, the timer goes off at most once more than it defers, and a
      started proposer that is still waiting always has the timer armed. */
  lemma {:induction false} HedgingIsBounded(c: Config, acts: seq<Action>, a: nat, r: nat)
    requires WellFormed(c) && StartedOnce(Exec(c, acts)) && a < |c.proposers| && r < c.n && Wired(c, acts, a, r)
    ensures var s, deferrals := Exec(c, acts), Deferrals(c, acts, a);
            && (deferrals > 0 ==> 4 + deferrals <= s.recorders[r].step)
            && (if s.proposers[a].activated then Firings(c, acts, a) <= deferrals + 1
                else Firings(c, acts, a) == deferrals)
            && (s.kicks[a] > 0 && !s.proposers[a].activated ==> s.hedge[a])
  {
    HedgeReachable(c, acts, a, r);
  }

  /** Once active, a proposer is never hedged again. */
  lemma {:induction false} ActivatedForGood(c: Config, acts: seq<Action>, act: Action, a: nat)
    requires WellFormed(c) && StartedOnce(Exec(c, acts + [act])) && a < |c.proposers|
    requires Exec(c, acts).proposers[a].activated
    ensures var s := Exec(c, acts + [act]);
            s.proposers[a].activated && !s.hedge[a] && !Fires(c, Exec(c, acts), act, a)
  {
    var s, h := Exec(c, acts), HistoriesOf(c, acts);
    assert (acts + [act])[..|acts|] == acts;
    KicksGrow(c, s, act);
    Reachable(c, acts);
    Reachable(c, acts + [act]);
    ProposerShape(c, s, h, a);
    ProposerShape(c, Exec(c, acts + [act]), HistoriesOf(c, acts + [act]), a);
    hide Inv, Exec;
    StaysActive(c, s, h, act, a);
  }

  lemma {:induction false} StaysActive(c: Config, s: Sys, h: Histories, act: Action, a: nat)
    requires Shaped(c, s) && a < |c.proposers| && s.proposers[a].activated
    ensures Step(c, s, act).proposers[a].activated
  {
    hide P.PreparedMap, P.PreparedSends, P.Resends;
  }

  // --------------------------------------------------------------- exactly when it defers

  /** What the previous hedge check of `a`, if there was one, read from recorder `r`. */
  function CheckedAt(c: Config, acts: seq<Action>, a: nat, r: nat): Option<nat>
    requires r < c.n
  {
    if acts == [] then None
    else
      var before, act := acts[..|acts| - 1], acts[|acts| - 1];
      if Fires(c, Exec(c, before), act, a) then Some(Exec(c, before).recorders[r].step)
      else CheckedAt(c, before, a, r)
  }

  /** While it waits, the proposer remembers exactly its previous check. */
  ghost predicate Remembers(c: Config, s: Sys, a: nat, seen: Option<nat>) {
    && a < |s.proposers|
    && (!s.proposers[a].activated ==> s.proposers[a].lastSeen == seen)
  }

  lemma {:induction false} FiredRemembers(c: Config, s: Sys, act: Action, a: nat, r: nat, seen: Option<nat>)
    requires Shaped(c, s) && r < c.n && Fires(c, s, act, a) && act.local == Some(s.recorders[r].step)
    requires var st := s.proposers[a]; !st.activated && st.decided.None? && st.step == 4
    requires Remembers(c, s, a, seen)
    ensures var s' := Step(c, s, act);
            && Remembers(c, s', a, Some(s.recorders[r].step))
            && (!s'.proposers[a].activated <==> s.recorders[r].step > 4 && seen != Some(s.recorders[r].step))
  {
    HedgeRule(c.proposers[a], s.proposers[a], s.recorders[r].step, act.draws);
    BeginAsksEveryone(c.proposers[a], s.proposers[a], act.draws);
    hide P.BeginStep;
  }

  lemma {:induction false} DeliverElsewhere(c: Config, s: Sys, m: Msg, draws: seq<nat>, a: nat)
    requires Shaped(c, s) && a < |c.proposers| && m.dst != a
    ensures Step(c, s, Deliver(m, draws)).proposers[a] == s.proposers[a]
  {
    hide P.OnResponse;
  }

  /** Nothing but its own hedge check changes what a waiting proposer remembers. */
  lemma {:induction false} OthersLeaveMemory(c: Config, s: Sys, h: Histories, act: Action, a: nat, seen: Option<nat>)
    requires Inv(c, s, h) && a < |c.proposers| && Remembers(c, s, a, seen)
    requires !Fires(c, s, act, a)
    ensures Remembers(c, Step(c, s, act), a, seen)
    ensures Shaped(c, s) && (!s.proposers[a].activated && c.proposers[a].activationDelay > 0 ==> !Step(c, s, act).proposers[a].activated)
  {
    hide Inv, Step, Fires;
    InvShape(c, s, h);
    if s.proposers[a].activated {
      StaysActive(c, s, h, act, a);
    } else if !act.Deliver? {
      StaysActiveOrSame(c, s, act, a);
    } else if Enabled(c, s, act) {
      RepliedIsActive(c, s, h, act.m);
      DeliverElsewhere(c, s, act.m, act.draws, a);
    } else {
      DisabledChangesNothing(c, s, act);
    }
  }

  lemma {:induction false} StaysActiveOrSame(c: Config, s: Sys, act: Action, a: nat)
    requires Shaped(c, s) && a < |c.proposers| && !s.proposers[a].activated && !act.Deliver? && !Fires(c, s, act, a)
    ensures var st, st' := s.proposers[a], Step(c, s, act).proposers[a];
            st'.activated || st'.lastSeen == st.lastSeen
    ensures c.proposers[a].activationDelay > 0 ==> !Step(c, s, act).proposers[a].activated
  {
    hide P.PreparedMap, P.PreparedSends, P.Resends;
  }

  lemma {:induction false} MemoryReachable(c: Config, acts: seq<Action>, a: nat, r: nat)
    requires WellFormed(c) && StartedOnce(Exec(c, acts)) && a < |c.proposers| && r < c.n && Wired(c, acts, a, r)
    ensures Remembers(c, Exec(c, acts), a, CheckedAt(c, acts, a, r))
  {
    if acts == [] {
    } else {
      hide Step, Inv, Remembers, Wired, StartedOnce;
      var before, act := acts[..|acts| - 1], acts[|acts| - 1];
      var s, h := Exec(c, before), HistoriesOf(c, before);
      KicksGrow(c, s, act);
      WiredBefore(c, acts, a, r);
      Reachable(c, before);
      MemoryReachable(c, before, a, r);
      if Fires(c, s, act, a) {
        ProposerShape(c, s, h, a);
        FiredRemembers(c, s, act, a, r, CheckedAt(c, before, a, r));
      } else {
        OthersLeaveMemory(c, s, h, act, a, CheckedAt(c, before, a, r));
      }
    }
  }

  /** A hedge check leaves the proposer waiting exactly when the co-located recorder is past
      the first step and has moved since the previous check. */
  lemma {:induction false} DefersExactlyOnProgress(c: Config, acts: seq<Action>, act: Action, a: nat, r: nat)
    requires WellFormed(c) && StartedOnce(Exec(c, acts + [act])) && a < |c.proposers| && r < c.n
    requires Wired(c, acts + [act], a, r) && Fires(c, Exec(c, acts), act, a)
    ensures !Exec(c, acts + [act]).proposers[a].activated
       <==> Exec(c, acts).recorders[r].step > 4 && CheckedAt(c, acts, a, r) != Some(Exec(c, acts).recorders[r].step)
  {
    hide Step, Inv, Remembers, Wired, StartedOnce;
    var s, h := Exec(c, acts), HistoriesOf(c, acts);
    assert (acts + [act])[..|acts|] == acts;
    WiredBefore(c, acts + [act], a, r);
    KicksGrow(c, s, act);
    Reachable(c, acts);
    MemoryReachable(c, acts, a, r);
    ProposerShape(c, s, h, a);
    FiredRemembers(c, s, act, a, r, CheckedAt(c, acts, a, r));
  }

  /** At every hedge check of `a`, recorder `r` is past the first step and has moved since the
      previous check. */
  ghost predicate KeepsMoving(c: Config, acts: seq<Action>, a: nat, r: nat)
    requires r < c.n
  {
    forall k | 0 <= k < |acts| && Fires(c, Exec(c, acts[..k]), acts[k], a) ::
      Exec(c, acts[..k]).recorders[r].step > 4
      && CheckedAt(c, acts[..k], a, r) != Some(Exec(c, acts[..k]).recorders[r].step)
  }

  lemma {:induction false} MovedBefore(c: Config, acts: seq<Action>, a: nat, r: nat)
    requires r < c.n && acts != [] && KeepsMoving(c, acts, a, r)
    ensures KeepsMoving(c, acts[..|acts| - 1], a, r)
    ensures var before, act := acts[..|acts| - 1], acts[|acts| - 1];
            Fires(c, Exec(c, before), act, a) ==>
              Exec(c, before).recorders[r].step > 4 && CheckedAt(c, before, a, r) != Some(Exec(c, before).recorders[r].step)
  {
    hide Exec, Fires, CheckedAt;
    var before := acts[..|acts| - 1];
    forall k | 0 <= k < |before| && Fires(c, Exec(c, before[..k]), before[k], a)
      ensures Exec(c, before[..k]).recorders[r].step > 4
      ensures CheckedAt(c, before[..k], a, r) != Some(Exec(c, before[..k]).recorders[r].step)
    {
      assert acts[k] == before[k] && acts[..k] == before[..k];
    }
  }

  lemma {:induction false} CountsNext(c: Config, acts: seq<Action>, a: nat)
    requires acts != [] && a < |c.proposers|
    ensures var before, fires := acts[..|acts| - 1], Fires(c, Exec(c, acts[..|acts| - 1]), acts[|acts| - 1], a);
            && Firings(c, acts, a) == Firings(c, before, a) + (if fires then 1 else 0)
            && Deferrals(c, acts, a)
               == Deferrals(c, before, a) + if fires && !Exec(c, acts).proposers[a].activated then 1 else 0
  {
    hide Exec, Fires;
  }

  lemma {:induction false} WaitsOnce(c: Config, acts: seq<Action>, a: nat, r: nat)
    requires WellFormed(c) && acts != [] && StartedOnce(Exec(c, acts)) && a < |c.proposers| && r < c.n
    requires Wired(c, acts, a, r) && KeepsMoving(c, acts, a, r) && c.proposers[a].activationDelay > 0
    requires !Exec(c, acts[..|acts| - 1]).proposers[a].activated
    ensures !Exec(c, acts).proposers[a].activated
  {
    hide Step, Inv, Remembers, Wired, StartedOnce, KeepsMoving, CheckedAt, Fires;
    var before, act := acts[..|acts| - 1], acts[|acts| - 1];
    var s, h := Exec(c, before), HistoriesOf(c, before);
    KicksGrow(c, s, act);
    if Fires(c, s, act, a) {
      MovedBefore(c, acts, a, r);
      assert before + [act] == acts;
      DefersExactlyOnProgress(c, before, act, a, r);
    } else {
      Reachable(c, before);
      WiredBefore(c, acts, a, r);
      MemoryReachable(c, before, a, r);
      OthersLeaveMemory(c, s, h, act, a, CheckedAt(c, before, a, r));
    }
  }

  /** So as long as the recorder moves between every two checks, a hedged proposer waits,
      however long that is, and every firing is a deferral. */
  lemma {:induction false} WaitsOutProgress(c: Config, acts: seq<Action>, a: nat, r: nat)
    requires WellFormed(c) && StartedOnce(Exec(c, acts)) && a < |c.proposers| && r < c.n
    requires Wired(c, acts, a, r) && KeepsMoving(c, acts, a, r) && c.proposers[a].activationDelay > 0
    ensures !Exec(c, acts).proposers[a].activated && Firings(c, acts, a) == Deferrals(c, acts, a)
  {
    if acts == [] {
    } else {
      hide Step, Wired, StartedOnce, KeepsMoving, Firings, Deferrals, Fires;
      var before := acts[..|acts| - 1];
      KicksGrow(c, Exec(c, before), acts[|acts| - 1]);
      WiredBefore(c, acts, a, r);
      MovedBefore(c, acts, a, r);
      WaitsOutProgress(c, before, a, r);
      WaitsOnce(c, acts, a, r);
      CountsNext(c, acts, a);
    }
  }
}
