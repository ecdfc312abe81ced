/** A deployment: hosts that batch, persist and release, each with its own files, around the
    proposers of one slot. Every turn of a host is a few moves of the crash-restart cluster, so
    what is proved of the cluster holds of the deployment. */
module Deployment {
  import opened Proposals
  import opened Recorders
  import opened Persist
  import opened Host
  import opened Concrete
  import opened Safety
  import opened CrashRestart
  import P = Proposer

  // ---------------------------------------------------- one slot's share of a host's work

  /** The requests for the slot among a host's events, as messages to recorder `r`. */
  function Mine(slot: nat, r: nat, events: seq<Event>): (batch: seq<Msg>)
    ensures Requested(r, batch)
  {
    if events == [] then []
    else
      var e := events[|events| - 1];
      Mine(slot, r, events[..|events| - 1])
      + if e.Asked? && e.req.slot == slot then [Req(e.from, r, e.req)] else []
  }

  /** The replies for the slot among what a host releases, as messages from recorder `r`. */
  function OutMsgs(slot: nat, r: nat, out: seq<Out>): set<Msg> {
    if out == [] then {}
    else
      var last := out[|out| - 1];
      OutMsgs(slot, r, out[..|out| - 1]) + if last.1.slot == slot then {Resp(r, last.0, last.1)} else {}
  }

  lemma {:induction false} OutMsgsJoin(slot: nat, r: nat, first: seq<Out>, second: seq<Out>)
    ensures OutMsgs(slot, r, first + second) == OutMsgs(slot, r, first) + OutMsgs(slot, r, second)
    decreases |second|
  {
    var all := first + second;
    if second == [] {
      assert all == first;
    } else {
      assert all[..|all| - 1] == first + second[..|second| - 1] && all[|all| - 1] == second[|second| - 1];
      OutMsgsJoin(slot, r, first, second[..|second| - 1]);
    }
  }

  /** One event, seen from one slot. */
  lemma {:induction false} EventAtSlot(slot: nat, r: nat, book: Book, e: Event)
    ensures At(Apply(book, e), slot)
         == if e.Asked? && e.req.slot == slot then Handled(At(book, slot), e.req) else At(book, slot)
    ensures OutMsgs(slot, r, Answers(book, e))
         == if e.Asked? && e.req.slot == slot
            then {Resp(r, e.from, Reply(Handled(At(book, slot), e.req), e.req))} else {}
  {
    hide Handled;
    var out := Answers(book, e);
    if out != [] {
      assert out[..|out| - 1] == [];
    }
  }

  /** A host's events do to the slot's register, and answer, what the slot's requests do. */
  lemma {:induction false} EventsAtSlot(slot: nat, r: nat, book: Book, events: seq<Event>)
    ensures At(BookAfter(book, events), slot) == HeldAfter(At(book, slot), r, Mine(slot, r, events))
    ensures OutMsgs(slot, r, RepliesTo(book, events)) == Replies(At(book, slot), r, Mine(slot, r, events))
  {
    hide Handled, Apply, Answers, Reply, At;
    if events == [] {
    } else {
      var n := |events| - 1;
      var before, e := events[..n], events[n];
      EventsAtSlot(slot, r, book, before);
      EventAtSlot(slot, r, BookAfter(book, before), e);
      OutMsgsJoin(slot, r, RepliesTo(book, before), Answers(BookAfter(book, before), e));
      var batch := Mine(slot, r, events);
      if e.Asked? && e.req.slot == slot {
        assert batch[..|batch| - 1] == Mine(slot, r, before) && batch[|batch| - 1] == Req(e.from, r, e.req);
      } else {
        assert batch == Mine(slot, r, before);
      }
    }
  }

  /** The first replies of a batch are all the replies to its first events. */
  lemma {:induction false} FirstReplies(book: Book, events: seq<Event>, k: nat) returns (j: nat)
    ensures j <= |events| && Host.Take(RepliesTo(book, events), k) == RepliesTo(book, events[..j])
  {
    var all := RepliesTo(book, events);
    if k >= |all| {
      j := |events|;
      assert events[..j] == events && Host.Take(all, k) == all;
    } else {
      var n := |events| - 1;
      var before := RepliesTo(book, events[..n]);
      assert all == before + Answers(BookAfter(book, events[..n]), events[n]);
      assert k <= |before|;
      j := FirstReplies(book, events[..n], k);
      assert Host.Take(all, k) == Host.Take(before, k);
      assert events[..n][..j] == events[..j];
    }
  }

  lemma {:induction false} MineGrows(slot: nat, r: nat, events: seq<Event>, j: nat)
    requires j <= |events|
    ensures Mine(slot, r, events[..j]) <= Mine(slot, r, events)
    decreases |events|
  {
    if j == |events| {
      assert events[..j] == events;
    } else {
      var n := |events| - 1;
      MineGrows(slot, r, events[..n], j);
      assert events[..n][..j] == events[..j];
    }
  }

  // ------------------------------------------------------------------------ cluster moves

  function RunMoves(c: Config, d: Cluster, moves: seq<Move>): (d': Cluster)
    requires Sound(c, d)
    ensures Sound(c, d')
  {
    if moves == [] then d
    else CrashRestart.Next(c, RunMoves(c, d, moves[..|moves| - 1]), moves[|moves| - 1])
  }

  lemma {:induction false} AfterIsRun(c: Config, moves: seq<Move>)
    ensures After(c, moves) == RunMoves(c, Boot(c), moves)
  {
    if moves == [] {
    } else {
      AfterIsRun(c, moves[..|moves| - 1]);
    }
  }

  lemma {:induction false} RunsOn(c: Config, d: Cluster, first: seq<Move>, second: seq<Move>)
    requires Sound(c, d)
    ensures RunMoves(c, d, first + second) == RunMoves(c, RunMoves(c, d, first), second)
    decreases |second|
  {
    var all := first + second;
    if second == [] {
      assert all == first;
    } else {
      assert all[..|all| - 1] == first + second[..|second| - 1] && all[|all| - 1] == second[|second| - 1];
      RunsOn(c, d, first, second[..|second| - 1]);
    }
  }

  function Takes(batch: seq<Msg>): seq<Move> {
    seq(|batch|, k requires 0 <= k < |batch| => CrashRestart.Take(batch[k]))
  }

  /** Recorder `r` has handled `batch` and not yet written it. */
  function Taken(d: Cluster, r: nat, batch: seq<Msg>): Cluster
    requires Requested(r, batch) && r < |d.sys.recorders| == |d.batch|
  {
    d.(sys := d.sys.(recorders := d.sys.recorders[r := HeldAfter(d.sys.recorders[r], r, batch)]),
       batch := d.batch[r := batch])
  }

  lemma {:induction false} TakesAll(c: Config, d: Cluster, r: nat, batch: seq<Msg>)
    requires Sound(c, d) && r < c.n && d.batch[r] == [] && !d.sys.panicked && Requested(r, batch)
    requires forall k | 0 <= k < |batch| :: batch[k] in d.sys.net
    ensures RunMoves(c, d, Takes(batch)) == Taken(d, r, batch)
    decreases |batch|
  {
    hide Handled;
    if batch == [] {
      assert d.sys.recorders[r := d.sys.recorders[r]] == d.sys.recorders && d.batch[r := []] == d.batch;
    } else {
      var n := |batch| - 1;
      var before, moves := batch[..n], Takes(batch);
      forall k | 0 <= k < n ensures before[k] in d.sys.net {
        assert before[k] == batch[k];
      }
      TakesAll(c, d, r, before);
      assert moves[..|moves| - 1] == Takes(before) && moves[|moves| - 1] == CrashRestart.Take(batch[n]);
      TakesOne(c, d, r, batch);
    }
  }

  lemma {:induction false} TakesOne(c: Config, d: Cluster, r: nat, batch: seq<Msg>)
    requires Sound(c, d) && r < c.n && !d.sys.panicked && Requested(r, batch) && batch != []
    requires batch[|batch| - 1] in d.sys.net
    ensures var before := Taken(d, r, batch[..|batch| - 1]);
            Sound(c, before) && CrashRestart.Next(c, before, CrashRestart.Take(batch[|batch| - 1])) == Taken(d, r, batch)
  {
    hide Handled;
    assert batch[..|batch| - 1] + [batch[|batch| - 1]] == batch;
  }

  // ----------------------------------------------------------------------- turns as moves

  /** A host's files and book, and recorder `r` of the cluster, agree on the slot. */
  ghost predicate Stands(c: Config, codec: Codec<Book>, d: Cluster, r: nat, w: World) {
    && Sound(c, d) && r < c.n && d.batch[r] == []
    && d.disk[r] == At(Restarted(codec, w.files), c.slot)
    && d.sys.recorders[r] == At(w.book, c.slot)
  }

  /** What a turn releases beyond what was released before it. */
  function NewlyReleased(codec: Codec<Book>, w: World, t: Turn): seq<Out> {
    match t
    case Lost(_) => []
    case Committed(events, stop, flushed, dies) =>
      if !AnyMessage(events) || !stop.Finished? then []
      else if dies then Host.Take(RepliesTo(w.book, events), flushed)
      else RepliesTo(w.book, events)
  }

  /** Only recorder `r` and, by `out`, the network have changed. */
  ghost predicate OnlyHost(d: Cluster, d': Cluster, r: nat, out: set<Msg>) {
    && |d'.disk| == |d.disk| && |d'.batch| == |d.batch| && |d'.sys.recorders| == |d.sys.recorders|
    && SameProposers(d.sys, d'.sys) && d'.sys.net == d.sys.net + out
    && forall k | 0 <= k < |d.disk| && k != r && k < |d.batch| && k < |d.sys.recorders| ::
         d'.disk[k] == d.disk[k] && d'.batch[k] == d.batch[k] && d'.sys.recorders[k] == d.sys.recorders[k]
  }

  /** The last moves of a turn: a write, a release, a crash. */
  function Ending(r: nat, t: Turn, upto: nat): seq<Move> {
    match t
    case Lost(_) => [CrashRestart.Crash(r, false)]
    case Committed(_, stop, _, dies) =>
      if !stop.Finished? then [CrashRestart.Crash(r, Renamed(stop))]
      else if dies then [Release(r, upto), CrashRestart.Crash(r, false)]
      else [Release(r, upto)]
  }

  lemma {:induction false} EndingRuns(c: Config, d: Cluster, r: nat, batch: seq<Msg>, t: Turn, upto: nat)
    requires Sound(c, d) && r < c.n && d.batch[r] == [] && !d.sys.panicked && Requested(r, batch) && upto <= |batch|
    requires d.disk[r] == d.sys.recorders[r]
    ensures var taken := Taken(d, r, batch);
            && Sound(c, taken)
            && var d' := RunMoves(c, taken, Ending(r, t, upto));
               var written := t.Committed? && Renamed(t.stop);
               var out := if t.Committed? && t.stop.Finished? then Replies(d.disk[r], r, Flushed(batch, upto)) else {};
               && d'.batch[r] == []
               && d'.disk[r] == d'.sys.recorders[r] == (if written then HeldAfter(d.disk[r], r, batch) else d.disk[r])
               && OnlyHost(d, d', r, out)
  {
    hide Handled, Reply;
    var taken := Taken(d, r, batch);
    var moves := Ending(r, t, upto);
    assert moves[..0] == [];
    if |moves| == 2 {
      assert moves[..1] == [moves[0]] && moves[..1][..0] == [];
      assert RunMoves(c, taken, moves[..1]) == CrashRestart.Next(c, taken, moves[0]);
    }
  }

  /** The host's view of how a turn that has a message in it ends. */
  lemma {:induction false} PlayEnds(codec: Codec<Book>, w: World, t: Turn)
    requires RoundTrips(codec) && Restarted(codec, w.files) == w.book && (t.Committed? ==> AnyMessage(t.events))
    ensures var w' := Play(codec, w, t);
            Restarted(codec, w'.files) == w'.book
            == if t.Committed? && Renamed(t.stop) then BookAfter(w.book, t.events) else w.book
  {
    if t.Committed? {
      RestartAfterWrite(codec, w.files, BookAfter(w.book, t.events), t.stop);
    }
  }

  /** How many of the slot's replies get out. */
  lemma {:induction false} ReleasedShare(slot: nat, r: nat, book: Book, events: seq<Event>, out: seq<Out>) returns (upto: nat)
    requires exists k :: out == Host.Take(RepliesTo(book, events), k)
    ensures var batch := Mine(slot, r, events);
            upto <= |batch| && OutMsgs(slot, r, out) == Replies(At(book, slot), r, Flushed(batch, upto))
  {
    var k :| out == Host.Take(RepliesTo(book, events), k);
    var j := FirstReplies(book, events, k);
    EventsAtSlot(slot, r, book, events[..j]);
    MineGrows(slot, r, events, j);
    upto := |Mine(slot, r, events[..j])|;
    assert Flushed(Mine(slot, r, events), upto) == Mine(slot, r, events[..j]);
  }

  /** One turn of the host beside recorder `r` is a few moves of the cluster. */
  lemma {:induction false} TurnIsMoves(c: Config, codec: Codec<Book>, d: Cluster, r: nat, w: World, t: Turn) returns (moves: seq<Move>)
    requires RoundTrips(codec) && Stands(c, codec, d, r, w) && !d.sys.panicked && Restarted(codec, w.files) == w.book
    requires forall k | 0 <= k < |Mine(c.slot, r, t.events)| :: Mine(c.slot, r, t.events)[k] in d.sys.net
    ensures var d' := RunMoves(c, d, moves);
            && Stands(c, codec, d', r, Play(codec, w, t))
            && OnlyHost(d, d', r, OutMsgs(c.slot, r, NewlyReleased(codec, w, t)))
  {
    hide Handled, Apply, Reply;
    var batch := Mine(c.slot, r, t.events);
    if t.Committed? && !AnyMessage(t.events) {
      QuietBatch(w.book, t.events);
      moves := [];
    } else {
      var upto := ShareOf(c.slot, r, codec, w, t);
      TakesAll(c, d, r, batch);
      EndingRuns(c, d, r, batch, t, upto);
      PlayEnds(codec, w, t);
      EventsAtSlot(c.slot, r, w.book, t.events);
      moves := Takes(batch) + Ending(r, t, upto);
      RunsOn(c, d, Takes(batch), Ending(r, t, upto));
    }
  }

  lemma {:induction false} ShareOf(slot: nat, r: nat, codec: Codec<Book>, w: World, t: Turn) returns (upto: nat)
    requires t.Committed? ==> AnyMessage(t.events)
    ensures var batch := Mine(slot, r, t.events);
            && upto <= |batch|
            && OutMsgs(slot, r, NewlyReleased(codec, w, t))
               == if t.Committed? && t.stop.Finished? then Replies(At(w.book, slot), r, Flushed(batch, upto)) else {}
  {
    if t.Committed? && t.stop.Finished? {
      var all := RepliesTo(w.book, t.events);
      assert all == Host.Take(all, |all|);
      upto := ReleasedShare(slot, r, w.book, t.events, NewlyReleased(codec, w, t));
    } else {
      upto := 0;
    }
  }

  // ------------------------------------------------------------------------ the deployment

  /** One host per recorder, and the proposers of the slot with the messages that have left
      any process. */
  datatype Site = Site(hosts: seq<World>, sys: Sys)

  /** A host plays a turn, or the proposers act. */
  datatype Doing = HostPlays(r: nat, t: Turn) | ProposerActs(act: Action)

  function Founded(c: Config): Site {
    Site(seq(c.n, _ => World(Files(None, None), map[], [])), Init(c))
  }

  /** All requests for the slot that the turn works on have been sent to that recorder. */
  predicate Arrived(c: Config, s: Site, r: nat, t: Turn) {
    var batch := Mine(c.slot, r, t.events);
    forall k | 0 <= k < |batch| :: batch[k] in s.sys.net
  }

  function Happens(c: Config, codec: Codec<Book>, s: Site, doing: Doing): Site
    requires Shaped(c, s.sys)
  {
    if s.sys.panicked then s
    else
      match doing
      case HostPlays(r, t) =>
        if r >= |s.hosts| || !Arrived(c, s, r, t) then s
        else
          var w := s.hosts[r];
          Site(s.hosts[r := Play(codec, w, t)],
               s.sys.(net := s.sys.net + OutMsgs(c.slot, r, NewlyReleased(codec, w, t))))
      case ProposerActs(act) => if act.Handle? then s else s.(sys := Step(c, s.sys, act))
  }

  function SiteAfter(c: Config, codec: Codec<Book>, doings: seq<Doing>): (s: Site)
    ensures Shaped(c, s.sys)
  {
    if doings == [] then Founded(c)
    else Happens(c, codec, SiteAfter(c, codec, doings[..|doings| - 1]), doings[|doings| - 1])
  }

  /** The cluster `d` shows what the site shows, and its recorders stand where the hosts do. */
  ghost predicate Mirrors(c: Config, codec: Codec<Book>, s: Site, d: Cluster) {
    && |s.hosts| == c.n && Sound(c, d) && SameProposers(s.sys, d.sys) && s.sys.net == d.sys.net
    && forall r | 0 <= r < c.n :: Stands(c, codec, d, r, s.hosts[r]) && Restarted(codec, s.hosts[r].files) == s.hosts[r].book
  }

  lemma {:induction false} FoundedMirrors(c: Config, codec: Codec<Book>)
    ensures Mirrors(c, codec, Founded(c), Boot(c))
  {
  }

  lemma {:induction false} StandsElsewhere(c: Config, codec: Codec<Book>, d: Cluster, d': Cluster, r: nat, k: nat, out: set<Msg>, w: World)
    requires Stands(c, codec, d, k, w) && OnlyHost(d, d', r, out) && Sound(c, d') && k != r
    ensures Stands(c, codec, d', k, w)
  {
  }

  lemma {:induction false} BookSurvives(codec: Codec<Book>, w: World, t: Turn)
    requires RoundTrips(codec) && Restarted(codec, w.files) == w.book
    ensures Restarted(codec, Play(codec, w, t).files) == Play(codec, w, t).book
  {
    if t.Committed? && !AnyMessage(t.events) {
      QuietBatch(w.book, t.events);
    } else {
      PlayEnds(codec, w, t);
    }
  }

  lemma {:induction false} HostMirrored(c: Config, codec: Codec<Book>, s: Site, d: Cluster, r: nat, t: Turn) returns (moves: seq<Move>)
    requires RoundTrips(codec) && Mirrors(c, codec, s, d) && Shaped(c, s.sys) && !s.sys.panicked
    requires r < c.n && Arrived(c, s, r, t)
    ensures Mirrors(c, codec, Happens(c, codec, s, HostPlays(r, t)), RunMoves(c, d, moves))
  {
    hide Stands, Play, OnlyHost, RoundTrips;
    moves := TurnIsMoves(c, codec, d, r, s.hosts[r], t);
    var s', d' := Happens(c, codec, s, HostPlays(r, t)), RunMoves(c, d, moves);
    var out := OutMsgs(c.slot, r, NewlyReleased(codec, s.hosts[r], t));
    BookSurvives(codec, s.hosts[r], t);
    forall k | 0 <= k < c.n
      ensures Stands(c, codec, d', k, s'.hosts[k]) && Restarted(codec, s'.hosts[k].files) == s'.hosts[k].book
    {
      if k != r {
        StandsElsewhere(c, codec, d, d', r, k, out, s.hosts[k]);
      }
    }
    OnlyHostShows(d, d', r, out);
  }

  lemma {:induction false} OnlyHostShows(d: Cluster, d': Cluster, r: nat, out: set<Msg>)
    requires OnlyHost(d, d', r, out)
    ensures SameProposers(d.sys, d'.sys) && d'.sys.net == d.sys.net + out
  {
  }

  lemma {:induction false} ActMirrored(c: Config, codec: Codec<Book>, s: Site, d: Cluster, act: Action)
    requires Mirrors(c, codec, s, d) && Shaped(c, s.sys)
    ensures Mirrors(c, codec, Happens(c, codec, s, ProposerActs(act)), CrashRestart.Next(c, d, Other(act)))
  {
    if !act.Handle? && !s.sys.panicked {
      SameStep(c, s.sys, d.sys, act);
      hide Step;
      var d' := CrashRestart.Next(c, d, Other(act));
      forall r | 0 <= r < c.n ensures Stands(c, codec, d', r, s.hosts[r]) {
        assert Stands(c, codec, d, r, s.hosts[r]);
      }
    }
  }

  /** Recorders play no part in what proposers do. */
  lemma {:induction false} SameStep(c: Config, s: Sys, t: Sys, act: Action)
    requires Shaped(c, s) && Shaped(c, t) && SameProposers(s, t) && s.net == t.net && !act.Handle?
    ensures SameProposers(Step(c, s, act), Step(c, t, act)) && Step(c, s, act).net == Step(c, t, act).net
    ensures Step(c, t, act).recorders == t.recorders
  {
    hide P.OnResponse, P.OnTimer, P.OnRetry;
  }

  lemma {:induction false} DoingMirrored(c: Config, codec: Codec<Book>, s: Site, d: Cluster, doing: Doing) returns (moves: seq<Move>)
    requires RoundTrips(codec) && Mirrors(c, codec, s, d) && Shaped(c, s.sys)
    ensures Mirrors(c, codec, Happens(c, codec, s, doing), RunMoves(c, d, moves))
  {
    hide Mirrors, RoundTrips;
    moves := [];
    match doing
    case HostPlays(r, t) =>
      assert |s.hosts| == c.n by { MirrorsShape(c, codec, s, d); }
      if !s.sys.panicked && r < c.n && Arrived(c, s, r, t) {
        moves := HostMirrored(c, codec, s, d, r, t);
      }
    case ProposerActs(act) =>
      moves := [Other(act)];
      assert moves[..0] == [];
      assert RunMoves(c, d, moves) == CrashRestart.Next(c, d, Other(act)) by { MirrorsShape(c, codec, s, d); }
      ActMirrored(c, codec, s, d, act);
  }

  lemma {:induction false} MirrorsShape(c: Config, codec: Codec<Book>, s: Site, d: Cluster)
    requires Mirrors(c, codec, s, d)
    ensures |s.hosts| == c.n && Sound(c, d)
  {
  }

  /** Whatever hosts and proposers do, some run of the crash-restart cluster shows the same. */
  lemma {:induction false} SiteRefinesCluster(c: Config, codec: Codec<Book>, doings: seq<Doing>) returns (moves: seq<Move>)
    requires RoundTrips(codec)
    ensures Mirrors(c, codec, SiteAfter(c, codec, doings), After(c, moves))
  {
    hide Mirrors, RoundTrips, Happens;
    if doings == [] {
      moves := [];
      FoundedMirrors(c, codec);
    } else {
      var before := SiteRefinesCluster(c, codec, doings[..|doings| - 1]);
      var s := SiteAfter(c, codec, doings[..|doings| - 1]);
      var more := DoingMirrored(c, codec, s, After(c, before), doings[|doings| - 1]);
      AfterIsRun(c, before);
      AfterIsRun(c, before + more);
      RunsOn(c, Boot(c), before, more);
      moves := before + more;
    }
  }

  /** So proposers served by hosts that batch, persist, release and may be cut off anywhere
      agree, decide only inputs, and never fail an `expect`. */
  lemma {:induction false} SiteIsSafe(c: Config, codec: Codec<Book>, doings: seq<Doing>)
    requires RoundTrips(codec) && WellFormed(c) && Uncontested(c) && StartedOnce(SiteAfter(c, codec, doings).sys)
    ensures var s := SiteAfter(c, codec, doings).sys;
            && Agreement(s) && !s.panicked
            && forall a | 0 <= a < |s.proposers| && s.proposers[a].decided.Some? :: s.proposers[a].decided.value in Inputs(c)
  {
    hide SiteAfter, After, Stands, Inputs, RoundTrips;
    var moves := SiteRefinesCluster(c, codec, doings);
    CrashRestartIsSafe(c, moves);
  }
}
