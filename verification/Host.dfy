/** The durability shell around a replica's recorders: events are applied in batches, the
    whole book of recorders is persisted once per batch, and only then are the buffered
    replies released. A replica may be cut off at any point and restart from its snapshot. */
module Host {
  import opened Proposals
  import opened Recorders
  import opened Persist
  import Isr

  const GROUP_COMMIT_BATCH_LIMIT: nat := 64

  /** One recorder per slot, created when the slot is first touched. */
  type Book = map<nat, Isr.Register>

  datatype Event =
    | Asked(from: nat, req: Request)
    | OtherMessage
    | TimerFired
    | ClientSubmit

  /** A reply on its way to the replica that asked. */
  type Out = (nat, Response)

  function At(book: Book, slot: nat): Isr.Register {
    if slot in book then book[slot] else Isr.EMPTY
  }

  function Apply(book: Book, e: Event): Book {
    if e.Asked? then book[e.req.slot := Handled(At(book, e.req.slot), e.req)] else book
  }

  function Answers(book: Book, e: Event): seq<Out> {
    if e.Asked? then [(e.from, Reply(At(Apply(book, e), e.req.slot), e.req))] else []
  }

  /** A never-crashing host: its book and every reply it gives, event by event. */
  function BookAfter(book: Book, events: seq<Event>): Book {
    if events == [] then book
    else Apply(BookAfter(book, events[..|events| - 1]), events[|events| - 1])
  }

  function RepliesTo(book: Book, events: seq<Event>): seq<Out> {
    if events == [] then []
    else
      var before := events[..|events| - 1];
      RepliesTo(book, before) + Answers(BookAfter(book, before), events[|events| - 1])
  }

  predicate MayMutate(e: Event) {
    e.Asked? || e.OtherMessage?
  }

  /** Some event is neither a timer nor a client's submission. */
  predicate AnyMessage(events: seq<Event>): (any: bool)
    ensures any <==> exists k :: 0 <= k < |events| && !events[k].TimerFired? && !events[k].ClientSubmit?
  {
    assert forall k | 0 <= k < |events| :: MayMutate(events[k]) <==> !events[k].TimerFired? && !events[k].ClientSubmit?;
    exists k :: 0 <= k < |events| && MayMutate(events[k])
  }

  /** The whole inbox, up to 64 events of it. */
  function BatchSize(inbox: nat): (size: nat)
    ensures size <= inbox && size <= 64 && (size == inbox || size == 64)
  {
    if inbox <= GROUP_COMMIT_BATCH_LIMIT then inbox else GROUP_COMMIT_BATCH_LIMIT
  }

  lemma {:induction false} OneMoreEvent(book: Book, events: seq<Event>, k: nat)
    requires k < |events|
    ensures BookAfter(book, events[..k + 1]) == Apply(BookAfter(book, events[..k]), events[k])
    ensures RepliesTo(book, events[..k + 1]) == RepliesTo(book, events[..k]) + Answers(BookAfter(book, events[..k]), events[k])
    ensures AnyMessage(events[..k + 1]) == (AnyMessage(events[..k]) || MayMutate(events[k]))
  {
    var now, before := events[..k + 1], events[..k];
    assert now[..|now| - 1] == before && now[k] == events[k];
    assert forall j | 0 <= j < k :: now[j] == before[j];
    if AnyMessage(before) {
      var j :| 0 <= j < |before| && MayMutate(before[j]);
      assert MayMutate(now[j]);
    }
    if MayMutate(events[k]) {
      assert MayMutate(now[k]);
    }
  }

  lemma {:induction false} NothingDoneYet(book: Book, events: seq<Event>)
    ensures BookAfter(book, events[..0]) == book && RepliesTo(book, events[..0]) == [] && !AnyMessage(events[..0])
  {
  }

  /** The running process: its book in memory and its buffered replies. */
  class Node {
    const store: Store<Book>
    var book: Book
    var pending: seq<Out>

    /** Start over whatever snapshot the store holds. */
    constructor (store: Store<Book>, book: Book)
      requires LoadFrom(store.codec, store.Snapshot().files).Ok? && book == Restarted(store.codec, store.Snapshot().files)
      ensures this.store == store && this.book == book && pending == []
    {
      this.store, this.book, pending := store, book, [];
    }

    method Dispatch(e: Event)
      modifies this
      ensures book == Apply(old(book), e) && pending == old(pending) + Answers(old(book), e)
    {
      if e.Asked? {
        var i := Handled(At(book, e.req.slot), e.req);
        book := book[e.req.slot := i];
        pending := pending + [(e.from, Reply(i, e.req))];
      }
    }

    method FlushOutbound() returns (released: seq<Out>)
      modifies this`pending
      ensures released == old(pending) && pending == []
    {
      released, pending := pending, [];
    }

    /** One turn of the event loop: drain a batch, persist if a message was in it, release.
        When the write fails the process ends with nothing released. */
    method RunBatch(inbox: seq<Event>, ghost w: World) returns (ok: bool, released: seq<Out>)
      requires inbox != [] && pending == []
      requires store.fault.Some? ==> !store.fault.value.point.Finished?
      requires w.files == store.Snapshot().files && w.book == book
      modifies this, store
      ensures var batch := inbox[..BatchSize(|inbox|)];
              && book == BookAfter(old(book), batch)
              && (ok <==> AnyMessage(batch) ==> StopOf(store.fault, old(store.Snapshot())).Finished?)
              && released == (if ok then RepliesTo(old(book), batch) else [])
              && store.Snapshot() == (if AnyMessage(batch)
                                      then Written(store.fault, old(store.Snapshot()), Encode(store.codec, book))
                                      else old(store.Snapshot()))
      ensures ok ==> pending == []
      ensures var batch := inbox[..BatchSize(|inbox|)];
              var w' := Play(store.codec, w, Committed(batch, StopOf(store.fault, old(store.Snapshot())), 0, false));
              AnyMessage(batch) ==>
                store.Snapshot().files == w'.files && w.released + released == w'.released && (ok ==> book == w'.book)
    {
      NothingDoneYet(book, inbox);
      hide BookAfter, RepliesTo, Apply, Answers, Encode, MayMutate;
      var mutated := false;
      var k := 0;
      while k < |inbox| && k < GROUP_COMMIT_BATCH_LIMIT
        invariant 0 <= k <= BatchSize(|inbox|)
        invariant book == BookAfter(old(book), inbox[..k])
        invariant pending == RepliesTo(old(book), inbox[..k])
        invariant mutated == AnyMessage(inbox[..k])
        invariant store.Snapshot() == old(store.Snapshot())
      {
        OneMoreEvent(old(book), inbox, k);
        Dispatch(inbox[k]);
        mutated := mutated || MayMutate(inbox[k]);
        k := k + 1;
      }
      var releasedOk := !mutated;
      if mutated {
        releasedOk := store.Save(book);
        if !releasedOk { return false, []; }
      }
      assert releasedOk;
      released := FlushOutbound();
      ok := true;
    }
  }

  // ---------------------------------------------------------------------- crash and restart

  /** One life of a batch. `Lost`: the process dies before it persists anything.
      `Committed`: the write goes as far as `stop`, and if that is to the end, `flushed`
      replies get out before the process, perhaps, dies too. */
  datatype Turn =
    | Lost(events: seq<Event>)
    | Committed(events: seq<Event>, stop: Stop, flushed: nat, dies: bool)

  /** The snapshot files, and the book in memory as of the end of the turn. */
  datatype World = World(files: Files, book: Book, released: seq<Out>)

  function Restarted(c: Codec<Book>, f: Files): Book {
    match LoadFrom(c, f)
    case Ok(Some(book)) => book
    case _ => map[]
  }

  function Take<T>(s: seq<T>, k: nat): seq<T> {
    if k <= |s| then s[..k] else s
  }

  function Play(c: Codec<Book>, w: World, t: Turn): World {
    match t
    case Lost(_) => World(w.files, Restarted(c, w.files), w.released)
    case Committed(events, stop, flushed, dies) =>
      var book := BookAfter(w.book, events);
      if !AnyMessage(events) then
        if dies then World(w.files, Restarted(c, w.files), w.released) else World(w.files, book, w.released)
      else
        var files := Attempt(w.files, Encode(c, book), stop);
        if !stop.Finished? then World(files, Restarted(c, files), w.released)
        else if dies then World(files, Restarted(c, files), w.released + Take(RepliesTo(w.book, events), flushed))
        else World(files, book, w.released + RepliesTo(w.book, events))
  }

  function PlayAll(c: Codec<Book>, turns: seq<Turn>): World {
    if turns == [] then World(Files(None, None), map[], [])
    else Play(c, PlayAll(c, turns[..|turns| - 1]), turns[|turns| - 1])
  }

  function Arrivals(turns: seq<Turn>): seq<Event> {
    if turns == [] then [] else Arrivals(turns[..|turns| - 1]) + turns[|turns| - 1].events
  }

  ghost predicate Subsequence<T>(a: seq<T>, b: seq<T>) {
    || a == []
    || (b != [] && Subsequence(a, b[..|b| - 1]))
    || (b != [] && a[|a| - 1] == b[|b| - 1] && Subsequence(a[..|a| - 1], b[..|b| - 1]))
  }

  lemma {:induction false} SubsequenceSelf<T>(a: seq<T>)
    ensures Subsequence(a, a)
  {
    if a == [] {
    } else {
      SubsequenceSelf(a[..|a| - 1]);
    }
  }

  lemma {:induction false} SubsequencePrefix<T>(a: seq<T>, k: nat)
    ensures Subsequence(Take(a, k), a)
    decreases |a|
  {
    if k >= |a| {
      assert Take(a, k) == a;
      SubsequenceSelf(a);
    } else {
      SubsequencePrefix(a[..|a| - 1], k);
      assert Take(a[..|a| - 1], k) == Take(a, k);
    }
  }

  lemma {:induction false} SubsequenceSkip<T>(a: seq<T>, b: seq<T>, d: seq<T>)
    requires Subsequence(a, b)
    ensures Subsequence(a, b + d)
    decreases |d|
  {
    if d == [] {
      assert b + d == b;
    } else {
      SubsequenceSkip(a, b, d[..|d| - 1]);
      assert (b + d)[..|b + d| - 1] == b + d[..|d| - 1];
    }
  }

  lemma {:induction false} SubsequenceJoin<T>(a: seq<T>, b: seq<T>, c: seq<T>, d: seq<T>)
    requires Subsequence(a, b) && Subsequence(c, d)
    ensures Subsequence(a + c, b + d)
    decreases |d|
  {
    if c == [] {
      assert a + c == a;
      SubsequenceSkip(a, b, d);
    } else {
      assert (b + d)[..|b + d| - 1] == b + d[..|d| - 1];
      if Subsequence(c, d[..|d| - 1]) {
        SubsequenceJoin(a, b, c, d[..|d| - 1]);
      } else {
        SubsequenceJoin(a, b, c[..|c| - 1], d[..|d| - 1]);
        assert (a + c)[..|a + c| - 1] == a + c[..|c| - 1];
        assert (a + c)[|a + c| - 1] == c[|c| - 1] == d[|d| - 1] == (b + d)[|b + d| - 1];
      }
    }
  }

  lemma {:induction false} RunsOn(book: Book, first: seq<Event>, second: seq<Event>)
    ensures BookAfter(book, first + second) == BookAfter(BookAfter(book, first), second)
    ensures RepliesTo(book, first + second) == RepliesTo(book, first) + RepliesTo(BookAfter(book, first), second)
    decreases |second|
  {
    hide Apply, Answers;
    var all := first + second;
    if second == [] {
      assert all == first;
    } else {
      var n := |second| - 1;
      RunsOn(book, first, second[..n]);
      assert all[..|all| - 1] == first + second[..n] && all[|all| - 1] == second[n];
      var middle := BookAfter(book, first);
      calc {
        RepliesTo(book, all);
        RepliesTo(book, first + second[..n]) + Answers(BookAfter(book, first + second[..n]), second[n]);
        RepliesTo(book, first) + RepliesTo(middle, second[..n]) + Answers(BookAfter(middle, second[..n]), second[n]);
        RepliesTo(book, first) + (RepliesTo(middle, second[..n]) + Answers(BookAfter(middle, second[..n]), second[n]));
        RepliesTo(book, first) + RepliesTo(middle, second);
      }
    }
  }

  /** `kept` explains `w`: it is what a host that never crashes would have had to be asked. */
  ghost predicate Explains(c: Codec<Book>, w: World, kept: seq<Event>) {
    && LoadFrom(c, w.files).Ok?
    && Restarted(c, w.files) == w.book == BookAfter(map[], kept)
    && Subsequence(w.released, RepliesTo(map[], kept))
  }

  lemma {:induction false} QuietBatch(book: Book, events: seq<Event>)
    requires !AnyMessage(events)
    ensures BookAfter(book, events) == book && RepliesTo(book, events) == []
  {
    if events == [] {
    } else {
      var n := |events| - 1;
      assert !MayMutate(events[n]);
      forall k | 0 <= k < n ensures !MayMutate(events[..n][k]) {
        assert !MayMutate(events[k]);
      }
      QuietBatch(book, events[..n]);
    }
  }

  lemma {:induction false} RestartAfterWrite(c: Codec<Book>, f: Files, book: Book, stop: Stop)
    requires RoundTrips(c)
    ensures Restarted(c, Attempt(f, Encode(c, book), stop)) == if Renamed(stop) then book else Restarted(c, f)
    ensures LoadFrom(c, f).Ok? ==> LoadFrom(c, Attempt(f, Encode(c, book), stop)).Ok?
  {
    DecodeEncode(c, book);
  }

  lemma {:induction false} TurnExplained(c: Codec<Book>, w: World, kept: seq<Event>, t: Turn) returns (more: seq<Event>)
    requires RoundTrips(c) && Explains(c, w, kept)
    ensures more == [] || more == t.events
    ensures Explains(c, Play(c, w, t), kept + more)
  {
    more := [];
    assert kept + [] == kept;
    if t.Committed? && AnyMessage(t.events) {
      var book, replies := BookAfter(w.book, t.events), RepliesTo(w.book, t.events);
      RestartAfterWrite(c, w.files, book, t.stop);
      if Renamed(t.stop) {
        more := t.events;
        RunsOn(map[], kept, more);
        var out := if !t.stop.Finished? then [] else if t.dies then Take(replies, t.flushed) else replies;
        SubsequencePrefix(replies, t.flushed);
        SubsequenceSelf(replies);
        SubsequenceJoin(w.released, RepliesTo(map[], kept), out, replies);
        assert w.released + [] == w.released;
      }
    } else if t.Committed? {
      QuietBatch(w.book, t.events);
    }
  }

  /** Crash-restart refinement: whatever a host that batches, persists, then releases lets the
      network see over any number of lives, cut off at any point, are replies that a host
      which never crashes gives to some of the same requests in the same order, with some of
      its replies lost. */
  lemma {:induction false} CrashRestartRefines(c: Codec<Book>, turns: seq<Turn>) returns (kept: seq<Event>)
    requires RoundTrips(c)
    ensures Subsequence(kept, Arrivals(turns))
    ensures Subsequence(PlayAll(c, turns).released, RepliesTo(map[], kept))
    ensures PlayAll(c, turns).book == BookAfter(map[], kept)
    ensures LoadFrom(c, PlayAll(c, turns).files).Ok?
    ensures Restarted(c, PlayAll(c, turns).files) == BookAfter(map[], kept)
  {
    kept := Explanation(c, turns);
  }

  lemma {:induction false} Explanation(c: Codec<Book>, turns: seq<Turn>) returns (kept: seq<Event>)
    requires RoundTrips(c)
    ensures Subsequence(kept, Arrivals(turns)) && Explains(c, PlayAll(c, turns), kept)
  {
    kept := [];
    if turns == [] {
    } else {
      var n := |turns| - 1;
      var before := Explanation(c, turns[..n]);
      var more := TurnExplained(c, PlayAll(c, turns[..n]), before, turns[n]);
      kept := before + more;
      SubsequenceSelf(turns[n].events);
      SubsequenceJoin(before, Arrivals(turns[..n]), more, turns[n].events);
    }
  }
}
