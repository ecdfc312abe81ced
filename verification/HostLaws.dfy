/** What a host's book and replies are in terms of the events alone: every slot apart, every
    request answered once, in order, by all that came before it. */
module HostLaws {
  import opened Recorders
  import opened Host
  import Isr

  /** The calls that reach the register of `slot`. */
  function CallsAt(events: seq<Event>, slot: nat): seq<Isr.Call> {
    if events == [] then []
    else
      var e := events[|events| - 1];
      CallsAt(events[..|events| - 1], slot)
      + if e.Asked? && e.req.slot == slot then [Isr.Call(e.req.reqStep, e.req.proposal)] else []
  }

  ghost predicate AsksFor(events: seq<Event>, slot: nat) {
    exists k :: 0 <= k < |events| && events[k].Asked? && events[k].req.slot == slot
  }

  lemma {:induction false} AsksGrow(events: seq<Event>, slot: nat)
    requires events != []
    ensures var e := events[|events| - 1];
            AsksFor(events, slot) <==> AsksFor(events[..|events| - 1], slot) || (e.Asked? && e.req.slot == slot)
  {
    var before := events[..|events| - 1];
    forall k | 0 <= k < |before| ensures before[k] == events[k] {
    }
    if AsksFor(before, slot) {
      var k :| 0 <= k < |before| && before[k].Asked? && before[k].req.slot == slot;
      assert events[k].req.slot == slot;
    }
  }

  /** A slot has a register exactly when it was asked about, and that register is what its own
      requests alone make it: slots never touch one another. */
  lemma {:induction false} SlotsApart(events: seq<Event>, slot: nat)
    ensures slot in BookAfter(map[], events) <==> AsksFor(events, slot)
    ensures At(BookAfter(map[], events), slot) == Isr.Replay(CallsAt(events, slot))
  {
    if events == [] {
    } else {
      hide Isr.Record;
      var before := events[..|events| - 1];
      AsksGrow(events, slot);
      SlotsApart(before, slot);
      var e := events[|events| - 1];
      if e.Asked? && e.req.slot == slot {
        var calls := CallsAt(events, slot);
        assert calls[..|calls| - 1] == CallsAt(before, slot);
      } else {
        assert CallsAt(events, slot) == CallsAt(before, slot);
      }
    }
  }

  /** Where in the log the requests are. */
  function Asks(events: seq<Event>): seq<nat> {
    if events == [] then []
    else Asks(events[..|events| - 1]) + if events[|events| - 1].Asked? then [|events| - 1] else []
  }

  lemma {:induction false} AsksAreAll(events: seq<Event>, k: nat)
    ensures k in Asks(events) <==> k < |events| && events[k].Asked?
    ensures forall i, j | 0 <= i < j < |Asks(events)| :: Asks(events)[i] < Asks(events)[j]
  {
    if events == [] {
    } else {
      var before := events[..|events| - 1];
      AsksAreAll(before, k);
      forall j | 0 <= j < |Asks(before)| ensures Asks(before)[j] < |before| {
        AsksAreAll(before, Asks(before)[j]);
      }
    }
  }

  /** The answer due to request number `k` of the log. */
  ghost predicate AnswersRequest(events: seq<Event>, k: nat, out: Out) {
    && k < |events| && events[k].Asked?
    && var req, i := events[k].req, Isr.Replay(CallsAt(events[..k + 1], events[k].req.slot));
    out == (events[k].from, Response(req.slot, req.reqStep, i.step, i.first, i.priorAgg))
  }

  lemma {:induction false} AnswerStays(events: seq<Event>, k: nat, out: Out)
    requires events != [] && AnswersRequest(events[..|events| - 1], k, out)
    ensures AnswersRequest(events, k, out)
  {
    assert events[..|events| - 1][..k + 1] == events[..k + 1];
  }

  /** One reply to each request, in order, to whoever asked, reporting the slot's register after
      the request and all before it. */
  lemma {:induction false} RepliesInOrder(events: seq<Event>)
    ensures |RepliesTo(map[], events)| == |Asks(events)|
    ensures forall j | 0 <= j < |Asks(events)| :: AnswersRequest(events, Asks(events)[j], RepliesTo(map[], events)[j])
  {
    if events == [] {
    } else {
      var before, e := events[..|events| - 1], events[|events| - 1];
      RepliesInOrder(before);
      forall j | 0 <= j < |Asks(before)|
        ensures AnswersRequest(events, Asks(before)[j], RepliesTo(map[], before)[j])
      {
        AnswerStays(events, Asks(before)[j], RepliesTo(map[], before)[j]);
      }
      if e.Asked? {
        SlotsApart(events, e.req.slot);
        assert events[..|events|] == events;
        hide CallsAt, Isr.Replay, AnswersRequest;
        assert RepliesTo(map[], events) == RepliesTo(map[], before) + Answers(BookAfter(map[], before), e);
        LastAnswer(events);
      } else {
        assert Asks(events) == Asks(before);
      }
    }
  }

  lemma {:induction false} LastAnswer(events: seq<Event>)
    requires events != [] && events[|events| - 1].Asked?
    ensures var n := |events| - 1;
            var answers := Answers(BookAfter(map[], events[..n]), events[n]);
            |answers| == 1 && AnswersRequest(events, n, answers[0])
  {
    SlotsApart(events, events[|events| - 1].req.slot);
    assert events[..|events|] == events;
    hide CallsAt, Isr.Replay, Handled;
  }
}
