/** Threshold synchronous broadcast: the retry loop with pruned pending sends, and the
    majority and universal properties it delivers. */
module Tcast {
  import opened Proposals
  import opened Quorums

  type ProposalSet = set<Proposal>

  const MAX_TCAST_RETRIES: nat := 500

  datatype TcastResult = TcastResult(r: map<nat, ProposalSet>, b: ProposalSet)

  ghost predicate HoldsAll(inputs: map<nat, ProposalSet>, s: set<nat>, r: ProposalSet) {
    s <= inputs.Keys && forall j | j in s :: inputs[j] <= r
  }

  /** `r` contains the whole inputs of more than half of all `n` replicas. */
  ghost predicate HoldsMajority(n: nat, live: set<nat>, inputs: map<nat, ProposalSet>, r: ProposalSet)
    requires live <= inputs.Keys
  {
    exists s {:trigger HoldsAll(inputs, s, r)} :: s <= live && 2 * |s| > n && HoldsAll(inputs, s, r)
  }

  /** `r` holds a majority's inputs, and nothing that is not some live replica's input. */
  ghost predicate Genuine(n: nat, live: set<nat>, inputs: map<nat, ProposalSet>, r: ProposalSet)
    requires live <= inputs.Keys
  {
    HoldsMajority(n, live, inputs, r) && forall p | p in r :: exists j :: j in live && p in inputs[j]
  }

  /** `b` is one live replica's whole input, and every receiver holds it. */
  ghost predicate Universal(live: set<nat>, inputs: map<nat, ProposalSet>, r: map<nat, ProposalSet>, b: ProposalSet)
    requires live <= inputs.Keys && live <= r.Keys
  {
    (exists j :: j in live && b == inputs[j]) && forall k | k in live :: b <= r[k]
  }

  /** What a broadcast promises, even if every receiver were handed a `b` of its own. */
  ghost predicate Contract(n: nat, live: set<nat>, inputs: map<nat, ProposalSet>,
                           r: map<nat, ProposalSet>, b: map<nat, ProposalSet>)
    requires live <= inputs.Keys
  {
    && r.Keys == live && b.Keys == live
    && (forall i | i in live :: Genuine(n, live, inputs, r[i]))
    && (forall i | i in live :: Universal(live, inputs, r, b[i]))
  }

  type Mailbox = map<nat, ProposalSet>

  type Mail = map<nat, Mailbox>

  /** The first delivery from a sender wins. */
  function Filed(box: Mailbox, src: nat, payload: ProposalSet): (after: Mailbox)
    ensures src in after
  {
    if src in box then box else box[src := payload]
  }

  function Delivered(received: Mail, src: nat, dst: nat, payload: ProposalSet): Mail
    requires dst in received
  {
    received[dst := Filed(received[dst], src, payload)]
  }

  /** One mailbox per replica: what it has received, by sender, in the current broadcast. */
  class Mailboxes {
    var received: Mail

    constructor (ids: set<nat>)
      ensures received == map i | i in ids :: map[]
    {
      received := map i | i in ids :: map[];
    }

    /** Empty the mailbox of `id` but for its own input. */
    method Reset(id: nat, input: ProposalSet)
      modifies this
      ensures received == old(received)[id := map[id := input]]
    {
      received := received[id := map[id := input]];
    }

    method Deliver(src: nat, dst: nat, payload: ProposalSet)
      requires dst in received
      modifies this
      ensures received == Delivered(old(received), src, dst, payload)
    {
      received := received[dst := Filed(received[dst], src, payload)];
    }
  }

  /** A mailbox after some deliveries to it. */
  function FiledAll(box: Mailbox, deliveries: seq<(nat, ProposalSet)>): Mailbox {
    if deliveries == [] then box
    else
      var last := deliveries[|deliveries| - 1];
      Filed(FiledAll(box, deliveries[..|deliveries| - 1]), last.0, last.1)
  }

  ghost predicate FirstFrom(deliveries: seq<(nat, ProposalSet)>, k: int, src: nat) {
    0 <= k < |deliveries| && deliveries[k].0 == src && forall j | 0 <= j < k :: deliveries[j].0 != src
  }

  /** However often a sender delivers, its first delivery is what counts, and nothing that was
      in the mailbox before is displaced. */
  lemma {:induction false} FirstDeliveryWins(box: Mailbox, deliveries: seq<(nat, ProposalSet)>, src: nat)
    ensures var after := FiledAll(box, deliveries);
            && (src in box ==> src in after && after[src] == box[src])
            && (forall k | src !in box && FirstFrom(deliveries, k, src) :: src in after && after[src] == deliveries[k].1)
            && (src in after ==> src in box || exists k :: FirstFrom(deliveries, k, src))
  {
    if deliveries == [] {
    } else {
      var n := |deliveries| - 1;
      var before, last := deliveries[..n], deliveries[n];
      FirstDeliveryWins(box, before, src);
      var mid, after := FiledAll(box, before), FiledAll(box, deliveries);
      forall j | 0 <= j < n ensures before[j] == deliveries[j] {
      }
      forall k | src !in box && FirstFrom(deliveries, k, src) ensures src in after && after[src] == deliveries[k].1 {
        if k < n {
          assert FirstFrom(before, k, src);
        } else {
          assert forall j :: !FirstFrom(before, j, src);
        }
      }
      if src in after && src !in box {
        if src in mid {
          var k :| FirstFrom(before, k, src);
          assert FirstFrom(deliveries, k, src);
        } else if j :| 0 <= j < n && before[j].0 == src {
          FromKept(box, before, j);
          assert false;
        } else {
          assert FirstFrom(deliveries, n, src);
        }
      }
    }
  }

  lemma {:induction false} FromKept(box: Mailbox, deliveries: seq<(nat, ProposalSet)>, k: nat)
    requires k < |deliveries|
    ensures deliveries[k].0 in FiledAll(box, deliveries)
  {
    var n := |deliveries| - 1;
    if k < n {
      FromKept(box, deliveries[..n], k);
    }
  }

  type Pair = (nat, nat)

  /** A mailbox holds inputs of live senders only, its owner's among them. */
  ghost predicate BoxOk(live: set<nat>, inputs: map<nat, ProposalSet>, i: nat, box: Mailbox)
    requires live <= inputs.Keys
  {
    i in box && forall j | j in box :: j in live && box[j] == inputs[j]
  }

  ghost predicate MailOk(live: set<nat>, inputs: map<nat, ProposalSet>, received: Mail) {
    && live <= inputs.Keys && live <= received.Keys
    && forall i | i in live :: BoxOk(live, inputs, i, received[i])
  }

  /** The pair needs no further sending: it arrived, or its receiver has a majority without it. */
  predicate Settled(received: Mail, threshold: nat, b: nat, pair: Pair)
    requires pair.1 in received
  {
    pair.0 in received[pair.1] || (pair.0 != b && |received[pair.1]| >= threshold)
  }

  ghost predicate BoxGrows(before: Mailbox, after: Mailbox) {
    before.Keys <= after.Keys && |before| <= |after|
  }

  /** Mailboxes only fill up. */
  ghost predicate Grows(live: set<nat>, before: Mail, after: Mail) {
    && live <= before.Keys && live <= after.Keys
    && forall i | i in live :: BoxGrows(before[i], after[i])
  }

  lemma {:induction false} SettledStays(
    live: set<nat>, before: Mail, after: Mail,
    threshold: nat, b: nat, pair: Pair)
    requires Grows(live, before, after) && pair.1 in live
    requires Settled(before, threshold, b, pair)
    ensures Settled(after, threshold, b, pair)
  {
    assert BoxGrows(before[pair.1], after[pair.1]);
  }

  /** Every pair not pending is settled. */
  ghost predicate Covered(pairs: set<Pair>, pending: set<Pair>, received: Mail, threshold: nat, b: nat)
  {
    forall pair | pair in pairs && pair !in pending :: pair.1 in received && Settled(received, threshold, b, pair)
  }

  lemma {:induction false} DeliveredOk(live: set<nat>, inputs: map<nat, ProposalSet>, received: Mail, src: nat, dst: nat)
    requires MailOk(live, inputs, received) && src in live && dst in live
    ensures MailOk(live, inputs, Delivered(received, src, dst, inputs[src]))
  {
    BoxDelivered(live, inputs, dst, received[dst], src);
    hide Filed, BoxOk, BoxGrows;
  }

  lemma {:induction false} DeliveredGrows(live: set<nat>, received: Mail, src: nat, dst: nat, payload: ProposalSet)
    requires live <= received.Keys && dst in live
    ensures var after := Delivered(received, src, dst, payload);
            Grows(live, received, after) && src in after[dst] && after.Keys == received.Keys
  {
    assert BoxGrows(received[dst], Filed(received[dst], src, payload));
    hide Filed;
  }

  lemma {:induction false} BoxDelivered(live: set<nat>, inputs: map<nat, ProposalSet>, dst: nat, box: Mailbox, src: nat)
    requires live <= inputs.Keys && src in live
    ensures BoxOk(live, inputs, dst, box) ==> BoxOk(live, inputs, dst, Filed(box, src, inputs[src]))
  {
  }

  lemma {:induction false} GrowsOnward(live: set<nat>, first: Mail, second: Mail, third: Mail)
    requires Grows(live, first, second) && Grows(live, second, third)
    ensures Grows(live, first, third)
  {
    forall i | i in live
      ensures BoxGrows(first[i], third[i])
    {
      assert BoxGrows(first[i], second[i]) && BoxGrows(second[i], third[i]);
    }
  }

  /** Each mailbox has gained exactly the senders whose pair with it is in `sent`. */
  ghost predicate Gained(live: set<nat>, sent: set<Pair>, before: Mail, after: Mail) {
    && live <= before.Keys && live <= after.Keys
    && forall i, j | i in live :: j in after[i] <==> j in before[i] || (j, i) in sent
  }

  lemma {:induction false} GainedOne(live: set<nat>, sent: set<Pair>, before: Mail, mid: Mail, pair: Pair, payload: ProposalSet)
    requires Gained(live, sent, before, mid) && pair.1 in live
    ensures Gained(live, sent + {pair}, before, Delivered(mid, pair.0, pair.1, payload))
  {
    var after := Delivered(mid, pair.0, pair.1, payload);
    forall i, j | i in live
      ensures j in after[i] <==> j in before[i] || (j, i) in sent + {pair}
    {
      assert j in mid[i] <==> j in before[i] || (j, i) in sent;
    }
  }

  /** Deliver exactly those of the pending sends that the network lets through in this batch. */
  method RunBatch(mail: Mailboxes, live: set<nat>, inputs: map<nat, ProposalSet>, pending: set<Pair>, through: set<Pair>)
    requires MailOk(live, inputs, mail.received) && pending <= Pairs(live)
    modifies mail
    ensures MailOk(live, inputs, mail.received) && mail.received.Keys == old(mail.received).Keys
    ensures Grows(live, old(mail.received), mail.received)
    ensures Gained(live, pending * through, old(mail.received), mail.received)
  {
    var todo := pending;
    ghost var sent: set<Pair> := {};
    assert live <= inputs.Keys && live <= mail.received.Keys;
    assert Grows(live, mail.received, mail.received);
    assert Gained(live, sent, mail.received, mail.received);
    assert SentSoFar(pending, todo, through, sent);
    hide MailOk, Grows, Delivered, Gained, SentSoFar;
    while todo != {}
      invariant todo <= pending && SentSoFar(pending, todo, through, sent)
      invariant MailOk(live, inputs, mail.received) && mail.received.Keys == old(mail.received).Keys
      invariant Grows(live, old(mail.received), mail.received)
      invariant Gained(live, sent, old(mail.received), mail.received)
    {
      var pair :| pair in todo;
      assert (pair.0, pair.1) in Pairs(live);
      if pair in through {
        ghost var before := mail.received;
        mail.Deliver(pair.0, pair.1, inputs[pair.0]);
        DeliveredOk(live, inputs, before, pair.0, pair.1);
        DeliveredGrows(live, before, pair.0, pair.1, inputs[pair.0]);
        GrowsOnward(live, old(mail.received), before, mail.received);
        GainedOne(live, sent, old(mail.received), before, pair, inputs[pair.0]);
      }
      sent := SentNext(pending, todo, through, sent, pair);
      todo := todo - {pair};
    }
    SentAtLast(pending, through, sent);
  }

  ghost predicate SentSoFar(pending: set<Pair>, todo: set<Pair>, through: set<Pair>, sent: set<Pair>) {
    sent == (pending - todo) * through
  }

  lemma {:induction false} SentNext(pending: set<Pair>, todo: set<Pair>, through: set<Pair>, sent: set<Pair>, pair: Pair)
    returns (sent': set<Pair>)
    requires SentSoFar(pending, todo, through, sent) && pair in todo && todo <= pending
    ensures SentSoFar(pending, todo - {pair}, through, sent')
    ensures sent' == if pair in through then sent + {pair} else sent
  {
    sent' := if pair in through then sent + {pair} else sent;
    assert pending - (todo - {pair}) == (pending - todo) + {pair};
  }

  lemma {:induction false} SentAtLast(pending: set<Pair>, through: set<Pair>, sent: set<Pair>)
    requires SentSoFar(pending, {}, through, sent)
    ensures sent == pending * through
  {
    assert pending - {} == pending;
  }

  /** Clear every live mailbox and put its owner's input in. */
  method SeedMailboxes(mail: Mailboxes, live: set<nat>, inputs: map<nat, ProposalSet>)
    requires live <= inputs.Keys && live <= mail.received.Keys
    modifies mail
    ensures MailOk(live, inputs, mail.received) && mail.received.Keys == old(mail.received).Keys
    ensures Seeded(live, inputs, mail.received)
  {
    var todo := live;
    while todo != {}
      invariant todo <= live && mail.received.Keys == old(mail.received).Keys
      invariant forall i | i in live && i !in todo :: mail.received[i] == map[i := inputs[i]]
    {
      var id :| id in todo;
      mail.Reset(id, inputs[id]);
      todo := todo - {id};
    }
  }

  function Union(received: map<nat, ProposalSet>): ProposalSet {
    set j, p | j in received && p in received[j] :: p
  }

  /** Every live pair gets through in at least one of the batches that may be attempted. */
  ghost predicate EventuallyDelivers(live: set<nat>, network: nat -> set<Pair>) {
    forall src, dst | src in live && dst in live && src != dst :: GetsThrough(network, (src, dst), MAX_TCAST_RETRIES)
  }

  ghost predicate GetsThrough(network: nat -> set<Pair>, pair: Pair, batches: nat) {
    exists k: nat :: k < batches && pair in network(k)
  }

  // --------------------------------------------------- what a broadcast does, batch by batch

  /** Some live receiver still wants some live sender: it has not heard from it, and either the
      sender is the reliable source or the receiver is short of a majority. */
  ghost predicate Unfinished(live: set<nat>, threshold: nat, b: nat, received: Mail) {
    exists src, dst :: Wanted(live, threshold, b, received, src, dst)
  }

  ghost predicate Wanted(live: set<nat>, threshold: nat, b: nat, received: Mail, src: int, dst: int) {
    && src in live && dst in live && src != dst && dst in received
    && src !in received[dst] && (src == b || |received[dst]| < threshold)
  }

  /** One batch: each receiver gains exactly the senders it wants that the network lets
      through. */
  ghost predicate BatchRule(live: set<nat>, threshold: nat, b: nat, through: set<Pair>, before: Mail, after: Mail) {
    && live <= before.Keys && live <= after.Keys
    && forall i, j: nat | i in live ::
         j in after[i] <==> j in before[i] || (Wanted(live, threshold, b, before, j, i) && (j, i) in through)
  }

  /** The mailboxes before, between and after the batches of one broadcast. */
  ghost predicate Batches(live: set<nat>, threshold: nat, b: nat, network: nat -> set<Pair>, history: seq<Mail>) {
    && history != []
    && forall k | 0 <= k < |history| - 1 ::
         BatchRule(live, threshold, b, network(k), history[k], history[k + 1]) && Unfinished(live, threshold, b, history[k])
  }

  /** The pending pairs are exactly the wanted ones. */
  ghost predicate PendingIsWanted(live: set<nat>, threshold: nat, b: nat, received: Mail, pending: set<Pair>) {
    forall src: nat, dst: nat :: (src, dst) in pending <==> Wanted(live, threshold, b, received, src, dst)
  }

  lemma {:induction false} PrunedIsWanted(live: set<nat>, threshold: nat, b: nat, received: Mail, before: set<Pair>, pending: set<Pair>)
    requires live <= received.Keys && before <= Pairs(live) && Covered(Pairs(live), before, received, threshold, b)
    requires KeepsUnsettled(received, threshold, b, before, pending)
    ensures PendingIsWanted(live, threshold, b, received, pending)
  {
    forall src: nat, dst: nat
      ensures (src, dst) in pending <==> Wanted(live, threshold, b, received, src, dst)
    {
      if src in live && dst in live && src != dst {
        assert (src, dst) in Pairs(live);
      }
      if (src, dst) in pending {
        assert (src, dst) in Pairs(live);
      }
    }
  }

  lemma {:induction false} BatchFollowsRule(
    live: set<nat>, threshold: nat, b: nat, pending: set<Pair>, through: set<Pair>, before: Mail, after: Mail)
    requires PendingIsWanted(live, threshold, b, before, pending) && Gained(live, pending * through, before, after)
    ensures BatchRule(live, threshold, b, through, before, after)
  {
    forall i, j: nat | i in live
      ensures j in after[i] <==> j in before[i] || (Wanted(live, threshold, b, before, j, i) && (j, i) in through)
    {
      assert (j, i) in pending * through <==> Wanted(live, threshold, b, before, j, i) && (j, i) in through;
    }
  }

  lemma {:induction false} WantedLeft(live: set<nat>, threshold: nat, b: nat, received: Mail, pending: set<Pair>)
    requires PendingIsWanted(live, threshold, b, received, pending)
    ensures pending == {} <==> !Unfinished(live, threshold, b, received)
  {
    if pending != {} {
      var pair :| pair in pending;
      assert (pair.0, pair.1) in pending;
      assert Wanted(live, threshold, b, received, pair.0, pair.1);
    }
    if src: nat, dst: nat :| Wanted(live, threshold, b, received, src, dst) {
      assert (src, dst) in pending;
    }
  }

  lemma {:induction false} BatchesGrow(live: set<nat>, threshold: nat, b: nat, network: nat -> set<Pair>, history: seq<Mail>, after: Mail)
    requires Batches(live, threshold, b, network, history) && Unfinished(live, threshold, b, history[|history| - 1])
    requires BatchRule(live, threshold, b, network(|history| - 1), history[|history| - 1], after)
    ensures Batches(live, threshold, b, network, history + [after])
  {
    hide BatchRule, Unfinished;
    var longer := history + [after];
    forall k | 0 <= k < |longer| - 1
      ensures BatchRule(live, threshold, b, network(k), longer[k], longer[k + 1]) && Unfinished(live, threshold, b, longer[k])
    {
      assert longer[k] == history[k];
      if k < |history| - 1 {
        assert longer[k + 1] == history[k + 1];
      }
    }
  }

  /** Drop the pairs that need no further sending. */
  function Pruned(live: set<nat>, received: Mail, threshold: nat, b: nat, pending: set<Pair>): (kept: set<Pair>)
    requires live <= received.Keys && pending <= Pairs(live)
    ensures kept <= Pairs(live) && KeepsUnsettled(received, threshold, b, pending, kept)
  {
    assert forall pair: Pair | pair in Pairs(live) :: (pair.0, pair.1) in Pairs(live);
    set pair | pair in pending && !Settled(received, threshold, b, pair)
  }

  ghost predicate KeepsUnsettled(received: Mail, threshold: nat, b: nat, pending: set<Pair>, kept: set<Pair>) {
    forall pair: Pair :: pair in kept <==> pair in pending && pair.1 in received && !Settled(received, threshold, b, pair)
  }

  lemma {:induction false} AfterPrune(
    live: set<nat>, threshold: nat, b: nat, received: Mail, before: set<Pair>, pending: set<Pair>, network: nat -> set<Pair>, batches: nat)
    requires live <= received.Keys && before <= Pairs(live) && KeepsUnsettled(received, threshold, b, before, pending)
    requires Covered(Pairs(live), before, received, threshold, b) && Heard(before, network, batches, received)
    ensures PendingIsWanted(live, threshold, b, received, pending)
    ensures pending == {} <==> !Unfinished(live, threshold, b, received)
    ensures Covered(Pairs(live), pending, received, threshold, b) && Heard(pending, network, batches, received)
  {
    hide Settled;
    PrunedIsWanted(live, threshold, b, received, before, pending);
    WantedLeft(live, threshold, b, received, pending);
    hide Unfinished, PendingIsWanted;
    forall pair | pair in Pairs(live) && pair !in pending
      ensures pair.1 in received && Settled(received, threshold, b, pair)
    {
      assert (pair.0, pair.1) in Pairs(live);
    }
  }

  lemma {:induction false} AfterBatch(
    live: set<nat>, threshold: nat, b: nat, network: nat -> set<Pair>, batches: nat, pending: set<Pair>,
    before: Mail, after: Mail, history: seq<Mail>)
    requires live <= before.Keys && |history| == batches + 1 && history[batches] == before && pending <= Pairs(live)
    requires PendingIsWanted(live, threshold, b, before, pending) && Unfinished(live, threshold, b, before)
    requires Grows(live, before, after) && Gained(live, pending * network(batches), before, after)
    requires Covered(Pairs(live), pending, before, threshold, b) && Heard(pending, network, batches, before)
    requires Batches(live, threshold, b, network, history)
    ensures Batches(live, threshold, b, network, history + [after])
    ensures Covered(Pairs(live), pending, after, threshold, b) && Heard(pending, network, batches + 1, after)
  {
    BatchFollowsRule(live, threshold, b, pending, network(batches), before, after);
    BatchesGrow(live, threshold, b, network, history, after);
    CoveredStays(live, before, after, pending, threshold, b);
    forall pair | pair in pending ensures pair.1 in live && !Settled(before, threshold, b, pair) {
      assert (pair.0, pair.1) in pending;
    }
    HeardMore(live, pending, network, batches, before, after, threshold, b);
  }

  lemma {:induction false} BeforeFirst(
    live: set<nat>, inputs: map<nat, ProposalSet>, threshold: nat, b: nat, network: nat -> set<Pair>, received: Mail)
    requires MailOk(live, inputs, received)
    ensures live <= received.Keys && Batches(live, threshold, b, network, [received])
    ensures Heard(Pairs(live), network, 0, received) && Covered(Pairs(live), Pairs(live), received, threshold, b)
  {
  }

  /** The retry loop: prune, send what is still pending, let the network run. It goes on while
      anything is wanted, and gives up exactly after `MAX_TCAST_RETRIES` batches. */
  method Disseminate(mail: Mailboxes, live: set<nat>, n: nat, inputs: map<nat, ProposalSet>, b: nat, network: nat -> set<Pair>)
    returns (ok: bool, ghost history: seq<Mail>)
    requires MailOk(live, inputs, mail.received)
    modifies mail
    ensures mail.received.Keys == old(mail.received).Keys
    ensures MailOk(live, inputs, mail.received)
    ensures history != [] && Batches(live, n / 2 + 1, b, network, history)
    ensures history[0] == old(mail.received) && history[|history| - 1] == mail.received
    ensures |history| <= MAX_TCAST_RETRIES + 1 && (!ok ==> |history| == MAX_TCAST_RETRIES + 1)
    ensures ok <==> !Unfinished(live, n / 2 + 1, b, mail.received)
    ensures ok ==> Covered(Pairs(live), {}, mail.received, n / 2 + 1, b)
    ensures EventuallyDelivers(live, network) ==> ok
  {
    hide *;
    var threshold := n / 2 + 1;
    var pending := Pairs(live);
    var attempt := 0;
    history := [mail.received];
    BeforeFirst(live, inputs, threshold, b, network, mail.received);
    while true
      invariant attempt <= MAX_TCAST_RETRIES
      invariant pending <= Pairs(live)
      invariant MailOk(live, inputs, mail.received) && mail.received.Keys == old(mail.received).Keys
      invariant live <= mail.received.Keys
      invariant Covered(Pairs(live), pending, mail.received, threshold, b)
      invariant Heard(pending, network, attempt, mail.received)
      invariant |history| == attempt + 1 && history[0] == old(mail.received) && history[attempt] == mail.received
      invariant Batches(live, threshold, b, network, history)
      decreases MAX_TCAST_RETRIES - attempt
    {
      ghost var unpruned := pending;
      pending := Pruned(live, mail.received, threshold, b, pending);
      AfterPrune(live, threshold, b, mail.received, unpruned, pending, network, attempt);
      if pending == {} { return true, history; }
      if attempt == MAX_TCAST_RETRIES {
        StillPending(live, pending, network, mail.received, threshold, b);
        return false, history;
      }
      ghost var before := mail.received;
      RunBatch(mail, live, inputs, pending, network(attempt));
      AfterBatch(live, threshold, b, network, attempt, pending, before, mail.received, history);
      history := history + [mail.received];
      attempt := attempt + 1;
    }
  }

  lemma {:induction false} GetsThroughLater(network: nat -> set<Pair>, pair: Pair, k: nat, l: nat)
    requires GetsThrough(network, pair, k) && k <= l
    ensures GetsThrough(network, pair, l)
  {
  }

  /** Whoever is in a mailbox at the end was there at the start or got through. */
  lemma {:induction false} OnlyWhatGotThrough(
    live: set<nat>, threshold: nat, b: nat, network: nat -> set<Pair>, history: seq<Mail>, k: nat, i: nat, j: nat)
    requires Batches(live, threshold, b, network, history) && k < |history| && i in live
    requires i in history[k] && j in history[k][i] && i in history[0] && j !in history[0][i]
    ensures j in live && GetsThrough(network, (j, i), k)
  {
    if k == 0 {
    } else {
      BatchAt(live, threshold, b, network, history, k - 1);
      hide *;
      GainedThen(live, threshold, b, network, k - 1, history[k - 1], history[k], i, j);
      if j in history[k - 1][i] {
        OnlyWhatGotThrough(live, threshold, b, network, history, k - 1, i, j);
        GetsThroughLater(network, (j, i), k - 1, k);
      }
    }
  }

  lemma {:induction false} BatchAt(live: set<nat>, threshold: nat, b: nat, network: nat -> set<Pair>, history: seq<Mail>, k: nat)
    requires Batches(live, threshold, b, network, history) && k + 1 < |history|
    ensures BatchRule(live, threshold, b, network(k), history[k], history[k + 1]) && live <= history[k].Keys
  {
  }

  lemma {:induction false} GainedThen(
    live: set<nat>, threshold: nat, b: nat, network: nat -> set<Pair>, k: nat, before: Mail, after: Mail, i: nat, j: nat)
    requires BatchRule(live, threshold, b, network(k), before, after) && i in live && i in after && j in after[i]
    ensures i in before && (j in before[i] || (j in live && GetsThrough(network, (j, i), k + 1)))
  {
    assert j in after[i] <==> j in before[i] || (Wanted(live, threshold, b, before, j, i) && (j, i) in network(k));
  }

  /** Members of `r` are inputs of its owner, or of senders whose pair with it got through. */
  ghost predicate FromWhoGotThrough(live: set<nat>, inputs: map<nat, ProposalSet>, network: nat -> set<Pair>, i: nat, r: ProposalSet)
    requires i in live && live <= inputs.Keys
  {
    forall p | p in r :: p in inputs[i]
                         || exists j :: j in live && GetsThrough(network, (j, i), MAX_TCAST_RETRIES) && p in inputs[j]
  }

  /** Each live mailbox holds its owner's input alone. */
  ghost predicate Seeded(live: set<nat>, inputs: map<nat, ProposalSet>, received: Mail)
    requires live <= inputs.Keys
  {
    live <= received.Keys && forall i | i in live :: received[i] == map[i := inputs[i]]
  }

  lemma {:induction false} ViewsFromWhoGotThrough(
    live: set<nat>, inputs: map<nat, ProposalSet>, threshold: nat, b: nat, network: nat -> set<Pair>, history: seq<Mail>, i: nat)
    requires Batches(live, threshold, b, network, history) && |history| <= MAX_TCAST_RETRIES + 1
    requires live <= inputs.Keys && Seeded(live, inputs, history[0]) && MailOk(live, inputs, history[|history| - 1]) && i in live
    ensures FromWhoGotThrough(live, inputs, network, i, Union(history[|history| - 1][i]))
  {
    hide BatchRule, Unfinished, GetsThrough;
    var last := history[|history| - 1];
    assert BoxOk(live, inputs, i, last[i]);
    forall p | p in Union(last[i])
      ensures p in inputs[i] || exists j :: j in live && GetsThrough(network, (j, i), MAX_TCAST_RETRIES) && p in inputs[j]
    {
      var j :| j in last[i] && p in last[i][j];
      if j != i {
        OnlyWhatGotThrough(live, threshold, b, network, history, |history| - 1, i, j);
        GetsThroughLater(network, (j, i), |history| - 1, MAX_TCAST_RETRIES);
      }
    }
  }

  /** A receiver the reliable source never reaches keeps the broadcast from finishing. */
  lemma {:induction false} SourceMustReach(
    live: set<nat>, inputs: map<nat, ProposalSet>, threshold: nat, b: nat, network: nat -> set<Pair>, history: seq<Mail>, i: nat)
    requires Batches(live, threshold, b, network, history) && |history| <= MAX_TCAST_RETRIES + 1
    requires live <= inputs.Keys && Seeded(live, inputs, history[0]) && live <= history[|history| - 1].Keys
    requires b in live && i in live && i != b && !GetsThrough(network, (b, i), MAX_TCAST_RETRIES)
    ensures Unfinished(live, threshold, b, history[|history| - 1])
  {
    var last := history[|history| - 1];
    if b in last[i] {
      OnlyWhatGotThrough(live, threshold, b, network, history, |history| - 1, i, b);
      GetsThroughLater(network, (b, i), |history| - 1, MAX_TCAST_RETRIES);
    }
    assert Wanted(live, threshold, b, last, b, i);
  }

  /** Some live replica is never reached by the least one. */
  ghost predicate SourceStuck(live: set<nat>, network: nat -> set<Pair>)
    requires live != {}
  {
    exists i :: i in live && i != Minimum(live) && !GetsThrough(network, (Minimum(live), i), MAX_TCAST_RETRIES)
  }

  // ------------------------------------------------------------------ when nothing is lost

  ghost predicate Lossless(live: set<nat>, network: nat -> set<Pair>) {
    forall src, dst | src in live && dst in live && src != dst :: (src, dst) in network(0)
  }

  lemma {:induction false} FirstBatchBringsAll(live: set<nat>, threshold: nat, b: nat, network: nat -> set<Pair>, before: Mail, after: Mail, i: nat)
    requires BatchRule(live, threshold, b, network(0), before, after) && Lossless(live, network) && i in live
    requires threshold > 1 && before[i].Keys == {i}
    ensures after[i].Keys == live
  {
    assert |before[i]| == |before[i].Keys| == 1;
    forall j: nat
      ensures j in after[i] <==> j in live
    {
      assert j in after[i] <==> j in before[i] || (Wanted(live, threshold, b, before, j, i) && (j, i) in network(0));
    }
  }

  ghost predicate FullBoxes(live: set<nat>, received: Mail) {
    live <= received.Keys && forall i | i in live :: received[i].Keys == live
  }

  lemma {:induction false} FirstBatchFills(live: set<nat>, threshold: nat, b: nat, network: nat -> set<Pair>, before: Mail, after: Mail)
    requires BatchRule(live, threshold, b, network(0), before, after) && Lossless(live, network) && threshold > 1
    requires live <= before.Keys && forall i | i in live :: before[i].Keys == {i}
    ensures FullBoxes(live, after)
  {
    assert live <= after.Keys;
    hide BatchRule, Lossless;
    forall i | i in live ensures after[i].Keys == live {
      FirstBatchBringsAll(live, threshold, b, network, before, after, i);
    }
  }

  lemma {:induction false} NothingLeftToWant(live: set<nat>, threshold: nat, b: nat, received: Mail)
    requires FullBoxes(live, received)
    ensures !Unfinished(live, threshold, b, received)
  {
    forall src, dst ensures !Wanted(live, threshold, b, received, src, dst) {
    }
  }

  lemma {:induction false} OnlyOneLive(live: set<nat>, b: nat)
    requires |live| <= 1 && b in live
    ensures live == {b}
  {
    assert |live - {b}| == |live| - 1;
  }

  lemma {:induction false} LosslessDelivers(live: set<nat>, network: nat -> set<Pair>)
    requires Lossless(live, network)
    ensures EventuallyDelivers(live, network)
  {
  }

  lemma {:induction false} LosslessFirst(live: set<nat>, inputs: map<nat, ProposalSet>, n: nat, b: nat, first: Mail)
    requires live <= inputs.Keys && Seeded(live, inputs, first) && b in live && |live| <= n
    ensures !Unfinished(live, n / 2 + 1, b, first) ==> FullBoxes(live, first)
    ensures Unfinished(live, n / 2 + 1, b, first) ==> n > 1
  {
    hide Unfinished;
    if n <= 1 {
      OnlyOneLive(live, b);
      NothingLeftToWant(live, n / 2 + 1, b, first);
    } else if !Unfinished(live, n / 2 + 1, b, first) {
      forall i | i in live ensures i == b {
        if i != b {
          WantedIsUnfinished(live, n / 2 + 1, b, first, b, i);
        }
      }
      assert live == {b};
    }
  }

  lemma {:induction false} WantedIsUnfinished(live: set<nat>, threshold: nat, b: nat, received: Mail, src: nat, dst: nat)
    requires src in live && dst in live && src != dst && dst in received
    requires src !in received[dst] && (src == b || |received[dst]| < threshold)
    ensures Unfinished(live, threshold, b, received)
  {
    assert Wanted(live, threshold, b, received, src, dst);
  }

  /** On a network that loses nothing, everyone hears everyone, in at most one batch. */
  lemma {:induction false} LosslessHearsAll(
    live: set<nat>, inputs: map<nat, ProposalSet>, n: nat, b: nat, network: nat -> set<Pair>, history: seq<Mail>)
    requires Batches(live, n / 2 + 1, b, network, history) && live <= inputs.Keys && Seeded(live, inputs, history[0])
    requires Lossless(live, network) && b in live && |live| <= n && !Unfinished(live, n / 2 + 1, b, history[|history| - 1])
    ensures |history| <= 2 && FullBoxes(live, history[|history| - 1])
  {
    BatchesStart(live, n / 2 + 1, b, network, history);
    SeededBoxes(live, inputs, history[0]);
    hide *;
    LosslessFirst(live, inputs, n, b, history[0]);
    if |history| > 1 {
      FirstBatchFills(live, n / 2 + 1, b, network, history[0], history[1]);
      NothingLeftToWant(live, n / 2 + 1, b, history[1]);
    }
  }

  lemma {:induction false} SeededBoxes(live: set<nat>, inputs: map<nat, ProposalSet>, received: Mail)
    requires live <= inputs.Keys && Seeded(live, inputs, received)
    ensures live <= received.Keys && forall i | i in live :: received[i].Keys == {i}
  {
  }

  lemma {:induction false} BatchesStart(live: set<nat>, threshold: nat, b: nat, network: nat -> set<Pair>, history: seq<Mail>)
    requires Batches(live, threshold, b, network, history)
    ensures |history| > 0
    ensures |history| > 1 ==> BatchRule(live, threshold, b, network(0), history[0], history[1])
                              && Unfinished(live, threshold, b, history[0]) && live <= history[1].Keys
    ensures |history| > 2 ==> Unfinished(live, threshold, b, history[1])
  {
    hide Unfinished;
  }

  lemma {:induction false} MailShape(live: set<nat>, inputs: map<nat, ProposalSet>, received: Mail)
    requires MailOk(live, inputs, received)
    ensures live <= inputs.Keys && live <= received.Keys
  {
  }

  /** Each view in `r` is the inputs of whoever is in its mailbox, and each member of it came
      from its owner or got through. */
  ghost predicate TracedTo(live: set<nat>, inputs: map<nat, ProposalSet>, network: nat -> set<Pair>, received: Mail, r: map<nat, ProposalSet>) {
    && live <= inputs.Keys && live <= received.Keys && r.Keys == live
    && forall i | i in live ::
         r[i] == InputsOf(inputs, received[i].Keys) && FromWhoGotThrough(live, inputs, network, i, r[i])
  }

  /** Every view holds all live replicas' inputs and nothing else. */
  ghost predicate HearsAll(live: set<nat>, inputs: map<nat, ProposalSet>, r: map<nat, ProposalSet>) {
    live <= r.Keys && forall i | i in live :: r[i] == InputsOf(inputs, live)
  }

  lemma {:induction false} StuckIsUnfinished(
    n: nat, live: set<nat>, inputs: map<nat, ProposalSet>, network: nat -> set<Pair>, history: seq<Mail>)
    requires live != {} && SourceStuck(live, network)
    requires Batches(live, n / 2 + 1, Minimum(live), network, history) && |history| <= MAX_TCAST_RETRIES + 1
    requires MailOk(live, inputs, history[|history| - 1]) && Seeded(live, inputs, history[0])
    ensures Unfinished(live, n / 2 + 1, Minimum(live), history[|history| - 1])
  {
    MailShape(live, inputs, history[|history| - 1]);
    hide GetsThrough, MailOk, Batches, Seeded, Unfinished;
    var i :| i in live && i != Minimum(live) && !GetsThrough(network, (Minimum(live), i), MAX_TCAST_RETRIES);
    SourceMustReach(live, inputs, n / 2 + 1, Minimum(live), network, history, i);
  }

  lemma {:induction false} ViewsTraced(
    n: nat, live: set<nat>, inputs: map<nat, ProposalSet>, network: nat -> set<Pair>, b: nat, history: seq<Mail>)
    requires Batches(live, n / 2 + 1, b, network, history) && |history| <= MAX_TCAST_RETRIES + 1
    requires MailOk(live, inputs, history[|history| - 1]) && Seeded(live, inputs, history[0])
    ensures live <= history[|history| - 1].Keys
    ensures TracedTo(live, inputs, network, history[|history| - 1], Views(live, history[|history| - 1]))
  {
    hide *;
    BatchesStart(live, n / 2 + 1, b, network, history);
    var last := history[|history| - 1];
    MailShape(live, inputs, last);
    forall i | i in live
      ensures FromWhoGotThrough(live, inputs, network, i, Union(last[i]))
    {
      ViewsFromWhoGotThrough(live, inputs, n / 2 + 1, b, network, history, i);
    }
    TracedWhen(live, inputs, network, last);
  }

  lemma {:induction false} TracedWhen(live: set<nat>, inputs: map<nat, ProposalSet>, network: nat -> set<Pair>, last: Mail)
    requires MailOk(live, inputs, last) && live <= inputs.Keys && live <= last.Keys
    requires forall i | i in live :: FromWhoGotThrough(live, inputs, network, i, Union(last[i]))
    ensures TracedTo(live, inputs, network, last, Views(live, last))
  {
    hide MailOk, Union, InputsOf, FromWhoGotThrough;
    forall i | i in live ensures Union(last[i]) == InputsOf(inputs, last[i].Keys) {
      UnionIsInputs(live, inputs, last, i);
    }
  }

  lemma {:induction false} LosslessViews(
    n: nat, live: set<nat>, inputs: map<nat, ProposalSet>, network: nat -> set<Pair>, b: nat, history: seq<Mail>)
    requires Batches(live, n / 2 + 1, b, network, history) && live <= inputs.Keys && Seeded(live, inputs, history[0])
    requires Lossless(live, network) && b in live && |live| <= n && !Unfinished(live, n / 2 + 1, b, history[|history| - 1])
    requires MailOk(live, inputs, history[|history| - 1])
    ensures live <= history[|history| - 1].Keys && HearsAll(live, inputs, Views(live, history[|history| - 1]))
  {
    hide *;
    BatchesStart(live, n / 2 + 1, b, network, history);
    LosslessHearsAll(live, inputs, n, b, network, history);
    ViewsOfFull(live, inputs, history[|history| - 1]);
  }

  lemma {:induction false} ViewsOfFull(live: set<nat>, inputs: map<nat, ProposalSet>, last: Mail)
    requires MailOk(live, inputs, last) && FullBoxes(live, last)
    ensures live <= last.Keys && HearsAll(live, inputs, Views(live, last))
  {
    hide InputsOf, Union, MailOk;
    forall i | i in live ensures Union(last[i]) == InputsOf(inputs, live) {
      UnionIsInputs(live, inputs, last, i);
    }
  }

  lemma {:induction false} RanSo(n: nat, live: set<nat>, inputs: map<nat, ProposalSet>, network: nat -> set<Pair>, history: seq<Mail>, ok: bool)
    requires live != {} && live <= inputs.Keys
    requires Batches(live, n / 2 + 1, Minimum(live), network, history)
    requires Seeded(live, inputs, history[0]) && |history| <= MAX_TCAST_RETRIES + 1
    requires ok <==> !Unfinished(live, n / 2 + 1, Minimum(live), history[|history| - 1])
    requires !ok ==> |history| == MAX_TCAST_RETRIES + 1
    requires SourceStuck(live, network) ==> !ok
    ensures Ran(n, live, inputs, network, history, ok)
  {
  }

  /** What the outcome of the retry loop means for the broadcast. */
  lemma {:induction false} OutcomeMeans(
    n: nat, live: set<nat>, inputs: map<nat, ProposalSet>, network: nat -> set<Pair>, b: nat, ok: bool, history: seq<Mail>)
    requires Batches(live, n / 2 + 1, b, network, history) && |history| <= MAX_TCAST_RETRIES + 1
    requires MailOk(live, inputs, history[|history| - 1]) && Seeded(live, inputs, history[0])
    requires b in live && 2 * |live| > n && (EventuallyDelivers(live, network) ==> ok)
    requires ok <==> !Unfinished(live, n / 2 + 1, b, history[|history| - 1])
    requires ok ==> Covered(Pairs(live), {}, history[|history| - 1], n / 2 + 1, b)
    ensures ok ==> Contract(n, live, inputs, Views(live, history[|history| - 1]), Everywhere(live, inputs[b]))
    ensures live != {} && (b == Minimum(live) && (!ok ==> |history| == MAX_TCAST_RETRIES + 1) ==> Ran(n, live, inputs, network, history, ok))
    ensures TracedTo(live, inputs, network, history[|history| - 1], Views(live, history[|history| - 1]))
    ensures |live| <= n && Lossless(live, network) ==> ok && HearsAll(live, inputs, Views(live, history[|history| - 1]))
  {
    hide *;
    BatchesStart(live, n / 2 + 1, b, network, history);
    var last := history[|history| - 1];
    MailShape(live, inputs, last);
    if ok {
      BroadcastDelivers(n, live, inputs, last, b);
    }
    if b == Minimum(live) && (!ok ==> |history| == MAX_TCAST_RETRIES + 1) {
      if SourceStuck(live, network) {
        StuckIsUnfinished(n, live, inputs, network, history);
      }
      RanSo(n, live, inputs, network, history, ok);
    }
    ViewsTraced(n, live, inputs, network, b, history);
    if |live| <= n && Lossless(live, network) {
      LosslessDelivers(live, network);
      LosslessViews(n, live, inputs, network, b, history);
    }
  }

  /** How the batches of a broadcast went: from seeded mailboxes, by the batch rule, for as long
      as anything was wanted and the retries lasted. */
  ghost predicate Ran(n: nat, live: set<nat>, inputs: map<nat, ProposalSet>, network: nat -> set<Pair>, history: seq<Mail>, ok: bool)
    requires live != {} && live <= inputs.Keys
  {
    && Batches(live, n / 2 + 1, Minimum(live), network, history)
    && Seeded(live, inputs, history[0]) && |history| <= MAX_TCAST_RETRIES + 1
    && (ok <==> !Unfinished(live, n / 2 + 1, Minimum(live), history[|history| - 1]))
    && (!ok ==> |history| == MAX_TCAST_RETRIES + 1)
    && (SourceStuck(live, network) ==> !ok)
  }

  /** One broadcast over a network that lets through `network(k)` of batch `k`. No result
      stands for a panic: no live majority, a missing input, or retries exhausted. */
  method Broadcast(mail: Mailboxes, live: set<nat>, n: nat, inputs: map<nat, ProposalSet>, network: nat -> set<Pair>)
    returns (out: Option<TcastResult>, ghost history: seq<Mail>)
    requires live <= mail.received.Keys
    modifies mail
    ensures mail.received.Keys == old(mail.received).Keys
    ensures out.Some? ==> 2 * |live| > n && live != {} && live <= inputs.Keys
    ensures out.Some? ==> Contract(n, live, inputs, out.value.r, Everywhere(live, out.value.b))
    ensures out.Some? ==> out.value.b == inputs[Minimum(live)]
    ensures 2 * |live| > n && live <= inputs.Keys && EventuallyDelivers(live, network) ==> out.Some?
    ensures 2 * |live| > n && live <= inputs.Keys ==> live != {} && Ran(n, live, inputs, network, history, out.Some?)
    ensures out.Some? ==> history != [] && TracedTo(live, inputs, network, history[|history| - 1], out.value.r)
    ensures 2 * |live| > n && |live| <= n && live <= inputs.Keys && Lossless(live, network) ==>
              out.Some? && HearsAll(live, inputs, out.value.r)
  {
    hide *;
    history := [];
    if 2 * |live| <= n { return None, history; }
    if !(live <= inputs.Keys) { return None, history; }
    assert live != {};
    var b := Minimum(live);
    SeedMailboxes(mail, live, inputs);
    var ok;
    ok, history := Disseminate(mail, live, n, inputs, b, network);
    OutcomeMeans(n, live, inputs, network, b, ok, history);
    if !ok { return None, history; }
    out := Some(TcastResult(Views(live, mail.received), inputs[b]));
  }

  /** All members of the inputs of `who`. */
  function InputsOf(inputs: map<nat, ProposalSet>, who: set<nat>): ProposalSet {
    set j, p | j in who && j in inputs && p in inputs[j] :: p
  }

  lemma {:induction false} UnionIsInputs(live: set<nat>, inputs: map<nat, ProposalSet>, received: Mail, i: nat)
    requires MailOk(live, inputs, received) && i in live
    ensures Union(received[i]) == InputsOf(inputs, received[i].Keys)
  {
    assert BoxOk(live, inputs, i, received[i]);
  }

  function Pairs(live: set<nat>): (pairs: set<Pair>)
    ensures forall src, dst :: (src, dst) in pairs <==> src in live && dst in live && src != dst
  {
    set src, dst | src in live && dst in live && src != dst :: (src, dst)
  }

  function Everywhere(live: set<nat>, b: ProposalSet): map<nat, ProposalSet> {
    map i | i in live :: b
  }

  function Views(live: set<nat>, received: Mail): map<nat, ProposalSet>
    requires live <= received.Keys
  {
    map i | i in live :: Union(received[i])
  }

  /** A pending pair the network has let through before has arrived. */
  ghost predicate Heard(pending: set<Pair>, network: nat -> set<Pair>, batches: nat, received: Mail) {
    forall pair | pair in pending && GetsThrough(network, pair, batches) ::
      pair.1 in received && pair.0 in received[pair.1]
  }

  /** After pruning, nothing pending was ever let through. */
  lemma {:induction false} HeardMore(
    live: set<nat>, pending: set<Pair>, network: nat -> set<Pair>, batches: nat, before: Mail, after: Mail, threshold: nat, b: nat)
    requires Heard(pending, network, batches, before) && Gained(live, pending * network(batches), before, after)
    requires forall pair | pair in pending :: pair.1 in live && pair.1 in before && !Settled(before, threshold, b, pair)
    ensures Heard(pending, network, batches + 1, after)
  {
    forall pair | pair in pending && GetsThrough(network, pair, batches + 1)
      ensures pair.1 in after && pair.0 in after[pair.1]
    {
      var k: nat :| k < batches + 1 && pair in network(k);
      if k < batches {
        assert GetsThrough(network, pair, batches);
        assert false;
      }
      assert (pair.0, pair.1) in pending * network(batches);
    }
  }

  lemma {:induction false} StillPending(
    live: set<nat>, pending: set<Pair>, network: nat -> set<Pair>, received: Mail, threshold: nat, b: nat)
    requires pending <= Pairs(live) && pending != {}
    requires Heard(pending, network, MAX_TCAST_RETRIES, received)
    requires PendingIsWanted(live, threshold, b, received, pending)
    ensures !EventuallyDelivers(live, network)
  {
    var pair :| pair in pending;
    assert (pair.0, pair.1) in pending && Wanted(live, threshold, b, received, pair.0, pair.1);
    assert (pair.0, pair.1) in Pairs(live);
    assert !GetsThrough(network, (pair.0, pair.1), MAX_TCAST_RETRIES);
  }

  lemma {:induction false} CoveredStays(
    live: set<nat>, before: Mail, after: Mail,
    pending: set<Pair>, threshold: nat, b: nat)
    requires Grows(live, before, after) && Covered(Pairs(live), pending, before, threshold, b)
    ensures Covered(Pairs(live), pending, after, threshold, b)
  {
    forall pair | pair in Pairs(live) && pair !in pending
      ensures pair.1 in after && Settled(after, threshold, b, pair)
    {
      assert (pair.0, pair.1) in Pairs(live);
      SettledStays(live, before, after, threshold, b, pair);
    }
  }

  /** With nothing left pending, every mailbox holds a majority's inputs and the lowest live
      replica's. */
  lemma {:induction false} MailboxFull(
    n: nat, live: set<nat>, inputs: map<nat, ProposalSet>, received: Mail, b: nat, i: nat)
    requires MailOk(live, inputs, received) && 2 * |live| > n && b in live && i in live
    requires Covered(Pairs(live), {}, received, n / 2 + 1, b)
    ensures b in received[i] && received[i].Keys <= live && 2 * |received[i].Keys| > n
  {
    assert BoxOk(live, inputs, i, received[i]);
    if b != i {
      assert (b, i) in Pairs(live);
    }
    assert |received[i].Keys| == |received[i]|;
    if |received[i]| < n / 2 + 1 {
      forall j | j in live ensures j in received[i] {
        if j != i {
          assert (j, i) in Pairs(live);
        }
      }
      SubsetCardinality(live, received[i].Keys);
    }
  }

  lemma {:induction false} UnionHolds(live: set<nat>, inputs: map<nat, ProposalSet>, received: Mail, i: nat)
    requires MailOk(live, inputs, received) && i in live
    ensures forall j | j in received[i].Keys :: j in inputs && inputs[j] <= Union(received[i])
    ensures forall p | p in Union(received[i]) :: exists j :: j in live && p in inputs[j]
  {
    assert BoxOk(live, inputs, i, received[i]);
    forall p | p in Union(received[i])
      ensures exists j :: j in live && p in inputs[j]
    {
      var j :| j in received[i] && p in received[i][j];
    }
  }

  lemma {:induction false} ViewIsGenuine(
    n: nat, live: set<nat>, inputs: map<nat, ProposalSet>, received: Mail, b: nat, i: nat)
    requires MailOk(live, inputs, received) && 2 * |live| > n && b in live && i in live
    requires Covered(Pairs(live), {}, received, n / 2 + 1, b)
    ensures Genuine(n, live, inputs, Union(received[i])) && inputs[b] <= Union(received[i])
  {
    MailboxFull(n, live, inputs, received, b, i);
    UnionHolds(live, inputs, received, i);
    hide Covered, Union, BoxOk;
    assert received[i].Keys <= live && HoldsAll(inputs, received[i].Keys, Union(received[i]));
  }

  lemma {:induction false} BroadcastDelivers(
    n: nat, live: set<nat>, inputs: map<nat, ProposalSet>, received: Mail, b: nat)
    requires MailOk(live, inputs, received) && 2 * |live| > n && b in live
    requires Covered(Pairs(live), {}, received, n / 2 + 1, b)
    ensures Contract(n, live, inputs, Views(live, received), Everywhere(live, inputs[b]))
  {
    hide Covered, Union, Genuine, BoxOk;
    forall i | i in live
      ensures Genuine(n, live, inputs, Union(received[i])) && inputs[b] <= Union(received[i])
    {
      ViewIsGenuine(n, live, inputs, received, b, i);
    }
  }
}
