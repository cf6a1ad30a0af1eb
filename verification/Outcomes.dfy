// What can still become of an intent, and which of its changes the transition table does not list.
module Outcomes {
  import opened Wrappers
  import opened FileTables
  import opened Items
  import R = ItemRuns
  import W = SendRuns
  import opened Intents
  import opened IntentService

  // --- refused for good ---------------------------------------------------------------

  // A flow whose file was built, and whose item was rejected.
  predicate Declined(b: Books, k: (nat, FlowName)) {
    && k in b.flows && b.flows[k].file.Some?
    && Behind(b.depot.items, b.flows[k].file.value, k.1, Rejected)
  }

  lemma DeclinedStays(d: Depot, after: Depot, f: FlowName, row: FlowRow, again: FlowRow)
    requires FlowFits(d, f, row) && row.file.Some? && again.file == row.file
    requires Behind(d.items, row.file.value, f, Rejected)
    requires Grown(d, after) || (R.OnlyMovesSubmitted(d.items, after.items) && after.world == d.world)
    ensures Behind(after.items, again.file.value, f, Rejected)
  {
    var file, table := row.file.value, TableOf(f);
    if Grown(d, after) {
      GrownKeepsRows(d, after, file, table);
    } else {
      assert RowsOf(after.items, file, table) == RowsOf(d.items, file, table);
    }
  }

  lemma CommandKeepsDeclined(s: Submitter, b: Books, c: Command, k: (nat, FlowName))
    requires s.Sound() && Safe(b) && Allowed(b, c) && Declined(b, k)
    ensures Declined(Do(s, b, c), k)
  {
    CommandKeepsFinal(s, b, c);
    DepotMoves(s, b, c);
    assert FlowFits(b.depot, k.1, b.flows[k]);
    DeclinedStays(b.depot, Do(s, b, c).depot, k.1, b.flows[k], Do(s, b, c).flows[k]);
  }

  lemma DeclinedIsNotActed(b: Books, k: (nat, FlowName))
    requires Safe(b) && Declined(b, k)
    ensures k.0 in b.intents && b.intents[k.0].state != Acted
  {
    assert FlowFits(b.depot, k.1, b.flows[k]) && IntentFits(b, k.0);
    var i :| RowsOf(b.depot.items, b.flows[k].file.value, TableOf(k.1)) == {i};
    assert i in RowsOf(b.depot.items, b.flows[k].file.value, TableOf(k.1));
    assert k.1 == EcvnFlow || k.1 == SevFlow || k.1 == WmanFlow;
  }

  // Once the item of a flow is rejected, nothing makes its intent acted.
  lemma {:induction false} DeclinedForGood(s: Submitter, b: Books, cs: seq<Command>, k: (nat, FlowName))
    requires s.Sound() && Safe(b) && Declined(b, k) && Possible(s, b, cs)
    ensures Declined(After(s, b, cs), k)
    ensures k.0 in After(s, b, cs).intents && After(s, b, cs).intents[k.0].state != Acted
    decreases |cs|
  {
    if cs == [] {
      DeclinedIsNotActed(b, k);
    } else {
      CommandKeepsDeclined(s, b, cs[0], k);
      CommandIsSafe(s, b, cs[0]);
      DeclinedForGood(s, Do(s, b, cs[0]), cs[1..], k);
    }
  }

  // --- when an intent can still be acted ----------------------------------------------------

  // Answers from central systems, reconciled at one time.
  predicate Answers(cs: seq<Command>, now: int) {
    forall c :: c in cs ==> c.Feedback? || (c.ReconcileFile? && c.now == now)
  }

  // An open intent before its gate closure, with a file for each flow.
  predicate Waiting(b: Books, id: nat, now: int) {
    && id in b.intents && !Terminal(b.intents[id].state) && now < b.intents[id].closure
    && forall f :: f in REQUIRED ==> (id, f) in b.flows && b.flows[(id, f)].file.Some?
  }

  // No flow is stranded and none is declined.
  predicate Hopeful(b: Books, id: nat) {
    forall f :: f in REQUIRED ==> !Stranded(b, (id, f)) && !Declined(b, (id, f))
  }

  lemma OneItem(b: Books, k: (nat, FlowName)) returns (i: nat)
    requires Safe(b) && k in b.flows && b.flows[k].file.Some?
    ensures RowsOf(b.depot.items, b.flows[k].file.value, TableOf(k.1)) == {i} && i in b.depot.items
    ensures b.depot.items[i].file == b.flows[k].file.value && b.depot.items[i].table == TableOf(k.1)
    ensures Stranded(b, k) <==> b.depot.items[i].state == Pending
    ensures Declined(b, k) <==> b.depot.items[i].state == Rejected
  {
    assert FlowFits(b.depot, k.1, b.flows[k]);
    i :| RowsOf(b.depot.items, b.flows[k].file.value, TableOf(k.1)) == {i};
    assert i in RowsOf(b.depot.items, b.flows[k].file.value, TableOf(k.1));
  }

  // The acceptance of the item of a flow.
  function AcceptanceOf(f: FlowName, i: nat): R.Event {
    if f.WmanFlow? then R.AcceptActivity(i) else R.AcceptOne(TableOf(f), i)
  }

  lemma AcceptanceAccepts(d: Depot, f: FlowName, i: nat)
    requires i in d.items && d.items[i].table == TableOf(f) && d.items[i].state == Submitted
    ensures var e := AcceptanceOf(f, i);
            && R.IsFeedback(e) && R.Enabled(R.Desk(d.world, d.items, d.nextItem, []), e)
            && OneAccepted(d.items, Heard(d, e).items, i)
  {
  }

  lemma ReconcileIs(b: Books, k: (nat, FlowName), now: int)
    requires Safe(b) && k in b.flows && b.flows[k].file.Some?
    ensures k.0 in b.intents && Reconcile(b, b.flows[k].file.value, now) == ReconcileFlow(b, k, b.flows[k].file.value, now)
  {
    var file := b.flows[k].file.value;
    assert k in FlowsOf(b.flows, file);
    var j :| j in FlowsOf(b.flows, file)
          && Reconcile(b, file, now) == if j.0 in b.intents then ReconcileFlow(b, j, file, now) else b;
    assert j == k;
  }

  // --- runs of answers

  // Some answers, reconciled at this time, lead from these books to those.
  ghost predicate Leads(s: Submitter, b: Books, after: Books, now: int) {
    exists cs: seq<Command> :: Possible(s, b, cs) && Answers(cs, now) && After(s, b, cs) == after
  }

  lemma OneCommand(s: Submitter, b: Books, c: Command, rest: seq<Command>)
    requires Allowed(b, c) && Possible(s, Do(s, b, c), rest)
    ensures Possible(s, b, [c] + rest) && After(s, b, [c] + rest) == After(s, Do(s, b, c), rest)
  {
    assert ([c] + rest)[1..] == rest;
  }

  lemma {:induction false} RunOn(s: Submitter, b: Books, cs: seq<Command>, more: seq<Command>)
    requires Possible(s, b, cs) && Possible(s, After(s, b, cs), more)
    ensures Possible(s, b, cs + more) && After(s, b, cs + more) == After(s, After(s, b, cs), more)
    decreases |cs|
  {
    if cs == [] {
      assert cs + more == more;
    } else {
      RunOn(s, Do(s, b, cs[0]), cs[1..], more);
      OneCommand(s, b, cs[0], cs[1..] + more);
      assert [cs[0]] + (cs[1..] + more) == cs + more;
    }
  }

  lemma LeadsNowhere(s: Submitter, b: Books, now: int)
    ensures Leads(s, b, b, now)
  {
    assert Possible(s, b, []) && After(s, b, []) == b && Answers([], now);
  }

  lemma LeadsByOne(s: Submitter, b: Books, c: Command, now: int)
    requires Allowed(b, c) && (c.Feedback? || (c.ReconcileFile? && c.now == now))
    ensures Leads(s, b, Do(s, b, c), now)
  {
    OneCommand(s, b, c, []);
    assert [c] + [] == [c] && Answers([c], now);
  }

  lemma LeadsOn(s: Submitter, a: Books, b: Books, c: Books, now: int)
    requires Leads(s, a, b, now) && Leads(s, b, c, now)
    ensures Leads(s, a, c, now)
  {
    var cs: seq<Command> :| Possible(s, a, cs) && Answers(cs, now) && After(s, a, cs) == b;
    var more: seq<Command> :| Possible(s, b, more) && Answers(more, now) && After(s, b, more) == c;
    RunOn(s, a, cs, more);
    assert Answers(cs + more, now);
  }

  // --- the answer for one flow

  // The books once the item of a flow has been accepted.
  ghost predicate Heeded(b: Books, h: Books, k: (nat, FlowName))
    requires k in b.flows && b.flows[k].file.Some?
  {
    && Safe(h) && h.intents == b.intents && h.flows == b.flows
    && Behind(h.depot.items, b.flows[k].file.value, k.1, Accepted)
    && Hopeful(h, k.0)
  }

  // The items after one was accepted.
  predicate OneAccepted(items: map<nat, Item>, after: map<nat, Item>, i: nat) {
    && after.Keys == items.Keys && i in items && after[i].state == Accepted
    && after[i].file == items[i].file && after[i].table == items[i].table
    && forall j :: j in items && j != i ==> after[j] == items[j]
  }

  // The acceptance of one item takes no hope from any flow.
  lemma HopeStays(b: Books, h: Books, k: (nat, FlowName), i: nat)
    requires Safe(b) && k in b.flows && b.flows[k].file.Some? && !Stranded(b, k) && !Declined(b, k)
    requires h.flows == b.flows && OneAccepted(b.depot.items, h.depot.items, i)
    ensures !Stranded(h, k) && !Declined(h, k)
  {
    var j := OneItem(b, k);
    assert j in RowsOf(h.depot.items, b.flows[k].file.value, TableOf(k.1));
  }

  lemma HeedItem(b: Books, id: nat, f: FlowName, i: nat, now: int)
    requires Safe(b) && Waiting(b, id, now) && f in REQUIRED && Hopeful(b, id)
    requires RowsOf(b.depot.items, b.flows[(id, f)].file.value, TableOf(f)) == {i} && i in b.depot.items
    requires b.depot.items[i].table == TableOf(f) && b.depot.items[i].state == Submitted
    ensures var e := AcceptanceOf(f, i);
            && Allowed(b, Feedback(e))
            && Heeded(b, b.(depot := Heard(b.depot, e)), (id, f))
  {
    var e := AcceptanceOf(f, i);
    AcceptanceAccepts(b.depot, f, i);
    FeedbackIsSafe(b, e);
    var h := b.(depot := Heard(b.depot, e));
    forall g | g in REQUIRED ensures !Stranded(h, (id, g)) && !Declined(h, (id, g)) {
      HopeStays(b, h, (id, g), i);
    }
    AcceptedIsBehind(b.depot.items, h.depot.items, b.flows[(id, f)].file.value, f, i);
  }

  lemma HearFlow(s: Submitter, b: Books, id: nat, f: FlowName, now: int) returns (h: Books)
    requires Safe(b) && Waiting(b, id, now) && f in REQUIRED && Hopeful(b, id)
    ensures Heeded(b, h, (id, f)) && Leads(s, b, h, now)
  {
    var i := OneItem(b, (id, f));
    if b.depot.items[i].state == Accepted {
      h := b;
      LeadsNowhere(s, b, now);
    } else {
      HeedItem(b, id, f, i, now);
      LeadsByOne(s, b, Feedback(AcceptanceOf(f, i)), now);
      h := b.(depot := Heard(b.depot, AcceptanceOf(f, i)));
    }
  }

  lemma AcceptedIsBehind(items: map<nat, Item>, after: map<nat, Item>, file: nat, f: FlowName, i: nat)
    requires RowsOf(items, file, TableOf(f)) == {i} && OneAccepted(items, after, i)
    ensures Behind(after, file, f, Accepted)
  {
    forall j | j in RowsOf(after, file, TableOf(f)) ensures after[j].state == Accepted {
      assert j in RowsOf(items, file, TableOf(f));
    }
  }

  predicate AcceptedAt(b: Books, id: nat, f: FlowName) {
    (id, f) in b.flows && b.flows[(id, f)].state == FlowAccepted
  }

  // Where the answer for one flow leads: to an acted intent, or on with a flow more accepted and another
  // that is not.
  predicate FurtherOn(after: Books, id: nat, now: int) {
    id in after.intents
    && (after.intents[id].state == Acted
        || (Waiting(after, id, now) && Hopeful(after, id) && exists f :: f in REQUIRED && !AcceptedAt(after, id, f)))
  }

  lemma SettledAnswers(b: Books, id: nat, now: int)
    requires id in b.intents && now < b.intents[id].closure && forall g :: g in REQUIRED ==> (id, g) in b.flows
    ensures var after := Settle(b, id, now);
            && (Terminal(after.intents[id].state) ==> after.intents[id].state == Acted)
            && (after.intents[id].state == Acted <==> forall g :: g in REQUIRED ==> AcceptedAt(b, id, g))
  {
    AllFlowStates(b, id);
    ResolveMeans(FlowStates(b, id), now >= b.intents[id].closure);
    SettledActs(b, id, now);
  }

  lemma ReconciledIs(b: Books, k: (nat, FlowName), now: int)
    requires Safe(b) && Waiting(b, k.0, now) && k in b.flows && k.1 in REQUIRED
    requires Behind(b.depot.items, b.flows[k].file.value, k.1, Accepted)
    ensures Reconcile(b, b.flows[k].file.value, now)
         == Settle(b.(flows := b.flows[k := b.flows[k].(state := FlowAccepted)]), k.0, now)
  {
    ReconcileIs(b, k, now);
    assert FlowFits(b.depot, k.1, b.flows[k]);
    ReadBackIs(b.depot, b.flows[k], k.1);
  }

  lemma NowAccepted(b: Books, changed: Books, id: nat, f: FlowName)
    requires (id, f) in b.flows
    requires changed == b.(flows := b.flows[(id, f) := b.flows[(id, f)].(state := FlowAccepted)])
    ensures AcceptedAt(changed, id, f) && forall g :: AcceptedAt(b, id, g) ==> AcceptedAt(changed, id, g)
    ensures forall g :: (id, g) in b.flows ==> (id, g) in changed.flows && changed.flows[(id, g)].file == b.flows[(id, g)].file
  {
  }

  lemma SettledGoesOn(b: Books, changed: Books, id: nat, f: FlowName, now: int)
    requires Waiting(b, id, now) && Hopeful(b, id) && f in REQUIRED
    requires changed == b.(flows := b.flows[(id, f) := b.flows[(id, f)].(state := FlowAccepted)])
    ensures var after := Settle(changed, id, now);
            && FurtherOn(after, id, now) && AcceptedAt(after, id, f)
            && forall g :: AcceptedAt(b, id, g) ==> AcceptedAt(after, id, g)
  {
    NowAccepted(b, changed, id, f);
    SettledAnswers(changed, id, now);
    SameHope(b, Settle(changed, id, now), id);
  }

  lemma AnswerFlow(s: Submitter, b: Books, id: nat, f: FlowName, now: int) returns (after: Books)
    requires Safe(b) && Waiting(b, id, now) && f in REQUIRED && Hopeful(b, id)
    ensures Leads(s, b, after, now) && Safe(after) && FurtherOn(after, id, now) && AcceptedAt(after, id, f)
    ensures forall g :: AcceptedAt(b, id, g) ==> AcceptedAt(after, id, g)
  {
    var h := HearFlow(s, b, id, f, now);
    var c := ReconcileFile(b.flows[(id, f)].file.value, now);
    after := Reconcile(h, c.file, now);
    ReconciledIs(h, (id, f), now);
    ReconcileIsSafe(h, c.file, now);
    SettledGoesOn(h, h.(flows := h.flows[(id, f) := h.flows[(id, f)].(state := FlowAccepted)]), id, f, now);
    LeadsByOne(s, h, c, now);
    LeadsOn(s, b, h, after, now);
  }

  lemma SameHope(b: Books, after: Books, id: nat)
    requires Hopeful(b, id) && after.depot == b.depot
    requires forall g :: g in REQUIRED ==> (id, g) in b.flows && b.flows[(id, g)].file.Some?
    requires forall g :: g in REQUIRED ==> (id, g) in after.flows && after.flows[(id, g)].file == b.flows[(id, g)].file
    ensures Hopeful(after, id)
  {
    forall f | f in REQUIRED ensures !Stranded(after, (id, f)) && !Declined(after, (id, f)) {
      assert !Stranded(b, (id, f)) && !Declined(b, (id, f));
    }
  }

  lemma AnswerLast(s: Submitter, b: Books, id: nat, now: int) returns (after: Books)
    requires Safe(b) && Waiting(b, id, now) && Hopeful(b, id)
    requires AcceptedAt(b, id, EcvnFlow) && AcceptedAt(b, id, SevFlow)
    ensures Leads(s, b, after, now) && id in after.intents && after.intents[id].state == Acted
  {
    after := AnswerFlow(s, b, id, WmanFlow, now);
  }

  lemma AnswerTwo(s: Submitter, b: Books, id: nat, now: int) returns (after: Books)
    requires Safe(b) && Waiting(b, id, now) && Hopeful(b, id) && AcceptedAt(b, id, EcvnFlow)
    ensures Leads(s, b, after, now) && id in after.intents && after.intents[id].state == Acted
  {
    after := AnswerFlow(s, b, id, SevFlow, now);
    if after.intents[id].state != Acted {
      var last := AnswerLast(s, after, id, now);
      LeadsOn(s, b, after, last, now);
      after := last;
    }
  }

  lemma AnswerAll(s: Submitter, b: Books, id: nat, now: int) returns (after: Books)
    requires Safe(b) && Waiting(b, id, now) && Hopeful(b, id)
    ensures Leads(s, b, after, now) && id in after.intents && after.intents[id].state == Acted
  {
    after := AnswerFlow(s, b, id, EcvnFlow, now);
    if after.intents[id].state != Acted {
      var last := AnswerTwo(s, after, id, now);
      LeadsOn(s, b, after, last, now);
      after := last;
    }
  }

  lemma NeverActs(s: Submitter, b: Books, cs: seq<Command>, id: nat)
    requires s.Sound() && Safe(b) && Possible(s, b, cs) && !Hopeful(b, id)
    ensures id in After(s, b, cs).intents && After(s, b, cs).intents[id].state != Acted
  {
    var f :| f in REQUIRED && (Stranded(b, (id, f)) || Declined(b, (id, f)));
    if Stranded(b, (id, f)) {
      StrandedForGood(s, b, cs, (id, f));
    } else {
      DeclinedForGood(s, b, cs, (id, f));
    }
  }

  // An open intent with its three files can still become acted exactly when no flow is stranded and none
  // declined: then answers alone, reconciled before the gate closes, bring it there; otherwise no run of
  // any commands does.
  lemma CanStillAct(s: Submitter, b: Books, id: nat, now: int)
    requires s.Sound() && Safe(b) && Waiting(b, id, now)
    ensures Hopeful(b, id) <==>
              exists cs :: Possible(s, b, cs) && Answers(cs, now)
                           && id in After(s, b, cs).intents
                           && After(s, b, cs).intents[id].state == Acted
    ensures !Hopeful(b, id) ==>
              forall cs :: Possible(s, b, cs) ==>
                id in After(s, b, cs).intents && After(s, b, cs).intents[id].state != Acted
  {
    if Hopeful(b, id) {
      var after := AnswerAll(s, b, id, now);
      var cs: seq<Command> :| Possible(s, b, cs) && Answers(cs, now) && After(s, b, cs) == after;
    } else {
      forall cs | Possible(s, b, cs)
        ensures id in After(s, b, cs).intents
        ensures After(s, b, cs).intents[id].state != Acted
      {
        NeverActs(s, b, cs, id);
      }
    }
  }

  // --- changes of state and the transition table ------------------------------------------------

  // What is to be retried and has a file is stranded: only a failed delivery leaves a flow so.
  predicate RetriesAreStranded(b: Books) {
    forall k :: k in b.flows && Intents.Retryable(b.flows[k].state) && b.flows[k].file.Some? ==> Stranded(b, k)
  }

  lemma StillStranded(b: Books, after: Books, k: (nat, FlowName))
    requires FlowsFit(b) && Stranded(b, k) && k in after.flows && after.flows[k].file == b.flows[k].file
    requires Grown(b.depot, after.depot)
          || (R.OnlyMovesSubmitted(b.depot.items, after.depot.items) && after.depot.world == b.depot.world)
    ensures Stranded(after, k)
  {
    assert FlowFits(b.depot, k.1, b.flows[k]);
    StrandedStays(b.depot, after.depot, k.1, b.flows[k], after.flows[k]);
  }

  // A try of a flow leaves it sent, or failed and stranded or without a file.
  lemma TryStrands(s: Submitter, b: Books, id: nat, f: FlowName, delivered: bool, now: int)
    requires s.Sound() && DepotFits(b.depot) && id in b.intents && (id, f) in b.flows
    requires FlowFits(b.depot, f, b.flows[(id, f)])
    requires b.flows[(id, f)].file.Some? ==> Stranded(b, (id, f))
    ensures var r := Try(s, b, id, f, delivered, now); var row := RecordFlow(b.flows[(id, f)], r.1);
            && (row.state == FlowSent || row.state == FlowFailed)
            && (row.state == FlowFailed && row.file.Some? ==> Behind(r.0.items, row.file.value, f, Pending))
  {
    var row := b.flows[(id, f)];
    if row.file.Some? {
      assert ResendFits(b.depot, row.file.value, s.resend(b.depot, row.file.value, delivered, now), delivered);
      GrownKeepsRows(b.depot, s.resend(b.depot, row.file.value, delivered, now).0, row.file.value, TableOf(f));
    } else {
      assert SubmitFits(b.depot, f, s.submit(b.depot, b.intents[id].intent, f, delivered, now), delivered);
    }
  }

  // What a try made of a flow row.
  predicate Tried(d: Depot, f: FlowName, row: FlowRow) {
    && (row.state == FlowSent || row.state == FlowFailed)
    && (row.state == FlowFailed && row.file.Some? ==> Behind(d.items, row.file.value, f, Pending))
  }

  lemma BookedStrands(b: Books, id: nat, f: FlowName, now: int, r: (Depot, W.Sending))
    requires FlowsFit(b) && RetriesAreStranded(b) && (id, f) in b.flows && Grown(b.depot, r.0)
    requires Tried(r.0, f, RecordFlow(b.flows[(id, f)], r.1))
    ensures RetriesAreStranded(Booked(b, id, f, now, r))
  {
    var after := Booked(b, id, f, now, r);
    forall k | k in after.flows && Intents.Retryable(after.flows[k].state) && after.flows[k].file.Some?
      ensures Stranded(after, k)
    {
      if k != (id, f) {
        StillStranded(b, after, k);
      }
    }
  }

  lemma {:induction false} SendAllStrands(s: Submitter, b: Books, id: nat, list: seq<FlowName>,
                                          delivered: map<FlowName, bool>, now: int)
    requires s.Sound() && DepotFits(b.depot) && FlowsFit(b) && id in b.intents && RetriesAreStranded(b)
    requires NoRepeats(list) && forall f :: f in list ==> (id, f) in b.flows && Intents.Retryable(b.flows[(id, f)].state)
    ensures var after := SendAll(s, b, id, list, delivered, now);
            RetriesAreStranded(after) && forall f :: f in list ==> SentOrFailed(after, id, f)
  {
    if list != [] {
      var n := |list| - 1;
      var front, f := list[..n], list[n];
      assert list == front + [f];
      SendAllStrands(s, b, id, front, delivered, now);
      OneMoreTried(s, b, id, front, f, delivered, now);
    }
  }

  predicate SentOrFailed(b: Books, id: nat, f: FlowName) {
    (id, f) in b.flows && (b.flows[(id, f)].state == FlowSent || b.flows[(id, f)].state == FlowFailed)
  }

  lemma OneMoreTried(s: Submitter, b: Books, id: nat, front: seq<FlowName>, f: FlowName,
                     delivered: map<FlowName, bool>, now: int)
    requires s.Sound() && DepotFits(b.depot) && FlowsFit(b) && id in b.intents && (id, f) in b.flows
    requires f !in front && (forall g :: g in front ==> (id, g) in b.flows) && Intents.Retryable(b.flows[(id, f)].state)
    requires RetriesAreStranded(SendAll(s, b, id, front, delivered, now))
    ensures var before := SendAll(s, b, id, front, delivered, now);
            var after := Booked(before, id, f, now, Try(s, before, id, f, Answer(delivered, f), now));
            && RetriesAreStranded(after) && SentOrFailed(after, id, f)
            && forall g :: g != f && SentOrFailed(before, id, g) ==> SentOrFailed(after, id, g)
  {
    var before := SendAll(s, b, id, front, delivered, now);
    BeforeTry(s, b, id, front, f, delivered, now);
    SendAllFits(s, b, id, front, delivered, now);
    TryOne(s, before, id, f, Answer(delivered, f), now);
  }

  lemma TryOne(s: Submitter, b: Books, id: nat, f: FlowName, delivered: bool, now: int)
    requires s.Sound() && DepotFits(b.depot) && FlowsFit(b) && id in b.intents && (id, f) in b.flows
    requires RetriesAreStranded(b) && Intents.Retryable(b.flows[(id, f)].state)
    ensures var after := Booked(b, id, f, now, Try(s, b, id, f, delivered, now));
            && RetriesAreStranded(after) && SentOrFailed(after, id, f)
            && forall g :: g != f && SentOrFailed(b, id, g) ==> SentOrFailed(after, id, g)
  {
    TryFits(s, b, id, f, delivered, now);
    TryStrands(s, b, id, f, delivered, now);
    BookedStrands(b, id, f, now, Try(s, b, id, f, delivered, now));
  }

  lemma EnsuredStrands(b: Books, id: nat)
    requires RetriesAreStranded(b)
    ensures RetriesAreStranded(b.(flows := EnsureFlows(b.flows, id)))
  {
    var ready := b.(flows := EnsureFlows(b.flows, id));
    Ensured(b.flows, id);
    forall k | k in ready.flows && Intents.Retryable(ready.flows[k].state) && ready.flows[k].file.Some?
      ensures Stranded(ready, k)
    {
      assert k in b.flows && Stranded(b, k);
    }
  }

  // The flows at the start of a pass, and those that it tries.
  lemma PassBegins(b: Books, id: nat)
    requires FlowsFit(b) && Complete(b.flows) && id in b.intents && RetriesAreStranded(b)
    ensures var ready := b.(flows := EnsureFlows(b.flows, id)); var list := RetryableFlows(FlowStates(ready, id));
            && FlowsFit(ready) && RetriesAreStranded(ready) && NoRepeats(list)
            && (forall f :: f in list ==> (id, f) in ready.flows)
            && (forall f :: f in REQUIRED ==>
                  (id, f) in ready.flows && (f in list <==> Intents.Retryable(ready.flows[(id, f)].state)))
            && (forall f :: f in REQUIRED && AcceptedAt(ready, id, f) ==> AcceptedAt(b, id, f))
  {
    var ready := b.(flows := EnsureFlows(b.flows, id));
    Ensured(b.flows, id);
    EnsuredFits(b, id);
    EnsuredStrands(b, id);
    ListIsRetryable(ready, id);
    AllFlowStates(ready, id);
  }

  // After a pass no flow of the intent is pending, and none accepted that was not before.
  lemma SendFlowsStrands(s: Submitter, b: Books, id: nat, delivered: map<FlowName, bool>, now: int)
    requires s.Sound() && id in b.intents && DepotFits(b.depot) && FlowsFit(b) && Complete(b.flows)
    requires RetriesAreStranded(b)
    ensures var after := SendFlows(s, b, id, delivered, now);
            && RetriesAreStranded(after)
            && (forall f :: f in REQUIRED ==> (id, f) in after.flows && after.flows[(id, f)].state != FlowPending)
            && (forall f :: f in REQUIRED && AcceptedAt(after, id, f) ==> AcceptedAt(b, id, f))
  {
    var ready := b.(flows := EnsureFlows(b.flows, id));
    var list := RetryableFlows(FlowStates(ready, id));
    PassBegins(b, id);
    SendAllStrands(s, ready, id, list, delivered, now);
    SendAllLeaves(s, ready, id, list, delivered, now);
    PassLeavesNonePending(ready, SendAll(s, ready, id, list, delivered, now), id, list);
    SameFlowsStrand(SendAll(s, ready, id, list, delivered, now), SendFlows(s, b, id, delivered, now));
  }

  lemma PassLeavesNonePending(ready: Books, sent: Books, id: nat, list: seq<FlowName>)
    requires sent.flows.Keys == ready.flows.Keys
    requires forall f :: f in REQUIRED ==>
               (id, f) in ready.flows && (f in list <==> Intents.Retryable(ready.flows[(id, f)].state))
    requires forall f :: f in REQUIRED && f !in list ==> sent.flows[(id, f)] == ready.flows[(id, f)]
    requires forall f :: f in list ==> SentOrFailed(sent, id, f)
    ensures forall f :: f in REQUIRED ==> sent.flows[(id, f)].state != FlowPending
    ensures forall f :: f in REQUIRED && AcceptedAt(sent, id, f) ==> AcceptedAt(ready, id, f)
  {
    forall f | f in REQUIRED
      ensures sent.flows[(id, f)].state != FlowPending && (AcceptedAt(sent, id, f) ==> AcceptedAt(ready, id, f))
    {
      if f in list {
        assert SentOrFailed(sent, id, f);
      }
    }
  }

  lemma ReadBackStrands(b: Books, k: (nat, FlowName), now: int)
    requires Safe(b) && RetriesAreStranded(b) && k in b.flows && b.flows[k].file.Some? && k.0 in b.intents
    ensures RetriesAreStranded(ReconcileFlow(b, k, b.flows[k].file.value, now))
  {
    assert FlowFits(b.depot, k.1, b.flows[k]);
    ReadBackIs(b.depot, b.flows[k], k.1);
    var after := ReconcileFlow(b, k, b.flows[k].file.value, now);
    forall j | j in after.flows && Intents.Retryable(after.flows[j].state) && after.flows[j].file.Some? ensures Stranded(after, j) {
      if j != k {
        assert Stranded(b, j);
      }
    }
  }

  lemma AttendStrands(s: Submitter, b: Books, id: nat, delivered: map<FlowName, bool>, now: int)
    requires s.Sound() && id in b.intents && DepotFits(b.depot) && FlowsFit(b) && Complete(b.flows)
    requires RetriesAreStranded(b)
    ensures RetriesAreStranded(Attend(s, b, id, delivered, now))
  {
    if now < b.intents[id].closure {
      SendFlowsStrands(s, b, id, delivered, now);
    } else {
      SameFlowsStrand(b, Attend(s, b, id, delivered, now));
    }
  }

  lemma SameFlowsStrand(b: Books, after: Books)
    requires RetriesAreStranded(b) && after.flows == b.flows && after.depot == b.depot
    ensures RetriesAreStranded(after)
  {
    forall k | k in after.flows && Intents.Retryable(after.flows[k].state) && after.flows[k].file.Some? ensures Stranded(after, k) {
      assert Stranded(b, k);
    }
  }

  lemma DepotMoveStrands(b: Books, depot: Depot)
    requires FlowsFit(b) && RetriesAreStranded(b)
    requires Grown(b.depot, depot) || (R.OnlyMovesSubmitted(b.depot.items, depot.items) && depot.world == b.depot.world)
    ensures RetriesAreStranded(b.(depot := depot))
  {
    var after := b.(depot := depot);
    forall k | k in after.flows && Intents.Retryable(after.flows[k].state) && after.flows[k].file.Some? ensures Stranded(after, k) {
      StillStranded(b, after, k);
    }
  }

  lemma CommandStrands(s: Submitter, b: Books, c: Command)
    requires s.Sound() && Safe(b) && Allowed(b, c) && RetriesAreStranded(b)
    ensures RetriesAreStranded(Do(s, b, c))
  {
    match c {
      case ActOn(intent, delivered, now) =>
        var closure := s.closure(intent.day, intent.slot);
        if closure.Some? {
          NewIntentIsNew(b, intent, closure.value);
          SameFlowsStrand(b, Recorded(b, intent, closure.value));
          AttendStrands(s, Recorded(b, intent, closure.value), b.nextIntent, delivered, now);
        }
      case RetryOf(id, delivered, now) =>
        if id in b.intents {
          AttendStrands(s, b, id, delivered, now);
        }
      case ReconcileFile(file, now) =>
        if FlowsOf(b.flows, file) != {} {
          var k :| k in FlowsOf(b.flows, file);
          ReconcileIs(b, k, now);
          ReadBackStrands(b, k, now);
        }
      case Feedback(e) =>
        R.FeedbackOnlyMoves(R.Desk(b.depot.world, b.depot.items, b.depot.nextItem, []), e);
        DepotMoveStrands(b, Heard(b.depot, e));
      case Beside(after) => DepotMoveStrands(b, after);
    }
  }

  // --- each change

  lemma NonePending(flows: map<FlowName, FlowState>)
    requires flows.Keys == REQUIRED && (forall f :: f in flows ==> flows[f] != FlowPending)
    requires exists f :: f in flows && flows[f] != FlowAccepted
    ensures Resolve(flows, false) in {Acting, Partial}
  {
    assert EcvnFlow in flows;
  }

  lemma OpenHasUnaccepted(b: Books, id: nat)
    requires id in b.intents && !Terminal(b.intents[id].state) && DerivedFor(b, id)
    ensures exists f :: f in REQUIRED && !AcceptedAt(b, id, f)
  {
    if forall f :: f in REQUIRED ==> AcceptedAt(b, id, f) {
      AllFlowStates(b, id);
      assert false;
    }
  }

  // A pass before the deadline leaves an open intent acting or partial.
  lemma PassChange(s: Submitter, b: Books, id: nat, delivered: map<FlowName, bool>, now: int)
    requires s.Sound() && id in b.intents && DepotFits(b.depot) && FlowsFit(b) && Complete(b.flows)
    requires RetriesAreStranded(b) && !Terminal(b.intents[id].state) && DerivedFor(b, id) && now < b.intents[id].closure
    ensures id in SendFlows(s, b, id, delivered, now).intents
    ensures SendFlows(s, b, id, delivered, now).intents[id].state in {Acting, Partial}
  {
    SendFlowsStrands(s, b, id, delivered, now);
    SendFlowsResolves(s, b, id, delivered, now);
    OpenHasUnaccepted(b, id);
    FlowsResolve(SendFlows(s, b, id, delivered, now), id);
  }

  lemma FlowsResolve(b: Books, id: nat)
    requires forall f :: f in REQUIRED ==> (id, f) in b.flows && b.flows[(id, f)].state != FlowPending
    requires exists f :: f in REQUIRED && !AcceptedAt(b, id, f)
    ensures Resolve(FlowStates(b, id), false) in {Acting, Partial}
  {
    AllFlowStates(b, id);
    assert FlowStates(b, id).Keys == REQUIRED;
    var f :| f in REQUIRED && !AcceptedAt(b, id, f);
    assert f in FlowStates(b, id);
    NonePending(FlowStates(b, id));
  }

  lemma SendFlowsResolves(s: Submitter, b: Books, id: nat, delivered: map<FlowName, bool>, now: int)
    requires id in b.intents
    ensures var after := SendFlows(s, b, id, delivered, now);
            id in after.intents && after.intents[id].state == Resolve(FlowStates(after, id), now >= b.intents[id].closure)
  {
    var ready := b.(flows := EnsureFlows(b.flows, id));
    ListIsRetryable(ready, id);
    var sent := SendAll(s, ready, id, RetryableFlows(FlowStates(ready, id)), delivered, now);
    assert FlowStates(Settle(sent, id, now), id) == FlowStates(sent, id);
  }

  // What a flow of an open intent was before its item was found accepted or pending.
  lemma BeforeReading(b: Books, k: (nat, FlowName))
    requires Safe(b) && RetriesAreStranded(b) && k in b.flows && b.flows[k].file.Some?
    ensures FlowStateOf(b.depot.items, b.flows[k].file.value, k.1) == FlowAccepted ==>
              b.flows[k].state == FlowSent || b.flows[k].state == FlowAccepted
    ensures b.flows[k].state == FlowPending ==> FlowStateOf(b.depot.items, b.flows[k].file.value, k.1) == FlowPending
    ensures FlowStateOf(b.depot.items, b.flows[k].file.value, k.1) == FlowPending <==> Stranded(b, k)
  {
    var i := OneItem(b, k);
    assert FlowFits(b.depot, k.1, b.flows[k]);
    ReadBackIs(b.depot, b.flows[k], k.1);
    assert i in RowsOf(b.depot.items, b.flows[k].file.value, TableOf(k.1));
  }

  // A reconciliation makes an intent acted only from acting, leaves a received one received, and takes one
  // back to received exactly when the flow is stranded and the other two are pending.
  lemma ReconcileChange(b: Books, k: (nat, FlowName), now: int)
    requires Safe(b) && RetriesAreStranded(b) && k in b.flows && b.flows[k].file.Some? && k.0 in b.intents
    requires !Terminal(b.intents[k.0].state) && DerivedFor(b, k.0)
    ensures var p, q := b.intents[k.0].state, ReconcileFlow(b, k, b.flows[k].file.value, now).intents[k.0].state;
            && q != Refused
            && (q == Acted ==> p == Acting)
            && (q == Missed ==> now >= b.intents[k.0].closure)
            && (p == Received && q != Missed ==> q == Received)
            && (q == Received <==> now < b.intents[k.0].closure && Stranded(b, k)
                                   && forall g :: g in REQUIRED && g != k.1 ==> b.flows[(k.0, g)].state == FlowPending)
  {
    var state := FlowStateOf(b.depot.items, b.flows[k].file.value, k.1);
    BeforeReading(b, k);
    FlowStatesAfter(b, k, state);
    OneFlowChanges(FlowStates(b, k.0), FlowStates(b, k.0)[k.1 := state], k.1, state, now >= b.intents[k.0].closure);
    AllFlowStates(b, k.0);
  }

  lemma FlowStatesAfter(b: Books, k: (nat, FlowName), state: FlowState)
    requires k in b.flows && Complete(b.flows)
    ensures k.1 in REQUIRED && FlowStates(b, k.0).Keys == REQUIRED && FlowStates(b, k.0)[k.1] == b.flows[k].state
    ensures forall g :: g in REQUIRED ==> (k.0, g) in b.flows
    ensures FlowStates(b.(flows := b.flows[k := b.flows[k].(state := state)]), k.0) == FlowStates(b, k.0)[k.1 := state]
  {
    assert k == (k.0, k.1) && (k.1 == EcvnFlow || k.1 == SevFlow || k.1 == WmanFlow);
  }

  lemma OneFlowChanges(flows: map<FlowName, FlowState>, after: map<FlowName, FlowState>, f: FlowName, state: FlowState,
                       late: bool)
    requires flows.Keys == REQUIRED && after == flows[f := state] && f in REQUIRED
    requires state == FlowAccepted ==> flows[f] == FlowSent || flows[f] == FlowAccepted
    requires flows[f] == FlowPending ==> state == FlowPending
    requires !Terminal(Resolve(flows, false))
    ensures var p, q := Resolve(flows, false), Resolve(after, late);
            && q != Refused
            && (q == Acted ==> p == Acting)
            && (q == Missed ==> late)
            && (p == Received && q != Missed ==> q == Received)
            && (q == Received <==> !late && state == FlowPending && forall g :: g in REQUIRED && g != f ==> flows[g] == FlowPending)
  {
    assert EcvnFlow in flows && SevFlow in flows && WmanFlow in flows;
    assert forall g :: g in flows <==> g == EcvnFlow || g == SevFlow || g == WmanFlow;
    assert forall g :: g in REQUIRED && g != f ==> after[g] == flows[g];
    assert after[f] == state;
  }

  // The changes that the table does not list.
  predicate OffTheTable(c: Command, from: IntentState, to: IntentState) {
    || (c.RetryOf? && from == Received && to == Partial)
    || (c.ReconcileFile? && (from == Partial || from == Acting) && to == Received)
  }

  lemma CommandChanges(s: Submitter, b: Books, c: Command, id: nat)
    requires s.Sound() && Safe(b) && Derived(b) && RetriesAreStranded(b) && Allowed(b, c) && id in b.intents
    ensures id in Do(s, b, c).intents
    ensures var p, q := b.intents[id].state, Do(s, b, c).intents[id].state;
            p == q || IntentEdge(p, q) || OffTheTable(c, p, q)
  {
    match c {
      case ActOn(intent, delivered, now) => ActTouchesNoOther(s, b, intent, delivered, now, id);
      case RetryOf(r, delivered, now) => RetryChange(s, b, r, delivered, now, id);
      case ReconcileFile(file, now) => ReconcileFileChange(b, file, now, id);
      case _ =>
    }
  }

  lemma {:induction false} RunsStrand(s: Submitter, b: Books, cs: seq<Command>)
    requires s.Sound() && Safe(b) && RetriesAreStranded(b) && Possible(s, b, cs)
    ensures RetriesAreStranded(After(s, b, cs))
    decreases |cs|
  {
    if cs != [] {
      CommandStrands(s, b, cs[0]);
      CommandIsSafe(s, b, cs[0]);
      RunsStrand(s, Do(s, b, cs[0]), cs[1..]);
    }
  }

  lemma ReachableStrands(s: Submitter, b: Books)
    requires s.Sound() && Reachable(s, b)
    ensures Safe(b) && Derived(b) && RetriesAreStranded(b)
  {
    var depot: Depot, cs: seq<Command> :| DepotFits(depot) && Possible(s, Start(depot), cs) && After(s, Start(depot), cs) == b;
    ReachableIsSafe(s, b);
    IntentsFollowFlows(s, Start(depot), cs);
    RunsStrand(s, Start(depot), cs);
  }

  // In every reachable state, whatever command comes next: the only changes of an intent's state that its
  // table does not list are received to partial, by a retry, and partial or acting back to received, by a
  // reconciliation.
  lemma ChangesOffTheTable(s: Submitter, b: Books, c: Command, id: nat)
    requires s.Sound() && Reachable(s, b) && Allowed(b, c) && id in b.intents
    ensures id in Do(s, b, c).intents
    ensures var p, q := b.intents[id].state, Do(s, b, c).intents[id].state;
            p == q || IntentEdge(p, q) || OffTheTable(c, p, q)
  {
    ReachableStrands(s, b);
    CommandChanges(s, b, c, id);
  }

  // What an attempt makes of an open intent.
  lemma AttendChange(s: Submitter, b: Books, id: nat, delivered: map<FlowName, bool>, now: int)
    requires s.Sound() && DepotFits(b.depot) && FlowsFit(b) && Complete(b.flows)
    requires id in b.intents && DerivedFor(b, id) && RetriesAreStranded(b) && !Terminal(b.intents[id].state)
    ensures id in Attend(s, b, id, delivered, now).intents
    ensures Attend(s, b, id, delivered, now).intents[id].state
         in if now < b.intents[id].closure then {Acting, Partial} else {Missed}
  {
    if now < b.intents[id].closure {
      PassChange(s, b, id, delivered, now);
    }
  }

  lemma RetryIs(s: Submitter, b: Books, r: nat, delivered: map<FlowName, bool>, now: int)
    ensures Retry(s, b, r, delivered, now)
         == if r in b.intents && !Terminal(b.intents[r].state) then Attend(s, b, r, delivered, now) else b
  {
  }

  lemma OwnRetry(s: Submitter, b: Books, delivered: map<FlowName, bool>, now: int, id: nat)
    requires s.Sound() && DepotFits(b.depot) && FlowsFit(b) && Complete(b.flows)
    requires id in b.intents && DerivedFor(b, id) && RetriesAreStranded(b) && !Terminal(b.intents[id].state)
    ensures id in Attend(s, b, id, delivered, now).intents
    ensures var p, q := b.intents[id].state, Attend(s, b, id, delivered, now).intents[id].state;
            p == q || IntentEdge(p, q) || (p == Received && q == Partial)
  {
    AttendChange(s, b, id, delivered, now);
  }

  lemma RetryChange(s: Submitter, b: Books, r: nat, delivered: map<FlowName, bool>, now: int, id: nat)
    requires s.Sound() && Safe(b) && id in b.intents && DerivedFor(b, id) && RetriesAreStranded(b)
    ensures id in Retry(s, b, r, delivered, now).intents
    ensures var p, q := b.intents[id].state, Retry(s, b, r, delivered, now).intents[id].state;
            p == q || IntentEdge(p, q) || (p == Received && q == Partial)
  {
    RetryIs(s, b, r, delivered, now);
    if r in b.intents && !Terminal(b.intents[r].state) {
      if r == id {
        OwnRetry(s, b, delivered, now, id);
      } else {
        AttendKeepsIntents(s, b, r, delivered, now);
      }
    }
  }

  lemma ReconcileFileChange(b: Books, file: nat, now: int, id: nat)
    requires Safe(b) && id in b.intents && DerivedFor(b, id) && RetriesAreStranded(b)
    ensures id in Reconcile(b, file, now).intents
    ensures var p, q := b.intents[id].state, Reconcile(b, file, now).intents[id].state;
            p == q || IntentEdge(p, q) || ((p == Partial || p == Acting) && q == Received)
  {
    if FlowsOf(b.flows, file) != {} {
      var k :| k in FlowsOf(b.flows, file);
      ReconcileIs(b, k, now);
      if k.0 == id && !Terminal(b.intents[id].state) {
        ReconcileChange(b, k, now);
      }
    }
  }

  lemma ActTouchesNoOther(s: Submitter, b: Books, intent: Intent, delivered: map<FlowName, bool>, now: int, id: nat)
    requires Safe(b) && id in b.intents
    ensures id in Act(s, b, intent, delivered, now).intents && Act(s, b, intent, delivered, now).intents[id] == b.intents[id]
  {
    var closure := s.closure(intent.day, intent.slot);
    if closure.Some? {
      NewIntentIsNew(b, intent, closure.value);
      AttendKeepsIntents(s, Recorded(b, intent, closure.value), b.nextIntent, delivered, now);
    }
  }

  lemma AttendKeepsIntents(s: Submitter, b: Books, id: nat, delivered: map<FlowName, bool>, now: int)
    requires id in b.intents
    ensures forall j :: j in b.intents && j != id ==>
              j in Attend(s, b, id, delivered, now).intents && Attend(s, b, id, delivered, now).intents[j] == b.intents[j]
  {
    if now < b.intents[id].closure {
      SendFlowsIntents(s, b, id, delivered, now);
    }
  }

  // A new intent goes from received to acting or to partial, or is missed.
  lemma FirstChange(s: Submitter, b: Books, intent: Intent, closure: int, delivered: map<FlowName, bool>, now: int)
    requires s.Sound() && Safe(b) && RetriesAreStranded(b)
    ensures b.nextIntent in Attend(s, Recorded(b, intent, closure), b.nextIntent, delivered, now).intents
    ensures Attend(s, Recorded(b, intent, closure), b.nextIntent, delivered, now).intents[b.nextIntent].state
         in if now < closure then {Acting, Partial} else {Missed}
  {
    var r, id := Recorded(b, intent, closure), b.nextIntent;
    NewIntentIsNew(b, intent, closure);
    SameFlowsStrand(b, r);
    NoFlowsYet(b, r, id);
    AttendChange(s, r, id, delivered, now);
  }

  lemma NoFlowsYet(b: Books, r: Books, id: nat)
    requires Safe(b) && id !in b.intents && r.flows == b.flows && id in r.intents && r.intents[id].state == Received
    ensures DerivedFor(r, id)
  {
    forall f | f in REQUIRED ensures (id, f) !in b.flows {
      assert (id, f) in b.flows ==> (id, f).0 in b.intents;
    }
    assert FlowStates(r, id) == map[];
  }

  // --- back to received -------------------------------------------------------------------------

  predicate PendingAt(b: Books, id: nat, f: FlowName) {
    (id, f) in b.flows && b.flows[(id, f)].state == FlowPending
  }

  predicate AllStranded(b: Books, id: nat) {
    forall f :: f in REQUIRED ==> Stranded(b, (id, f))
  }

  lemma SettledPending(b: Books, id: nat, f: FlowName, now: int)
    requires id in b.intents && now < b.intents[id].closure && f in REQUIRED && PendingAt(b, id, f)
    requires forall g :: g in REQUIRED ==> (id, g) in b.flows
    ensures var after := Settle(b, id, now);
            && !Terminal(after.intents[id].state)
            && (after.intents[id].state == Received <==> forall g :: g in REQUIRED ==> PendingAt(b, id, g))
  {
    AllFlowStates(b, id);
    ResolveMeans(FlowStates(b, id), now >= b.intents[id].closure);
    assert FlowStates(b, id)[f] == FlowPending;
    assert forall g :: g in FlowStates(b, id) <==> g in REQUIRED;
  }

  // Reconciling the file of a stranded flow: the flow is pending, and the intent is received once all are.
  lemma StrandOne(s: Submitter, b: Books, id: nat, f: FlowName, now: int) returns (after: Books)
    requires Safe(b) && Waiting(b, id, now) && AllStranded(b, id) && f in REQUIRED
    ensures Leads(s, b, after, now) && Safe(after) && Waiting(after, id, now) && AllStranded(after, id)
    ensures PendingAt(after, id, f) && forall g :: PendingAt(b, id, g) ==> PendingAt(after, id, g)
    ensures after.intents[id].state == Received <==> forall g :: g in REQUIRED ==> PendingAt(after, id, g)
  {
    var k, file := (id, f), b.flows[(id, f)].file.value;
    ReconcileIs(b, k, now);
    ReconcileIsSafe(b, file, now);
    assert FlowFits(b.depot, f, b.flows[k]);
    ReadBackIs(b.depot, b.flows[k], f);
    after := Reconcile(b, file, now);
    LeadsByOne(s, b, ReconcileFile(file, now), now);
    NowPending(b, b.(flows := b.flows[k := b.flows[k].(state := FlowPending)]), id, f, now);
  }

  lemma NowPending(b: Books, changed: Books, id: nat, f: FlowName, now: int)
    requires Waiting(b, id, now) && AllStranded(b, id) && f in REQUIRED
    requires changed == b.(flows := b.flows[(id, f) := b.flows[(id, f)].(state := FlowPending)])
    ensures var after := Settle(changed, id, now);
            && Waiting(after, id, now) && AllStranded(after, id) && PendingAt(after, id, f)
            && (forall g :: PendingAt(b, id, g) ==> PendingAt(after, id, g))
            && (after.intents[id].state == Received <==> forall g :: g in REQUIRED ==> PendingAt(after, id, g))
  {
    SettledPending(changed, id, f, now);
    forall g | g in REQUIRED ensures Stranded(Settle(changed, id, now), (id, g)) {
      assert Stranded(b, (id, g));
    }
  }

  // An open intent whose three first deliveries failed goes back to received when its files are reconciled,
  // whatever its state was and whatever was resent meanwhile.
  lemma StrandedGoesBack(s: Submitter, b: Books, id: nat, now: int) returns (after: Books)
    requires Safe(b) && Waiting(b, id, now) && AllStranded(b, id)
    ensures Leads(s, b, after, now) && id in after.intents && after.intents[id].state == Received
  {
    var one := StrandOne(s, b, id, EcvnFlow, now);
    after := StrandTwo(s, one, id, now);
    LeadsOn(s, b, one, after, now);
  }

  lemma StrandTwo(s: Submitter, b: Books, id: nat, now: int) returns (after: Books)
    requires Safe(b) && Waiting(b, id, now) && AllStranded(b, id) && PendingAt(b, id, EcvnFlow)
    ensures Leads(s, b, after, now) && id in after.intents && after.intents[id].state == Received
  {
    var two := StrandOne(s, b, id, SevFlow, now);
    after := StrandThree(s, two, id, now);
    LeadsOn(s, b, two, after, now);
  }

  lemma StrandThree(s: Submitter, b: Books, id: nat, now: int) returns (after: Books)
    requires Safe(b) && Waiting(b, id, now) && AllStranded(b, id)
    requires PendingAt(b, id, EcvnFlow) && PendingAt(b, id, SevFlow)
    ensures Leads(s, b, after, now) && id in after.intents && after.intents[id].state == Received
  {
    after := StrandOne(s, b, id, WmanFlow, now);
  }

  lemma ReachableOn(s: Submitter, b: Books, after: Books, now: int)
    requires Reachable(s, b) && Leads(s, b, after, now)
    ensures Reachable(s, after)
  {
    var depot: Depot, cs: seq<Command> :| DepotFits(depot) && Possible(s, Start(depot), cs) && After(s, Start(depot), cs) == b;
    var more: seq<Command> :| Possible(s, b, more) && Answers(more, now) && After(s, b, more) == after;
    RunOn(s, Start(depot), cs, more);
  }
}
