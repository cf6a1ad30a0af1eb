// The service as it runs: rows changed in place, one flow after another.
module ServiceLoops {
  import opened Wrappers
  import opened Fields
  import opened SendRuns
  import opened Intents
  import opened IntentService

  class Service {
    const submitter: Submitter
    var depot: Depot
    var intents: map<nat, IntentRow>
    var flows: map<(nat, FlowName), FlowRow>
    var nextIntent: nat
    // The hand-offs so far, for the specification.
    ghost var calls: seq<Call>

    constructor (submitter: Submitter, depot: Depot)
      ensures this.submitter == submitter && Now() == IntentService.Start(depot)
    {
      this.submitter, this.depot := submitter, depot;
      intents, flows, nextIntent, calls := map[], map[], 1, [];
    }

    ghost function Now(): Books
      reads this
    {
      Books(depot, intents, flows, nextIntent, calls)
    }

    // INSERT .. ON CONFLICT DO NOTHING, for each required flow.
    method InsertFlows(id: nat)
      modifies `flows
      ensures flows == EnsureFlows(old(flows), id)
    {
      var names := [WmanFlow, EcvnFlow, SevFlow];
      for j := 0 to |names|
        invariant forall k :: k in old(flows) ==> k in flows && flows[k] == old(flows)[k]
        invariant forall k :: k in flows && k !in old(flows) ==> k.0 == id && flows[k] == FlowRow(FlowPending, None, 0)
        invariant forall i :: 0 <= i < j ==> (id, names[i]) in flows
      {
        if (id, names[j]) !in flows {
          flows := flows[(id, names[j]) := FlowRow(FlowPending, None, 0)];
        }
      }
      Ensured(old(flows), id);
      assert (id, names[0]) in flows && (id, names[1]) in flows && (id, names[2]) in flows;
      forall k | k in flows ensures k in EnsureFlows(old(flows), id) {
        assert k.0 == id ==> k == (id, k.1) && (k.1 == EcvnFlow || k.1 == SevFlow || k.1 == WmanFlow);
      }
      assert forall f :: f in REQUIRED ==> (id, f) in flows;
    }

    // One outstanding flow: resent if it has a file, built and sent if not.
    method TryFlow(id: nat, f: FlowName, ok: bool, now: int)
      requires id in intents && (id, f) in flows
      modifies `depot, `flows, `calls
      ensures Now() == Booked(old(Now()), id, f, now, Try(submitter, old(Now()), id, f, ok, now))
    {
      var row := flows[(id, f)];
      var r: (Depot, Sending);
      if row.file.Some? {
        r := submitter.resend(depot, row.file.value, ok, now);
      } else {
        r := submitter.submit(depot, intents[id].intent, f, ok, now);
      }
      calls := Booked(Now(), id, f, now, r).calls;
      depot := r.0;
      flows := flows[(id, f) := RecordFlow(row, r.1)];
    }

    method SendOutstanding(id: nat, list: seq<FlowName>, delivered: map<FlowName, bool>, now: int)
      requires id in intents && forall f :: f in list ==> (id, f) in flows
      modifies `depot, `flows, `calls
      ensures Now() == SendAll(submitter, old(Now()), id, list, delivered, now)
    {
      ghost var start := Now();
      for j := 0 to |list|
        invariant Now() == SendAll(submitter, start, id, list[..j], delivered, now)
      {
        assert list[..j + 1][..j] == list[..j];
        assert list[j] in list && (id, list[j]) in start.flows;
        TryFlow(id, list[j], Answer(delivered, list[j]), now);
      }
      assert list[..|list|] == list;
    }

    method Attempt(id: nat, delivered: map<FlowName, bool>, now: int)
      requires id in intents
      modifies this
      ensures Now() == IntentService.SendFlows(submitter, old(Now()), id, delivered, now)
    {
      InsertFlows(id);
      var list := RetryableFlows(FlowStates(Books(depot, intents, flows, nextIntent, []), id));
      ListIsRetryable(Now(), id);
      SendOutstanding(id, list, delivered, now);
      var states := FlowStates(Books(depot, intents, flows, nextIntent, []), id);
      intents := intents[id := intents[id].(state := Resolve(states, now >= intents[id].closure))];
    }

    method RecordIntent(intent: Intent, closure: int) returns (id: nat)
      modifies `intents, `nextIntent
      ensures id == old(nextIntent) && Now() == Recorded(old(Now()), intent, closure)
    {
      id := nextIntent;
      intents := intents[id := IntentRow(intent, Received, closure)];
      nextIntent := id + 1;
    }

    method ActOn(intent: Intent, delivered: map<FlowName, bool>, now: int)
      modifies this
      ensures Now() == Act(submitter, old(Now()), intent, delivered, now)
    {
      var closure := submitter.closure(intent.day, intent.slot);
      if WithKey(intents, intent.TheKey()) == {} && closure.Some? {
        var id := RecordIntent(intent, closure.value);
        AttendTo(id, delivered, now);
      }
    }

    method RetryIntent(id: nat, delivered: map<FlowName, bool>, now: int)
      modifies this
      ensures Now() == Retry(submitter, old(Now()), id, delivered, now)
    {
      if id in intents && !Terminal(intents[id].state) {
        AttendTo(id, delivered, now);
      }
    }

    method AttendTo(id: nat, delivered: map<FlowName, bool>, now: int)
      requires id in intents
      modifies this
      ensures Now() == Attend(submitter, old(Now()), id, delivered, now)
    {
      if now >= intents[id].closure {
        intents := intents[id := intents[id].(state := Missed)];
      } else {
        Attempt(id, delivered, now);
      }
    }

    // One flow at most has the file, which makes the choice of the row plain.
    method ReconcileFile(file: nat, now: int)
      requires FlowsFit(Now())
      modifies `flows, `intents
      ensures Now() == Reconcile(old(Now()), file, now)
    {
      var found := FlowsOf(flows, file);
      if found == {} {
        return;
      }
      var k :| k in found;
      assert forall j :: j in FlowsOf(flows, file) ==> j == k;
      if !Terminal(intents[k.0].state) {
        flows := flows[k := flows[k].(state := FlowStateOf(depot.items, file, k.1))];
        var states := FlowStates(Books(depot, intents, flows, nextIntent, []), k.0);
        intents := intents[k.0 := intents[k.0].(state := Resolve(states, now >= intents[k.0].closure))];
      }
    }
  }
}
