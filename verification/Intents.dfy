// What the trading system asked for: intents, their flows, and what an intent's state is given its flows.
module Intents {
  import opened Wrappers
  import opened Fields
  import D = Decimals

  datatype IntentState = Received | Acting | Acted | Partial | Missed | Refused

  predicate Terminal(s: IntentState) {
    s == Acted || s == Missed || s == Refused
  }

  // The transition table of an intent, which the service does not consult.
  predicate IntentEdge(from: IntentState, to: IntentState) {
    match from
    case Received => to == Acting || to == Refused || to == Missed
    case Acting => to == Acted || to == Partial || to == Missed
    case Partial => to == Acting || to == Missed
    case _ => false
  }

  datatype FlowState = FlowPending | FlowSent | FlowAccepted | FlowFailed | FlowRejected

  predicate Retryable(s: FlowState) {
    s == FlowPending || s == FlowFailed
  }

  // The required flows, in the order of their names.
  datatype FlowName = EcvnFlow | SevFlow | WmanFlow

  const REQUIRED: set<FlowName> := {EcvnFlow, SevFlow, WmanFlow}

  // The key under which a decision is recorded once.
  datatype Key = Key(day: Date, slot: int, unit: string, revision: int)

  datatype Intent = Intent(
    day: Date, slot: int, unit: string, expected: D.Decimal, contracted: D.Decimal,
    ecvnaaId: string, ecvnEcvnaaId: string, revision: int)
  {
    // The checks of the constructor; the exponent of NaN and infinity is not a number and raises too.
    predicate Valid() {
      && 1 <= slot <= 50
      && revision >= 1
      && expected.Finite? && -expected.exponent <= 4
      && contracted.Finite? && -contracted.exponent <= 3
    }

    function TheKey(): Key {
      Key(day, slot, unit, revision)
    }
  }

  // What the intent's state should be, given its flows. The deadline is looked at before failures are.
  function Resolve(flows: map<FlowName, FlowState>, pastDeadline: bool): IntentState {
    if flows == map[] then Received
    else if forall f :: f in flows ==> flows[f] == FlowAccepted then Acted
    else if pastDeadline then Missed
    else if exists f :: f in flows && flows[f] == FlowRejected then Partial
    else if forall f :: f in flows ==> flows[f] == FlowPending then Received
    else if exists f :: f in flows && flows[f] == FlowFailed then Partial
    else Acting
  }

  function Only(flows: map<FlowName, FlowState>, f: FlowName): (r: seq<FlowName>)
    ensures |r| <= 1 && forall g :: g in r <==> g == f && f in flows && Retryable(flows[f])
  {
    if f in flows && Retryable(flows[f]) then [f] else []
  }

  // sorted(): the flows a retry attempts.
  function RetryableFlows(flows: map<FlowName, FlowState>): (r: seq<FlowName>)
    ensures forall f :: f in r <==> f in flows && Retryable(flows[f])
    ensures forall i, j :: 0 <= i < j < |r| ==> r[i] != r[j]
  {
    var r := Only(flows, EcvnFlow) + Only(flows, SevFlow) + Only(flows, WmanFlow);
    assert forall f :: f in r <==> f in Only(flows, EcvnFlow) || f in Only(flows, SevFlow) || f in Only(flows, WmanFlow);
    r
  }

  // An open intent whose flows are all there either waits for an answer, or has something to retry, or
  // was rejected in part; and it is acted only when nothing is outstanding.
  lemma ResolveMeans(flows: map<FlowName, FlowState>, pastDeadline: bool)
    requires flows != map[]
    ensures Resolve(flows, pastDeadline) == Acted <==> forall f :: f in flows ==> flows[f] == FlowAccepted
    ensures Terminal(Resolve(flows, pastDeadline)) <==> Resolve(flows, pastDeadline) == Acted || pastDeadline
    ensures RetryableFlows(flows) == [] && !pastDeadline ==>
              Resolve(flows, pastDeadline) ==
              if forall f :: f in flows ==> flows[f] == FlowAccepted then Acted
              else if exists f :: f in flows && flows[f] == FlowRejected then Partial
              else Acting
  {
    var r := RetryableFlows(flows);
    assert r == [] ==> forall f :: f in flows ==> f !in r;
    var g :| g in flows;
  }
}
