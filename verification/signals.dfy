/** The actions dispatched to the store, and the shape every operation's
    sequence of actions has: a pending action first, then exactly one
    terminal (success or failure) action. */
module Signals {
  import opened Kube

  /** The action types of the operator actions. */
  datatype Tag =
    | CheckingOLM | OLMInstalled | OLMNotInstalled
    | RequestOperators | ReceiveOperators | ErrorOperators
    | RequestOperator | ReceiveOperator
    | RequestCSVs | ReceiveCSVs | ErrorCSVs
    | RequestCSV | ReceiveCSV
    | CreatingResource | ResourceCreated | ErrorResourceCreate
    | RequestCustomResources | ReceiveCustomResources | ErrorCustomResource
    | RequestCustomResource | ReceiveCustomResource
    | DeletingResource | ResourceDeleted | ErrorResourceDelete

  /** What an action carries; `NoPayload` is an action with no `payload` key. */
  datatype Payload =
    | NoPayload
    | OperatorList(operators: seq<Operator>)
    | OperatorItem(operator: Operator)
    | CSVList(csvs: seq<CSV>)
    | CSVItem(csv: CSV)
    | ResourceList(resources: seq<Resource>)
    | ResourceItem(resource: Resource)
    | ErrorPayload(error: Error)

  datatype Signal = Signal(tag: Tag, payload: Payload)

  /** The public operations. */
  datatype Op =
    | checkOLMInstalled | getOperators | getOperator | getCSVs | getCSV
    | createResource | getResources | getResource | deleteResource

  function PendingTag(op: Op): Tag {
    match op
    case checkOLMInstalled => CheckingOLM
    case getOperators => RequestOperators
    case getOperator => RequestOperator
    case getCSVs => RequestCSVs
    case getCSV => RequestCSV
    case createResource => CreatingResource
    case getResources => RequestCustomResources
    case getResource => RequestCustomResource
    case deleteResource => DeletingResource
  }

  /** The success tag; for the OLM probe, "installed". */
  function SuccessTag(op: Op): Tag {
    match op
    case checkOLMInstalled => OLMInstalled
    case getOperators => ReceiveOperators
    case getOperator => ReceiveOperator
    case getCSVs => ReceiveCSVs
    case getCSV => ReceiveCSV
    case createResource => ResourceCreated
    case getResources => ReceiveCustomResources
    case getResource => ReceiveCustomResource
    case deleteResource => ResourceDeleted
  }

  /** The failure tag. The single fetches share the list actions' error tags,
      and both custom-resource fetches share `errorCustomResource`. */
  function FailureTag(op: Op): Tag {
    match op
    case checkOLMInstalled => OLMNotInstalled
    case getOperators => ErrorOperators
    case getOperator => ErrorOperators
    case getCSVs => ErrorCSVs
    case getCSV => ErrorCSVs
    case createResource => ErrorResourceCreate
    case getResources => ErrorCustomResource
    case getResource => ErrorCustomResource
    case deleteResource => ErrorResourceDelete
  }

  predicate IsTerminal(op: Op, t: Tag) {
    t == SuccessTag(op) || t == FailureTag(op)
  }

  /** A simple operation's actions: its pending action with no payload, then
      one terminal action. */
  predicate Session(op: Op, s: seq<Signal>) {
    && |s| == 2
    && s[0] == Signal(PendingTag(op), NoPayload)
    && IsTerminal(op, s[1].tag)
  }

  /** A compound operation's actions: its own pending action, then the whole
      session of the inner operation it awaits, then its own terminal action. */
  predicate NestedSession(outer: Op, inner: Op, s: seq<Signal>) {
    && |s| == 4
    && s[0] == Signal(PendingTag(outer), NoPayload)
    && Session(inner, s[1..3])
    && IsTerminal(outer, s[3].tag)
  }

  /** Wrapping a session of `inner` between the pending action and a
      terminal action of `outer` gives a nested session. */
  lemma Nest(outer: Op, inner: Op, s: seq<Signal>, last: Signal)
    requires Session(inner, s) && IsTerminal(outer, last.tag)
    ensures var r := [Signal(PendingTag(outer), NoPayload)] + s + [last];
      NestedSession(outer, inner, r) && r[1..3] == s && r[3] == last
  {
    var r := [Signal(PendingTag(outer), NoPayload)] + s + [last];
    assert r[1..3] == s;
  }

  /** How many actions of `s` have tag `t`. */
  function Count(s: seq<Signal>, t: Tag): nat {
    if |s| == 0 then 0 else (if s[0].tag == t then 1 else 0) + Count(s[1..], t)
  }

  lemma {:induction false} CountAppend(a: seq<Signal>, b: seq<Signal>, t: Tag)
    ensures Count(a + b, t) == Count(a, t) + Count(b, t)
    decreases |a|
  {
    if |a| > 0 {
      assert (a + b)[1..] == a[1..] + b;
      CountAppend(a[1..], b, t);
    } else {
      assert a + b == b;
    }
  }

  lemma CountSingleton(x: Signal, t: Tag)
    ensures Count([x], t) == if x.tag == t then 1 else 0
  {
    assert [x][1..] == [];
  }

  /** An operation's pending, success and failure tags are three different tags. */
  lemma TagsOfOpDiffer(op: Op)
    ensures PendingTag(op) != SuccessTag(op)
    ensures PendingTag(op) != FailureTag(op)
    ensures SuccessTag(op) != FailureTag(op)
  {
    match op
    case checkOLMInstalled =>
    case getOperators =>
    case getOperator =>
    case getCSVs =>
    case getCSV =>
    case createResource =>
    case getResources =>
    case getResource =>
    case deleteResource =>
  }

  /** The tags of the two operations are all different from each other. */
  predicate TagsDisjoint(outer: Op, inner: Op) {
    && PendingTag(inner) != PendingTag(outer)
    && !IsTerminal(outer, PendingTag(inner))
    && !IsTerminal(inner, PendingTag(outer))
    && !IsTerminal(outer, SuccessTag(inner)) && !IsTerminal(outer, FailureTag(inner))
  }

  /** In a session the pending action occurs exactly once and comes first,
      and exactly one terminal action occurs, never both a success and a
      failure. */
  lemma SessionOnePendingOneTerminal(op: Op, s: seq<Signal>)
    requires Session(op, s)
    ensures s[0].tag == PendingTag(op)
    ensures Count(s, PendingTag(op)) == 1
    ensures Count(s, SuccessTag(op)) + Count(s, FailureTag(op)) == 1
  {
    TagsOfOpDiffer(op);
    assert s == [s[0]] + [s[1]];
    forall t ensures Count(s, t) == (if s[0].tag == t then 1 else 0) + (if s[1].tag == t then 1 else 0) {
      CountAppend([s[0]], [s[1]], t);
      CountSingleton(s[0], t);
      CountSingleton(s[1], t);
    }
  }

  function Indicator(x: Signal, t: Tag): nat { if x.tag == t then 1 else 0 }

  lemma CountOfFour(s: seq<Signal>, t: Tag)
    requires |s| == 4
    ensures Count(s, t) == Indicator(s[0], t) + Indicator(s[1], t) + Indicator(s[2], t) + Indicator(s[3], t)
  {
    assert s[1..][0] == s[1] && s[1..][1..] == s[2..];
    assert s[2..][0] == s[2] && s[2..][1..] == s[3..];
    assert s[3..][0] == s[3] && s[3..][1..] == [];
    calc {
      Count(s, t);
      Indicator(s[0], t) + Count(s[1..], t);
      Indicator(s[0], t) + Indicator(s[1], t) + Count(s[2..], t);
      Indicator(s[0], t) + Indicator(s[1], t) + Indicator(s[2], t) + Count(s[3..], t);
      Indicator(s[0], t) + Indicator(s[1], t) + Indicator(s[2], t) + Indicator(s[3], t) + Count([], t);
    }
  }

  /** The same for a compound operation: its own pending action opens the
      sequence, its one terminal action closes it, and the inner operation's
      pending and terminal actions occur exactly once, in between. */
  lemma NestedSessionOnePendingOneTerminal(outer: Op, inner: Op, s: seq<Signal>)
    requires NestedSession(outer, inner, s)
    requires TagsDisjoint(outer, inner)
    ensures s[0].tag == PendingTag(outer) && IsTerminal(outer, s[|s| - 1].tag)
    ensures Count(s, PendingTag(outer)) == 1
    ensures Count(s, SuccessTag(outer)) + Count(s, FailureTag(outer)) == 1
    ensures Count(s, PendingTag(inner)) == 1
    ensures Count(s, SuccessTag(inner)) + Count(s, FailureTag(inner)) == 1
  {
    TagsOfOpDiffer(outer);
    TagsOfOpDiffer(inner);
    assert s[1] == s[1..3][0] && s[2] == s[1..3][1];
    CountOfFour(s, PendingTag(outer));
    CountOfFour(s, SuccessTag(outer));
    CountOfFour(s, FailureTag(outer));
    CountOfFour(s, PendingTag(inner));
    CountOfFour(s, SuccessTag(inner));
    CountOfFour(s, FailureTag(inner));
  }
}
