/** References on file name information, handed from the pre-operation to the post-operation callback of a create.
    The Filter Manager's promise that a post-operation follows exactly once after FLT_PREOP_SUCCESS_WITH_CALLBACK,
    and never otherwise, is built into the phases of an operation. */
module NameRefs {
  import opened Counting
  import opened Options

  /** A piece of name information; operations may share one. */
  type Name = nat

  // ---------------------------------------------------------- one call at a time

  class FileNames {
    /** Outstanding references: how many there are on each name information. */
    var refs: multiset<Name>

    constructor ()
      ensures refs == multiset{}
    {
      refs := multiset{};
    }

    /** FltGetFileNameInformation comes with a reference if it succeeds. */
    method GetFileNameInformation(query: Option<Name>)
      modifies this
      ensures refs == old(refs) + (if query.Some? then multiset{query.value} else multiset{})
    {
      if query.Some? {
        refs := refs + multiset{query.value};
      }
    }

    method Reference(name: Name)
      requires name in refs
      modifies this
      ensures refs == old(refs) + multiset{name}
    {
      refs := refs + multiset{name};
    }

    /** Never more often than referenced. */
    method Release(name: Name)
      requires name in refs
      modifies this
      ensures refs + multiset{name} == old(refs)
    {
      refs := refs - multiset{name};
    }

    /** FSCreatePreCallback; query is what FltGetFileNameInformation gives. The only reference that is left is the
        one in the completion context, and post-op is asked for exactly if there is one. */
    method PreCallback(connected: bool, query: Option<Name>, parses: bool, excluded: bool)
        returns (withCallback: bool, completionContext: Option<Name>)
      modifies this
      ensures withCallback <==> completionContext.Some?
      ensures completionContext == if connected && parses && !excluded then query else None
      ensures refs == old(refs) + Held(completionContext)
    {
      completionContext := None;
      if !connected {
        return false, None;
      }
      GetFileNameInformation(query);
      if query.Some? {
        if parses && !excluded {
          Reference(query.value);
          completionContext := query;
        }
        Release(query.value);
      }
      withCallback := completionContext.Some?;
      Settle(old(refs), Held(completionContext), Held(query), refs);
    }

    /** FSCreatePostCallback: whatever the outcome, the context's reference is released once; the event is sent
        if the create succeeded and the filter is not draining. */
    method PostCallback(completionContext: Option<Name>, draining: bool, succeeded: bool) returns (sent: bool)
      requires Held(completionContext) <= refs
      modifies this
      ensures refs + Held(completionContext) == old(refs)
      ensures sent <==> completionContext.Some? && succeeded && !draining
    {
      assert completionContext.Some? ==> completionContext.value in Held(completionContext);
      if draining {
        if completionContext.Some? {
          Release(completionContext.value);
        }
        return false;
      }
      sent := completionContext.Some? && succeeded;
      if completionContext.Some? {
        Release(completionContext.value);
      }
    }
  }

  lemma Settle(before: multiset<Name>, kept: multiset<Name>, released: multiset<Name>, after: multiset<Name>)
    requires after + released == before + released + kept
    ensures after == before + kept
  {
    forall n
      ensures after[n] == (before + kept)[n]
    {
      assert (after + released)[n] == (before + released + kept)[n];
    }
  }

  ghost function Held(context: Option<Name>): multiset<Name> {
    if context.Some? then multiset{context.value} else multiset{}
  }

  // ------------------------------------------------- any number of creates, interleaved

  datatype Create =
    | Fresh
    | Connected               // in pre-op: the agent listens
    | Queried(name: Name)     // in pre-op: has name information
    | Kept(name: Name)        // in pre-op: referenced it for post-op
    | Dropped(name: Name)     // in pre-op: will not report
    | Pending(name: Name)     // between pre-op and post-op, with its context
    | Posting(name: Name)     // in post-op
    | Draining(name: Name)    // in post-op while the filter shuts down
    | Sent(name: Name)        // in post-op: the event is out
    | Done(reported: Option<Name>)

  /** An event sent to the agent: which create sent it, about which name. */
  datatype Report = Report(create: nat, name: Name)

  datatype State = State(creates: seq<Create>, refs: multiset<Name>, reports: seq<Report>)

  datatype Action =
    | Skip(i: nat) | Begin(i: nat) | QueryFails(i: nat) | Query(i: nat, name: Name)
    | Keep(i: nat) | Drop(i: nat) | ReleaseKept(i: nat) | ReleaseDropped(i: nat)
    | Post(i: nat) | PostDraining(i: nat) | Send(i: nat) | Fail(i: nat) | ReleaseSent(i: nat) | ReleaseDraining(i: nat)

  function Init(n: nat): State {
    State(seq(n, _ => Fresh), multiset{}, [])
  }

  /** The phase in which a create can take an action. */
  predicate Fits(c: Create, a: Action) {
    match a
    case Skip(_) => c.Fresh?
    case Begin(_) => c.Fresh?
    case QueryFails(_) => c.Connected?
    case Query(_, _) => c.Connected?
    case Keep(_) => c.Queried?
    case Drop(_) => c.Queried?
    case ReleaseKept(_) => c.Kept?
    case ReleaseDropped(_) => c.Dropped?
    case Post(_) => c.Pending?
    case PostDraining(_) => c.Pending?
    case Send(_) => c.Posting?
    case Fail(_) => c.Posting?
    case ReleaseSent(_) => c.Sent?
    case ReleaseDraining(_) => c.Draining?
  }

  /** Where an action takes its create. */
  function Next(c: Create, a: Action): Create
    requires Fits(c, a)
  {
    match a
    case Begin(_) => Connected
    case Query(_, name) => Queried(name)
    case Keep(_) => Kept(c.name)
    case Drop(_) => Dropped(c.name)
    case ReleaseKept(_) => Pending(c.name)
    case Post(_) => Posting(c.name)
    case PostDraining(_) => Draining(c.name)
    case Send(_) => Sent(c.name)
    case ReleaseSent(_) => Done(Some(c.name))
    case _ => Done(None)
  }

  /** The reference an action takes. */
  function Taken(c: Create, a: Action): multiset<Name>
    requires Fits(c, a)
  {
    match a
    case Query(_, name) => multiset{name}
    case Keep(_) => multiset{c.name}
    case _ => multiset{}
  }

  /** The reference an action gives up. */
  function Given(c: Create, a: Action): multiset<Name>
    requires Fits(c, a)
  {
    match a
    case ReleaseKept(_) => multiset{c.name}
    case ReleaseDropped(_) => multiset{c.name}
    case Fail(_) => multiset{c.name}
    case ReleaseSent(_) => multiset{c.name}
    case ReleaseDraining(_) => multiset{c.name}
    case _ => multiset{}
  }

  predicate Enabled(s: State, a: Action) {
    a.i < |s.creates| && Fits(s.creates[a.i], a)
  }

  function Step(s: State, a: Action): State {
    if Enabled(s, a) then
      var c := s.creates[a.i];
      State(s.creates[a.i := Next(c, a)], s.refs - Given(c, a) + Taken(c, a),
            s.reports + if a.Send? then [Report(a.i, c.name)] else [])
    else s
  }

  function Run(s: State, actions: seq<Action>): State
    decreases |actions|
  {
    if actions == [] then s else Run(Step(s, actions[0]), actions[1..])
  }

  /** The references a create is responsible for. */
  function Holds(c: Create): multiset<Name> {
    match c
    case Queried(name) => multiset{name}
    case Kept(name) => multiset{name} + multiset{name}
    case Dropped(name) => multiset{name}
    case Pending(name) => multiset{name}
    case Posting(name) => multiset{name}
    case Draining(name) => multiset{name}
    case Sent(name) => multiset{name}
    case _ => multiset{}
  }

  ghost predicate Inv(s: State) {
    s.refs == Bag(s.creates, Holds)
  }

  lemma Neutral(x: multiset<Name>)
    ensures x + multiset{} == x && multiset{} + x == x
    ensures multiset{} <= x && x <= x && x <= x + x
  {
  }

  predicate TakesOrGives(a: Action) {
    a.Query? || a.Keep? || a.ReleaseKept? || a.ReleaseDropped? || a.Fail? || a.ReleaseSent? || a.ReleaseDraining?
  }

  lemma HoldsMoves(c: Create, a: Action)
    requires Fits(c, a) && TakesOrGives(a)
    ensures var name := if a.Query? then a.name else c.name;
      var one := multiset{name};
      if a.Query? then Holds(c) == multiset{} && Holds(Next(c, a)) == one
      else if a.Keep? then Holds(c) == one && Holds(Next(c, a)) == one + one
      else if a.ReleaseKept? then Holds(c) == one + one && Holds(Next(c, a)) == one
      else Holds(c) == one && Holds(Next(c, a)) == multiset{}
  {
  }

  lemma HoldsStays(c: Create, a: Action)
    requires Fits(c, a) && !TakesOrGives(a)
    ensures Holds(Next(c, a)) == Holds(c) && Given(c, a) == multiset{} && Taken(c, a) == multiset{}
  {
  }

  lemma NextHolds(c: Create, a: Action)
    requires Fits(c, a)
    ensures Holds(Next(c, a)) + Given(c, a) == Holds(c) + Taken(c, a) && Given(c, a) <= Holds(c)
  {
    hide Holds, Next;
    if TakesOrGives(a) {
      HoldsMoves(c, a);
      Neutral(multiset{if a.Query? then a.name else c.name});
    } else {
      HoldsStays(c, a);
      Neutral(Holds(c));
    }
  }

  lemma Exchange(all: multiset<Name>, next: multiset<Name>, h: multiset<Name>, h': multiset<Name>,
                 given: multiset<Name>, taken: multiset<Name>)
    requires next + h == all + h' && h' + given == h + taken && given <= all
    ensures next == all - given + taken
  {
    forall n
      ensures next[n] == (all - given + taken)[n]
    {
      assert (next + h)[n] == (all + h')[n];
      assert (h' + given)[n] == (h + taken)[n];
    }
  }

  lemma StepInv(s: State, a: Action)
    requires Inv(s)
    ensures Inv(Step(s, a))
  {
    hide Holds, Next, Given, Taken, Fits;
    if Enabled(s, a) {
      var c := s.creates[a.i];
      var next := Next(c, a);
      NextHolds(s.creates[a.i], a);
      BagUpdate(s.creates, a.i, next, Holds);
      BagContains(s.creates, a.i, Holds);
      Exchange(s.refs, Bag(s.creates[a.i := next], Holds), Holds(c), Holds(next), Given(c, a), Taken(c, a));
    }
  }

  lemma {:induction false} RunInv(s: State, actions: seq<Action>)
    requires Inv(s)
    ensures Inv(Run(s, actions))
    decreases |actions|
  {
    hide Inv, Step;
    if actions != [] {
      StepInv(s, actions[0]);
      RunInv(Step(s, actions[0]), actions[1..]);
    }
  }

  lemma Reached(n: nat, actions: seq<Action>)
    ensures Inv(Run(Init(n), actions))
  {
    BagEmpty(Init(n).creates, Holds);
    RunInv(Init(n), actions);
  }

  // --------------------------------------------------------------- main results

  /** The reference in the completion context of a create between its callbacks. */
  function ContextOf(c: Create): multiset<Name> {
    if c.Pending? then multiset{c.name} else multiset{}
  }

  ghost predicate OutsideCallbacks(s: State) {
    forall c :: c in s.creates ==> c.Fresh? || c.Pending? || c.Done?
  }

  lemma {:induction false} SameBag(cs: seq<Create>)
    requires forall c :: c in cs ==> c.Fresh? || c.Pending? || c.Done?
    ensures Bag(cs, Holds) == Bag(cs, ContextOf)
  {
    if cs != [] {
      assert cs[0] in cs;
      SameBag(cs[1..]);
    }
  }

  /** Outside the callbacks the outstanding references are exactly the completion contexts of the creates that
      are pending between pre-op and post-op. */
  lemma BalanceOutsideCallbacks(n: nat, actions: seq<Action>)
    requires OutsideCallbacks(Run(Init(n), actions))
    ensures var s := Run(Init(n), actions); s.refs == Bag(s.creates, ContextOf)
  {
    Reached(n, actions);
    SameBag(Run(Init(n), actions).creates);
  }

  /** At the end none is left, whether the creates were reported, failed, drained or never watched. */
  lemma NoLeak(n: nat, actions: seq<Action>)
    requires forall c :: c in Run(Init(n), actions).creates ==> c.Done? || c.Fresh?
    ensures Run(Init(n), actions).refs == multiset{}
  {
    hide Run, Inv;
    Reached(n, actions);
    NothingHeld(Run(Init(n), actions));
  }

  lemma NothingHeld(s: State)
    requires Inv(s) && forall c :: c in s.creates ==> c.Done? || c.Fresh?
    ensures s.refs == multiset{}
  {
    BagEmpty(s.creates, Holds);
  }

  /** No release without a reference, and no context outlives its name: whatever a create holds is referenced as
      often as it holds it, in every interleaving with creates that share the name. */
  lemma NeverOverReleased(n: nat, actions: seq<Action>, a: Action)
    requires Enabled(Run(Init(n), actions), a)
    ensures var s := Run(Init(n), actions);
      Given(s.creates[a.i], a) <= Holds(s.creates[a.i]) <= s.refs
  {
    var s := Run(Init(n), actions);
    Reached(n, actions);
    NextHolds(s.creates[a.i], a);
    BagContains(s.creates, a.i, Holds);
  }

  /** The names that the create of index i has reported, in order. */
  function ReportsOf(reports: seq<Report>, i: nat): seq<Name> {
    if reports == [] then []
    else
      var last := reports[|reports| - 1];
      ReportsOf(reports[..|reports| - 1], i) + if last.create == i then [last.name] else []
  }

  /** What a create in this phase should have reported. */
  function Reported(c: Create): seq<Name> {
    if c.Sent? then [c.name]
    else if c.Done? && c.reported.Some? then [c.reported.value]
    else []
  }

  function HasReported(c: Create): int {
    |Reported(c)|
  }

  ghost predicate ReportInv(s: State) {
    && |s.reports| == Sum(s.creates, HasReported)
    && forall i :: 0 <= i < |s.creates| ==> ReportsOf(s.reports, i) == Reported(s.creates[i])
  }

  lemma ReportsSnoc(reports: seq<Report>, r: Report, i: nat)
    ensures ReportsOf(reports + [r], i) == ReportsOf(reports, i) + if r.create == i then [r.name] else []
  {
    assert (reports + [r])[..|reports|] == reports;
  }

  lemma NextReported(c: Create, a: Action)
    requires Fits(c, a)
    ensures a.Send? ==> c.Posting?
    ensures Reported(Next(c, a)) == Reported(c) + if a.Send? then [c.name] else []
  {
  }

  lemma ReportStep(s: State, a: Action)
    requires ReportInv(s)
    ensures ReportInv(Step(s, a))
  {
    hide Given, Taken, Next, Fits, Reported, ReportsOf, Sum;
    if Enabled(s, a) {
      var c := s.creates[a.i];
      NextReported(c, a);
      SumUpdate(s.creates, a.i, Next(c, a), HasReported);
      if a.Send? {
        forall i | 0 <= i < |s.creates|
          ensures ReportsOf(s.reports + [Report(a.i, c.name)], i) ==
                  ReportsOf(s.reports, i) + if a.i == i then [c.name] else []
        {
          ReportsSnoc(s.reports, Report(a.i, c.name), i);
        }
      } else {
        assert s.reports + [] == s.reports;
      }
    }
  }

  lemma {:induction false} ReportRun(s: State, actions: seq<Action>)
    requires ReportInv(s)
    ensures ReportInv(Run(s, actions))
    decreases |actions|
  {
    hide Step, ReportInv;
    if actions != [] {
      ReportStep(s, actions[0]);
      ReportRun(Step(s, actions[0]), actions[1..]);
    }
  }

  /** What each create has reported is fixed by where it is: once its event is out, and after an end as reported,
      exactly that one event about its own name; in every other phase, and after every other end, none. */
  lemma ReportedOnce(n: nat, actions: seq<Action>)
    ensures var s := Run(Init(n), actions);
      && (forall i :: 0 <= i < |s.creates| ==> ReportsOf(s.reports, i) == Reported(s.creates[i]))
      && |s.reports| == Sum(s.creates, HasReported) <= |s.creates|
  {
    hide Run, Sum, Reported, ReportsOf;
    InitReports(n);
    ReportRun(Init(n), actions);
    AtMostOneEach(Run(Init(n), actions).creates);
  }

  lemma InitReports(n: nat)
    ensures ReportInv(Init(n))
  {
    SumZero(Init(n).creates, HasReported);
  }

  lemma AtMostOneEach(creates: seq<Create>)
    ensures Sum(creates, HasReported) <= |creates|
  {
    hide Sum;
    SumBounds(creates, HasReported);
  }
}
