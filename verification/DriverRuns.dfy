/** Particular runs of the driver protocol: a push without interference, the run that reaches the capacity
    bound, and the run in which two threads are delivered against their numbers. */
module DriverRuns {
  import opened Bytes
  import opened DriverProtocol
  import opened Options
  import opened Wire
  import B = EventBuffers
  import Safety = DriverSafety
  import Theorems = DriverTheorems

  lemma {:induction false} RunAppend(s: State, a: seq<Action>, b: seq<Action>)
    ensures Run(s, a + b) == Run(Run(s, a), b)
    decreases |a|
  {
    if a == [] {
      assert a + b == b;
    } else {
      assert (a + b)[0] == a[0] && (a + b)[1..] == a[1..] + b;
      RunAppend(Step(s, a[0]), a[1..], b);
    }
  }

  // --------------------------------------------------------- one push, uninterrupted

  /** GetNextSequenceNumber and the capacity check of PushEvent, by thread i. */
  function NumberAndCheck(i: nat, record: bytes): seq<Action> {
    [GetNumber(i, record), CheckCapacity(i)]
  }

  /** The rest of a PushEvent that passed its capacity check, by thread i. */
  function Complete(i: nat): seq<Action> {
    [Allocate(i), Acquire(i), Link(i), BumpCount(i), Release(i), Report(i)]
  }

  lemma RunTwo(s: State, a: Action, b: Action)
    ensures Run(s, [a, b]) == Step(Step(s, a), b)
  {
    assert [a, b][1..] == [b];
    assert [b][1..] == [];
    assert Run(Step(s, a), [b]) == Run(Step(Step(s, a), b), []);
  }

  lemma AfterCheck(s: State, i: nat, record: bytes)
    requires s.open && i < |s.pushers| && s.pushers[i].Idle? && Stamped(record, |s.issued| + 1)
    ensures var e := Event(i, |s.issued| + 1, record);
      Run(s, NumberAndCheck(i, record)) ==
      s.(issued := s.issued + [e],
         pushers := s.pushers[i := if s.count >= MAX_EVENTS_IN_QUEUE then Full(e) else Admitted(e)])
  {
    hide Stamped;
    RunTwo(s, GetNumber(i, record), CheckCapacity(i));
    var t := Step(s, GetNumber(i, record));
    assert t.pushers[i := Idle][i := t.pushers[i]] == t.pushers;
  }

  lemma LastPhase(ps: seq<Pusher>, i: nat, p: Pusher, q: Pusher)
    requires i < |ps|
    ensures ps[i := p][i := q] == ps[i := q]
  {
  }

  lemma StepAllocate(s: State, i: nat)
    requires i < |s.pushers| && s.pushers[i].Admitted?
    ensures var e := s.pushers[i].e;
      Step(s, Allocate(i)) ==
      s.(pushers := s.pushers[i := Typed(e)], types := Increment(s.types, e), allocations := s.allocations + [e])
  {
    hide Increment;
  }

  lemma StepAcquire(s: State, i: nat)
    requires i < |s.pushers| && s.pushers[i].Typed? && s.lock == Nobody
    ensures Step(s, Acquire(i)) == s.(pushers := s.pushers[i := Locked(s.pushers[i].e)], lock := Thread(i))
  {
  }

  lemma AfterAcquire(s: State, i: nat)
    requires i < |s.pushers| && s.pushers[i].Admitted? && s.lock == Nobody
    ensures var e := s.pushers[i].e;
      Run(s, [Allocate(i), Acquire(i)]) ==
      s.(pushers := s.pushers[i := Locked(e)], lock := Thread(i),
         allocations := s.allocations + [e], types := Increment(s.types, e))
  {
    hide Increment, Run, Step;
    RunTwo(s, Allocate(i), Acquire(i));
    StepAllocate(s, i);
    StepAcquire(Step(s, Allocate(i)), i);
    LastPhase(s.pushers, i, Typed(s.pushers[i].e), Locked(s.pushers[i].e));
  }

  lemma StepLink(s: State, i: nat)
    requires i < |s.pushers| && s.pushers[i].Locked?
    ensures var e := s.pushers[i].e;
      Step(s, Link(i)) ==
      s.(pushers := s.pushers[i := Linked(e)], queue := s.queue + [e], inserted := s.inserted + [e])
  {
  }

  lemma StepBump(s: State, i: nat)
    requires i < |s.pushers| && s.pushers[i].Linked?
    ensures Step(s, BumpCount(i)) == s.(pushers := s.pushers[i := Bumped(s.pushers[i].e)], count := s.count + 1)
  {
  }

  lemma AfterBump(s: State, i: nat)
    requires i < |s.pushers| && s.pushers[i].Locked?
    ensures var e := s.pushers[i].e;
      Run(s, [Link(i), BumpCount(i)]) ==
      s.(pushers := s.pushers[i := Bumped(e)],
         queue := s.queue + [e], inserted := s.inserted + [e], count := s.count + 1)
  {
    hide Run, Step;
    RunTwo(s, Link(i), BumpCount(i));
    StepLink(s, i);
    StepBump(Step(s, Link(i)), i);
    LastPhase(s.pushers, i, Linked(s.pushers[i].e), Bumped(s.pushers[i].e));
  }

  lemma StepRelease(s: State, i: nat)
    requires i < |s.pushers| && s.pushers[i].Bumped?
    ensures Step(s, Release(i)) == s.(pushers := s.pushers[i := Published(s.pushers[i].e)], lock := Nobody)
  {
  }

  lemma StepReport(s: State, i: nat)
    requires i < |s.pushers| && s.pushers[i].Published?
    ensures Step(s, Report(i)) == s.(pushers := s.pushers[i := Idle], generated := s.generated + 1)
  {
  }

  lemma AfterReport(s: State, i: nat)
    requires i < |s.pushers| && s.pushers[i].Bumped?
    ensures Run(s, [Release(i), Report(i)]) ==
      s.(pushers := s.pushers[i := Idle], lock := Nobody, generated := s.generated + 1)
  {
    hide Run, Step;
    RunTwo(s, Release(i), Report(i));
    StepRelease(s, i);
    StepReport(Step(s, Release(i)), i);
    LastPhase(s.pushers, i, Published(s.pushers[i].e), Idle);
  }

  lemma AfterComplete(s: State, i: nat)
    requires i < |s.pushers| && s.pushers[i].Admitted? && s.lock == Nobody
    ensures var e := s.pushers[i].e;
      Run(s, Complete(i)) ==
      s.(pushers := s.pushers[i := Idle], allocations := s.allocations + [e], types := Increment(s.types, e),
         queue := s.queue + [e], inserted := s.inserted + [e], count := s.count + 1, generated := s.generated + 1)
  {
    hide Increment, Run, Step;
    var s2 := Run(s, [Allocate(i), Acquire(i)]);
    AfterAcquire(s, i);
    var s4 := Run(s2, [Link(i), BumpCount(i)]);
    AfterBump(s2, i);
    AfterReport(s4, i);
    RunAppend(s, [Allocate(i), Acquire(i)], [Link(i), BumpCount(i)] + [Release(i), Report(i)]);
    RunAppend(s2, [Link(i), BumpCount(i)], [Release(i), Report(i)]);
    assert Complete(i) == [Allocate(i), Acquire(i)] + ([Link(i), BumpCount(i)] + [Release(i), Report(i)]);
    assert s4.pushers[i := Idle] == s.pushers[i := Idle];
  }

  // ------------------------------------------- the interleaved push and the call agree

  /** What the protocol state means as a queue of records with counters. */
  function View(s: State): B.Queue {
    B.Queue(Records(s.queue), s.generated, s.delivered, s.dropped, s.types, s.open)
  }

  /** How thread i gets through PushEvent when nobody interferes. */
  function PushAlone(s: State, i: nat, record: bytes, poolOk: bool): seq<Action> {
    NumberAndCheck(i, record) +
    if s.count >= MAX_EVENTS_IN_QUEUE then [CountDrop(i)]
    else if poolOk then Complete(i)
    else [FailAllocation(i), CountDrop(i)]
  }

  lemma StepDrop(s: State, i: nat)
    requires i < |s.pushers| && s.pushers[i].Full?
    ensures Step(s, CountDrop(i)) ==
      s.(pushers := s.pushers[i := Idle], dropped := s.dropped + 1, lost := s.lost + [s.pushers[i].e])
  {
  }

  lemma AfterDrop(s: State, i: nat)
    requires i < |s.pushers| && s.pushers[i].Full?
    ensures Run(s, [CountDrop(i)]) ==
      s.(pushers := s.pushers[i := Idle], dropped := s.dropped + 1, lost := s.lost + [s.pushers[i].e])
  {
    hide Run, Step;
    RunOne(s, CountDrop(i));
    StepDrop(s, i);
  }

  lemma StepFail(s: State, i: nat)
    requires i < |s.pushers| && s.pushers[i].Admitted?
    ensures Step(s, FailAllocation(i)) == s.(pushers := s.pushers[i := Full(s.pushers[i].e)])
  {
  }

  lemma AfterFailure(s: State, i: nat)
    requires i < |s.pushers| && s.pushers[i].Admitted?
    ensures Run(s, [FailAllocation(i), CountDrop(i)]) ==
      s.(pushers := s.pushers[i := Idle], dropped := s.dropped + 1, lost := s.lost + [s.pushers[i].e])
  {
    hide Run, Step;
    RunTwo(s, FailAllocation(i), CountDrop(i));
    StepFail(s, i);
    StepDrop(Step(s, FailAllocation(i)), i);
    LastPhase(s.pushers, i, Full(s.pushers[i].e), Idle);
  }

  /** Run without interference, the steps of a push have exactly the effect of the PushEvent call. */
  lemma UninterruptedPush(s: State, i: nat, record: bytes, poolOk: bool)
    requires s.open && i < |s.pushers| && s.pushers[i].Idle? && s.lock == Nobody && s.count == |s.queue|
    requires Stamped(record, |s.issued| + 1)
    ensures HEADER_SIZE <= |record|
    ensures View(Run(s, PushAlone(s, i, record, poolOk))) == B.Pushed(View(s), Some(record), |record|, poolOk).1
    ensures Run(s, PushAlone(s, i, record, poolOk)).pushers == s.pushers
  {
    hide Run, Stamped, EventType, EventSize, Records;
    StampedSize(record, |s.issued| + 1);
    assert record[..|record|] == record;
    var e := Event(i, |s.issued| + 1, record);
    var start := NumberAndCheck(i, record);
    AfterCheck(s, i, record);
    var t := Run(s, start);
    assert t.pushers[i := Idle] == s.pushers;
    Safety.RecordsSnoc(s.queue, e);
    RecordsLength(s.queue);
    if s.count >= MAX_EVENTS_IN_QUEUE {
      AfterDrop(t, i);
      RunAppend(s, start, [CountDrop(i)]);
    } else if poolOk {
      AfterComplete(t, i);
      RunAppend(s, start, Complete(i));
    } else {
      AfterFailure(t, i);
      RunAppend(s, start, [FailAllocation(i), CountDrop(i)]);
    }
  }

  lemma RecordsLength(es: seq<Event>)
    ensures |Records(es)| == |es|
  {
  }

  lemma StampedSize(record: bytes, ticket: nat)
    requires Stamped(record, ticket)
    ensures HEADER_SIZE <= |record| <= MAX_EVENT_SIZE
  {
  }

  // --------------------------------------------------------- one drain, uninterrupted

  function Repeat(a: seq<Action>, n: nat): seq<Action>
    decreases n
  {
    if n == 0 then [] else a + Repeat(a, n - 1)
  }

  /** The reader's size sum after n more records. */
  function TotalAfter(rs: seq<bytes>, used: nat, n: nat): nat
    requires n <= |rs|
  {
    if n == 0 then used else TotalAfter(rs[1..], AddU32(used, |rs[0]|), n - 1)
  }

  lemma RunOne(s: State, a: Action)
    ensures Run(s, [a]) == Step(s, a)
  {
  }

  lemma MoveStep(s: State)
    requires s.reader.Moving? && FitU32(Records(s.queue), s.reader.total, s.reader.capacity) > 0
    ensures var r, rs := s.reader, Records(s.queue);
      && |rs| == |s.queue| > 0 && rs[1..] == Records(s.queue[1..])
      && Step(s, MoveOne) == s.(queue := s.queue[1..],
           reader := r.(local := r.local + [s.queue[0]], total := AddU32(r.total, |rs[0]|)))
      && FitU32(rs, r.total, r.capacity) == 1 + FitU32(rs[1..], AddU32(r.total, |rs[0]|), r.capacity)
  {
  }

  /** Phase 1 of a drain moves n records that fit. */
  lemma {:induction false} MoveMany(s: State, n: nat)
    requires s.reader.Moving? && n <= FitU32(Records(s.queue), s.reader.total, s.reader.capacity)
    ensures n <= |s.queue| == |Records(s.queue)|
    ensures Run(s, Repeat([MoveOne], n)) ==
      s.(queue := s.queue[n..],
         reader := s.reader.(local := s.reader.local + s.queue[..n],
                             total := TotalAfter(Records(s.queue), s.reader.total, n)))
    ensures FitU32(Records(s.queue), s.reader.total, s.reader.capacity) ==
            n + FitU32(Records(s.queue[n..]), TotalAfter(Records(s.queue), s.reader.total, n), s.reader.capacity)
    decreases n
  {
    hide Step, AddU32, Records, FitU32;
    RecordsLength(s.queue);
    if n == 0 {
      assert s.queue[0..] == s.queue && s.reader.local + s.queue[..0] == s.reader.local;
    } else {
      var t := Step(s, MoveOne);
      MoveStep(s);
      MoveMany(t, n - 1);
      RunOne(s, MoveOne);
      RunAppend(s, [MoveOne], Repeat([MoveOne], n - 1));
      assert t.queue[n - 1..] == s.queue[n..];
      assert t.reader.local + t.queue[..n - 1] == s.reader.local + s.queue[..n];
    }
  }

  lemma RunNothing(s: State)
    ensures Run(s, []) == s
  {
  }

  lemma StepCopy(s: State)
    requires s.reader.Copying? && s.reader.local != []
    ensures var r := s.reader;
      Step(s, CopyOne) == s.(reader := Copied(r.local[0], r.local[1..], r.batch, r.out + r.local[0].record))
  {
  }

  lemma StepCount(s: State)
    requires s.reader.Copied?
    ensures var r := s.reader;
      Step(s, CountOne) ==
      s.(reader := Copying(r.local, r.batch + [r.e], r.out), delivered := s.delivered + 1, handed := s.handed + [r.e])
  {
  }

  lemma CopyStep(s: State)
    requires s.reader.Copying? && s.reader.local != []
    ensures var r := s.reader;
      Run(s, [CopyOne, CountOne]) ==
      s.(reader := Copying(r.local[1..], r.batch + [r.local[0]], r.out + r.local[0].record),
         delivered := s.delivered + 1, handed := s.handed + [r.local[0]])
  {
    hide Run, Step;
    RunTwo(s, CopyOne, CountOne);
    StepCopy(s);
    StepCount(Step(s, CopyOne));
  }

  /** Phase 2 copies, counts and frees all detached events. */
  lemma {:induction false} CopyMany(s: State, n: nat)
    requires s.reader.Copying? && n == |s.reader.local|
    ensures var r := s.reader;
      Run(s, Repeat([CopyOne, CountOne], n)) ==
      s.(reader := Copying([], r.batch + r.local, r.out + Concat(Records(r.local))),
         delivered := s.delivered + n, handed := s.handed + r.local)
    decreases n
  {
    hide Records, Run;
    var r := s.reader;
    if n == 0 {
      Safety.NothingCopied([]);
      RunNothing(s);
      assert r.local == [] && r.batch + [] == r.batch && s.handed + [] == s.handed && r.out + [] == r.out;
    } else {
      var t := Run(s, [CopyOne, CountOne]);
      CopyStep(s);
      CopyMany(t, n - 1);
      RunAppend(s, [CopyOne, CountOne], Repeat([CopyOne, CountOne], n - 1));
      Safety.RecordsHead(r.local);
      assert t.reader.batch + t.reader.local == r.batch + r.local;
      assert t.handed + t.reader.local == s.handed + r.local;
      assert t.reader.out + Concat(Records(t.reader.local)) == r.out + Concat(Records(r.local));
    }
  }

  /** How the reader gets through DrainEvents when nobody interferes. */
  function DrainAlone(s: State, capacity: nat): seq<Action> {
    var k := FitU32(Records(s.queue), 0, capacity);
    [StartDrain(capacity)] + Repeat([MoveOne], k) + [Settle, ReleaseReader] +
    Repeat([CopyOne, CountOne], k) + [Finish]
  }

  lemma AfterStart(s: State, capacity: nat)
    requires Enabled(s, StartDrain(capacity))
    ensures Run(s, [StartDrain(capacity)]) == s.(reader := Moving(s.queue, [], 0, capacity), lock := TheReader)
  {
  }

  lemma AfterSettle(s: State)
    requires s.reader.Moving? && FitU32(Records(s.queue), s.reader.total, s.reader.capacity) == 0
    ensures Run(s, [Settle, ReleaseReader]) ==
      s.(reader := Copying(s.reader.local, [], []), count := s.count - |s.reader.local|, lock := Nobody)
  {
    hide Run, Step, FitU32, Records, AddU32;
    RunTwo(s, Settle, ReleaseReader);
    StepSettle(s);
    StepReleaseReader(Step(s, Settle));
  }

  lemma StepSettle(s: State)
    requires s.reader.Moving? && FitU32(Records(s.queue), s.reader.total, s.reader.capacity) == 0
    ensures Step(s, Settle) == s.(reader := Settled(s.reader.local), count := s.count - |s.reader.local|)
  {
    hide HeadFits, FitU32, Records;
    HeadOfQueue(s);
  }

  lemma HeadOfQueue(s: State)
    requires s.reader.Moving?
    ensures HeadFits(s) <==> FitU32(Records(s.queue), s.reader.total, s.reader.capacity) > 0
  {
    hide AddU32;
  }

  lemma StepReleaseReader(s: State)
    requires s.reader.Settled?
    ensures Step(s, ReleaseReader) == s.(reader := Copying(s.reader.local, [], []), lock := Nobody)
  {
  }

  lemma AfterFinish(s: State)
    requires s.reader.Copying? && s.reader.local == []
    ensures Run(s, [Finish]) == s.(reader := Returning(s.reader.batch, s.reader.out))
  {
  }

  /** Run without interference, the steps of a drain have exactly the effect of the DrainEvents call, and the
      bytes it returns are the records taken. */
  lemma UninterruptedDrain(s: State, capacity: nat)
    requires Enabled(s, StartDrain(capacity))
    ensures var k := B.Taken(View(s), capacity);
      var q, t := View(s), Run(s, DrainAlone(s, capacity));
      && View(t) == q.(records := q.records[k..], delivered := q.delivered + k)
      && t.reader == Returning(s.queue[..k], Concat(q.records[..k])) && t.lock == Nobody
      && t.count == s.count - k && t.pushers == s.pushers
      && t.handed == s.handed + s.queue[..k] && t.issued == s.issued && t.inserted == s.inserted
  {
    hide Run, FitU32, Records, Concat, HeadFits, Stamped, AddU32, AllIdle, TotalAfter, Repeat;
    var k := FitU32(Records(s.queue), 0, capacity);
    RecordsLength(s.queue);
    var s1 := Run(s, [StartDrain(capacity)]);
    AfterStart(s, capacity);
    var s2 := Run(s1, Repeat([MoveOne], k));
    MoveMany(s1, k);
    var s3 := Run(s2, [Settle, ReleaseReader]);
    AfterSettle(s2);
    assert [] + s.queue[..k] == s.queue[..k];
    var s4 := Run(s3, Repeat([CopyOne, CountOne], k));
    CopyMany(s3, k);
    AfterFinish(s4);
    RunAppend(s, [StartDrain(capacity)], Repeat([MoveOne], k));
    RunAppend(s, [StartDrain(capacity)] + Repeat([MoveOne], k), [Settle, ReleaseReader]);
    RunAppend(s, [StartDrain(capacity)] + Repeat([MoveOne], k) + [Settle, ReleaseReader],
              Repeat([CopyOne, CountOne], k));
    RunAppend(s, [StartDrain(capacity)] + Repeat([MoveOne], k) + [Settle, ReleaseReader] +
              Repeat([CopyOne, CountOne], k), [Finish]);
    RecordsSlices(s.queue, k);
    assert [] + Concat(Records(s.queue[..k])) == Concat(Records(s.queue[..k]));
  }

  lemma RecordsSlices(es: seq<Event>, k: nat)
    requires k <= |es|
    ensures |Records(es)| == |es| && Records(es[..k]) == Records(es)[..k] && Records(es[k..]) == Records(es)[k..]
  {
  }

  // ----------------------------------------------------------- the bound is reached

  /** A smallest well-formed record: a process event that is all header, with this sequence number. */
  function HeaderOnly(ticket: nat): (r: bytes)
    ensures Stamped(r, ticket)
  {
    var r := U32Bytes(1) + seq(20, _ => 0) + U32Bytes(HEADER_SIZE) + U32Bytes(ticket % U32_MOD);
    assert r[..4] == U32Bytes(1) && r[24..28] == U32Bytes(HEADER_SIZE) && r[28..32] == U32Bytes(ticket % U32_MOD);
    r
  }

  /** Open, no lock held, threads below `admitted` past the capacity check and the others idle. */
  ghost predicate Stage(s: State, threads: nat, from: nat, to: nat, queued: nat) {
    && s.open && s.lock == Nobody && |s.pushers| == threads && from <= to <= threads
    && (forall i :: 0 <= i < threads ==> if from <= i < to then s.pushers[i].Admitted? else s.pushers[i].Idle?)
    && s.count == |s.queue| == queued
  }

  lemma AdmitNext(s: State, threads: nat, from: nat, to: nat, queued: nat) returns (actions: seq<Action>)
    requires Stage(s, threads, from, to, queued) && to < threads && queued < MAX_EVENTS_IN_QUEUE
    ensures Stage(Run(s, actions), threads, from, to + 1, queued)
  {
    hide Run, Stamped;
    actions := NumberAndCheck(to, HeaderOnly(|s.issued| + 1));
    AfterCheck(s, to, HeaderOnly(|s.issued| + 1));
  }

  lemma CompleteNext(s: State, threads: nat, from: nat, to: nat, queued: nat) returns (actions: seq<Action>)
    requires Stage(s, threads, from, to, queued) && from < to
    ensures Stage(Run(s, actions), threads, from + 1, to, queued + 1)
  {
    hide Run;
    actions := Complete(from);
    AfterComplete(s, from);
  }

  /** Thread 0 alone pushes the queue up to a given length. */
  lemma {:induction false} Fill(s: State, threads: nat, queued: nat, goal: nat) returns (actions: seq<Action>)
    requires Stage(s, threads, 0, 0, queued) && threads > 0 && queued <= goal <= MAX_EVENTS_IN_QUEUE
    ensures Stage(Run(s, actions), threads, 0, 0, goal)
    decreases goal - queued
  {
    if queued == goal {
      actions := [];
    } else {
      var admit := AdmitNext(s, threads, 0, 0, queued);
      var complete := CompleteNext(Run(s, admit), threads, 0, 1, queued);
      RunAppend(s, admit, complete);
      StageEmpty(Run(s, admit + complete), threads, 1, queued + 1);
      var rest := Fill(Run(s, admit + complete), threads, queued + 1, goal);
      RunAppend(s, admit + complete, rest);
      actions := admit + complete + rest;
    }
  }

  lemma StageEmpty(s: State, threads: nat, at: nat, queued: nat)
    requires Stage(s, threads, at, at, queued)
    ensures Stage(s, threads, 0, 0, queued)
  {
  }

  lemma {:induction false} AdmitAll(s: State, threads: nat, to: nat, queued: nat) returns (actions: seq<Action>)
    requires Stage(s, threads, 0, to, queued) && queued < MAX_EVENTS_IN_QUEUE
    ensures Stage(Run(s, actions), threads, 0, threads, queued)
    decreases threads - to
  {
    if to == threads {
      actions := [];
    } else {
      var admit := AdmitNext(s, threads, 0, to, queued);
      var rest := AdmitAll(Run(s, admit), threads, to + 1, queued);
      RunAppend(s, admit, rest);
      actions := admit + rest;
    }
  }

  lemma {:induction false} CompleteAll(s: State, threads: nat, from: nat, queued: nat) returns (actions: seq<Action>)
    requires Stage(s, threads, from, threads, queued)
    ensures Stage(Run(s, actions), threads, threads, threads, queued + (threads - from))
    decreases threads - from
  {
    if from == threads {
      actions := [];
    } else {
      var complete := CompleteNext(s, threads, from, threads, queued);
      var rest := CompleteAll(Run(s, complete), threads, from + 1, queued + 1);
      RunAppend(s, complete, rest);
      actions := complete + rest;
    }
  }

  /** The capacity bound is exact: any number of callbacks can fill the queue to 2047 plus their number,
      which is one more than EDR_MAX_EVENTS_IN_QUEUE allows for each callback beyond the first. */
  lemma BoundIsReached(threads: nat) returns (actions: seq<Action>)
    requires threads > 0
    ensures |Run(Init(threads), actions).queue| == MAX_EVENTS_IN_QUEUE - 1 + threads
  {
    var s := Init(threads);
    var fill := Fill(s, threads, 0, MAX_EVENTS_IN_QUEUE - 1);
    var s1 := Run(s, fill);
    var admit := AdmitAll(s1, threads, 0, MAX_EVENTS_IN_QUEUE - 1);
    var s2 := Run(s1, admit);
    var complete := CompleteAll(s2, threads, 0, MAX_EVENTS_IN_QUEUE - 1);
    RunAppend(s, fill, admit);
    RunAppend(s, fill + admit, complete);
    actions := fill + admit + complete;
  }

  // ---------------------------------------------------- order across threads is not kept

  /** Two callbacks among any number can be inserted, and then delivered, against the order of their numbers. */
  lemma NumbersMayBeOvertaken(threads: nat) returns (actions: seq<Action>)
    requires threads >= 2
    ensures var s := Run(Init(threads), actions);
      && |s.inserted| == 2 && s.inserted[0].ticket > s.inserted[1].ticket
      && |s.issued| == |s.handed| == 2 && Theorems.Number(s.handed[0]) == 2 && Theorems.Number(s.handed[1]) == 1
  {
    hide Run, Stamped, Theorems.Number, EventType, EventSize, SequenceNumber, Enabled, DrainAlone;
    var s := Init(threads);
    var push := PushedAgainstOrder(threads);
    var t := Run(s, push);
    TwoFit(t.queue[0], t.queue[1]);
    UninterruptedDrain(t, READ_BUFFER_SIZE);
    RunAppend(s, push, DrainAlone(t, READ_BUFFER_SIZE));
    assert t.queue[..2] == t.queue && [] + t.queue == t.queue;
    Theorems.NumberIsTicket(t.queue[0]);
    Theorems.NumberIsTicket(t.queue[1]);
    actions := push + DrainAlone(t, READ_BUFFER_SIZE);
  }

  /** Thread 0 gets a number, thread 1 gets the next one and pushes, then thread 0 pushes. */
  lemma PushedAgainstOrder(threads: nat) returns (actions: seq<Action>)
    requires threads >= 2
    ensures var s := Run(Init(threads), actions);
      && Enabled(s, StartDrain(READ_BUFFER_SIZE)) && s.open
      && s.queue == s.inserted == [Event(1, 2, HeaderOnly(2)), Event(0, 1, HeaderOnly(1))]
      && |s.issued| == 2 && s.handed == []
  {
    hide Run, Stamped;
    var s := Init(threads);
    var a := NumberAndCheck(0, HeaderOnly(1));
    AfterCheck(s, 0, HeaderOnly(1));
    var s1 := Run(s, a);
    var b := NumberAndCheck(1, HeaderOnly(2));
    AfterCheck(s1, 1, HeaderOnly(2));
    var s2 := Run(s1, b);
    AfterComplete(s2, 1);
    var s3 := Run(s2, Complete(1));
    AfterComplete(s3, 0);
    RunAppend(s, a, b);
    RunAppend(s, a + b, Complete(1));
    RunAppend(s, a + b + Complete(1), Complete(0));
    actions := a + b + Complete(1) + Complete(0);
  }

  lemma TwoFit(d: Event, e: Event)
    requires Stamped(d.record, d.ticket) && Stamped(e.record, e.ticket)
    ensures FitU32(Records([d, e]), 0, READ_BUFFER_SIZE) == 2
  {
    hide Stamped;
    var rs := Records([d, e]);
    StampedSize(d.record, d.ticket);
    StampedSize(e.record, e.ticket);
    FitOne(rs, 0, READ_BUFFER_SIZE);
    FitOne(rs[1..], |rs[0]|, READ_BUFFER_SIZE);
  }

  /** The delivered numbers go up, as long as the 32-bit counter has not come round. */
  ghost predicate NumbersAscend(s: State) {
    |s.issued| < U32_MOD ==>
      forall j, k :: 0 <= j < k < |s.handed| ==> Theorems.Number(s.handed[j]) < Theorems.Number(s.handed[k])
  }

  lemma OneThreadAscends(threads: nat, actions: seq<Action>)
    requires threads <= 1
    ensures NumbersAscend(Run(Init(threads), actions))
  {
    hide Run, Theorems.Number, Stamped, Safety.Inv;
    var s := Run(Init(threads), actions);
    if |s.issued| < U32_MOD {
      forall j, k | 0 <= j < k < |s.handed|
        ensures Theorems.Number(s.handed[j]) < Theorems.Number(s.handed[k])
      {
        Theorems.HandedThread(threads, actions, j);
        Theorems.HandedThread(threads, actions, k);
        Theorems.DeliveredNumbers(threads, actions, j, k);
      }
    }
  }

  /** The sequence numbers give the exact order of delivery in every run if and only if at most one thread runs
      callbacks. */
  lemma OrderIsExactIffOneThread(threads: nat)
    ensures (forall actions: seq<Action> :: NumbersAscend(Run(Init(threads), actions))) <==> threads <= 1
  {
    hide Run, Theorems.Number;
    if threads <= 1 {
      forall actions: seq<Action>
        ensures NumbersAscend(Run(Init(threads), actions))
      {
        OneThreadAscends(threads, actions);
      }
    } else {
      var actions := NumbersMayBeOvertaken(threads);
      assert !NumbersAscend(Run(Init(threads), actions));
    }
  }
}
