/** What the UI shows of a run: the fold of its event stream
  (features/workflows/lib/run-view-model.ts) and the projection of the store's
  rows (features/workflows/lib/evo-run-events.ts). */
module Views {
  import opened Ids
  import opened StateMachines
  import opened Storage

  datatype StepView = StepPending | StepRunning | StepDone | StepFailed | StepCanceled
  {
    predicate Final() {
      StepDone? || StepFailed? || StepCanceled?
    }
  }

  datatype RunView = ViewQueued | ViewRunning | ViewSucceeded | ViewFailed | ViewCanceled
  {
    predicate Final() {
      ViewSucceeded? || ViewFailed? || ViewCanceled?
    }
  }

  // --- the projection of the durable rows ---------------------------------

  function MapNode(s: NodeState): StepView {
    match s
    case Succeeded => StepDone
    case Failed => StepFailed
    case DeadLettered => StepFailed
    case Canceled => StepCanceled
    case Running => StepRunning
    case Dispatched => StepRunning
    case Ready => StepRunning
    case RetryWait => StepRunning
    case Blocked => StepPending
  }

  function MapRun(r: RunState): RunView {
    match r
    case RunQueued => ViewQueued
    case RunRunning => ViewRunning
    case RunSucceeded => ViewSucceeded
    case RunFailed => ViewFailed
    case RunCanceled => ViewCanceled
  }

  // --- the fold of the events ----------------------------------------------

  function MapOutcome(o: Outcome): RunView {
    match o
    case OutSucceeded => ViewSucceeded
    case OutFailed => ViewFailed
    case OutCanceled => ViewCanceled
    case OutTimeout => ViewCanceled
    case OutStopped => ViewCanceled
  }

  function NodeOf(e: Event): Option<NodeId> {
    match e
    case NodeDispatched(n) => Some(n)
    case NodeSucceeded(n) => Some(n)
    case NodeFailed(n) => Some(n)
    case NodeCanceled(n) => Some(n)
    case NodeDeadLettered(n) => Some(n)
    case NodeRetryScheduled(n) => Some(n)
    case NodeLeaseExpired(_) => None
    case RunStarted => None
    case RunResumed => None
    case RunFinished(_) => None
  }

  function StepAfter(s: StepView, e: Event): StepView {
    match e
    case NodeDispatched(_) => if s == StepPending then StepRunning else s
    case NodeSucceeded(_) => StepDone
    case NodeFailed(_) => StepFailed
    case NodeCanceled(_) => if s != StepDone && s != StepFailed then StepCanceled else s
    case NodeRetryScheduled(_) => if s != StepDone && s != StepFailed then StepRunning else s
    case NodeDeadLettered(_) => if s != StepDone then StepFailed else s
    case _ => s
  }

  function RunAfter(r: RunView, e: Event): RunView {
    match e
    case RunStarted => ViewRunning
    case RunFinished(o) => MapOutcome(o)
    case _ => r
  }

  /** A node without a step reads as pending. */
  function ShownStep(events: seq<Event>, n: NodeId): StepView {
    if events == [] then StepPending
    else
      var e := events[|events| - 1];
      var before := ShownStep(events[..|events| - 1], n);
      if NodeOf(e) == Some(n) then StepAfter(before, e) else before
  }

  function ShownRun(events: seq<Event>): RunView {
    if events == [] then ViewQueued
    else RunAfter(ShownRun(events[..|events| - 1]), events[|events| - 1])
  }

  lemma ShownStepAppend(events: seq<Event>, e: Event, n: NodeId)
    ensures ShownStep(events + [e], n) ==
            if NodeOf(e) == Some(n) then StepAfter(ShownStep(events, n), e) else ShownStep(events, n)
  {
    assert (events + [e])[..|events|] == events;
  }

  lemma ShownRunAppend(events: seq<Event>, e: Event)
    ensures ShownRun(events + [e]) == RunAfter(ShownRun(events), e)
  {
    assert (events + [e])[..|events|] == events;
  }

  /** The loop of reduceEvoEvents: one pass over a stream that other runs
    publish to as well. */
  datatype Tagged = Tagged(run: string, event: Event)

  function Mine(run: string, stream: seq<Tagged>): seq<Event> {
    if stream == [] then []
    else
      var t := stream[|stream| - 1];
      Mine(run, stream[..|stream| - 1]) + if t.run == run then [t.event] else []
  }

  ghost predicate Mentions(events: seq<Event>, n: NodeId) {
    exists e :: e in events && NodeOf(e) == Some(n)
  }

  method ReduceEvents(run: string, stream: seq<Tagged>) returns (status: RunView, steps: map<NodeId, StepView>)
    ensures status == ShownRun(Mine(run, stream))
    ensures forall n :: (if n in steps then steps[n] else StepPending) == ShownStep(Mine(run, stream), n)
    ensures forall n :: n in steps <==> Mentions(Mine(run, stream), n)
  {
    hide ShownRun, ShownStep, Mine, Mentions, NodeOf, StepAfter, RunAfter;
    status, steps := ViewQueued, map[];
    NothingShown(run);
    for i := 0 to |stream|
      invariant status == ShownRun(Mine(run, stream[..i]))
      invariant forall n :: (if n in steps then steps[n] else StepPending) == ShownStep(Mine(run, stream[..i]), n)
      invariant forall n :: n in steps <==> Mentions(Mine(run, stream[..i]), n)
    {
      ghost var seen := Mine(run, stream[..i]);
      MineGrows(run, stream, i);
      assert seen + [] == seen;
      if stream[i].run == run {
        var e := stream[i].event;
        ShownRunAppend(seen, e);
        forall n ensures ShownStep(seen + [e], n) ==
                         if NodeOf(e) == Some(n) then StepAfter(ShownStep(seen, n), e) else ShownStep(seen, n) {
          ShownStepAppend(seen, e, n);
        }
        MentionsAppend(seen, e);
        status := RunAfter(status, e);
        match NodeOf(e) {
          case Some(n) =>
            steps := steps[n := StepAfter(if n in steps then steps[n] else StepPending, e)];
          case None =>
        }
      }
    }
    assert stream[..|stream|] == stream;
  }

  lemma NothingShown(run: string)
    ensures Mine(run, []) == [] && ShownRun([]) == ViewQueued
    ensures forall n :: ShownStep([], n) == StepPending && !Mentions([], n)
  {
  }

  lemma MineGrows(run: string, stream: seq<Tagged>, i: nat)
    requires i < |stream|
    ensures Mine(run, stream[..i + 1]) ==
            Mine(run, stream[..i]) + if stream[i].run == run then [stream[i].event] else []
  {
    assert stream[..i + 1][..i] == stream[..i];
  }

  lemma MentionsAppend(events: seq<Event>, e: Event)
    ensures forall n :: Mentions(events + [e], n) <==> Mentions(events, n) || NodeOf(e) == Some(n)
  {
    forall n ensures Mentions(events + [e], n) <==> Mentions(events, n) || NodeOf(e) == Some(n) {
      if x :| x in events && NodeOf(x) == Some(n) { assert x in events + [e]; }
      assert e in events + [e];
    }
  }

  // --- agreement with the store ----------------------------------------------

  /** Every final status shown is the store's. */
  ghost predicate ShowsOnlyStored(d: Disk) {
    && (forall n {:trigger ShownStep(d.events, n)} ::
          ShownStep(d.events, n).Final() ==> n in d.status && MapNode(d.status[n]) == ShownStep(d.events, n))
    && (ShownRun(d.events).Final() ==> MapRun(d.run) == ShownRun(d.events))
  }

  /** The events and the rows show the same. */
  ghost predicate ShowsStored(d: Disk) {
    && (forall n {:trigger ShownStep(d.events, n)} :: n in d.status ==> ShownStep(d.events, n) == MapNode(d.status[n]))
    && ShownRun(d.events) == MapRun(d.run)
  }

  /** What must be stored before an event is published. */
  ghost predicate EventStored(d: Disk, e: Event) {
    match e
    case NodeSucceeded(n) => n in d.status && d.status[n] == Succeeded
    case NodeFailed(n) => n in d.status && d.status[n] == Failed
    case NodeCanceled(n) => n in d.status && d.status[n] == Canceled
    case NodeDeadLettered(n) => n in d.status && d.status[n] == DeadLettered
    case RunFinished(o) => MapRun(d.run) == MapOutcome(o)
    case _ => true
  }

  lemma PublishShowsOnlyStored(d: Disk, e: Event)
    requires ShowsOnlyStored(d) && EventStored(d, e)
    ensures ShowsOnlyStored(d.(events := d.events + [e]))
  {
    var d' := d.(events := d.events + [e]);
    ShownRunAppend(d.events, e);
    hide ShownRun, ShownStep;
    forall n | ShownStep(d'.events, n).Final() ensures n in d'.status && MapNode(d'.status[n]) == ShownStep(d'.events, n) {
      ShownStepAppend(d.events, e, n);
      assert ShownStep(d.events, n).Final() ==> n in d.status && MapNode(d.status[n]) == ShownStep(d.events, n);
    }
  }

  /** Once every event's fact is stored, no loss, duplication or reordering of
    the stream can show a final status that the store lacks. */
  lemma {:induction false} AnyDeliveryShowsOnlyStored(d: Disk, delivered: seq<Event>)
    requires forall e :: e in delivered ==> EventStored(d, e)
    ensures ShowsOnlyStored(d.(events := delivered))
    decreases |delivered|
  {
    if delivered != [] {
      var front, e := delivered[..|delivered| - 1], delivered[|delivered| - 1];
      AnyDeliveryShowsOnlyStored(d, front);
      assert front + [e] == delivered && e in delivered;
      assert EventStored(d, e);
      PublishShowsOnlyStored(d.(events := front), e);
    }
  }

  lemma {:induction false} MentionedIsNotPending(events: seq<Event>, e: Event, n: NodeId)
    requires e in events && NodeOf(e) == Some(n)
    ensures ShownStep(events, n) != StepPending
    decreases |events|
  {
    var front, last := events[..|events| - 1], events[|events| - 1];
    assert events == front + [last];
    if e in front {
      MentionedIsNotPending(front, e, n);
    }
  }

  /** Exactly when a redelivered event leaves the step as it was. */
  lemma RedeliveryKeepsStepIff(events: seq<Event>, e: Event, n: NodeId)
    requires e in events && NodeOf(e) == Some(n)
    ensures ShownStep(events + [e], n) == ShownStep(events, n) <==>
            match e
            case NodeSucceeded(_) => ShownStep(events, n) == StepDone
            case NodeFailed(_) => ShownStep(events, n) == StepFailed
            case NodeCanceled(_) => ShownStep(events, n).Final()
            case NodeDeadLettered(_) => ShownStep(events, n) == StepDone || ShownStep(events, n) == StepFailed
            case NodeRetryScheduled(_) => ShownStep(events, n) != StepCanceled
            case _ => true
  {
    MentionedIsNotPending(events, e, n);
    ShownStepAppend(events, e, n);
  }

  lemma {:induction false} StartedIsNotQueued(events: seq<Event>)
    requires RunStarted in events
    ensures ShownRun(events) != ViewQueued
    decreases |events|
  {
    var front, last := events[..|events| - 1], events[|events| - 1];
    assert events == front + [last];
    if RunStarted in front {
      StartedIsNotQueued(front);
    }
  }

  /** The comment on reduceEvoEvents calls every duplicate harmless; for the run
    status that fails exactly here. */
  lemma RedeliveryKeepsRunIff(events: seq<Event>, e: Event)
    requires e in events
    ensures ShownRun(events + [e]) == ShownRun(events) <==>
            && (e.RunStarted? ==> !ShownRun(events).Final())
            && (e.RunFinished? ==> MapOutcome(e.outcome) == ShownRun(events))
  {
    if e.RunStarted? { StartedIsNotQueued(events); }
    ShownRunAppend(events, e);
  }

  lemma RestartShownAfterFinish()
    ensures ShownRun([RunStarted, RunFinished(OutSucceeded)]) == ViewSucceeded
    ensures ShownRun([RunStarted, RunFinished(OutSucceeded)] + [RunStarted]) == ViewRunning
  {
    ShownRunAppend([RunStarted], RunFinished(OutSucceeded));
    assert [RunStarted, RunFinished(OutSucceeded)] == [RunStarted] + [RunFinished(OutSucceeded)];
    ShownRunAppend([RunStarted, RunFinished(OutSucceeded)], RunStarted);
  }
}
