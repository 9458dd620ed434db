/**
 * The checkpoint recorder of the tracer's sampling layer: the flags it forwards,
 * the spans it reads, the sinks it forwards to, the calls it makes on a sink, and
 * the meaning of each of its operations as a step on a pure state.
 *
 * The class in module SamplingCheckpointing is proved against `Step`; the lemmas
 * here say what any sequence of operations does.
 */
module Checkpoints {
  import opened Wrappers

  /** A Java `int` flag set. */
  type Flags = bv32

  // The four checkpoint flags of the Checkpointer interface. Their numeric values
  // are defined outside this model, so they are left unspecified: nothing below
  // depends on them.
  const SPAN: Flags
  const CPU: Flags
  const THREAD_MIGRATION: Flags
  const END: Flags

  /** A trace identifier (a DDId). */
  type TraceId = nat

  /** The fields of a span the recorder reads; it never changes a span. */
  datatype Span = Span(
    traceId: TraceId,
    resourceName: string,
    eligibleForDropping: bool,
    emitting: Option<bool>) // the tri-state "emitting checkpoints" value; None is null

  /** A checkpoint sink, by identity: the private no-op sink, or one installed by a consumer. */
  datatype Sink = NoOp | External(id: nat)

  /** A call made on a sink: one of the two methods of the Checkpointer interface. */
  datatype Event =
    | Checkpointed(span: Span, flags: Flags)
    | RootReported(endpoint: string, traceId: TraceId, published: bool)

  datatype Call = Call(target: Sink, event: Event)

  /**
   * The events that the external sink `id` receives from a sequence of calls, in order.
   * The no-op sink keeps nothing of what it is given.
   */
  function Received(calls: seq<Call>, id: nat): (r: seq<Event>)
    ensures |r| <= |calls|
    ensures forall e :: e in r ==> Call(External(id), e) in calls
  {
    if calls == [] then []
    else
      var last := calls[|calls| - 1];
      Received(calls[..|calls| - 1], id) + (if last.target == External(id) then [last.event] else [])
  }

  /** The no-op sink ignores every call: a call on it reaches no external sink. */
  lemma NoOpIgnores(calls: seq<Call>, e: Event, id: nat)
    ensures Received(calls + [Call(NoOp, e)], id) == Received(calls, id)
  {
  }

  lemma {:induction false} ReceivedAppend(a: seq<Call>, b: seq<Call>, id: nat)
    ensures Received(a + b, id) == Received(a, id) + Received(b, id)
    decreases |b|
  {
    if b == [] {
      assert a + b == a;
    } else {
      var b' := b[..|b| - 1];
      assert (a + b)[..|a + b| - 1] == a + b';
      ReceivedAppend(a, b', id);
    }
  }

  // ---------------------------------------------------------------------------
  // The recorder's operations, as steps on a pure state
  // ---------------------------------------------------------------------------

  /** The recorder's state: the installed sink, and (ghost) every call made on a sink so far. */
  datatype Recorder = Recorder(sink: Sink, calls: seq<Call>)

  /** The six lifecycle methods. */
  datatype Phase =
    | Start | StartWork | FinishWork | StartThreadMigration | FinishThreadMigration | Finish

  datatype Op =
    | Register(candidate: Sink)
    | Checkpoint(span: Span, flags: Flags)
    | Lifecycle(phase: Phase, span: Span)
    | OnRootSpan(root: Span, published: bool)

  /** The flag combination each lifecycle method forwards. */
  function PhaseFlags(p: Phase): (flags: Flags) {
    match p
    case Start => SPAN
    case StartWork => CPU
    case FinishWork => CPU | END
    case StartThreadMigration => THREAD_MIGRATION
    case FinishThreadMigration => THREAD_MIGRATION | END
    case Finish => SPAN | END
  }

  /** The compare-and-set of `register`: the candidate replaces the sink only while it is the no-op sink. */
  function CompareAndSet(current: Sink, candidate: Sink): (installed: Sink) {
    if current == NoOp then candidate else current
  }

  /** What `checkpoint(span, flags)` hands to `sink`: the call, unless the span is eligible for dropping. */
  function Forward(sink: Sink, span: Span, flags: Flags): (forwarded: seq<Call>) {
    if !span.eligibleForDropping then [Call(sink, Checkpointed(span, flags))] else []
  }

  /** The published value `onRootSpan` reports: the caller's value and the span's tri-state flag. */
  function PublishedValue(published: bool, emitting: Option<bool>): (r: bool)
    ensures r <==> published && emitting == Some(true)
  {
    published && emitting != None && emitting.value
  }

  /** The state after one operation. */
  function Step(st: Recorder, op: Op): (r: Recorder) {
    match op
    case Register(candidate) => st.(sink := CompareAndSet(st.sink, candidate))
    case Checkpoint(span, flags) => st.(calls := st.calls + Forward(st.sink, span, flags))
    case Lifecycle(phase, span) => st.(calls := st.calls + Forward(st.sink, span, PhaseFlags(phase)))
    case OnRootSpan(root, published) =>
      var report := RootReported(root.resourceName, root.traceId, PublishedValue(published, root.emitting));
      st.(calls := st.calls + [Call(st.sink, report)])
  }

  /** The state after performing `ops` in order, starting from `st`. */
  function Run(st: Recorder, ops: seq<Op>): (r: Recorder)
    decreases |ops|
  {
    if ops == [] then st else Run(Step(st, ops[0]), ops[1..])
  }

  /** An operation that would install a sink: registering one that is not the no-op sink. */
  predicate Installs(op: Op) {
    op.Register? && op.candidate != NoOp
  }

  // ---------------------------------------------------------------------------
  // One operation
  // ---------------------------------------------------------------------------

  /** `register(s)` installs `s` over the no-op sink, and changes nothing once a sink is installed. */
  lemma RegisterOnlyOverNoOp(st: Recorder, s: Sink)
    ensures st.sink == NoOp ==> Step(st, Register(s)) == st.(sink := s)
    ensures st.sink != NoOp ==> Step(st, Register(s)) == st
  {
  }

  /** `checkpoint(span, flags)` delivers exactly (span, flags) to the current sink, or nothing for a droppable span. */
  lemma CheckpointDelivers(st: Recorder, span: Span, flags: Flags)
    ensures Step(st, Checkpoint(span, flags)).sink == st.sink
    ensures span.eligibleForDropping ==> Step(st, Checkpoint(span, flags)) == st
    ensures !span.eligibleForDropping ==>
      Step(st, Checkpoint(span, flags)).calls == st.calls + [Call(st.sink, Checkpointed(span, flags))]
  {
  }

  /** Each lifecycle method is `checkpoint` with its own flags. */
  lemma LifecycleIsCheckpoint(st: Recorder, p: Phase, span: Span)
    ensures Step(st, Lifecycle(p, span)) == Step(st, Checkpoint(span, PhaseFlags(p)))
  {
  }

  /**
   * `onRootSpan` always makes one call on the current sink, with the root's resource
   * name and trace id, whether or not the root is eligible for dropping.
   */
  lemma RootSpanAlwaysReported(st: Recorder, root: Span, published: bool)
    ensures Step(st, OnRootSpan(root, published)).sink == st.sink
    ensures Step(st, OnRootSpan(root, published)).calls == st.calls +
      [Call(st.sink, RootReported(root.resourceName, root.traceId, published && root.emitting == Some(true)))]
  {
  }

  // ---------------------------------------------------------------------------
  // Any sequence of operations
  // ---------------------------------------------------------------------------

  /** The call log only grows. */
  lemma {:induction false} RunExtendsCalls(st: Recorder, ops: seq<Op>)
    ensures |st.calls| <= |Run(st, ops).calls|
    ensures Run(st, ops).calls[..|st.calls|] == st.calls
    decreases |ops|
  {
    if ops != [] {
      var next := Step(st, ops[0]);
      assert next.calls[..|st.calls|] == st.calls;
      RunExtendsCalls(next, ops[1..]);
    }
  }

  /** Once a sink other than the no-op sink is installed, no sequence of operations replaces it. */
  lemma {:induction false} InstalledSinkIsFinal(st: Recorder, ops: seq<Op>)
    requires st.sink != NoOp
    ensures Run(st, ops).sink == st.sink
    decreases |ops|
  {
    if ops != [] {
      InstalledSinkIsFinal(Step(st, ops[0]), ops[1..]);
    }
  }

  /** First writer wins: from the no-op sink, the first sink registered is the one that stays. */
  lemma {:induction false} FirstWriterWins(st: Recorder, ops: seq<Op>, i: nat)
    requires st.sink == NoOp
    requires i < |ops| && Installs(ops[i])
    requires forall j :: 0 <= j < i ==> !Installs(ops[j])
    ensures Run(st, ops).sink == ops[i].candidate
    decreases i
  {
    var next := Step(st, ops[0]);
    if i == 0 {
      InstalledSinkIsFinal(next, ops[1..]);
    } else {
      assert !Installs(ops[0]);
      FirstWriterWins(next, ops[1..], i - 1);
    }
  }

  /** No sequence of operations ever makes a checkpoint call for a span that is eligible for dropping. */
  lemma {:induction false} NoCheckpointForDroppableSpans(st: Recorder, ops: seq<Op>)
    ensures var calls := Run(st, ops).calls;
      |st.calls| <= |calls| &&
      forall k :: |st.calls| <= k < |calls| && calls[k].event.Checkpointed? ==>
        !calls[k].event.span.eligibleForDropping
    decreases |ops|
  {
    RunExtendsCalls(st, ops);
    if ops != [] {
      var next := Step(st, ops[0]);
      var calls := Run(st, ops).calls;
      assert calls == Run(next, ops[1..]).calls;
      NoCheckpointForDroppableSpans(next, ops[1..]);
      RunExtendsCalls(next, ops[1..]);
      forall k | |st.calls| <= k < |next.calls|
        ensures calls[k] == next.calls[k]
      {
        assert calls[..|next.calls|][k] == next.calls[k];
      }
    }
  }

  /** Once a sink is installed, every later call is made on that sink. */
  lemma {:induction false} InstalledSinkGetsEveryCall(st: Recorder, ops: seq<Op>)
    requires st.sink != NoOp
    ensures var calls := Run(st, ops).calls;
      |st.calls| <= |calls| &&
      forall k :: |st.calls| <= k < |calls| ==> calls[k].target == st.sink
    decreases |ops|
  {
    RunExtendsCalls(st, ops);
    if ops != [] {
      var next := Step(st, ops[0]);
      var calls := Run(st, ops).calls;
      assert next.sink == st.sink;
      assert calls == Run(next, ops[1..]).calls;
      InstalledSinkGetsEveryCall(next, ops[1..]);
      RunExtendsCalls(next, ops[1..]);
      forall k | |st.calls| <= k < |next.calls|
        ensures calls[k] == next.calls[k]
      {
        assert calls[..|next.calls|][k] == next.calls[k];
      }
    }
  }

  /** Calls made while no sink is installed are lost: no external sink receives any of them. */
  lemma {:induction false} CallsBeforeRegistrationAreLost(st: Recorder, ops: seq<Op>, id: nat)
    requires st.sink == NoOp
    requires forall j :: 0 <= j < |ops| ==> !Installs(ops[j])
    ensures Run(st, ops).sink == NoOp
    ensures Received(Run(st, ops).calls, id) == Received(st.calls, id)
    decreases |ops|
  {
    if ops != [] {
      var next := Step(st, ops[0]);
      assert next.sink == NoOp;
      var added := next.calls[|st.calls|..];
      assert next.calls == st.calls + added;
      assert forall c :: c in added ==> c.target == NoOp;
      NoOpCallsReachNoOne(added, id);
      ReceivedAppend(st.calls, added, id);
      CallsBeforeRegistrationAreLost(next, ops[1..], id);
    }
  }

  /** A sequence of calls that all go to the no-op sink reaches no external sink. */
  lemma {:induction false} NoOpCallsReachNoOne(calls: seq<Call>, id: nat)
    requires forall c :: c in calls ==> c.target == NoOp
    ensures Received(calls, id) == []
    decreases |calls|
  {
    if calls != [] {
      var init := calls[..|calls| - 1];
      assert forall c :: c in init ==> c in calls;
      NoOpCallsReachNoOne(init, id);
    }
  }
}
