/**
 * SamplingCheckpointer: the process-wide recorder that holds one checkpoint sink,
 * installed at most once over the private no-op sink, and forwards span lifecycle
 * checkpoints to it unless the span is eligible for dropping.
 *
 * Each method's postcondition is one `Checkpoints.Step`, so a proof about a
 * sequence of calls on one instance can chain them into `Checkpoints.Run`.
 */
module SamplingCheckpointing {
  import opened Wrappers
  import opened Checkpoints

  class SamplingCheckpointer {
    /** The installed sink: the no-op sink until a consumer registers its own. */
    var sink: Sink
    /** Every call made on a sink, in order (the calls on the no-op sink included). */
    ghost var calls: seq<Call>

    ghost function Model(): Recorder
      reads this
    {
      Recorder(sink, calls)
    }

    constructor (checkpointer: Sink)
      ensures sink == checkpointer && calls == []
    {
      sink := checkpointer;
      calls := [];
    }

    /** A new instance bound to the no-op sink. */
    static method Create() returns (r: SamplingCheckpointer)
      ensures fresh(r) && r.sink == NoOp && r.calls == []
    {
      r := new SamplingCheckpointer(NoOp);
    }

    /** Compare-and-set against the no-op sink: the first registration wins, later ones are ignored. */
    method Register(checkpointer: Sink)
      modifies this`sink
      ensures Model() == Step(old(Model()), Op.Register(checkpointer))
      ensures old(sink) == NoOp ==> sink == checkpointer
      ensures old(sink) != NoOp ==> sink == old(sink)
    {
      if sink == NoOp {
        sink := checkpointer;
      }
    }

    method Checkpoint(span: Span, flags: Flags)
      modifies this`calls
      ensures Model() == Step(old(Model()), Op.Checkpoint(span, flags))
      ensures span.eligibleForDropping ==> calls == old(calls)
      ensures !span.eligibleForDropping ==> calls == old(calls) + [Call(sink, Checkpointed(span, flags))]
    {
      if !span.eligibleForDropping {
        calls := calls + [Call(sink, Checkpointed(span, flags))];
      }
    }

    method OnStart(span: Span)
      modifies this`calls
      ensures Model() == Step(old(Model()), Lifecycle(Start, span))
      ensures calls == old(calls) + Forward(sink, span, SPAN)
    {
      Checkpoint(span, SPAN);
    }

    method OnStartWork(span: Span)
      modifies this`calls
      ensures Model() == Step(old(Model()), Lifecycle(StartWork, span))
      ensures calls == old(calls) + Forward(sink, span, CPU)
    {
      Checkpoint(span, CPU);
    }

    method OnFinishWork(span: Span)
      modifies this`calls
      ensures Model() == Step(old(Model()), Lifecycle(FinishWork, span))
      ensures calls == old(calls) + Forward(sink, span, CPU | END)
    {
      Checkpoint(span, CPU | END);
    }

    method OnStartThreadMigration(span: Span)
      modifies this`calls
      ensures Model() == Step(old(Model()), Lifecycle(StartThreadMigration, span))
      ensures calls == old(calls) + Forward(sink, span, THREAD_MIGRATION)
    {
      Checkpoint(span, THREAD_MIGRATION);
    }

    method OnFinishThreadMigration(span: Span)
      modifies this`calls
      ensures Model() == Step(old(Model()), Lifecycle(FinishThreadMigration, span))
      ensures calls == old(calls) + Forward(sink, span, THREAD_MIGRATION | END)
    {
      Checkpoint(span, THREAD_MIGRATION | END);
    }

    method OnFinish(span: Span)
      modifies this`calls
      ensures Model() == Step(old(Model()), Lifecycle(Finish, span))
      ensures calls == old(calls) + Forward(sink, span, SPAN | END)
    {
      Checkpoint(span, SPAN | END);
    }

    /**
     * Reports the root span to the sink, with no eligibility filter; it claims
     * "published" only when the span is explicitly marked as emitting checkpoints.
     */
    method OnRootSpan(root: Span, published: bool)
      modifies this`calls
      ensures Model() == Step(old(Model()), Op.OnRootSpan(root, published))
      ensures calls == old(calls) +
        [Call(sink, RootReported(root.resourceName, root.traceId, published && root.emitting == Some(true)))]
    {
      var emittingCheckpoints := root.emitting;
      calls := calls + [Call(sink, RootReported(root.resourceName, root.traceId,
        published && emittingCheckpoints != None && emittingCheckpoints.value))];
    }
  }

  /** From a fresh instance, `register(a)` then `register(b)` leaves `a` installed. */
  method FirstRegistrationWins(a: Sink, b: Sink) returns (installed: Sink)
    requires a != NoOp
    ensures installed == a
  {
    var recorder := SamplingCheckpointer.Create();
    recorder.Register(a);
    recorder.Register(b);
    installed := recorder.sink;
  }

  /** An instance constructed with a sink of its own never takes another one. */
  method ConstructedSinkIsKept(a: Sink, b: Sink) returns (installed: Sink)
    requires a != NoOp
    ensures installed == a
  {
    var recorder := new SamplingCheckpointer(a);
    recorder.Register(b);
    installed := recorder.sink;
  }
}
