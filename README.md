# Sampling decisions of a tracing client, in Dafny

This project models two decision components from the sampling layer of the dd-trace-java tracer:

- **`SamplingCheckpointer`** holds one checkpoint sink. It starts bound to a private no-op sink. `register` installs a consumer's sink only while the no-op sink is still in place, so the first registration wins. The six lifecycle methods forward fixed flag combinations to the installed sink. Spans that are eligible for dropping are filtered out. `onRootSpan` reports the root span's resource name and trace id, and says whether the trace was published. It claims "published" only when the span is explicitly marked as emitting checkpoints.
- **`Sampler.Builder.forConfig`** chooses the trace sampler from the configuration, in this order:
  1. A null configuration gives accept-all.
  2. Explicit rules or a global rate give the rule-based sampler. If that sampler does not build, the result falls back to accept-all.
  3. With priority sampling on, a forced "keep" or "drop" value (case ignored) gives a forced-priority sampler. Any other value gives the adaptive rate-by-service sampler.
  4. Everything else gives accept-all.

Files:

- `wrappers.dfy`: `Option` (Java null) and `Result` (a value or a thrown exception).
- `checkpoints.dfy`: module `Checkpoints`. It holds the vocabulary: flags, spans, sinks, and the calls made on a sink. It also holds the meaning of every recorder operation as `Step` on a pure `Recorder` state, with `Run` over a sequence of operations. Lemmas here cover one operation and any sequence of operations.
- `sampling_checkpointer.dfy`: module `SamplingCheckpointing`, with the class `SamplingCheckpointer`.
  - Its field `sink` is the installed sink.
  - Its ghost field `calls` logs every call the recorder makes on a sink, the no-op sink included.
  - Each method's postcondition is one `Checkpoints.Step`, so a proof about a sequence of calls on one instance can chain them into `Checkpoints.Run`. The two methods `FirstRegistrationWins` and `ConstructedSinkIsKept` do this for two calls.
- `ignore_case.dfy`: module `IgnoreCase`, Java's `String.equalsIgnoreCase` on ASCII letters. It is proved equivalent to equality of the lower-cased strings.
- `sampler.dfy`: module `Sampling`, the configuration, the sampler variants and `ForConfig`.
  - `RuleBasedSampler.build` is a function parameter that returns `Success` or `Failure`. `Failure` stands for its `IllegalArgumentException`.

Constants defined in files that are not part of this model are handled as follows:

- The flag constants `SPAN`, `CPU`, `THREAD_MIGRATION` and `END` are kept abstract: they are `bv32` constants without a value. Every property is stated in terms of their bitwise OR.
- The priorities `SAMPLER_KEEP` and `SAMPLER_DROP` are datatype constructors. The mechanism is `Default` (`DEFAULT`) or `Other`, which stands for every other sampling mechanism.
- The forced-priority strings `KEEP` and `DROP` are NOT abstract. They are fixed to `"keep"` and `"drop"`, the documented values of the tracer's forced-priority setting. The lemmas about the force branches compare against `Lower(KEEP)` and `Lower(DROP)`, so they do not depend on the literals' case.

## Model

| member | source | states |
|---|---|---|
| `SamplingCheckpointing.SamplingCheckpointer.Create` | internal-api/src/main/java/datadog/trace/api/SamplingCheckpointer.java:22-24 | a new instance is bound to the no-op sink and has made no call |
| `SamplingCheckpointing.SamplingCheckpointer.constructor` | internal-api/src/main/java/datadog/trace/api/SamplingCheckpointer.java:34-36 | the instance holds exactly the sink it was given |
| `SamplingCheckpointing.SamplingCheckpointer.Register` | internal-api/src/main/java/datadog/trace/api/SamplingCheckpointer.java:38-47 | compare-and-set against the no-op sink: the argument is installed if the no-op sink is in place, otherwise the sink is unchanged; no call is made on any sink |
| `SamplingCheckpointing.SamplingCheckpointer.Checkpoint` | internal-api/src/main/java/datadog/trace/api/SamplingCheckpointer.java:49-54 | exactly `(span, flags)` is delivered to the current sink when the span is not eligible for dropping, nothing otherwise; the sink is unchanged |
| `SamplingCheckpointing.SamplingCheckpointer.OnStart` | internal-api/src/main/java/datadog/trace/api/SamplingCheckpointer.java:56-59 | forwards `SPAN` through the eligibility filter |
| `SamplingCheckpointing.SamplingCheckpointer.OnStartWork` | internal-api/src/main/java/datadog/trace/api/SamplingCheckpointer.java:61-64 | forwards `CPU` through the eligibility filter |
| `SamplingCheckpointing.SamplingCheckpointer.OnFinishWork` | internal-api/src/main/java/datadog/trace/api/SamplingCheckpointer.java:66-69 | forwards `CPU \| END` through the eligibility filter |
| `SamplingCheckpointing.SamplingCheckpointer.OnStartThreadMigration` | internal-api/src/main/java/datadog/trace/api/SamplingCheckpointer.java:71-74 | forwards `THREAD_MIGRATION` through the eligibility filter |
| `SamplingCheckpointing.SamplingCheckpointer.OnFinishThreadMigration` | internal-api/src/main/java/datadog/trace/api/SamplingCheckpointer.java:76-79 | forwards `THREAD_MIGRATION \| END` through the eligibility filter |
| `SamplingCheckpointing.SamplingCheckpointer.OnFinish` | internal-api/src/main/java/datadog/trace/api/SamplingCheckpointer.java:81-84 | forwards `SPAN \| END` through the eligibility filter |
| `SamplingCheckpointing.SamplingCheckpointer.OnRootSpan` | internal-api/src/main/java/datadog/trace/api/SamplingCheckpointer.java:86-93 | exactly one call on the current sink, with the root's resource name and trace id, published only if the argument is true and the span's emitting flag is present and true; no eligibility filter |
| `SamplingCheckpointing.FirstRegistrationWins` | internal-api/src/main/java/datadog/trace/api/SamplingCheckpointer.java:22-47 | from `create()`, `register(a)` then `register(b)` leaves `a` installed |
| `SamplingCheckpointing.ConstructedSinkIsKept` | internal-api/src/main/java/datadog/trace/api/SamplingCheckpointer.java:34-47 | an instance constructed with a sink of its own keeps it through any `register` |
| `Checkpoints.PublishedValue` | internal-api/src/main/java/datadog/trace/api/SamplingCheckpointer.java:88-92 | the reported value is true iff `published` is true and the tri-state flag is `Some(true)`: false when it is absent or false |
| `Checkpoints.RegisterOnlyOverNoOp` | internal-api/src/main/java/datadog/trace/api/SamplingCheckpointer.java:38-47 | registration replaces the no-op sink and leaves the whole state as it was once any other sink is installed |
| `Checkpoints.CheckpointDelivers` | internal-api/src/main/java/datadog/trace/api/SamplingCheckpointer.java:50-54 | a droppable span changes nothing; any other span adds exactly one call `(span, flags)` on the current sink |
| `Checkpoints.LifecycleIsCheckpoint` | internal-api/src/main/java/datadog/trace/api/SamplingCheckpointer.java:56-84 | each lifecycle method behaves as `checkpoint` with its own flags, filter included |
| `Checkpoints.RootSpanAlwaysReported` | internal-api/src/main/java/datadog/trace/api/SamplingCheckpointer.java:86-93 | `onRootSpan` appends one report on the current sink whatever the span's eligibility, with `published && emitting == Some(true)` |
| `Checkpoints.NoOpIgnores` | internal-api/src/main/java/datadog/trace/api/SamplingCheckpointer.java:95-104 | a call on the no-op sink reaches no external sink |
| `Checkpoints.InstalledSinkIsFinal` | internal-api/src/main/java/datadog/trace/api/SamplingCheckpointer.java:34-47 | once a sink other than the no-op sink is in place, no sequence of operations replaces it (at most one install per instance) |
| `Checkpoints.FirstWriterWins` | internal-api/src/main/java/datadog/trace/api/SamplingCheckpointer.java:38-47 | from the no-op sink, after any sequence of operations the installed sink is the first non-no-op sink registered |
| `Checkpoints.NoCheckpointForDroppableSpans` | internal-api/src/main/java/datadog/trace/api/SamplingCheckpointer.java:50-84 | no sequence of operations makes a checkpoint call for a span eligible for dropping |
| `Checkpoints.InstalledSinkGetsEveryCall` | internal-api/src/main/java/datadog/trace/api/SamplingCheckpointer.java:50-93 | once a sink is installed, every later call is made on it |
| `Checkpoints.CallsBeforeRegistrationAreLost` | internal-api/src/main/java/datadog/trace/api/SamplingCheckpointer.java:95-104 | calls made while the no-op sink is in place reach no external sink, and the no-op sink stays until something is registered |
| `Checkpoints.ReceivedAppend` | internal-api/src/main/java/datadog/trace/api/SamplingCheckpointer.java:50-54 | what a sink receives from two runs of calls is what it receives from each, in order |
| `IgnoreCase.EqualsIgnoreCaseIffSameLower` | dd-trace-core/src/main/java/datadog/trace/common/sampling/Sampler.java:51-56 | the case-insensitive test used on the forced value is equality after lower-casing ASCII letters |
| `Sampling.ForConfig` | dd-trace-core/src/main/java/datadog/trace/common/sampling/Sampler.java:29-71 | total (no precondition); null gives accept-all; rule-based exactly when rules or a rate are configured and the build succeeds, with the builder's sampler built from the configuration's own four values; forced-priority and rate-by-service only without rules and with priority sampling on; a forced-priority sampler records the DEFAULT mechanism, never another one |
| `Sampling.NullConfigKeepsAll` | dd-trace-core/src/main/java/datadog/trace/common/sampling/Sampler.java:31 | a null configuration selects accept-all |
| `Sampling.RulesOverridePriority` | dd-trace-core/src/main/java/datadog/trace/common/sampling/Sampler.java:35-49 | with rules or a rate, the priority-sampling settings do not affect the result; a failed build gives the same sampler as no configuration |
| `Sampling.NoRulesNoBuild` | dd-trace-core/src/main/java/datadog/trace/common/sampling/Sampler.java:35-37 | empty or null maps with a null rate never give rule-based and never consult the builder |
| `Sampling.KeepAndDropExclude` | dd-trace-core/src/main/java/datadog/trace/common/sampling/Sampler.java:51-56 | no value matches both KEEP ("keep") and DROP ("drop") ignoring case, so testing KEEP first decides nothing |
| `Sampling.ForcedKeep` | dd-trace-core/src/main/java/datadog/trace/common/sampling/Sampler.java:50-55 | no rules, priority sampling on, force equal to KEEP in any ASCII case: `ForcePriority(SamplerKeep, Default)` |
| `Sampling.ForcedDrop` | dd-trace-core/src/main/java/datadog/trace/common/sampling/Sampler.java:56-60 | no rules, priority sampling on, force equal to DROP in any ASCII case: `ForcePriority(SamplerDrop, Default)` |
| `Sampling.OtherForceRateByService` | dd-trace-core/src/main/java/datadog/trace/common/sampling/Sampler.java:61-63 | no rules, priority sampling on, force absent or neither value: `RateByService` |
| `Sampling.PrioritySamplingOffKeepsAll` | dd-trace-core/src/main/java/datadog/trace/common/sampling/Sampler.java:64-65 | no rules and priority sampling off: accept-all whatever the forced value |

## Left out

- Atomicity and visibility. `register` uses an atomic field updater on a `volatile` field. It is modelled as a sequential compare-and-set, and racing registrations are not modelled.
- Logging (`log.debug`, `log.error`). It does not affect any result.
- `forConfig(Properties)`. It only wraps `Config.get`, which is not part of this model.
- The samplers' own `sample` logic: rule matching, rate limiting, the adaptive per-service rate and random draws. The variants are opaque tags. `RuleBasedSampler.build` is an uninterpreted function parameter, and the rates are carried as `real` but never computed with.
- `Sampling.ForConfig`: `build` is modelled as failing only by returning `Failure`, which stands for the `IllegalArgumentException` the source catches. Any other exception from `build` would propagate out of `forConfig` and is not modelled.
- `IgnoreCase.EqualsIgnoreCase` folds only ASCII letters. Java's `equalsIgnoreCase` also folds other Unicode letters; for example, KELVIN SIGN matches "k", so Java would accept a forced value spelled with it.
- `Sampling.KEEP` and `Sampling.DROP`: their values `"keep"` and `"drop"` are the setting's documented values. `SamplerConstants`, which defines them, is not part of this model, so they are not read from the source. The force-branch lemmas compare against `Lower(KEEP)` and `Lower(DROP)`. Only `KeepAndDropExclude` depends on the two literals, because it relies on them differing after lower-casing.
- Numeric values of the checkpoint flags, `PrioritySampling` and `SamplingMechanism`. They are defined outside this model. So bit-level facts are not proved, for example that `END` never occurs alone or that the six flag sets are pairwise distinct. Only the flag combination each method sends is stated.
- What an external sink does with the calls it receives. Sinks are identities, and the ghost call log records what the recorder hands to them.
- Java null cases: registering a null sink, whose class the failure log would dereference, and a null span, resource name or trace id. Also the internals of `AgentSpan`, `DDId` and `toString()`.
- The span's priority fields, which only the sampler variants read and write.
