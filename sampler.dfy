/**
 * Sampler.Builder.forConfig: the choice of the trace sampler from the tracer's
 * configuration. Explicit rules or a global rate come first (falling back to
 * accept-all when they do not build), then a forced priority, then the adaptive
 * rate-by-service sampler; with no configuration, or with priority sampling off,
 * every trace is kept.
 */
module Sampling {
  import opened Wrappers
  import opened IgnoreCase

  /** A rule map: service (or operation) name pattern to its rate, both as written in the configuration. */
  type Rules = map<string, string>

  /** The configuration values the choice reads; `None` stands for a null value. */
  datatype Config = Config(
    serviceRules: Option<Rules>,
    operationRules: Option<Rules>,
    sampleRate: Option<real>,
    rateLimit: Option<real>,
    prioritySamplingEnabled: bool,
    prioritySamplingForce: Option<string>)

  /** The four arguments handed to the rule-based sampler's builder. */
  datatype RuleArgs = RuleArgs(
    serviceRules: Option<Rules>,
    operationRules: Option<Rules>,
    sampleRate: Option<real>,
    rateLimit: Option<real>)

  /** The sampling priorities a forced-priority sampler can stamp. */
  datatype Priority = SamplerKeep | SamplerDrop

  /** The sampling mechanism a sampler records: DEFAULT, or any other SamplingMechanism value. */
  datatype Mechanism = Default | Other

  /** The sampler variants; `R` is whatever the rule-based builder produces. */
  datatype Sampler<R> =
    | All
    | RuleBased(rules: R)
    | ForcePriority(priority: Priority, mechanism: Mechanism)
    | RateByService

  /**
   * The rule-based sampler's builder: it either returns a sampler or rejects the
   * configuration (an IllegalArgumentException).
   */
  type RuleBuilder<R> = RuleArgs -> Result<R, string>

  /**
   * The recognised forced-priority values, as documented for the tracer's
   * forced-priority setting; the lemmas below compare against their lower-cased
   * forms, so they do not depend on the literals' case.
   */
  const KEEP: string := "keep"
  const DROP: string := "drop"

  predicate NonEmpty(rules: Option<Rules>) {
    rules != None && |rules.value| != 0
  }

  /** The configuration asks for rule-based sampling. */
  predicate WantsRules(c: Config) {
    NonEmpty(c.serviceRules) || NonEmpty(c.operationRules) || c.sampleRate != None
  }

  function ArgsOf(c: Config): (args: RuleArgs) {
    RuleArgs(c.serviceRules, c.operationRules, c.sampleRate, c.rateLimit)
  }

  /**
   * The sampler for a configuration (`None` is a null configuration). Every
   * configuration gets exactly one sampler; no case fails.
   */
  function ForConfig<R>(config: Option<Config>, build: RuleBuilder<R>): (s: Sampler<R>)
    ensures config == None ==> s == All
    ensures s.RuleBased? <==> config != None && WantsRules(config.value) && build(ArgsOf(config.value)).Success?
    ensures s.RuleBased? ==> build(ArgsOf(config.value)) == Success(s.rules)
    ensures s.ForcePriority? || s.RateByService? ==>
      config != None && !WantsRules(config.value) && config.value.prioritySamplingEnabled
    ensures s.ForcePriority? ==> s.mechanism == Default
  {
    if config != None then
      var c := config.value;
      if WantsRules(c) then
        match build(ArgsOf(c))
        case Success(sampler) => RuleBased(sampler)
        case Failure(_) => All
      else if c.prioritySamplingEnabled then
        if EqualsIgnoreCase(KEEP, c.prioritySamplingForce) then
          ForcePriority(SamplerKeep, Default)
        else if EqualsIgnoreCase(DROP, c.prioritySamplingForce) then
          ForcePriority(SamplerDrop, Default)
        else
          RateByService
      else
        All
    else
      All
  }

  /** No configured value matches both KEEP and DROP, so the order of the two tests does not matter. */
  lemma KeepAndDropExclude(force: Option<string>)
    ensures !(EqualsIgnoreCase(KEEP, force) && EqualsIgnoreCase(DROP, force))
  {
  }

  /** A null configuration keeps every trace. */
  lemma NullConfigKeepsAll<R>(build: RuleBuilder<R>)
    ensures ForConfig(None, build) == All
  {
  }

  /**
   * Rules or a global rate select the builder's result whatever the priority-sampling
   * settings; a rejected configuration falls back to keeping every trace, as with no configuration.
   */
  lemma RulesOverridePriority<R>(c: Config, build: RuleBuilder<R>, enabled: bool, force: Option<string>)
    requires WantsRules(c)
    ensures ForConfig(Some(c), build) ==
      ForConfig(Some(c.(prioritySamplingEnabled := enabled, prioritySamplingForce := force)), build)
    ensures build(ArgsOf(c)).Failure? ==> ForConfig(Some(c), build) == ForConfig(None, build)
  {
  }

  /** Empty or null rule maps with a null rate never consult the builder. */
  lemma NoRulesNoBuild<R>(c: Config, build: RuleBuilder<R>, other: RuleBuilder<R>)
    requires !NonEmpty(c.serviceRules) && !NonEmpty(c.operationRules) && c.sampleRate == None
    ensures !ForConfig(Some(c), build).RuleBased?
    ensures ForConfig(Some(c), build) == ForConfig(Some(c), other)
  {
  }

  /** Without rules and with priority sampling on, "keep" in any case forces the keep priority. */
  lemma ForcedKeep<R>(c: Config, build: RuleBuilder<R>)
    requires !WantsRules(c) && c.prioritySamplingEnabled
    requires c.prioritySamplingForce != None && Lower(c.prioritySamplingForce.value) == Lower(KEEP)
    ensures ForConfig(Some(c), build) == ForcePriority(SamplerKeep, Default)
  {
    EqualsIgnoreCaseIffSameLower(KEEP, c.prioritySamplingForce.value);
  }

  /** Without rules and with priority sampling on, "drop" in any case forces the drop priority. */
  lemma ForcedDrop<R>(c: Config, build: RuleBuilder<R>)
    requires !WantsRules(c) && c.prioritySamplingEnabled
    requires c.prioritySamplingForce != None && Lower(c.prioritySamplingForce.value) == Lower(DROP)
    ensures ForConfig(Some(c), build) == ForcePriority(SamplerDrop, Default)
  {
    EqualsIgnoreCaseIffSameLower(DROP, c.prioritySamplingForce.value);
    KeepAndDropExclude(c.prioritySamplingForce);
  }

  /**
   * Without rules and with priority sampling on, a forced value that is neither
   * "keep" nor "drop" in any case, or no value at all, selects rate-by-service.
   */
  lemma OtherForceRateByService<R>(c: Config, build: RuleBuilder<R>)
    requires !WantsRules(c) && c.prioritySamplingEnabled
    requires c.prioritySamplingForce == None ||
      (Lower(c.prioritySamplingForce.value) != Lower(KEEP) && Lower(c.prioritySamplingForce.value) != Lower(DROP))
    ensures ForConfig(Some(c), build) == RateByService
  {
    if c.prioritySamplingForce != None {
      var f := c.prioritySamplingForce.value;
      EqualsIgnoreCaseIffSameLower(KEEP, f);
      EqualsIgnoreCaseIffSameLower(DROP, f);
    }
  }

  /** Without rules and with priority sampling off, every trace is kept, whatever the forced value. */
  lemma PrioritySamplingOffKeepsAll<R>(c: Config, build: RuleBuilder<R>, force: Option<string>)
    requires !WantsRules(c) && !c.prioritySamplingEnabled
    ensures ForConfig(Some(c.(prioritySamplingForce := force)), build) == All
  {
  }
}
