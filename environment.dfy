/** The strict prefix derivation shared, word for word, by the log
    transformer and the subscription handler: an unset, empty or unknown
    `ENVIRONMENT` is a configuration error. */
module Environment {
  import opened Wrappers

  datatype ConfigError = EnvironmentRequired | EnvironmentInvalid(name: string)

  /** The environments a deployment can be configured for. */
  predicate Known(env: string) {
    env == "development" || env == "staging" || env == "production"
  }

  /** `make_prefixes()`: the RDS instance-name prefix of the environment.
      It is derived exactly for the known environments, and every derived
      prefix extends `cg-aws-broker-` and holds no `/`. */
  function RdsPrefix(env: Option<string>): (r: Result<string, ConfigError>)
    ensures r.Success? <==> env.Some? && Known(env.value)
    ensures r.Success? ==>
              && |r.value| > |"cg-aws-broker-"|
              && r.value[..|"cg-aws-broker-"|] == "cg-aws-broker-"
              && '/' !in r.value
  {
    if env.None? || env.value == "" then Failure(EnvironmentRequired)
    else if env.value == "production" then Success("cg-aws-broker-prod")
    else if env.value == "staging" then Success("cg-aws-broker-stage")
    else if env.value == "development" then Success("cg-aws-broker-dev")
    else Failure(EnvironmentInvalid(env.value))
  }

  /** Each known environment gets its own prefix; every other setting fails
      with the matching error. */
  lemma RdsPrefixTable(env: Option<string>)
    ensures env == Some("development") ==> RdsPrefix(env) == Success("cg-aws-broker-dev")
    ensures env == Some("staging") ==> RdsPrefix(env) == Success("cg-aws-broker-stage")
    ensures env == Some("production") ==> RdsPrefix(env) == Success("cg-aws-broker-prod")
    ensures env.None? || env == Some("") ==> RdsPrefix(env) == Failure(EnvironmentRequired)
    ensures env.Some? && env.value != "" && !Known(env.value) ==>
              RdsPrefix(env) == Failure(EnvironmentInvalid(env.value))
  {
  }
}
