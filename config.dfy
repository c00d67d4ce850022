/** Process configuration read from the environment (server.js:36, 38, 103).
    Every environment variable is either unset or a string, so both inputs
    are optional strings; the mode is deliberately NOT a two-valued enum,
    because the CORS gate and the error boundary test it against different
    sentinels. */
module Config {

  datatype Option<+T> = None | Some(value: T)

  /** The two environment inputs the core reads: NODE_ENV and ALLOWED_ORIGIN. */
  datatype Env = Env(nodeEnv: Option<string>, allowedOrigin: Option<string>)

  const ProductionSentinel := "production"
  const DevelopmentSentinel := "development"

  /** `process.env.NODE_ENV === 'production'` (server.js:36). */
  predicate IsProduction(nodeEnv: Option<string>) {
    nodeEnv == Some(ProductionSentinel)
  }

  /** `process.env.NODE_ENV === 'development'` (server.js:103). */
  predicate IsDevelopment(nodeEnv: Option<string>) {
    nodeEnv == Some(DevelopmentSentinel)
  }

  /** The two sentinels exclude each other, and an unset mode is neither. */
  lemma ModesAreDistinct(nodeEnv: Option<string>)
    ensures !(IsProduction(nodeEnv) && IsDevelopment(nodeEnv))
    ensures nodeEnv == None ==> !IsProduction(nodeEnv) && !IsDevelopment(nodeEnv)
  {
  }
}
