/** The MQTT broker connection settings and the rule tying the user name to a password. */
module MqttConfig {
  import opened Wrappers

  /** The part of `MqttConfig` with defaults, bounds or validation. */
  datatype MqttSettings = MqttSettings(
    enabled: bool,
    host: string,
    port: int,
    topicPrefix: string,
    clientId: string,
    statsInterval: int,
    user: Option<string>,
    password: Option<string>,
    qos: int)

  /** Enabled, no host, port 1883, prefix and client id "frigate", stats every 60 seconds, no credentials, QoS 0. */
  const Default: MqttSettings := MqttSettings(true, "", 1883, "frigate", "frigate", 60, None, None, 0)

  const StatsIntervalError := "stats_interval must be at least FREQUENCY_STATS_POINTS"
  const PasswordError := "Password must be provided with username."

  /**
   * Validation in the order pydantic runs it: the stats_interval field bound
   * (`statsPoints` is FREQUENCY_STATS_POINTS), then `user_requires_pass`.
   */
  function Validate(m: MqttSettings, statsPoints: int): Result<MqttSettings> {
    if m.statsInterval < statsPoints then Err(StatsIntervalError)
    else if m.user.None? != m.password.None? then Err(PasswordError)
    else Ok(m)
  }

  /**
   * Settings are accepted unchanged exactly when the interval meets the
   * bound and user and password are both set or both unset; a lone user or
   * a lone password is the password error.
   */
  lemma ValidateExactly(m: MqttSettings, statsPoints: int)
    ensures Validate(m, statsPoints).Ok? <==> m.statsInterval >= statsPoints && (m.user.Some? <==> m.password.Some?)
    ensures Validate(m, statsPoints).Ok? ==> Validate(m, statsPoints).value == m
    ensures m.statsInterval >= statsPoints && m.user.Some? && m.password.None? ==> Validate(m, statsPoints) == Err(PasswordError)
    ensures m.statsInterval >= statsPoints && m.user.None? && m.password.Some? ==> Validate(m, statsPoints) == Err(PasswordError)
  {
  }

  /** The defaults are accepted whenever FREQUENCY_STATS_POINTS is at most 60. */
  lemma DefaultAccepted(statsPoints: int)
    requires statsPoints <= 60
    ensures Validate(Default, statsPoints) == Ok(Default)
    ensures Default.port == 1883 && Default.topicPrefix == "frigate" && Default.qos == 0
  {
  }
}
