/**
 The bounds that start-up validation puts on the configuration (internal/config/config.go),
 with Go durations as integers counting nanoseconds.
 */
module Config {
  import opened Options
  import opened Tables

  const MICROSECOND := 1_000
  const SECOND := 1_000_000_000
  const HOUR := 3600 * SECOND

  datatype Config = Config(holdTtl: int, poolMaxConns: int, requestTimeout: int, outboxBatchSize: int, maxRetries: int)

  predicate Validate(c: Config) {
    && 0 < c.holdTtl <= HOUR
    && c.poolMaxConns > 0
    && c.requestTimeout > 0
    && c.outboxBatchSize > 0
    && c.maxRetries >= 0
  }

  /** Go's Duration.Microseconds(): integer division, truncating toward zero. */
  function Microseconds(d: int): (us: int)
    ensures d >= 0 ==> us * MICROSECOND <= d < (us + 1) * MICROSECOND
    ensures d < 0 ==> (us - 1) * MICROSECOND < d <= us * MICROSECOND
  {
    if d >= 0 then d / MICROSECOND else -((-d) / MICROSECOND)
  }

  /** Longest hold, and the age at which idempotency keys are pruned, in microseconds. */
  const MAX_TTL: Time := 3_600_000_000
  const KEY_RETENTION: Time := 24 * 3_600_000_000

  lemma ValidTtlIsBounded(c: Config)
    requires Validate(c)
    ensures 0 <= Microseconds(c.holdTtl) <= MAX_TTL < KEY_RETENTION
  {
  }

  /** A TTL of whole microseconds is accepted, beside a usable pool, deadline, batch and retry count, iff a
      hold placed with it is live at its own instant and over an hour later. */
  lemma WholeTtlIsValidIff(c: Config, m: string, s: string, b: string, now: Time)
    requires c.holdTtl % MICROSECOND == 0
    ensures var r := HeldRow(m, s, b, now, Microseconds(c.holdTtl));
            Validate(c) <==>
              && Live(r, now) && !Live(r, now + 3_600_000_000)
              && c.poolMaxConns > 0 && c.requestTimeout > 0 && c.outboxBatchSize > 0 && c.maxRetries >= 0
  {
    var us := Microseconds(c.holdTtl);
    assert us * MICROSECOND == c.holdTtl;
  }

  /** A hold placed under a validated configuration is live at its own instant iff the TTL is at
      least one microsecond; validation alone does not guarantee it. */
  lemma FreshHoldIsLiveIff(c: Config, m: string, s: string, b: string, now: Time)
    requires Validate(c)
    ensures Live(HeldRow(m, s, b, now, Microseconds(c.holdTtl)), now) <==> c.holdTtl >= MICROSECOND
  {
  }

  lemma SubMicrosecondTtlDefeatsHolds(m: string, s: string, b: string, now: Time)
    ensures var c := Config(500, 20, 2 * SECOND, 100, 3);
            Validate(c) && !Live(HeldRow(m, s, b, now, Microseconds(c.holdTtl)), now)
  {
  }
}
