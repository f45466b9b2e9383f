/**
  Heart-beat negotiation of `handleConnect` (stompserver/stomp_connection.go), with
  the 64-bit product `time.Duration(ms) * time.Millisecond` written out, against the
  client's side of the STOMP 1.2 section "Heart-beating".
 */
module HeartBeat {
  const MILLISECOND := 1_000_000
  const MAX_MS := 999_999_999
  const MAX_DURATION := MAX_MS * MILLISECOND
  const TWO_63 := 0x8000_0000_0000_0000
  const TWO_64 := 0x1_0000_0000_0000_0000

  /** What the server keeps and what it writes into CONNECTED. */
  datatype Beats = Beats(readTimeoutMs: int, writeTimeout: int, sentX: int, sentY: int)

  predicate IsInt64(x: int) { -TWO_63 <= x < TWO_63 }

  /** Two's-complement truncation to int64. */
  function Wrap64(x: int): (r: int)
    ensures IsInt64(r)
    ensures IsInt64(x) ==> r == x
  {
    (x + TWO_63) % TWO_64 - TWO_63
  }

  /** The configured minimum as a duration in nanoseconds. */
  function Minimum(configuredMs: int): int {
    var min := Wrap64(configuredMs * MILLISECOND);
    if min > MAX_DURATION then MAX_DURATION else min
  }

  function Raise(duration: int, min: int): int {
    if duration > 0 && (min == 0 || duration < min) then min else duration
  }

  /** `cx`, `cy`: the client's heart-beat header in milliseconds, 0 when absent. */
  function Negotiate(configuredMs: int, cx: nat, cy: nat): Beats {
    var min := Minimum(configuredMs);
    var x := Raise(cx * MILLISECOND, min);
    var y := Raise(cy * MILLISECOND, min);
    Beats(x / MILLISECOND, y, y / MILLISECOND, x / MILLISECOND)
  }

  /** STOMP 1.2: no heart-beats if either side says 0, else the larger of the two. */
  function Agreed(canSend: int, wants: int): int {
    if canSend == 0 || wants == 0 then 0 else if canSend < wants then wants else canSend
  }

  /** The headers go-stomp parses: at most nine digits each. */
  predicate InRange(cx: nat, cy: nat) { cx <= MAX_MS && cy <= MAX_MS }

  /**
    Both directions agree with the client's own derivation from CONNECTED. The read
    side always does. The write side does unless the configured minimum, after 64-bit
    wrap-around, replaced the client's value and is not a whole number of milliseconds.
   */
  lemma HeartBeatAgreement(configuredMs: int, cx: nat, cy: nat)
    requires IsInt64(configuredMs) && InRange(cx, cy)
    ensures var b := Negotiate(configuredMs, cx, cy);
            && Agreed(cx, b.sentY) == b.readTimeoutMs
            && (Agreed(b.sentX, cy) * MILLISECOND == b.writeTimeout
                <==> !(0 < cy * MILLISECOND < Minimum(configuredMs) && Minimum(configuredMs) % MILLISECOND != 0))
            && 0 <= b.readTimeoutMs <= MAX_MS && 0 <= b.writeTimeout <= MAX_DURATION
  {
    var min := Minimum(configuredMs);
    RaiseAgrees(cx, min);
    RaiseAgrees(cy, min);
  }

  lemma RaiseAgrees(c: nat, min: int)
    requires c <= MAX_MS && min <= MAX_DURATION
    ensures var r := Raise(c * MILLISECOND, min);
            && 0 <= r <= MAX_DURATION
            && Agreed(c, r / MILLISECOND) == Agreed(r / MILLISECOND, c) == r / MILLISECOND
            && (r / MILLISECOND * MILLISECOND == r <==> !(0 < c * MILLISECOND < min && min % MILLISECOND != 0))
  {
    var r := Raise(c * MILLISECOND, min);
    if r == c * MILLISECOND {
      assert r / MILLISECOND == c;
    } else if min > 0 {
      assert r / MILLISECOND >= c;
    }
  }

  /**
    What is kept for a client's interval: nothing if the client or the configuration says
    0, otherwise the larger of the client's interval and the configured minimum. So a
    configured 0 switches both directions off, and nothing kept is below a positive minimum.
   */
  lemma KeptInterval(configuredMs: int, cx: nat, cy: nat)
    ensures var b, min := Negotiate(configuredMs, cx, cy), Minimum(configuredMs);
            && b.writeTimeout == Larger(cy * MILLISECOND, min)
            && b.readTimeoutMs == b.sentY == Larger(cx * MILLISECOND, min) / MILLISECOND
            && b.sentX == b.writeTimeout / MILLISECOND
            && (configuredMs == 0 ==> b == Beats(0, 0, 0, 0))
            && (min > 0 && cy > 0 ==> b.writeTimeout >= min)
            && (min > 0 && cx > 0 ==> b.readTimeoutMs >= min / MILLISECOND)
  {
    var min := Minimum(configuredMs);
    assert min > 0 && cx > 0 ==> Larger(cx * MILLISECOND, min) >= min;
  }

  function Larger(duration: int, min: int): int {
    if duration == 0 || min == 0 then 0 else if duration < min then min else duration
  }

  /** A fitting configured value is the minimum in nanoseconds, up to the largest header. */
  lemma MinimumIsConfigured(configuredMs: int)
    requires IsInt64(configuredMs * MILLISECOND)
    ensures Minimum(configuredMs) == if configuredMs > MAX_MS then MAX_DURATION else configuredMs * MILLISECOND
  {
  }

  /** Every configured value whose product fits int64 is inside the agreeing case. */
  lemma FittingProductAgrees(configuredMs: int, cx: nat, cy: nat)
    requires IsInt64(configuredMs * MILLISECOND) && InRange(cx, cy)
    ensures var b := Negotiate(configuredMs, cx, cy);
            && Agreed(cx, b.sentY) == b.readTimeoutMs
            && Agreed(b.sentX, cy) * MILLISECOND == b.writeTimeout
  {
    assert Minimum(configuredMs) % MILLISECOND == 0 by {
      assert (configuredMs * MILLISECOND) % MILLISECOND == 0;
    }
    HeartBeatAgreement(configuredMs, cx, cy);
  }

  /** A configured value that wraps: CONNECTED promises 1 ms, the server writes every 1.448384 ms. */
  lemma WrappedMinimumDisagrees()
    ensures IsInt64(18_446_744_073_711)
    ensures var b := Negotiate(18_446_744_073_711, 0, 1);
            b.sentX == 1 && b.writeTimeout == 1_448_384 && Agreed(b.sentX, 1) * MILLISECOND != b.writeTimeout
  {
  }
}
