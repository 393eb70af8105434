/**
 * `pretty_payload`: the serialised webhook payload is cut to a fixed character
 * budget so that the forwarded message stays inside Telegram's length limit.
 * The serialisation itself (`json.dumps`, or `str` when it fails) is taken as
 * the input string.
 */
module Payload {

  /** Number of characters of the serialised payload that are kept. */
  const Budget: nat := 3200

  /** Appended after the kept characters when the payload was cut. */
  const Marker: string := "\n…(truncated)"

  /** The longest text `PrettyPayload` can return. */
  const MaxLength: nat := Budget + |Marker|

  /** Truncate the serialised payload `s` to `Budget` characters plus `Marker`. */
  function PrettyPayload(s: string): (r: string)
    ensures |r| <= MaxLength
    ensures |s| <= Budget ==> r == s
    ensures |s| > Budget ==> |r| == MaxLength
    ensures |s| > Budget ==> r[..Budget] == s[..Budget] && r[Budget..] == Marker
  {
    if |s| > Budget then s[..Budget] + Marker else s
  }

  /** The marker is thirteen characters, so a forwarded payload never exceeds 3213. */
  lemma MaxLengthValue()
    ensures |Marker| == 13 && MaxLength == 3213
  {
  }

  /**
   * Whatever the input, the result begins with as much of it as fits in the
   * budget: nothing of the kept part is altered.
   */
  lemma PrettyPayloadKeepsPrefix(s: string)
    ensures var n := if |s| <= Budget then |s| else Budget;
      n <= |PrettyPayload(s)| && PrettyPayload(s)[..n] == s[..n]
  {
  }

  /** Truncating an already truncated payload changes nothing. */
  lemma PrettyPayloadIdempotent(s: string)
    ensures PrettyPayload(PrettyPayload(s)) == PrettyPayload(s)
  {
  }
}
