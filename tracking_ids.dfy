/** The tracking identifier minted for each new parcel:
    "ADR-" + the millisecond clock + "-" + up to six upper-cased base-36
    digits of a random number. The clock reading and the random number's
    base-36 text are inputs. */
module TrackingIds {
  import opened Results
  import opened Text

  const Prefix: string := "ADR-"

  /** `Math.random().toString(36).substring(2, 8).toUpperCase()`, given the
      text of `Math.random().toString(36)` (a "0." followed by digits). */
  function RandomSuffix(random: string): (r: string)
    ensures |r| <= 6
    ensures forall i :: 0 <= i < |r| ==> !('a' <= r[i] <= 'z')
    ensures '-' in r ==> '-' in random
  {
    var taken := JsSubstring(random, 2, 8);
    var r := AsciiUpper(taken);
    assert '-' in r ==> '-' in taken;
    r
  }

  /** The tracking id minted at clock reading `now`. */
  function MintTrackingId(now: nat, random: string): (t: string)
    ensures |Prefix| < |t| <= |Prefix| + |DecimalString(now)| + 7
    ensures t[..|Prefix|] == Prefix
  {
    Prefix + DecimalString(now) + "-" + RandomSuffix(random)
  }

  /** The two variable parts of a tracking id. */
  datatype TrackingParts = TrackingParts(millis: nat, suffix: string)

  /** Splits a tracking id back into its clock reading and its suffix. */
  function ParseTrackingId(t: string): (r: Option<TrackingParts>)
    ensures r.Some? ==> |Prefix| <= |t| && t[..|Prefix|] == Prefix
  {
    if |t| < |Prefix| || t[..|Prefix|] != Prefix then None
    else
      var rest := t[|Prefix|..];
      match IndexOf(rest, '-')
      case None => None
      case Some(k) =>
        match ParseDecimal(rest[..k])
        case None => None
        case Some(n) => Some(TrackingParts(n, rest[k + 1..]))
  }

  /** A minted tracking id reads back as the clock reading and the suffix it
      was made from. */
  lemma ParseMintedTrackingId(now: nat, random: string)
    requires '-' !in random
    ensures ParseTrackingId(MintTrackingId(now, random)) == Some(TrackingParts(now, RandomSuffix(random)))
  {
    var digits, suffix := DecimalString(now), RandomSuffix(random);
    var t := MintTrackingId(now, random);
    assert t == Prefix + (digits + ['-'] + suffix);
    var rest := t[|Prefix|..];
    assert rest == digits + ['-'] + suffix;
    assert '-' !in digits by {
      forall i | 0 <= i < |digits| ensures digits[i] != '-' {
        assert IsDigit(digits[i]);
      }
    }
    IndexOfAfter(digits, '-', suffix);
    assert rest[..|digits|] == digits;
    assert rest[|digits| + 1..] == suffix;
    ParseDecimalString(now);
  }

  /** Ids minted at different milliseconds never collide, whatever the random parts. */
  lemma MintedIdsDifferInTime(now1: nat, random1: string, now2: nat, random2: string)
    requires '-' !in random1 && '-' !in random2
    requires now1 != now2
    ensures MintTrackingId(now1, random1) != MintTrackingId(now2, random2)
  {
    ParseMintedTrackingId(now1, random1);
    ParseMintedTrackingId(now2, random2);
  }
}
