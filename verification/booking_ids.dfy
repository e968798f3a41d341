/** Booking identifiers: `"BK" + str(uuid.uuid4())[:8].upper()`. The random
    UUID is a parameter; its text is canonical when it comes from `str`. */
module BookingIds {

  const Prefix := "BK"

  /** Python's `s[:n]`: the first `n` characters, or all of a shorter `s`. */
  function Take(s: string, n: nat): (p: string)
    ensures |p| == if |s| < n then |s| else n
    ensures p <= s
  {
    if |s| <= n then s else s[..n]
  }

  /** `str.upper` on one character; only ASCII letters are changed. */
  function UpperChar(c: char): char
  {
    if 'a' <= c <= 'z' then (c as int - 32) as char else c
  }

  /** `str.lower` on one character; only ASCII letters are changed. */
  function LowerChar(c: char): char
  {
    if 'A' <= c <= 'Z' then (c as int + 32) as char else c
  }

  /** `s.upper()`, character by character. */
  function Upper(s: string): (u: string)
    ensures |u| == |s|
    ensures forall i :: 0 <= i < |s| ==> u[i] == UpperChar(s[i])
  {
    if s == [] then [] else [UpperChar(s[0])] + Upper(s[1..])
  }

  /** `s.lower()`, character by character. */
  function Lower(s: string): (l: string)
    ensures |l| == |s|
    ensures forall i :: 0 <= i < |s| ==> l[i] == LowerChar(s[i])
  {
    if s == [] then [] else [LowerChar(s[0])] + Lower(s[1..])
  }

  predicate IsLowerHex(c: char)
  {
    '0' <= c <= '9' || 'a' <= c <= 'f'
  }

  predicate IsUpperHex(c: char)
  {
    '0' <= c <= '9' || 'A' <= c <= 'F'
  }

  predicate IsHyphenPosition(i: int)
  {
    i == 8 || i == 13 || i == 18 || i == 23
  }

  /** The text `str(uuid.UUID)` produces: 36 characters, hyphens after the
      8th, 12th, 16th and 20th hex digit, lower-case hex digits elsewhere. */
  predicate IsCanonicalUuid(s: string)
  {
    |s| == 36
    && forall i :: 0 <= i < |s| ==> if IsHyphenPosition(i) then s[i] == '-' else IsLowerHex(s[i])
  }

  /** The booking identifier derived from a UUID's text. */
  function BookingId(uuid: string): (id: string)
    ensures |id| == 2 + (if |uuid| < 8 then |uuid| else 8)
    ensures id[..2] == Prefix
    ensures forall i :: 2 <= i < |id| ==> id[i] == UpperChar(uuid[i - 2])
  {
    Prefix + Upper(Take(uuid, 8))
  }

  /** For a canonical UUID the identifier is `BK` followed by exactly eight
      upper-case hex digits. */
  lemma CanonicalBookingId(uuid: string)
    requires IsCanonicalUuid(uuid)
    ensures |BookingId(uuid)| == 10
    ensures BookingId(uuid)[..2] == "BK"
    ensures forall i :: 2 <= i < 10 ==> IsUpperHex(BookingId(uuid)[i])
  {
  }

  /** The identifier loses nothing of the UUID prefix it shows: lower-casing
      its last eight characters gives back the first eight of the UUID. */
  lemma BookingIdRecoversUuidPrefix(uuid: string)
    requires IsCanonicalUuid(uuid)
    ensures Lower(BookingId(uuid)[2..]) == uuid[..8]
  {
  }
}
