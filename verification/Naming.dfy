/** Names of the objects the operator creates: cache volumes, agent pods and the placeholder agent.
    A string is the byte string the Go code measures with `len`. */
module Naming {
  import opened Base

  /** The longest prefix of `s` of at most `n` bytes. */
  function Cut(s: string, n: nat): (r: string)
    ensures r <= s && |r| <= n
    ensures |s| <= n ==> r == s
    ensures |s| > n ==> |r| == n
  {
    if |s| <= n then s else s[..n]
  }

  const DIGITS := "0123456789"

  /** The decimal numeral of `n`. */
  function Decimal(n: nat): (r: string)
    ensures |r| > 0 && (n > 0 ==> r[0] != '0')
    ensures '-' !in r
  {
    if n < 10 then [DIGITS[n]] else Decimal(n / 10) + [DIGITS[n % 10]]
  }

  /** The `%02d` verb of Go's fmt package, for the non-negative numbers it is used on: at least two digits,
      and no more zeros in front than that takes. */
  function Padded(n: nat): (r: string)
    ensures |r| >= 2 && (|r| > 2 ==> r[0] != '0')
    ensures '-' !in r
  {
    if n < 10 then "0" + Decimal(n) else Decimal(n)
  }

  const CACHE_INFIX := "-cache-"

  /** Everything of a slot name before the dash that separates the slot number. */
  function SlotStem(pool: string, cache: string): string {
    Cut(pool, 40) + CACHE_INFIX + Cut(cache, 20)
  }

  function PvcSlotName(pool: string, cache: string, slot: nat): string {
    SlotStem(pool, cache) + "-" + Padded(slot)
  }

  function PodName(pool: string, suffix: string): string {
    Cut(pool, 40) + "-" + suffix
  }

  function DummyName(pool: string): string {
    pool + "-dummy"
  }

  // ----- reading a slot name back -----

  datatype SlotId = SlotId(stem: string, slot: nat)

  function DigitValue(c: char): Option<nat> {
    if '0' <= c <= '9' then Some(c as nat - '0' as nat) else None
  }

  function Numeral(s: string): (r: Option<nat>) {
    if s == "" then Some(0)
    else
      match (Numeral(s[..|s| - 1]), DigitValue(s[|s| - 1]))
      case (Some(high), Some(low)) => Some(10 * high + low)
      case _ => None
  }

  /** The text after the last dash of `s`, if there is a dash. */
  function AfterLastDash(s: string): (r: Option<string>)
    ensures r.Some? ==> |r.value| < |s|
  {
    if s == "" then None
    else if s[|s| - 1] == '-' then Some("")
    else
      match AfterLastDash(s[..|s| - 1])
      case Some(t) => Some(t + [s[|s| - 1]])
      case None => None
  }

  /** Splits a slot name at its last dash and reads the slot number. */
  function ParseSlotName(name: string): Option<SlotId> {
    match AfterLastDash(name)
    case None => None
    case Some(digits) =>
      match Numeral(digits)
      case Some(slot) => Some(SlotId(name[..|name| - |digits| - 1], slot))
      case None => None
  }

  lemma {:induction false} LastDashFound(stem: string, tail: string)
    requires '-' !in tail
    ensures AfterLastDash(stem + "-" + tail) == Some(tail)
  {
    var s := stem + "-" + tail;
    if tail == "" {
      assert s[|s| - 1] == '-';
    } else {
      var shorter := tail[..|tail| - 1];
      assert s[..|s| - 1] == stem + "-" + shorter;
      assert tail == shorter + [tail[|tail| - 1]];
      LastDashFound(stem, shorter);
    }
  }

  lemma {:induction false} NumeralOfDecimal(n: nat)
    ensures Numeral(Decimal(n)) == Some(n)
  {
    if n < 10 {
      assert Decimal(n)[..0] == "";
    } else {
      NumeralOfDecimal(n / 10);
      var s := Decimal(n);
      assert s[..|s| - 1] == Decimal(n / 10);
    }
  }

  lemma NumeralOfPadded(n: nat)
    ensures Numeral(Padded(n)) == Some(n)
  {
    NumeralOfDecimal(n);
    if n < 10 {
      var s := Padded(n);
      assert s[..1] == "0";
      assert s[..1][..0] == "";
      assert Numeral(s[..1]) == Some(0);
    }
  }

  /** The parser inverts the printer, whatever dashes the pool and template names contain. */
  lemma SlotNameRoundTrip(pool: string, cache: string, slot: nat)
    ensures ParseSlotName(PvcSlotName(pool, cache, slot)) == Some(SlotId(SlotStem(pool, cache), slot))
  {
    var stem, digits := SlotStem(pool, cache), Padded(slot);
    LastDashFound(stem, digits);
    NumeralOfPadded(slot);
    assert (stem + "-" + digits)[..|stem|] == stem;
  }

  /** Within one pool a slot name determines the slot and the template name up to its 20-byte cut. */
  lemma SlotNameInjective(pool: string, c1: string, s1: nat, c2: string, s2: nat)
    requires PvcSlotName(pool, c1, s1) == PvcSlotName(pool, c2, s2)
    ensures Cut(c1, 20) == Cut(c2, 20) && s1 == s2
    ensures |c1| <= 20 && |c2| <= 20 ==> c1 == c2
  {
    SlotNameRoundTrip(pool, c1, s1);
    SlotNameRoundTrip(pool, c2, s2);
    var prefix := Cut(pool, 40) + CACHE_INFIX;
    assert SlotStem(pool, c1)[|prefix|..] == Cut(c1, 20);
    assert SlotStem(pool, c2)[|prefix|..] == Cut(c2, 20);
  }

  /** Exactly when the slot names of two pools collide: same slot and same stem. */
  lemma SlotNamesCollideIff(p1: string, c1: string, s1: nat, p2: string, c2: string, s2: nat)
    ensures PvcSlotName(p1, c1, s1) == PvcSlotName(p2, c2, s2)
       <==> s1 == s2 && SlotStem(p1, c1) == SlotStem(p2, c2)
  {
    SlotNameRoundTrip(p1, c1, s1);
    SlotNameRoundTrip(p2, c2, s2);
  }

  /** For one template the slot names of two pools differ unless their names agree in their first 40 bytes. */
  lemma StemsOfOneTemplate(p1: string, p2: string, cache: string)
    ensures SlotStem(p1, cache) == SlotStem(p2, cache) <==> Cut(p1, 40) == Cut(p2, 40)
    ensures |p1| <= 40 && |p2| <= 40 && p1 != p2 ==> SlotStem(p1, cache) != SlotStem(p2, cache)
  {
    var tail := CACHE_INFIX + Cut(cache, 20);
    assert SlotStem(p1, cache) == Cut(p1, 40) + tail;
    assert SlotStem(p2, cache) == Cut(p2, 40) + tail;
    if SlotStem(p1, cache) == SlotStem(p2, cache) {
      assert |Cut(p1, 40)| == |Cut(p2, 40)|;
      assert (Cut(p1, 40) + tail)[..|Cut(p1, 40)|] == Cut(p1, 40);
      assert (Cut(p2, 40) + tail)[..|Cut(p2, 40)|] == Cut(p2, 40);
    }
  }

  /** Two different pools can claim one slot name without either name being cut. */
  lemma ShortPoolNamesCollide(slot: nat)
    ensures PvcSlotName("a", "b-cache-c", slot) == PvcSlotName("a-cache-b", "c", slot)
  {
    assert SlotStem("a", "b-cache-c") == SlotStem("a-cache-b", "c");
  }

  function Pow10(k: nat): (r: nat)
    ensures r > 0
  {
    if k == 0 then 1 else 10 * Pow10(k - 1)
  }

  lemma {:induction false} DecimalLength(n: nat, k: nat)
    requires k > 0 && n < Pow10(k)
    ensures |Decimal(n)| <= k
  {
    if n >= 10 {
      assert Pow10(1) == 10 * Pow10(0);
      DecimalLength(n / 10, k - 1);
    }
  }

  /** Every slot name of an int32 slot is at most 78 bytes long, far below the 253-byte limit. */
  lemma SlotNameLength(pool: string, cache: string, slot: nat)
    requires slot < 0x8000_0000
    ensures |PvcSlotName(pool, cache, slot)| <= 78
  {
    assert Pow10(5) == 100000 by {
      assert Pow10(2) == 100;
      assert Pow10(4) == 10000;
    }
    assert Pow10(9) == 1000000000 by {
      assert Pow10(7) == 10000000;
    }
    assert Pow10(10) == 10000000000;
    DecimalLength(slot, 10);
  }

  /** What the 6-character random suffix may be: lower-case letters and digits. */
  predicate IsSuffix(s: string) {
    |s| == 6 && forall i :: 0 <= i < |s| ==> 'a' <= s[i] <= 'z' || '0' <= s[i] <= '9'
  }

  predicate IsDummyName(s: string) {
    |s| >= 6 && s[|s| - 6..] == "-dummy"
  }

  /** The name of a placeholder is the pool's, not cut, followed by `-dummy`. */
  lemma DummyNameIsOne(pool: string)
    ensures IsDummyName(DummyName(pool)) && pool <= DummyName(pool) && |DummyName(pool)| == |pool| + 6
  {
    assert DummyName(pool)[|pool|..] == "-dummy";
  }

  lemma DummyNameInjective(p1: string, p2: string)
    requires DummyName(p1) == DummyName(p2)
    ensures p1 == p2
  {
    assert DummyName(p1)[..|p1|] == p1;
    assert DummyName(p2)[..|p2|] == p2;
  }

  /** Pod names fit a label of 63 bytes, and one determines the suffix and the first 40 bytes of the pool name. */
  lemma PodNamesDiffer(p1: string, x1: string, p2: string, x2: string)
    requires IsSuffix(x1) && IsSuffix(x2)
    ensures |PodName(p1, x1)| <= 47
    ensures PodName(p1, x1) == PodName(p2, x2) <==> Cut(p1, 40) == Cut(p2, 40) && x1 == x2
    ensures |p1| <= 40 && |p2| <= 40 && p1 != p2 ==> PodName(p1, x1) != PodName(p2, x2)
  {
    var a, b := PodName(p1, x1), PodName(p2, x2);
    assert a[|a| - 6..] == x1 && b[|b| - 6..] == x2;
    assert a[..|a| - 7] == Cut(p1, 40) && b[..|b| - 7] == Cut(p2, 40);
  }

  /** The suffix is what follows the last dash. */
  lemma PodNameRoundTrip(pool: string, suffix: string)
    requires IsSuffix(suffix)
    ensures AfterLastDash(PodName(pool, suffix)) == Some(suffix)
    ensures PodName(pool, suffix)[..|PodName(pool, suffix)| - 7] == Cut(pool, 40)
  {
    LastDashFound(Cut(pool, 40), suffix);
    assert (Cut(pool, 40) + "-" + suffix)[..|Cut(pool, 40)|] == Cut(pool, 40);
  }

  /** No agent pod, of any pool, carries the name of any pool's placeholder agent. */
  lemma PodNameIsNotDummy(pool: string, suffix: string)
    requires IsSuffix(suffix)
    ensures !IsDummyName(PodName(pool, suffix))
  {
    var s := PodName(pool, suffix);
    assert s[|s| - 6..] == suffix;
    assert suffix[0] != '-';
  }
}
