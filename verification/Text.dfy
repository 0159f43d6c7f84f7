/** The fixed text grammars of the scripts: references, digests and amounts. */
module Text {
  import opened Values

  predicate Digit(c: char) {
    '0' <= c <= '9'
  }

  predicate Alnum(c: char) {
    Digit(c) || 'a' <= c <= 'z' || 'A' <= c <= 'Z'
  }

  predicate LowerHex(c: char) {
    Digit(c) || 'a' <= c <= 'f'
  }

  /** `^[A-Za-z0-9][A-Za-z0-9._:-]{0,127}$` */
  predicate IsReference(s: string) {
    && 1 <= |s| <= 128
    && Alnum(s[0])
    && forall i | 0 <= i < |s| :: Alnum(s[i]) || s[i] in "._:-"
  }

  predicate IsHex(s: string, width: nat) {
    |s| == width && forall i | 0 <= i < |s| :: LowerHex(s[i])
  }

  /** `^sha256:[0-9a-f]{64}$` */
  predicate IsSha256(s: string) {
    "sha256:" <= s && IsHex(s[7..], 64)
  }

  predicate AllDigits(s: string) {
    forall i | 0 <= i < |s| :: Digit(s[i])
  }

  /** The number a digit string denotes. */
  function Decimal(s: string): nat
    requires AllDigits(s)
  {
    if s == "" then 0
    else 10 * Decimal(s[..|s| - 1]) + (s[|s| - 1] - '0') as nat
  }

  /** `^(?:0|[1-9][0-9]*)$` */
  predicate IsCanonicalDecimal(s: string) {
    s != "" && AllDigits(s) && (s[0] == '0' ==> |s| == 1)
  }

  /** A canonical amount in micros that fits a safe integer. */
  predicate IsCanonicalMicros(s: string) {
    IsCanonicalDecimal(s) && |s| <= 16 && Decimal(s) <= MAX_SAFE_INTEGER
  }

  /** JavaScript `<` on strings. */
  predicate Less(a: string, b: string) {
    if b == "" then false
    else if a == "" then true
    else a[0] < b[0] || (a[0] == b[0] && Less(a[1..], b[1..]))
  }

  /** Ordered strings of one length differ first at a smaller character. */
  lemma FirstDifference(a: string, b: string) returns (k: nat)
    requires |a| == |b| && a != b
    ensures k < |a| && a[..k] == b[..k] && a[k] != b[k]
    ensures Less(a, b) <==> a[k] < b[k]
    decreases |a|
  {
    if a[0] != b[0] {
      k := 0;
    } else {
      var j := FirstDifference(a[1..], b[1..]);
      k := j + 1;
      assert a[..k] == [a[0]] + a[1..][..j];
      assert b[..k] == [b[0]] + b[1..][..j];
    }
  }

  /** Two digit strings of one length compare as the numbers they denote. */
  lemma {:induction false} DecimalOrder(a: string, b: string, k: nat)
    requires |a| == |b| && AllDigits(a) && AllDigits(b)
    requires k < |a| && a[..k] == b[..k] && a[k] < b[k]
    ensures Decimal(a) < Decimal(b)
    decreases |a|
  {
    var a', b' := a[..|a| - 1], b[..|b| - 1];
    if k == |a| - 1 {
      assert a' == a[..k] && b' == b[..k];
    } else {
      assert a'[..k] == a[..k] && b'[..k] == b[..k];
      DecimalOrder(a', b', k);
    }
  }

  lemma {:induction false} DecimalBound(s: string)
    requires AllDigits(s) && 1 <= |s| <= 3
    ensures Decimal(s) < (if |s| == 1 then 10 else if |s| == 2 then 100 else 1000)
  {
    if |s| > 1 {
      DecimalBound(s[..|s| - 1]);
    }
  }
}
