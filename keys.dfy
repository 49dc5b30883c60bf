/** Record keys of the benchmark store: the "T%02d_K%08d" rendering that every
    driver uses for insert, find and update, written into a KEY_SIZE buffer. */
module Keys {

  /** Size of the key buffer; snprintf keeps at most KeySize - 1 characters. */
  const KeySize: nat := 16

  predicate IsDigit(c: char) {
    '0' <= c <= '9'
  }

  predicate AllDigits(s: string) {
    forall i :: 0 <= i < |s| ==> IsDigit(s[i])
  }

  function DigitChar(d: nat): (c: char)
    requires d < 10
    ensures IsDigit(c)
  {
    ('0' as int + d) as char
  }

  function DigitValue(c: char): (d: nat)
    requires IsDigit(c)
    ensures d < 10
  {
    c as int - '0' as int
  }

  function Pow10(k: nat): (p: nat)
    ensures p >= 1
  {
    if k == 0 then 1 else 10 * Pow10(k - 1)
  }

  /** The decimal rendering of a non-negative number, as "%d" prints it. */
  function Decimal(n: nat): (s: string)
    ensures 1 <= |s|
    ensures AllDigits(s)
    decreases n
  {
    if n < 10 then [DigitChar(n)] else Decimal(n / 10) + [DigitChar(n % 10)]
  }

  function Zeros(k: nat): (s: string)
    ensures |s| == k
    ensures AllDigits(s)
  {
    if k == 0 then "" else Zeros(k - 1) + "0"
  }

  /** "%0<width>d": the decimal rendering, left-padded with zeros up to width. */
  function ZeroPad(n: nat, width: nat): (s: string)
    ensures AllDigits(s)
  {
    var d := Decimal(n);
    if |d| < width then Zeros(width - |d|) + d else d
  }

  /** What snprintf leaves in a buffer of cap + 1 bytes (the terminator excluded). */
  function Truncate(s: string, cap: nat): (t: string)
    ensures |t| <= cap
    ensures |s| <= cap ==> t == s
  {
    if |s| <= cap then s else s[..cap]
  }

  function FormatKey(threadId: nat, keyId: nat): string {
    "T" + ZeroPad(threadId, 2) + "_K" + ZeroPad(keyId, 8)
  }

  /** generate_key: snprintf(key, KEY_SIZE, "T%02d_K%08d", thread_id, key_id).
      The source only ever passes non-negative ids (a thread index or a
      key id taken from the counter that starts at 1). */
  function GenerateKey(threadId: nat, keyId: nat): (key: string)
    ensures |key| < KeySize
  {
    Truncate(FormatKey(threadId, keyId), KeySize - 1)
  }

  /** The number the digits of s spell, most significant first. */
  function DecimalValue(s: string): nat
    requires AllDigits(s)
  {
    if s == [] then 0 else 10 * DecimalValue(s[..|s| - 1]) + DigitValue(s[|s| - 1])
  }

  /** The inverse of FormatKey: recovers (thread id, key id) from a key. */
  function ParseKey(s: string): ParsedKey
  {
    if |s| >= 6 && s[0] == 'T' && IsDigit(s[1]) && IsDigit(s[2]) && s[3] == '_' && s[4] == 'K'
       && AllDigits(s[5..])
    then Parsed(DecimalValue(s[1..3]), DecimalValue(s[5..]))
    else Malformed
  }

  datatype ParsedKey = Malformed | Parsed(threadId: nat, keyId: nat)

  lemma {:induction false} DecimalValueOfDecimal(n: nat)
    ensures DecimalValue(Decimal(n)) == n
    decreases n
  {
    if n >= 10 {
      var s := Decimal(n);
      assert s[..|s| - 1] == Decimal(n / 10);
      DecimalValueOfDecimal(n / 10);
    }
  }

  lemma {:induction false} DecimalValueOfZerosPrefix(k: nat, s: string)
    requires AllDigits(s)
    ensures AllDigits(Zeros(k) + s)
    ensures DecimalValue(Zeros(k) + s) == DecimalValue(s)
    decreases |s| + k
  {
    var z := Zeros(k) + s;
    if s == [] {
      assert z == Zeros(k);
      if k > 0 {
        assert z[..|z| - 1] == Zeros(k - 1) + [];
        DecimalValueOfZerosPrefix(k - 1, []);
      }
    } else {
      assert z[..|z| - 1] == Zeros(k) + s[..|s| - 1];
      DecimalValueOfZerosPrefix(k, s[..|s| - 1]);
    }
  }

  /** A number below 10^w takes at most w digits. */
  lemma {:induction false} DecimalLengthBound(n: nat, w: nat)
    requires 1 <= w && n < Pow10(w)
    ensures |Decimal(n)| <= w
    decreases n
  {
    if n >= 10 {
      assert w >= 2;
      assert n / 10 < Pow10(w - 1);
      DecimalLengthBound(n / 10, w - 1);
    }
  }

  lemma ZeroPadExact(n: nat, w: nat)
    requires 1 <= w && n < Pow10(w)
    ensures |ZeroPad(n, w)| == w
    ensures DecimalValue(ZeroPad(n, w)) == n
  {
    DecimalLengthBound(n, w);
    DecimalValueOfDecimal(n);
    var d := Decimal(n);
    if |d| < w {
      DecimalValueOfZerosPrefix(w - |d|, d);
    }
  }

  /** A key id of at most 10 digits keeps the formatted key within the buffer. */
  lemma {:induction false} FormatKeyShape(threadId: nat, keyId: nat)
    requires threadId < 100 && keyId < Pow10(10)
    ensures var f := FormatKey(threadId, keyId);
      && |f| < KeySize
      && f[1..3] == ZeroPad(threadId, 2)
      && f[5..] == ZeroPad(keyId, 8)
  {
    assert Pow10(2) == 100;
    ZeroPadExact(threadId, 2);
    var p := ZeroPad(keyId, 8);
    DecimalLengthBound(keyId, 10);
    assert |p| <= 10;
    var f := FormatKey(threadId, keyId);
    assert f == "T" + ZeroPad(threadId, 2) + "_K" + p;
  }

  /** For every thread index below 100 and key id below 10^8 the key is
      exactly 13 characters long, so it fits KEY_SIZE with room to spare. */
  lemma GenerateKeyLength(threadId: nat, keyId: nat)
    requires threadId < 100 && keyId < Pow10(8)
    ensures |GenerateKey(threadId, keyId)| == 13
  {
    assert Pow10(2) == 100;
    ZeroPadExact(threadId, 2);
    ZeroPadExact(keyId, 8);
    FormatKeyShape(threadId, keyId);
  }

  /** ParseKey undoes GenerateKey for every id pair that is not truncated. */
  lemma ParseGenerateKey(threadId: nat, keyId: nat)
    requires threadId < 100 && keyId < Pow10(10)
    ensures ParseKey(GenerateKey(threadId, keyId)) == Parsed(threadId, keyId)
  {
    assert Pow10(2) == 100;
    FormatKeyShape(threadId, keyId);
    ZeroPadExact(threadId, 2);
    var f := FormatKey(threadId, keyId);
    assert GenerateKey(threadId, keyId) == f;
    DecimalLengthBound(keyId, 10);
    DecimalValueOfDecimal(keyId);
    var d := Decimal(keyId);
    if |d| < 8 {
      DecimalValueOfZerosPrefix(8 - |d|, d);
    }
    assert DecimalValue(f[5..]) == keyId;
    assert f[1] == ZeroPad(threadId, 2)[0] && f[2] == ZeroPad(threadId, 2)[1];
  }

  /** Distinct (thread, key id) pairs give distinct keys, so two inserts never
      collide unless the counter hands out the same id twice. */
  lemma GenerateKeyInjective(t1: nat, k1: nat, t2: nat, k2: nat)
    requires t1 < 100 && k1 < Pow10(10) && t2 < 100 && k2 < Pow10(10)
    requires GenerateKey(t1, k1) == GenerateKey(t2, k2)
    ensures t1 == t2 && k1 == k2
  {
    ParseGenerateKey(t1, k1);
    ParseGenerateKey(t2, k2);
  }
}
