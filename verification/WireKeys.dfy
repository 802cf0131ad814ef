/** Node ids as keys on the wire, and back (`key_of` and `node_id`, crates/rustnative-core/src/wire.rs). */
module WireKeys {
  import opened Identity
  import opened Wrappers

  // ---------------------------------------------------------------------
  // Decimal numbers
  // ---------------------------------------------------------------------

  const DIGITS := "0123456789"

  predicate IsDigit(c: char) {
    '0' <= c <= '9'
  }

  function Decimal(n: nat): (s: string)
    ensures s != [] && forall c :: c in s ==> IsDigit(c)
  {
    if n < 10 then [DIGITS[n]] else Decimal(n / 10) + [DIGITS[n % 10]]
  }

  function DigitValue(c: char): nat
    requires IsDigit(c)
  {
    (c - '0') as nat
  }

  function DigitsValue(s: string): nat
    requires forall c :: c in s ==> IsDigit(c)
  {
    if s == [] then 0
    else
      var last := |s| - 1;
      10 * DigitsValue(s[..last]) + DigitValue(s[last])
  }

  /** Rust's `str::parse::<u64>`: an optional plus sign, then digits, in range. */
  function ParseU64(s: string): Option<nat> {
    var digits := if s != [] && s[0] == '+' then s[1..] else s;
    if digits == [] || (exists c :: c in digits && !IsDigit(c)) then None
    else if DigitsValue(digits) < WORD then Some(DigitsValue(digits))
    else None
  }

  lemma {:induction false} DecimalValue(n: nat)
    ensures DigitsValue(Decimal(n)) == n
  {
    if n >= 10 {
      DecimalValue(n / 10);
      assert Decimal(n)[..|Decimal(n)| - 1] == Decimal(n / 10);
    }
  }

  lemma ParseDecimal(n: nat)
    requires n < WORD
    ensures ParseU64(Decimal(n)) == Some(n)
  {
    DecimalValue(n);
    assert Decimal(n)[0] in Decimal(n);
  }

  function Zeros(k: nat): string {
    seq(k, _ => '0')
  }

  predicate PaddedDecimal(s: string, n: nat) {
    exists k :: 0 <= k <= |s| && s == Zeros(k) + Decimal(n)
  }

  /** What is read as `n` is `n` in decimal, after any zeros, after a plus sign or none, when it fits a word. */
  lemma ParsesIff(s: string, n: nat)
    ensures ParseU64(s) == Some(n)
       <==> n < WORD && PaddedDecimal(if s != [] && s[0] == '+' then s[1..] else s, n)
  {
    var digits := if s != [] && s[0] == '+' then s[1..] else s;
    if ParseU64(s) == Some(n) {
      var k := Padding(digits);
      assert digits == Zeros(k) + Decimal(n);
    }
    if n < WORD && PaddedDecimal(digits, n) {
      var k :| 0 <= k <= |digits| && digits == Zeros(k) + Decimal(n);
      PaddedValue(k, n);
    }
  }

  lemma DigitsAre(c: char, n: nat)
    requires n < 10
    ensures IsDigit(DIGITS[n]) && DigitValue(DIGITS[n]) == n
    ensures IsDigit(c) ==> DigitValue(c) < 10 && DIGITS[DigitValue(c)] == c
  {
  }

  lemma OneMoreDigit(s: string, c: char)
    requires IsDigit(c) && forall c :: c in s ==> IsDigit(c)
    ensures DigitsValue(s + [c]) == 10 * DigitsValue(s) + DigitValue(c)
  {
    assert (s + [c])[..|s|] == s;
  }

  lemma {:induction false} Padding(digits: string) returns (k: nat)
    requires digits != [] && forall c :: c in digits ==> IsDigit(c)
    ensures k <= |digits| && digits == Zeros(k) + Decimal(DigitsValue(digits))
    decreases |digits|
  {
    var last := |digits| - 1;
    var before, c := digits[..last], digits[last];
    DigitsAre(c, 0);
    if last == 0 {
      assert digits == [c] && DigitsValue(before) == 0;
      k := 0;
    } else {
      k := Padding(before);
      assert digits == before + [c];
      OneMoreDigit(before, c);
      k := Extended(k, DigitsValue(before), c);
    }
  }

  /** A digit after a padded number. */
  lemma Extended(k: nat, n: nat, c: char) returns (more: nat)
    requires IsDigit(c)
    ensures more <= k + 1 && Zeros(k) + Decimal(n) + [c] == Zeros(more) + Decimal(10 * n + DigitValue(c))
  {
    DigitsAre(c, 0);
    if n == 0 {
      more := k + 1;
      assert Zeros(k) + Decimal(0) == Zeros(k + 1);
    } else {
      more := k;
      assert (10 * n + DigitValue(c)) / 10 == n && (10 * n + DigitValue(c)) % 10 == DigitValue(c);
      assert Decimal(10 * n + DigitValue(c)) == Decimal(n) + [c];
    }
  }

  lemma {:induction false} PaddedValue(k: nat, n: nat)
    ensures forall c :: c in Zeros(k) + Decimal(n) ==> IsDigit(c)
    ensures DigitsValue(Zeros(k) + Decimal(n)) == n
    decreases n
  {
    if n < 10 {
      ZerosAreNothing(k);
      DigitsAre('0', n);
      OneMoreDigit(Zeros(k), DIGITS[n]);
    } else {
      PaddedValue(k, n / 10);
      DigitsAre('0', n % 10);
      OneMoreDigit(Zeros(k) + Decimal(n / 10), DIGITS[n % 10]);
      assert Zeros(k) + Decimal(n) == Zeros(k) + Decimal(n / 10) + [DIGITS[n % 10]];
    }
  }

  lemma {:induction false} ZerosAreNothing(k: nat)
    ensures DigitsValue(Zeros(k)) == 0
  {
    if k > 0 {
      assert Zeros(k)[..k - 1] == Zeros(k - 1);
      ZerosAreNothing(k - 1);
    }
  }

  // ---------------------------------------------------------------------
  // Keys
  // ---------------------------------------------------------------------

  const TILDE := '~'

  /** What stands before and after the first `~`. */
  function SplitOnce(s: string): Option<(string, string)> {
    if s == [] then None
    else if s[0] == TILDE then Some(([], s[1..]))
    else
      match SplitOnce(s[1..])
      case None => None
      case Some((before, after)) => Some(([s[0]] + before, after))
  }

  lemma {:induction false} SplitAfter(before: string, after: string)
    requires TILDE !in before
    ensures SplitOnce(before + [TILDE] + after) == Some((before, after))
  {
    var s := before + [TILDE] + after;
    if before == [] {
      assert s[1..] == after;
    } else {
      assert s[1..] == before[1..] + [TILDE] + after;
      SplitAfter(before[1..], after);
      assert [before[0]] + before[1..] == before;
    }
  }

  lemma {:induction false} SplitIsShorter(s: string)
    ensures SplitOnce(s).Some? ==> |SplitOnce(s).value.0| + |SplitOnce(s).value.1| + 1 == |s|
  {
    if s != [] && s[0] != TILDE {
      SplitIsShorter(s[1..]);
    }
  }

  /** A node's key on the wire: its local key, behind `owner~` when a component owns it. */
  function KeyOf(keys: Keys, id: NodeId): string {
    var local := if Local(id) < |keys| then keys[Local(id)] else ['#'] + Decimal(id);
    match Owner(id)
    case Some(owner) => Decimal(owner) + [TILDE] + local
    case None => local
  }

  /** The owner and the local key a wire key names. */
  function Parts(key: string): (nat, string) {
    match SplitOnce(key)
    case Some((before, after)) =>
      (match ParseU64(before)
       case Some(owner) => (owner, after)
       case None => (0, key))
    case None => (0, key)
  }

  /** The node a wire key names, interning its local key. */
  function NodeIdOf(keys: Keys, key: string): (Keys, nat) {
    var (owner, local) := Parts(key);
    var next := Interned(keys, local);
    (next, owner * WORD + Find(next, local))
  }

  /** A bare key that the wire reads as an owner's. */
  predicate ReadsAsOwned(key: string) {
    SplitOnce(key).Some? && ParseU64(SplitOnce(key).value.0).Some?
  }

  lemma FindAt(keys: Keys, i: nat)
    requires Distinct(keys) && i < |keys|
    ensures Find(keys, keys[i]) == i
  {
  }

  lemma OwnedRoundTrips(keys: Keys, id: NodeId)
    requires Distinct(keys) && Local(id) < |keys| && Owner(id).Some?
    ensures NodeIdOf(keys, KeyOf(keys, id)) == (keys, id)
  {
    var owner, local := id / WORD, keys[Local(id)];
    ParseDecimal(owner);
    SplitAfter(Decimal(owner), local);
    assert Parts(KeyOf(keys, id)) == (owner, local);
    FindAt(keys, Local(id));
  }

  lemma BareRoundTrips(keys: Keys, id: NodeId)
    requires Distinct(keys) && Local(id) < |keys| && Owner(id).None?
    requires !ReadsAsOwned(keys[Local(id)])
    ensures NodeIdOf(keys, KeyOf(keys, id)) == (keys, id)
  {
    assert Parts(keys[Local(id)]) == (0, keys[Local(id)]);
    FindAt(keys, Local(id));
  }

  lemma ReadAsOwnedIsAnother(keys: Keys, id: NodeId)
    requires Distinct(keys) && Local(id) < |keys| && Owner(id).None?
    requires ReadsAsOwned(keys[Local(id)])
    ensures NodeIdOf(keys, KeyOf(keys, id)) != (keys, id)
  {
    var local := keys[Local(id)];
    var (owner, after) := Parts(local);
    SplitIsShorter(local);
    assert after != local;
    if after in keys && owner == 0 {
      assert keys[Find(keys, after)] == after;
    }
  }

  /** Reading an interned id's wire key gives the id back, and interns nothing, exactly when a
      component owns it or its bare key does not read as an owned one. */
  lemma WireKeysRoundTrip(keys: Keys, id: NodeId)
    requires Distinct(keys) && |keys| <= EXHAUSTED && Local(id) < |keys|
    ensures NodeIdOf(keys, KeyOf(keys, id)) == (keys, id)
       <==> Owner(id).Some? || !ReadsAsOwned(keys[Local(id)])
  {
    if Owner(id).Some? {
      OwnedRoundTrips(keys, id);
    } else if ReadsAsOwned(keys[Local(id)]) {
      ReadAsOwnedIsAnother(keys, id);
    } else {
      BareRoundTrips(keys, id);
    }
  }
}
