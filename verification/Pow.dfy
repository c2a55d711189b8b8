/** The proof-of-work gate: the server's leading-zero test, the solver's shift test, and
    how many digests pass. The hash is any function from strings to 32 bytes. */
module Pow {
  import opened Text
  import opened Sets

  type Byte = b: nat | b < 256

  type Digest = d: seq<Byte> | |d| == 32 witness seq(32, _ => 0)

  type Hash = string -> Digest

  // ---- the code ----

  function Pow2(n: nat): (p: nat)
    ensures p > 0
  {
    if n == 0 then 1 else 2 * Pow2(n - 1)
  }

  /** `int.from_bytes(s, "big")`. */
  function FromBytes(s: seq<Byte>): nat {
    if s == [] then 0 else 256 * FromBytes(s[..|s| - 1]) + s[|s| - 1]
  }

  /** `v.bit_length()`. */
  function BitLength(v: nat): nat {
    if v == 0 then 0 else 1 + BitLength(v / 2)
  }

  /** `v >> k`, one bit at a time. */
  function ShiftRight(v: nat, k: nat): nat {
    if k == 0 then v else ShiftRight(v / 2, k - 1)
  }

  function LeadingZeroBits(d: Digest): int {
    var v := FromBytes(d);
    if v != 0 then 256 - BitLength(v) else 256
  }

  datatype Challenge = Challenge(challenge: string, difficulty: int)

  predicate Verify(h: Hash, pc: Challenge, nonce: string) {
    if pc.difficulty <= 0 then true
    else
      var n := Strip(nonce);
      n != "" && LeadingZeroBits(h(pc.challenge + n)) >= pc.difficulty
  }

  /** The condition in the printed one-liner. */
  predicate SolverTest(h: Hash, pc: Challenge, n: nat)
    requires 0 < pc.difficulty <= 256
  {
    ShiftRight(FromBytes(h(pc.challenge + PrintInt(n))), 256 - pc.difficulty) == 0
  }

  /** `next(n for n in count() if test(n))`, which exists only if some number passes. */
  method Solve(h: Hash, pc: Challenge, ghost some: nat) returns (n: nat)
    requires 0 < pc.difficulty <= 256 && SolverTest(h, pc, some)
    ensures SolverTest(h, pc, n) && forall m: nat | m < n :: !SolverTest(h, pc, m)
  {
    n := 0;
    while !SolverTest(h, pc, n)
      invariant n <= some && forall m: nat | m < n :: !SolverTest(h, pc, m)
      decreases some - n
    {
      n := n + 1;
    }
  }

  // ---- arithmetic ----

  lemma {:induction false} BitLengthIff(v: nat, n: nat)
    ensures BitLength(v) <= n <==> v < Pow2(n)
  {
    if v > 0 && n > 0 {
      BitLengthIff(v / 2, n - 1);
    }
  }

  lemma {:induction false} FromBytesBound(s: seq<Byte>)
    ensures FromBytes(s) < Pow2(8 * |s|)
  {
    if s != [] {
      FromBytesBound(s[..|s| - 1]);
      Pow2Byte(|s| - 1);
    }
  }

  lemma {:induction false} Pow2Byte(n: nat)
    ensures Pow2(8 * (n + 1)) == 256 * Pow2(8 * n)
  {
    var m := 8 * n;
    assert Pow2(m + 8) == 2 * Pow2(m + 7) == 4 * Pow2(m + 6) == 8 * Pow2(m + 5) == 16 * Pow2(m + 4);
    assert Pow2(m + 4) == 2 * Pow2(m + 3) == 4 * Pow2(m + 2) == 8 * Pow2(m + 1) == 16 * Pow2(m);
  }

  lemma {:induction false} ShiftIsZeroIff(v: nat, k: nat)
    ensures ShiftRight(v, k) == 0 <==> v < Pow2(k)
  {
    if k > 0 {
      ShiftIsZeroIff(v / 2, k - 1);
    }
  }

  // ---- the two tests agree ----

  /** For every digest and difficulty, counting leading zero bits and shifting them out
      are the same test; no digest passes a difficulty above 256. */
  lemma {:induction false} TestsAgree(d: Digest, bits: nat)
    ensures 0 < bits <= 256 ==> (LeadingZeroBits(d) >= bits <==> ShiftRight(FromBytes(d), 256 - bits) == 0)
    ensures bits > 256 ==> LeadingZeroBits(d) < bits
  {
    var v := FromBytes(d);
    FromBytesBound(d);
    BitLengthIff(v, 256);
    if 0 < bits <= 256 {
      BitLengthIff(v, 256 - bits);
      ShiftIsZeroIff(v, 256 - bits);
    }
  }

  lemma {:induction false} NumeralsAreSolid(n: nat)
    ensures Strip(PrintInt(n)) == PrintInt(n) != ""
  {
    TrimSolid(PrintInt(n), ForStrip);
  }

  /** A number passes the player's solver exactly when the server accepts its numeral. */
  lemma {:induction false} SolverMatchesServer(h: Hash, pc: Challenge, n: nat)
    requires 0 < pc.difficulty <= 256
    ensures SolverTest(h, pc, n) <==> Verify(h, pc, PrintInt(n))
  {
    NumeralsAreSolid(n);
    TestsAgree(h(pc.challenge + PrintInt(n)), pc.difficulty);
  }

  /** The number the solver prints is accepted, with or without its line ending, and it is
      the smallest one that is. */
  lemma {:induction false} SolverRoundTrip(h: Hash, pc: Challenge, n: nat)
    requires 0 < pc.difficulty <= 256
    requires SolverTest(h, pc, n) && forall m: nat | m < n :: !SolverTest(h, pc, m)
    ensures Verify(h, pc, PrintInt(n)) && Verify(h, pc, PrintInt(n) + "\n") && Verify(h, pc, " " + PrintInt(n) + "\r\n")
    ensures forall m: nat | m < n :: !Verify(h, pc, PrintInt(m))
  {
    SolverMatchesServer(h, pc, n);
    NumeralsAreSolid(n);
    var line := PrintInt(n) + "\n";
    assert line == "" + PrintInt(n) + "\n";
    TrimPadded("", PrintInt(n), "\n", ForStrip);
    TrimPadded(" ", PrintInt(n), "\r\n", ForStrip);
    forall m: nat | m < n
      ensures !Verify(h, pc, PrintInt(m))
    {
      SolverMatchesServer(h, pc, m);
    }
  }

  lemma {:induction false} BlankStripsToNothing(s: string)
    requires forall i | 0 <= i < |s| :: IsSpace(s[i])
    ensures TrimLeft(s, ForStrip) == "" && Strip(s) == ""
  {
    if s != "" {
      BlankStripsToNothing(s[1..]);
    }
  }

  /** A disabled gate lets everything through; an enabled one no blank answer. */
  lemma {:induction false} GateEdges(h: Hash, pc: Challenge, nonce: string)
    ensures pc.difficulty <= 0 ==> Verify(h, pc, nonce)
    ensures pc.difficulty > 0 && (forall i | 0 <= i < |nonce| :: IsSpace(nonce[i])) ==> !Verify(h, pc, nonce)
  {
    if forall i | 0 <= i < |nonce| :: IsSpace(nonce[i]) {
      BlankStripsToNothing(nonce);
    }
  }

  const ZeroDigest: Digest := seq(32, _ => 0)

  lemma {:induction false} ZerosPass(k: nat)
    ensures FromBytes(seq(k, _ => 0)) == 0
  {
    if k > 0 {
      assert seq(k, _ => 0)[..k - 1] == seq(k - 1, _ => 0);
      ZerosPass(k - 1);
    }
  }

  /** Nothing in the server's test asks for a number: any text with something besides white
      space can be a solution, for any challenge and difficulty, depending on the hash alone. */
  lemma {:induction false} AnyTextCanPass(pc: Challenge, nonce: string)
    requires pc.difficulty <= 256 && Strip(nonce) != ""
    ensures exists h: Hash :: Verify(h, pc, nonce)
    ensures ParseInt("nonce").None? && Strip("nonce") == "nonce"
  {
    ZerosPass(32);
    var h: Hash := (_: string) => ZeroDigest;
    assert Verify(h, pc, nonce);
    TrimSolid("nonce", ForInt);
    TrimSolid("nonce", ForStrip);
  }

  // ---- an independent reading: scanning bits ----

  /** The lowest `k` bits of `n`, most significant first. */
  function BitsOf(n: nat, k: nat): (bits: seq<bool>)
    ensures |bits| == k
  {
    if k == 0 then [] else BitsOf(n / 2, k - 1) + [n % 2 == 1]
  }

  /** The bits of big-endian bytes in reading order. */
  function Scan(s: seq<Byte>): (bits: seq<bool>)
    ensures |bits| == 8 * |s|
  {
    if s == [] then [] else Scan(s[..|s| - 1]) + BitsOf(s[|s| - 1], 8)
  }

  function LeadingFalse(bits: seq<bool>): nat {
    if bits == [] || bits[0] then 0 else 1 + LeadingFalse(bits[1..])
  }

  function Value(bits: seq<bool>): nat {
    if bits == [] then 0 else 2 * Value(bits[..|bits| - 1]) + (if bits[|bits| - 1] then 1 else 0)
  }

  lemma {:induction false} ValueBitsOf(n: nat, k: nat)
    requires n < Pow2(k)
    ensures Value(BitsOf(n, k)) == n
  {
    if k > 0 {
      ValueBitsOf(n / 2, k - 1);
      assert BitsOf(n, k)[..k - 1] == BitsOf(n / 2, k - 1);
    }
  }

  lemma {:induction false} DoubleShift(x: nat, n: nat)
    ensures x * Pow2(n + 1) == 2 * (x * Pow2(n))
  {}

  lemma {:induction false} ValueConcat(a: seq<bool>, b: seq<bool>)
    ensures Value(a + b) == Value(a) * Pow2(|b|) + Value(b)
  {
    if b == [] {
      assert a + b == a;
    } else {
      var n := |b| - 1;
      assert (a + b)[..|a + b| - 1] == a + b[..n];
      ValueConcat(a, b[..n]);
      DoubleShift(Value(a), n);
    }
  }

  lemma {:induction false} ValueOfByte(b: Byte)
    ensures Value(BitsOf(b, 8)) == b && Pow2(8) == 256
  {
    Pow2Byte(0);
    hide Value, BitsOf;
    ValueBitsOf(b, 8);
  }

  lemma {:induction false} ValueScan(s: seq<Byte>)
    ensures Value(Scan(s)) == FromBytes(s)
  {
    if s != [] {
      var front, last := s[..|s| - 1], s[|s| - 1];
      ValueScan(front);
      ValueOfByte(last);
      assert Scan(s) == Scan(front) + BitsOf(last, 8);
      hide Pow2, BitsOf, Value;
      ValueConcat(Scan(front), BitsOf(last, 8));
    }
  }

  lemma {:induction false} ValueBound(bits: seq<bool>)
    ensures Value(bits) < Pow2(|bits|)
  {
    if bits != [] {
      ValueBound(bits[..|bits| - 1]);
    }
  }

  lemma {:induction false} BitLengthOfValue(bits: seq<bool>)
    ensures BitLength(Value(bits)) == |bits| - LeadingFalse(bits)
  {
    if bits != [] {
      var rest := bits[1..];
      assert bits == [bits[0]] + rest;
      ValueConcat([bits[0]], rest);
      assert Value([bits[0]]) == if bits[0] then 1 else 0;
      if bits[0] {
        ValueBound(bits);
        BitLengthIff(Value(bits), |bits|);
        BitLengthIff(Value(bits), |bits| - 1);
      } else {
        BitLengthOfValue(rest);
      }
    }
  }

  /** The server's count equals a scan of the digest's bits up to the first one, the
      all-zero digest included. */
  lemma {:induction false} LeadingZerosAreScanned(d: Digest)
    ensures LeadingZeroBits(d) == LeadingFalse(Scan(d))
  {
    ValueScan(d);
    BitLengthOfValue(Scan(d));
  }

  /** The gate, read bit by bit: an answer passes exactly if the gate is off, or if it is not
      blank and the hash of the challenge followed by the stripped answer begins with at
      least as many zero bits as the difficulty asks. */
  lemma {:induction false} AcceptsIff(h: Hash, pc: Challenge, nonce: string)
    ensures Verify(h, pc, nonce) <==>
      || pc.difficulty <= 0
      || (Strip(nonce) != "" && pc.difficulty <= 256
          && forall i | 0 <= i < pc.difficulty :: !Scan(h(pc.challenge + Strip(nonce)))[i])
  {
    var d := h(pc.challenge + Strip(nonce));
    LeadingZerosAreScanned(d);
    LeadingFalseIff(Scan(d), if pc.difficulty < 0 then 0 else pc.difficulty);
  }

  lemma {:induction false} LeadingFalseIff(bits: seq<bool>, n: nat)
    ensures LeadingFalse(bits) >= n <==> n <= |bits| && forall i | 0 <= i < n :: !bits[i]
  {
    if bits != [] && n > 0 {
      LeadingFalseIff(bits[1..], n - 1);
      assert forall i | 0 < i < n && n <= |bits| :: bits[i] == bits[1..][i - 1];
    }
  }

  // ---- how many digests pass ----

  function ToBytes(v: nat, n: nat): (s: seq<Byte>)
    ensures |s| == n
  {
    if n == 0 then [] else ToBytes(v / 256, n - 1) + [v % 256]
  }

  lemma {:induction false} BytesRoundTrip(v: nat, n: nat)
    requires v < Pow2(8 * n)
    ensures FromBytes(ToBytes(v, n)) == v
  {
    if n > 0 {
      Pow2Byte(n - 1);
      BytesRoundTrip(v / 256, n - 1);
      assert ToBytes(v, n)[..n - 1] == ToBytes(v / 256, n - 1);
    }
  }

  lemma {:induction false} ValueRoundTrip(s: seq<Byte>)
    ensures ToBytes(FromBytes(s), |s|) == s
  {
    if s != [] {
      ValueRoundTrip(s[..|s| - 1]);
      var v, last := FromBytes(s[..|s| - 1]), s[|s| - 1];
      assert (256 * v + last) / 256 == v && (256 * v + last) % 256 == last;
    }
  }

  function Below(n: nat): set<nat> {
    if n == 0 then {} else Below(n - 1) + {n - 1}
  }

  lemma {:induction false} BelowSize(n: nat)
    ensures |Below(n)| == n && forall v: nat :: v in Below(n) <==> v < n
  {
    if n > 0 {
      BelowSize(n - 1);
    }
  }

  lemma {:induction false} Pow2Monotone(m: nat, n: nat)
    requires m <= n
    ensures Pow2(m) <= Pow2(n)
    decreases n
  {
    if m < n {
      Pow2Monotone(m, n - 1);
    }
  }

  /** The digests of all values below `n`. */
  ghost function DigestsBelow(n: nat): set<Digest> {
    set v | v in Below(n) :: ToBytes(v, 32)
  }

  /** Exactly 2^(256-bits) digests pass at a difficulty of `bits`, so one bit more halves
      the chance of a nonce. */
  lemma {:induction false} PassingDigests(bits: nat)
    requires bits <= 256
    ensures forall d: Digest :: d in DigestsBelow(Pow2(256 - bits)) <==> LeadingZeroBits(d) >= bits
    ensures |DigestsBelow(Pow2(256 - bits))| == Pow2(256 - bits)
    ensures bits < 256 ==> |DigestsBelow(Pow2(256 - bits))| == 2 * |DigestsBelow(Pow2(256 - (bits + 1)))|
  {
    PassingIffBelow(bits);
    Pow2Monotone(256 - bits, 8 * 32);
    CountBelow(Pow2(256 - bits));
    if bits < 256 {
      CountBelow(Pow2(256 - (bits + 1)));
    }
  }

  lemma {:induction false} InBelowIff(d: Digest, n: nat)
    requires n <= Pow2(8 * 32)
    ensures d in DigestsBelow(n) <==> FromBytes(d) < n
  {
    hide Pow2, ToBytes, FromBytes;
    BelowSize(n);
    ValueRoundTrip(d);
    if d in DigestsBelow(n) {
      var w :| w in Below(n) && ToBytes(w, 32) == d;
      BytesRoundTrip(w, 32);
    }
  }

  lemma {:induction false} PassingIffBelow(bits: nat)
    requires bits <= 256
    ensures forall d: Digest :: d in DigestsBelow(Pow2(256 - bits)) <==> LeadingZeroBits(d) >= bits
  {
    hide Pow2, DigestsBelow, FromBytes;
    Pow2Monotone(256 - bits, 8 * 32);
    forall d: Digest
      ensures d in DigestsBelow(Pow2(256 - bits)) <==> LeadingZeroBits(d) >= bits
    {
      BitLengthIff(FromBytes(d), 256 - bits);
      InBelowIff(d, Pow2(256 - bits));
    }
  }

  lemma {:induction false} CountBelow(n: nat)
    requires n <= Pow2(8 * 32)
    ensures |DigestsBelow(n)| == n
  {
    hide Pow2, ToBytes, FromBytes;
    BelowSize(n);
    var m: map<nat, Digest> := map v | v in Below(n) :: ToBytes(v, 32);
    forall v, w | v in Below(n) && w in Below(n) && m[v] == m[w]
      ensures v == w
    {
      BytesRoundTrip(v, 32);
      BytesRoundTrip(w, 32);
    }
    ImageSize(m, Below(n));
    assert Image(m, Below(n)) == DigestsBelow(n);
  }
}
