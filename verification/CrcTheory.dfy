/** The mathematics behind the CRC-32 of ExDbg.h (section 8 of RFC 1952), on bit strings.

    A register is a sequence of 32 bits, lowest bit first.  Messages are bit strings, first
    transmitted bit first; a byte contributes its least significant bit first.
  */
module CrcTheory {

  // ---------------------------------------------------------------- bit strings

  function Zeros(n: nat): (r: seq<bool>)
    ensures |r| == n && forall i :: 0 <= i < n ==> !r[i]
  {
    seq(n, _ => false)
  }

  function Ones(n: nat): (r: seq<bool>)
    ensures |r| == n && forall i :: 0 <= i < n ==> r[i]
  {
    seq(n, _ => true)
  }

  function Xor(a: seq<bool>, b: seq<bool>): (r: seq<bool>)
    requires |a| == |b|
    ensures |r| == |a| && forall i :: 0 <= i < |a| ==> r[i] == (a[i] != b[i])
  {
    seq(|a|, i requires 0 <= i < |a| => a[i] != b[i])
  }

  /** Extend a string of at most 32 bits to a register. */
  function Pad(bits: seq<bool>): (r: seq<bool>)
    requires |bits| <= 32
    ensures |r| == 32
  {
    bits + Zeros(32 - |bits|)
  }

  // ---------------------------------------------------------------- the generator and the register

  /** Coefficients of x^31 .. x^0 of the generator; the leading x^32 is implicit. */
  function Generator(): (r: seq<bool>)
    ensures |r| == 32
  {
    seq(32, i requires 0 <= i < 32 =>
      31 - i in {26, 23, 22, 16, 12, 11, 10, 8, 7, 5, 4, 2, 1, 0})
  }

  /** One shift of the register: the bit that falls out selects the generator. */
  function BitStep(s: seq<bool>): (r: seq<bool>)
    requires |s| == 32
    ensures |r| == 32
  {
    Xor(s[1..] + [false], if s[0] then Generator() else Zeros(32))
  }

  function Steps(s: seq<bool>, n: nat): (r: seq<bool>)
    requires |s| == 32
    ensures |r| == 32
    decreases n
  {
    if n == 0 then s else Steps(BitStep(s), n - 1)
  }

  function FlipFirst(s: seq<bool>, b: bool): (r: seq<bool>)
    requires |s| == 32
    ensures |r| == 32
  {
    [s[0] != b] + s[1..]
  }

  /** The bit-serial definition: message bits enter one at a time. */
  function Feed(s: seq<bool>, message: seq<bool>): (r: seq<bool>)
    requires |s| == 32
    ensures |r| == 32
    decreases |message|
  {
    if message == [] then s else Feed(BitStep(FlipFirst(s, message[0])), message[1..])
  }

  /** The CRC of a message: register preset to ones, result complemented. */
  function Crc(message: seq<bool>): (r: seq<bool>)
    ensures |r| == 32
  {
    Xor(Feed(Ones(32), message), Ones(32))
  }

  // ---------------------------------------------------------------- linearity

  lemma BitStepXor(x: seq<bool>, y: seq<bool>)
    requires |x| == |y| == 32
    ensures BitStep(Xor(x, y)) == Xor(BitStep(x), BitStep(y))
  {}

  lemma {:induction false} StepsXor(x: seq<bool>, y: seq<bool>, n: nat)
    requires |x| == |y| == 32
    ensures Steps(Xor(x, y), n) == Xor(Steps(x, n), Steps(y, n))
    decreases n
  {
    hide BitStep;
    if n > 0 {
      BitStepXor(x, y);
      StepsXor(BitStep(x), BitStep(y), n - 1);
    }
  }

  lemma {:induction false} FeedXor(s: seq<bool>, t: seq<bool>, a: seq<bool>, b: seq<bool>)
    requires |s| == |t| == 32 && |a| == |b|
    ensures Feed(Xor(s, t), Xor(a, b)) == Xor(Feed(s, a), Feed(t, b))
    decreases |a|
  {
    if a != [] {
      var s', t' := FlipFirst(s, a[0]), FlipFirst(t, b[0]);
      assert FlipFirst(Xor(s, t), Xor(a, b)[0]) == Xor(s', t');
      BitStepXor(s', t');
      assert Xor(a, b)[1..] == Xor(a[1..], b[1..]);
      FeedXor(BitStep(s'), BitStep(t'), a[1..], b[1..]);
    }
  }

  /** The difference of two CRCs depends only on the difference of the messages. */
  lemma CrcDifference(a: seq<bool>, b: seq<bool>)
    requires |a| == |b|
    ensures Xor(Crc(a), Crc(b)) == Feed(Zeros(32), Xor(a, b))
  {
    FeedXor(Ones(32), Ones(32), a, b);
    assert Xor(Ones(32), Ones(32)) == Zeros(32);
  }

  /** CRC is affine over exclusive or. */
  lemma CrcAffine(a: seq<bool>, b: seq<bool>, c: seq<bool>)
    requires |a| == |b| == |c|
    ensures Xor(Xor(Crc(a), Crc(b)), Crc(c)) == Crc(Xor(Xor(a, b), c))
  {
    CrcDifference(a, b);
    FeedXor(Zeros(32), Ones(32), Xor(a, b), c);
    assert Xor(Zeros(32), Ones(32)) == Ones(32);
  }

  // ---------------------------------------------------------------- invertibility and words

  predicate Clear(s: seq<bool>) {
    forall i :: 0 <= i < |s| ==> !s[i]
  }

  lemma XorClear(a: seq<bool>, b: seq<bool>)
    requires |a| == |b|
    ensures Clear(Xor(a, b)) <==> a == b
  {
    if Clear(Xor(a, b)) {
      assert forall i :: 0 <= i < |a| ==> !Xor(a, b)[i];
    }
  }

  /** The generator ends in x^0, so a step is injective: it clears only a clear register. */
  lemma BitStepClear(s: seq<bool>)
    requires |s| == 32
    ensures Clear(BitStep(s)) <==> Clear(s)
  {
    assert Generator()[31];
    if Clear(BitStep(s)) {
      assert !BitStep(s)[31];
      assert forall i :: 1 <= i < 32 ==> s[i] == BitStep(s)[i - 1];
    }
  }

  lemma {:induction false} StepsClear(s: seq<bool>, n: nat)
    requires |s| == 32
    ensures Clear(Steps(s, n)) <==> Clear(s)
    decreases n
  {
    hide BitStep;
    if n > 0 {
      BitStepClear(s);
      StepsClear(BitStep(s), n - 1);
    }
  }

  lemma PadStep(s: seq<bool>, w: seq<bool>)
    requires |s| == 32 && 0 < |w| <= 32
    ensures BitStep(Xor(s, Pad(w))) == Xor(BitStep(FlipFirst(s, w[0])), Pad(w[1..]))
  {}

  /** At most 32 message bits act as one word added to the register before as many steps. */
  lemma {:induction false} FeedIsSteps(s: seq<bool>, w: seq<bool>)
    requires |s| == 32 && |w| <= 32
    ensures Feed(s, w) == Steps(Xor(s, Pad(w)), |w|)
    decreases |w|
  {
    hide BitStep, Generator;
    if w == [] {
      assert Xor(s, Pad(w)) == s;
    } else {
      PadStep(s, w);
      FeedIsSteps(BitStep(FlipFirst(s, w[0])), w[1..]);
    }
  }

  lemma {:induction false} FeedConcat(s: seq<bool>, a: seq<bool>, b: seq<bool>)
    requires |s| == 32
    ensures Feed(s, a + b) == Feed(Feed(s, a), b)
    decreases |a|
  {
    if a == [] {
      assert a + b == b;
    } else {
      assert (a + b)[1..] == a[1..] + b;
      FeedConcat(BitStep(FlipFirst(s, a[0])), a[1..], b);
    }
  }

  lemma {:induction false} FeedZeros(s: seq<bool>, n: nat)
    requires |s| == 32
    ensures Feed(s, Zeros(n)) == Steps(s, n)
    decreases n
  {
    if n > 0 {
      assert FlipFirst(s, false) == s;
      assert Zeros(n)[1..] == Zeros(n - 1);
      FeedZeros(BitStep(s), n - 1);
    }
  }

  /** A register whose low bits are clear only shifts. */
  lemma {:induction false} StepsShift(n: nat, t: seq<bool>, k: nat)
    requires n + |t| + k == 32
    ensures Steps(Zeros(n) + t + Zeros(k), n) == t + Zeros(n + k)
    decreases n
  {
    if n == 0 {
      assert Zeros(0) + t + Zeros(k) == t + Zeros(k);
    } else {
      assert BitStep(Zeros(n) + t + Zeros(k)) == Zeros(n - 1) + t + Zeros(k + 1);
      StepsShift(n - 1, t, k + 1);
    }
  }

  // ---------------------------------------------------------------- error detection

  /** The two strings agree outside [p, p + n). */
  ghost predicate DifferWithin(a: seq<bool>, b: seq<bool>, p: nat, n: nat) {
    |a| == |b| && forall i :: 0 <= i < |a| && a[i] != b[i] ==> p <= i < p + n
  }

  lemma FeedZerosClear(s: seq<bool>, n: nat)
    requires |s| == 32
    ensures Clear(Feed(s, Zeros(n))) <==> Clear(s)
  {
    FeedZeros(s, n);
    StepsClear(s, n);
  }

  /** What a difference confined to a window does to the register. */
  lemma WindowDifference(a: seq<bool>, b: seq<bool>, p: nat, n: nat)
    requires DifferWithin(a, b, p, n) && p + n <= |a|
    ensures Crc(a) == Crc(b) <==> Clear(Feed(Zeros(32), Xor(a, b)[p..p + n]))
  {
    var d, z := Xor(a, b), Zeros(32);
    var w, q := d[p..p + n], |a| - p - n;
    assert d == (Zeros(p) + w) + Zeros(q);
    FeedConcat(z, Zeros(p) + w, Zeros(q));
    FeedConcat(z, Zeros(p), w);
    FeedZerosClear(z, p);
    assert Feed(z, Zeros(p)) == z;
    FeedZerosClear(Feed(z, w), q);
    CrcDifference(a, b);
    XorClear(Crc(a), Crc(b));
  }

  lemma WindowClear(a: seq<bool>, b: seq<bool>, p: nat, n: nat)
    requires DifferWithin(a, b, p, n) && p + n <= |a|
    ensures Clear(Xor(a, b)[p..p + n]) <==> a == b
  {
    var d := Xor(a, b);
    if Clear(d[p..p + n]) {
      assert forall i :: p <= i < p + n ==> d[i] == d[p..p + n][i - p];
    }
  }

  lemma ShortFeedClear(w: seq<bool>)
    requires |w| <= 32
    ensures Clear(Feed(Zeros(32), w)) <==> Clear(w)
  {
    FeedIsSteps(Zeros(32), w);
    assert Xor(Zeros(32), Pad(w)) == Pad(w);
    StepsClear(Pad(w), |w|);
    assert Clear(Pad(w)) <==> Clear(w) by {
      assert w == Pad(w)[..|w|];
    }
  }

  lemma FirstStep(b: bool)
    ensures BitStep(FlipFirst(Zeros(32), b)) == if b then Generator() else Zeros(32)
  {
    assert FlipFirst(Zeros(32), b)[1..] + [false] == Zeros(32);
  }

  lemma LongFeedStep(w: seq<bool>)
    requires |w| == 33
    ensures Feed(Zeros(32), w) == Steps(Xor(if w[0] then Generator() else Zeros(32), w[1..]), 32)
  {
    hide BitStep, Generator, Steps, FlipFirst;
    var s := if w[0] then Generator() else Zeros(32);
    FirstStep(w[0]);
    FeedIsSteps(s, w[1..]);
    assert Pad(w[1..]) == w[1..];
  }

  /** Of the 33-bit strings only zero and the generator leave a clear register. */
  lemma LongFeedClear(w: seq<bool>)
    requires |w| == 33
    ensures Clear(Feed(Zeros(32), w)) <==> Clear(w) || w == [true] + Generator()
  {
    var s := if w[0] then Generator() else Zeros(32);
    LongFeedStep(w);
    StepsClear(Xor(s, w[1..]), 32);
    XorClear(s, w[1..]);
    SplitFirst(w, Generator());
  }

  lemma SplitFirst(w: seq<bool>, g: seq<bool>)
    requires |w| == 33 && |g| == 32
    ensures Clear(w) <==> !w[0] && w[1..] == Zeros(32)
    ensures w == [true] + g <==> w[0] && g == w[1..]
  {
    assert w == [w[0]] + w[1..];
    if !w[0] && w[1..] == Zeros(32) {
      assert forall i :: 1 <= i < 33 ==> w[i] == w[1..][i - 1];
    }
    if w[0] && g == w[1..] {
      assert w == [true] + g;
    }
  }

  /** Every burst of at most 32 bits is detected. */
  lemma BurstDetected(a: seq<bool>, b: seq<bool>, p: nat)
    requires DifferWithin(a, b, p, 32)
    ensures Crc(a) == Crc(b) <==> a == b
  {
    if p < |a| {
      var n := if p + 32 <= |a| then 32 else |a| - p;
      WindowDifference(a, b, p, n);
      WindowClear(a, b, p, n);
      ShortFeedClear(Xor(a, b)[p..p + n]);
    }
  }

  /** The bound is sharp.  Within 33 bits exactly one difference goes unnoticed: the generator. */
  lemma Burst33(a: seq<bool>, b: seq<bool>, p: nat)
    requires DifferWithin(a, b, p, 33) && p + 33 <= |a|
    ensures Crc(a) == Crc(b) <==> a == b || Xor(a, b)[p..p + 33] == [true] + Generator()
  {
    WindowDifference(a, b, p, 33);
    WindowClear(a, b, p, 33);
    LongFeedClear(Xor(a, b)[p..p + 33]);
  }

  // ---------------------------------------------------------------- long division

  /** Schoolbook division over GF(2): while more than 32 coefficients are left, a leading one
      is cancelled by the generator aligned with it.  The last 32 coefficients are the remainder. */
  function LongDivide(dividend: seq<bool>): (r: seq<bool>)
    requires |dividend| >= 32
    ensures |r| == 32
    decreases |dividend|
  {
    if |dividend| == 32 then dividend
    else if dividend[0] then LongDivide(Xor(dividend[1..33], Generator()) + dividend[33..])
    else LongDivide(dividend[1..])
  }

  /** Message times x^32, with the register added to its leading coefficients. */
  function Dividend(s: seq<bool>, message: seq<bool>): (r: seq<bool>)
    requires |s| == 32
    ensures |r| == |message| + 32
  {
    Xor(s + Zeros(|message|), message + Zeros(32))
  }

  lemma {:induction false} FeedIsRemainder(s: seq<bool>, message: seq<bool>)
    requires |s| == 32
    ensures Feed(s, message) == LongDivide(Dividend(s, message))
    decreases |message|
  {
    var d := Dividend(s, message);
    if message == [] {
      assert d == s;
    } else {
      var s' := BitStep(FlipFirst(s, message[0]));
      var d' := Dividend(s', message[1..]);
      if d[0] {
        assert d' == Xor(d[1..33], Generator()) + d[33..];
      } else {
        assert d' == d[1..];
      }
      FeedIsRemainder(s', message[1..]);
    }
  }

  /** The complemented CRC is the remainder of the message, with its first 32 coefficients
      complemented, divided by the generator. */
  lemma CrcIsRemainder(message: seq<bool>)
    ensures Xor(Crc(message), Ones(32)) == LongDivide(Dividend(Ones(32), message))
  {
    FeedIsRemainder(Ones(32), message);
    assert Xor(Crc(message), Ones(32)) == Feed(Ones(32), message);
  }
}
