/** The parameters of the feedback delay network and the per-sample recurrence that
    `Reverberator::Reverberate` carries out, as pure functions over the delay-line bank. */
module FdnSpec {
  import opened CppArith
  import opened Matrices

  /** The four network sizes of the reverberator. */
  datatype FdnDimension = Matrix2d | Matrix4d | Matrix8d | Matrix16d
  {
    /** The enum's integer value, which is also the number of delay lines. */
    function Size(): (n: nat)
      ensures IsPowerOfTwo(n) && 2 <= n <= 16
    {
      match this
      case Matrix2d => 2
      case Matrix4d => 4
      case Matrix8d => 8
      case Matrix16d => 16
    }
  }

  /** Distinct dimensions have distinct sizes, so `(int)dim` identifies the dimension. */
  lemma {:induction false} SizeInjective(d: FdnDimension, e: FdnDimension)
    ensures d.Size() == e.Size() <==> d == e
  {
  }

  /** The first 26 primes in ascending order; line `k` of the network gets a power of the
      `k`-th of them as its delay. */
  const PrimesVector: seq<nat> :=
    [2, 3, 5, 7, 11, 13, 17, 19, 23, 29, 31, 37, 41, 43, 47, 53, 59, 61, 67, 71, 73, 79, 83, 89, 97, 101]

  /** Default entry of the input gain vector `b`. */
  const BValue: real := 1.0
  /** Default entry of the output gain vector `c`. */
  const CValue: real := 0.8
  /** Initial value of the reverberator's `gain` field, which nothing reads. */
  const DefaultGain: real := 0.8
  /** Declared beside the gain vectors but never read. */
  const CommonMatrixGain: real := 0.97
  /** Declared as the intended bound on delay lengths but never read: delays are not clamped. */
  const MaxDelay: int := 50000
  /** `std::sqrt(2.f)`, the single-precision square root of two, as an exact real. */
  const Sqrt2F: real := 1.41421353816986083984375

  /** `p` has no divisor in `[2, d]`. */
  predicate NoDivisorUpTo(p: nat, d: nat)
    decreases d
  {
    d < 2 || (p % d != 0 && NoDivisorUpTo(p, d - 1))
  }

  /** `p` has no divisor but 1 and itself. */
  predicate IsPrime(p: nat)
  {
    p >= 2 && forall d :: 2 <= d < p ==> p % d != 0
  }

  /** `NoDivisorUpTo` means what its name says. */
  lemma {:induction false} NoDivisorUpToMeans(p: nat, d: nat, k: nat)
    requires NoDivisorUpTo(p, d) && 2 <= k <= d
    ensures p % k != 0
  {
    if k < d {
      NoDivisorUpToMeans(p, d - 1, k);
    }
  }

  /** A number below 121 without a divisor up to 10 is prime, since a divisor above 10 would
      have a cofactor at most 10. */
  lemma {:induction false} PrimeBelow121(p: nat)
    requires 2 <= p < 121 && NoDivisorUpTo(p, if p <= 10 then p - 1 else 10)
    ensures IsPrime(p)
  {
    forall d | 2 <= d < p
      ensures p % d != 0
    {
      if d <= 10 {
        NoDivisorUpToMeans(p, if p <= 10 then p - 1 else 10, d);
      } else if p % d == 0 {
        var q := p / d;
        assert p == q * d;
        if q >= 11 {
          assert false;
        }
        ModUnique(p, q, d, 0);
        NoDivisorUpToMeans(p, if p <= 10 then p - 1 else 10, q);
      }
    }
  }

  lemma {:induction false} PrimesFrom2To23()
    ensures IsPrime(2) && IsPrime(3) && IsPrime(5) && IsPrime(7) && IsPrime(11) && IsPrime(13) && IsPrime(17) && IsPrime(19) && IsPrime(23)
  {
    PrimeBelow121(2);
    PrimeBelow121(3);
    PrimeBelow121(5);
    PrimeBelow121(7);
    PrimeBelow121(11);
    PrimeBelow121(13);
    PrimeBelow121(17);
    PrimeBelow121(19);
    PrimeBelow121(23);
  }

  lemma {:induction false} PrimesFrom29To47()
    ensures IsPrime(29) && IsPrime(31) && IsPrime(37) && IsPrime(41) && IsPrime(43) && IsPrime(47)
  {
    PrimeBelow121(29);
    PrimeBelow121(31);
    PrimeBelow121(37);
    PrimeBelow121(41);
    PrimeBelow121(43);
    PrimeBelow121(47);
  }

  lemma {:induction false} PrimesFrom53To73()
    ensures IsPrime(53) && IsPrime(59) && IsPrime(61) && IsPrime(67) && IsPrime(71) && IsPrime(73)
  {
    PrimeBelow121(53);
    PrimeBelow121(59);
    PrimeBelow121(61);
    PrimeBelow121(67);
    PrimeBelow121(71);
    PrimeBelow121(73);
  }

  lemma {:induction false} PrimesFrom79To101()
    ensures IsPrime(79) && IsPrime(83) && IsPrime(89) && IsPrime(97) && IsPrime(101)
  {
    PrimeBelow121(79);
    PrimeBelow121(83);
    PrimeBelow121(89);
    PrimeBelow121(97);
    PrimeBelow121(101);
  }

  /** `p` has one of the factors 2, 3, 5 or 7 besides itself. */
  predicate SmallFactor(p: nat)
  {
    (p > 2 && p % 2 == 0) || (p > 3 && p % 3 == 0) || (p > 5 && p % 5 == 0) || (p > 7 && p % 7 == 0)
  }

  lemma {:induction false} SmallFactorFrom2To25(p: nat)
    requires 2 <= p <= 25 && p !in PrimesVector
    ensures SmallFactor(p)
  {
  }

  lemma {:induction false} SmallFactorFrom26To50(p: nat)
    requires 26 <= p <= 50 && p !in PrimesVector
    ensures SmallFactor(p)
  {
  }

  lemma {:induction false} SmallFactorFrom51To75(p: nat)
    requires 51 <= p <= 75 && p !in PrimesVector
    ensures SmallFactor(p)
  {
  }

  lemma {:induction false} SmallFactorFrom76To88(p: nat)
    requires 76 <= p <= 88 && p !in PrimesVector
    ensures SmallFactor(p)
  {
  }

  lemma {:induction false} SmallFactorFrom89To101(p: nat)
    requires 89 <= p <= 101 && p !in PrimesVector
    ensures SmallFactor(p)
  {
  }

  /** Every number up to 101 outside the table has one of the factors 2, 3, 5 or 7. */
  lemma {:induction false} SmallFactorOutside(p: nat)
    requires 2 <= p <= 101 && p !in PrimesVector
    ensures SmallFactor(p)
  {
    if p <= 25 {
      SmallFactorFrom2To25(p);
    } else if p <= 50 {
      SmallFactorFrom26To50(p);
    } else if p <= 75 {
      SmallFactorFrom51To75(p);
    } else if p <= 88 {
      SmallFactorFrom76To88(p);
    } else {
      SmallFactorFrom89To101(p);
    }
  }

  /** No prime up to 101 is missing from the table. */
  lemma {:induction false} NoPrimeMissing()
    ensures forall p: nat :: 2 <= p <= 101 && IsPrime(p) ==> p in PrimesVector
  {
    forall p: nat | 2 <= p <= 101 && p !in PrimesVector
      ensures !IsPrime(p)
    {
      SmallFactorOutside(p);
      var d := if p > 2 && p % 2 == 0 then 2 else if p > 3 && p % 3 == 0 then 3 else if p > 5 && p % 5 == 0 then 5 else 7;
      assert 2 <= d < p && p % d == 0;
    }
  }

  /** Every entry of the table is a prime. */
  lemma {:induction false} TableEntriesArePrime()
    ensures forall i :: 0 <= i < |PrimesVector| ==> IsPrime(PrimesVector[i])
  {
    PrimesFrom2To23();
    PrimesFrom29To47();
    PrimesFrom53To73();
    PrimesFrom79To101();
  }

  /** The table holds exactly the first 26 primes: it is strictly ascending, every entry is a
      prime, and every prime up to its last entry 101 is in it. */
  lemma {:induction false} PrimesVectorIsAscendingPrimes()
    ensures |PrimesVector| == 26 && PrimesVector[25] == 101
    ensures forall i, j :: 0 <= i < j < |PrimesVector| ==> PrimesVector[i] < PrimesVector[j]
    ensures forall i :: 0 <= i < |PrimesVector| ==> IsPrime(PrimesVector[i])
    ensures forall p: nat :: 2 <= p <= 101 && IsPrime(p) ==> p in PrimesVector
  {
    TableEntriesArePrime();
    NoPrimeMissing();
  }

  /** The delay of one line, `std::pow(prime, e)` stored into an `int`: the exact power for a
      non-negative exponent; for a negative one the power lies strictly between 0 and 1 and the
      conversion truncates it to 0. */
  function DelayValue(prime: nat, e: int): (d: nat)
  {
    if e < 0 then 0 else Pow(prime, e)
  }

  /** A non-negative exponent of a prime gives a delay of at least one sample, a negative one
      gives a line of length zero. */
  lemma {:induction false} DelayValueSign(prime: nat, e: int)
    requires prime >= 2
    ensures DelayValue(prime, e) >= 1 <==> e >= 0
  {
    if e >= 0 {
      PowPositive(prime, e);
    }
  }

  /** The exponents `GenerateDelayValues` accepts for the table `primes`: at most one per
      prime, and each power small enough for the conversion to `int`. */
  ghost predicate PowersOk(primes: seq<nat>, powers: seq<int>)
  {
    |powers| <= |primes|
    && forall k :: 0 <= k < |powers| ==> DelayValue(primes[k], powers[k]) < 0x8000_0000
  }

  /** The delays generated from `powers`, in input order: line `k` gets `primes[k]^powers[k]`. */
  function DelayValues(primes: seq<nat>, powers: seq<int>): (d: seq<int>)
    requires |powers| <= |primes|
    ensures |d| == |powers|
    ensures forall k :: 0 <= k < |powers| ==> d[k] == DelayValue(primes[k], powers[k])
  {
    seq(|powers|, k requires 0 <= k < |powers| => DelayValue(primes[k], powers[k]))
  }

  /** The largest delay, or 0 for no delays: the width of the delay-line bank. */
  function MaxOrZero(s: seq<int>): (m: int)
  {
    if |s| == 0 then 0
    else
      var m := MaxOrZero(s[..|s| - 1]);
      if s[|s| - 1] > m then s[|s| - 1] else m
  }

  /** `MaxOrZero` is at least 0, bounds every entry, and is 0 or one of the entries. */
  lemma {:induction false} MaxOrZeroIsMax(s: seq<int>)
    ensures MaxOrZero(s) >= 0
    ensures forall k :: 0 <= k < |s| ==> s[k] <= MaxOrZero(s)
    ensures MaxOrZero(s) == 0 || exists k :: 0 <= k < |s| && s[k] == MaxOrZero(s)
  {
    if |s| > 0 {
      var init := s[..|s| - 1];
      MaxOrZeroIsMax(init);
      assert forall k :: 0 <= k < |init| ==> init[k] == s[k];
      if MaxOrZero(init) != 0 && s[|s| - 1] <= MaxOrZero(init) {
        var k :| 0 <= k < |init| && init[k] == MaxOrZero(init);
        assert s[k] == MaxOrZero(s);
      }
    }
  }

  /** Appending one value to a list extends its running maximum as the generating loop does. */
  lemma {:induction false} MaxOrZeroAppend(s: seq<int>, v: int)
    ensures MaxOrZero(s + [v]) == if v > MaxOrZero(s) then v else MaxOrZero(s)
  {
    assert (s + [v])[..|s|] == s;
  }

  /** The default exponents `{1, 2, 3, 4}` give the delays 2, 9, 125 and 2401. */
  lemma {:induction false} DefaultDelays()
    ensures DelayValues(PrimesVector, [1, 2, 3, 4]) == [2, 9, 125, 2401]
    ensures MaxOrZero(DelayValues(PrimesVector, [1, 2, 3, 4])) == 2401
  {
    var d := DelayValues(PrimesVector, [1, 2, 3, 4]);
    assert d[0] == Pow(2, 1) == 2;
    assert d[1] == Pow(3, 2) == 9;
    assert d[2] == Pow(5, 3) == 125;
    assert d[3] == Pow(7, 4) == 2401;
    assert d == [2, 9, 125, 2401];
    assert d[..3] == [2, 9, 125] && d[..3][..2] == [2, 9] && d[..3][..2][..1] == [2];
    assert MaxOrZero(d[..3][..2][..1]) == 2;
    assert MaxOrZero(d[..3][..2]) == 9;
    assert MaxOrZero(d[..3]) == 125;
  }

  /** Every row of the bank has the length of the first one. */
  ghost predicate Rect(bank: seq<seq<real>>)
  {
    forall r :: 0 <= r < |bank| ==> |bank[r]| == Width(bank)
  }

  function Width(bank: seq<seq<real>>): nat
  {
    if |bank| == 0 then 0 else |bank[0]|
  }

  lemma {:induction false} GridIsRect(g: seq<seq<real>>, rows: nat, cols: nat)
    requires IsGrid(g, rows, cols) && rows > 0
    ensures Rect(g) && Width(g) == cols
  {
  }

  /** What one call of `Reverberate` reads besides the bank and the audio: the number of lines
      `n` (the dimension), the delay of each line, the input and output gain vectors `b` and `c`,
      and the mixing matrix. */
  datatype Params = Params(n: nat, delays: seq<int>, b: seq<real>, c: seq<real>, mix: seq<seq<real>>)

  /** At least one line, and vectors and a matrix that cover the `n` lines that are read (the
      source indexes all of them without a check). */
  ghost predicate Covers(p: Params)
  {
    p.n > 0 && |p.delays| >= p.n && |p.b| >= p.n && |p.c| >= p.n && IsGrid(p.mix, p.n, p.n)
  }

  type NetParams = p: Params | Covers(p) witness Params(1, [0], [0.0], [0.0], [[0.0]])

  /** The column that line `i` reads when the write position is `idx`:
      `(idx - delay + n) % n` with the C++ remainder, which is negative when
      `idx - delay + n` is negative and not a multiple of `n`. */
  function TapIndex(idx: int, delay: int, n: nat): (t: int)
    requires n > 0
    ensures -(n as int) < t < n
  {
    TruncRem(idx - delay + n, n)
  }

  /** The tap column is never negative when the delay is at most `idx + n`; beyond that it is
      negative unless `delay - idx - n` is a multiple of `n`. */
  lemma {:induction false} TapIndexSign(idx: int, delay: int, n: nat)
    requires n > 0
    ensures 0 <= TapIndex(idx, delay, n) <==> (delay <= idx + n || (delay - idx - n) % n == 0)
  {
    TruncRemSign(idx - delay + n, n);
  }

  /** The column line `i` reads at write position `idx`. */
  function Tap(p: NetParams, idx: int, i: nat): int
    requires i < p.n
  {
    TapIndex(idx, p.delays[i], p.n)
  }

  /** Every column read or written at write position `idx` lies inside a bank `cols` wide. */
  ghost predicate ColumnsOk(p: NetParams, cols: nat, idx: int)
  {
    0 <= idx < cols
    && forall i :: 0 <= i < p.n ==> 0 <= Tap(p, idx, i) < cols
  }

  /** The write position at sample `k` of a block: it starts at 0 and advances by one with the
      C++ remainder by `n`. */
  function IdxAt(k: nat, n: nat): (idx: int)
    requires n > 0
    ensures 0 <= idx < n
  {
    if k == 0 then 0 else TruncRem(IdxAt(k - 1, n) + 1, n)
  }

  /** The write position after sample `k` is the C++ remainder of its successor. */
  lemma {:induction false} IdxAtNext(k: nat, n: nat)
    requires n > 0
    ensures IdxAt(k + 1, n) == TruncRem(IdxAt(k, n) + 1, n)
  {
  }

  /** The write position is the sample number modulo `n`. */
  lemma {:induction false} IdxAtIsMod(k: nat, n: nat)
    requires n > 0
    ensures IdxAt(k, n) == k % n
  {
    if k > 0 {
      IdxAtIsMod(k - 1, n);
      ModSucc(k - 1, n, IdxAt(k - 1, n));
    }
  }

  /** Every sample of a block of `len` samples stays inside the bank. */
  ghost predicate BlockOk(p: NetParams, cols: nat, len: nat)
  {
    forall k :: 0 <= k < len ==> SampleOk(p, cols, k)
  }

  /** Sample `k` of a block stays inside a bank `cols` wide. */
  ghost predicate SampleOk(p: NetParams, cols: nat, k: nat)
  {
    ColumnsOk(p, cols, IdxAt(k, p.n))
  }

  /** `sum_{j < upTo} bank[j][col] * mix[i][j]`, the product of the bank's column `col` with
      row `i` of the mixing matrix, accumulated in the order of the source's loop. */
  function MixSum(bank: seq<seq<real>>, p: NetParams, i: nat, col: int, upTo: nat): real
    requires Rect(bank) && p.n <= |bank| && 0 <= col < Width(bank)
    requires i < p.n && upTo <= p.n
  {
    if upTo == 0 then 0.0
    else MixSum(bank, p, i, col, upTo - 1) + bank[upTo - 1][col] * p.mix[i][upTo - 1]
  }

  /** One sample with write position `idx` and input `x`, after the first `i` lines: the bank
      with row `r < i` overwritten at column `idx` by `x * b[r]` plus the mix of the column row
      `r` taps, and the output accumulated so far. Each line reads the bank as the lines before
      it left it. */
  function Lines(bank: seq<seq<real>>, p: NetParams, idx: int, x: real, i: nat): (st: (seq<seq<real>>, real))
    requires Rect(bank) && p.n <= |bank| && ColumnsOk(p, Width(bank), idx) && i <= p.n
    ensures |st.0| == |bank| && Rect(st.0) && Width(st.0) == Width(bank)
  {
    if i == 0 then (bank, x)
    else
      var prev := Lines(bank, p, idx, x, i - 1);
      LineStep(prev.0, prev.1, p, idx, x, i - 1)
  }

  /** The first `i` lines leave the rows from `i` on as they are. */
  lemma {:induction false} LinesLaterRows(bank: seq<seq<real>>, p: NetParams, idx: int, x: real, i: nat, r: nat)
    requires Rect(bank) && p.n <= |bank| && ColumnsOk(p, Width(bank), idx) && i <= p.n
    requires i <= r < |bank|
    ensures Lines(bank, p, idx, x, i).0[r] == bank[r]
  {
    if i > 0 {
      LinesLaterRows(bank, p, idx, x, i - 1, r);
    }
  }

  /** The first `i` lines write only column `idx` of their own rows. */
  lemma {:induction false} LinesFrame(bank: seq<seq<real>>, p: NetParams, idx: int, x: real, i: nat, r: nat, col: nat)
    requires Rect(bank) && p.n <= |bank| && ColumnsOk(p, Width(bank), idx) && i <= p.n
    requires r < |bank| && col < Width(bank) && (r >= i || col != idx)
    ensures Lines(bank, p, idx, x, i).0[r][col] == bank[r][col]
  {
    if i > 0 {
      LinesFrame(bank, p, idx, x, i - 1, r, col);
      var prev := Lines(bank, p, idx, x, i - 1);
      assert Lines(bank, p, idx, x, i) == LineStep(prev.0, prev.1, p, idx, x, i - 1);
    }
  }

  /** Line `i` of one sample: its tap is added to the output `out`, then it is written at
      column `idx` with `x * b[i]` plus the mix of the tapped column. */
  function LineStep(b: seq<seq<real>>, out: real, p: NetParams, idx: int, x: real, i: nat): (st: (seq<seq<real>>, real))
    requires Rect(b) && p.n <= |b| && ColumnsOk(p, Width(b), idx) && i < p.n
    ensures |st.0| == |b| && Rect(st.0) && Width(st.0) == Width(b)
  {
    var t := Tap(p, idx, i);
    (Assigned(b, i, idx, x * p.b[i] + MixSum(b, p, i, t, p.n)), out + p.c[i] * b[i][t])
  }

  /** `LineStep` writes `v` into line `i` at column `idx` when `v` is the line's new value,
      and adds `c[i]` times the tap to the output. */
  lemma {:induction false} LineStepIs(b: seq<seq<real>>, out: real, p: NetParams, idx: int, x: real, i: nat, v: real)
    requires Rect(b) && p.n <= |b| && ColumnsOk(p, Width(b), idx) && i < p.n
    requires v == x * p.b[i] + MixSum(b, p, i, Tap(p, idx, i), p.n)
    ensures LineStep(b, out, p, idx, x, i).0 == Assigned(b, i, idx, v)
    ensures LineStep(b, out, p, idx, x, i).1 == out + p.c[i] * b[i][Tap(p, idx, i)]
  {
  }

  /** `sum_{r < i} c[r] * bank[r][tap_r]`: the wet part of the output, read from `bank`. */
  function WetSum(bank: seq<seq<real>>, p: NetParams, idx: int, i: nat): real
    requires Rect(bank) && p.n <= |bank| && ColumnsOk(p, Width(bank), idx) && i <= p.n
  {
    if i == 0 then 0.0
    else WetSum(bank, p, idx, i - 1) + p.c[i - 1] * bank[i - 1][Tap(p, idx, i - 1)]
  }

  /** The output taps read the bank as it was before the sample: line `i` is written only after
      its own tap is read, and the writes of the earlier lines touch other rows. */
  lemma {:induction false} LinesOutput(bank: seq<seq<real>>, p: NetParams, idx: int, x: real, i: nat)
    requires Rect(bank) && p.n <= |bank| && ColumnsOk(p, Width(bank), idx) && i <= p.n
    ensures Lines(bank, p, idx, x, i).1 == x + WetSum(bank, p, idx, i)
  {
    if i > 0 {
      LinesOutput(bank, p, idx, x, i - 1);
      LinesLaterRows(bank, p, idx, x, i - 1, i - 1);
    }
  }

  /** The value written into line `r` at column `idx`. */
  lemma {:induction false} LinesWrite(bank: seq<seq<real>>, p: NetParams, idx: int, x: real, i: nat, r: nat)
    requires Rect(bank) && p.n <= |bank| && ColumnsOk(p, Width(bank), idx) && r < i <= p.n
    ensures Lines(bank, p, idx, x, i).0[r][idx]
         == x * p.b[r] + MixSum(Lines(bank, p, idx, x, r).0, p, r, Tap(p, idx, r), p.n)
  {
    var prev := Lines(bank, p, idx, x, i - 1);
    assert Lines(bank, p, idx, x, i) == LineStep(prev.0, prev.1, p, idx, x, i - 1);
    if r < i - 1 {
      LinesWrite(bank, p, idx, x, i - 1, r);
    }
  }

  /** Against an all-zero mixing matrix the mix is 0. */
  lemma {:induction false} MixSumZero(bank: seq<seq<real>>, p: NetParams, i: nat, col: int, upTo: nat)
    requires Rect(bank) && p.n <= |bank| && 0 <= col < Width(bank)
    requires i < p.n && upTo <= p.n
    requires p.mix == Grid(p.n, p.n, 0.0)
    ensures MixSum(bank, p, i, col, upTo) == 0.0
  {
    if upTo > 0 {
      MixSumZero(bank, p, i, col, upTo - 1);
    }
  }

  /** With the all-zero matrices the reverberator actually holds, each line just stores its
      scaled input: there is no feedback between the lines. */
  lemma {:induction false} ZeroMixWrites(bank: seq<seq<real>>, p: NetParams, idx: int, x: real, r: nat)
    requires Rect(bank) && p.n <= |bank| && ColumnsOk(p, Width(bank), idx) && r < p.n
    requires p.mix == Grid(p.n, p.n, 0.0)
    ensures Lines(bank, p, idx, x, p.n).0[r][idx] == x * p.b[r]
  {
    LinesWrite(bank, p, idx, x, p.n, r);
    MixSumZero(Lines(bank, p, idx, x, r).0, p, r, Tap(p, idx, r), p.n);
  }

  /** The crossfade `drywet * wet + (1 - drywet) * dry` that produces each output sample. */
  function Blend(drywet: real, wet: real, dry: real): real
  {
    drywet * wet + (1.0 - drywet) * dry
  }

  /** Sample `k` of a block: the lines run with write position `IdxAt(k, n)` and input
      `audio[k]`, and the sample becomes `drywet * output + (1 - drywet) * input`. */
  function Step(bank: seq<seq<real>>, audio: seq<real>, p: NetParams, drywet: real, k: nat)
    : (st: (seq<seq<real>>, seq<real>))
    requires Rect(bank) && p.n <= |bank| && SampleOk(p, Width(bank), k) && k < |audio|
    ensures |st.0| == |bank| && Rect(st.0) && Width(st.0) == Width(bank)
    ensures |st.1| == |audio| && forall j :: 0 <= j < |audio| && j != k ==> st.1[j] == audio[j]
    ensures st.1[k] == Blend(drywet, audio[k] + WetSum(bank, p, IdxAt(k, p.n), p.n), audio[k])
  {
    var line := Lines(bank, p, IdxAt(k, p.n), audio[k], p.n);
    LinesOutput(bank, p, IdxAt(k, p.n), audio[k], p.n);
    (line.0, audio[k := Blend(drywet, line.1, audio[k])])
  }

  /** A sample writes only the column of its write position, and only in the `n` rows of the
      lines. */
  lemma {:induction false} StepBankFrame(bank: seq<seq<real>>, audio: seq<real>, p: NetParams, drywet: real, k: nat, r: nat, col: nat)
    requires Rect(bank) && p.n <= |bank| && SampleOk(p, Width(bank), k) && k < |audio|
    requires r < |bank| && col < Width(bank) && (r >= p.n || col != IdxAt(k, p.n))
    ensures Step(bank, audio, p, drywet, k).0[r][col] == bank[r][col]
  {
    assert Step(bank, audio, p, drywet, k).0 == Lines(bank, p, IdxAt(k, p.n), audio[k], p.n).0;
    LinesFrame(bank, p, IdxAt(k, p.n), audio[k], p.n, r, col);
  }

  /** The first `len` samples of a block: the bank and the audio after them. Sample `k` has
      write position `IdxAt(k, n)`, reads its input from the audio, and is overwritten by
      `drywet * output + (1 - drywet) * input`. */
  function Run(bank: seq<seq<real>>, audio: seq<real>, p: NetParams, drywet: real, len: nat)
    : (st: (seq<seq<real>>, seq<real>))
    requires Rect(bank) && p.n <= |bank| && BlockOk(p, Width(bank), len) && len <= |audio|
    ensures |st.0| == |bank| && Rect(st.0) && Width(st.0) == Width(bank)
    ensures |st.1| == |audio|
    ensures forall k :: len <= k < |audio| ==> st.1[k] == audio[k]
  {
    if len == 0 then (bank, audio)
    else
      var prev := Run(bank, audio, p, drywet, len - 1);
      Step(prev.0, prev.1, p, drywet, len - 1)
  }

  /** The last sample of a block is the one `Step` produces from the samples before it. */
  lemma {:induction false} RunLast(bank: seq<seq<real>>, audio: seq<real>, p: NetParams, drywet: real, len: nat)
    requires Rect(bank) && p.n <= |bank| && BlockOk(p, Width(bank), len) && len <= |audio|
    requires len > 0
    ensures SampleOk(p, Width(Run(bank, audio, p, drywet, len - 1).0), len - 1)
    ensures Run(bank, audio, p, drywet, len)
         == Step(Run(bank, audio, p, drywet, len - 1).0, Run(bank, audio, p, drywet, len - 1).1, p, drywet, len - 1)
  {
    assert SampleOk(p, Width(Run(bank, audio, p, drywet, len - 1).0), len - 1);
  }

  /** Each processed sample is `drywet * (input + wet) + (1 - drywet) * input`, where the wet
      part is read from the bank as the earlier samples left it; later samples do not touch it. */
  lemma {:induction false} RunSample(bank: seq<seq<real>>, audio: seq<real>, p: NetParams, drywet: real, len: nat, k: nat)
    requires Rect(bank) && p.n <= |bank| && BlockOk(p, Width(bank), len) && len <= |audio|
    requires k < len
    ensures SampleOk(p, Width(bank), k)
    ensures Run(bank, audio, p, drywet, len).1[k]
         == Blend(drywet, audio[k] + WetSum(Run(bank, audio, p, drywet, k).0, p, IdxAt(k, p.n), p.n), audio[k])
  {
    RunKeepsSample(bank, audio, p, drywet, len, k);
    RunSampleValue(bank, audio, p, drywet, k);
  }

  /** Sample `k` as the `k + 1`-th step of the block leaves it. */
  lemma {:induction false} RunSampleValue(bank: seq<seq<real>>, audio: seq<real>, p: NetParams, drywet: real, k: nat)
    requires Rect(bank) && p.n <= |bank| && BlockOk(p, Width(bank), k + 1) && k < |audio|
    ensures SampleOk(p, Width(bank), k)
    ensures Run(bank, audio, p, drywet, k + 1).1[k]
         == Blend(drywet, audio[k] + WetSum(Run(bank, audio, p, drywet, k).0, p, IdxAt(k, p.n), p.n), audio[k])
  {
    var prev := Run(bank, audio, p, drywet, k);
    assert SampleOk(p, Width(prev.0), k);
    assert Run(bank, audio, p, drywet, k + 1) == Step(prev.0, prev.1, p, drywet, k);
    assert prev.1[k] == audio[k];
  }

  /** Once sample `k` is processed, the later samples of the block leave it as it is. */
  lemma {:induction false} RunKeepsSample(bank: seq<seq<real>>, audio: seq<real>, p: NetParams, drywet: real, len: nat, k: nat)
    requires Rect(bank) && p.n <= |bank| && BlockOk(p, Width(bank), len) && len <= |audio|
    requires k < len
    ensures Run(bank, audio, p, drywet, len).1[k] == Run(bank, audio, p, drywet, k + 1).1[k]
  {
    if k < len - 1 {
      RunKeepsSample(bank, audio, p, drywet, len - 1, k);
      var prev := Run(bank, audio, p, drywet, len - 1);
      assert SampleOk(p, Width(prev.0), len - 1);
      assert Run(bank, audio, p, drywet, len) == Step(prev.0, prev.1, p, drywet, len - 1);
      assert Step(prev.0, prev.1, p, drywet, len - 1).1[k] == prev.1[k];
    } else {
      assert len == k + 1;
    }
  }

  /** With `drywet == 0` the block leaves every sample exactly as it was. */
  lemma {:induction false} DryRunKeepsAudio(bank: seq<seq<real>>, audio: seq<real>, p: NetParams, len: nat)
    requires Rect(bank) && p.n <= |bank| && BlockOk(p, Width(bank), len) && len <= |audio|
    ensures Run(bank, audio, p, 0.0, len).1 == audio
  {
    if len > 0 {
      DryRunKeepsAudio(bank, audio, p, len - 1);
    }
  }

  lemma {:induction false} WetSumSilent(bank: seq<seq<real>>, p: NetParams, idx: int, i: nat)
    requires Rect(bank) && p.n <= |bank| && ColumnsOk(p, Width(bank), idx) && i <= p.n
    requires forall r :: 0 <= r < p.n ==> p.c[r] == 0.0
    ensures WetSum(bank, p, idx, i) == 0.0
  {
    if i > 0 {
      WetSumSilent(bank, p, idx, i - 1);
    }
  }

  /** With an all-zero output vector `c` one sample is left as it was. */
  lemma {:induction false} StepSilent(bank: seq<seq<real>>, audio: seq<real>, p: NetParams, drywet: real, k: nat)
    requires Rect(bank) && p.n <= |bank| && SampleOk(p, Width(bank), k) && k < |audio|
    requires forall r :: 0 <= r < p.n ==> p.c[r] == 0.0
    ensures Step(bank, audio, p, drywet, k).1 == audio
  {
    WetSumSilent(bank, p, IdxAt(k, p.n), p.n);
    var next := Step(bank, audio, p, drywet, k);
    assert next.1[k] == Blend(drywet, audio[k] + 0.0, audio[k]) == audio[k];
  }

  /** With an all-zero output vector `c` the block leaves every sample exactly as it was,
      whatever the dry/wet ratio. */
  lemma {:induction false} SilentOutputKeepsAudio(bank: seq<seq<real>>, audio: seq<real>, p: NetParams, drywet: real, len: nat)
    requires Rect(bank) && p.n <= |bank| && BlockOk(p, Width(bank), len) && len <= |audio|
    requires forall r :: 0 <= r < p.n ==> p.c[r] == 0.0
    ensures Run(bank, audio, p, drywet, len).1 == audio
  {
    if len > 0 {
      SilentOutputKeepsAudio(bank, audio, p, drywet, len - 1);
      var prev := Run(bank, audio, p, drywet, len - 1);
      assert SampleOk(p, Width(prev.0), len - 1);
      assert Run(bank, audio, p, drywet, len) == Step(prev.0, prev.1, p, drywet, len - 1);
      StepSilent(prev.0, prev.1, p, drywet, len - 1);
    }
  }

  /** A block only overwrites the columns its write positions visit, and only in the `n` rows
      of the lines. */
  lemma {:induction false} RunBankFrame(bank: seq<seq<real>>, audio: seq<real>, p: NetParams, drywet: real, len: nat, r: nat, col: nat)
    requires Rect(bank) && p.n <= |bank| && BlockOk(p, Width(bank), len) && len <= |audio|
    requires r < |bank| && col < Width(bank)
    requires r >= p.n || forall k :: 0 <= k < len ==> IdxAt(k, p.n) != col
    ensures Run(bank, audio, p, drywet, len).0[r][col] == bank[r][col]
  {
    if len > 0 {
      RunBankFrame(bank, audio, p, drywet, len - 1, r, col);
      var prev := Run(bank, audio, p, drywet, len - 1);
      assert SampleOk(p, Width(prev.0), len - 1);
      assert Run(bank, audio, p, drywet, len) == Step(prev.0, prev.1, p, drywet, len - 1);
      assert r >= p.n || col != IdxAt(len - 1, p.n);
      StepBankFrame(prev.0, prev.1, p, drywet, len - 1, r, col);
    }
  }

  /** The default network (four lines, exponents `{1, 2, 3, 4}`) reads outside its bank at the
      very first sample: line 2 has delay 125 and `(0 - 125 + 4) % 4` is -1 in C++. */
  lemma {:induction false} DefaultPowersReadBeforeBank(p: NetParams, cols: nat, len: nat)
    requires len >= 1 && p.n == 4 && p.delays == DelayValues(PrimesVector, [1, 2, 3, 4])
    ensures !BlockOk(p, cols, len)
  {
    DefaultDelays();
    assert p.delays[2] == 125;
    TruncRemIsMod(-121, 4);
    assert Tap(p, 0, 2) == -1;
    assert IdxAt(0, 4) == 0;
    assert !SampleOk(p, cols, 0);
  }

  /** Exponents `{0, 0, 0, 0}` give four one-sample lines; the bank is then one column wide and
      the second sample already writes outside it. */
  lemma {:induction false} ZeroPowersWriteOutsideBank(p: NetParams, len: nat)
    requires len >= 2 && p.n == 4 && p.delays == DelayValues(PrimesVector, [0, 0, 0, 0])
    ensures MaxOrZero(DelayValues(PrimesVector, [0, 0, 0, 0])) == 1
    ensures !BlockOk(p, 1, len)
  {
    var d := DelayValues(PrimesVector, [0, 0, 0, 0]);
    assert d[0] == 1 && d[1] == 1 && d[2] == 1 && d[3] == 1;
    assert d == [1, 1, 1, 1];
    assert d[..3] == [1, 1, 1] && d[..3][..2] == [1, 1] && d[..3][..2][..1] == [1];
    assert MaxOrZero(d[..3][..2][..1]) == 1;
    assert MaxOrZero(d[..3][..2]) == 1;
    assert MaxOrZero(d[..3]) == 1;
    assert IdxAt(1, 4) == 1;
    assert !SampleOk(p, 1, 1);
  }
}
