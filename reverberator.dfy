/** The reverberator of one audio channel: a bank of delay lines, their delays, the gain
    vectors, the table of mixing matrices, and the per-sample loop over a block of audio. */
module Reverb {
  import opened CppArith
  import opened Matrices
  import opened FdnSpec

  /** The gain the constructor gives the Hadamard matrix of each dimension:
      `1/sqrt(2)`, `0.5`, `0.5/sqrt(2)` and `0.25`. */
  function MatrixGain(d: FdnDimension): real
  {
    match d
    case Matrix2d => 1.0 / Sqrt2F
    case Matrix4d => 0.5
    case Matrix8d => 0.5 / Sqrt2F
    case Matrix16d => 0.25
  }

  /** The table of mixing matrices the constructor registers: one square of zeros for each of
      the four dimensions, because every registered size is at least two. */
  function MatrixTable(): (t: map<FdnDimension, seq<seq<real>>>)
  {
    map[Matrix2d := Grid(2, 2, 0.0), Matrix4d := Grid(4, 4, 0.0),
        Matrix8d := Grid(8, 8, 0.0), Matrix16d := Grid(16, 16, 0.0)]
  }

  /** Every dimension has a matrix in the table, and it is the all-zero square of its size. */
  lemma {:induction false} MatrixTableEntry(d: FdnDimension)
    ensures d in MatrixTable() && MatrixTable()[d] == Grid(d.Size(), d.Size(), 0.0)
  {
    match d
    case Matrix2d =>
    case Matrix4d =>
    case Matrix8d =>
    case Matrix16d =>
  }

  /** Every field of a reverberator, the bank given by its rows and its two counters. */
  datatype RevView = RevView(
    primes: seq<nat>,
    dimension: FdnDimension,
    delayValues: seq<int>,
    gain: real,
    bVector: seq<real>,
    cVector: seq<real>,
    bank: seq<seq<real>>,
    rowsSize: nat,
    colsSize: nat,
    matrixes: map<FdnDimension, seq<seq<real>>>)

  /** The state `GenerateDelayValues(powers)` leaves: one delay per exponent, a bank of
      `dimension` zero rows as wide as the longest delay, and the default gain vectors of
      `dimension` entries. Dimension, gain and matrices stay. */
  function Regenerated(v: RevView, powers: seq<int>): (w: RevView)
    requires |powers| <= |v.primes|
  {
    var n := v.dimension.Size();
    var width := MaxOrZero(DelayValues(v.primes, powers));
    v.(delayValues := DelayValues(v.primes, powers),
       bVector := Repeat(n, BValue), cVector := Repeat(n, CValue),
       bank := Grid(n, width, 0.0), rowsSize := n, colsSize := width)
  }

  /** The state a new reverberator has for dimension `dim` and exponents `powers`. */
  function Initial(dim: FdnDimension, powers: seq<int>): (v: RevView)
    requires |powers| <= |PrimesVector|
  {
    Regenerated(RevView(PrimesVector, dim, [], DefaultGain, [], [], Grid(dim.Size(), dim.Size(), 0.0), dim.Size(), dim.Size(), map[]), powers)
      .(matrixes := MatrixTable())
  }

  /** What `Reverberate` reads of a reverberator besides its bank. */
  function ParamsOf(v: RevView): Params
    requires v.dimension in v.matrixes
  {
    Params(v.dimension.Size(), v.delayValues, v.bVector, v.cVector, v.matrixes[v.dimension])
  }

  /** A block of `blockLength` samples stays inside the bank of a reverberator in state `v`. */
  ghost predicate CanReverberate(v: RevView, blockLength: nat)
  {
    v.dimension in v.matrixes
    && Covers(ParamsOf(v)) && ParamsOf(v).n <= v.rowsSize
    && BlockOk(ParamsOf(v), v.colsSize, blockLength)
  }

  /** The state and the audio `Reverberate` leaves: the bank and the block after the network
      has run over the first `len` samples; everything else stays. */
  ghost function Processed(v: RevView, audio: seq<real>, drywet: real, len: nat): (RevView, seq<real>)
    requires RevOk(v) && CanReverberate(v, len) && len <= |audio|
  {
    GridIsRect(v.bank, v.rowsSize, v.colsSize);
    var run := Run(v.bank, audio, ParamsOf(v), drywet, len);
    (v.(bank := run.0), run.1)
  }

  /** `Reverberate` keeps the bank's shape and the matrix table. */
  lemma {:induction false} ProcessedOk(v: RevView, audio: seq<real>, drywet: real, len: nat)
    requires RevOk(v) && CanReverberate(v, len) && len <= |audio|
    ensures RevOk(Processed(v, audio, drywet, len).0)
    ensures |Processed(v, audio, drywet, len).1| == |audio|
  {
    GridIsRect(v.bank, v.rowsSize, v.colsSize);
    var bank := Processed(v, audio, drywet, len).0.bank;
    assert |bank| == v.rowsSize && Rect(bank) && Width(bank) == v.colsSize;
    forall r | 0 <= r < v.rowsSize ensures |bank[r]| == v.colsSize {
    }
  }

  /** A freshly built reverberator holds the exponents' delays, `dimension` rows of zeros as
      wide as the longest delay, gain vectors of `dimension` entries 1.0 and 0.8, and an
      all-zero mixing matrix of the right size. */
  lemma {:induction false} InitialState(dim: FdnDimension, powers: seq<int>)
    requires |powers| <= |PrimesVector|
    ensures var v := Initial(dim, powers);
      v.primes == PrimesVector && v.dimension == dim && v.dimension in v.matrixes &&
      |v.delayValues| == |powers|
      && (forall k :: 0 <= k < |powers| ==> v.delayValues[k] == DelayValue(PrimesVector[k], powers[k]))
      && v.rowsSize == dim.Size() && v.colsSize == MaxOrZero(v.delayValues)
      && (forall r, c :: 0 <= r < v.rowsSize && 0 <= c < v.colsSize ==> v.bank[r][c] == 0.0)
      && v.bVector == Repeat(dim.Size(), 1.0) && v.cVector == Repeat(dim.Size(), 0.8)
      && v.gain == 0.8
      && ParamsOf(v).mix == Grid(dim.Size(), dim.Size(), 0.0)
  {
    MatrixTableEntry(dim);
  }

  /** With its own exponents `{1, 2, 3, 4}` and four lines, a new reverberator cannot process
      even one sample inside its bank. */
  lemma {:induction false} DefaultReverberatorReadsOutside(len: nat)
    requires len >= 1
    ensures !CanReverberate(Initial(Matrix4d, [1, 2, 3, 4]), len)
  {
    var v := Initial(Matrix4d, [1, 2, 3, 4]);
    if CanReverberate(v, len) {
      DefaultPowersReadBeforeBank(ParamsOf(v), v.colsSize, len);
    }
  }

  /** The bank is a grid with the counters `Resize` sets, and the matrix table is the one the
      constructor builds. */
  ghost predicate RevOk(v: RevView)
  {
    IsGrid(v.bank, v.rowsSize, v.colsSize) && v.matrixes == MatrixTable()
  }

  class Reverberator {
    /** The table of primes the delays are powers of. */
    const primesVector: seq<nat> := PrimesVector
    var dimension: FdnDimension
    const delayLines: Matrix<real>
    var delayValues: seq<int>
    var gain: real
    var bVector: seq<real>
    var cVector: seq<real>
    var matrixes: map<FdnDimension, seq<seq<real>>>

    ghost predicate Valid()
      reads this, delayLines
    {
      RevOk(View())
    }

    ghost function View(): RevView
      reads this, delayLines
    {
      RevView(primesVector, dimension, delayValues, gain, bVector, cVector,
              delayLines.matrixVals, delayLines.rowsSize, delayLines.colsSize, matrixes)
    }

    /** Builds a square bank of `dim` zero rows, generates the delays from `powers` and
        registers the four mixing matrices. */
    constructor (dim: FdnDimension, powers: seq<int>)
      requires PowersOk(PrimesVector, powers)
      ensures Valid() && fresh(delayLines)
      ensures View() == Initial(dim, powers)
    {
      dimension := dim;
      delayLines := new Matrix(dim.Size(), dim.Size(), 0.0);
      delayValues := [];
      gain := DefaultGain;
      bVector := [];
      cVector := [];
      matrixes := map[];
      new;
      GenerateDelayValues(powers);
      ghost var generated := View();
      var m2 := NewHadamarMatrix(2, MatrixGain(Matrix2d));
      var m4 := NewHadamarMatrix(4, MatrixGain(Matrix4d));
      var m8 := NewHadamarMatrix(8, MatrixGain(Matrix8d));
      var m16 := NewHadamarMatrix(16, MatrixGain(Matrix16d));
      assert View() == generated;
      matrixes := map[Matrix2d := m2.matrixVals, Matrix4d := m4.matrixVals,
                       Matrix8d := m8.matrixVals, Matrix16d := m16.matrixVals];
      assert matrixes == MatrixTable();
    }

    /** Replaces the delays by the powers `primesVector[k]^powers[k]` in input order, rebuilds
        the bank as `dimension` zero rows as wide as the longest delay, and resets both gain
        vectors to `dimension` default entries. */
    method GenerateDelayValues(powers: seq<int>)
      requires PowersOk(primesVector, powers)
      modifies this, delayLines
      ensures delayLines.Shaped()
      ensures View() == Regenerated(old(View()), powers)
    {
      ghost var v0 := View();
      delayValues := [];
      var idxPrimes := 0;
      var maxDelay := 0;
      ghost var target := DelayValues(primesVector, powers);
      for k := 0 to |powers|
        invariant idxPrimes == k
        invariant delayValues == target[..k]
        invariant maxDelay == MaxOrZero(delayValues)
        invariant View() == v0.(delayValues := delayValues)
        modifies this
      {
        var newDelayValue := DelayValue(primesVector[idxPrimes], powers[k]);
        idxPrimes := idxPrimes + 1;
        MaxOrZeroAppend(delayValues, newDelayValue);
        assert target[..k + 1] == target[..k] + [newDelayValue];
        delayValues := delayValues + [newDelayValue];
        if newDelayValue > maxDelay {
          maxDelay := newDelayValue;
        }
      }
      assert delayValues == target;
      MaxOrZeroIsMax(delayValues);
      UpdateDelayLines(maxDelay);
      assert View() == v0.(delayValues := target, bank := Grid(dimension.Size(), maxDelay, 0.0), rowsSize := dimension.Size(), colsSize := maxDelay);
      SetBVector(Repeat(dimension.Size(), BValue));
      SetCVector(Repeat(dimension.Size(), CValue));
    }

    /** Rebuilds the bank as `dimension` rows of `maxDelayLength` zeros. */
    method UpdateDelayLines(maxDelayLength: nat)
      modifies delayLines
      ensures delayLines.Shaped()
      ensures View() == old(View()).(bank := Grid(dimension.Size(), maxDelayLength, 0.0),
                                     rowsSize := dimension.Size(), colsSize := maxDelayLength)
    {
      delayLines.Resize(dimension.Size(), maxDelayLength, 0.0);
    }

    /** Changes the dimension only: the delays, the bank and the gain vectors stay as they are. */
    method SetDimension(dim: FdnDimension)
      modifies this
      ensures View() == old(View()).(dimension := dim)
    {
      dimension := dim;
    }

    method SetGain(newGain: real)
      modifies this
      ensures View() == old(View()).(gain := newGain)
    {
      gain := newGain;
    }

    method SetBVector(b: seq<real>)
      modifies this
      ensures View() == old(View()).(bVector := b)
    {
      bVector := b;
    }

    method SetCVector(c: seq<real>)
      modifies this
      ensures View() == old(View()).(cVector := c)
    {
      cVector := c;
    }

    /** Runs the network over `audioData[0..blockLength)`. The write position starts at 0 on
        every call. Each sample reads, for each line `i`, the column `(idx - delay_i + N) % N`
        of the bank (C++ remainder), adds `c[i]` times line `i`'s tap to the output, writes
        `input * b[i]` plus the mix of that column into line `i` at column `idx`, and finally
        replaces the sample by the dry/wet blend. Only the audio block and the bank change. */
    method Reverberate(audioData: array<real>, blockLength: nat, drywet: real)
      requires Valid()
      requires blockLength <= audioData.Length
      requires CanReverberate(View(), blockLength)
      modifies audioData, delayLines
      ensures Valid()
      ensures var run := Run(old(delayLines.matrixVals), old(audioData[..]), ParamsOf(old(View())), drywet, blockLength);
        delayLines.matrixVals == run.0 && audioData[..] == run.1
      ensures View() == old(View()).(bank := delayLines.matrixVals)
      ensures (View(), audioData[..]) == Processed(old(View()), old(audioData[..]), drywet, blockLength)
    {
      MatrixTableEntry(dimension);
      var p := Params(dimension.Size(), delayValues, bVector, cVector, matrixes[dimension]);
      GridIsRect(delayLines.matrixVals, delayLines.rowsSize, delayLines.colsSize);
      RunBlock(p, audioData, blockLength, drywet);
    }

    /** The samples loop of `Reverberate`, with the parameters `p` read from the fields. */
    method RunBlock(p: NetParams, audioData: array<real>, blockLength: nat, drywet: real)
      requires delayLines.Shaped() && Rect(delayLines.matrixVals) && Width(delayLines.matrixVals) == delayLines.colsSize
      requires p.n <= |delayLines.matrixVals| && blockLength <= audioData.Length
      requires BlockOk(p, Width(delayLines.matrixVals), blockLength)
      modifies audioData, delayLines
      ensures delayLines.Shaped()
      ensures delayLines.rowsSize == old(delayLines.rowsSize) && delayLines.colsSize == old(delayLines.colsSize)
      ensures (delayLines.matrixVals, audioData[..]) == Run(old(delayLines.matrixVals), old(audioData[..]), p, drywet, blockLength)
    {
      ghost var bank0 := delayLines.matrixVals;
      ghost var audio0 := audioData[..];
      var idx := 0;
      for k := 0 to blockLength
        invariant idx == IdxAt(k, p.n)
        invariant delayLines.Shaped()
        invariant delayLines.rowsSize == old(delayLines.rowsSize) && delayLines.colsSize == old(delayLines.colsSize)
        invariant (delayLines.matrixVals, audioData[..]) == Run(bank0, audio0, p, drywet, k)
      {
        ProcessSample(p, audioData, k, idx, drywet, bank0, audio0);
        IdxAtNext(k, p.n);
        idx := TruncRem(idx + 1, p.n);
      }
    }

    /** Sample `k` of `Reverberate`: the lines loop on `audioData[k]` at write position `idx`,
        then the dry/wet blend stored back into `audioData[k]`. Before it the bank and the audio
        are those of `k` samples of `Run`; after it, those of `k + 1`. */
    method ProcessSample(p: NetParams, audioData: array<real>, k: nat, idx: int, drywet: real,
                         ghost bank0: seq<seq<real>>, ghost audio0: seq<real>)
      requires Rect(bank0) && p.n <= |bank0| && BlockOk(p, Width(bank0), k + 1) && k < |audio0|
      requires (delayLines.matrixVals, audioData[..]) == Run(bank0, audio0, p, drywet, k)
      requires delayLines.Shaped() && idx == IdxAt(k, p.n)
      modifies audioData, delayLines
      ensures delayLines.Shaped()
      ensures delayLines.rowsSize == old(delayLines.rowsSize) && delayLines.colsSize == old(delayLines.colsSize)
      ensures (delayLines.matrixVals, audioData[..]) == Run(bank0, audio0, p, drywet, k + 1)
    {
      RunLast(bank0, audio0, p, drywet, k + 1);
      var input := audioData[k];
      var output := ProcessLines(p, idx, input);
      audioData[k] := Blend(drywet, output, input);
    }

    /** The lines loop of one sample of `Reverberate`: for each line `i` in order, adds
        `c[i]` times its tap to the output and writes `input * b[i]` plus the mix of the tapped
        column into column `idx` of line `i`. Only the bank changes. */
    method ProcessLines(p: NetParams, idx: int, input: real) returns (output: real)
      requires delayLines.Shaped() && Rect(delayLines.matrixVals) && Width(delayLines.matrixVals) == delayLines.colsSize
      requires p.n <= |delayLines.matrixVals| && ColumnsOk(p, Width(delayLines.matrixVals), idx)
      modifies delayLines
      ensures delayLines.Shaped()
      ensures delayLines.rowsSize == old(delayLines.rowsSize) && delayLines.colsSize == old(delayLines.colsSize)
      ensures (delayLines.matrixVals, output) == Lines(old(delayLines.matrixVals), p, idx, input, p.n)
    {
      ghost var bank := delayLines.matrixVals;
      output := input;
      for i := 0 to p.n
        invariant delayLines.Shaped()
        invariant delayLines.rowsSize == old(delayLines.rowsSize) && delayLines.colsSize == old(delayLines.colsSize)
        invariant delayLines.matrixVals == Lines(bank, p, idx, input, i).0
        invariant output == Lines(bank, p, idx, input, i).1
      {
        ghost var prev := Lines(bank, p, idx, input, i);
        var delayedIdx := Tap(p, idx, i);
        output := output + p.c[i] * delayLines.Get(i, delayedIdx);
        var dotMultiplication := MixColumn(p, i, delayedIdx);
        LineStepIs(prev.0, prev.1, p, idx, input, i, input * p.b[i] + dotMultiplication);
        delayLines.Set(i, idx, input * p.b[i] + dotMultiplication);
      }
    }

    /** The innermost loop of `Reverberate`: the mix row `i` applied to column `col` of the
        bank. Nothing changes. */
    method MixColumn(p: NetParams, i: nat, col: int) returns (dot: real)
      requires Rect(delayLines.matrixVals) && p.n <= |delayLines.matrixVals|
      requires 0 <= col < Width(delayLines.matrixVals) && i < p.n
      ensures dot == MixSum(delayLines.matrixVals, p, i, col, p.n)
    {
      dot := 0.0;
      for j := 0 to p.n
        invariant dot == MixSum(delayLines.matrixVals, p, i, col, j)
      {
        dot := dot + delayLines.Get(j, col) * p.mix[i][j];
      }
    }
  }
}
