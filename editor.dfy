/** The editor side of the plug-in that drives the processor: the messages the components post
    to the main component, the slider value correction, the matrix buttons, the delay sliders,
    and the main component's handling of messages. */
module Editor {
  import opened CppArith
  import opened Matrices
  import opened FdnSpec
  import opened Processor

  /** The largest value of a delay slider. */
  const MaxDelayValue: int := 10

  /** A message to the main component: a new dimension, or new delay exponents. */
  datatype Message = MatrixMessage(dim: FdnDimension) | DelaysMessage(delays: seq<int>)

  /** `correctSliderValue`: the C++ remainder by `MaxDelayValue`, with 0 replaced by
      `MaxDelayValue` itself. */
  function CorrectSliderValue(value: int): (r: int)
    ensures value >= 0 ==> 1 <= r <= MaxDelayValue
    ensures value < 0 ==> -MaxDelayValue < r <= MaxDelayValue && r != 0
    ensures 1 <= value <= MaxDelayValue ==> r == value
  {
    var newValue := TruncRem(value, MaxDelayValue);
    if newValue != 0 then newValue else MaxDelayValue
  }

  /** On a non-negative value the correction is the remainder counted from 1:
      `(value - 1) mod 10 + 1`, so 0, 10, 20, ... all give 10. */
  lemma {:induction false} CorrectSliderValueIsShiftedMod(value: int)
    requires value >= 0
    ensures CorrectSliderValue(value) == (value - 1) % MaxDelayValue + 1
  {
    TruncRemIsMod(value, MaxDelayValue);
    var q := (value - 1) / MaxDelayValue;
    var m := (value - 1) % MaxDelayValue;
    assert value == q * MaxDelayValue + m + 1;
    if m == MaxDelayValue - 1 {
      ModUnique(value, MaxDelayValue, q + 1, 0);
    } else {
      ModUnique(value, MaxDelayValue, q, m + 1);
    }
  }

  /** Correcting a corrected value changes nothing. */
  lemma {:induction false} CorrectSliderValueIdempotent(value: int)
    ensures CorrectSliderValue(CorrectSliderValue(value)) == CorrectSliderValue(value)
  {
    var r := CorrectSliderValue(value);
    if r < 0 {
      TruncRemIsMod(r, MaxDelayValue);
      ModUnique(-r, MaxDelayValue, 0, -r);
    }
  }

  /** The dimensions of the four matrix buttons, in the order the component creates them. */
  const ButtonDimensions: seq<FdnDimension> := [Matrix2d, Matrix4d, Matrix8d, Matrix16d]

  /** The dimension a click on button `button` selects: that button's dimension, or the
      current one for any other button. */
  function ClickedDimension(button: nat, current: FdnDimension): (d: FdnDimension)
    ensures button < |ButtonDimensions| ==> d.Size() == Pow(2, button + 1)
    ensures button >= |ButtonDimensions| ==> d == current
  {
    if button < |ButtonDimensions| then ButtonDimensions[button] else current
  }

  /** The component with the four dimension buttons. */
  class MatrixComponent {
    var currentMatrixDim: FdnDimension
    /** The messages posted to the main component, oldest first. */
    var posted: seq<Message>

    /** The last message posted names the current dimension, and no message repeats the one
        before it. */
    ghost predicate Valid()
      reads this
    {
      (|posted| > 0 ==> posted[|posted| - 1] == MatrixMessage(currentMatrixDim))
      && forall i :: 0 < i < |posted| ==> posted[i - 1] != posted[i]
    }

    constructor (matrixDim: FdnDimension)
      ensures Valid()
      ensures currentMatrixDim == matrixDim && posted == []
    {
      currentMatrixDim := matrixDim;
      posted := [];
    }

    /** `buttonClicked`: a click selecting the current dimension does nothing; any other posts
        a matrix message with the new dimension and makes it the current one. */
    method ButtonClicked(button: nat)
      requires Valid()
      modifies this
      ensures Valid()
      ensures var d := ClickedDimension(button, old(currentMatrixDim));
        if d == old(currentMatrixDim) then currentMatrixDim == old(currentMatrixDim) && posted == old(posted)
        else currentMatrixDim == d && posted == old(posted) + [MatrixMessage(d)]
    {
      var newMatrix := ClickedDimension(button, currentMatrixDim);
      if currentMatrixDim == newMatrix {
        return;
      }
      posted := posted + [MatrixMessage(newMatrix)];
      currentMatrixDim := newMatrix;
    }
  }

  /** The component with one slider per delay line and the randomize and apply buttons. */
  class DelayComponent {
    const processor: AudioProcessor
    /** The values of the sliders, in line order. */
    var sliders: seq<int>
    /** The messages posted to the main component, oldest first. */
    var posted: seq<Message>

    /** One slider per delay, each showing the corrected delay. */
    constructor (inProcessor: AudioProcessor, delays: seq<int>)
      ensures processor == inProcessor && posted == []
      ensures |sliders| == |delays|
      ensures forall i :: 0 <= i < |delays| ==> sliders[i] == CorrectSliderValue(delays[i])
    {
      processor := inProcessor;
      posted := [];
      sliders := [];
      new;
      for i := 0 to |delays|
        invariant processor == inProcessor && posted == [] && |sliders| == i
        invariant forall k :: 0 <= k < i ==> sliders[k] == CorrectSliderValue(delays[k])
      {
        sliders := sliders + [CorrectSliderValue(delays[i])];
      }
    }

    /** `randomizeSliders`: each slider takes the correction of its own draw of `std::rand`,
        which the caller passes in `draws`, one per slider; like `std::rand`'s results, the draws
        are never negative, so every slider ends up between 1 and `MaxDelayValue`. */
    method RandomizeSliders(draws: seq<int>)
      requires |draws| == |sliders|
      requires forall i :: 0 <= i < |draws| ==> 0 <= draws[i]
      modifies this
      ensures |sliders| == |draws| && posted == old(posted)
      ensures forall i :: 0 <= i < |draws| ==> sliders[i] == CorrectSliderValue(draws[i])
      ensures forall i :: 0 <= i < |draws| ==> 1 <= sliders[i] <= MaxDelayValue
    {
      for i := 0 to |sliders|
        invariant |sliders| == |draws| && posted == old(posted)
        invariant forall k :: 0 <= k < i ==> sliders[k] == CorrectSliderValue(draws[k])
      {
        sliders := sliders[i := CorrectSliderValue(draws[i])];
      }
    }

    /** `updateSliders`: forbids processing and rebuilds one slider per entry of `inDelays`,
        every one set to the correction of `MaxDelayValue`, whatever the entries hold. */
    method UpdateSliders(inDelays: seq<int>)
      requires processor.Valid()
      modifies this, processor
      ensures processor.Valid()
      ensures processor.Fields() == After(old(processor.Fields()), Call.SetProcessingFlag(Forbidden))
      ensures processor.reverberators == old(processor.reverberators) && processor.Repr == old(processor.Repr)
      ensures sliders == Repeat(|inDelays|, MaxDelayValue) && posted == old(posted)
    {
      processor.SetProcessingFlag(Forbidden);
      var newSliders := [];
      for i := 0 to |inDelays|
        invariant newSliders == Repeat(i, MaxDelayValue)
      {
        newSliders := newSliders + [CorrectSliderValue(MaxDelayValue)];
      }
      sliders := newSliders;
    }

    /** `sendMessage`: posts the slider values, in order, as a delays message. */
    method SendMessage()
      modifies this
      ensures sliders == old(sliders) && posted == old(posted) + [DelaysMessage(sliders)]
    {
      var delays := [];
      for i := 0 to |sliders|
        invariant delays == sliders[..i]
      {
        delays := delays + [sliders[i]];
      }
      assert delays == sliders;
      posted := posted + [DelaysMessage(delays)];
    }

    /** `sliderValueChanged`: moving any slider forbids processing. */
    method SliderValueChanged()
      requires processor.Valid()
      modifies processor
      ensures processor.Valid()
      ensures processor.Fields() == After(old(processor.Fields()), Call.SetProcessingFlag(Forbidden))
      ensures processor.reverberators == old(processor.reverberators) && processor.Repr == old(processor.Repr)
    {
      processor.SetProcessingFlag(Forbidden);
    }
  }

  /** The processor calls `handleMessage` makes for a matrix message with dimension `dim`, when
      `updateDelays` leaves the delays `delays`. */
  function MatrixCalls(dim: FdnDimension, delays: seq<int>): seq<Call>
  {
    [Call.SetDimension(dim), Call.SetProcessingFlag(Forbidden), Call.SetDelayPowers(delays),
     Call.SetProcessingFlag(Allowed)]
  }

  /** The processor calls `handleMessage` makes for a delays message. */
  function DelaysCalls(delays: seq<int>): seq<Call>
  {
    [Call.SetDelayPowers(delays), Call.SetProcessingFlag(Allowed)]
  }

  /** The calls of a matrix message, replayed one after the other. */
  lemma {:induction false} MatrixCallsSteps(c: Controls, dim: FdnDimension, delays: seq<int>)
    ensures Replay(c, MatrixCalls(dim, delays))
      == After(After(After(After(c, Call.SetDimension(dim)), Call.SetProcessingFlag(Forbidden)),
                     Call.SetDelayPowers(delays)), Call.SetProcessingFlag(Allowed))
  {
    var a, b, d, e := Call.SetDimension(dim), Call.SetProcessingFlag(Forbidden), Call.SetDelayPowers(delays), Call.SetProcessingFlag(Allowed);
    assert [a] == [] + [a];
    ReplayAppend(c, [], a);
    assert [a, b] == [a] + [b];
    ReplayAppend(c, [a], b);
    assert [a, b, d] == [a, b] + [d];
    ReplayAppend(c, [a, b], d);
    assert [a, b, d, e] == [a, b, d] + [e];
    ReplayAppend(c, [a, b, d], e);
  }

  /** The calls of a delays message, replayed one after the other. */
  lemma {:induction false} DelaysCallsSteps(c: Controls, delays: seq<int>)
    ensures Replay(c, DelaysCalls(delays))
      == After(After(c, Call.SetDelayPowers(delays)), Call.SetProcessingFlag(Allowed))
  {
    var a, b := Call.SetDelayPowers(delays), Call.SetProcessingFlag(Allowed);
    assert [a] == [] + [a];
    ReplayAppend(c, [], a);
    assert [a, b] == [a] + [b];
    ReplayAppend(c, [a], b);
  }

  /** After a matrix message the processor holds the new dimension and the resized delays with
      the flag allowed, still pending; as there are as many delays as lines, the next block
      makes it run. */
  lemma {:induction false} MatrixMessageThenRuns(c: Controls, dim: FdnDimension, delays: seq<int>)
    requires |delays| == dim.Size()
    ensures Replay(c, MatrixCalls(dim, delays))
      == c.(dimension := dim, powers := delays, flag := Allowed, state := Pending)
    ensures Replay(c, MatrixCalls(dim, delays) + [Call.ProcessBlock]).state == Running
  {
    MatrixCallsSteps(c, dim, delays);
    ReplayAppend(c, MatrixCalls(dim, delays), Call.ProcessBlock);
  }

  /** After a delays message the processor holds the new exponents with the flag allowed, still
      pending; the next block makes it run exactly when there is one exponent per line. */
  lemma {:induction false} DelaysMessageThenRuns(c: Controls, delays: seq<int>)
    ensures Replay(c, DelaysCalls(delays)) == c.(powers := delays, flag := Allowed, state := Pending)
    ensures Replay(c, DelaysCalls(delays) + [Call.ProcessBlock]).state == Running
      <==> |delays| == c.dimension.Size()
  {
    DelaysCallsSteps(c, delays);
    ReplayAppend(c, DelaysCalls(delays), Call.ProcessBlock);
  }

  /** The component that owns the delays and the dimension, receives the messages, and forwards
      them to the processor. */
  class MainComponent {
    var delays: seq<int>
    var matrixDim: FdnDimension
    const matrixComp: MatrixComponent
    const delayComp: DelayComponent
    const processor: AudioProcessor

    /** The processor is valid and shared with the delay component, no component belongs to it,
        and the delays give delays that fit an `int`. */
    ghost predicate Valid()
      reads this, processor, processor.Repr, delayComp
    {
      processor.Valid() && delayComp.processor == processor
      && this !in processor.Repr && delayComp !in processor.Repr && matrixComp !in processor.Repr
      && PowersOk(PrimesVector, delays)
    }

    /** Starts with four delays of 0 and dimension 4, builds the components from them and passes
        both to the processor. */
    constructor (inProcessor: AudioProcessor)
      requires inProcessor.Valid()
      modifies inProcessor, inProcessor.Repr
      ensures Valid() && processor == inProcessor
      ensures delays == [0, 0, 0, 0] && matrixDim == Matrix4d
      ensures matrixComp.currentMatrixDim == Matrix4d && matrixComp.posted == []
      ensures delayComp.sliders == Repeat(4, MaxDelayValue) && delayComp.posted == []
      ensures processor.Fields()
        == After(After(old(inProcessor.Fields()), Call.SetDimension(Matrix4d)), Call.SetDelayPowers([0, 0, 0, 0]))
    {
      delays := [0, 0, 0, 0];
      matrixDim := Matrix4d;
      matrixComp := new MatrixComponent(Matrix4d);
      delayComp := new DelayComponent(inProcessor, [0, 0, 0, 0]);
      processor := inProcessor;
      new;
      assert delayComp.sliders == Repeat(4, MaxDelayValue);
      processor.SetDimension(matrixDim);
      processor.SetDelayPowers(delays);
    }

    /** `handleMessage`: a matrix message stores the dimension, passes it to the processor and
        resizes the delays; a delays message stores the delays and passes them to the
        processor. Either way processing is allowed again at the end. */
    method HandleMessage(m: Message)
      requires Valid()
      requires m.DelaysMessage? ==> PowersOk(PrimesVector, m.delays)
      modifies this, delayComp, processor, processor.Repr
      ensures Valid() && delayComp.posted == old(delayComp.posted)
      ensures m.MatrixMessage? ==>
        matrixDim == m.dim && Resized(old(delays), delays, m.dim.Size())
        && delayComp.sliders == Repeat(m.dim.Size(), MaxDelayValue)
        && processor.Fields() == Replay(old(processor.Fields()), MatrixCalls(m.dim, delays))
      ensures m.DelaysMessage? ==>
        matrixDim == old(matrixDim) && delays == m.delays && delayComp.sliders == old(delayComp.sliders)
        && processor.Fields() == Replay(old(processor.Fields()), DelaysCalls(m.delays))
    {
      match m
      case MatrixMessage(dim) =>
        matrixDim := dim;
        processor.SetDimension(matrixDim);
        UpdateDelays();
        processor.SetProcessingFlag(Allowed);
        MatrixCallsSteps(old(processor.Fields()), dim, delays);
      case DelaysMessage(info) =>
        delays := info;
        processor.SetDelayPowers(delays);
        processor.SetProcessingFlag(Allowed);
        DelaysCallsSteps(old(processor.Fields()), info);
    }

    /** `updateDelays`: drops delays from the end, or appends delays of 1, until there is one per
        line of `matrixDim`; rebuilds the sliders and passes the delays to the processor. */
    method UpdateDelays()
      requires Valid()
      modifies this, delayComp, processor, processor.Repr
      ensures Valid() && matrixDim == old(matrixDim) && delayComp.posted == old(delayComp.posted)
      ensures Resized(old(delays), delays, matrixDim.Size())
      ensures delayComp.sliders == Repeat(matrixDim.Size(), MaxDelayValue)
      ensures processor.Fields()
        == After(After(old(processor.Fields()), Call.SetProcessingFlag(Forbidden)), Call.SetDelayPowers(delays))
    {
      var necessaryDelaysQuantity := matrixDim.Size();
      ghost var delays0 := delays;
      if necessaryDelaysQuantity < |delays| {
        while |delays| != necessaryDelaysQuantity
          invariant necessaryDelaysQuantity <= |delays| <= |delays0|
          modifies this
          invariant matrixDim == old(matrixDim)
          invariant delays == delays0[..|delays|]
          decreases |delays|
        {
          delays := delays[..|delays| - 1];
        }
      }
      if necessaryDelaysQuantity > |delays| {
        while |delays| != necessaryDelaysQuantity
          invariant |delays0| <= |delays| <= necessaryDelaysQuantity
          modifies this
          invariant matrixDim == old(matrixDim)
          invariant delays == delays0 + Repeat(|delays| - |delays0|, 1)
          decreases necessaryDelaysQuantity - |delays|
        {
          delays := delays + [1];
        }
      }
      ResizedPowersOk(delays0, delays, necessaryDelaysQuantity);
      delayComp.UpdateSliders(delays);
      processor.SetDelayPowers(delays);
    }
  }

  /** `after` is `before` cut or extended to `n` entries: the common prefix stays and every
      added entry is 1. */
  ghost predicate Resized(before: seq<int>, after: seq<int>, n: nat)
  {
    |after| == n
    && (forall i :: 0 <= i < |before| && i < n ==> after[i] == before[i])
    && (forall i :: |before| <= i < n ==> after[i] == 1)
  }

  /** Resizing to at most 16 lines keeps the exponents' delays inside `int`: kept entries are
      unchanged and an added 1 gives a prime below 2^31. */
  lemma {:induction false} ResizedPowersOk(before: seq<int>, after: seq<int>, n: nat)
    requires PowersOk(PrimesVector, before) && n <= 16
    requires (n <= |before| && after == before[..n]) || (|before| <= n && after == before + Repeat(n - |before|, 1))
    ensures Resized(before, after, n) && PowersOk(PrimesVector, after)
  {
    forall k | 0 <= k < |after| ensures DelayValue(PrimesVector[k], after[k]) < 0x8000_0000 {
      if k >= |before| {
        assert after[k] == 1;
      }
    }
  }
}
