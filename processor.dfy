/** The audio processor of the plug-in: one reverberator per input channel, the processing
    gate (a two-state machine driven by a flag and by whether the number of exponents matches
    the dimension), the setters the editor calls, and the channel loop of `processBlock`. */
module Processor {
  import opened CppArith
  import opened Matrices
  import opened FdnSpec
  import opened Reverb

  /** `ProcessingFlag`, an enum class whose two values are `false` and `true`. */
  datatype ProcessingFlag = Forbidden | Allowed
  {
    function AsBool(): bool
    {
      this == Allowed
    }
  }

  datatype ProcessingState = Pending | Running

  /** The default arguments of the processor's constructor. */
  const DefaultDimension: FdnDimension := Matrix4d
  const DefaultPowers: seq<int> := [1, 2, 3, 4]

  /** The processor's own fields (its reverberators aside). */
  datatype Controls = Controls(
    state: ProcessingState,
    flag: ProcessingFlag,
    dimension: FdnDimension,
    powers: seq<int>,
    channelsNum: int,
    blockLength: int,
    drywet: real)

  /** `checkProcessingState`: with the flag allowed the state becomes running exactly when
      there are as many exponents as lines; with the flag forbidden nothing changes. */
  function Checked(c: Controls): Controls
  {
    if c.flag == Allowed then
      c.(state := if |c.powers| == c.dimension.Size() then Running else Pending)
    else c
  }

  /** The check changes the state only, and leaves it running exactly when the flag is allowed
      and the counts match, or the flag is forbidden and it was running already. */
  lemma {:induction false} CheckedState(c: Controls)
    ensures Checked(c) == c.(state := Checked(c).state)
    ensures Checked(c).state == Running
        <==> (c.flag == Allowed && |c.powers| == c.dimension.Size()) || (c.flag == Forbidden && c.state == Running)
  {
  }

  /** The fields a new processor has once its constructor has run. */
  function InitialControls(dim: FdnDimension, pow: seq<int>, channels: int): Controls
  {
    Checked(Controls(Pending, Allowed, dim, pow, channels, 0, 0.5))
  }

  /** A new processor starts with the flag allowed, a block length of 0 and a dry/wet ratio of
      0.5; it is running exactly when the exponents match the dimension. With the default
      arguments it is running. */
  lemma {:induction false} InitialControlsAre(dim: FdnDimension, pow: seq<int>, channels: int)
    ensures var c := InitialControls(dim, pow, channels);
      c.flag == Allowed && c.blockLength == 0 && c.drywet == 0.5
      && c.dimension == dim && c.powers == pow && c.channelsNum == channels
      && (c.state == Running <==> |pow| == dim.Size())
    ensures InitialControls(DefaultDimension, DefaultPowers, channels).state == Running
  {
  }

  /** The calls the editor and the host make on the processor, as far as its own fields go. */
  datatype Call =
    | SetDimension(dim: FdnDimension)
    | SetDelayPowers(pow: seq<int>)
    | SetProcessingFlag(f: ProcessingFlag)
    | SetDryWet(x: real)
    | PrepareToPlay(samplesPerBlock: int)
    | ProcessBlock

  /** The fields after one call. `setDimension` and `setDelayPowers` pend the state, store
      their argument and re-check; `setProcessingFlag` pends the state without a check;
      `processBlock` checks. */
  function After(c: Controls, call: Call): Controls
  {
    match call
    case SetDimension(dim) => Checked(c.(state := Pending, dimension := dim))
    case SetDelayPowers(pow) => Checked(c.(state := Pending, powers := pow))
    case SetProcessingFlag(f) => c.(flag := f, state := Pending)
    case SetDryWet(x) => c.(drywet := x)
    case PrepareToPlay(n) => c.(blockLength := n)
    case ProcessBlock => Checked(c)
  }

  /** The fields after a sequence of calls, in order. */
  function Replay(c: Controls, calls: seq<Call>): Controls
    decreases |calls|
  {
    if |calls| == 0 then c else Replay(After(c, calls[0]), calls[1..])
  }

  /** The gate invariant: the processor only runs with the flag allowed and as many exponents
      as lines. */
  ghost predicate GateOk(c: Controls)
  {
    c.state == Running ==> c.flag == Allowed && |c.powers| == c.dimension.Size()
  }

  lemma {:induction false} InitialGateOk(dim: FdnDimension, pow: seq<int>, channels: int)
    ensures GateOk(InitialControls(dim, pow, channels))
  {
  }

  lemma {:induction false} AfterKeepsGate(c: Controls, call: Call)
    requires GateOk(c)
    ensures GateOk(After(c, call))
  {
  }

  /** Every sequence of calls keeps the gate invariant. */
  lemma {:induction false} ReplayKeepsGate(c: Controls, calls: seq<Call>)
    requires GateOk(c)
    ensures GateOk(Replay(c, calls))
    decreases |calls|
  {
    if |calls| > 0 {
      AfterKeepsGate(c, calls[0]);
      ReplayKeepsGate(After(c, calls[0]), calls[1..]);
    }
  }

  /** Replaying one more call is one more step after the replay. */
  lemma {:induction false} ReplayAppend(c: Controls, calls: seq<Call>, call: Call)
    ensures Replay(c, calls + [call]) == After(Replay(c, calls), call)
    decreases |calls|
  {
    if |calls| == 0 {
      assert calls + [call] == [call];
      assert [call][1..] == [];
    } else {
      assert (calls + [call])[1..] == calls[1..] + [call];
      ReplayAppend(After(c, calls[0]), calls[1..], call);
    }
  }

  /** Under the gate invariant, `processBlock` goes past its check exactly when the flag is
      allowed and the exponent count equals the dimension. */
  lemma {:induction false} ProcessBlockRunsIff(c: Controls)
    requires GateOk(c)
    ensures Checked(c).state == Running <==> c.flag == Allowed && |c.powers| == c.dimension.Size()
  {
  }

  /** Once the flag is forbidden, no call but `setProcessingFlag(allowed)` lets the processor
      run: the state stays pending and the flag forbidden. */
  lemma {:induction false} ForbiddenStaysPending(c: Controls, calls: seq<Call>)
    requires c.flag == Forbidden && c.state == Pending
    requires forall i :: 0 <= i < |calls| ==> calls[i] != SetProcessingFlag(Allowed)
    ensures Replay(c, calls).state == Pending && Replay(c, calls).flag == Forbidden
    decreases |calls|
  {
    if |calls| > 0 {
      var next := After(c, calls[0]);
      assert next.flag == Forbidden && next.state == Pending;
      assert forall i :: 0 <= i < |calls[1..]| ==> calls[1..][i] == calls[i + 1];
      ForbiddenStaysPending(next, calls[1..]);
    }
  }

  /** `setDelayPowers` regenerates the reverberators from the exponents it replaces: starting
      from `{1, 2, 3, 4}`, the call with `{2, 2, 2, 2}` leaves the delays 2, 9, 125 and 2401
      while the stored exponents would give 4, 9, 25 and 49. */
  lemma {:induction false} DelayPowersLag(v: RevView)
    requires v.primes == PrimesVector
    ensures Regenerated(v, [1, 2, 3, 4]).delayValues == [2, 9, 125, 2401]
    ensures DelayValues(PrimesVector, [2, 2, 2, 2]) == [4, 9, 25, 49]
  {
    DefaultDelays();
    var d := DelayValues(PrimesVector, [2, 2, 2, 2]);
    assert d[0] == Pow(2, 2) == 4;
    assert d[1] == Pow(3, 2) == 9;
    assert d[2] == Pow(5, 2) == 25;
    assert d[3] == Pow(7, 2) == 49;
  }

  /** The reverberators after `setDimension(dim)`: the first `n` take the new dimension, the
      others stay as they are. */
  function WithDimension(vs: seq<RevView>, n: int, dim: FdnDimension): (ws: seq<RevView>)
    ensures |ws| == |vs|
  {
    seq(|vs|, k requires 0 <= k < |vs| => if k < n then vs[k].(dimension := dim) else vs[k])
  }

  /** The reverberators after `setDelayPowers`: the first `n` are regenerated from `powers`,
      the others stay as they are. */
  function WithPowers(vs: seq<RevView>, n: int, powers: seq<int>): (ws: seq<RevView>)
    requires forall k :: 0 <= k < |vs| ==> |powers| <= |vs[k].primes|
    ensures |ws| == |vs|
  {
    seq(|vs|, k requires 0 <= k < |vs| => if k < n then Regenerated(vs[k], powers) else vs[k])
  }

  /** One more reverberator taking the new dimension extends the prefix by one. */
  lemma {:induction false} WithDimensionStep(vs: seq<RevView>, i: int, dim: FdnDimension)
    requires 0 <= i < |vs|
    ensures WithDimension(vs, i, dim)[i := vs[i].(dimension := dim)] == WithDimension(vs, i + 1, dim)
  {
    var a := WithDimension(vs, i, dim)[i := vs[i].(dimension := dim)];
    var b := WithDimension(vs, i + 1, dim);
    assert |a| == |b|;
    forall k | 0 <= k < |a| ensures a[k] == b[k] {
    }
  }

  /** One more reverberator regenerated extends the prefix by one. */
  lemma {:induction false} WithPowersStep(vs: seq<RevView>, i: int, powers: seq<int>)
    requires forall k :: 0 <= k < |vs| ==> |powers| <= |vs[k].primes|
    requires 0 <= i < |vs|
    ensures WithPowers(vs, i, powers)[i := Regenerated(vs[i], powers)] == WithPowers(vs, i + 1, powers)
  {
    var a := WithPowers(vs, i, powers)[i := Regenerated(vs[i], powers)];
    var b := WithPowers(vs, i + 1, powers);
    assert |a| == |b|;
    forall k | 0 <= k < |a| ensures a[k] == b[k] {
    }
  }

  /** Every reverberator of `rs`, and its bank, is in `repr`. */
  ghost predicate Held(rs: seq<Reverberator>, repr: set<object>)
  {
    forall k :: 0 <= k < |rs| ==> rs[k] in repr && rs[k].delayLines in repr
  }

  /** The state of every reverberator, in channel order. */
  ghost function ViewsOf(rs: seq<Reverberator>, repr: set<object>): (vs: seq<RevView>)
    reads repr
    requires Held(rs, repr)
    ensures |vs| == |rs|
    ensures forall k :: 0 <= k < |rs| ==> vs[k] == rs[k].View()
  {
    seq(|rs|, k requires 0 <= k < |rs|
      reads if 0 <= k < |rs| then {rs[k], rs[k].delayLines} else {}
      => rs[k].View())
  }

  /** Every reverberator state has a well-shaped bank and the constructor's matrix table. */
  ghost predicate AllOk(vs: seq<RevView>)
  {
    forall k :: 0 <= k < |vs| ==> RevOk(vs[k])
  }

  /** Storing a new dimension keeps every reverberator state well-formed. */
  lemma {:induction false} WithDimensionKeepsOk(vs: seq<RevView>, n: int, dim: FdnDimension)
    requires AllOk(vs)
    ensures AllOk(WithDimension(vs, n, dim))
  {
    var ws := WithDimension(vs, n, dim);
    forall k | 0 <= k < |ws| ensures RevOk(ws[k]) {
      assert RevOk(vs[k]);
    }
  }

  /** Regenerating the delays keeps every reverberator state well-formed. */
  lemma {:induction false} WithPowersKeepsOk(vs: seq<RevView>, n: int, powers: seq<int>)
    requires forall k :: 0 <= k < |vs| ==> |powers| <= |vs[k].primes|
    requires AllOk(vs)
    ensures AllOk(WithPowers(vs, n, powers))
  {
    var ws := WithPowers(vs, n, powers);
    forall k | 0 <= k < |ws| ensures RevOk(ws[k]) {
      assert RevOk(vs[k]);
    }
  }

  /** New reverberators have well-formed states. */
  lemma {:induction false} InitialOk(dim: FdnDimension, pow: seq<int>, n: nat)
    requires |pow| <= |PrimesVector|
    ensures RevOk(Initial(dim, pow)) && AllOk(Repeat(n, Initial(dim, pow)))
  {
    assert RevOk(Initial(dim, pow));
  }

  /** The reverberators are distinct objects with distinct banks. */
  ghost predicate Separate(rs: seq<Reverberator>)
  {
    forall i, j :: 0 <= i < j < |rs| ==> rs[i] != rs[j] && rs[i].delayLines != rs[j].delayLines
  }

  /** The contents of the host's channel buffers. */
  ghost function Contents(buffer: seq<array<real>>): (cs: seq<seq<real>>)
    reads buffer
    ensures |cs| == |buffer|
    ensures forall ch :: 0 <= ch < |buffer| ==> cs[ch] == buffer[ch][..]
  {
    seq(|buffer|, ch requires 0 <= ch < |buffer| reads buffer => buffer[ch][..])
  }

  /** The host's channel buffers are distinct arrays. */
  ghost predicate Disjoint(buffer: seq<array<real>>)
  {
    forall i, j :: 0 <= i < j < |buffer| ==> buffer[i] != buffer[j]
  }

  /** None of the host's channel buffers belongs to the processor. */
  ghost predicate Outside(buffer: seq<array<real>>, repr: set<object>)
  {
    forall ch :: 0 <= ch < |buffer| ==> buffer[ch] !in repr
  }

  /** What `processBlock` reads of the processor's fields for every channel: the state a new
      reverberator starts with, the dry/wet ratio, and the block length as `unsigned`. */
  datatype Block = Block(newView: RevView, drywet: real, len: nat)

  ghost function BlockOf(c: Controls): Block
    requires |c.powers| <= |PrimesVector| && -0x8000_0000 <= c.blockLength < 0x8000_0000
  {
    Block(Initial(c.dimension, c.powers), c.drywet, ToUnsigned(c.blockLength))
  }

  /** The reverberator state channel `ch` starts a block with: its own, or a new one for a
      channel without one yet. */
  function StartView(vs: seq<RevView>, ch: nat, b: Block): RevView
  {
    if ch < |vs| then vs[ch] else b.newView
  }

  /** The reverberators once channel `ch` has one: a new one joins the end when it has none. */
  function Pushed(vs: seq<RevView>, ch: nat, b: Block): seq<RevView>
  {
    if ch < |vs| then vs else vs + [b.newView]
  }

  /** A reverberator in state `v` can run over `audio`: the block fits the buffer and the
      network reads inside the bank. */
  ghost predicate Fits(v: RevView, audio: seq<real>, b: Block)
  {
    RevOk(v) && b.len <= |audio| && CanReverberate(v, b.len)
  }

  /** One channel of the block: the state and the audio after `Reverberate`. A channel that
      does not fit is left as it is; `ProcessBlock` requires that none does. */
  ghost function ChannelRun(v: RevView, audio: seq<real>, b: Block): (RevView, seq<real>)
  {
    if Fits(v, audio, b) then Processed(v, audio, b.drywet, b.len) else (v, audio)
  }

  /** Every one of the first `numIn` channels fits. */
  ghost predicate BlockReady(vs: seq<RevView>, audios: seq<seq<real>>, numIn: nat, b: Block)
  {
    numIn <= |audios| && forall ch :: 0 <= ch < numIn ==> Fits(StartView(vs, ch, b), audios[ch], b)
  }

  /** The reverberator states once the first `m` channels are processed, one channel after
      the other: each gets a new reverberator if it has none, then runs over its block. */
  ghost function ViewsAfter(vs: seq<RevView>, audios: seq<seq<real>>, b: Block, m: nat): (ws: seq<RevView>)
    requires m <= |audios|
    ensures |ws| == if m <= |vs| then |vs| else m
  {
    if m == 0 then vs
    else
      var w := ViewsAfter(vs, audios, b, m - 1);
      Pushed(w, m - 1, b)[m - 1 := ChannelRun(StartView(w, m - 1, b), audios[m - 1], b).0]
  }

  /** The channel buffers once the first `m` channels are processed. */
  ghost function AudiosAfter(vs: seq<RevView>, audios: seq<seq<real>>, b: Block, m: nat): (outs: seq<seq<real>>)
    requires m <= |audios|
    ensures |outs| == |audios|
  {
    if m == 0 then audios
    else
      AudiosAfter(vs, audios, b, m - 1)[m - 1 := ChannelRun(StartView(ViewsAfter(vs, audios, b, m - 1), m - 1, b), audios[m - 1], b).1]
  }

  /** The channel buffers with channels `from` up to `to` cleared, one after the other. */
  function Cleared(audios: seq<seq<real>>, from: nat, to: nat): (outs: seq<seq<real>>)
    requires to <= |audios|
    ensures |outs| == |audios|
  {
    if to <= from then audios
    else Cleared(audios, from, to - 1)[to - 1 := Repeat(|audios[to - 1]|, 0.0)]
  }

  /** Before channel `m` runs, the first `m` reverberators hold the states their channels
      reached, the others keep theirs, and every channel so far has one; so channel `m` starts
      from the state it had before the block. */
  lemma {:induction false} ViewsAfterIs(vs: seq<RevView>, audios: seq<seq<real>>, b: Block, m: nat)
    requires m <= |audios|
    ensures forall k :: 0 <= k < m ==>
      ViewsAfter(vs, audios, b, m)[k] == ChannelRun(StartView(vs, k, b), audios[k], b).0
    ensures forall k :: m <= k < |vs| ==> ViewsAfter(vs, audios, b, m)[k] == vs[k]
  {
    if m > 0 {
      ViewsAfterIs(vs, audios, b, m - 1);
      var w := ViewsAfter(vs, audios, b, m - 1);
      assert StartView(w, m - 1, b) == StartView(vs, m - 1, b);
    }
  }

  /** After `m` channels, the processed ones hold their reverberators' output and the others
      their input. */
  lemma {:induction false} AudiosAfterIs(vs: seq<RevView>, audios: seq<seq<real>>, b: Block, m: nat)
    requires m <= |audios|
    ensures forall k :: 0 <= k < m ==>
      AudiosAfter(vs, audios, b, m)[k] == ChannelRun(StartView(vs, k, b), audios[k], b).1
    ensures forall k :: m <= k < |audios| ==> AudiosAfter(vs, audios, b, m)[k] == audios[k]
  {
    if m > 0 {
      AudiosAfterIs(vs, audios, b, m - 1);
      ViewsAfterIs(vs, audios, b, m - 1);
      var w := ViewsAfter(vs, audios, b, m - 1);
      assert StartView(w, m - 1, b) == StartView(vs, m - 1, b);
    }
  }

  /** Channel `m` starts from the state and the samples it had before the block. */
  lemma {:induction false} StartStays(vs: seq<RevView>, audios: seq<seq<real>>, b: Block, m: nat)
    requires m < |audios|
    ensures m <= |ViewsAfter(vs, audios, b, m)|
    ensures StartView(ViewsAfter(vs, audios, b, m), m, b) == StartView(vs, m, b)
    ensures AudiosAfter(vs, audios, b, m)[m] == audios[m]
  {
    ViewsAfterIs(vs, audios, b, m);
    AudiosAfterIs(vs, audios, b, m);
  }

  /** Exactly the channels from `from` up to `to` are silent afterwards; the rest keep their
      samples. */
  lemma {:induction false} ClearedIs(audios: seq<seq<real>>, from: nat, to: nat)
    requires to <= |audios|
    ensures forall k :: 0 <= k < |audios| ==>
      Cleared(audios, from, to)[k] == (if from <= k < to then Repeat(|audios[k]|, 0.0) else audios[k])
  {
    if to > from {
      ClearedIs(audios, from, to - 1);
    }
  }

  /** Processing keeps every reverberator state well-formed. */
  lemma {:induction false} ViewsAfterOk(vs: seq<RevView>, audios: seq<seq<real>>, b: Block, m: nat)
    requires AllOk(vs) && RevOk(b.newView) && m <= |audios|
    ensures AllOk(ViewsAfter(vs, audios, b, m))
  {
    if m > 0 {
      ViewsAfterOk(vs, audios, b, m - 1);
      var w := ViewsAfter(vs, audios, b, m - 1);
      var v := StartView(w, m - 1, b);
      assert RevOk(v);
      if Fits(v, audios[m - 1], b) {
        ProcessedOk(v, audios[m - 1], b.drywet, b.len);
      }
      assert AllOk(Pushed(w, m - 1, b));
    }
  }

  /** Clearing the output channels past the inputs leaves the inputs as they are. */
  lemma {:induction false} ClearedReady(vs: seq<RevView>, audios: seq<seq<real>>, numIn: nat, numOut: nat, b: Block)
    requires BlockReady(vs, audios, numIn, b) && numOut <= |audios|
    ensures BlockReady(vs, Cleared(audios, numIn, numOut), numIn, b)
    ensures forall ch :: 0 <= ch < numIn ==> Cleared(audios, numIn, numOut)[ch] == audios[ch]
  {
    var cl := Cleared(audios, numIn, numOut);
    ClearedIs(audios, numIn, numOut);
    forall ch | 0 <= ch < numIn
      ensures cl[ch] == audios[ch] && Fits(StartView(vs, ch, b), cl[ch], b)
    {
    }
  }

  /** With a dry/wet ratio of 0, processing leaves every channel's samples as they were. */
  lemma {:induction false} DryBlockKeepsAudio(vs: seq<RevView>, audios: seq<seq<real>>, b: Block, m: nat)
    requires b.drywet == 0.0 && m <= |audios|
    ensures AudiosAfter(vs, audios, b, m) == audios
  {
    if m > 0 {
      DryBlockKeepsAudio(vs, audios, b, m - 1);
      var v := StartView(ViewsAfter(vs, audios, b, m - 1), m - 1, b);
      if Fits(v, audios[m - 1], b) {
        GridIsRect(v.bank, v.rowsSize, v.colsSize);
        DryRunKeepsAudio(v.bank, audios[m - 1], ParamsOf(v), b.len);
      }
    }
  }

  /** After a block, the output channels past the inputs are silent and the channels past both
      counts keep their samples. */
  lemma {:induction false} BlockSilencesOutputs(vs: seq<RevView>, audios: seq<seq<real>>, numIn: nat, numOut: nat, b: Block)
    requires numIn <= |audios| && numOut <= |audios|
    ensures var outs := AudiosAfter(vs, Cleared(audios, numIn, numOut), b, numIn);
      (forall k :: numIn <= k < numOut ==> outs[k] == Repeat(|audios[k]|, 0.0))
      && (forall k :: numIn <= k < |audios| && numOut <= k ==> outs[k] == audios[k])
  {
    ClearedIs(audios, numIn, numOut);
    AudiosAfterIs(vs, Cleared(audios, numIn, numOut), b, numIn);
  }

  /** With the default dimension and exponents, no block of one sample or more can be
      processed inside the banks: the first input channel's reverberator, new or not yet
      changed, reads before the start of its bank. */
  lemma {:induction false} DefaultBlockNotReady(vs: seq<RevView>, audios: seq<seq<real>>, numIn: nat, b: Block)
    requires forall k :: 0 <= k < |vs| ==> vs[k] == Initial(DefaultDimension, DefaultPowers)
    requires b.newView == Initial(DefaultDimension, DefaultPowers)
    requires 1 <= numIn && 1 <= b.len
    ensures !BlockReady(vs, audios, numIn, b)
  {
    assert StartView(vs, 0, b) == Initial(DefaultDimension, DefaultPowers);
    DefaultReverberatorReadsOutside(b.len);
  }

  /** The reverberators `rs` start with those of `rs0`, in order: existing objects are kept and
      new ones only join at the end. */
  ghost predicate Kept(rs0: seq<Reverberator>, rs: seq<Reverberator>)
  {
    |rs0| <= |rs| && rs[..|rs0|] == rs0
  }

  lemma {:induction false} KeptTrans(a: seq<Reverberator>, b: seq<Reverberator>, c: seq<Reverberator>)
    requires Kept(a, b) && Kept(b, c)
    ensures Kept(a, c)
  {
    assert c[..|a|] == c[..|b|][..|a|];
  }

  class AudioProcessor {
    /** One reverberator per channel, in channel order. */
    var reverberators: seq<Reverberator>
    var state: ProcessingState
    var flag: ProcessingFlag
    var dimension: FdnDimension
    var powers: seq<int>
    var channelsNum: int
    var blockLength: int
    var drywet: real
    /** The reverberators and their delay-line banks. */
    ghost var Repr: set<object>

    /** The reverberators are distinct, have distinct banks, are all in `Repr` and are each
        valid; the first `channelsNum` of them exist, the stored exponents give delays that fit
        an `int`, and the block length is an `int`. */
    ghost predicate Valid()
      reads this, Repr
    {
      this !in Repr && Held(reverberators, Repr) && Separate(reverberators)
      && AllOk(ViewsOf(reverberators, Repr))
      && 0 <= channelsNum <= |reverberators|
      && PowersOk(PrimesVector, powers)
      && -0x8000_0000 <= blockLength < 0x8000_0000
    }

    ghost function Fields(): Controls
      reads this
    {
      Controls(state, flag, dimension, powers, channelsNum, blockLength, drywet)
    }

    /** Builds one reverberator for each of the `totalNumInputChannels` input channels, all with
        dimension `dim` and exponents `pow`, then checks the state. */
    constructor (dim: FdnDimension, pow: seq<int>, totalNumInputChannels: nat)
      requires PowersOk(PrimesVector, pow) && totalNumInputChannels < 0x8000_0000
      ensures Valid() && fresh(Repr)
      ensures Fields() == InitialControls(dim, pow, totalNumInputChannels)
      ensures ViewsOf(reverberators, Repr) == Repeat(totalNumInputChannels, Initial(dim, pow))
    {
      state := Pending;
      flag := Allowed;
      dimension := dim;
      powers := pow;
      blockLength := 0;
      drywet := 0.5;
      channelsNum := totalNumInputChannels;
      reverberators := [];
      Repr := {};
      new;
      for i := 0 to channelsNum
        invariant this !in Repr && Held(reverberators, Repr) && Separate(reverberators) && fresh(Repr)
        invariant ViewsOf(reverberators, Repr) == Repeat(i, Initial(dim, pow))
        invariant Fields() == Controls(Pending, Allowed, dim, pow, totalNumInputChannels, 0, 0.5)
      {
        PushReverberator(dim, pow);
      }
      InitialOk(dim, pow, channelsNum);
      CheckProcessingState();
    }

    /** The body of the constructor's loop: a new reverberator with dimension `dim` and
        exponents `pow` joins the end. */
    method PushReverberator(dim: FdnDimension, pow: seq<int>)
      requires this !in Repr && Held(reverberators, Repr) && Separate(reverberators)
      requires PowersOk(PrimesVector, pow)
      modifies this
      ensures this !in Repr && Held(reverberators, Repr) && Separate(reverberators)
      ensures fresh(Repr - old(Repr)) && Fields() == old(Fields())
      ensures ViewsOf(reverberators, Repr) == old(ViewsOf(reverberators, Repr)) + [Initial(dim, pow)]
      ensures Kept(old(reverberators), reverberators)
    {
      var r := new Reverberator(dim, pow);
      reverberators := reverberators + [r];
      Repr := Repr + {r, r.delayLines};
    }

    method CheckProcessingState()
      modifies this
      ensures Fields() == Checked(old(Fields()))
      ensures reverberators == old(reverberators) && Repr == old(Repr)
    {
      if flag == Allowed {
        state := if |powers| == dimension.Size() then Running else Pending;
      }
    }

    /** Pends the state, gives every one of the first `channelsNum` reverberators the new
        dimension (their delays, banks and gain vectors stay), stores it, and re-checks. */
    method SetDimension(dim: FdnDimension)
      requires Valid()
      modifies this, Repr
      ensures Valid()
      ensures Fields() == After(old(Fields()), Call.SetDimension(dim))
      ensures reverberators == old(reverberators) && Repr == old(Repr)
      ensures ViewsOf(reverberators, Repr) == WithDimension(old(ViewsOf(reverberators, Repr)), channelsNum, dim)
    {
      state := Pending;
      SetChannelDimensions(dim);
      WithDimensionKeepsOk(old(ViewsOf(reverberators, Repr)), channelsNum, dim);
      dimension := dim;
      CheckProcessingState();
    }

    /** The loop of `setDimension`: the first `channelsNum` reverberators take `dim`. */
    method SetChannelDimensions(dim: FdnDimension)
      requires this !in Repr && Held(reverberators, Repr) && Separate(reverberators)
      requires 0 <= channelsNum <= |reverberators|
      modifies Repr
      ensures ViewsOf(reverberators, Repr) == WithDimension(old(ViewsOf(reverberators, Repr)), channelsNum, dim)
    {
      ghost var views0 := ViewsOf(reverberators, Repr);
      for i := 0 to channelsNum
        invariant ViewsOf(reverberators, Repr) == WithDimension(views0, i, dim)
      {
        WithDimensionStep(views0, i, dim);
        SetDimensionAt(i, dim);
      }
    }

    /** The body of that loop: reverberator `i` takes the new dimension. */
    method SetDimensionAt(i: int, dim: FdnDimension)
      requires this !in Repr && Held(reverberators, Repr) && Separate(reverberators)
      requires 0 <= i < |reverberators|
      modifies reverberators[i]
      ensures ViewsOf(reverberators, Repr) == old(ViewsOf(reverberators, Repr))[i := old(ViewsOf(reverberators, Repr))[i].(dimension := dim)]
    {
      reverberators[i].SetDimension(dim);
    }

    /** Pends the state, regenerates the first `channelsNum` reverberators from the exponents
        stored so far (not from `pow`), then stores `pow` and re-checks. */
    method SetDelayPowers(pow: seq<int>)
      requires Valid() && PowersOk(PrimesVector, pow)
      modifies this, Repr
      ensures Valid()
      ensures Fields() == After(old(Fields()), Call.SetDelayPowers(pow))
      ensures reverberators == old(reverberators) && Repr == old(Repr)
      ensures ViewsOf(reverberators, Repr) == WithPowers(old(ViewsOf(reverberators, Repr)), channelsNum, old(powers))
    {
      state := Pending;
      RegenerateChannels();
      WithPowersKeepsOk(old(ViewsOf(reverberators, Repr)), channelsNum, powers);
      powers := pow;
      CheckProcessingState();
    }

    /** The loop of `setDelayPowers`: the first `channelsNum` reverberators are regenerated
        from the stored exponents. */
    method RegenerateChannels()
      requires this !in Repr && Held(reverberators, Repr) && Separate(reverberators)
      requires 0 <= channelsNum <= |reverberators| && PowersOk(PrimesVector, powers)
      modifies Repr
      ensures ViewsOf(reverberators, Repr) == WithPowers(old(ViewsOf(reverberators, Repr)), channelsNum, powers)
    {
      ghost var views0 := ViewsOf(reverberators, Repr);
      for i := 0 to channelsNum
        invariant ViewsOf(reverberators, Repr) == WithPowers(views0, i, powers)
      {
        WithPowersStep(views0, i, powers);
        GenerateDelayValuesAt(i);
      }
    }

    /** The body of that loop: reverberator `i` is regenerated from the stored exponents. */
    method GenerateDelayValuesAt(i: int)
      requires this !in Repr && Held(reverberators, Repr) && Separate(reverberators)
      requires 0 <= i < |reverberators| && PowersOk(PrimesVector, powers)
      modifies reverberators[i], reverberators[i].delayLines
      ensures ViewsOf(reverberators, Repr) == old(ViewsOf(reverberators, Repr))[i := Regenerated(old(ViewsOf(reverberators, Repr))[i], powers)]
    {
      reverberators[i].GenerateDelayValues(powers);
    }

    /** `processBlock`: checks the state and, when it is running, clears the output channels
        past the inputs, then runs every input channel through its reverberator, creating the
        reverberators of channels that have none. When the state stays pending, nothing but
        the check happens. */
    method ProcessBlock(buffer: seq<array<real>>, totalNumInputChannels: nat, totalNumOutputChannels: nat)
      requires Valid() && Disjoint(buffer) && Outside(buffer, Repr)
      requires totalNumInputChannels <= |buffer| && totalNumOutputChannels <= |buffer|
      requires Checked(Fields()).state == Running ==>
        BlockReady(ViewsOf(reverberators, Repr), Contents(buffer), totalNumInputChannels, BlockOf(Fields()))
      modifies this, Repr, buffer
      ensures Valid() && fresh(Repr - old(Repr))
      ensures Fields() == Checked(old(Fields()))
      ensures state == Pending ==>
        reverberators == old(reverberators) && Repr == old(Repr)
        && Contents(buffer) == old(Contents(buffer))
      ensures Kept(old(reverberators), reverberators)
      ensures state == Running ==>
        var cleared := Cleared(old(Contents(buffer)), totalNumInputChannels, totalNumOutputChannels);
        ViewsOf(reverberators, Repr)
          == ViewsAfter(old(ViewsOf(reverberators, Repr)), cleared, BlockOf(Fields()), totalNumInputChannels)
        && Contents(buffer)
          == AudiosAfter(old(ViewsOf(reverberators, Repr)), cleared, BlockOf(Fields()), totalNumInputChannels)
    {
      ghost var vs := ViewsOf(reverberators, Repr);
      CheckProcessingState();
      assert ViewsOf(reverberators, Repr) == vs;
      if state == Pending {
        return;
      }
      ClearThenRun(buffer, totalNumInputChannels, totalNumOutputChannels);
    }

    /** The running branch of `processBlock`: clears the output channels past the inputs, then
        runs the input channels. */
    method ClearThenRun(buffer: seq<array<real>>, numIn: nat, numOut: nat)
      requires Valid() && Disjoint(buffer) && Outside(buffer, Repr)
      requires numIn <= |buffer| && numOut <= |buffer|
      requires BlockReady(ViewsOf(reverberators, Repr), Contents(buffer), numIn, BlockOf(Fields()))
      modifies this, Repr, buffer
      ensures Valid() && fresh(Repr - old(Repr)) && Fields() == old(Fields())
      ensures Kept(old(reverberators), reverberators)
      ensures var cleared := Cleared(old(Contents(buffer)), numIn, numOut);
        ViewsOf(reverberators, Repr) == ViewsAfter(old(ViewsOf(reverberators, Repr)), cleared, BlockOf(Fields()), numIn)
        && Contents(buffer) == AudiosAfter(old(ViewsOf(reverberators, Repr)), cleared, BlockOf(Fields()), numIn)
    {
      ghost var vs := ViewsOf(reverberators, Repr);
      ClearedReady(vs, Contents(buffer), numIn, numOut, BlockOf(Fields()));
      ClearChannels(buffer, numIn, numOut);
      assert ViewsOf(reverberators, Repr) == vs;
      RunChannels(buffer, numIn);
    }

    /** The channel loop of `processBlock`. */
    method RunChannels(buffer: seq<array<real>>, numIn: nat)
      requires Valid() && Disjoint(buffer)
      requires BlockReady(ViewsOf(reverberators, Repr), Contents(buffer), numIn, BlockOf(Fields()))
      modifies this, Repr, buffer
      ensures Valid() && fresh(Repr - old(Repr)) && Fields() == old(Fields())
      ensures Kept(old(reverberators), reverberators)
      ensures ViewsOf(reverberators, Repr)
        == ViewsAfter(old(ViewsOf(reverberators, Repr)), old(Contents(buffer)), BlockOf(Fields()), numIn)
      ensures Contents(buffer)
        == AudiosAfter(old(ViewsOf(reverberators, Repr)), old(Contents(buffer)), BlockOf(Fields()), numIn)
    {
      ghost var vs := ViewsOf(reverberators, Repr);
      ghost var audios := Contents(buffer);
      ghost var b := BlockOf(Fields());
      for ch := 0 to numIn
        invariant this !in Repr && Held(reverberators, Repr) && Separate(reverberators)
        invariant fresh(Repr - old(Repr)) && Fields() == old(Fields())
        invariant Kept(old(reverberators), reverberators)
        invariant ViewsOf(reverberators, Repr) == ViewsAfter(vs, audios, b, ch)
        invariant Contents(buffer) == AudiosAfter(vs, audios, b, ch)
      {
        ghost var before := reverberators;
        RunChannel(buffer, ch, vs, audios, b);
        KeptTrans(old(reverberators), before, reverberators);
      }
      InitialOk(dimension, powers, 0);
      ViewsAfterOk(vs, audios, b, numIn);
    }

    /** One pass of that loop: channel `ch` gets a new reverberator if it has none, then its
        reverberator runs over the block, with the block length taken as `unsigned`. Before it
        the reverberators and the buffers are those after `ch` channels, after it those after
        `ch + 1`. */
    method RunChannel(buffer: seq<array<real>>, ch: nat,
                      ghost vs: seq<RevView>, ghost audios: seq<seq<real>>, ghost b: Block)
      requires this !in Repr && Held(reverberators, Repr) && Separate(reverberators) && Disjoint(buffer)
      requires ch < |audios| && |buffer| == |audios|
      requires PowersOk(PrimesVector, powers) && -0x8000_0000 <= blockLength < 0x8000_0000
      requires b == BlockOf(Fields())
      requires Fits(StartView(vs, ch, b), audios[ch], b)
      requires ViewsOf(reverberators, Repr) == ViewsAfter(vs, audios, b, ch)
      requires Contents(buffer) == AudiosAfter(vs, audios, b, ch)
      modifies this, Repr, buffer[ch]
      ensures this !in Repr && Held(reverberators, Repr) && Separate(reverberators)
      ensures fresh(Repr - old(Repr)) && Fields() == old(Fields())
      ensures Kept(old(reverberators), reverberators)
      ensures ViewsOf(reverberators, Repr) == ViewsAfter(vs, audios, b, ch + 1)
      ensures Contents(buffer) == AudiosAfter(vs, audios, b, ch + 1)
    {
      StartStays(vs, audios, b, ch);
      if |reverberators| <= ch {
        PushReverberator(dimension, powers);
      }
      ReverberateAt(buffer, ch, b);
    }

    /** `reverberators[ch].Reverberate(channelData, blockLength, drywet)` on channel `ch`. */
    method ReverberateAt(buffer: seq<array<real>>, ch: nat, ghost b: Block)
      requires this !in Repr && Held(reverberators, Repr) && Separate(reverberators) && Disjoint(buffer)
      requires ch < |reverberators| && ch < |buffer|
      requires -0x8000_0000 <= blockLength < 0x8000_0000
      requires b.len == ToUnsigned(blockLength) && b.drywet == drywet
      requires Fits(ViewsOf(reverberators, Repr)[ch], buffer[ch][..], b)
      modifies reverberators[ch].delayLines, buffer[ch]
      ensures var run := Processed(old(ViewsOf(reverberators, Repr))[ch], old(buffer[ch][..]), b.drywet, b.len);
        ViewsOf(reverberators, Repr) == old(ViewsOf(reverberators, Repr))[ch := run.0]
        && Contents(buffer) == old(Contents(buffer))[ch := run.1]
    {
      reverberators[ch].Reverberate(buffer[ch], ToUnsigned(blockLength), drywet);
    }

    /** Stores the flag and pends the state, without a check. */
    method SetProcessingFlag(f: ProcessingFlag)
      requires Valid()
      modifies this
      ensures Valid()
      ensures Fields() == After(old(Fields()), Call.SetProcessingFlag(f))
      ensures reverberators == old(reverberators) && Repr == old(Repr)
    {
      flag := f;
      state := Pending;
    }

    /** Stores the dry/wet ratio as given, without clamping. */
    method SetDryWet(x: real)
      requires Valid()
      modifies this
      ensures Valid()
      ensures Fields() == After(old(Fields()), Call.SetDryWet(x))
      ensures reverberators == old(reverberators) && Repr == old(Repr)
    {
      drywet := x;
    }

    /** Stores the host's block size as the block length. */
    method PrepareToPlay(samplesPerBlock: int)
      requires Valid() && -0x8000_0000 <= samplesPerBlock < 0x8000_0000
      modifies this
      ensures Valid()
      ensures Fields() == After(old(Fields()), Call.PrepareToPlay(samplesPerBlock))
      ensures reverberators == old(reverberators) && Repr == old(Repr)
    {
      blockLength := samplesPerBlock;
    }
  }

  /** Clears channels `from` up to `to` of the host's buffer (none when `from >= to`). */
  method ClearChannels(buffer: seq<array<real>>, from: nat, to: nat)
    requires Disjoint(buffer) && from <= |buffer| && to <= |buffer|
    modifies buffer
    ensures Contents(buffer) == Cleared(old(Contents(buffer)), from, to)
  {
    ghost var audios := Contents(buffer);
    var i := from;
    while i < to
      invariant i == from || from <= i <= to
      invariant Contents(buffer) == Cleared(audios, from, i)
    {
      ClearChannel(buffer, i);
      i := i + 1;
    }
  }

  /** `buffer.clear(i, 0, numSamples)`: every sample of channel `i` becomes 0. */
  method ClearChannel(buffer: seq<array<real>>, i: nat)
    requires Disjoint(buffer) && i < |buffer|
    modifies buffer[i]
    ensures Contents(buffer) == old(Contents(buffer))[i := Repeat(buffer[i].Length, 0.0)]
  {
    forall k | 0 <= k < buffer[i].Length {
      buffer[i][k] := 0.0;
    }
    assert buffer[i][..] == Repeat(buffer[i].Length, 0.0);
    forall ch | 0 <= ch < |buffer| && ch != i ensures buffer[ch][..] == old(buffer[ch][..]) {
    }
  }
}
