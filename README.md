# FDN reverberator plug-in, modelled in Dafny

This project models the core of a JUCE audio plug-in that adds reverberation to its input with
a feedback delay network (FDN).

- **Delay lines.** Each input channel has its own reverberator. Its delay lines have lengths
  that are powers of the first primes, `2^p0, 3^p1, 5^p2, ...`, with the exponents `p`
  chosen in the editor.
- **Per sample.** For every sample the reverberator:
  - reads one tap from every line, at a circular index;
  - adds the taps, weighted by the output gains `c`, to the dry input;
  - writes into each line the input times `b[i]`, plus the product of the taps' column with a
    Hadamard mixing matrix;
  - replaces the sample by a blend of wet and dry, `drywet * wet + (1 - drywet) * dry`.
- **Processing gate.** The audio processor runs only when its flag is allowed and the number
  of exponents equals the network dimension (2, 4, 8 or 16 lines).
- **Editor.** The editor posts matrix and delay messages to a main component, which drives
  the processor.

The modules follow the source files:

| module | source | what it holds |
|---|---|---|
| `CppArith` | — | C++ `%` on `int`, which truncates toward zero; the exact power `std::pow` is meant to give; the `int` to `unsigned` conversion |
| `Matrices` | `Matrix.h` | `Matrix<T>` as a class over `seq<seq<T>>`; `HadamarMatrix` as the method `NewHadamarMatrix` with its in-place `FillMatrix` |
| `SylvesterRef` | — | the Sylvester–Hadamard construction the matrix is meant to follow, as a reference definition |
| `FdnSpec` | `Reverberator.h`, `Reverberator.cpp` | the dimension enum, the prime table and the delay values; the per-sample recurrence of `Reverberate` as pure functions over the bank |
| `Reverb` | `Reverberator.cpp` | the `Reverberator` class |
| `Processor` | `PluginProcessor.cpp` | the `AudioProcessor` class, its processing gate as a state machine over call traces, and the channel loop of `processBlock` |
| `Editor` | `PluginEditor.cpp` | the matrix and delay components and the main component |

The code is modelled as written, including these defects:

- `FillMatrix` never fills the top-left quadrant. The recursive step builds a temporary and
  drops it, so every Hadamard matrix of size two or more is all zeros.
  - `NewHadamarMatrix` ensures this.
  - `SylvesterRef.AsWrittenIsNotSylvester` proves that this differs from the intended
    Sylvester matrix, whose rows `SylvesterRef.SylvesterOrthogonal` proves orthogonal.
- `Reverberate` takes its tap and write indices modulo the number of lines, not modulo the bank
  width.
- The remainder is C++'s truncating `%`. A delay longer than `idx + N` therefore gives a
  negative tap index.
  - With the default exponents `{1, 2, 3, 4}` this already happens at the first sample
    (`DefaultPowersReadBeforeBank`).
  - With the editor's starting exponents `{0, 0, 0, 0}`, the second sample writes outside the
    one-column bank (`ZeroPowersWriteOutsideBank`).
- `setDelayPowers` regenerates the reverberators from the exponents it is about to replace,
  so they lag one call behind (`DelayPowersLag`).

Samples and gains are `real`.

- `std::sqrt(2.f)` is the exact single-precision value.
- `std::pow(prime, e)` is the exact power for `e >= 0` and 0 for `e < 0`. The 0 is what
  truncating the fraction to `int` gives.
- Accesses the C++ leaves unchecked are preconditions: a bank cell, a gain-vector entry.

## Model

| member | source | states |
|---|---|---|
| CppArith.TruncRem | Source/Reverberator.cpp:96 | the C++ remainder: in `[0, n)` for a non-negative dividend, in `(-n, 0]` for a negative one |
| CppArith.TruncRemIsMod | Source/Reverberator.cpp:96 | the C++ remainder equals the Euclidean one on non-negative dividends, and minus the Euclidean remainder of the negation otherwise |
| CppArith.TruncRemSign | Source/Reverberator.cpp:96 | the C++ remainder is non-negative exactly when the dividend is non-negative or a multiple of `n` |
| CppArith.ToUnsigned | Source/PluginProcessor.cpp:196 | passing the `int` block length as `unsigned` keeps non-negative values and adds 2^32 to negative ones |
| Matrices.Matrix.constructor | Source/Matrix.h:19-21 | a rows-by-columns grid whose every cell is the initial value, with counters equal to the requested sizes |
| Matrices.Matrix.FromLists | Source/Matrix.h:23-32 | the rows are the given lists; `rowsSize` is the inner-list length and `colsSize` the number of lists, swapped relative to `Resize` |
| Matrices.Matrix.Clear | Source/Matrix.h:34-38 | no rows are left and the dimensions are `(0, 0)` |
| Matrices.Matrix.Resize | Source/Matrix.h:40-46 | exactly `r` rows of length `c`, every cell the initial value, and `GetDimentions() == (r, c)` |
| Matrices.Matrix.Set | Source/Matrix.h:48-50 | cell `(r, c)` holds the value afterwards; every other cell and both dimensions are unchanged |
| Matrices.Matrix.SetRow | Source/Matrix.h:52-55 | only row `r` is replaced, by a row of `colsSize` entries; the dimensions stay |
| Matrices.FillMatrix | Source/Matrix.h:85-103 | a size-1 matrix becomes `[[gain]]`; otherwise every cell is the block matrix `[[H, H], [H, -H]]` of the top-left quadrant as it was before the call |
| Matrices.CopyToBottomLeft | Source/Matrix.h:93-95 | the bottom-left quadrant becomes a copy of the top-left one; the rest is unchanged |
| Matrices.CopyToTopRight | Source/Matrix.h:96-98 | the top-right quadrant becomes a copy of the top-left one; the rest is unchanged |
| Matrices.NegateToBottomRight | Source/Matrix.h:99-101 | the bottom-right quadrant becomes the negated top-left one, which completes the block matrix |
| Matrices.NewHadamarMatrix | Source/Matrix.h:80-83 | a new square matrix of the power-of-two size: `[[gain]]` for size 1, all zeros for every larger size |
| SylvesterRef.Sylvester | Source/Matrix.h:85-103 | the intended construction yields a `2^k` by `2^k` grid |
| SylvesterRef.SylvesterRow | Source/Matrix.h:93-101 | each row of `H(2n)` is a row of `H(n)` repeated (top half) or followed by its negation (bottom half) |
| SylvesterRef.SylvesterOrthogonal | Source/Matrix.h:85-103 | distinct rows of the intended matrix are orthogonal, and each row has squared norm `gain^2 * 2^k` |
| SylvesterRef.SylvesterEntries | Source/Matrix.h:86-101 | every entry of the intended matrix is `gain` or `-gain`, and the top-left one is `gain` |
| SylvesterRef.AsWrittenIsNotSylvester | Source/Matrix.h:91 | for a non-zero gain and size ≥ 2 the all-zero matrix differs from the intended one, and its first row has norm 0 instead of `gain^2 * 2^k` |
| FdnSpec.FdnDimension.Size | Source/Reverberator.h:22-25 | the enum value is a power of two between 2 and 16, and it is the number of delay lines |
| FdnSpec.SizeInjective | Source/Reverberator.h:22-25 | two dimensions have the same integer value exactly when they are the same enumerator |
| FdnSpec.PrimesVectorIsAscendingPrimes | Source/Reverberator.h:57-58 | the prime table is exactly the first 26 primes: 26 entries, strictly ascending, each a prime, ending at 101, and every prime up to 101 is in it |
| FdnSpec.NoPrimeMissing | Source/Reverberator.h:57-58 | no prime up to 101 is missing from the table |
| FdnSpec.DelayValueSign | Source/Reverberator.cpp:40 | a line's delay is at least 1 exactly when its exponent is non-negative; a negative exponent gives 0 |
| FdnSpec.DelayValues | Source/Reverberator.cpp:35-41 | one delay per exponent, in input order: entry `k` is the `k`-th prime raised to the `k`-th exponent (0 for a negative exponent), with no sorting and no clamping |
| FdnSpec.MaxOrZeroIsMax | Source/Reverberator.cpp:37-44 | the running maximum starting at 0 is at least 0, bounds every delay, and is 0 or one of the delays |
| FdnSpec.DefaultDelays | Source/PluginProcessor.h:15 | the default exponents `{1, 2, 3, 4}` give delays 2, 9, 125 and 2401, so the bank is 2401 columns wide |
| FdnSpec.TapIndex | Source/Reverberator.cpp:96 | the tap column `(idx - delay + N) % N` lies strictly between `-N` and `N` |
| FdnSpec.TapIndexSign | Source/Reverberator.cpp:96 | the tap column is non-negative exactly when `delay <= idx + N` or `delay - idx - N` is a multiple of `N` |
| FdnSpec.IdxAt | Source/Reverberator.cpp:106 | the write position always lies in `[0, N)` |
| FdnSpec.IdxAtIsMod | Source/Reverberator.cpp:80-106 | starting at 0 and advancing by `(idx + 1) % N`, the write position at sample `k` is `k mod N` |
| FdnSpec.LinesFrame | Source/Reverberator.cpp:103 | one sample's line loop writes only column `idx` of the lines it has processed |
| FdnSpec.LinesOutput | Source/Reverberator.cpp:97 | the output of one sample is the input plus the sum of `c[i]` times line `i`'s tap |
| FdnSpec.LinesWrite | Source/Reverberator.cpp:99-103 | line `r` gets `input * b[r]` plus the mix of its tap column, read after the lines before it were written |
| FdnSpec.ZeroMixWrites | Source/Reverberator.cpp:99-103 | with the all-zero matrix, line `r` gets exactly `input * b[r]` |
| FdnSpec.Step | Source/Reverberator.cpp:84-106 | one sample: only sample `k` changes, to `drywet * (input + wet) + (1 - drywet) * input`; the bank keeps its shape |
| FdnSpec.StepBankFrame | Source/Reverberator.cpp:103 | one sample writes only the write-position column, and only in the `N` rows of the lines |
| FdnSpec.Run | Source/Reverberator.cpp:82-107 | a block of `len` samples keeps the bank's shape and the buffer's length, and leaves every sample from `len` on unchanged |
| FdnSpec.RunSample | Source/Reverberator.cpp:84-105 | each sample of the block is the blend of its input with the wet sum read from the bank as the earlier samples left it |
| FdnSpec.RunKeepsSample | Source/Reverberator.cpp:82-107 | once sample `k` is written, later samples of the block do not change it |
| FdnSpec.DryRunKeepsAudio | Source/Reverberator.cpp:105 | with `drywet == 0` the whole block is left exactly as it was |
| FdnSpec.SilentOutputKeepsAudio | Source/Reverberator.cpp:97 | with an all-zero output gain vector the block is left exactly as it was, whatever the dry/wet ratio |
| FdnSpec.RunBankFrame | Source/Reverberator.cpp:103 | a block changes only the columns its write positions visit, and only in the `N` rows of the lines |
| FdnSpec.DefaultPowersReadBeforeBank | Source/Reverberator.cpp:96 | with four lines and delays 2, 9, 125, 2401, some tap of the first sample is outside the bank |
| FdnSpec.ZeroPowersWriteOutsideBank | Source/Reverberator.cpp:103 | exponents `{0, 0, 0, 0}` give a bank one column wide, and a block of two samples or more leaves it |
| Reverb.MatrixTableEntry | Source/Reverberator.cpp:19-30 | the table has a matrix for each of the four dimensions, and it is the all-zero square of that size |
| Reverb.InitialState | Source/Reverberator.cpp:13-47 | a new reverberator holds the prime table, the dimension, one delay per exponent, a zero bank with `N` rows as wide as the longest delay, `b = 1.0` and `c = 0.8` repeated `N` times, gain 0.8 and an all-zero `N` by `N` mixing matrix |
| Reverb.ProcessedOk | Source/Reverberator.cpp:75-108 | running a block keeps the bank a grid of the same shape, keeps the matrix table, and keeps the buffer's length |
| Reverb.DefaultReverberatorReadsOutside | Source/Reverberator.cpp:96 | a reverberator built with 4 lines and exponents `{1, 2, 3, 4}` cannot process even one sample inside its bank |
| Reverb.Reverberator.constructor | Source/Reverberator.cpp:13-31 | the new reverberator is in the initial state for the dimension and the exponents, with the four registered matrices |
| Reverb.Reverberator.GenerateDelayValues | Source/Reverberator.cpp:33-48 | the delays become the exponents' prime powers; the bank becomes `N` zero rows as wide as the longest delay; `b` and `c` become the defaults; dimension, gain and matrices stay |
| Reverb.Reverberator.UpdateDelayLines | Source/Reverberator.cpp:50-53 | the bank becomes `N` rows of the requested width, all zero; nothing else changes |
| Reverb.Reverberator.SetDimension | Source/Reverberator.cpp:55-58 | only the dimension changes; delays, bank and gain vectors stay |
| Reverb.Reverberator.SetGain | Source/Reverberator.cpp:60-63 | only the gain changes |
| Reverb.Reverberator.SetBVector | Source/Reverberator.cpp:65-68 | only the input gain vector changes |
| Reverb.Reverberator.SetCVector | Source/Reverberator.cpp:70-73 | only the output gain vector changes |
| Reverb.Reverberator.Reverberate | Source/Reverberator.cpp:75-108 | the bank and the buffer become the result of the network run over `blockLength` samples, with the write position starting at 0; every other field stays |
| Reverb.Reverberator.RunBlock | Source/Reverberator.cpp:82-107 | the samples loop leaves the bank and the buffer as the recurrence over the block gives them |
| Reverb.Reverberator.ProcessSample | Source/Reverberator.cpp:84-106 | one pass of the samples loop advances the state from `k` samples to `k + 1` |
| Reverb.Reverberator.ProcessLines | Source/Reverberator.cpp:94-104 | the line loop leaves the bank and the output as the line recurrence of one sample gives them |
| Reverb.Reverberator.MixColumn | Source/Reverberator.cpp:99-101 | the inner loop's sum is the product of the tap column with row `i` of the mixing matrix |
| Processor.CheckedState | Source/PluginProcessor.cpp:116-123 | the check changes only the state: it is running exactly when (flag allowed and exponent count equals dimension) or (flag forbidden and already running) |
| Processor.InitialControlsAre | Source/PluginProcessor.h:70-76 | a new processor has flag allowed, block length 0, dry/wet 0.5 and its arguments, and runs exactly when the exponents match the dimension; with the default arguments it runs |
| Processor.InitialGateOk | Source/PluginProcessor.cpp:5-23 | a new processor satisfies the gate invariant |
| Processor.AfterKeepsGate | Source/PluginProcessor.cpp:92-134 | every setter and `processBlock` keep the gate invariant: the processor only runs with the flag allowed and as many exponents as lines |
| Processor.ReplayKeepsGate | Source/PluginProcessor.cpp:92-134 | any sequence of calls keeps the gate invariant |
| Processor.ProcessBlockRunsIff | Source/PluginProcessor.cpp:166-170 | `processBlock` goes past its check exactly when the flag is allowed and the exponent count equals the dimension |
| Processor.ForbiddenStaysPending | Source/PluginProcessor.cpp:110-123 | from a forbidden, pending processor, no sequence of calls without `setProcessingFlag(allowed)` makes it run |
| Processor.DelayPowersLag | Source/PluginProcessor.cpp:101-108 | starting from `{1, 2, 3, 4}`, the call with `{2, 2, 2, 2}` leaves the delays 2, 9, 125, 2401 instead of 4, 9, 25, 49 |
| Processor.ViewsAfterIs | Source/PluginProcessor.cpp:191-197 | after the first `m` channels, each of them holds its reverberator's state after its own block, and the later reverberators are untouched |
| Processor.AudiosAfterIs | Source/PluginProcessor.cpp:191-197 | after the first `m` channels, each of them holds its reverberator's output, and the later channels hold their input |
| Processor.ClearedIs | Source/PluginProcessor.cpp:182-183 | exactly the channels from the input count up to the output count are silent; the others keep their samples |
| Processor.ViewsAfterOk | Source/PluginProcessor.cpp:191-197 | the channel loop keeps every reverberator's bank a grid and its matrix table |
| Processor.ClearedReady | Source/PluginProcessor.cpp:182-183 | clearing the extra output channels leaves the input channels as they were |
| Processor.DryBlockKeepsAudio | Source/PluginProcessor.cpp:191-197 | with `drywet == 0` a block leaves every channel's samples unchanged |
| Processor.BlockSilencesOutputs | Source/PluginProcessor.cpp:182-197 | after a block, the output channels past the inputs are silent and the channels past both counts keep their samples |
| Processor.DefaultBlockNotReady | Source/PluginProcessor.cpp:191-196 | when every reverberator, and every new one, is in the default state (4 lines, exponents `{1, 2, 3, 4}`), no block of one sample or more on one input channel or more can run inside the banks |
| Processor.AudioProcessor.constructor | Source/PluginProcessor.cpp:5-23 | one reverberator per input channel, each in the initial state for the dimension and exponents, and the checked initial fields |
| Processor.AudioProcessor.PushReverberator | Source/PluginProcessor.cpp:195 | a new reverberator in the initial state joins the end of the list; the fields stay |
| Processor.AudioProcessor.CheckProcessingState | Source/PluginProcessor.cpp:116-123 | the fields become the checked fields; the reverberators stay |
| Processor.AudioProcessor.SetDimension | Source/PluginProcessor.cpp:92-99 | the first `channelsNum` reverberators take the dimension and nothing else changes in them; the fields are pended, take the dimension and are re-checked |
| Processor.AudioProcessor.SetChannelDimensions | Source/PluginProcessor.cpp:95-96 | the loop gives the first `channelsNum` reverberators the new dimension |
| Processor.AudioProcessor.SetDimensionAt | Source/PluginProcessor.cpp:96 | only reverberator `i` changes, and only its dimension |
| Processor.AudioProcessor.SetDelayPowers | Source/PluginProcessor.cpp:101-108 | the first `channelsNum` reverberators are regenerated from the OLD exponents; then the new ones are stored and the state re-checked |
| Processor.AudioProcessor.RegenerateChannels | Source/PluginProcessor.cpp:104-105 | the loop regenerates the first `channelsNum` reverberators from the stored exponents |
| Processor.AudioProcessor.GenerateDelayValuesAt | Source/PluginProcessor.cpp:105 | only reverberator `i` is regenerated |
| Processor.AudioProcessor.ProcessBlock | Source/PluginProcessor.cpp:166-198 | the fields are checked; when pending, the reverberators and the buffer are untouched; when running, the extra outputs are cleared and every input channel holds its reverberator's output, new reverberators joining for channels without one; the existing reverberator objects stay, in order, at the front of the list |
| Processor.AudioProcessor.ClearThenRun | Source/PluginProcessor.cpp:182-197 | the running branch: clears the extra output channels, then runs the channel loop over the cleared buffer, keeping the existing reverberator objects as a prefix |
| Processor.AudioProcessor.RunChannels | Source/PluginProcessor.cpp:191-197 | the channel loop leaves the reverberators and the buffer as the channel-by-channel recurrence gives them; existing reverberator objects are kept and new ones only join at the end |
| Processor.AudioProcessor.RunChannel | Source/PluginProcessor.cpp:193-196 | one pass of the channel loop advances the state from `ch` channels to `ch + 1` |
| Processor.AudioProcessor.ReverberateAt | Source/PluginProcessor.cpp:196 | only channel `ch` and its reverberator change, to the result of that reverberator's block |
| Processor.AudioProcessor.SetProcessingFlag | Source/PluginProcessor.cpp:110-114 | the flag is stored and the state pended, without a check |
| Processor.AudioProcessor.SetDryWet | Source/PluginProcessor.cpp:125-128 | the ratio is stored verbatim, without clamping |
| Processor.AudioProcessor.PrepareToPlay | Source/PluginProcessor.cpp:131-134 | the host's block size becomes the block length |
| Processor.ClearChannels | Source/PluginProcessor.cpp:182-183 | the channels from the input count up to the output count are cleared, and no others |
| Processor.ClearChannel | Source/PluginProcessor.cpp:183 | every sample of channel `i` becomes 0; the other channels stay |
| Editor.CorrectSliderValue | Source/PluginEditor.cpp:146-150 | in `[1, 10]` for a non-negative value, non-zero in `(-10, 10]` for a negative one, and the identity on `[1, 10]` |
| Editor.CorrectSliderValueIsShiftedMod | Source/PluginEditor.cpp:146-150 | on non-negative values the correction is `(v - 1) mod 10 + 1` |
| Editor.CorrectSliderValueIdempotent | Source/PluginEditor.cpp:146-150 | correcting a corrected value changes nothing |
| Editor.ClickedDimension | Source/PluginEditor.cpp:94-102 | button `b` among the four selects dimension `2^(b+1)`; anything else keeps the current one |
| Editor.MatrixComponent.constructor | Source/PluginEditor.cpp:46-68 | the current dimension is the given one and nothing is posted |
| Editor.MatrixComponent.ButtonClicked | Source/PluginEditor.cpp:92-110 | a click on the current dimension changes nothing and posts nothing; any other posts one matrix message and makes its dimension current; the last message always names the current dimension and no message repeats the previous one |
| Editor.DelayComponent.constructor | Source/PluginEditor.cpp:115-144 | one slider per delay, each showing the corrected delay |
| Editor.DelayComponent.RandomizeSliders | Source/PluginEditor.cpp:204-212 | each slider shows the correction of its own non-negative random draw, so lies in `[1, 10]`; nothing is posted |
| Editor.DelayComponent.UpdateSliders | Source/PluginEditor.cpp:214-232 | processing is forbidden, and exactly `|d|` sliders are rebuilt, each at 10, whatever `d` holds |
| Editor.DelayComponent.SendMessage | Source/PluginEditor.cpp:234-242 | exactly one delays message is posted, holding the slider values in order |
| Editor.DelayComponent.SliderValueChanged | Source/PluginEditor.cpp:244-247 | moving a slider forbids processing |
| Editor.MatrixCallsSteps | Source/PluginEditor.cpp:349-367 | a matrix message makes the four processor calls in order: dimension, forbid, exponents, allow |
| Editor.DelaysCallsSteps | Source/PluginEditor.cpp:357-367 | a delays message makes the two processor calls in order: exponents, allow |
| Editor.MatrixMessageThenRuns | Source/PluginEditor.cpp:342-368 | after a matrix message the processor holds the dimension and matching exponents, flag allowed, still pending; the next block makes it run |
| Editor.DelaysMessageThenRuns | Source/PluginEditor.cpp:354-367 | after a delays message the processor holds the exponents, flag allowed, still pending; the next block runs exactly when there is one exponent per line |
| Editor.MainComponent.constructor | Source/PluginEditor.cpp:303-323 | delays `{0, 0, 0, 0}` and dimension 4, four sliders at 10, nothing posted, and the processor has received the dimension and then the delays |
| Editor.MainComponent.HandleMessage | Source/PluginEditor.cpp:342-368 | a matrix message stores the dimension, resizes the delays to it and rebuilds the sliders; a delays message stores the delays; either way the processor receives exactly that message's calls, ending with the flag allowed, and the delay component posts nothing |
| Editor.MainComponent.UpdateDelays | Source/PluginEditor.cpp:370-381 | the delays are cut or padded with 1s to one per line; the sliders are rebuilt; processing is forbidden and the processor receives the delays; the delay component posts nothing |
| Editor.ResizedPowersOk | Source/PluginEditor.cpp:372-378 | cutting or padding with 1s to at most 16 entries keeps the prefix, has the right length, and keeps every delay inside `int` |

## Left out

- Floating point: samples and gains are exact reals. Rounding, denormals (`ScopedNoDenormals`) and the `double` result of `std::pow` are not modelled.
- JUCE host plumbing: bus layouts, MIDI, programs, state save and load, `createEditor` and `releaseResources` are not modelled. So are `getDimension` and `getDelayPowers`, which only read fields.
- Painting and layout, the GUI widgets, and the tooltip callbacks of `CustomComponents.cpp` are not modelled. `CustomComponents.h` is not part of this model.
- The message base class, `dynamic_cast` and the `bad_cast` handler with its log line: messages are the datatype `Message`, which cannot be ill-typed.
- `AdditionalComponent` (the dry/wet slider and the save and show-IR stubs) and the information component are not modelled.
- The processor reference that `MatrixComponent` receives is not modelled, because the component never uses it.
- Concurrency between the editor's thread and the audio thread: calls are a sequential trace.
- `std::srand(std::time(nullptr))` and `std::rand`: the draws are a parameter of `RandomizeSliders`, non-negative as `std::rand` guarantees.
- JUCE sliders clamp to their range `[1, 10]`. The model keeps the value the code sets, which always lies in that range.
- `jassert`: the assertion on the initializer lists and on `rowVal`'s length are preconditions. The one on the matrix size (a power of two) is a precondition too. That bit test also accepts 0, and on size 0 the source's `HadamarMatrix` calls itself with size 0 again and never terminates; the precondition leaves that case out. The one in `Reverberate` that the delay count equals `N` is a debug-build check: the model follows a release build and requires only at least `N` delays, which is all the loop reads.
- `MaxDelay`, `maxPowValues`, `CalculateMaxPowerValues`, `commonMatrixGain` and `currentMatrix` are declared but never used. The model keeps only the two constants.
- Processor.AudioProcessor.constructor: the channel count is a parameter, because the host supplies it through `getTotalNumInputChannels`.
- Processor.AudioProcessor.ProcessBlock: requires that every input channel's block stays inside its bank. The source reads and writes outside the bank otherwise, which is undefined behaviour.
- Processor.AudioProcessor.ProcessBlock: the host buffer is a sequence of distinct arrays outside the processor, with the channel counts as parameters.
- Processor.AudioProcessor.SetDelayPowers: requires that the new exponents give delays that fit an `int`. The source's conversion of `std::pow` to `int` is undefined beyond that.
- Editor.MainComponent.HandleMessage: requires the same of the exponents in a delays message.
- Processor.AudioProcessor.PrepareToPlay: only the block length is modelled; the sample rate is not read.
- Editor.MainComponent.HandleMessage: the contract states the processor's fields after the calls, but not the reverberators' states. Those follow from `SetDimension` and `SetDelayPowers`.
- Editor.MainComponent.UpdateDelays: likewise states the processor's fields, not the reverberators' states.
