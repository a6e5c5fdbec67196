# First EQ: the coefficient-configuration core, in Dafny

First EQ is a JUCE audio plugin: a three-band equalizer. Each channel runs a
fixed cascade of nine biquad stages. There is a low-cut group of four
sections, one peak section and a high-cut group of four sections, and every
stage has a bypass flag. Seven user parameters set the cascade: three
frequencies, peak gain, peak quality and two slopes (12, 24, 36 or 48 dB/Oct).
This project models how a parameter snapshot becomes the configuration of
that cascade, and proves what that configuration is:

- `chain.dfy` (module `Chain`) holds the cascade. `CutGroup` is a class with
  a coefficient array and a bypass array of four slots each, updated in
  place. `FilterChain` is one channel. The pure function `CutUpdate` says
  what a cut group holds after the slope switch, and `ChainMagnitude` says
  what the response loop computes at one frequency.
- `parameters.dfy` (module `Parameters`) holds the parameter layout: ranges,
  defaults, and the generated slope labels "12 dB/Oct" … "48 dB/Oct". It also
  holds the snapshot read (`GetChainSettings`) with its float-to-slope cast.
- `processor.dfy` (module `Processor`) holds the bus-layout check and the
  `EqProcessor` class. Its `PrepareToPlay` and `ProcessBlock` install the peak
  coefficients and the low-cut sections into the left and right cascades.
- `editor.dfy` (module `Editor`) holds the slider text and the knob
  geometry. It also holds the response-curve component: a change flag
  coalesced by a timer, a mono copy of the cascade, and one magnitude per
  pixel column.

Filter design and evaluation live in the DSP library: the peak and
Butterworth designs, the per-stage magnitude, the logarithmic frequency axis
and the decibel conversions. They enter the model as function-valued
parameters (`Processor.Library`, `Editor.CurveLibrary`, `Chain.Probe`).
Coefficients are an opaque value the model only copies. Host, clock and
threading calls are modelled as method parameters or left out.

The processor never writes the high-cut group. Neither `prepareToPlay` nor
`processBlock` reads the high-cut parameters or touches that group, while the
editor's response curve does apply them (Source/PluginEditor.cpp:193,195). So
the drawn curve shows a high-cut that the audio path never applies.
`Processor.RefreshIgnoresHighCut` states the processor's side of this.

## Model

| member | source | states |
|---|---|---|
| Chain.ActiveCount | Source/PluginProcessor.cpp:244-273 | the slope switch turns on slope+1 sections for the four known slopes (at most four), and none for any other value |
| Chain.CutUpdateAt | Source/PluginProcessor.cpp:240-273 | after the update, slot i holds section i and is on if i < ActiveCount(slope) (slope+1 for slopes 0..3, 0 for any other value); otherwise it is bypassed and keeps its old coefficients |
| Chain.BypassPattern | Source/PluginProcessor.cpp:113-146 | for slope k in 0..3, slot i is bypassed exactly when i > k |
| Chain.ActiveSlotsHoldSections | Source/PluginProcessor.cpp:119-144 | every slot left on has index ≤ slope and holds exactly designed section i |
| Chain.BypassedSlotsKeepCoefficients | Source/PluginProcessor.cpp:240-273 | a bypassed slot is never written: its coefficients are the ones it held before |
| Chain.UnknownSlopeBypassesAll | Source/PluginProcessor.cpp:240-244 | a slope outside 0..3 matches no case of the switch, so all four slots end bypassed with their old coefficients |
| Chain.CutUpdateIdempotent | Source/PluginProcessor.cpp:239-273 | applying the update twice with the same sections and slope gives the state of applying it once |
| Chain.ActiveSlotCount | Source/PluginProcessor.cpp:113-146 | exactly ActiveCount(slope) sections of the group are on after the update |
| Chain.CutGroup.Update | Source/PluginProcessor.cpp:239-273 | the in-place update (four bypass writes, then the slope's case of the switch) leaves the arrays holding CutUpdate of the old slots |
| Chain.CutGroup.Assign | Source/PluginEditor.cpp:194-195 | the group's arrays end holding exactly the given four slots |
| Chain.CutGroup.Attenuate | Source/PluginEditor.cpp:221-245 | multiplying by each non-bypassed section's magnitude, slot 0 first, gives the running product Accumulate over the group's slots |
| Chain.FilterChain.MagnitudeAt | Source/PluginEditor.cpp:216-245 | the loop body for one column (start at 1, then peak, low-cut 0..3, high-cut 0..3) returns ChainMagnitude of the cascade's state |
| Chain.MagnitudeOfActiveStages | Source/PluginEditor.cpp:216-245 | a cascade's magnitude is the product of the magnitudes of exactly its non-bypassed stages |
| Chain.AccumulateIsProduct | Source/PluginEditor.cpp:216-245 | the running product from a start value equals the start value times the product over the non-bypassed stages |
| Chain.AllBypassedIsUnity | Source/PluginEditor.cpp:216-245 | with every stage bypassed the magnitude is exactly 1 |
| Chain.SameActiveStagesSameMagnitude | Source/PluginEditor.cpp:216-245 | two cascades with the same non-bypassed coefficients have the same magnitude, whatever their bypassed stages hold |
| Parameters.SlopeChoices | Source/PluginProcessor.cpp:381-388 | the loop builds four labels; label i is (12 + 12·i) followed by " dB/Oct", that is "12 dB/Oct", "24 dB/Oct", "36 dB/Oct", "48 dB/Oct" |
| Parameters.SlopeLabelNamesSlope | Source/PluginProcessor.cpp:382-386 | the digits in front of " dB/Oct" in label i read back as 12·(i+1) |
| Parameters.SlopeLabelsDistinct | Source/PluginProcessor.cpp:381-388 | different choice indices carry different labels |
| Parameters.SlopeLabelsSpelled | Source/PluginProcessor.cpp:382-386 | the four labels spelled out as text |
| Parameters.ParseNatToString | Source/PluginProcessor.cpp:384 | the decimal text of a number reads back as that number |
| Parameters.CreateParameterLayout | Source/PluginProcessor.cpp:373-392 | the seven parameters in order, with their ids, ranges, intervals, skews and defaults; both slope choices carry the four labels and default to index 0; every parameter is well formed (default inside its range); the defaults are the fields of `DefaultSettings` |
| Parameters.TruncateToInt | Source/PluginProcessor.cpp:368-369 | the cast of a raw value to the slope enumeration drops the fraction toward zero |
| Parameters.SnapshotInRange | Source/PluginProcessor.cpp:360-371 | a snapshot of a store whose values respect the declared ranges respects them too, and its slopes are in 0..3 |
| Parameters.SnapshotRoundTrip | Source/PluginProcessor.cpp:360-371 | reading the snapshot from the store that holds its values gives the snapshot back |
| Parameters.DefaultsInRange | Source/PluginProcessor.cpp:376-390 | the default of every parameter lies in its range, and the default store reads as the default snapshot |
| Processor.IsBusesLayoutSupported | Source/PluginProcessor.cpp:202-212 | a layout is accepted if and only if the main output is mono or stereo and the main input equals it |
| Processor.SupportedLayoutChannelCount | Source/PluginProcessor.cpp:202-212 | an accepted layout has one or two output channels and as many input channels |
| Processor.DeclaredLayoutSupported | Source/PluginProcessor.cpp:13-24 | the stereo-in, stereo-out layout the processor declares is accepted; a layout without an output bus is not |
| Processor.CutOrder | Source/PluginProcessor.cpp:238 | the requested Butterworth order is 2·(slope+1): 2, 4, 6 or 8 for the four slopes, half of it being the number of sections switched on |
| Processor.RefreshIdempotent | Source/PluginProcessor.cpp:232-309 | updating a cascade twice from the same snapshot gives the state of updating it once |
| Processor.RefreshIgnoresHighCut | Source/PluginProcessor.cpp:232-309 | the update leaves the high-cut group as it was and does not depend on the high-cut frequency or slope |
| Processor.StereoSlotsAgree | Source/PluginProcessor.cpp:235-309 | whatever the two channels held before, left and right end with the same peak coefficients, the same low-cut bypass pattern and the same coefficients in every switched-on low-cut slot |
| Processor.StereoCoherent | Source/PluginProcessor.cpp:235-309 | when the two channels' high-cut groups and peak flags agree, they end with the same peak stage and the same response at every frequency |
| Processor.EqProcessor.UpdateFromSettings | Source/PluginProcessor.cpp:232-309 | both cascades become Refreshed of their old state with one peak coefficient and one section list, and the two peaks are equal |
| Processor.EqProcessor.PrepareToPlay | Source/PluginProcessor.cpp:94-183 | records sample rate and block size, then both cascades become Refreshed of their old state from the current snapshot at the new rate |
| Processor.EqProcessor.ProcessBlock | Source/PluginProcessor.cpp:217-318 | both cascades become Refreshed of their old state from the current snapshot at the prepared rate |
| Editor.Scaled | Source/PluginEditor.cpp:90-95 | a value is shown in thousands exactly when it is above 999; the shown number times 1000 (or times 1) is the value |
| Editor.UnitText | Source/PluginEditor.cpp:104-110 | an empty suffix adds nothing; otherwise the text starts with a space and ends with the suffix, and the one character between them is "K" exactly when the value is shown in thousands |
| Editor.DisplayString | Source/PluginEditor.cpp:79-112 | a choice shows its current choice name unchanged; a float shows its scaled number (2 decimals in thousands, default format otherwise) then the unit text; any other kind shows only the unit text |
| Editor.DisplayUnitMarker | Source/PluginEditor.cpp:104-110 | with an empty suffix neither the space nor the "K" is appended; otherwise a space follows the number, "K" appears exactly for values above 999, and the text ends with the suffix |
| Editor.FrequencyKnobText | Source/PluginEditor.cpp:79-112 | 1500 with suffix "Hz" reads as the two-decimal text of 1.5 then " KHz"; 750 reads as its own text then " Hz"; an empty suffix leaves the number alone |
| Editor.SliderBounds | Source/PluginEditor.cpp:150-160 | the knob bounds are a square of side min(w, h) − 2·textBoxHeight whose centre (with truncating integer halving) is the component's centre |
| Editor.SliderInsideComponent | Source/PluginEditor.cpp:153-159 | when the text boxes fit, the square lies inside the component |
| Editor.Step | Source/PluginEditor.cpp:178-198 | a change sets the flag; a tick clears it and counts one refresh exactly when it was set |
| Editor.ChangesOnlyMarkDirty | Source/PluginEditor.cpp:181 | any number of changes only set the flag |
| Editor.BurstYieldsOneRecompute | Source/PluginEditor.cpp:178-198 | one or more changes followed by a tick give exactly one refresh and leave the flag clear |
| Editor.IdleTicksDoNothing | Source/PluginEditor.cpp:186 | ticks with no change in between change nothing |
| Editor.RecomputesAtMostTicks | Source/PluginEditor.cpp:184-198 | there are never more refreshes than ticks |
| Editor.LatestChangeNotLost | Source/PluginEditor.cpp:178-198 | after any history, a change leaves a refresh pending and the next tick performs exactly one |
| Editor.RecomputeFollowsSnapshot | Source/PluginEditor.cpp:189-195 | if the section installer follows the processor's rule, a refresh switches on as many low-cut and high-cut sections as the one snapshot's two slopes ask for, and refreshing again from that snapshot changes nothing |
| Editor.DecibelScale | Source/PluginEditor.cpp:250-255 | −24 dB is drawn on the bottom edge, +24 dB on the top edge, and a louder level is drawn strictly higher |
| Editor.ResponsePath | Source/PluginEditor.cpp:257-260 | the path has one point per level; point i is at x + i, at the height of level i |
| Editor.ResponseCurveComponent.constructor | Source/PluginEditor.cpp:162-169 | a new component has no change pending and no refresh done |
| Editor.ResponseCurveComponent.ParameterValueChanged | Source/PluginEditor.cpp:178-182 | the component's state takes a Change step: the flag is set |
| Editor.ResponseCurveComponent.TimerCallback | Source/PluginEditor.cpp:184-198 | the component takes a Tick step; if the flag was set, the mono cascade becomes Recomputed from one snapshot, otherwise it is unchanged |
| Editor.ResponseCurveComponent.ResponseMagnitudes | Source/PluginEditor.cpp:206-248 | one level per pixel column (w entries); entry i is the decibel value of the cascade's magnitude at column i's frequency on the 20 Hz – 20 kHz log axis |
| Editor.ResponseCurveComponent.Paint | Source/PluginEditor.cpp:206-260 | one path point per pixel column, each at the height of that column's level |

## Left out

- Filter design and evaluation (the peak and Butterworth designs, the per-stage magnitude, the log frequency axis, the decibel conversions) are library code over floating point. They are function-valued parameters. The number of sections the Butterworth design returns is a precondition (`Designable`, `CutsDesignable`), because the source indexes the returned list without checking it.
- The header helpers `makePeakFilter`, `makeLowCutFilter`, `makeHighCutFilter` and `updateCutFilter` that the response curve calls are in PluginProcessor.h, which is not part of this model. They are parameters of `Editor.CurveLibrary`. `updateCoefficients` is modelled as replacing the stage's coefficients, as the processor's inline code does.
- Editor.RecomputeFollowsSnapshot: proved only under the assumption that `updateCutFilter` follows the processor's inline slope rule, because that helper's body is not part of this model.
- Sample processing (`leftChain.process`, `rightChain.process`), the filter state reset in `prepare`, the loop that clears output channels beyond the inputs (Source/PluginProcessor.cpp:229-230), and the empty per-channel loop are DSP over float buffers. The model keeps only the coefficients and bypass flags.
- Floating point: parameter values, coefficients and magnitudes are `real`. Float rounding of `val / 1000` and of the magnitude product is not modelled.
- Editor.DisplayString: number formatting is the parameter `toText(value, decimals)`. JUCE's `String(float, 0)` uses the default float format rather than zero decimals, and that text is the library's. The assertion on the other-parameter branch only fires in debug builds, so it is not modelled.
- Editor.ResponsePath: `getX() + i` mixes an `int` with a `size_t` in the source. It is modelled as integer addition, which agrees for the non-negative x of local bounds.
- Editor.ResponseCurveComponent.Paint: requires a positive width, because with zero columns the source reads `mags.front()` of an empty vector.
- Atomic loads, `compareAndSetBool` and the audio/timer threads are sequential in the model. The timer period (60 Hz) and listener registration are not modelled.
- Drawing: `drawRotarySlider`, the slider's `paint`, the background and strokes of the curve's `paint`, and the editor's `resized` float layout are graphics calls.
- Host boilerplate (name, MIDI flags, programs, tail length, `hasEditor`, `createEditor`) and the empty `getStateInformation` and `setStateInformation` are left out. They hold no logic. `createEditor` returns a generic editor, so the custom editor modelled here is never shown by the processor as written.
- `resetAllParam` and the `Slope` enumeration are declared in PluginProcessor.h, which is not part of this model. The slope is an `int`, 0..3 for 12..48 dB/Oct.
- The peak stage's bypass flag is never set by the source; the model carries it unchanged.
