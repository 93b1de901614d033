# Indoor pollutant simulation — a verified model of the simulation core

This project models the core of an SFML application that simulates how the
concentration of an indoor pollutant changes in a closed room. The
user sets up the room on a settings screen, and the settings are saved as `key:value` lines. The
simulation screen reads those lines back. From the pollutant and the number of passages and
windows it derives an inflow rate S and a removal constant K. It then advances the
single-box model

    C(t) = (C0 - S/(K*V)) * e^(-K*t) + S/(K*V)

one simulated minute per second of frame time. The concentration is shown as a cloud of
particles whose number follows it. Parameters are typed into numeric
input boxes.

The Dafny modules follow the program's structure:

| module | models |
|---|---|
| `Wrappers` | `Option`, for conversions that throw |
| `NumberText` | `std::stof` and `std::stoi`: the longest numeric prefix after white space, failing (`None`) on no digits or overflow |
| `InputField` | the `InputBox` class of `src/setting/Setting.cpp`: buffer filter, focus, cursor blink, `getFloatValue` |
| `SettingsFile` | the settings lines and how `loadSettingsFromFile` applies them |
| `Kinetics` | the per-pollutant presets, the per-opening increments, the K and volume floors, the closed form |
| `Geometry` | the passage and window outlines rebuilt by `reconstructOpenings` |
| `Particles` | spawning ranges, the target particle count, the rate-limited adjustment, the per-frame motion/fade/erase pass |
| `Simulation` | the `SimulationScreen` class: its state and its methods (load, openings, default S/K, edits, run/stop/reset, update, particles) |

Stateful code is written as imperative Dafny:
- the screen and the input box are classes whose methods update fields;
- the settings loop, the spawn/retire loops and the in-place particle pass are `while` loops with invariants.

Some screen methods are blocks of one source function given their own contracts:
- `AdvanceTime` and `StepParticles` are the two halves of `update`;
- `LockInitialConcentration` and `TakeRates` are the two blocks of `runSimulation`;
- `ResetRunState`, `ApplyDefaultParameters`, `RestoreDefaultC0` and `RestartParticles` are the steps of `resetSimulationState`, which the constructor shares;
- `LoadRoom` is the load-and-rebuild step shared by the constructor and `reset`;
- `ReadSettingsLine` is the body of the `loadSettingsFromFile` loop, and `StoreSetting` is its if-chain over the key.

Each method is proved against a pure function (`ApplyLines`, `DefaultRates`,
`Concentration`, `Adjusted`, `StepAll`, `NextText`, `Passages`/`Windows`), and
the properties are proved about those functions.

Floats are modelled as mathematical reals; `std::exp` is a parameter, assumed
(where a lemma needs it) to map 0 to 1, be positive, be non-decreasing and stay below 1 for negative arguments.
Random numbers are `Draw` values with every component in [0, 1), passed in by
the caller; the clock of the cursor is a `now` parameter.

## Model

| member | source | states |
|---|---|---|
| NumberText.ParseIntOfDigits | src/simulation/Simulation.cpp:124-126 | `std::stoi` of a plain digit string that fits an `int` yields its decimal value |
| NumberText.ParseFloat | src/simulation/Simulation.cpp:121-123 | a value `std::stof` yields is a finite float, within ±FLT_MAX |
| NumberText.ParseFloatOutOfRange | src/simulation/Simulation.cpp:121-123 | a scanned number whose magnitude exceeds FLT_MAX makes `std::stof` throw out_of_range |
| NumberText.ParseFloatOfDigits | src/simulation/Simulation.cpp:121-123 | `std::stof` of a decimal integer text is its value within FLT_MAX and throws beyond |
| NumberText.ParseFloatOfPointed | src/simulation/Simulation.cpp:121-123 | `std::stof` of "a.b", with n digits after the point, is a + b/10^n within FLT_MAX and throws beyond |
| NumberText.NoDigitNoNumber | src/simulation/Simulation.cpp:121-126 | both `std::stof` and `std::stoi` throw invalid_argument on a text without a digit |
| NumberText.ParseInt | src/simulation/Simulation.cpp:124-126 | a value `std::stoi` yields fits a 32-bit `int` |
| NumberText.ParseIntOutOfRange | src/simulation/Simulation.cpp:124-126 | a decimal integer text beyond INT_MAX makes `std::stoi` throw out_of_range |
| InputField.NextText | src/setting/Setting.cpp:35-58 | an unfocused box or a non-text event leaves the buffer alone; otherwise the buffer is unchanged, loses its last character, or gains one accepted character; typing never grows it past 10 characters |
| InputField.BackspaceDropsLast | src/setting/Setting.cpp:39-42 | backspace removes exactly the last character and does nothing to an empty buffer |
| InputField.AppendExactly | src/setting/Setting.cpp:43-51 | a code point is appended iff it is ASCII, not CR/LF, a digit / first '.' / leading '-', and the buffer holds fewer than 10 characters; then it is appended at the end |
| InputField.NextTextWellFormed | src/setting/Setting.cpp:43-51 | every event keeps the buffer a signed decimal: only digits, '.', '-'; at most one '.'; '-' only first; at most 10 characters |
| InputField.DigitBufferConverts | src/setting/Setting.cpp:116-124 | a typed buffer holding a digit converts without an exception |
| InputField.DigitlessBufferFails | src/setting/Setting.cpp:116-124 | a typed buffer without a digit makes `stof` throw |
| InputField.FloatValueOf | src/setting/Setting.cpp:116-124 | `getFloatValue` is the `stof` value when the conversion succeeds and 0 when it throws; the special cases for "", "-", "." and "-." agree with this |
| InputField.TypedBufferWellFormed | src/setting/Setting.cpp:35-58 | any sequence of events keeps a well-formed buffer well formed |
| InputField.WellFormedBufferConverts | src/setting/Setting.cpp:116-124 | `stof` on a typed buffer succeeds exactly when the buffer holds a digit |
| InputField.DigitlessBuffers | src/setting/Setting.cpp:118-119 | the typed buffers without a digit are exactly "", "-", "." and "-." — the cases `getFloatValue` maps to 0 |
| InputField.WellFormedFloatValue | src/setting/Setting.cpp:116-124 | on a typed buffer `getFloatValue` is the converted value when there is a digit and 0 otherwise; its exception handler is never reached |
| InputField.DefaultC0TextValue | src/simulation/Simulation.cpp:470-471 | the text "100.0" written into the C0 box reads back as 100 |
| InputField.InputBox.constructor | src/setting/Setting.cpp:10 | a new box is empty, unfocused, with the cursor hidden |
| InputField.InputBox.HandleEvent | src/setting/Setting.cpp:35-58 | the buffer becomes `NextText` of the old buffer; a well-formed buffer stays well formed; the cursor invariant is kept |
| InputField.InputBox.Update | src/setting/Setting.cpp:60-69 | focused: the cursor flips and the clock restarts once more than 0.5 s have passed, otherwise nothing changes; unfocused: the cursor is hidden |
| InputField.InputBox.SetActive | src/setting/Setting.cpp:89-104 | the focus and the cursor both become b; focusing restarts the clock |
| InputField.InputBox.SetText | src/setting/Setting.cpp:108-114 | afterwards `GetText` returns exactly the given text |
| InputField.InputBox.GetFloatValue | src/setting/Setting.cpp:116-124 | a box's value is the `stof` value of its text, or 0 when that throws; a typed buffer without a digit reads as 0 |
| SettingsFile.FieldNamed | src/simulation/Simulation.cpp:121-126 | the six keys, compared exactly, each select their own field and no other key selects any |
| SettingsFile.SplitLine | src/simulation/Simulation.cpp:119 | when a line splits, the key holds no ':' and the value is not empty |
| SettingsFile.SplitNeedsColon | src/simulation/Simulation.cpp:119 | a line splits exactly when it has a ':' before its last character |
| SettingsFile.SplitJoin | src/simulation/Simulation.cpp:119 | a key without ':' joined to a non-empty value by ':' splits back into that key and value |
| SettingsFile.SplitIsJoin | src/simulation/Simulation.cpp:119 | every line that splits is such a join |
| SettingsFile.ApplyLine | src/simulation/Simulation.cpp:119-131 | a line either changes nothing or changes one field only |
| SettingsFile.KeyValueLine | src/simulation/Simulation.cpp:119-131 | a known key whose value converts sets that field to the `stof`/`stoi` result; an unknown key or a failed conversion changes nothing |
| SettingsFile.UnsplitLineIgnored | src/simulation/Simulation.cpp:119 | a line with no ':' before its last character is ignored |
| SettingsFile.ApplyLinesAppend | src/simulation/Simulation.cpp:115-133 | reading a + b is reading a and then b from the settings a left |
| SettingsFile.ApplyLineFrame | src/simulation/Simulation.cpp:121-126 | a line changes at most the field its key names |
| SettingsFile.UnnamedFieldKept | src/simulation/Simulation.cpp:110-136 | a field named by no line keeps its earlier value (the defaults when the file is missing or silent) |
| Kinetics.PollutantOf | src/simulation/Simulation.cpp:271 | indices 0, 1, 2 name the three pollutants; every other index falls to the default branch |
| Kinetics.BaseRates | src/simulation/Simulation.cpp:12-17 | every preset has S > 0 and K above the floor |
| Kinetics.BaseRatesFollowPresets | src/simulation/Simulation.cpp:271 | the switch picks (1, 0.005), (5, 0.002), (0.1, 0.05) for indices 0–2 and (10, 0.1) otherwise |
| Kinetics.FloorK | src/simulation/Simulation.cpp:275 | K is raised to 0.0001 when below it and kept otherwise (the same floor is applied after an edit at line 308 and on a run at lines 439-440) |
| Kinetics.DefaultRates | src/simulation/Simulation.cpp:268-279 | the default K is never below the floor |
| Kinetics.SealedRoomRates | src/simulation/Simulation.cpp:273-276 | without openings the defaults are the preset |
| Kinetics.OpeningRaisesInflow | src/simulation/Simulation.cpp:20-23 | each passage adds 5 to S, each window 3 |
| Kinetics.RemovalUnfloored | src/simulation/Simulation.cpp:274-276 | with non-negative counts K is the preset plus 0.02 per passage and 0.05 per window, the floor never applying |
| Kinetics.RemovalMonotone | src/simulation/Simulation.cpp:274-276 | more openings never lower K |
| Kinetics.RoomVolume | src/simulation/Simulation.cpp:139-140 | V is width·depth·height when that is at least 0.001, and 0.001 otherwise |
| Kinetics.Concentration | src/simulation/Simulation.cpp:411-424 | C(t) is the closed form when that is non-negative and 0 otherwise; never negative |
| Kinetics.ConcentrationAtStart | src/simulation/Simulation.cpp:421-423 | at t = 0 the concentration is C0 |
| Kinetics.SteadyState | src/simulation/Simulation.cpp:422 | S/(K·V) is the concentration at which the removal K·V·C equals the inflow S |
| Kinetics.SteadyStateIsFixed | src/simulation/Simulation.cpp:421-423 | starting at S/(K·V) the concentration stays there |
| Kinetics.NoInflowDecays | src/simulation/Simulation.cpp:421-423 | with S = 0 the concentration is C0·e^(-K·t) |
| Kinetics.ConcentrationBetween | src/simulation/Simulation.cpp:421-423 | for t ≥ 0 and any S, the concentration lies between C0 and S/(K·V); a negative S (which the S box accepts) gives a negative S/(K·V), and the clamp then keeps C(t) between 0 and C0 |
| Kinetics.ConcentrationLeavesStart | src/simulation/Simulation.cpp:421-423 | with K > 0 and S ≥ 0 the concentration differs from C0 at every t > 0 unless C0 is the steady state |
| Kinetics.ConcentrationApproaches | src/simulation/Simulation.cpp:421-423 | for any S, later concentrations are never farther from S/(K·V) than earlier ones, including after the clamp at 0 |
| Geometry.OpeningCount | src/simulation/Simulation.cpp:162-182 | a stored count draws min(max(n, 0), 2) openings |
| Geometry.PassageOnShape | src/simulation/Simulation.cpp:162-171 | a passage is a 0.25 × 0.7 rectangle centred on its z face, corners in outline order |
| Geometry.WindowOnShape | src/simulation/Simulation.cpp:173-182 | a window is a 0.4 × 0.5 rectangle centred on its x face, corners in outline order |
| Geometry.Passages | src/simulation/Simulation.cpp:153-171 | the number of passages drawn is the clamped count; the first is the passage on z = -0.5, the second the one on z = +0.5 |
| Geometry.Windows | src/simulation/Simulation.cpp:172-182 | the number of windows drawn is the clamped count; the first is the window on x = -0.5, the second the one on x = +0.5 |
| Geometry.DrawnOpeningsShaped | src/simulation/Simulation.cpp:153-183 | every drawn passage is a centred passage rectangle on its z face, every drawn window a centred window rectangle on its x face |
| Geometry.OpeningsTouchOneWall | src/simulation/Simulation.cpp:153-183 | every passage corner lies on a z wall only and every window corner on an x wall only |
| Particles.Uniform | src/simulation/Simulation.cpp:486-488 | a draw u in [0, 1) lands in [lo, hi) |
| Particles.Spawn | src/simulation/Simulation.cpp:481-499 | a new particle has position in [-0.49, 0.49)³, velocity in [-0.02, 0.02)³, alpha 255 and lifetime in [2.5, 5) |
| Particles.SpawnAll | src/simulation/Simulation.cpp:522-529 | the spawned particles correspond one to one, in order, to the draws used |
| Particles.SpawnedOk | src/simulation/Simulation.cpp:481-499 | every spawned particle satisfies the particle invariant |
| Particles.LifetimeInRange | src/simulation/Simulation.cpp:496 | the maximum lifetime scaled by a factor in [0.5, 1) lies in [2.5, 5) seconds |
| Particles.ReferenceConcentration | src/simulation/Simulation.cpp:504-508 | the reference is at least max(C0, 1) |
| Particles.Trunc | src/simulation/Simulation.cpp:513 | the cast to `int` truncates toward zero: the result is the integer next to x on the side of 0 |
| Particles.TargetParticleCount | src/simulation/Simulation.cpp:511-516 | the target count lies in [0, capacity] |
| Particles.NoConcentrationNoParticles | src/simulation/Simulation.cpp:511-516 | a target concentration ≤ 0 asks for no particles |
| Particles.TargetCountSaturates | src/simulation/Simulation.cpp:504-516 | from max(C0, 1) upwards the full capacity is asked for |
| Particles.TargetCountMonotone | src/simulation/Simulation.cpp:504-516 | a higher target concentration never asks for fewer particles |
| Particles.GrowCount | src/simulation/Simulation.cpp:522-529 | one frame spawns at most 2, at most the shortfall, and never past the cap |
| Particles.Retire | src/simulation/Simulation.cpp:533-535 | the length is kept; the front particle's lifetime becomes at most 0.1 and never grows |
| Particles.RetireIdempotent | src/simulation/Simulation.cpp:531-537 | repeating the retire step in the same frame changes nothing more |
| Particles.Adjusted | src/simulation/Simulation.cpp:502-538 | one frame of adjustment never removes a particle, adds at most two, never passes the target when growing, and never passes the cap |
| Particles.AdjustedGrowth | src/simulation/Simulation.cpp:522-529 | below target the population grows by 1 or 2 while below the cap, never past target or cap, and keeps the old particles in front |
| Particles.AdjustedShrink | src/simulation/Simulation.cpp:530-537 | above target the size is kept and only the front lifetime is cut |
| Particles.EmptyGrowsByTwo | src/simulation/Simulation.cpp:522-529 | from no particles with a target of at least two, exactly two are spawned, from the first two draws in order |
| Particles.AdjustedOk | src/simulation/Simulation.cpp:502-538 | the adjustment keeps every particle valid |
| Particles.Wrap | src/simulation/Simulation.cpp:554-559 | wrapping moves a coordinate by at most one room width and leaves in-room values alone |
| Particles.WrapStaysInRoom | src/simulation/Simulation.cpp:554-559 | a step of at most one room width from inside the room wraps back into it |
| Particles.Advance | src/simulation/Simulation.cpp:547-568 | velocity is kept; lifetime drops by dt; alpha is unchanged while lifetime > 0; once the lifetime is over, alpha drops by FADE_RATE·dt, clamped at 0; alpha stays ≥ 0 and never rises for dt ≥ 0 |
| Particles.AdvanceStaysInRoom | src/simulation/Simulation.cpp:549-559 | a particle in the room stays in the room |
| Particles.FadesOnceExpired | src/simulation/Simulation.cpp:562-568 | a visible particle whose lifetime runs out in this frame loses alpha in this frame |
| Particles.ExpiredFadesOut | src/simulation/Simulation.cpp:565-568 | once its lifetime is over, a particle whose alpha is at most n frames of fading is fully transparent after n frames |
| Particles.RetiredFadesOut | src/simulation/Simulation.cpp:533-535 | a particle retired to a short lifetime reaches alpha 0, and so is erased by the pass, within a bounded number of frames: lifetime frames plus alpha/(FADE_RATE·dt) frames |
| Particles.StepAll | src/simulation/Simulation.cpp:541-577 | the pass never adds particles and every survivor has alpha > 0 |
| Particles.StepAllAppend | src/simulation/Simulation.cpp:545-576 | the pass treats each particle independently, in order |
| Particles.StepAllExtend | src/simulation/Simulation.cpp:545-576 | extending the pass by one particle appends that particle advanced if its alpha stays positive, and nothing otherwise |
| Particles.ErasedInPass | src/simulation/Simulation.cpp:570-575 | a particle whose new alpha is 0 is erased, and the survivors before and after it keep their order |
| Particles.StepAllSurvivors | src/simulation/Simulation.cpp:570-575 | every survivor is an advanced original particle |
| Particles.StepAllOk | src/simulation/Simulation.cpp:541-577 | for dt ≥ 0 the pass keeps every particle valid |
| Simulation.SimulationScreen.constructor | src/simulation/Simulation.cpp:47-93 | settings are the defaults overlaid by the file; S and K are the defaults; C0 = C(t) = 100; stopped at t = 0; two particles spawned from the first two draws; the screen invariant holds |
| Simulation.SimulationScreen.Reset | src/simulation/Simulation.cpp:99-107 | the file is applied over the current settings, the openings are rebuilt and the simulation state is reset |
| Simulation.SimulationScreen.LoadRoom | src/simulation/Simulation.cpp:102-104 | the settings become `ApplyLines` of the old settings and the volume and outlines are those they give |
| Simulation.SimulationScreen.LoadSettingsFromFile | src/simulation/Simulation.cpp:110-140 | the settings become `ApplyLines` of the old settings; V becomes the floored product |
| Simulation.SimulationScreen.ReadSettingsLine | src/simulation/Simulation.cpp:116-131 | one line acts as `ApplyLine` |
| Simulation.SimulationScreen.StoreSetting | src/simulation/Simulation.cpp:120-131 | the if-chain over the key acts on the settings exactly as the line `key:value` does under `ApplyLine` |
| Simulation.SimulationScreen.ReconstructOpenings | src/simulation/Simulation.cpp:153-183 | the outlines become `Passages` and `Windows` of the stored counts |
| Simulation.SimulationScreen.InitializeDefaultSK | src/simulation/Simulation.cpp:268-279 | S and K become `DefaultRates` of the stored index and counts |
| Simulation.SimulationScreen.EditParameter | src/simulation/Simulation.cpp:303-317 | while running no edit applies; S takes the value; K takes it floored; C0 only before the first run, raised to 0 and copied into C(t) |
| Simulation.SimulationScreen.Update | src/simulation/Simulation.cpp:369-391 | while running at most one minute is added per frame, once a second has accumulated, and C(t) is recomputed; time is frozen otherwise; the particles become `StepAll(Adjusted(...))`; the invariant holds |
| Simulation.SimulationScreen.StepParticles | src/simulation/Simulation.cpp:389-390 | the particles become `StepAll(Adjusted(...))` of the old particles and the count the target concentration asks for; the capacity and particle invariant are kept |
| Simulation.SimulationScreen.AdvanceTime | src/simulation/Simulation.cpp:376-387 | while running, once a second has accumulated, exactly one minute passes, the second is taken off the accumulator and C(t) is recomputed; otherwise the accumulator just grows; stopped, time and C(t) stay; the invariant holds |
| Simulation.SimulationScreen.CalculateCurrentConcentration | src/simulation/Simulation.cpp:411-424 | C(t) becomes `Concentration` at the current time |
| Simulation.SimulationScreen.RunSimulation | src/simulation/Simulation.cpp:427-452 | the first run fixes C0 from its box, raised to 0; S and K are taken, K floored; the simulation runs; at t = 0 C(t) = C0, later C(t) is unchanged |
| Simulation.SimulationScreen.LockInitialConcentration | src/simulation/Simulation.cpp:428-435 | C0 becomes the entry raised to 0, the start is locked and C(t) and the particle target start from C0 |
| Simulation.SimulationScreen.TakeRates | src/simulation/Simulation.cpp:437-442 | S becomes the entry and K the entry raised to the floor |
| Simulation.SimulationScreen.StopSimulation | src/simulation/Simulation.cpp:455-457 | only the running flag is cleared |
| Simulation.SimulationScreen.ResetSimulationState | src/simulation/Simulation.cpp:460-478 | stopped, unlocked, t = 0, default S/K, C0 = C(t) = 100, the particles cleared and two spawned |
| Simulation.SimulationScreen.ResetRunState | src/simulation/Simulation.cpp:460-473 | stopped, unlocked, t = 0 with nothing accumulated, default S/K, C0 = C(t) = 100; the run-state invariant holds |
| Simulation.SimulationScreen.ApplyDefaultParameters | src/simulation/Simulation.cpp:466-473 | with the clock at 0, S and K become the defaults and C0, C(t) and the particle target 100, which satisfies the run-state invariant |
| Simulation.SimulationScreen.RestoreDefaultC0 | src/simulation/Simulation.cpp:470-473 | C0, C(t) and the particle target all become 100, read back from the box text |
| Simulation.SimulationScreen.RestartParticles | src/simulation/Simulation.cpp:475-476 | clearing and one adjustment at C(t) = C0 leave exactly two fresh particles |
| Simulation.SimulationScreen.SpawnNewParticle | src/simulation/Simulation.cpp:481-499 | one particle built from the draw is appended |
| Simulation.SimulationScreen.AdjustParticleCount | src/simulation/Simulation.cpp:502-538 | the particles become `Adjusted` of the old particles and the target count |
| Simulation.SimulationScreen.UpdateParticleSystem | src/simulation/Simulation.cpp:541-577 | the in-place pass with erasure leaves exactly `StepAll` of the old particles |

## Left out

- Rendering, projection, the 3D view, `setupUI`, `setup3D`, `projectVertices`, button hovers and fonts: drawing only, no state the simulation reads.
- Event routing in `handleInput`: mouse hit-testing, Escape, which box has focus, and the screen transitions. Only the edit rules applied after a box event are modelled, as `EditParameter`.
- The three input boxes are not fields of `SimulationScreen`. The value each box's `getFloatValue` yields is a parameter of `EditParameter` and `RunSimulation`. The write-backs into the boxes (`floatToWString`, the corrected C0 and K texts) and their cursor updates in `update` are left out.
- File I/O: the settings file is given as its list of lines. A missing file is the empty list. The error messages on `std::cerr` are left out.
- The particle colour chosen in `loadSettingsFromFile`: rendering only.
- Random numbers: `std::mt19937` and the distributions are replaced by `Draw` values in [0, 1) supplied by the caller.
- `std::stof` details: hexadecimal, `inf`/`nan` and underflow are not modelled. Decimal and exponent forms are.
- Kinetics.Concentration: requires K·V ≠ 0. The source's branch for K·V = 0 has no effect and is unreachable, because both factors are floored.
- Single-precision rounding: all floats are reals, so the model does not capture where float rounding changes a comparison (for example `t == 0` after accumulation).
- Simulation.SimulationScreen.Update: no overflow of `int` particle counts or of the time counter is modelled.
- Particles.StepAll: positions are kept within the room only by the lemma `AdvanceStaysInRoom` (for steps of at most one room width). The room bound is not part of the screen invariant.
- `src/main.cpp` and `src/screen/Screen.cpp` (the screen loop and the start screen) are not part of this model. The settings screen's own logic in `src/setting/Setting.cpp` other than `InputBox` is not part of this model either.
