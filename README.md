# Bloch-sphere qubit engine, modelled in Dafny

This project models the quantum-state engine of a single-qubit Bloch-sphere web application. It has three parts:

- **The gate library** (`src/utils/quantumOperations.js`): X, Y, Z, H, S and T, the rotations Rx, Ry and Rz, the `applyGate` dispatcher, and the conversions between angles, amplitudes and the Bloch vector. All of these are pure functions on a pair (α, β) of complex numbers.
- **The state holder** (`src/context/QuantumStateContext.js`): one record holding θ, φ, α, β, the Bloch vector, the gate history, the display flags and the sphere opacity. Its entry points replace the record. The derived values (α, β and the Bloch vector) are recomputed from θ and φ after every change. It also answers read-only queries: probabilities and formatted amplitudes.
- **The gate table behind the buttons** (`applyQuantumGate` in `src/components/ControlPanel.js`): a second implementation of the gates on the raw `re`/`im` components. It adds S† and T†, then hands the new pair to the animated amplitude setter.

Modelling choices:

- Complex numbers are `ComplexNumbers.Complex(re, im)` over `real`.
- `Math.sin`, `cos`, `acos`, `atan2`, `sqrt` and `Math.PI` are fields of a value `Trig.MathLib`, given to every member that uses them. `Trig.Lawful` collects the laws the proofs use:
  - π > 0;
  - sin² + cos² = 1;
  - sin 0 = 0 and cos 0 = 1;
  - cos(π/4) = sin(π/4) > 0;
  - cos(π/2) = 0 and sin(π/2) = 1;
  - cos π = −1 and sin π = 0;
  - cos(3π/2) = 0 and sin(3π/2) = −1;
  - atan2 lies in [−π, π];
  - atan2(0, x) = 0 for x > 0, and atan2(y, 0) = −π/2 for y < 0;
  - √x ≥ 0 and (√x)² = x for x ≥ 0;
  - acos maps [0, 1] into [0, π/2].
- The state holder is the class `QuantumStateContext.QuantumStateProvider`. Its field `state` holds the record, and each entry point is a method that replaces it.
- `applyQuantumGate` is the method `ControlPanel.Panel.ApplyQuantumGate` on a panel that holds the provider. Its `switch` is the method `ControlPanel.PanelSwitch`, which assigns the four new components case by case, as the source does.
- The gates, the dispatcher and the conversions are functions. Their properties are lemmas:
  - involutions and inverse pairs;
  - S² = Z and T² = S;
  - preservation of |α|² + |β|²;
  - how the two gate tables differ.

## Model

| member | source | states |
|---|---|---|
| QuantumOperations.PauliX | src/utils/quantumOperations.js:4-9 | X = (β, α); its properties are the rows that follow |
| QuantumOperations.PauliXInvolution | src/utils/quantumOperations.js:4-9 | X applied twice gives back the pair |
| QuantumOperations.PauliXPreservesNorm | src/utils/quantumOperations.js:4-9 | X swaps \|α\|² and \|β\|², so the total is kept |
| QuantumOperations.PauliY | src/utils/quantumOperations.js:12-17 | Y = (−i·β, i·α) |
| QuantumOperations.PauliYInvolution | src/utils/quantumOperations.js:12-17 | Y = (−i·β, i·α) applied twice gives back the pair |
| QuantumOperations.PauliYPreservesNorm | src/utils/quantumOperations.js:12-17 | Y swaps the moduli of α and β, so the total is kept |
| QuantumOperations.PauliZ | src/utils/quantumOperations.js:20-25 | Z = (α, −β) |
| QuantumOperations.PauliZInvolution | src/utils/quantumOperations.js:20-25 | Z = (α, −β) applied twice gives back the pair |
| QuantumOperations.PauliZPreservesNorm | src/utils/quantumOperations.js:20-25 | Z keeps α and \|β\|, so the total is kept |
| QuantumOperations.Hadamard | src/utils/quantumOperations.js:28-34 | H = ((α + β)/√2, (α − β)/√2), with the factor 1/Math.sqrt(2) |
| QuantumOperations.HadamardInvolution | src/utils/quantumOperations.js:28-34 | H applied twice gives back the pair, because (1/√2)² = 1/2 |
| QuantumOperations.HalfSumInvolution | src/utils/quantumOperations.js:28-34 | for any f with f² = 1/2, the half-sum map is its own inverse |
| QuantumOperations.HadamardPreservesNorm | src/utils/quantumOperations.js:28-34 | H keeps \|α\|² + \|β\|² |
| QuantumOperations.HalfSumNorm | src/utils/quantumOperations.js:28-34 | for any f with f² = 1/2, the half-sum map keeps \|α\|² + \|β\|² |
| QuantumOperations.SGate | src/utils/quantumOperations.js:37-42 | S = (α, i·β) |
| QuantumOperations.SGatePreservesNorm | src/utils/quantumOperations.js:37-42 | S keeps α and \|β\|, so the total is kept |
| QuantumOperations.SSquaredIsZ | src/utils/quantumOperations.js:20-42 | S applied twice is Z |
| QuantumOperations.TPhase | src/utils/quantumOperations.js:48 | T's phase factor has equal parts, each squaring to 1/2, and modulus 1 |
| QuantumOperations.TGate | src/utils/quantumOperations.js:45-50 | T = (α, e^(iπ/4)·β) |
| QuantumOperations.TGatePreservesNorm | src/utils/quantumOperations.js:45-50 | T keeps α and \|β\|, so the total is kept |
| QuantumOperations.TSquaredIsS | src/utils/quantumOperations.js:37-50 | T applied twice is S |
| QuantumOperations.RotateX | src/utils/quantumOperations.js:53-61 | Rx with the source's cos(angle/2) and −i·sin(angle/2) terms |
| QuantumOperations.RotateXPreservesNorm | src/utils/quantumOperations.js:53-61 | Rx keeps \|α\|² + \|β\|² for every angle |
| QuantumOperations.RotateY | src/utils/quantumOperations.js:64-72 | Ry with the source's cos(angle/2) and sin(angle/2) terms |
| QuantumOperations.RotateYPreservesNorm | src/utils/quantumOperations.js:64-72 | Ry keeps \|α\|² + \|β\|² for every angle |
| QuantumOperations.RotateZ | src/utils/quantumOperations.js:75-83 | Rz with the source's phase factors |
| QuantumOperations.RotateZPreservesModuli | src/utils/quantumOperations.js:75-83 | Rz keeps \|α\| and \|β\|; it multiplies α by e^(i·angle/2) and β by e^(−i·angle/2) |
| QuantumOperations.RotateXByZero | src/utils/quantumOperations.js:53-61 | Rx by angle 0 is the identity |
| QuantumOperations.RotateYByZero | src/utils/quantumOperations.js:64-72 | Ry by angle 0 is the identity |
| QuantumOperations.RotateZByZero | src/utils/quantumOperations.js:75-83 | Rz by angle 0 is the identity |
| QuantumOperations.RotationAngle | src/utils/quantumOperations.js:101-105 | `params.angle \|\| Math.PI / 4`: π/4 when the angle is absent or 0, else the angle |
| QuantumOperations.ApplyGate | src/utils/quantumOperations.js:86-110 | the dispatcher returns null exactly for names outside X, Y, Z, H, S, T, Rx, Ry, Rz |
| QuantumOperations.ApplyGatePreservesNorm | src/utils/quantumOperations.js:86-110 | every pair the dispatcher returns has the input's \|α\|² + \|β\|² |
| QuantumOperations.SphericalToAmplitudes | src/utils/quantumOperations.js:142-150 | α = cos(θ/2) and β = sin(θ/2)·(cos φ + i·sin φ) |
| QuantumOperations.SphericalToAmplitudesNormalized | src/utils/quantumOperations.js:142-150 | the pair built from (θ, φ) has a real α and \|α\|² + \|β\|² = 1 |
| QuantumOperations.BlochToAmplitudes | src/utils/quantumOperations.js:115-130 | the pair has a real α and total 1, and it is the spherical pair of some angles with φ in [0, 2π) |
| QuantumOperations.AmplitudesToBloch | src/utils/quantumOperations.js:133-135 | x² + y² = 4·\|α\|²·\|β\|² for x = 2·Re(ᾱβ) and y = 2·Im(ᾱβ) |
| QuantumOperations.BlochXYInUnitDisc | src/utils/quantumOperations.js:133-135 | for a normalised pair, (x, y) lies in the unit disc |
| QuantumOperations.PauliZTurnsBlochXY | src/utils/quantumOperations.js:20-25 | Z negates the x and y of the Bloch vector |
| QuantumOperations.PauliXTurnsBlochXY | src/utils/quantumOperations.js:4-9 | X keeps x and negates y |
| QuantumOperations.Modulus | src/utils/quantumOperations.js:154-155 | \|z\| is non-negative and squares to re² + im² |
| QuantumOperations.PolarAngles | src/utils/quantumOperations.js:153-166 | θ = 2·acos(\|α\|), in [0, π] when \|α\| ≤ 1; φ in [0, 2π), 0 when \|β\| ≤ eps and the wrapped atan2 of β otherwise |
| QuantumOperations.PolarAnglesOfSameModuli | src/utils/quantumOperations.js:153-166 | the angles depend on α only through \|α\| |
| QuantumOperations.AmplitudesToSpherical | src/utils/quantumOperations.js:153-166 | the same rule with eps = 1e-5 |
| Trig.InvSqrt2 | src/utils/quantumOperations.js:29 | 1/√2 is positive and squares to 1/2 |
| Trig.QuarterTurnCos | src/components/ControlPanel.js:130-131 | cos(π/4) = sin(π/4), positive, squaring to 1/2 |
| Trig.WrapAngle | src/utils/quantumOperations.js:162 | adding 2π to a negative angle gives an angle in [0, 2π) when the angle is in [−π, π] |
| ComplexNumbers.NormSqMul | src/utils/quantumOperations.js:14-15 | \|a·b\|² = \|a\|²·\|b\|² |
| ComplexNumbers.ConjugateOfScaled | src/context/QuantumStateContext.js:102-106 | (k·z)‾·(k·w) = \|k\|²·z̄·w |
| QuantumStateContext.BlochOf | src/context/QuantumStateContext.js:42-44 | the Bloch vector of any angles has length 1 |
| QuantumStateContext.Derive | src/context/QuantumStateContext.js:38-59 | the recompute makes the record consistent with its angles, with total probability 1, a real α and a unit Bloch vector; θ, φ, the history, the flags and the opacity are kept |
| QuantumStateContext.InitialStateIsConsistent | src/context/QuantumStateContext.js:5-30 | the initial record's \|0⟩ and (0, 0, 1) are what θ = φ = 0 give |
| QuantumStateContext.NormFactor | src/context/QuantumStateContext.js:78-81 | the norm factor is positive and squares to \|α\|² + \|β\|² |
| QuantumStateContext.NormalizeAmplitudes | src/context/QuantumStateContext.js:83-91 | the normalised pair has total 1, and scaling it back by the norm factor gives the input |
| QuantumStateContext.DivideByNorm | src/context/QuantumStateContext.js:83-91 | dividing by a norm n with n² = total leaves total 1, and multiplying by n undoes it |
| QuantumStateContext.UnitPairIsNormalized | src/context/QuantumStateContext.js:78-91 | normalising a pair whose total is already 1 changes nothing |
| QuantumStateContext.NormalizeScaled | src/context/QuantumStateContext.js:78-91 | normalising commutes with a global phase of modulus 1 |
| QuantumStateContext.AmplitudeAngles | src/context/QuantumStateContext.js:95-106 | the setters' rule as written: θ in [0, π] and φ in [0, 2π); φ is 0 when the normalised \|β\| ≤ 1e-4 and the wrapped phase of β otherwise |
| QuantumStateContext.AmplitudeAnglesMergeStates | src/context/QuantumStateContext.js:102-106 | the as-written rule gives \|+⟩ and i·\|−i⟩ the same angles, though no phase turns one into the other |
| QuantumStateContext.PauliXOfPlusI | src/utils/quantumOperations.js:4-9 | X maps \|+i⟩ to i·\|−i⟩ |
| QuantumStateContext.RelativePhaseAngles | src/context/QuantumStateContext.js:95-106 | the corrected rule: θ as written; φ is 0 when the normalised \|β\| ≤ 1e-4 and the wrapped phase of ᾱβ otherwise |
| QuantumStateContext.RelativePhaseOfScaled | src/context/QuantumStateContext.js:102-106 | a common factor k multiplies ᾱβ by the real number \|k\|² |
| QuantumStateContext.RelativePhaseAnglesIgnoreGlobalPhase | src/context/QuantumStateContext.js:95-106 | the corrected rule gives the same angles to every pair k·(α, β) with \|k\| = 1 |
| QuantumStateContext.RelativePhaseAnglesSeparateStates | src/context/QuantumStateContext.js:95-106 | the corrected rule gives \|+⟩ φ = 0 and i·\|−i⟩ φ = 3π/2; the as-written rule gives the latter φ = 0 |
| QuantumStateContext.LogGate | src/context/QuantumStateContext.js:159 | a non-empty gate name is appended to the history; an empty one leaves it unchanged |
| QuantumStateContext.AmplitudeCommit | src/context/QuantumStateContext.js:95-115 | the committed angles are exactly the as-written `AmplitudeAngles` of the pair, θ in [0, π] and φ in [0, 2π); the record is consistent and normalised; earlier history entries stay in place and a non-empty name is appended; flags and opacity are kept |
| QuantumStateContext.CommitMergesStates | src/context/QuantumStateContext.js:95-115 | the setters commit the same record, with φ = 0, for i·\|−i⟩ (the panel's X applied to \|+i⟩) as for \|+⟩ |
| QuantumStateContext.CommonStateAngles | src/context/QuantumStateContext.js:169-199 | a name gives angles exactly when it is one of the twelve labels; every named point has θ in [0, π] and φ in [0, 2π) |
| QuantumStateContext.Toggled | src/context/QuantumStateContext.js:202-207 | the named flag is negated (a missing flag becomes true); every other flag is kept |
| QuantumStateContext.ToggleTwice | src/context/QuantumStateContext.js:202-207 | toggling a present flag twice restores the flags |
| QuantumStateContext.Round4 | src/context/QuantumStateContext.js:224-225 | rounding to 4 decimals moves a value by at most 0.00005 and keeps it non-negative |
| QuantumStateContext.Round4Small | src/context/QuantumStateContext.js:234-235 | a value rounded to 4 decimals is below 1e-4 in size only when it is 0 |
| QuantumStateContext.MeasurementProbabilities | src/context/QuantumStateContext.js:218-227 | each probability is within 0.00005 of \|α\|² or \|β\|² and non-negative; for a normalised record they sum to 1 within 1e-4 |
| QuantumStateContext.Layout | src/context/QuantumStateContext.js:230-238 | only re when the rounded im is 0; only im when the rounded im is non-zero and the rounded re is 0; both otherwise |
| QuantumStateContext.FormatComplex | src/context/QuantumStateContext.js:230-238 | all three printed forms: the rounded re alone when the rounded im is 0; the rounded im and "i" when only the rounded re is 0; otherwise re, then "+" exactly when im ≥ 0, then im and "i" |
| QuantumStateContext.StateVectorNotation | src/context/QuantumStateContext.js:241-247 | the text starts with α's text and ends with β's text and "\|1⟩"; it is 9 characters longer than the two texts |
| QuantumStateContext.InitialNotation | src/context/QuantumStateContext.js:241-247 | the initial record reads "1\|0⟩ + 0\|1⟩" |
| QuantumStateContext.QuantumStateProvider.UpdateDerivedValues | src/context/QuantumStateContext.js:38-59 | the record becomes the recompute of its angles, and the provider is consistent |
| QuantumStateContext.QuantumStateProvider.SetStateFromSpherical | src/context/QuantumStateContext.js:67-73 | θ and φ are stored as given, with no wrapping; history, flags and opacity are unchanged |
| QuantumStateContext.QuantumStateProvider.SetStateFromAmplitudes | src/context/QuantumStateContext.js:76-116 | the record is the commit of the pair with no gate name (angles by the as-written rule), and the history is unchanged |
| QuantumStateContext.QuantumStateProvider.SetStateFromAmplitudesWithAnimation | src/context/QuantumStateContext.js:119-161 | the record is the commit of the pair (angles by the as-written rule); the gate name is appended exactly when it is non-empty |
| QuantumStateContext.QuantumStateProvider.ResetState | src/context/QuantumStateContext.js:164-166 | the record becomes the whole initial record |
| QuantumStateContext.QuantumStateProvider.SetToCommonState | src/context/QuantumStateContext.js:169-199 | a known label moves to its angles through the spherical setter; an unknown label changes nothing |
| QuantumStateContext.QuantumStateProvider.ToggleDisplayOption | src/context/QuantumStateContext.js:202-207 | only the flags change, as `Toggled` says |
| QuantumStateContext.QuantumStateProvider.SetSphereOpacity | src/context/QuantumStateContext.js:210-215 | only the opacity changes, and it is stored as given |
| QuantumStateContext.NewQuantumStateProvider | src/context/QuantumStateContext.js:34-35 | a new provider holds the initial record and is consistent |
| CommonStates.PauliXKet0 | src/utils/quantumOperations.js:4-9 | X maps \|0⟩ to \|1⟩ |
| CommonStates.NamedZeroIsKet0 | src/context/QuantumStateContext.js:171-174 | "zero" and "\|0⟩" give \|0⟩ |
| CommonStates.NamedOneIsKet1 | src/context/QuantumStateContext.js:175-178 | "one" gives \|1⟩ |
| CommonStates.NamedPlusIsH | src/context/QuantumStateContext.js:179-182 | "plus" gives H\|0⟩ |
| CommonStates.NamedMinusIsH1 | src/context/QuantumStateContext.js:183-186 | "minus" gives H\|1⟩ |
| CommonStates.NamedPlusIIsSH | src/context/QuantumStateContext.js:187-190 | "plusi" gives S·H\|0⟩ |
| CommonStates.NamedMinusIIsZSH | src/context/QuantumStateContext.js:191-194 | "minusi" gives Z·S·H\|0⟩ |
| CommonStates.KetAliasesZ | src/context/QuantumStateContext.js:171-178 | "\|0⟩" and "\|1⟩" name the points of "zero" and "one" |
| CommonStates.KetAliasesX | src/context/QuantumStateContext.js:179-186 | "\|+⟩" and "\|-⟩" name the points of "plus" and "minus" |
| CommonStates.KetAliasesY | src/context/QuantumStateContext.js:187-194 | "\|+i⟩" and "\|-i⟩" name the points of "plusi" and "minusi" |
| ControlPanel.PanelX | src/components/ControlPanel.js:85-91 | the X case: the components of α and β swapped |
| ControlPanel.PanelY | src/components/ControlPanel.js:92-98 | the Y case: (i·β, −i·α), the negation of the library's Y |
| ControlPanel.PanelZ | src/components/ControlPanel.js:99-105 | the Z case: β negated |
| ControlPanel.PanelH | src/components/ControlPanel.js:106-113 | the H case: sum and difference scaled by 1/Math.sqrt(2) |
| ControlPanel.PanelS | src/components/ControlPanel.js:114-120 | the S case: β multiplied by i |
| ControlPanel.PanelSDag | src/components/ControlPanel.js:121-127 | the S_dag case: β multiplied by −i |
| ControlPanel.PanelT | src/components/ControlPanel.js:128-136 | the T case: β rotated by cos(π/4), sin(π/4) |
| ControlPanel.PanelTDag | src/components/ControlPanel.js:137-145 | the T_dag case: β rotated back by the same cosine and sine |
| ControlPanel.PanelGate | src/components/ControlPanel.js:84-145 | the panel's table handles exactly X, Y, Z, H, S, S_dag, T and T_dag |
| ControlPanel.PanelAgreesWithLibrary | src/components/ControlPanel.js:85-91 | the panel's X, Z and S are the library's X, Z and S |
| ControlPanel.PanelHIsHadamard | src/components/ControlPanel.js:106-113 | the panel's H is the library's H |
| ControlPanel.PanelTIsTGate | src/components/ControlPanel.js:128-136 | the panel's T is the library's T |
| ControlPanel.PanelYIsNegatedPauliY | src/components/ControlPanel.js:92-98 | the panel's Y is the negation of the library's Y |
| ControlPanel.PanelYDiffersFromPauliY | src/components/ControlPanel.js:92-98 | the two Y gates agree only on the zero pair |
| ControlPanel.PanelYDivergesFromDispatcher | src/components/ControlPanel.js:92-98 | the panel's Y and the dispatcher's Y agree only on the zero pair |
| ControlPanel.PanelHandlesMoreGates | src/components/ControlPanel.js:121-145 | the panel handles S_dag and T_dag; the dispatcher returns null for them |
| ControlPanel.PanelInvolutions | src/components/ControlPanel.js:85-113 | the panel's X, Y, Z and H are each their own inverse |
| ControlPanel.PanelSInverse | src/components/ControlPanel.js:114-127 | S then S_dag, in either order, restores the pair; S applied twice is Z |
| ControlPanel.PanelTInverse | src/components/ControlPanel.js:128-145 | T then T_dag, in either order, restores the pair |
| ControlPanel.PanelTSquaredIsS | src/components/ControlPanel.js:128-135 | T applied twice is S |
| ControlPanel.PanelPhaseGatesKeepAlpha | src/components/ControlPanel.js:114-145 | S, S_dag, T and T_dag keep α and \|β\| |
| ControlPanel.PanelGatePreservesNorm | src/components/ControlPanel.js:84-145 | every handled gate keeps \|α\|² + \|β\|² |
| ControlPanel.PanelSwitch | src/components/ControlPanel.js:73-149 | the switch knows exactly the eight names, and its four components are the panel gate's pair |
| ControlPanel.Panel.ApplyQuantumGate | src/components/ControlPanel.js:72-157 | an unknown name changes nothing; a known gate commits its pair, whose total is 1, and appends the name to the history |
| ControlPanel.Panel.HandleAngleUnitChange | src/components/ControlPanel.js:159-163 | a null unit keeps the current unit; any other unit replaces it |
| ControlPanel.RadToDeg | src/components/ControlPanel.js:166-168 | rad · (180 / π) |
| ControlPanel.DegToRad | src/components/ControlPanel.js:170-172 | deg · (π / 180) |
| ControlPanel.DegreesRoundTrip | src/components/ControlPanel.js:166-172 | degrees to radians undoes radians to degrees, and the reverse |
| ControlPanel.SliderMax | src/components/ControlPanel.js:182-187 | 180 or 360 in degrees, π or 2π otherwise, by angle name |
| ControlPanel.SliderMaxInDegrees | src/components/ControlPanel.js:182-187 | the maximum in degrees (180 or 360) is the radian maximum (π or 2π) converted; any unit other than "deg" uses radians; the maximum is positive |

## Left out

- Floating point. Every quantity is a mathematical real. The trigonometric functions and the square root satisfy only the laws in `Trig.Lawful`. Round-off, NaN and infinities are not modelled.
- The sphericalToAmplitudes → amplitudesToSpherical round trip is not proved: it needs more of acos and atan2 than the laws state.
- amplitudesToBloch's z component (src/utils/quantumOperations.js:136) is not modelled. It applies `Math.abs` to a mathjs complex object, which relies on library coercion.
- The zero inputs are excluded:
  - `QuantumStateContext.QuantumStateProvider.SetStateFromAmplitudes`, `SetStateFromAmplitudesWithAnimation`, `NormalizeAmplitudes` and `AmplitudeAngles` require a non-zero pair. The source divides by a zero norm there and produces NaN.
  - `QuantumOperations.BlochToAmplitudes` requires a non-zero vector for the same reason.
- `ControlPanel.Panel.ApplyQuantumGate` relies on that exclusion: every gate keeps the held pair's total of 1, so the setter never sees the zero pair.
- React scheduling:
  - The derived-value effect reruns only when θ or φ change. Here every entry point ends with the recompute.
  - `setState` updater functions, `useCallback` and re-rendering are not modelled.
- Every entry point applies the recompute at commit. The amplitude setters' stored α and β are therefore replaced by the amplitudes of the computed angles.
- `QuantumStateContext.QuantumStateProvider.ToggleDisplayOption` accepts only display-flag names. Toggling a record field such as `theta` would store a boolean in a number field, and that is not modelled.
- mathjs `round` is modelled as rounding halves away from zero to 4 decimals (`Round4`). Number-to-string conversion is the parameter `show` of `FormatComplex` and `StateVectorNotation`.
- `QuantumStateContext.Round4`: only its distance from the input and its sign are stated, not the exact decimal value.
- `QuantumOperations.BlochToAmplitudes`: it states that the result is the spherical pair of some angles with φ in [0, 2π), not which θ acos gives.
- `displayAngle` (ControlPanel.js:175-180) uses `toFixed`, a number-to-string conversion; it is not modelled.
- Console warnings and errors are not modelled, nor the JSX, sliders, theming and display-flag rendering.
- BlochSphereVisualization.js, TutorialModal.js and App.js are not part of this model.

## Findings

| source | as written | input that shows it | evidently intended | confidence | as-written member | corrected member |
|---|---|---|---|---|---|---|
| src/context/QuantumStateContext.js:102-106 (and 146-149) | φ is taken from the phase of β alone; the phase of α is dropped along with its sign and modulus | X applied to \|+i⟩ = (1/√2, i/√2) gives (i/√2, 1/√2) = i·\|−i⟩. Its β is real and positive, so the setters store φ = 0, the angles of \|+⟩, instead of φ = 3π/2 for \|−i⟩ | φ is the phase of β relative to α (the phase of ᾱβ), so that the stored angles describe the state up to a global phase | not executed | QuantumStateContext.AmplitudeAnglesMergeStates | QuantumStateContext.RelativePhaseAnglesIgnoreGlobalPhase |

The as-written rule is `QuantumStateContext.AmplitudeAngles`. `AmplitudeAnglesMergeStates` proves that it gives \|+⟩ and i·\|−i⟩ the same angles, although no phase maps one pair onto the other. The amplitude setters, through `QuantumStateContext.AmplitudeCommit`, store exactly the angles of this as-written rule. So the panel's X applied to \|+i⟩ leaves the record at \|+⟩, as the program does (`CommitMergesStates`). The corrected rule is `QuantumStateContext.RelativePhaseAngles`. Two lemmas are proved about it:

- `RelativePhaseAnglesIgnoreGlobalPhase`: every multiple k·(α, β) with \|k\| = 1 gets the same angles.
- `RelativePhaseAnglesSeparateStates`: the two example pairs get φ = 0 and φ = 3π/2.

The two rules give the same θ.
