# X01 darts scoring, modelled in Dafny

This project models the scoring core of a console darts program for X01 games (501 and similar) and proves properties of it. The core has three parts:

- **Throw entry.** `Throw` reads one typed entry: a single dart such as `t20`, `d25` or `7`, or a round total such as `140`. It strips surrounding blanks and lower-cases the text. It then decides whether the entry is legal under the input method: one dart at a time, or one total per round. Finally it computes the points. An older copy of the same class, which ignores the case of the prefix, is modelled beside it. The model proves that the two classes agree.
- **Scoreboard.** The scoreboard holds each player's remaining points, won legs and won sets, and a history of turns. Its operations subtract a score or report an overthrow, detect leg, set and game wins, reset counters, and read the state.
- **Start-player rotation.** The player who opens the next leg is chosen by rotating the player list by the start index plus all sets and legs won so far.

Files (all modules are top level and import each other):

| file | module | models |
|---|---|---|
| `wrappers.dfy` | `Wrappers` | `Option`, `Result`, `Outcome` for the `raise ValueError` paths |
| `text.dfy` | `PyText` | the Python string operations the parser uses: `strip`, `lower`, `len(split())`, `isdecimal`, `int`; plus `Render`, the shortest decimal spelling of a number, which the lemmas use to write out entries |
| `options.dfy` | `Options` | `SEGMENTS`, `IMPOSSIBLE_SCORES`, the option enums, the option record |
| `throw.dfy` | `ThrowInput` | `src/general/throw.py` |
| `definitions.dfy` | `Definitions` | the older `Throw` of `definitions.py` |
| `scoreboard.dfy` | `Scoring` | `src/scoreboard.py`: the `Turn` record and the `Scoreboard` class |
| `darts.dfy` | `Darts` | `set_start_player` of `src/darts.py` |

How each part is modelled:

- **Throw entry: values.** An entry is a value, and the check and the score are functions. `ValidateInput` follows the checks in the source's order. It returns `Pass`, or `Fail` with the reason. Each `raise` site has its error case, except the two "is not a segment" raises (off the board, and triple 25), which share `NotASegment` as they share their message. `Accepts` states the set of legal entries directly. The lemma `ValidateAccepts` proves that the two agree on every string. Constructing a throw (`NewThrow`) normalises the text and then validates it, so a refused entry yields a `Failure` and no throw. `CalcScore` is defined only on accepted entries. That is the only kind of `Throw` the newer class can hold, because its constructor validates.
- **Scoreboard: a class.** The three dictionaries become `map` fields and the history becomes a `seq` field. Each method has a `modifies` frame naming the fields it changes. Its `ensures` state the complete new value of those fields in terms of the old ones. `reset_points` and `reset_legs` keep their loops over all players.
- **Rotation: a method with loops.** It sums the win maps one entry at a time, then moves the first name to the end `k` times. It is proved equal to the specification `RotateLeft(players, (start + Σsets + Σlegs) % n)`. Lemmas about `RotateLeft` and the map sum give the properties the tests pin down.

Verification: `dafny verify` on all seven `.dfy` files.

## Behaviour worth knowing

- **Empty entry.** An empty or all-blank entry is refused as `DartCount(0)`, because `"".split()` has no tokens (`BlankRefused`). It is not scored as a miss.
- **Bare `0`.** A bare `0` is refused as `NotASegment(0)`, since 0 is not in `SEGMENTS` (`OffBoardRefused`). A single dart cannot record a miss.
- **Scoreboard structure.** The scoreboard in `src/scoreboard.py` keeps running totals, applies the straight-out rule only (any score that reaches exactly zero wins the leg), and records a flat list of turns. It has no double-out rule, no undo and no per-set or per-leg history.

## Model

| member | source | states |
|---|---|---|
| `PyText.TrimLeft` | src/general/throw.py:7 | removes exactly the leading whitespace: the result is a suffix of the input, everything removed is whitespace, and the result does not start with whitespace |
| `PyText.TrimRight` | src/general/throw.py:7 | removes exactly the trailing whitespace: the result is a prefix of the input, everything removed is whitespace, and the result does not end with whitespace |
| `PyText.StripProperties` | src/general/throw.py:7 | `strip` leaves no surrounding whitespace, gives the empty string exactly when the input is all whitespace, and is idempotent |
| `PyText.Lower` | src/general/throw.py:7 | `lower` keeps the length and lower-cases each character in place |
| `PyText.LowerIdempotent` | src/general/throw.py:7 | lower-casing twice is the same as lower-casing once |
| `PyText.NoSpaceOneToken` | src/general/throw.py:18 | a non-empty string without whitespace splits into exactly one token |
| `PyText.OneTokenIffNoSpace` | src/general/throw.py:18-19 | a stripped string is one token exactly when it is non-empty and has no inner whitespace, so the token-count test rejects everything else |
| `PyText.LowerTokenCount` | definitions.py:43 | lower-casing does not change the number of tokens |
| `PyText.RenderRoundTrip` | src/general/throw.py:28 | `int` (line 28) applied to the decimal spelling `Render(n)` gives back `n`, for every natural number |
| `Options.SegmentsExact` | src/game_options.py:3 | the comprehension yields exactly 1..20 followed by 25: 21 values, without 0 and without 21..24 |
| `Options.ImpossibleScoresShape` | src/game_options.py:4 | the list has nine values, all between 160 and 180 and none a multiple of 3 |
| `Options.DartScoreShape` | src/game_options.py:3 | every dart value lies in 0..60, and the only values of 43 and above are the bullseye double 50 and the triples 45..60 |
| `Options.ImpossibleScoresUnreachable` | src/game_options.py:4 | no three dart values (a miss, or a segment hit once, twice or three times, with no triple bullseye) add up to a value in IMPOSSIBLE_SCORES, and every such total is at most 180 |
| `Options.InputMethod.Value` | src/game_options.py:28-30 | the enum values are 1 for ROUND and 3 for THREEDARTS, the darts per turn |
| `Options.InputMethodOf` | src/game_options.py:28-30 | value lookup finds a member exactly for 1 and 3, and the member found has that value |
| `Options.InputMethodRoundTrip` | src/game_options.py:28-30 | value lookup inverts `.value` |
| `ThrowInput.GetAndStripPrefix` | src/general/throw.py:50-51 | the two parts concatenate back to the input, and the prefix is one character unless the input is empty |
| `ThrowInput.ValidateAccepts` | src/general/throw.py:15-38 | the validator passes an entry exactly when it is a round total of at most 180 that is not impossible, or a single dart on the board, bare or after `d`/`t`, that is not a triple bullseye |
| `ThrowInput.NewThrow` | src/general/throw.py:6-9 | the constructor succeeds exactly on entries whose normalised text is accepted, stores that text, and otherwise fails with the validator's reason; the input method defaults to THREEDARTS |
| `ThrowInput.CheckNumberLower` | src/general/throw.py:27-38 | the number check gives the same verdict on the lower-case form of its text |
| `ThrowInput.NormalizeIdempotent` | src/general/throw.py:7 | normalising is idempotent, so a throw built from raw text equals one built from its normalised text |
| `ThrowInput.PaddedUpperCase` | src/general/throw.py:7 | `" D20 "` normalises to `"d20"` and builds the same throw |
| `ThrowInput.ThreeDartsScore` | src/general/throw.py:32-47 | an accepted single dart scores segment times ring, the segment is on the board, a triple is never the bullseye, and the score is a dart value in 1..60 other than 75 |
| `ThrowInput.RoundScore` | src/general/throw.py:29-31 | an accepted round total scores the number typed, which is at most 180 and not impossible |
| `ThrowInput.ThreeThrowsNeverImpossible` | src/general/throw.py:29-36 | three accepted single darts never total more than 180 or an impossible total |
| `ThrowInput.RoundTotalsAccepted` | src/general/throw.py:27-31 | every total from 0 to 180 that is not impossible, typed as a number, is accepted and scores itself |
| `ThrowInput.RoundTotalsRefused` | src/general/throw.py:29-31 | every total above 180 or in IMPOSSIBLE_SCORES is refused as impossible |
| `ThrowInput.RoundRefusesPrefix` | src/general/throw.py:20-22 | in round mode a `d` or `t` prefix is refused as not decimal |
| `ThrowInput.BareDart` | src/general/throw.py:27-34 | a bare number is accepted as a single dart exactly when it is a segment, and then scores itself |
| `ThrowInput.ValidatePrefixed` | src/general/throw.py:23-36 | a one-token `d`/`t` entry with a numeric rest passes exactly when the number is a segment, and a `t` prefix is refused on 25 |
| `ThrowInput.PrefixedDart` | src/general/throw.py:23-47 | a segment after `d` or `t` is accepted, except a triple bullseye, and scores two or three times the segment; any other number is refused as not a segment |
| `ThrowInput.DartsAccepted` | src/general/throw.py:23-47 | every legal single dart, spelled out, is accepted and scores segment times ring |
| `ThrowInput.OffBoardRefused` | src/general/throw.py:32-36 | an entry naming 0, 21..24, a number above 25, or a triple 25 is refused as not a segment |
| `ThrowInput.BlankRefused` | src/general/throw.py:18-19 | an empty or all-blank entry is refused as zero tokens, in both modes |
| `ThrowInput.TwoTokensRefused` | src/general/throw.py:18-19 | `"t 20"` is refused as two tokens |
| `ThrowInput.LonePrefixRefused` | src/general/throw.py:26-38 | `"d"` is refused because nothing numeric follows the prefix |
| `ThrowInput.UnknownPrefixRefused` | src/general/throw.py:23-25 | `"x5"` is refused because its prefix is unknown |
| `Definitions.NewLegacyThrow` | definitions.py:36-38 | the older constructor never fails and makes no check: it stores exactly the stripped input, with its case kept, and the input method, which defaults to THREEDARTS |
| `Definitions.LegacyKeepsCase` | definitions.py:36-38 | `Throw(" D20 ")` of the older class stores `"D20"` under THREEDARTS: blanks go, capitals stay, the method defaults |
| `Definitions.LegacyCalcScore` | definitions.py:66-72 | the older score is `None` exactly when the text is neither a number nor starts with `d`/`D`/`t`/`T` |
| `Definitions.LegacyValidationAgreesOn` | definitions.py:40-64 | on any text, the older validator gives the same verdict and reason as the newer one on the lower-case text |
| `Definitions.LegacyValidationAgrees` | definitions.py:40-64 | for every raw entry and mode, the older validator gives the same verdict and the same reason as the newer one |
| `Definitions.LegacyScoreAgreesOn` | definitions.py:66-72 | where the newer class accepts the lower-case text, the older one scores the text itself the same way |
| `Definitions.LegacyScoreAgrees` | definitions.py:66-72 | on every accepted entry both classes compute the same score |
| `Definitions.UpperPrefixNormalizes` | definitions.py:49 | an upper-case prefix before a number is already stripped, and lower-cases to the lower-case prefix |
| `Definitions.LegacyUpperCasePrefix` | definitions.py:49-62 | `D` and `T` prefixes are accepted exactly like `d` and `t`, and `T25` is refused |
| `Definitions.LegacyUpperCaseScore` | definitions.py:66-72 | the older class scores `Dn` as 2n and `Tn` as 3n |
| `Scoring.Scoreboard.constructor` | src/scoreboard.py:17-22 | a new scoreboard has no players and an empty history |
| `Scoring.Scoreboard.RegisterPlayer` | src/scoreboard.py:24-27 | the player's points become the starting points and both win counts become 0; no other entry changes |
| `Scoring.Scoreboard.SubtractScore` | src/scoreboard.py:29-41 | a score above the remaining points is an overthrow that changes no points; otherwise exactly that player's points drop by the score; one turn holding the player's points afterwards and current wins is appended; wins are untouched; points stay in 0..start for non-negative scores |
| `Scoring.Scoreboard.CheckIfLegWin` | src/scoreboard.py:43-48 | a player at zero wins: every player's points reset to the start and the winner's legs rise by one; otherwise nothing changes |
| `Scoring.Scoreboard.CheckIfSetWin` | src/scoreboard.py:50-55 | a player with at least `legs` legs wins: every player's legs reset to 0 and the winner's sets rise by one; otherwise nothing changes |
| `Scoring.Scoreboard.CheckIfGameWin` | src/scoreboard.py:57-60 | the answer is whether the player's sets reached `sets`; no state changes |
| `Scoring.Scoreboard.ResetPoints` | src/scoreboard.py:62-64 | afterwards every registered player, and no one else, has the starting points |
| `Scoring.Scoreboard.ResetLegs` | src/scoreboard.py:66-68 | afterwards every registered player, and no one else, has 0 legs |
| `Scoring.Scoreboard.GetHistory` | src/scoreboard.py:70-71 | returns the recorded turns |
| `Scoring.Scoreboard.GetPoints` | src/scoreboard.py:73-74 | returns the points of all players |
| `Scoring.Scoreboard.GetPointsOfPlayer` | src/scoreboard.py:76-77 | returns the player's remaining points |
| `Scoring.Scoreboard.GetSetsAndLegs` | src/scoreboard.py:79-80 | returns the won sets and the won legs of all players |
| `Scoring.Scoreboard.GetSetsAndLegsOfPlayer` | src/scoreboard.py:82-83 | returns the player's won sets and won legs |
| `Scoring.ExampleThrows` | src/general/throw.py:40-47 | `t10`, `d5` and `25` are accepted and score 30, 10 and 25 |
| `Darts.SetStartPlayer` | src/darts.py:9-20 | the result is the player list rotated left by `(start + Σsets + Σlegs) mod n` |
| `Darts.Sum` | src/darts.py:13-14 | the loop computes the sum of the map's values |
| `Darts.SumValuesRemove` | src/darts.py:13-14 | the sum of a map's values is one entry plus the sum of the rest, whichever entry is taken |
| `Darts.SumValuesUpdate` | src/darts.py:13-14 | setting one entry changes the sum by exactly the difference, whoever the entry belongs to |
| `Darts.StartShift` | src/darts.py:18 | the shift is a valid index into the player list |
| `Darts.ShiftOfReducedTotals` | src/darts.py:13-18 | reducing each total modulo n before adding gives the same shift as `(start + Σsets + Σlegs) mod n` |
| `Darts.RotateLeftAt` | src/darts.py:17-19 | the rotated list has the same length and the same names with the same multiplicities, and place i holds the name from place (i + k) mod n |
| `Darts.ZeroWinsStartPlayer` | tests/test_darts.py:30-32 | with no wins the configured start player, taken modulo n, opens |
| `Darts.WinHolderIrrelevant` | tests/test_darts.py:33-38 | crediting legs to one player or another gives the same rotation |
| `Darts.OneMoreWinShiftsByOne` | tests/test_darts.py:33-46 | each further set or leg won moves the opener on by one place |
| `Darts.StartPlayerExample` | tests/test_darts.py:46 | start 1 with one set and three legs won rotates `[a, b, c]` to `[c, a, b]` |

## Left out

- Python's full Unicode rules for `strip`, `split`, `lower` and `isdecimal` are not modelled. `PyText` treats only ASCII whitespace, ASCII letters and ASCII digits specially. Other characters are never blank, never digits and unchanged by lower-casing.
- The error messages carried by `ValueError` are not modelled. Each error case records the reason and the number involved.
- `Throw.__repr__` and the enums' `__repr__` are not modelled, because they only format text.
- The `GameOptions` class is not part of this model. It is modelled as a record with the five fields the code reads: `startPoints`, `legs`, `sets`, `inputMethod` and `startPlayer`.
- `GameMode`, `SetLegMode`, `CheckInOut` and `BOGEY_NUMBERS` are modelled only as declarations in `Options`, because no shown code acts on them. The scoreboard never consults a checkout mode.
- `Definitions.LegacyCalcScore`: requires that every text handed to `int` is plain digits. The source's older class does not validate on construction, so `calc_score` also runs on other text. There Python's `int` either raises (`"d"`) or accepts signs, inner blanks and underscores (`"d-5"` gives -10). Python's general `int` syntax is not modelled.
- `Scoring.Scoreboard.SubtractScore`: requires a registered player. In the source an unknown name raises `KeyError`, which is a caller error.
- `Scoring.Scoreboard.CheckIfLegWin`: requires a registered player, for the same reason.
- `Scoring.Scoreboard.CheckIfSetWin`: requires a registered player, for the same reason.
- `Scoring.Scoreboard.CheckIfGameWin`: requires a registered player, for the same reason.
- `Scoring.Scoreboard.GetPointsOfPlayer`: requires a registered player, for the same reason.
- `Scoring.Scoreboard.GetSetsAndLegsOfPlayer`: requires a registered player, for the same reason.
- The getters return the live dictionaries and list in Python, so a caller could change the scoreboard through them. In the model they return values, so that aliasing is not captured.
- The `dart` argument of `subtract_score` is kept in the signature. The source never uses it.
- `set_start_player` on an empty player list divides by zero in the source. The model requires a non-empty list.
- `set_start_player` copies its input so the caller's list stays unchanged. Dafny sequences are values, so this holds by construction.
- `Darts.SetStartPlayer` sums the maps by taking out one key at a time, in no fixed order. Python follows dict order. Integer addition makes the result the same.
- The game loop (`XOhOne.play`, `do_player_round`) is not modelled. It calls scoreboard methods that `src/scoreboard.py` does not define, reads input through the UI and exits the process.
- The console UI (`src/cli.py`, `cli.py`, `src/ui.py`) and `main.py` are not modelled, because they are input/output.
- The scoreboard tests in `tests/test_scoreboard.py` and the `Darts` class in `tests/test_darts.py` are not followed. They target an API that the shown sources do not have.
- `tests/test_definitions.py` is not followed. It reads a `.score` attribute that does not exist and expects `"18s0"` to be a valid round total, which the validator refuses.
