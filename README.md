# Block-additive sequences: classification search, modelled in Dafny

The repository checks cases 2 to 5 of a classification theorem about
block-additive sequences: u_n is the sum, mod q, of a block function F applied
to every window of r consecutive base-q digits of n. Each case enumerates the
candidate block functions, evaluates the sequence they define, and checks that
every candidate is either structurally "good" (a strong uncorrelation
property, checked by enumerating families of digit vectors) or shows a witness
of correlation (a residue class of shifted differences that is over-full within
fixed-size blocks). A candidate that is neither makes the program throw
"Classification problem".

The model covers the three classification programs:

- `Case24` (binary, ranks 2 to 5): the parameter word, the bit-spreading
  enumerator `getParameter`, the block function `f`, the evaluator
  `eval`/`value`, the structural check `goodFamily`/`family`/`fill`, the two
  forms each of `has2Correlation` and `has4Correlation`, and the classification
  loop of `countGoodFunctions` with its XOR shifts.
- `Case3` (ternary, rank 3): the capped odometer `next` with its `start` flag,
  `f`, `eval` with its digit buffer `N`, `value`, `goodFamily`/`family`/`fill`
  and both `has2Correlation`.
- `Case5` (ternary, high and low parts): the odometers `next`, `init` and
  `lowNext`, the `DIGITS` and `FASTFUNCTION` tables, `eval`, `high`, `low`,
  both `has3Correlation` and `allDefect`.

Shared modules: `Arith` (powers, little-endian digit vectors and their round
trips), `Odometer` (the capped base-3 counter that `Case3.next` and
`Case5.next` implement, and the plain increment of `Case5.lowNext`), `Tally`
(the block-restricted pair counts of `has2Correlation`) and `Outcomes` (a result
type whose `ClassificationProblem` case stands for the thrown exception).

Each Java class with static state becomes a Dafny class whose fields are those
statics (`Case24.Classification`, `Case3.Classification`, `Case5.Search`); the
methods keep the source's loops, recursion and in-place array updates, and each
is proved equal to a specification function on values (`U`, `WindowSum`,
`FillTally`, `FamilyOK`, `Has2Holds`, `Spread`, `Witness`, `Verdict`, ...),
about which the lemmas below state what the source promises.

## Model

| member | source | states |
|---|---|---|
| Case24.Classification.constructor | Case24.java:16-18 | the statics start at parameter 0, rank 0, mask 0 |
| Case24.Block | Case24.java:26-28 | a block value is 0 or 1, and 1 exactly when table entry a+2b+4c+8d+16e is set |
| Case24.Classification.F | Case24.java:26-28 | `f` reads the block value of the current parameter's table |
| Case24.ParamBitIsBit | Case24.java:27 | on a parameter below 2^32 the test against the int `1 << s` (sign-extended at s = 31) is exactly bit s |
| Case24.ParamBitTop | Case24.java:27 | at s = 31 the sign-extended mask selects bit 31 alone |
| Case24.ParamBitBelow | Case24.java:27 | below 31 the int shift is the plain power of two |
| Case24.TableTabulates | Case24.java:26-28 | the table lists f on every 5-bit index, one entry per bit of the parameter |
| Case24.TabulatesUnique | Case24.java:26-28 | the table of a parameter is unique |
| Case24.GetParameter | Case24.java:216-224 | the result has zero bits at positions 0, 1, 2, 4, 8 and 16 |
| Case24.GetParameterRoundTrip | Case24.java:216-224 | gathering the bits back returns p for every p < 2^26, so `getParameter` is injective there |
| Case24.GetParameterOnto | Case24.java:216-224 | every 32-bit word with those six bits zero is `getParameter` of some p < 2^26 |
| Case24.GetParameterRange | Case24.java:216-224 | p below 2^(2^r - r - 1) gives a result below 2^(2^r), for r = 2..5 |
| Case24.U | Case24.java:124-133 | u_n is 0 or 1 |
| Case24.EvalIsWindowSum | Case24.java:124-133 | the count of set bits the loop visits is the window sum of the binary digits of n |
| Case24.WindowSumStep | Case24.java:126-130 | one loop turn adds the window at the low digits and shifts n right |
| Case24.UIsValueParity | Case24.java:124-133 | u_n is the parity of the window sum of n's digits, when f(0..0) = 0 |
| Case24.Classification.Eval | Case24.java:124-133 | the loop returns u_n for the current table and rank |
| Case24.Classification.Value | Case24.java:112-119 | the loop returns the sum of f over every window of `rank` entries of the buffer |
| Case24.FillLeaf | Case24.java:95-96 | a complete pair of buffers adds one to the class of value(x) + value(y) mod 2 |
| Case24.FillStep | Case24.java:97-106 | a forced position sums the tallies of digit 0 and digit 1; any other position passes through |
| Case24.FillTotal | Case24.java:94-107 | `fill` adds exactly 2^k to tab[0] + tab[1], k the forced positions from offset on |
| Case24.FillFrame | Case24.java:94-107 | the tally depends only on positions before offset and on unforced positions |
| Case24.Classification.Fill | Case24.java:94-107 | tab grows by the tally; only forced positions (eq true, not eq.length - rank) are written, and they end at 1 |
| Case24.Classification.FillAtEnd | Case24.java:95-96 | the leaf adds the leaf tally to tab |
| Case24.Classification.FillSkip | Case24.java:104-105 | an unforced position is left untouched and the tally passes through |
| Case24.Classification.FillForced | Case24.java:97-103 | a forced position is tried with 0 and then 1 |
| Case24.Classification.FillBranch | Case24.java:98-103 | one digit written at offset, then the rest filled |
| Case24.FamilyOKMeaning | Case24.java:63-83 | `family` accepts exactly when every completion of the free positions with opposite digits (0,1 or 1,0) is balanced |
| Case24.FamilyOKMeaningBranch | Case24.java:72-82 | at a free position: accepted iff both the (0,1) and the (1,0) branch are |
| Case24.AllBalancedSplit | Case24.java:72-82 | all completions balanced iff those with (0,1) and those with (1,0) at offset are |
| Case24.FamilyFrame | Case24.java:63-83 | the verdict depends only on the positions `family` has not yet written |
| Case24.CompleteAt | Case24.java:72-79 | a completion chooses (1,0) or (0,1) at each free position |
| Case24.CompleteIgnoresChoiceAt | Case24.java:63-83 | a completion from offset + 1 ignores the choice at offset |
| Case24.Classification.Family | Case24.java:63-83 | returns the family verdict, stopping at the first failing branch; positions it still needs are left as they were |
| Case24.Classification.Buffers | Case24.java:37-46 | eq is bit j of i below len and true from len on; x is zero, y is zero but 1 at len |
| Case24.Classification.GoodFamily | Case24.java:34-53 | true exactly when the family is balanced for every len < rank and i < 2^len |
| Case24.Has2NeedsRoom | Case24.java:138-147 | a 2-correlation witness needs 8 or more terms and a shift shorter than a block |
| Case24.Has2Correlation | Case24.java:138-147 | true exactly when one parity of u_n + u_{n+a} over in-block pairs occurs more than length / 2 times |
| Case24.Has2AtLength | Case24.java:160-164 | true exactly when some shift Kmin <= a < Kmax gives a witness |
| Case24.Classification.EvalPrefix | Case24.java:156-159 | the classes array holds u_0 .. u_{m-1} |
| Case24.Classification.Has2CorrelationScan | Case24.java:153-167 | true exactly when some 2^m terms, 2 <= m < Nmax, and some shift give a witness |
| Case24.Count4 | Case24.java:175-179 | the count of a parity pattern never exceeds the indices scanned |
| Case24.Count4Step | Case24.java:175-179 | one index adds one to the pattern of its three parities when n and n + b share a block |
| Case24.NoTripleWhenBlockTooShort | Case24.java:175-179 | with a block size 0 or at most b no pattern is counted |
| Case24.Has4Tally | Case24.java:172-179 | tab[i,j,k] is the in-block count of parity pattern (i,j,k) |
| Case24.AnyAbove | Case24.java:180-189 | true exactly when some entry of tab exceeds the bound |
| Case24.Has4Correlation | Case24.java:172-190 | true exactly when some parity pattern occurs more than length / 8 times |
| Case24.Has4NeedsRoom | Case24.java:172-190 | a 4-correlation witness needs 16 or more terms and b shorter than a block |
| Case24.Has4AtLength | Case24.java:203-211 | true exactly when some 1 <= a < b < c < K gives a witness |
| Case24.Has4WithLast | Case24.java:204-210 | true exactly when some a < b < c gives a witness for the given c |
| Case24.Has4WithPair | Case24.java:205-209 | true exactly when some a < b gives a witness for the given b and c |
| Case24.Classification.Has4CorrelationScan | Case24.java:196-214 | true exactly when some 2^n terms, 6 <= n <= max, and some shift triple give a witness |
| Case24.ShiftWordsAgree | Case24.java:19-21 | the word form of SHIFTS agrees with the list entry by entry |
| Case24.ShiftsAreSubsetSums | Case24.java:19-21 | entry b0+2b1+4b2+8b3+16b4 of SHIFTS is the sum of bits 1, 2, 4, 8, 16 chosen by b |
| Case24.ShiftsIncreasing | Case24.java:19-21 | SHIFTS is strictly increasing and below 2^17 |
| Case24.ShiftsEven | Case24.java:19-21 | every shift is even, so bit 0 is never touched |
| Case24.ShiftsMonotone | Case24.java:19-21 | i < j gives SHIFTS[i] < SHIFTS[j] |
| Case24.JavaIntShl | Case24.java:241 | the int `1 << s` lies in the int range and is 2^s modulo 2^32 |
| Case24.ShiftTestAgrees | Case24.java:241 | for mask below 31 the guard as written is the intended `i < 2^mask` |
| Case24.ShiftGuardAtRankFive | Case24.java:241 | at mask 31 the guard as written rejects every shift, the intended one admits all 32 |
| Case24.ShiftsTestedForRank | Case24.java:234-241 | with mask 2^r - 1 the intended guard admits exactly the first 2^r shifts |
| Case24.ShiftsAdmittedAsWritten | Case24.java:234-241 | with mask 2^r - 1 the guard as written admits exactly the first 2^r shifts for r = 2, 3, 4 and none for r = 5 |
| Case24.ShiftKeepsOrigin | Case24.java:242 | XOR with a shift keeps bit 0, so f(0..0) stays 0 |
| Case24.XorTwice | Case24.java:242-246 | XOR-ing a shift in and out again restores the parameter |
| Case24.XorEvenLowBit | Case24.java:242 | XOR with an even word keeps the low bit |
| Case24.ShiftsCorrelatedStep | Case24.java:240-248 | the shifts passing so far plus the next one give the next prefix |
| Case24.Classification.ShiftedCorrelated | Case24.java:242-246 | runs the 4-correlation scan (10, 7) on the shifted parameter and restores it when the scan succeeds |
| Case24.Classification.ShiftStanza | Case24.java:241-247 | one shift, tested with the guard as written (`i < (1 << mask)` on Java ints): skipped when that guard excludes it, which is every shift at rank 5, otherwise passes exactly when the shifted function is 4-correlated |
| Case24.Classification.CheckShifts | Case24.java:240-248 | true exactly when every shift the guard as written admits passes (so always at rank 5); the parameter is then unchanged |
| Case24.Classification.ClassifyCurrent | Case24.java:238-251 | the verdict on the current parameter, with the shift guard as written: the exception, or whether it is good |
| Case24.VerdictAgreesBelowFive | Case24.java:238-251 | for ranks 2, 3 and 4 the verdict with the guard as written equals the verdict with the intended guard `i < 2^mask` |
| Case24.RankFiveShiftsUnchecked | Case24.java:238-251 | at rank 5 every candidate passes the shift loop as written, so its verdict is never the 4-uncorrelated exception |
| Case24.RankFiveNeverUncorrelated4 | Case24.java:231-254 | at rank 5 the classification as written never fails with "Classification problem: 4-uncorrelated function!" |
| Case24.Classification.Load | Case24.java:237 | the parameter becomes `getParameter(p)` |
| Case24.CandidateCount | Case24.java:235 | the candidate count 2^(mask - rank) is at most 2^26 |
| Case24.CandidateVerdict | Case24.java:235-237 | the p-th verdict is the verdict on `getParameter(p)` |
| Case24.Verdicts | Case24.java:236-252 | one verdict per candidate, in order, with the shift guard as written |
| Case24.GoodCount | Case24.java:239 | the good count never exceeds the candidates |
| Case24.CountFromMeaning | Case24.java:232-253 | the loop completes iff no verdict throws, and then returns (good count) << r |
| Case24.CountFromFirstProblem | Case24.java:236-251 | a failed loop reports the message of the first candidate that throws |
| Case24.CountFromStep | Case24.java:236-252 | one loop turn: throw, or count the candidate and go on |
| Case24.ClassifyCandidatesMeaning | Case24.java:231-254 | the classification as written completes iff no candidate is misclassified (shift guard as written), and returns good << r |
| Case24.ClassifyCandidatesFirstProblem | Case24.java:231-254 | otherwise the message is that of the first candidate misclassified with the shift guard as written |
| Case24.Classification.CountGoodFunctions | Case24.java:231-254 | sets rank and mask and returns the outcome of classifying the 2^(mask - rank) candidates, shift guard as written |
| Case3.Pow3TableAgrees | Case3.java:21-22 | POW3[m] is 3^m |
| Case3.CapsValid | Case3.java:23-24 | MAX has 27 entries, each 0 or 2 |
| Case3.CapsZeroOnSelections | Case3.java:10-24 | MAX is 0 exactly at the tuples with at most one nonzero digit |
| Case3.CappedIsTable | Case3.java:23-25 | a parameter within MAX is a table of digits with entries 0, 1, 2, 3, 6, 9 and 18 zero |
| Case3.AdvanceIsTable | Case3.java:49-60 | the odometer keeps the parameter within MAX |
| Case3.Classification.constructor | Case3.java:25-30 | PARAMETER and N start at zero, with start set |
| Case3.Classification.Next | Case3.java:44-61 | the first call returns true and leaves PARAMETER; later calls perform the capped odometer step |
| Odometer.Succ | Case5.java:72-82 | an increment keeps the length |
| Odometer.SuccAt | Case5.java:72-82 | increment: entries at their cap become 0, the first below its cap goes up, false when all wrapped |
| Odometer.SuccFacts | Case5.java:72-82 | an increment stays within the caps, moves forward when it returns true and ends at zero otherwise |
| Odometer.SuccImmediate | Case5.java:72-82 | an increment skips no vector between the old and the new state |
| Odometer.Advance | Case3.java:44-61 | the odometer step keeps the length |
| Odometer.AdvanceAtYield | Case3.java:52-54 | at the first entry below its cap, a 0 becomes 1 and the call returns true |
| Odometer.AdvanceAtCarry | Case3.java:55-57 | a 1 becomes 2 and the step recurses on a strictly larger state |
| Odometer.AdvanceAtEnd | Case3.java:49-60 | when every entry is at its cap, all become 0 and the call returns false |
| Odometer.AdvanceWithinCaps | Case3.java:49-60 | the step keeps every entry within its cap |
| Odometer.AdvanceYield | Case3.java:39-57 | a true return gives a state whose least nonzero entry is 1, strictly after the old one |
| Odometer.AdvanceExhausted | Case3.java:49-60 | a false return leaves every entry 0 |
| Odometer.AdvanceLeast | Case3.java:39-57 | no state within the caps whose least nonzero entry is not 2 is skipped |
| Odometer.CappedBound | Case3.java:49-60 | a capped state is a digit vector below 3^length |
| Odometer.ToNatInjective | Case3.java:49-60 | two capped states at the same position in the order are equal |
| Case3.Classification.F | Case3.java:35-37 | `f` reads PARAMETER[a + 3b + 9c], which is at most MAX there |
| Case3.WindowStep | Case3.java:72-74 | the window sum from i is f on the window at i plus the window sum from i + 1 |
| Case3.U | Case3.java:66-76 | u_n is 0, 1 or 2 |
| Case3.UOfZero | Case3.java:66-76 | u_0 is 0 when f(0,0,0) is 0 |
| Case3.LeadingZero | Case3.java:66-76 | a further high digit 0 does not change the window sum |
| Case3.TrailingZero | Case3.java:66-76 | appending a 0 after two zeros does not change the window sum |
| Case3.WriteDigits | Case3.java:67-70 | N[0..15) becomes the 15 base-3 digits of n, the rest of N is untouched |
| Case3.Classification.SumWindows | Case3.java:71-74 | the loop returns the window sum of the digit buffer |
| Case3.Classification.Eval | Case3.java:66-76 | N holds the digits of n with N[15], N[16] still 0, and the result is u_n |
| Case3.Classification.Value | Case3.java:198-204 | the loop returns the sum of f over every window of three entries |
| Case3.Unit | Case3.java:183 | a leaf adds 1 to exactly one class, the one of its residue |
| Case3.FillTotal | Case3.java:181-193 | `fill` adds exactly 3^k to tab[0] + tab[1] + tab[2], k the eq-true positions from offset on |
| Case3.FillBranchesTotal | Case3.java:185-189 | the first v digits at a forced position add v · 3^k |
| Case3.FillFrame | Case3.java:181-193 | the tally depends only on positions before offset and on eq-false positions |
| Case3.FillBranchesFrame | Case3.java:185-189 | the same for the digit loop at one position |
| Case3.Classification.Fill | Case3.java:181-193 | tab grows by the tally; only eq-true positions are written, and they end at 2 |
| Case3.Classification.CountCompletion | Case3.java:183 | adds one to the class (2 value(x) + value(y)) mod 3 |
| Case3.Classification.FillEqual | Case3.java:184-189 | an eq-true position is tried with 0, 1 and 2 in both buffers |
| Case3.Classification.FillAt | Case3.java:186-188 | one common digit written at offset, then the rest filled |
| Case3.FamilyFrame | Case3.java:148-169 | the verdict depends only on the positions `family` has not yet written |
| Case3.FamilyOKMeaning | Case3.java:148-169 | `family` accepts exactly when every completion of the differing positions from `off` by pairs it tries there (all nine below `pad` except at the carry position, otherwise i != j) gives a balanced `fill` tally |
| Case3.FamilyOKMeaningBranch | Case3.java:155-166 | at a differing position: accepted iff every tried pair (i, j) gives an accepted family from the next position |
| Case3.AllBalancedBranch | Case3.java:155-166 | all completions balanced from a differing position implies so for each tried pair written there |
| Case3.AllBranchesBalanced | Case3.java:155-166 | all tried pairs balanced from the next position implies all completions balanced |
| Case3.CompleteAt | Case3.java:155-166 | a completion with choice v at a differing position is the completion from the next position of the vector with v written in |
| Case3.Classification.Family | Case3.java:148-169 | returns the family verdict: every admitted pair at every free position leads to balanced tallies; stops at the first failure |
| Case3.Classification.FamilyRow | Case3.java:158-166 | for one x digit: true exactly when every admitted y digit passes |
| Case3.Classification.FamilyAt | Case3.java:159-164 | one pair (i, j) written at offset, then the rest checked |
| Case3.Pad | Case3.java:121 | pad is max(len + 1 - before, 0) |
| Case3.LowBitsClear | Case3.java:122-124 | i stepping by 2^pad leaves eq[j] false for j < pad |
| Case3.NothingKeptAtStart | Case3.java:118-129 | every call of `family` starts from buffers whose stale contents do not matter |
| Case3.NextMultiple | Case3.java:122 | between two multiples of the step nothing else is visited |
| Case3.SetPattern | Case3.java:123-128 | eq becomes bit j of i below len, false at len, true after it |
| Case3.Classification.GoodFamilyAt | Case3.java:118-132 | true exactly when every visited i gives a good family for this len |
| Case3.Classification.GoodFamily | Case3.java:116-135 | true exactly when every len < before + 2 and every visited i give good families |
| Case3.Has2NeedsRoom | Case3.java:82-91 | a witness needs 27 or more terms and a shift shorter than a block |
| Case3.Has2CountsAddUp | Case3.java:85-89 | the three class counts add up to the in-block pairs, at most length - a |
| Case3.Has2Correlation | Case3.java:82-91 | true exactly when one class of (2 u_n + u_{n+a}) mod 3 over in-block pairs has more than length / 3 members |
| Case3.Has2AtLength | Case3.java:104-108 | true exactly when some shift Kmin <= a < Kmax gives a witness |
| Case3.Classification.EvalPrefix | Case3.java:99-103 | the classes array holds u_0 .. u_{m-1} |
| Case3.Classification.Has2CorrelationScan | Case3.java:97-111 | true exactly when some 3^m terms, 2 <= m < 15, and some shift give a witness |
| Tally.Max | Case3.java:90 | the larger of two counts |
| Tally.PairCount | Case24.java:141-145 | the count of a class never exceeds the indices scanned |
| Tally.BlockPairs | Case24.java:141-145 | the in-block pairs never exceed the indices scanned |
| Tally.NoPairWhenBlockTooShort | Case24.java:142 | with a block size 0 or at most a no pair is counted |
| Tally.ClassesTotalStep | Case24.java:141-145 | one index adds one to exactly one class when its pair is in-block |
| Tally.ClassesAddUp | Case24.java:141-145 | the class counts add up to the in-block pairs |
| Case5.Search.constructor | Case5.java:23-30 | FUNCTION and LOWFUNCTION start at zero, with start set |
| Case5.HighEnumeration | Case5.java:32-51 | every true return leaves FUNCTION nonzero with least nonzero entry 1, strictly forward and skipping no such state; false only when all wrapped to 0 |
| Case5.Search.Next | Case5.java:37-51 | performs the odometer step on FUNCTION |
| Case5.Search.Init | Case5.java:56-61 | LOWFUNCTION becomes zero and start is set |
| Case5.CountUpYield | Case5.java:74-77 | a 0 or 1 goes up by one and the call returns true |
| Case5.CountUpCarry | Case5.java:78-79 | a 2 becomes 0 and the carry moves on |
| Case5.CountUpEnd | Case5.java:82 | when positions 1..8 all wrapped the call returns false |
| Case5.CountUp | Case5.java:72-82 | positions 1..8 are incremented as a base-3 counter; position 0 is kept |
| Case5.Search.LowNext | Case5.java:67-83 | the first call after `init` returns true unchanged; later calls increment positions 1..8, never position 0 |
| Case5.LowEnumeration | Case5.java:67-83 | the increment moves strictly forward, skips no vector and ends at zero |
| Case5.SuccDigits | Case5.java:72-82 | the increment keeps base-3 digits |
| Case5.WriteRow | Case5.java:90-94 | row n becomes the 8 base-9 digits of n; other rows are untouched |
| Case5.Search.Digits | Case5.java:88-96 | DIGITS[n] holds the base-9 digits of n for every n < 6561 |
| Case5.DigitsRoundTrip | Case5.java:88-96 | those digits are below 9 and their value is n |
| Case5.HighBlock | Case5.java:101-103 | eval is 0 when a = 0, otherwise FUNCTION[9(a - 1) + 3b + c] with the index in 0..17 |
| Case5.Search.Eval | Case5.java:101-103 | `eval` reads that table entry |
| Case5.FastEntryOfDigits | Case5.java:114 | FASTFUNCTION[a + 3b][c + 3d] is eval(a,b,c) + eval(b,c,d) |
| Case5.Search.FastCells | Case5.java:113-115 | the innermost loop fills the cells for one (a, b, c) |
| Case5.Search.InitFastFunction | Case5.java:109-119 | every cell of FASTFUNCTION holds its pair sum |
| Case5.ExpandAt | Case5.java:127 | a base-9 digit stands for its two base-3 digits |
| Case5.ExpandDigits | Case5.java:124-130 | the base-9 digits of n spell out its base-3 digits |
| Case5.PairSumIsWindowSum | Case5.java:126-128 | the sum over base-9 digit pairs is the window sum over base-3 digits |
| Case5.HighIsWindowSum | Case5.java:124-130 | h_n is the window sum over the 16 base-3 digits of n, mod 3 |
| Case5.HighTerm | Case5.java:124-130 | h_n is 0, 1 or 2 |
| Case5.HighOfZero | Case5.java:124-130 | h_0 is 0 |
| Case5.Search.High | Case5.java:124-130 | the loop returns h_n |
| Case5.LowTerm | Case5.java:135-139 | l_n lies in 0..4 |
| Case5.LowVanishes | Case5.java:135-139 | l_n is 0 whenever n mod 3 is not 0 |
| Case5.Search.Low | Case5.java:135-139 | `low` returns l_n |
| Case5.JavaRem | Case5.java:152-153 | Java's remainder lies strictly between -d and d and is the Euclidean one on non-negative dividends |
| Case5.Combined | Case5.java:152-153 | the term used is h_i, plus l_i when `low` is set |
| Case5.CellInRange | Case5.java:152-153 | thanks to the + 6, u and v are in 0..2 and are the residues of the differences |
| Case5.ReadCell | Case5.java:152-153 | reads the cell (u, v) of index i |
| Case5.Bump | Case5.java:154 | one cell goes up by one, the others are unchanged |
| Case5.NoBump | Case5.java:151 | an index whose pair crosses a block is not tallied |
| Case5.TallyCell | Case5.java:154-157 | after the increment: over the bound means some cell count exceeds M, otherwise the tally goes on within M |
| Case5.ScanStep | Case5.java:151-158 | one loop turn of the tally |
| Case5.CellCount | Case5.java:150-154 | a cell count never exceeds the indices scanned |
| Case5.CellCountMonotone | Case5.java:155-157 | a count exceeding M early still exceeds it at the end |
| Case5.SpreadWhenShort | Case5.java:150 | with m <= b there is nothing to tally and no witness |
| Case5.ScanCells | Case5.java:147-161 | returns true exactly when no cell count exceeds M = m / 9 (false reports a witness) |
| Case5.Search.Has3CorrelationAt | Case5.java:147-161 | the same on RESULT and LOWRESULT |
| Case5.HighSeq | Case5.java:170-176 | m terms h_n, each 0, 1 or 2 |
| Case5.MixedSeq | Case5.java:170-176 | m terms h_n + l_n |
| Case5.MixedOfHigh | Case5.java:152-153 | the combined terms of RESULT and LOWRESULT are the terms h_n + l_n |
| Case5.Search.StoreLow | Case5.java:172 | LOWRESULT[i] becomes l_i |
| Case5.Search.StoreHigh | Case5.java:174 | RESULT[i] becomes h_i |
| Case5.Search.Refill | Case5.java:170-176 | only LOWRESULT[0..m) is rewritten, to l_n, when `low`; otherwise only RESULT[0..m), to h_n |
| Case5.Search.ScanFirst | Case5.java:178-182 | finds the first a < b whose scaled shift gives a witness, or reports that none does |
| Case5.Search.ScanShifts | Case5.java:177-184 | true exactly when some 1 <= a < b < v gives a witness, shifts scaled by 9 unless `low` |
| Case5.Search.Has3Correlation | Case5.java:169-185 | refills the terms and returns whether a witness exists among them |
| Case5.Search.HighScans | Case5.java:198 | true exactly when the high scans at 729, 2187 and 6561 all find no witness |
| Case5.Search.LowScans | Case5.java:201 | true exactly when the scans at 81, 243 and 729 all find no witness for this low function |
| Case5.LowCheckedAtZero | Case5.java:199-200 | before the loop no low function has been checked, so none has failed |
| Case5.LowCheckedStep | Case5.java:200-204 | after one more low function passes, all low functions up to the next counter value have passed |
| Case5.Search.LowTurn | Case5.java:200-204 | one loop turn: a failing low function, or one more passed |
| Case5.Search.AllDefect | Case5.java:192-206 | the problem is reported exactly when all three high scans fail and some low function with LOWFUNCTION[0] = 0 fails all three low scans |

## Left out

- The `main` methods of the three classes and their printing: they only drive
  the enumerations (up to 2^26 candidates in `Case24`, 3^27 in `Case3`, 3^18 in
  `Case5`), whose totals cannot be computed by a verifier. `Case3.main`'s
  classification loop is not modelled for the same reason; its parts are.
- The `RuntimeException` thrown on a misclassification is modelled as the
  `ClassificationProblem` outcome carrying the same message.
- Java `int` overflow is not modelled: every quantity stays far inside the int
  range for the arguments the programs use. The one place where it matters,
  `1 << mask` in `Case24.java:241`, is modelled as written: the shift loop of
  `Case24.Classification.CountGoodFunctions` tests each shift with the Java
  int `1 << mask`, which is negative at rank 5 (see Findings); the intended
  guard `i < 2^mask` is `Case24.IntendedVerdict`, which agrees below rank 5.
- `Case24.Classification.Has2CorrelationScan` requires Nmax <= 31 and
  `Case24.Classification.Has4CorrelationScan` requires max <= 30, because
  `1 << m` overflows beyond; the source calls them with 15 and 10.
- `Case24.Has4Correlation` requires at least 16 classes (or a shift beyond the
  array), because with fewer the block size is 0 and the source divides by zero;
  `Case5.ScanCells` and `Case5.Search.Has3CorrelationAt` require m >= 9 for the
  same reason.
- The tallies of `Case24` (`Has2Correlation`, `Has4Tally` and the scans that
  call them) require entries 0 or 1 and those of `Case3` (`Has2Correlation`,
  `Has2AtLength`) entries 0, 1 or 2: Java's `%` is negative on a negative entry
  and the tally index would be out of bounds; every caller passes `eval`'s
  terms, which are in range.
- `Case5.CountUp` requires base-3 digits at positions 1..8: the Java switch has
  no case for other values, which `lowNext` never produces.
- `Case5.Search.High` and `Case5.Search.Low` require n < 6561, the size of
  `DIGITS`; beyond it the source fails on the array bound.
- The parameter of `Case24` is a 64-bit word (`bv64`, Java `long`); `f` tests
  its bits through the int `1 << idx` exactly as written, and the equivalence
  with a plain bit test holds only below 2^32, which `getParameter` guarantees.
- `Case24.Classification.CountGoodFunctions` counts a good candidate after its
  shift checks rather than before, as the source does: the count is thrown away
  whenever a shift check fails, so the outcome is the same.
- `has4Correlation(a, b, c, classes)` tests only that n and n + b share a block,
  not n + c; the model follows the code.
- The statics `POW3`, `MAX`, `SHIFTS` become constants; the mutable statics
  become fields of one object per class, so `start` is per object.
- `&&` short-circuiting in `allDefect` is modelled by the early returns of
  `Case5.Search.HighScans` and `Case5.Search.LowScans`.
- `Case5.Search.Has3Correlation`: its contract states the refilled terms and the
  witness only; which (a, b) the scan stops at is not stated, because the result
  does not depend on it.

## Findings

| source | as written | input that shows it | evidently intended | confidence | as-written member | corrected member |
|---|---|---|---|---|---|---|
| Case24.java:241 | `i < (1 << mask)`: with rank 5, mask is 31 and the int `1 << 31` is -2^31, so the guard rejects every shift | rank 5: every SHIFTS entry i >= 0 fails `i < -2147483648`, so no good rank-5 function is checked for 4-correlation | `i < 2^mask`, which admits all 32 shifts at rank 5 | not executed | Case24.RankFiveShiftsUnchecked | Case24.ShiftsTestedForRank |
