# Selection and bookkeeping logic of four O2Physics analysis tasks

This project models, in Dafny, the selection and bookkeeping core of four
per-collision analysis tasks of the ALICE O2Physics framework, and proves
what each of them promises.

- **TPC particle identification** (`tpcPidFull`, module `PidTpcFull`).
  - Each of nine mass hypotheses (El, Mu, Pi, Ka, Pr, De, Tr, He, Al) has a flag: -1 auto, 0 off, 1 on.
  - `init` resolves the flags against the input bindings of every device of the workflow, matched by the name `"pidTPCFull" + species`.
  - `init` then loads the parametrization, from a file or from the calibration store.
  - `process` appends one (expected sigma, separation) row per track to the table of every species whose flag is exactly 1.
  - The analysis task is a class with its flags, its load requests and its nine tables.
- **Sigma0 builder** (`sigma0builder`, module `Sigma0Builder`).
  - `processSigmaCandidate` is a cut chain over a (lambda, gamma) pair of V0s.
  - In standard mode, ten stages each fill one counter bin. In score mode, classifier scores are used instead. The Sigma0 mass window and rapidity then fill bin 10.
  - The process functions try every ordered pair of V0 rows of each collision.
  - For each accepted pair they count it and write the candidate tables (`fillTables`), or write its Monte-Carlo truth flags.
  - The analysis task is a class holding the 11-bin counter array, the candidate count and the output tables.
- **Femtoscopic track-track pairs** (`femtoUniversePairTaskTrackTrackSpherHarMultKtExtended`, module `FemtoPairs`).
  - The n-sigma acceptance rules for protons, pions and kaons, and their dispatch on the configured PDG code.
  - Full-index and strictly-upper pair enumerations.
  - The filter chain of the same-event and mixed-event pair loops.
  - The random leg order of like-sign pairs.
  - Mixing pairs of collisions with different magnetic fields are skipped.
  - The analysis task is a class whose same-event and mixed-event containers receive the filled pair entries.
- **Diffractive-candidate analyzer** (`DGCandAnalyzer`, module `DgCandAnalyzer`).
  - The candidate case is found from its sentinel vertex.
  - The selection chain is good run, case, track count, net charge, then TOF fraction.
  - A set of accepted bunch crossings removes duplicates. `init` clears it.
  - The guard of `fillSignalHists`.

`common.dfy` holds the `Option` and `Result` types and `Abs`.

Collaborators these analyses call but do not define are parameters of the model.
These are the detector response, the Sigma0 kinematics, the pair cleaner, close-pair rejection, the pair kT, the good-run selector, the TOF fraction and `computeIVMs`.
The per-pair random draw is an input function of the pair's positions.

Where the code and the informal description of these tasks differ, the model follows the code:
- Sigma0 pairs are all ordered pairs of one V0 table, a row with itself included: n * n attempts, not a cross or self pairing of two roles.
- The score selection asks for a gamma score above its threshold and a lambda **or** antilambda score above its own, not every score.
- An auto flag whose table no device asks for stays -1 after `init` (it is not made binary) and produces no rows.
- The random draw of a like-sign pair only orders the two legs inside the one container of that pair type. It does not choose between the ++ and -- containers.

## Model

| member | source | states |
|---|---|---|
| PidTpcFull.ResolveFlagClosedForm | Common/TableProducer/PID/pidTPCFull.cxx:80-104 | after the inputs are visited, a flag is 1 when it was non-zero and some input bound its table, and is unchanged otherwise |
| PidTpcFull.ResolveFlagAppend | Common/TableProducer/PID/pidTPCFull.cxx:80-106 | resolving over two runs of inputs equals resolving over the first and then the second (devices visited one after another) |
| PidTpcFull.ResolveAllMeaning | Common/TableProducer/PID/pidTPCFull.cxx:80-104 | resolving the nine flags together gives each species exactly the result of resolving its own flag alone |
| PidTpcFull.ResolveAllAppend | Common/TableProducer/PID/pidTPCFull.cxx:80-106 | resolving all nine flags over concatenated inputs equals resolving over the first inputs, then the rest |
| PidTpcFull.MatchingInputResolves | Common/TableProducer/PID/pidTPCFull.cxx:82-95 | with a matching binding, an auto (negative) or positive flag ends at 1, and an explicit 0 stays 0 |
| PidTpcFull.UnmatchedFlagKept | Common/TableProducer/PID/pidTPCFull.cxx:84 | without a matching binding the configured value, even auto -1, is kept |
| PidTpcFull.ResolveFlagIdempotent | Common/TableProducer/PID/pidTPCFull.cxx:80-106 | running the device/input loop a second time over the same inputs changes no flag |
| PidTpcFull.TableNameInjective | Common/TableProducer/PID/pidTPCFull.cxx:83 | two species have the same table name only if they are the same species |
| PidTpcFull.OtherSpeciesUntouched | Common/TableProducer/PID/pidTPCFull.cxx:96-104 | the binding of one species' table never changes another species' flag |
| PidTpcFull.StorePath | Common/TableProducer/PID/pidTPCFull.cxx:123-127 | the store path is the directory, one '/', then the name, with exact lengths |
| PidTpcFull.ParamLoads | Common/TableProducer/PID/pidTPCFull.cxx:115-130 | two loads, signal then sigma. With a non-empty file name both come from that file; with an empty one both come from the store at `ccdbPath/name`, with the timestamp |
| PidTpcFull.RowsAt | Common/TableProducer/PID/pidTPCFull.cxx:151-155 | one row per track, and row i is the expected sigma and separation of track i |
| PidTpcFull.FillAllAt | Common/TableProducer/PID/pidTPCFull.cxx:158-166 | after `process`, every species' table gained exactly what its own flag asks for; the other flags play no part |
| PidTpcFull.EmittedShape | Common/TableProducer/PID/pidTPCFull.cxx:148-157 | `makeTable` appends `tracks.size()` rows in track order when the flag is 1, and nothing for any other value (-1, 0, 2, …) |
| PidTpcFull.UnrequestedAutoEmitsNothing | Common/TableProducer/PID/pidTPCFull.cxx:148-157 | a species left on auto that no input asks for produces no rows |
| PidTpcFull.TpcPidFull.constructor | Common/TableProducer/PID/pidTPCFull.cxx:66-74 | flags start at their configured values, no loads are requested, and every table is empty |
| PidTpcFull.TpcPidFull.EnableFlag | Common/TableProducer/PID/pidTPCFull.cxx:82-95 | only the given species' flag changes, by one enabling step for the binding |
| PidTpcFull.TpcPidFull.EnableAll | Common/TableProducer/PID/pidTPCFull.cxx:96-104 | the nine enabling calls for one input, in species order |
| PidTpcFull.TpcPidFull.EnableDevice | Common/TableProducer/PID/pidTPCFull.cxx:81-105 | the flags after every input of one device, in order |
| PidTpcFull.TpcPidFull.LoadParams | Common/TableProducer/PID/pidTPCFull.cxx:115-130 | the requested loads are exactly `ParamLoads` of the configuration |
| PidTpcFull.TpcPidFull.Init | Common/TableProducer/PID/pidTPCFull.cxx:76-131 | every flag equals its own resolution over all devices' inputs, and the loads follow the file/store choice |
| PidTpcFull.TpcPidFull.MakeTable | Common/TableProducer/PID/pidTPCFull.cxx:148-157 | only the given species' table changes, by the rows its flag asks for |
| PidTpcFull.TpcPidFull.Process | Common/TableProducer/PID/pidTPCFull.cxx:135-167 | the tables after the nine `makeTable` calls in the fixed species order |
| Sigma0Builder.StandardChainStops | PWGLF/TableProducer/Strangeness/sigma0builder.cxx:183-214 | once a stage bin is missed, no later bin is filled (early return) |
| Sigma0Builder.StandardBinMeaning | PWGLF/TableProducer/Strangeness/sigma0builder.cxx:163-214 | stage bin k is filled iff both V0s have a type and stages 0..k all pass |
| Sigma0Builder.StandardChainBack | PWGLF/TableProducer/Strangeness/sigma0builder.cxx:183-214 | a filled stage bin implies every earlier bin was filled |
| Sigma0Builder.StandardStopsAt | PWGLF/TableProducer/Strangeness/sigma0builder.cxx:183-214 | with stages below m passed and stage m failed, exactly bins 0..m-1 are filled |
| Sigma0Builder.StandardStagesComplete | PWGLF/TableProducer/Strangeness/sigma0builder.cxx:183-231 | with every stage passed, all stage bins are filled, and bin 10 iff the composite cuts pass |
| Sigma0Builder.PassedFrom | PWGLF/TableProducer/Strangeness/sigma0builder.cxx:183-214 | the stopping stage lies between the starting stage and 10 |
| Sigma0Builder.PassedFromMeaning | PWGLF/TableProducer/Strangeness/sigma0builder.cxx:183-214 | every stage before the stopping stage passes, and the stopping stage (when below 10) fails |
| Sigma0Builder.StagesPassedFills | PWGLF/TableProducer/Strangeness/sigma0builder.cxx:183-214 | a typed pair fills exactly the stage bins below its number of passed stages, and reaches 10 iff every stage passes |
| Sigma0Builder.StandardAcceptance | PWGLF/TableProducer/Strangeness/sigma0builder.cxx:161-231 | standard mode accepts iff both V0s have a type, all ten stages pass (lambda mass: Lambda or AntiLambda within the window of 1.115683), and the Sigma0 mass/rapidity cuts pass |
| Sigma0Builder.ScoreModeAcceptance | PWGLF/TableProducer/Strangeness/sigma0builder.cxx:163-231 | score mode accepts iff both V0s have a type, the gamma score exceeds its threshold, the lambda or antilambda score exceeds its own, and the composite cuts pass. No bin other than 10 is filled |
| Sigma0Builder.UntypedFillsNothing | PWGLF/TableProducer/Strangeness/sigma0builder.cxx:163-164 | a V0 with type 0 on either leg fills no bin, in either mode |
| Sigma0Builder.FilledBinsPrefix | PWGLF/TableProducer/Strangeness/sigma0builder.cxx:183-229 | in standard mode a filled bin implies the bin before it is filled |
| Sigma0Builder.BoundaryValuesPass | PWGLF/TableProducer/Strangeness/sigma0builder.cxx:189-209 | radius and DCA-to-PV values exactly at their bounds pass |
| Sigma0Builder.CollisionAttemptsCount | PWGLF/TableProducer/Strangeness/sigma0builder.cxx:463-464 | a collision with n V0 rows makes n * n attempts |
| Sigma0Builder.CollisionAttemptsMembers | PWGLF/TableProducer/Strangeness/sigma0builder.cxx:463-464 | an attempt is made for (gamma, lambda) iff both rows belong to the collision, a row with itself included |
| Sigma0Builder.CounterAfterHits | PWGLF/TableProducer/Strangeness/sigma0builder.cxx:183-229 | each counter bin grows by exactly the number of attempts that fill it |
| Sigma0Builder.CounterAfterAppend | PWGLF/TableProducer/Strangeness/sigma0builder.cxx:463-474 | counting over two runs of attempts equals counting over the first, then the second |
| Sigma0Builder.StandardCounterFunnel | PWGLF/TableProducer/Strangeness/sigma0builder.cxx:183-229 | under standard cuts a non-increasing counter stays non-increasing from bin to bin over any number of attempts |
| Sigma0Builder.FinalHitsAreAccepted | PWGLF/TableProducer/Strangeness/sigma0builder.cxx:229-231 | bin 10 counts exactly the accepted attempts |
| Sigma0Builder.MlHitsOnlyFinal | PWGLF/TableProducer/Strangeness/sigma0builder.cxx:165-179 | in score mode no bin but 10 is ever filled |
| Sigma0Builder.AcceptedAppend | PWGLF/TableProducer/Strangeness/sigma0builder.cxx:463-474 | the accepted attempts of two runs are those of the first followed by those of the second |
| Sigma0Builder.BdtScore | PWGLF/TableProducer/Strangeness/sigma0builder.cxx:245-257 | -1 without score columns, the score column with them |
| Sigma0Builder.CandidateOf | PWGLF/TableProducer/Strangeness/sigma0builder.cxx:242-361 | the row carries the collision index, the pair's pt/mass/rapidity, both V0s, and BDT scores of -1 (standard) or the V0s' scores (score mode) |
| Sigma0Builder.McFlags | PWGLF/TableProducer/Strangeness/sigma0builder.cxx:434-445 | never both flags; Sigma0 iff a photon and a Lambda of one Sigma0 mother, anti-Sigma0 iff a photon and an anti-Lambda of one anti-Sigma0 mother |
| Sigma0Builder.CandidatesMatchAccepted | PWGLF/TableProducer/Strangeness/sigma0builder.cxx:463-474 | one candidate row per accepted attempt, row i built from the i-th accepted attempt |
| Sigma0Builder.CandidatesAppend | PWGLF/TableProducer/Strangeness/sigma0builder.cxx:463-474 | candidate rows of two runs are those of the first followed by those of the second |
| Sigma0Builder.McCoresAppend | PWGLF/TableProducer/Strangeness/sigma0builder.cxx:411-445 | truth rows of two runs are those of the first followed by those of the second |
| Sigma0Builder.RunAppend | PWGLF/TableProducer/Strangeness/sigma0builder.cxx:463-474 | the state after two runs of attempts is the state after the first, then the second |
| Sigma0Builder.RunMeaning | PWGLF/TableProducer/Strangeness/sigma0builder.cxx:363-478 | after any run: each bin grows by its hits; the selection pass adds the accepted count and one candidate row per accepted pair, in order; the Monte-Carlo pass adds only their truth flags |
| Sigma0Builder.PairStepMeaning | PWGLF/TableProducer/Strangeness/sigma0builder.cxx:465-474 | one more pair moves the described state by exactly one loop body |
| Sigma0Builder.RunIgnoresRows | PWGLF/TableProducer/Strangeness/sigma0builder.cxx:463-474 | the pair loops neither read nor write the collision rows |
| Sigma0Builder.RunCollisionsAsRun | PWGLF/TableProducer/Strangeness/sigma0builder.cxx:453-477 | the collision loop is one run over all attempts of all collisions, with one collision row per collision in the selection pass |
| Sigma0Builder.RunCollisionsMeaning | PWGLF/TableProducer/Strangeness/sigma0builder.cxx:453-477 | the collision loop's whole effect: counter bins, candidate count, candidate and truth rows as in `RunMeaning`, and the collision rows |
| Sigma0Builder.Sigma0BuilderTask.constructor | PWGLF/TableProducer/Strangeness/sigma0builder.cxx:117 | all eleven bins, the candidate count and every table start empty or zero |
| Sigma0Builder.Sigma0BuilderTask.Fill | PWGLF/TableProducer/Strangeness/sigma0builder.cxx:185 | filling bin k raises bin k by one and nothing else |
| Sigma0Builder.Sigma0BuilderTask.Stage | PWGLF/TableProducer/Strangeness/sigma0builder.cxx:183-214 | one stage passes iff its cut passes, and then fills its own bin |
| Sigma0Builder.Sigma0BuilderTask.StandardStages | PWGLF/TableProducer/Strangeness/sigma0builder.cxx:180-215 | the stages fill exactly the bins below the number of passed stages, and succeed iff all ten pass |
| Sigma0Builder.Sigma0BuilderTask.ProcessSigmaCandidate | PWGLF/TableProducer/Strangeness/sigma0builder.cxx:161-232 | returns acceptance, and raises by one exactly the bins the pair fills |
| Sigma0Builder.Sigma0BuilderTask.FillTables | PWGLF/TableProducer/Strangeness/sigma0builder.cxx:242-361 | appends exactly one candidate row for the pair |
| Sigma0Builder.Sigma0BuilderTask.TryPair | PWGLF/TableProducer/Strangeness/sigma0builder.cxx:465-474 | one loop body: the cut chain, then the count and candidate row or the truth flags of an accepted pair |
| Sigma0Builder.Sigma0BuilderTask.TryGamma | PWGLF/TableProducer/Strangeness/sigma0builder.cxx:464-475 | the inner loop: one gamma against every lambda row, in order |
| Sigma0Builder.Sigma0BuilderTask.BuildCollision | PWGLF/TableProducer/Strangeness/sigma0builder.cxx:463-476 | the nested loops over the ordered pairs of one collision's rows |
| Sigma0Builder.Sigma0BuilderTask.RunPass | PWGLF/TableProducer/Strangeness/sigma0builder.cxx:453-477 | the collision loop, with one collision row per collision in the selection pass |
| Sigma0Builder.Sigma0BuilderTask.ProcessSelection | PWGLF/TableProducer/Strangeness/sigma0builder.cxx:451-505 | one collision row per collision; the count, bin 10 and the candidate rows all grow by the accepted pairs; standard cuts keep the counter non-increasing; score mode leaves bins 0-9 alone |
| Sigma0Builder.Sigma0BuilderTask.ProcessMonteCarlo | PWGLF/TableProducer/Strangeness/sigma0builder.cxx:363-449 | truth flags for every pair the standard cuts accept; no count, no collision or candidate rows; non-increasing counter kept |
| FemtoPairs.HypotBelowMeaning | PWGCF/FemtoUniverse/Tasks/femtoUniversePairTaskTrackTrackSpherHarMultKtExtended.cxx:235 | the square-free test agrees with comparing the true length of (a, b) against the threshold |
| FemtoPairs.ProtonTpcOnly | PWGCF/FemtoUniverse/Tasks/femtoUniversePairTaskTrackTrackSpherHarMultKtExtended.cxx:228-233 | below the TOF threshold the TOF n-sigma is irrelevant, and a proton is accepted iff abs(nσTPC) < ConfNsigmaTPC |
| FemtoPairs.ProtonCombinedAcceptance | PWGCF/FemtoUniverse/Tasks/femtoUniversePairTaskTrackTrackSpherHarMultKtExtended.cxx:234-239 | from the TOF threshold on, accepted iff the length of (nσTOF, nσTPC) is below ConfNsigmaCombined |
| FemtoPairs.PionMatchesProton | PWGCF/FemtoUniverse/Tasks/femtoUniversePairTaskTrackTrackSpherHarMultKtExtended.cxx:283-308 | the pion rule decides exactly as the proton rule on the same numbers |
| FemtoPairs.KaonBands | PWGCF/FemtoUniverse/Tasks/femtoUniversePairTaskTrackTrackSpherHarMultKtExtended.cxx:244-281 | the five momentum bands and their n-sigma windows, with a momentum of exactly 1.5 always rejected |
| FemtoPairs.KaonNeedsTpcWithin3 | PWGCF/FemtoUniverse/Tasks/femtoUniversePairTaskTrackTrackSpherHarMultKtExtended.cxx:246-277 | no band accepts abs(nσTPC) >= 3 |
| FemtoPairs.IsParticleNSigma | PWGCF/FemtoUniverse/Tasks/femtoUniversePairTaskTrackTrackSpherHarMultKtExtended.cxx:310-352 | an error, carrying the number, exactly when the particle number is neither 1 nor 2 |
| FemtoPairs.ChargeConjugateSameVerdict | PWGCF/FemtoUniverse/Tasks/femtoUniversePairTaskTrackTrackSpherHarMultKtExtended.cxx:313-345 | negating both configured PDG codes changes no verdict |
| FemtoPairs.UnknownCodeRejects | PWGCF/FemtoUniverse/Tasks/femtoUniversePairTaskTrackTrackSpherHarMultKtExtended.cxx:326-345 | a code other than ±2212, ±211, ±321 accepts nothing |
| FemtoPairs.CrossPairsCount | PWGCF/FemtoUniverse/Tasks/femtoUniversePairTaskTrackTrackSpherHarMultKtExtended.cxx:456 | the full-index enumeration makes m * n pairs |
| FemtoPairs.UpperPairsCount | PWGCF/FemtoUniverse/Tasks/femtoUniversePairTaskTrackTrackSpherHarMultKtExtended.cxx:480 | the strictly-upper enumeration makes n(n-1)/2 pairs |
| FemtoPairs.CrossPairsMembers | PWGCF/FemtoUniverse/Tasks/femtoUniversePairTaskTrackTrackSpherHarMultKtExtended.cxx:456 | every pair of positions of the two groups is enumerated, and nothing else |
| FemtoPairs.UpperPairsMembers | PWGCF/FemtoUniverse/Tasks/femtoUniversePairTaskTrackTrackSpherHarMultKtExtended.cxx:480 | exactly the pairs i < j: no self-pairs, no swapped duplicates |
| FemtoPairs.SamePairFill | PWGCF/FemtoUniverse/Tasks/femtoUniversePairTaskTrackTrackSpherHarMultKtExtended.cxx:456-524 | a same-event pair fills one entry iff it passes PID, close-pair rejection (when enabled) and cleaning; legs (p1, p2) for unlike-sign or draw > 0.5, (p2, p1) otherwise |
| FemtoPairs.SameFillsCount | PWGCF/FemtoUniverse/Tasks/femtoUniversePairTaskTrackTrackSpherHarMultKtExtended.cxx:456-529 | a loop fills exactly one entry per pair that passes the filter chain |
| FemtoPairs.SameFillsFromAcceptedPairs | PWGCF/FemtoUniverse/Tasks/femtoUniversePairTaskTrackTrackSpherHarMultKtExtended.cxx:456-529 | every entry comes from a pair of the loop's own groups that passed the chain, in one leg order or the other |
| FemtoPairs.UnlikeSignIgnoresDraw | PWGCF/FemtoUniverse/Tasks/femtoUniversePairTaskTrackTrackSpherHarMultKtExtended.cxx:456-478 | the unlike-sign loop never draws: its entries are the same for any draw |
| FemtoPairs.MixedFillsCount | PWGCF/FemtoUniverse/Tasks/femtoUniversePairTaskTrackTrackSpherHarMultKtExtended.cxx:586-623 | a mixed-event loop fills exactly one entry per pair that passes its filter chain |
| FemtoPairs.MixedFillsFromAcceptedPairs | PWGCF/FemtoUniverse/Tasks/femtoUniversePairTaskTrackTrackSpherHarMultKtExtended.cxx:586-623 | every mixed-event entry is the entry of a passing pair of the loop's groups, legs never swapped |
| FemtoPairs.SameEventLikeSignDistinct | PWGCF/FemtoUniverse/Tasks/femtoUniversePairTaskTrackTrackSpherHarMultKtExtended.cxx:480-529 | the like-sign loop only tries positions i < j and fills at most n(n-1)/2 entries |
| FemtoPairs.AcceptedAtMost | PWGCF/FemtoUniverse/Tasks/femtoUniversePairTaskTrackTrackSpherHarMultKtExtended.cxx:456-529 | no more pairs pass than are tried |
| FemtoPairs.MixedSkipsFieldMismatch | PWGCF/FemtoUniverse/Tasks/femtoUniversePairTaskTrackTrackSpherHarMultKtExtended.cxx:639-641 | a mixing pair of collisions with different magnetic fields adds nothing |
| FemtoPairs.MixedRunMeaning | PWGCF/FemtoUniverse/Tasks/femtoUniversePairTaskTrackTrackSpherHarMultKtExtended.cxx:628-659 | the mixing loop appends to each enabled container its entries of every mixing pair in order, and leaves disabled containers alone |
| FemtoPairs.PassesPid | PWGCF/FemtoUniverse/Tasks/femtoUniversePairTaskTrackTrackSpherHarMultKtExtended.cxx:458-464 | the PID test of one leg equals the particle-n selection |
| FemtoPairs.TrySamePair | PWGCF/FemtoUniverse/Tasks/femtoUniversePairTaskTrackTrackSpherHarMultKtExtended.cxx:456-524 | the same-event loop body fills what `SamePairFill` describes |
| FemtoPairs.SameRow | PWGCF/FemtoUniverse/Tasks/femtoUniversePairTaskTrackTrackSpherHarMultKtExtended.cxx:456-480 | one row of the pair loop, in position order |
| FemtoPairs.SameRows | PWGCF/FemtoUniverse/Tasks/femtoUniversePairTaskTrackTrackSpherHarMultKtExtended.cxx:456-480 | the first m rows, full or strictly upper |
| FemtoPairs.DoSameEvent | PWGCF/FemtoUniverse/Tasks/femtoUniversePairTaskTrackTrackSpherHarMultKtExtended.cxx:431-531 | full-index loop for unlike-sign pairs, strictly-upper loop over the first group otherwise, filling in loop order |
| FemtoPairs.TryMixedPair | PWGCF/FemtoUniverse/Tasks/femtoUniversePairTaskTrackTrackSpherHarMultKtExtended.cxx:589-620 | the mixed-event body: both legs with the particle-2 selection, then close-pair rejection; no pair cleaning |
| FemtoPairs.MixedRow | PWGCF/FemtoUniverse/Tasks/femtoUniversePairTaskTrackTrackSpherHarMultKtExtended.cxx:589 | one full row of the mixed-event loop |
| FemtoPairs.MixedRows | PWGCF/FemtoUniverse/Tasks/femtoUniversePairTaskTrackTrackSpherHarMultKtExtended.cxx:589 | the first m full rows of the mixed-event loop |
| FemtoPairs.DoMixedEvent | PWGCF/FemtoUniverse/Tasks/femtoUniversePairTaskTrackTrackSpherHarMultKtExtended.cxx:586-623 | the full-index mixed-event loop, in loop order |
| FemtoPairs.MixPair | PWGCF/FemtoUniverse/Tasks/femtoUniversePairTaskTrackTrackSpherHarMultKtExtended.cxx:639-657 | the entries one mixing pair adds to one pair type's container: nothing on a field mismatch, otherwise the groups of that pair type |
| FemtoPairs.FemtoPairTask.constructor | PWGCF/FemtoUniverse/Tasks/femtoUniversePairTaskTrackTrackSpherHarMultKtExtended.cxx:161-170 | all six containers start empty |
| FemtoPairs.FemtoPairTask.ProcessSameEvent | PWGCF/FemtoUniverse/Tasks/femtoUniversePairTaskTrackTrackSpherHarMultKtExtended.cxx:536-557 | each enabled pair type appends its same-event entries (group 1 × group 2, group 1 with itself, group 2 with itself); disabled ones are left alone |
| FemtoPairs.FemtoPairTask.MixCollisions | PWGCF/FemtoUniverse/Tasks/femtoUniversePairTaskTrackTrackSpherHarMultKtExtended.cxx:633-657 | one iteration of the mixing loop |
| FemtoPairs.FemtoPairTask.ProcessMixedEvent | PWGCF/FemtoUniverse/Tasks/femtoUniversePairTaskTrackTrackSpherHarMultKtExtended.cxx:628-659 | each enabled container gains its entries of every mixing pair in order; the others are unchanged |
| DgCandAnalyzer.CandCase | PWGUD/Tasks/DGCandAnalyzer.cxx:163-168 | the case is 1, 2 or 3 |
| DgCandAnalyzer.CandCaseMeaning | PWGUD/Tasks/DGCandAnalyzer.cxx:163-168 | case 2 iff the vertex is (-1, 1, -1), case 3 iff it is (-2, 2, -2), case 1 iff neither |
| DgCandAnalyzer.ClassifyMeaning | PWGUD/Tasks/DGCandAnalyzer.cxx:151-212 | analysed iff every cut passes and the bunch crossing is not a repeat (for a candidate with combinations); a duplicate iff every cut passes, it has combinations and the bunch crossing was recorded |
| DgCandAnalyzer.AllCasesWithoutSelection | PWGUD/Tasks/DGCandAnalyzer.cxx:169-171 | with a case selection of 0 or less no case is rejected for its case |
| DgCandAnalyzer.SentinelNeedsFullTofFraction | PWGUD/Tasks/DGCandAnalyzer.cxx:187-193 | a case 2 or 3 candidate with a TOF fraction below 1.0 is never analysed, whatever the configured cut |
| DgCandAnalyzer.RecordGrows | PWGUD/Tasks/DGCandAnalyzer.cxx:199-212 | the recorded set never shrinks, and gains at most the candidate's own bunch crossing |
| DgCandAnalyzer.RecordedRejectsRepeat | PWGUD/Tasks/DGCandAnalyzer.cxx:199-207 | once a bunch crossing is recorded, a later candidate of it with combinations is never analysed |
| DgCandAnalyzer.RunRecordsDistinct | PWGUD/Tasks/DGCandAnalyzer.cxx:199-212 | along any run the set is the start set plus the recorded bunch crossings, which are pairwise distinct and new |
| DgCandAnalyzer.SignalPair | PWGUD/Tasks/DGCandAnalyzer.cxx:98-104 | a track pair exists iff the combination has exactly two tracks, and it is those two tracks |
| DgCandAnalyzer.DgCandAnalyzerTask.constructor | PWGUD/Tasks/DGCandAnalyzer.cxx:131 | the set of bunch crossings starts empty |
| DgCandAnalyzer.DgCandAnalyzerTask.Init | PWGUD/Tasks/DGCandAnalyzer.cxx:131 | `init` empties the set |
| DgCandAnalyzer.DgCandAnalyzerTask.Process | PWGUD/Tasks/DGCandAnalyzer.cxx:151-212 | the verdict is the selection chain on the old set, and the set gains the bunch crossing only for an analysed candidate with combinations |

## Left out

- Histograms, QA fills, axis set-up and log output of all four tasks are not modelled. They are output only. The Sigma0 counter histogram is the 11-bin counter.
- File and calibration-store loading, with the store's URL, caching and validity settings, is not modelled. `init` records which loads it requests (`ParamLoads`).
- Floating point is not modelled: n-sigmas, masses, radii and fractions are reals, so rounding and `float` narrowing are absent.
- Kinematics are input functions. This covers the Sigma0 mass, pt and rapidity, the pair kT, and the TPC response (expected sigma, separation).
- Collaborators are input functions: close-pair rejection, the pair cleaner, the good-run selector, the TOF fraction and `computeIVMs`.
- Framework slicing, partitions and the collision binning of `selfCombinations` are inputs. They are the particle groups of a collision and the sequence of mixing pairs.
- The `TRandom2` draw of a like-sign pair is an arbitrary input function of the pair's positions. The source builds a fresh generator for each accepted like-sign pair. The ++ and -- loops take separate draw functions, and the +- loop never draws.
- The spherical-harmonic container internals, `processCov` and `JMax` are not modelled. A container fill is recorded as the filled entry (legs, multiplicity, kT).
- The placeholder process functions are not modelled: `processSameEventMC`, `processMixedEventMC`, `processDummy`, and the femto QA loops over single particles.
- The unreachable `default` branches of the femto container switch are not modelled. The pair type has exactly the three values 1, 2 and 3.
- FemtoPairs.FemtoPairTask.ProcessSameEvent: the same-event loops accumulate their entries locally and append them once per loop. The source fills the container pair by pair; the final contents are the same.
- In the Sigma0 builder, the photon and lambda extra rows hold the whole V0 row instead of the dozens of derived columns `fillTables` computes from it. The daughter-track lookups are not modelled.
- In the Sigma0 builder, the selection mode is a parameter instead of the compile-time presence of score columns. The Monte-Carlo pass uses standard mode, as its table has no score columns.
- DgCandAnalyzer.SignalPair: states only which track pair is filled. The filled TPC/TOF signals are histogram content.
- The nine PID flags and tables are one record with a field per species (`PerSpecies`), not nine separate configurables and tables.
- The 32/64-bit widths of counters, indices and bunch-crossing numbers are not modelled. The model uses unbounded integers; the source's counts stay far below those limits.
