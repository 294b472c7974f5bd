/** The Sigma0 builder: every ordered (gamma, lambda) pair of V0s of one
    collision goes through a fixed chain of cuts; each stage passed fills one
    bin of an 11-bin counter, the chain stops at the first failure, and every
    accepted pair is written to the output tables. */
module Sigma0Builder {
  import opened Common

  /** Nominal masses the two mass windows are centred on (GeV/c^2). */
  const LambdaMass: real := 1.115683
  const Sigma0Mass: real := 1.192642

  /** Bins of the candidate-selection counter: ten cut stages and the Sigma0 window. */
  const NumBins: nat := 11
  const FinalBin: nat := 10

  /** The classifier scores of the ML-scored V0 tables. */
  datatype MlScores = MlScores(gamma: real, lambda: real, antiLambda: real)

  /** Monte-Carlo truth of a V0 in the simulated tables. */
  datatype McTruth = McTruth(pdgCode: int, pdgCodeMother: int, motherId: int)

  /** One V0 row: the columns the selection reads; the output copies the whole row. */
  datatype V0 = V0(
    v0Type: int,
    mGamma: real, mLambda: real, mAntiLambda: real,
    posEta: real, negEta: real,
    dcaPosToPv: real, dcaNegToPv: real,
    dcaV0Daughters: real, v0Radius: real,
    scores: MlScores,
    mc: McTruth)

  /** Which V0 table the process function reads: the standard one (cut based)
      or the one carrying classifier scores (score based). */
  datatype Selection = Standard | MachineLearning

  /** The configurable thresholds. */
  datatype Cuts = Cuts(
    gammaMlThreshold: real, lambdaMlThreshold: real, antiLambdaMlThreshold: real,
    lambdaDauPseudoRap: real, lambdaMinDcaNegToPv: real, lambdaMinDcaPosToPv: real,
    lambdaMaxDcaV0Dau: real, lambdaMinV0Radius: real, lambdaMaxV0Radius: real, lambdaWindow: real,
    photonMaxDauPseudoRap: real, photonMinDcaToPv: real, photonMaxDcaV0Dau: real,
    photonMinRadius: real, photonMaxRadius: real, photonMaxMass: real,
    sigma0Window: real, sigmaMaxRap: real)

  const DefaultCuts: Cuts := Cuts(
    0.1, 0.1, 0.1,
    1.0, 0.01, 0.01,
    3.5, 0.1, 200.0, 0.01,
    1.0, 0.001, 3.0,
    0.5, 250.0, 0.3,
    0.05, 0.5)

  /** Sigma0 kinematics of a (gamma, lambda) pair, computed from the two
      momenta by a collaborator: invariant mass, transverse momentum, rapidity. */
  datatype Kinematics = Kinematics(mass: (V0, V0) -> real, pt: (V0, V0) -> real, rapidity: (V0, V0) -> real)

  // ---------------------------------------------------------------------------
  // The ten standard stages, in counter-bin order

  predicate PhotonMassOk(c: Cuts, g: V0) { Abs(g.mGamma) <= c.photonMaxMass }
  predicate PhotonDauEtaOk(c: Cuts, g: V0) {
    Abs(g.negEta) <= c.photonMaxDauPseudoRap && Abs(g.posEta) <= c.photonMaxDauPseudoRap
  }
  predicate PhotonDcaToPvOk(c: Cuts, g: V0) {
    Abs(g.dcaPosToPv) >= c.photonMinDcaToPv && Abs(g.dcaNegToPv) >= c.photonMinDcaToPv
  }
  predicate PhotonDcaDauOk(c: Cuts, g: V0) { Abs(g.dcaV0Daughters) <= c.photonMaxDcaV0Dau }
  predicate PhotonRadiusOk(c: Cuts, g: V0) { c.photonMinRadius <= g.v0Radius <= c.photonMaxRadius }
  predicate LambdaMassOk(c: Cuts, l: V0) {
    Abs(l.mLambda - LambdaMass) <= c.lambdaWindow || Abs(l.mAntiLambda - LambdaMass) <= c.lambdaWindow
  }
  predicate LambdaDauEtaOk(c: Cuts, l: V0) {
    Abs(l.negEta) <= c.lambdaDauPseudoRap && Abs(l.posEta) <= c.lambdaDauPseudoRap
  }
  predicate LambdaDcaToPvOk(c: Cuts, l: V0) {
    Abs(l.dcaPosToPv) >= c.lambdaMinDcaPosToPv && Abs(l.dcaNegToPv) >= c.lambdaMinDcaNegToPv
  }
  predicate LambdaRadiusOk(c: Cuts, l: V0) { c.lambdaMinV0Radius <= l.v0Radius <= c.lambdaMaxV0Radius }
  predicate LambdaDcaDauOk(c: Cuts, l: V0) { Abs(l.dcaV0Daughters) <= c.lambdaMaxDcaV0Dau }

  /** Standard stage `k`, the one whose pass fills bin `k`. */
  predicate StageOk(k: nat, c: Cuts, lambda: V0, gamma: V0)
    requires k < FinalBin
  {
    match k
    case 0 => PhotonMassOk(c, gamma)
    case 1 => PhotonDauEtaOk(c, gamma)
    case 2 => PhotonDcaToPvOk(c, gamma)
    case 3 => PhotonDcaDauOk(c, gamma)
    case 4 => PhotonRadiusOk(c, gamma)
    case 5 => LambdaMassOk(c, lambda)
    case 6 => LambdaDauEtaOk(c, lambda)
    case 7 => LambdaDcaToPvOk(c, lambda)
    case 8 => LambdaRadiusOk(c, lambda)
    case _ => LambdaDcaDauOk(c, lambda)
  }

  /** Score selection: the gamma score must exceed its threshold, and the
      lambda or the antilambda score must exceed its own. */
  predicate MlOk(c: Cuts, lambda: V0, gamma: V0) {
    gamma.scores.gamma > c.gammaMlThreshold
    && (lambda.scores.lambda > c.lambdaMlThreshold || lambda.scores.antiLambda > c.antiLambdaMlThreshold)
  }

  /** Composite cuts: Sigma0 mass window and rapidity bound. */
  predicate CompositeOk(c: Cuts, kin: Kinematics, lambda: V0, gamma: V0) {
    Abs(kin.mass(gamma, lambda) - Sigma0Mass) <= c.sigma0Window && Abs(kin.rapidity(gamma, lambda)) <= c.sigmaMaxRap
  }

  /** Whether `processSigmaCandidate` fills counter bin `k` for the pair.
      Nothing is filled unless both V0s have a type. In standard mode bin k
      (k < 10) is filled when bin k - 1 was (or, for bin 0, the types pass)
      and stage k passes; score mode fills no stage bin. The final bin needs
      the last stage bin (standard) or the score selection (score mode), and
      then the composite cuts. */
  predicate Fills(k: nat, mode: Selection, c: Cuts, kin: Kinematics, lambda: V0, gamma: V0)
    decreases k
  {
    if k < FinalBin then
      && mode == Standard
      && (if k == 0 then lambda.v0Type != 0 && gamma.v0Type != 0 else Fills(k - 1, mode, c, kin, lambda, gamma))
      && StageOk(k, c, lambda, gamma)
    else if k == FinalBin then
      && (if mode == Standard then Fills(FinalBin - 1, mode, c, kin, lambda, gamma)
          else lambda.v0Type != 0 && gamma.v0Type != 0 && MlOk(c, lambda, gamma))
      && CompositeOk(c, kin, lambda, gamma)
    else false
  }

  /** Whether `processSigmaCandidate` accepts the pair: it reaches the final bin. */
  predicate Accepts(mode: Selection, c: Cuts, kin: Kinematics, lambda: V0, gamma: V0) {
    Fills(FinalBin, mode, c, kin, lambda, gamma)
  }

  /** Once a bin is missed, no later bin of the standard chain is filled. */
  lemma {:induction false} StandardChainStops(m: nat, k: nat, c: Cuts, kin: Kinematics, lambda: V0, gamma: V0)
    requires m <= k
    requires !Fills(m, Standard, c, kin, lambda, gamma)
    ensures !Fills(k, Standard, c, kin, lambda, gamma)
    decreases k - m
  {
    if m < k {
      StandardChainStops(m, k - 1, c, kin, lambda, gamma);
    }
  }

  /** A standard-mode stage bin is filled exactly when both V0s have a type
      and the pair passes that stage and every stage before it. */
  lemma {:induction false} StandardBinMeaning(k: nat, c: Cuts, kin: Kinematics, lambda: V0, gamma: V0)
    requires k < FinalBin
    ensures Fills(k, Standard, c, kin, lambda, gamma)
            <==> lambda.v0Type != 0 && gamma.v0Type != 0 && forall j :: 0 <= j <= k ==> StageOk(j, c, lambda, gamma)
  {
    if k > 0 {
      StandardBinMeaning(k - 1, c, kin, lambda, gamma);
    }
  }

  /** Filling a bin of the standard chain means every earlier bin was filled. */
  lemma {:induction false} StandardChainBack(k: nat, m: nat, c: Cuts, kin: Kinematics, lambda: V0, gamma: V0)
    requires k <= m
    requires Fills(m, Standard, c, kin, lambda, gamma)
    ensures Fills(k, Standard, c, kin, lambda, gamma)
    decreases m - k
  {
    if k < m {
      StandardChainBack(k, m - 1, c, kin, lambda, gamma);
    }
  }

  /** Where the standard chain stops: with stages 0..m-1 passed and stage m
      failed, exactly the bins below m are filled. */
  lemma StandardStopsAt(m: nat, c: Cuts, kin: Kinematics, lambda: V0, gamma: V0)
    requires m < FinalBin
    requires lambda.v0Type != 0 && gamma.v0Type != 0
    requires forall j :: 0 <= j < m ==> StageOk(j, c, lambda, gamma)
    requires !StageOk(m, c, lambda, gamma)
    ensures forall k: nat :: Fills(k, Standard, c, kin, lambda, gamma) <==> k < m
  {
    if m > 0 {
      StandardBinMeaning(m - 1, c, kin, lambda, gamma);
    }
    forall k: nat
      ensures Fills(k, Standard, c, kin, lambda, gamma) <==> k < m
    {
      if k < m {
        StandardChainBack(k, m - 1, c, kin, lambda, gamma);
      } else {
        StandardChainStops(m, k, c, kin, lambda, gamma);
      }
    }
  }

  /** With every stage passed, all stage bins are filled and acceptance rests on the composite cuts. */
  lemma StandardStagesComplete(c: Cuts, kin: Kinematics, lambda: V0, gamma: V0)
    requires lambda.v0Type != 0 && gamma.v0Type != 0
    requires forall j :: 0 <= j < FinalBin ==> StageOk(j, c, lambda, gamma)
    ensures forall k: nat :: Fills(k, Standard, c, kin, lambda, gamma)
                        <==> k < FinalBin || (k == FinalBin && CompositeOk(c, kin, lambda, gamma))
  {
    StandardBinMeaning(FinalBin - 1, c, kin, lambda, gamma);
    forall k: nat
      ensures Fills(k, Standard, c, kin, lambda, gamma)
              <==> k < FinalBin || (k == FinalBin && CompositeOk(c, kin, lambda, gamma))
    {
      if k < FinalBin {
        StandardChainBack(k, FinalBin - 1, c, kin, lambda, gamma);
      }
    }
  }

  /** The stage at which the standard chain stops when started at stage `k`:
      the first failed stage from `k` on, or `FinalBin` when all pass. */
  function PassedFrom(k: nat, c: Cuts, lambda: V0, gamma: V0): (r: nat)
    requires k <= FinalBin
    ensures k <= r <= FinalBin
    decreases FinalBin - k
  {
    if k == FinalBin then FinalBin
    else if StageOk(k, c, lambda, gamma) then PassedFrom(k + 1, c, lambda, gamma)
    else k
  }

  /** How many stage bins the standard chain fills for a typed pair. */
  function StagesPassed(c: Cuts, lambda: V0, gamma: V0): nat {
    PassedFrom(0, c, lambda, gamma)
  }

  lemma {:induction false} PassedFromMeaning(k: nat, c: Cuts, lambda: V0, gamma: V0)
    requires k <= FinalBin
    ensures forall j :: k <= j < PassedFrom(k, c, lambda, gamma) ==> StageOk(j, c, lambda, gamma)
    ensures PassedFrom(k, c, lambda, gamma) < FinalBin ==> !StageOk(PassedFrom(k, c, lambda, gamma), c, lambda, gamma)
    decreases FinalBin - k
  {
    if k < FinalBin && StageOk(k, c, lambda, gamma) {
      PassedFromMeaning(k + 1, c, lambda, gamma);
    }
  }

  /** For a typed pair, the standard chain fills exactly the stage bins below
      `StagesPassed`, and reaches the end exactly when every stage passes. */
  lemma StagesPassedFills(c: Cuts, kin: Kinematics, lambda: V0, gamma: V0)
    requires lambda.v0Type != 0 && gamma.v0Type != 0
    ensures forall k: nat :: k < FinalBin ==> (Fills(k, Standard, c, kin, lambda, gamma) <==> k < StagesPassed(c, lambda, gamma))
    ensures StagesPassed(c, lambda, gamma) == FinalBin <==> forall j :: 0 <= j < FinalBin ==> StageOk(j, c, lambda, gamma)
  {
    PassedFromMeaning(0, c, lambda, gamma);
    var n := StagesPassed(c, lambda, gamma);
    if n < FinalBin {
      StandardStopsAt(n, c, kin, lambda, gamma);
    } else {
      StandardStagesComplete(c, kin, lambda, gamma);
    }
  }

  /** Standard acceptance: both V0s have a type, every stage passes, and the composite cuts pass. */
  lemma StandardAcceptance(c: Cuts, kin: Kinematics, lambda: V0, gamma: V0)
    ensures Accepts(Standard, c, kin, lambda, gamma)
            <==> && lambda.v0Type != 0 && gamma.v0Type != 0
                 && (forall j :: 0 <= j < FinalBin ==> StageOk(j, c, lambda, gamma))
                 && CompositeOk(c, kin, lambda, gamma)
  {
    StandardBinMeaning(FinalBin - 1, c, kin, lambda, gamma);
  }

  /** Score mode accepts on the scores and the composite cuts alone, and fills
      no bin but the final one; a V0 without a type fills nothing in either mode. */
  lemma ScoreModeAcceptance(c: Cuts, kin: Kinematics, lambda: V0, gamma: V0)
    ensures Accepts(MachineLearning, c, kin, lambda, gamma)
            <==> lambda.v0Type != 0 && gamma.v0Type != 0 && MlOk(c, lambda, gamma) && CompositeOk(c, kin, lambda, gamma)
    ensures forall k :: k != FinalBin ==> !Fills(k, MachineLearning, c, kin, lambda, gamma)
  {
  }

  /** A V0 without a type fills no bin, in either mode. */
  lemma {:induction false} UntypedFillsNothing(k: nat, mode: Selection, c: Cuts, kin: Kinematics, lambda: V0, gamma: V0)
    requires lambda.v0Type == 0 || gamma.v0Type == 0
    ensures !Fills(k, mode, c, kin, lambda, gamma)
    decreases k
  {
    if 0 < k <= FinalBin {
      UntypedFillsNothing(k - 1, mode, c, kin, lambda, gamma);
    }
  }

  /** In standard mode the filled bins form a prefix: a filled bin implies the one before it. */
  lemma FilledBinsPrefix(k: nat, c: Cuts, kin: Kinematics, lambda: V0, gamma: V0)
    requires 0 < k
    ensures Fills(k, Standard, c, kin, lambda, gamma) ==> Fills(k - 1, Standard, c, kin, lambda, gamma)
  {
  }

  /** Range cuts reject only values strictly outside their bounds. */
  lemma BoundaryValuesPass(c: Cuts, v: V0)
    requires c.photonMinRadius <= c.photonMaxRadius && c.lambdaMinV0Radius <= c.lambdaMaxV0Radius
    ensures v.v0Radius == c.photonMinRadius || v.v0Radius == c.photonMaxRadius ==> PhotonRadiusOk(c, v)
    ensures v.v0Radius == c.lambdaMinV0Radius || v.v0Radius == c.lambdaMaxV0Radius ==> LambdaRadiusOk(c, v)
    ensures Abs(v.dcaPosToPv) == c.photonMinDcaToPv && Abs(v.dcaNegToPv) == c.photonMinDcaToPv ==> PhotonDcaToPvOk(c, v)
    ensures Abs(v.dcaPosToPv) == c.lambdaMinDcaPosToPv && Abs(v.dcaNegToPv) == c.lambdaMinDcaNegToPv ==> LambdaDcaToPvOk(c, v)
  {
  }

  // ---------------------------------------------------------------------------
  // Attempts, acceptance and counter contents over many pairs

  /** One call of `processSigmaCandidate` made by a process loop. */
  datatype Attempt = Attempt(collIdx: nat, gamma: V0, lambda: V0)

  /** Attempts pairing one gamma with every lambda candidate, in row order. */
  function PairsWith(collIdx: nat, gamma: V0, lambdas: seq<V0>): seq<Attempt>
    decreases |lambdas|
  {
    if lambdas == [] then []
    else PairsWith(collIdx, gamma, lambdas[..|lambdas| - 1]) + [Attempt(collIdx, gamma, lambdas[|lambdas| - 1])]
  }

  /** Attempts of the two nested loops of one collision: gammas outermost, lambdas inner. */
  function CollisionAttempts(collIdx: nat, gammas: seq<V0>, lambdas: seq<V0>): seq<Attempt>
    decreases |gammas|
  {
    if gammas == [] then []
    else CollisionAttempts(collIdx, gammas[..|gammas| - 1], lambdas) + PairsWith(collIdx, gammas[|gammas| - 1], lambdas)
  }

  /** One collision as the process functions see it: its index, the
      collision-level columns copied to the output, and its V0 rows. */
  datatype CollisionInfo = CollisionInfo(posX: real, posY: real, posZ: real,
                                         centFT0M: real, centFT0A: real, centFT0C: real, centFV0A: real)
  datatype Collision = Collision(index: nat, info: CollisionInfo, v0s: seq<V0>)

  /** Attempts of a whole process call, collision by collision. */
  function Attempts(colls: seq<Collision>): seq<Attempt>
    decreases |colls|
  {
    if colls == [] then []
    else
      var last := colls[|colls| - 1];
      Attempts(colls[..|colls| - 1]) + CollisionAttempts(last.index, last.v0s, last.v0s)
  }

  lemma {:induction false} PairsWithShape(collIdx: nat, gamma: V0, lambdas: seq<V0>)
    ensures |PairsWith(collIdx, gamma, lambdas)| == |lambdas|
    ensures forall j :: 0 <= j < |lambdas| ==> PairsWith(collIdx, gamma, lambdas)[j] == Attempt(collIdx, gamma, lambdas[j])
    decreases |lambdas|
  {
    if lambdas != [] {
      PairsWithShape(collIdx, gamma, lambdas[..|lambdas| - 1]);
    }
  }

  lemma PairsWithMembers(collIdx: nat, gamma: V0, lambdas: seq<V0>)
    ensures forall a :: a in PairsWith(collIdx, gamma, lambdas)
                        <==> a.collIdx == collIdx && a.gamma == gamma && a.lambda in lambdas
  {
    PairsWithShape(collIdx, gamma, lambdas);
    var pw := PairsWith(collIdx, gamma, lambdas);
    forall a: Attempt | a.collIdx == collIdx && a.gamma == gamma && a.lambda in lambdas
      ensures a in pw
    {
      var j :| 0 <= j < |lambdas| && lambdas[j] == a.lambda;
      assert pw[j] == a;
    }
  }

  /** A collision with n V0 rows makes n * n attempts. */
  lemma {:induction false} CollisionAttemptsCount(collIdx: nat, gammas: seq<V0>, lambdas: seq<V0>)
    ensures |CollisionAttempts(collIdx, gammas, lambdas)| == |gammas| * |lambdas|
    decreases |gammas|
  {
    if gammas != [] {
      var init := gammas[..|gammas| - 1];
      CollisionAttemptsCount(collIdx, init, lambdas);
      PairsWithShape(collIdx, gammas[|gammas| - 1], lambdas);
      calc {
        |gammas| * |lambdas|;
        (|init| + 1) * |lambdas|;
        |init| * |lambdas| + |lambdas|;
      }
    }
  }

  /** A pair is attempted exactly when both rows belong to the collision, a row with itself included. */
  lemma {:induction false} CollisionAttemptsMembers(collIdx: nat, gammas: seq<V0>, lambdas: seq<V0>)
    ensures forall a :: a in CollisionAttempts(collIdx, gammas, lambdas)
                        <==> a.collIdx == collIdx && a.gamma in gammas && a.lambda in lambdas
    decreases |gammas|
  {
    if gammas != [] {
      var init := gammas[..|gammas| - 1];
      var g0 := gammas[|gammas| - 1];
      CollisionAttemptsMembers(collIdx, init, lambdas);
      PairsWithMembers(collIdx, g0, lambdas);
      assert gammas == init + [g0];
      assert forall g :: g in gammas <==> g in init || g == g0;
    }
  }

  /** The attempts the process accepts, in attempt order. */
  function Accepted(mode: Selection, c: Cuts, kin: Kinematics, attempts: seq<Attempt>): seq<Attempt>
    decreases |attempts|
  {
    if attempts == [] then []
    else
      var a := attempts[|attempts| - 1];
      Accepted(mode, c, kin, attempts[..|attempts| - 1])
        + if Accepts(mode, c, kin, a.lambda, a.gamma) then [a] else []
  }

  /** How many of the attempts fill counter bin `k`. */
  function Hits(k: nat, mode: Selection, c: Cuts, kin: Kinematics, attempts: seq<Attempt>): nat
    decreases |attempts|
  {
    if attempts == [] then 0
    else
      var a := attempts[|attempts| - 1];
      Hits(k, mode, c, kin, attempts[..|attempts| - 1])
        + if Fills(k, mode, c, kin, a.lambda, a.gamma) then 1 else 0
  }

  /** Counter contents after one `processSigmaCandidate` call on the pair. */
  function Bump(counts: seq<int>, mode: Selection, c: Cuts, kin: Kinematics, lambda: V0, gamma: V0): seq<int> {
    seq(|counts|, k requires 0 <= k < |counts| => counts[k] + if Fills(k, mode, c, kin, lambda, gamma) then 1 else 0)
  }

  lemma BumpFromBins(before: seq<int>, after: seq<int>, mode: Selection, c: Cuts, kin: Kinematics, lambda: V0, gamma: V0)
    requires |after| == |before|
    requires forall k :: 0 <= k < |before| ==> after[k] == before[k] + if Fills(k, mode, c, kin, lambda, gamma) then 1 else 0
    ensures after == Bump(before, mode, c, kin, lambda, gamma)
  {
  }

  /** Counter contents after a run of attempts, starting from `start`. */
  function CounterAfter(start: seq<int>, mode: Selection, c: Cuts, kin: Kinematics, attempts: seq<Attempt>): seq<int>
    decreases |attempts|
  {
    if attempts == [] then start
    else
      var a := attempts[|attempts| - 1];
      Bump(CounterAfter(start, mode, c, kin, attempts[..|attempts| - 1]), mode, c, kin, a.lambda, a.gamma)
  }

  /** Each bin grows by the number of attempts that fill it. */
  lemma {:induction false} CounterAfterHits(start: seq<int>, mode: Selection, c: Cuts, kin: Kinematics, attempts: seq<Attempt>)
    ensures |CounterAfter(start, mode, c, kin, attempts)| == |start|
    ensures forall k :: 0 <= k < |start| ==>
              CounterAfter(start, mode, c, kin, attempts)[k] == start[k] + Hits(k, mode, c, kin, attempts)
    decreases |attempts|
  {
    if attempts != [] {
      CounterAfterHits(start, mode, c, kin, attempts[..|attempts| - 1]);
    }
  }

  lemma {:induction false} CounterAfterAppend(start: seq<int>, mode: Selection, c: Cuts, kin: Kinematics, xs: seq<Attempt>, ys: seq<Attempt>)
    ensures CounterAfter(start, mode, c, kin, xs + ys) == CounterAfter(CounterAfter(start, mode, c, kin, xs), mode, c, kin, ys)
    decreases |ys|
  {
    if ys == [] {
      assert xs + ys == xs;
    } else {
      CounterAfterAppend(start, mode, c, kin, xs, ys[..|ys| - 1]);
      assert (xs + ys)[..|xs + ys| - 1] == xs + ys[..|ys| - 1];
    }
  }

  /** Counter contents never increase from one bin to the next. */
  ghost predicate NonIncreasing(counts: seq<int>) {
    forall k :: 0 < k < |counts| ==> counts[k] <= counts[k - 1]
  }

  /** Standard cuts keep the counter non-increasing from bin to bin. */
  lemma {:induction false} StandardCounterFunnel(start: seq<int>, c: Cuts, kin: Kinematics, attempts: seq<Attempt>)
    requires NonIncreasing(start)
    ensures NonIncreasing(CounterAfter(start, Standard, c, kin, attempts))
    decreases |attempts|
  {
    if attempts != [] {
      var a := attempts[|attempts| - 1];
      var before := CounterAfter(start, Standard, c, kin, attempts[..|attempts| - 1]);
      StandardCounterFunnel(start, c, kin, attempts[..|attempts| - 1]);
      forall k | 0 < k < |before|
        ensures Bump(before, Standard, c, kin, a.lambda, a.gamma)[k] <= Bump(before, Standard, c, kin, a.lambda, a.gamma)[k - 1]
      {
        FilledBinsPrefix(k, c, kin, a.lambda, a.gamma);
      }
    }
  }

  /** The final bin counts exactly the accepted attempts. */
  lemma {:induction false} FinalHitsAreAccepted(mode: Selection, c: Cuts, kin: Kinematics, attempts: seq<Attempt>)
    ensures Hits(FinalBin, mode, c, kin, attempts) == |Accepted(mode, c, kin, attempts)|
    decreases |attempts|
  {
    if attempts != [] {
      FinalHitsAreAccepted(mode, c, kin, attempts[..|attempts| - 1]);
    }
  }

  /** Score selection fills no bin but the final one. */
  lemma {:induction false} MlHitsOnlyFinal(k: nat, c: Cuts, kin: Kinematics, attempts: seq<Attempt>)
    requires k != FinalBin
    ensures Hits(k, MachineLearning, c, kin, attempts) == 0
    decreases |attempts|
  {
    if attempts != [] {
      MlHitsOnlyFinal(k, c, kin, attempts[..|attempts| - 1]);
    }
  }

  lemma AcceptedSnoc(start: seq<int>, mode: Selection, c: Cuts, kin: Kinematics, xs: seq<Attempt>, a: Attempt)
    ensures Accepted(mode, c, kin, xs + [a])
            == Accepted(mode, c, kin, xs) + if Accepts(mode, c, kin, a.lambda, a.gamma) then [a] else []
    ensures CounterAfter(start, mode, c, kin, xs + [a])
            == Bump(CounterAfter(start, mode, c, kin, xs), mode, c, kin, a.lambda, a.gamma)
  {
    assert (xs + [a])[..|xs|] == xs;
  }

  lemma {:induction false} AcceptedAppend(mode: Selection, c: Cuts, kin: Kinematics, xs: seq<Attempt>, ys: seq<Attempt>)
    ensures Accepted(mode, c, kin, xs + ys) == Accepted(mode, c, kin, xs) + Accepted(mode, c, kin, ys)
    decreases |ys|
  {
    if ys == [] {
      assert xs + ys == xs;
    } else {
      AcceptedAppend(mode, c, kin, xs, ys[..|ys| - 1]);
      assert (xs + ys)[..|xs + ys| - 1] == xs + ys[..|ys| - 1];
    }
  }

  // ---------------------------------------------------------------------------
  // Output rows

  datatype CoreRow = CoreRow(pt: real, mass: real, rapidity: real)
  datatype PhotonExtra = PhotonExtra(photon: V0, gammaBdtScore: real)
  datatype LambdaExtra = LambdaExtra(lambda: V0, lambdaBdtScore: real, antiLambdaBdtScore: real)

  /** One accepted candidate as written to the four index-aligned candidate
      tables: collision reference, core kinematics, photon part, lambda part. */
  datatype CandidateRow = CandidateRow(collRef: nat, core: CoreRow, photon: PhotonExtra, lambda: LambdaExtra)

  datatype McCore = McCore(isSigma: bool, isAntiSigma: bool)

  /** Classifier score written to the output: the score column in score mode, -1 otherwise. */
  function BdtScore(mode: Selection, score: real): (r: real)
    ensures mode == Standard ==> r == -1.0
    ensures mode == MachineLearning ==> r == score
  {
    if mode == MachineLearning then score else -1.0
  }

  /** The row an accepted attempt contributes to the candidate tables. */
  function CandidateOf(mode: Selection, kin: Kinematics, a: Attempt): (r: CandidateRow)
    ensures r.collRef == a.collIdx && r.photon.photon == a.gamma && r.lambda.lambda == a.lambda
    ensures r.core == CoreRow(kin.pt(a.gamma, a.lambda), kin.mass(a.gamma, a.lambda), kin.rapidity(a.gamma, a.lambda))
    ensures mode == Standard ==>
              r.photon.gammaBdtScore == -1.0 && r.lambda.lambdaBdtScore == -1.0 && r.lambda.antiLambdaBdtScore == -1.0
    ensures mode == MachineLearning ==>
              && r.photon.gammaBdtScore == a.gamma.scores.gamma
              && r.lambda.lambdaBdtScore == a.lambda.scores.lambda
              && r.lambda.antiLambdaBdtScore == a.lambda.scores.antiLambda
  {
    CandidateRow(
      a.collIdx,
      CoreRow(kin.pt(a.gamma, a.lambda), kin.mass(a.gamma, a.lambda), kin.rapidity(a.gamma, a.lambda)),
      PhotonExtra(a.gamma, BdtScore(mode, a.gamma.scores.gamma)),
      LambdaExtra(a.lambda, BdtScore(mode, a.lambda.scores.lambda), BdtScore(mode, a.lambda.scores.antiLambda)))
  }

  /** Truth flags of an accepted pair: a true Sigma0 or a true anti-Sigma0 (never both). */
  function McFlags(gamma: V0, lambda: V0): (r: McCore)
    ensures !(r.isSigma && r.isAntiSigma)
    ensures r.isSigma <==> && gamma.mc.pdgCode == 22 && lambda.mc.pdgCode == 3122
                           && gamma.mc.pdgCodeMother == 3212 == lambda.mc.pdgCodeMother
                           && gamma.mc.motherId == lambda.mc.motherId
    ensures r.isAntiSigma <==> && gamma.mc.pdgCode == 22 && lambda.mc.pdgCode == -3122
                               && gamma.mc.pdgCodeMother == -3212 == lambda.mc.pdgCodeMother
                               && gamma.mc.motherId == lambda.mc.motherId
  {
    var sameMother := gamma.mc.motherId == lambda.mc.motherId;
    McCore(
      gamma.mc.pdgCode == 22 && gamma.mc.pdgCodeMother == 3212 && lambda.mc.pdgCode == 3122
        && lambda.mc.pdgCodeMother == 3212 && sameMother,
      gamma.mc.pdgCode == 22 && gamma.mc.pdgCodeMother == -3212 && lambda.mc.pdgCode == -3122
        && lambda.mc.pdgCodeMother == -3212 && sameMother)
  }

  function Candidates(mode: Selection, kin: Kinematics, accepted: seq<Attempt>): seq<CandidateRow>
    decreases |accepted|
  {
    if accepted == [] then []
    else Candidates(mode, kin, accepted[..|accepted| - 1]) + [CandidateOf(mode, kin, accepted[|accepted| - 1])]
  }

  function McCores(accepted: seq<Attempt>): seq<McCore>
    decreases |accepted|
  {
    if accepted == [] then []
    else McCores(accepted[..|accepted| - 1]) + [McFlags(accepted[|accepted| - 1].gamma, accepted[|accepted| - 1].lambda)]
  }

  function Infos(colls: seq<Collision>): seq<CollisionInfo>
    decreases |colls|
  {
    if colls == [] then [] else Infos(colls[..|colls| - 1]) + [colls[|colls| - 1].info]
  }

  /** Row i of the candidate tables is the i-th accepted attempt. */
  lemma {:induction false} CandidatesMatchAccepted(mode: Selection, kin: Kinematics, accepted: seq<Attempt>)
    ensures |Candidates(mode, kin, accepted)| == |accepted|
    ensures forall i :: 0 <= i < |accepted| ==> Candidates(mode, kin, accepted)[i] == CandidateOf(mode, kin, accepted[i])
    decreases |accepted|
  {
    if accepted != [] {
      CandidatesMatchAccepted(mode, kin, accepted[..|accepted| - 1]);
    }
  }

  lemma {:induction false} CandidatesAppend(mode: Selection, kin: Kinematics, xs: seq<Attempt>, ys: seq<Attempt>)
    ensures Candidates(mode, kin, xs + ys) == Candidates(mode, kin, xs) + Candidates(mode, kin, ys)
    decreases |ys|
  {
    if ys == [] {
      assert xs + ys == xs;
    } else {
      var init := ys[..|ys| - 1];
      var y := ys[|ys| - 1];
      CandidatesAppend(mode, kin, xs, init);
      assert (xs + ys)[..|xs + ys| - 1] == xs + init;
      assert Candidates(mode, kin, xs + ys) == Candidates(mode, kin, xs + init) + [CandidateOf(mode, kin, y)];
      assert Candidates(mode, kin, ys) == Candidates(mode, kin, init) + [CandidateOf(mode, kin, y)];
    }
  }

  lemma {:induction false} McCoresAppend(xs: seq<Attempt>, ys: seq<Attempt>)
    ensures McCores(xs + ys) == McCores(xs) + McCores(ys)
    decreases |ys|
  {
    if ys == [] {
      assert xs + ys == xs;
    } else {
      var init := ys[..|ys| - 1];
      var y := ys[|ys| - 1];
      McCoresAppend(xs, init);
      assert (xs + ys)[..|xs + ys| - 1] == xs + init;
      assert McCores(xs + ys) == McCores(xs + init) + [McFlags(y.gamma, y.lambda)];
      assert McCores(ys) == McCores(init) + [McFlags(y.gamma, y.lambda)];
    }
  }

  lemma OutputsSnoc(mode: Selection, kin: Kinematics, xs: seq<Attempt>, a: Attempt)
    ensures Candidates(mode, kin, xs + [a]) == Candidates(mode, kin, xs) + [CandidateOf(mode, kin, a)]
    ensures McCores(xs + [a]) == McCores(xs) + [McFlags(a.gamma, a.lambda)]
  {
    assert (xs + [a])[..|xs|] == xs;
  }

  // ---------------------------------------------------------------------------
  // The analysis state and its evolution, pair by pair

  /** Which process function runs the pair loops: the candidate selection
      (standard or score mode) or the Monte-Carlo pass, which always applies
      the standard cuts and writes only truth flags. */
  datatype Pass = SelectionPass(mode: Selection) | MonteCarloPass

  function ModeOf(p: Pass): Selection {
    if p.SelectionPass? then p.mode else Standard
  }

  /** Everything the analysis writes: counter bins, the candidate count, and the output tables. */
  datatype State = State(counts: seq<int>, nSigmaCandidates: int, collisionRows: seq<CollisionInfo>,
                         candidates: seq<CandidateRow>, mcCores: seq<McCore>)

  /** One pass through the body of the inner pair loop. */
  function PairStep(p: Pass, c: Cuts, kin: Kinematics, st: State, a: Attempt): State {
    var mode := ModeOf(p);
    var bumped := st.(counts := Bump(st.counts, mode, c, kin, a.lambda, a.gamma));
    if !Accepts(mode, c, kin, a.lambda, a.gamma) then bumped
    else if p.MonteCarloPass? then bumped.(mcCores := bumped.mcCores + [McFlags(a.gamma, a.lambda)])
    else bumped.(nSigmaCandidates := bumped.nSigmaCandidates + 1,
                 candidates := bumped.candidates + [CandidateOf(mode, kin, a)])
  }

  /** The state after a run of pair attempts. */
  function Run(p: Pass, c: Cuts, kin: Kinematics, st: State, attempts: seq<Attempt>): State
    decreases |attempts|
  {
    if attempts == [] then st
    else PairStep(p, c, kin, Run(p, c, kin, st, attempts[..|attempts| - 1]), attempts[|attempts| - 1])
  }

  /** The state after the collision loop: the selection pass writes one
      collision row per collision before trying its pairs. */
  function RunCollisions(p: Pass, c: Cuts, kin: Kinematics, st: State, colls: seq<Collision>): State
    decreases |colls|
  {
    if colls == [] then st
    else
      var last := colls[|colls| - 1];
      var before := RunCollisions(p, c, kin, st, colls[..|colls| - 1]);
      var started := if p.SelectionPass? then before.(collisionRows := before.collisionRows + [last.info]) else before;
      Run(p, c, kin, started, CollisionAttempts(last.index, last.v0s, last.v0s))
  }

  lemma {:induction false} RunAppend(p: Pass, c: Cuts, kin: Kinematics, st: State, xs: seq<Attempt>, ys: seq<Attempt>)
    ensures Run(p, c, kin, st, xs + ys) == Run(p, c, kin, Run(p, c, kin, st, xs), ys)
    decreases |ys|
  {
    if ys == [] {
      assert xs + ys == xs;
    } else {
      RunAppend(p, c, kin, st, xs, ys[..|ys| - 1]);
      assert (xs + ys)[..|xs + ys| - 1] == xs + ys[..|ys| - 1];
    }
  }

  /** One more gamma row extends the attempted pairs, and the run over them, by that row's pairs. */
  lemma CollisionAttemptsSnoc(p: Pass, c: Cuts, kin: Kinematics, st: State, collIdx: nat, v0s: seq<V0>, i: nat)
    requires i < |v0s|
    ensures Run(p, c, kin, st, CollisionAttempts(collIdx, v0s[..i + 1], v0s))
            == Run(p, c, kin, Run(p, c, kin, st, CollisionAttempts(collIdx, v0s[..i], v0s)), PairsWith(collIdx, v0s[i], v0s))
  {
    assert v0s[..i + 1][..i] == v0s[..i];
    assert CollisionAttempts(collIdx, v0s[..i + 1], v0s) == CollisionAttempts(collIdx, v0s[..i], v0s) + PairsWith(collIdx, v0s[i], v0s);
    RunAppend(p, c, kin, st, CollisionAttempts(collIdx, v0s[..i], v0s), PairsWith(collIdx, v0s[i], v0s));
  }

  /** What a run of attempts writes: every bin grows by the attempts that fill
      it; the selection pass counts the accepted pairs and appends one
      candidate row for each, in order; the Monte-Carlo pass appends their
      truth flags instead; nothing else changes. */
  function RunSpec(p: Pass, c: Cuts, kin: Kinematics, st: State, attempts: seq<Attempt>): State {
    var mode := ModeOf(p);
    var accepted := Accepted(mode, c, kin, attempts);
    st.(counts := CounterAfter(st.counts, mode, c, kin, attempts),
        nSigmaCandidates := st.nSigmaCandidates + if p.SelectionPass? then |accepted| else 0,
        candidates := st.candidates + if p.SelectionPass? then Candidates(mode, kin, accepted) else [],
        mcCores := st.mcCores + if p.MonteCarloPass? then McCores(accepted) else [])
  }

  lemma {:induction false} RunMeaning(p: Pass, c: Cuts, kin: Kinematics, st: State, attempts: seq<Attempt>)
    ensures Run(p, c, kin, st, attempts) == RunSpec(p, c, kin, st, attempts)
    decreases |attempts|
  {
    if attempts != [] {
      var init := attempts[..|attempts| - 1];
      var a := attempts[|attempts| - 1];
      RunMeaning(p, c, kin, st, init);
      assert attempts == init + [a];
      PairStepMeaning(p, c, kin, st, init, a);
    }
  }

  /** One more attempt moves the described state by exactly one pair step. */
  lemma PairStepMeaning(p: Pass, c: Cuts, kin: Kinematics, st: State, init: seq<Attempt>, a: Attempt)
    ensures PairStep(p, c, kin, RunSpec(p, c, kin, st, init), a) == RunSpec(p, c, kin, st, init + [a])
  {
    if !Accepts(ModeOf(p), c, kin, a.lambda, a.gamma) {
      PairStepRejected(p, c, kin, st, init, a);
    } else if p.SelectionPass? {
      PairStepSelected(p, c, kin, st, init, a);
    } else {
      PairStepTruth(c, kin, st, init, a);
    }
  }

  lemma PairStepRejected(p: Pass, c: Cuts, kin: Kinematics, st: State, init: seq<Attempt>, a: Attempt)
    requires !Accepts(ModeOf(p), c, kin, a.lambda, a.gamma)
    ensures PairStep(p, c, kin, RunSpec(p, c, kin, st, init), a) == RunSpec(p, c, kin, st, init + [a])
  {
    var mode := ModeOf(p);
    AcceptedSnoc(st.counts, mode, c, kin, init, a);
    assert Accepted(mode, c, kin, init + [a]) == Accepted(mode, c, kin, init);
  }

  lemma PairStepSelected(p: Pass, c: Cuts, kin: Kinematics, st: State, init: seq<Attempt>, a: Attempt)
    requires p.SelectionPass? && Accepts(p.mode, c, kin, a.lambda, a.gamma)
    ensures PairStep(p, c, kin, RunSpec(p, c, kin, st, init), a) == RunSpec(p, c, kin, st, init + [a])
  {
    var mode := p.mode;
    var acc := Accepted(mode, c, kin, init);
    var after := RunSpec(p, c, kin, st, init + [a]);
    var step := PairStep(p, c, kin, RunSpec(p, c, kin, st, init), a);
    AcceptedSnoc(st.counts, mode, c, kin, init, a);
    assert Accepted(mode, c, kin, init + [a]) == acc + [a];
    OutputsSnoc(mode, kin, acc, a);
    assert after.candidates == st.candidates + (Candidates(mode, kin, acc) + [CandidateOf(mode, kin, a)]);
    assert step.candidates == (st.candidates + Candidates(mode, kin, acc)) + [CandidateOf(mode, kin, a)];
  }

  lemma PairStepTruth(c: Cuts, kin: Kinematics, st: State, init: seq<Attempt>, a: Attempt)
    requires Accepts(Standard, c, kin, a.lambda, a.gamma)
    ensures PairStep(MonteCarloPass, c, kin, RunSpec(MonteCarloPass, c, kin, st, init), a)
            == RunSpec(MonteCarloPass, c, kin, st, init + [a])
  {
    var acc := Accepted(Standard, c, kin, init);
    var after := RunSpec(MonteCarloPass, c, kin, st, init + [a]);
    var step := PairStep(MonteCarloPass, c, kin, RunSpec(MonteCarloPass, c, kin, st, init), a);
    AcceptedSnoc(st.counts, Standard, c, kin, init, a);
    assert Accepted(Standard, c, kin, init + [a]) == acc + [a];
    OutputsSnoc(Standard, kin, acc, a);
    assert after.mcCores == st.mcCores + (McCores(acc) + [McFlags(a.gamma, a.lambda)]);
    assert step.mcCores == (st.mcCores + McCores(acc)) + [McFlags(a.gamma, a.lambda)];
  }

  /** What the collision loop writes: the selection pass's collision rows,
      and the effect of every pair attempt of every collision, in order. */
  lemma PairStepIgnoresRows(p: Pass, c: Cuts, kin: Kinematics, st: State, rows: seq<CollisionInfo>, a: Attempt)
    ensures PairStep(p, c, kin, st.(collisionRows := rows), a) == PairStep(p, c, kin, st, a).(collisionRows := rows)
  {
  }

  /** The pair loops never read or write the collision rows. */
  lemma {:induction false} RunIgnoresRows(p: Pass, c: Cuts, kin: Kinematics, st: State, rows: seq<CollisionInfo>, attempts: seq<Attempt>)
    ensures Run(p, c, kin, st.(collisionRows := rows), attempts) == Run(p, c, kin, st, attempts).(collisionRows := rows)
    decreases |attempts|
  {
    if attempts != [] {
      var init := attempts[..|attempts| - 1];
      RunIgnoresRows(p, c, kin, st, rows, init);
      PairStepIgnoresRows(p, c, kin, Run(p, c, kin, st, init), rows, attempts[|attempts| - 1]);
    }
  }

  /** The collision loop is one run over all the attempts of all collisions,
      with the collision rows of the selection pass appended alongside. */
  lemma {:induction false} RunCollisionsAsRun(p: Pass, c: Cuts, kin: Kinematics, st: State, colls: seq<Collision>)
    ensures RunCollisions(p, c, kin, st, colls)
            == Run(p, c, kin, st, Attempts(colls)).(collisionRows := st.collisionRows + if p.SelectionPass? then Infos(colls) else [])
    decreases |colls|
  {
    if colls == [] {
      assert st.collisionRows + [] == st.collisionRows;
    } else {
      var init := colls[..|colls| - 1];
      var last := colls[|colls| - 1];
      var here := CollisionAttempts(last.index, last.v0s, last.v0s);
      RunCollisionsAsRun(p, c, kin, st, init);
      var before := RunCollisions(p, c, kin, st, init);
      var started := if p.SelectionPass? then before.(collisionRows := before.collisionRows + [last.info]) else before;
      assert RunCollisions(p, c, kin, st, colls) == Run(p, c, kin, started, here);
      assert Attempts(colls) == Attempts(init) + here;
      var mid := Run(p, c, kin, st, Attempts(init));
      var rows := st.collisionRows + if p.SelectionPass? then Infos(colls) else [];
      if p.SelectionPass? {
        assert Infos(colls) == Infos(init) + [last.info];
        assert st.collisionRows + Infos(init) + [last.info] == rows;
      } else {
        assert st.collisionRows + [] == rows;
      }
      assert started == mid.(collisionRows := rows);
      RunIgnoresRows(p, c, kin, mid, rows, here);
      RunAppend(p, c, kin, st, Attempts(init), here);
    }
  }

  lemma RunCollisionsMeaning(p: Pass, c: Cuts, kin: Kinematics, st: State, colls: seq<Collision>)
    ensures RunCollisions(p, c, kin, st, colls)
            == RunSpec(p, c, kin, st, Attempts(colls)).(collisionRows := st.collisionRows + if p.SelectionPass? then Infos(colls) else [])
  {
    RunCollisionsAsRun(p, c, kin, st, colls);
    RunMeaning(p, c, kin, st, Attempts(colls));
  }


  /** The counter after the first `m` bins were each filled once. */
  function Raised(counts: seq<int>, m: nat): (r: seq<int>)
    ensures |r| == |counts|
    ensures forall k :: 0 <= k < |r| ==> r[k] == counts[k] + if k < m then 1 else 0
  {
    seq(|counts|, k requires 0 <= k < |counts| => counts[k] + if k < m then 1 else 0)
  }

  lemma RaisedNext(counts: seq<int>, m: nat)
    requires m < |counts|
    ensures Raised(counts, m)[m := Raised(counts, m)[m] + 1] == Raised(counts, m + 1)
  {
  }

  class Sigma0BuilderTask {
    const cuts: Cuts
    const kin: Kinematics
    /** Bin contents of the candidate-selection histogram. */
    const counts: array<int>
    var nSigmaCandidates: int
    var collisionRows: seq<CollisionInfo>
    var candidates: seq<CandidateRow>
    var mcCores: seq<McCore>

    ghost predicate Valid()
      reads this
    {
      counts.Length == NumBins
    }

    ghost function Snapshot(): State
      reads this, counts
    {
      State(counts[..], nSigmaCandidates, collisionRows, candidates, mcCores)
    }

    constructor (cuts: Cuts, kin: Kinematics)
      ensures Valid() && fresh(counts)
      ensures this.cuts == cuts && this.kin == kin
      ensures forall k :: 0 <= k < NumBins ==> counts[k] == 0
      ensures nSigmaCandidates == 0 && collisionRows == [] && candidates == [] && mcCores == []
    {
      this.cuts := cuts;
      this.kin := kin;
      counts := new int[NumBins](_ => 0);
      nSigmaCandidates := 0;
      collisionRows, candidates, mcCores := [], [], [];
    }

    method Fill(k: nat)
      requires Valid() && k < NumBins
      modifies counts
      ensures Valid()
      ensures counts[..] == old(counts[..])[k := old(counts[k]) + 1]
    {
      counts[k] := counts[k] + 1;
    }

    /** One stage of the standard chain: bin `m` is filled when the pair passes stage `m`. */
    method Stage(m: nat, ghost base: seq<int>, lambda: V0, gamma: V0) returns (pass: bool)
      requires Valid() && m < FinalBin
      requires counts[..] == Raised(base, m)
      modifies counts
      ensures Valid()
      ensures pass == StageOk(m, cuts, lambda, gamma)
      ensures pass ==> counts[..] == Raised(base, m + 1) && PassedFrom(m, cuts, lambda, gamma) == PassedFrom(m + 1, cuts, lambda, gamma)
      ensures !pass ==> counts[..] == Raised(base, m) && PassedFrom(m, cuts, lambda, gamma) == m
    {
      pass := StageOk(m, cuts, lambda, gamma);
      if pass {
        Fill(m);
        RaisedNext(base, m);
      }
    }

    /** The standard-mode stages of `processSigmaCandidate`, bins 0 to 9 in
        order; the first failed stage ends the chain. */
    method StandardStages(lambda: V0, gamma: V0) returns (passed: bool)
      requires Valid()
      modifies counts
      ensures Valid()
      ensures passed <==> StagesPassed(cuts, lambda, gamma) == FinalBin
      ensures counts[..] == Raised(old(counts[..]), StagesPassed(cuts, lambda, gamma))
    {
      ghost var base := counts[..];
      assert counts[..] == Raised(base, 0);
      passed := Stage(0, base, lambda, gamma);
      if !passed {
        return;
      }
      passed := Stage(1, base, lambda, gamma);
      if !passed {
        return;
      }
      passed := Stage(2, base, lambda, gamma);
      if !passed {
        return;
      }
      passed := Stage(3, base, lambda, gamma);
      if !passed {
        return;
      }
      passed := Stage(4, base, lambda, gamma);
      if !passed {
        return;
      }
      passed := Stage(5, base, lambda, gamma);
      if !passed {
        return;
      }
      passed := Stage(6, base, lambda, gamma);
      if !passed {
        return;
      }
      passed := Stage(7, base, lambda, gamma);
      if !passed {
        return;
      }
      passed := Stage(8, base, lambda, gamma);
      if !passed {
        return;
      }
      passed := Stage(9, base, lambda, gamma);
    }

    /** `processSigmaCandidate`: the cut chain, filling one bin per passed stage
        and returning at the first failure. */
    method ProcessSigmaCandidate(mode: Selection, lambda: V0, gamma: V0) returns (ok: bool)
      requires Valid()
      modifies counts
      ensures Valid()
      ensures ok == Accepts(mode, cuts, kin, lambda, gamma)
      ensures forall k :: 0 <= k < NumBins ==>
                counts[k] == old(counts[k]) + if Fills(k, mode, cuts, kin, lambda, gamma) then 1 else 0
    {
      if lambda.v0Type == 0 || gamma.v0Type == 0 {
        forall k {
          UntypedFillsNothing(k, mode, cuts, kin, lambda, gamma);
        }
        return false;
      }
      if mode == MachineLearning {
        ScoreModeAcceptance(cuts, kin, lambda, gamma);
        if gamma.scores.gamma <= cuts.gammaMlThreshold {
          return false;
        }
        if lambda.scores.lambda <= cuts.lambdaMlThreshold && lambda.scores.antiLambda <= cuts.antiLambdaMlThreshold {
          return false;
        }
      } else {
        var passed := StandardStages(lambda, gamma);
        StagesPassedFills(cuts, kin, lambda, gamma);
        if !passed {
          return false;
        }
      }
      var sigmaMass := kin.mass(gamma, lambda);
      var sigmaRap := kin.rapidity(gamma, lambda);
      if Abs(sigmaMass - Sigma0Mass) > cuts.sigma0Window {
        return false;
      }
      if Abs(sigmaRap) > cuts.sigmaMaxRap {
        return false;
      }
      Fill(FinalBin);
      return true;
    }

    /** The collision reference written by the selection loop, followed by
        `fillTables`: one row in each of the four candidate tables. */
    method FillTables(mode: Selection, collIdx: nat, lambda: V0, gamma: V0)
      modifies this`candidates
      ensures candidates == old(candidates) + [CandidateOf(mode, kin, Attempt(collIdx, gamma, lambda))]
    {
      var gammaBdt, lambdaBdt, antiLambdaBdt := -1.0, -1.0, -1.0;
      if mode == MachineLearning {
        gammaBdt, lambdaBdt, antiLambdaBdt := gamma.scores.gamma, lambda.scores.lambda, lambda.scores.antiLambda;
      }
      var core := CoreRow(kin.pt(gamma, lambda), kin.mass(gamma, lambda), kin.rapidity(gamma, lambda));
      candidates := candidates + [CandidateRow(collIdx, core, PhotonExtra(gamma, gammaBdt), LambdaExtra(lambda, lambdaBdt, antiLambdaBdt))];
    }

    /** The body of the inner loop: the cut chain on one (gamma, lambda) pair.
        An accepted pair bumps the candidate count and fills the candidate
        tables (selection pass) or writes its truth flags (Monte-Carlo pass). */
    method TryPair(p: Pass, collIdx: nat, gamma: V0, lambda: V0)
      requires Valid()
      modifies this, counts
      ensures Valid()
      ensures Snapshot() == PairStep(p, cuts, kin, old(Snapshot()), Attempt(collIdx, gamma, lambda))
    {
      var mode := if p.SelectionPass? then p.mode else Standard;
      var ok := ProcessSigmaCandidate(mode, lambda, gamma);
      BumpFromBins(old(counts[..]), counts[..], mode, cuts, kin, lambda, gamma);
      if ok {
        if p.MonteCarloPass? {
          mcCores := mcCores + [McFlags(gamma, lambda)];
        } else {
          nSigmaCandidates := nSigmaCandidates + 1;
          FillTables(mode, collIdx, lambda, gamma);
        }
      }
    }

    /** The inner loop: one gamma paired with every lambda candidate. */
    method TryGamma(p: Pass, collIdx: nat, gamma: V0, lambdas: seq<V0>)
      requires Valid()
      modifies this, counts
      ensures Valid()
      ensures Snapshot() == Run(p, cuts, kin, old(Snapshot()), PairsWith(collIdx, gamma, lambdas))
    {
      var j := 0;
      while j < |lambdas|
        invariant 0 <= j <= |lambdas|
        invariant Valid()
        invariant Snapshot() == Run(p, cuts, kin, old(Snapshot()), PairsWith(collIdx, gamma, lambdas[..j]))
      {
        TryPair(p, collIdx, gamma, lambdas[j]);
        assert lambdas[..j + 1][..j] == lambdas[..j];
        j := j + 1;
      }
      assert lambdas[..j] == lambdas;
    }

    /** The body of the collision loop: every ordered (gamma, lambda) pair of
        the collision's V0 rows is tried, gammas outermost. */
    method BuildCollision(p: Pass, coll: Collision)
      requires Valid()
      modifies this, counts
      ensures Valid()
      ensures Snapshot() == Run(p, cuts, kin, old(Snapshot()), CollisionAttempts(coll.index, coll.v0s, coll.v0s))
    {
      ghost var start := Snapshot();
      var v0s := coll.v0s;
      var i := 0;
      while i < |v0s|
        invariant 0 <= i <= |v0s|
        invariant Valid()
        invariant Snapshot() == Run(p, cuts, kin, start, CollisionAttempts(coll.index, v0s[..i], v0s))
      {
        TryGamma(p, coll.index, v0s[i], v0s);
        CollisionAttemptsSnoc(p, cuts, kin, start, coll.index, v0s, i);
        i := i + 1;
      }
      assert v0s[..i] == v0s;
    }

    /** The collision loop shared by the process functions. */
    method RunPass(p: Pass, colls: seq<Collision>)
      requires Valid()
      modifies this, counts
      ensures Valid()
      ensures Snapshot() == RunCollisions(p, cuts, kin, old(Snapshot()), colls)
    {
      var c := 0;
      while c < |colls|
        invariant 0 <= c <= |colls|
        invariant Valid()
        invariant Snapshot() == RunCollisions(p, cuts, kin, old(Snapshot()), colls[..c])
      {
        var coll := colls[c];
        if p.SelectionPass? {
          collisionRows := collisionRows + [coll.info];
        }
        BuildCollision(p, coll);
        assert colls[..c + 1][..c] == colls[..c];
        c := c + 1;
      }
      assert colls[..c] == colls;
    }

    /** `processSTDSelection` (standard mode) and `processMLSelection` (score mode). */
    method ProcessSelection(mode: Selection, colls: seq<Collision>)
      requires Valid()
      modifies this, counts
      ensures Valid()
      ensures var accepted := Accepted(mode, cuts, kin, Attempts(colls));
              && collisionRows == old(collisionRows) + Infos(colls)
              && nSigmaCandidates == old(nSigmaCandidates) + |accepted|
              && candidates == old(candidates) + Candidates(mode, kin, accepted)
              && mcCores == old(mcCores)
              && counts[..] == CounterAfter(old(counts[..]), mode, cuts, kin, Attempts(colls))
      ensures counts[FinalBin] - old(counts[FinalBin]) == nSigmaCandidates - old(nSigmaCandidates)
      ensures mode == Standard && NonIncreasing(old(counts[..])) ==> NonIncreasing(counts[..])
      ensures mode == MachineLearning ==> forall k :: 0 <= k < FinalBin ==> counts[k] == old(counts[k])
    {
      RunPass(SelectionPass(mode), colls);
      RunCollisionsMeaning(SelectionPass(mode), cuts, kin, old(Snapshot()), colls);
      ghost var tried := Attempts(colls);
      CounterAfterHits(old(counts[..]), mode, cuts, kin, tried);
      FinalHitsAreAccepted(mode, cuts, kin, tried);
      if mode == Standard {
        if NonIncreasing(old(counts[..])) {
          StandardCounterFunnel(old(counts[..]), cuts, kin, tried);
        }
      } else {
        forall k | 0 <= k < FinalBin
          ensures counts[k] == old(counts[k])
        {
          MlHitsOnlyFinal(k, cuts, kin, tried);
        }
      }
    }

    /** `processMonteCarlo`: standard cuts on every pair and the truth flags of
        each accepted one; no collision rows, no candidate count, no candidate tables. */
    method ProcessMonteCarlo(colls: seq<Collision>)
      requires Valid()
      modifies this, counts
      ensures Valid()
      ensures && mcCores == old(mcCores) + McCores(Accepted(Standard, cuts, kin, Attempts(colls)))
              && counts[..] == CounterAfter(old(counts[..]), Standard, cuts, kin, Attempts(colls))
              && nSigmaCandidates == old(nSigmaCandidates)
              && collisionRows == old(collisionRows)
              && candidates == old(candidates)
      ensures NonIncreasing(old(counts[..])) ==> NonIncreasing(counts[..])
    {
      RunPass(MonteCarloPass, colls);
      RunCollisionsMeaning(MonteCarloPass, cuts, kin, old(Snapshot()), colls);
      if NonIncreasing(old(counts[..])) {
        StandardCounterFunnel(old(counts[..]), cuts, kin, Attempts(colls));
      }
    }
  }
}
