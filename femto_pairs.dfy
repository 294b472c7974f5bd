/** Pair selection of the femtoscopic track-track task with spherical
    harmonics: momentum-banded n-sigma particle identification, the pair
    enumerations of the same-event and mixed-event loops, the filter chain a
    pair passes before it reaches a correlation container, and the leg order of
    same-sign pairs. */
module FemtoPairs {
  import opened Common

  /** n-sigma values of one track under the proton, pion and kaon hypotheses. */
  datatype NSigmas = NSigmas(proton: real, pion: real, kaon: real)

  /** One femto track: its momentum and its TPC and TOF n-sigmas. */
  datatype Particle = Particle(p: real, tpc: NSigmas, tof: NSigmas)

  /** The n-sigma thresholds shared by both particles. */
  datatype PidCuts = PidCuts(nsigmaCombined: real, nsigmaTpc: real, tofPtMin: real)

  const DefaultPidCuts: PidCuts := PidCuts(3.0, 3.0, 0.5)

  /** `sqrt(a^2 + b^2) < c`, stated without the square root. */
  predicate HypotBelow(a: real, b: real, c: real) {
    0.0 < c && a * a + b * b < c * c
  }

  lemma SquareBelow(x: real, y: real)
    requires 0.0 <= x < y
    ensures x * x < y * y
  {
    var d := y - x;
    assert y * y == x * x + d * (x + y);
    assert d * (x + y) > 0.0;
  }

  lemma SquareAtMost(x: real, y: real)
    requires 0.0 <= x <= y
    ensures x * x <= y * y
  {
    var d := y - x;
    assert y * y == x * x + d * (x + y);
    assert d * (x + y) >= 0.0;
  }

  /** `HypotBelow` agrees with comparing the actual length `h` of (a, b) against `c`. */
  lemma HypotBelowMeaning(a: real, b: real, c: real, h: real)
    requires 0.0 <= h && h * h == a * a + b * b
    ensures HypotBelow(a, b, c) <==> h < c
  {
    if h < c {
      SquareBelow(h, c);
    } else if 0.0 < c {
      SquareAtMost(c, h);
    }
  }

  // ---------------------------------------------------------------------------
  // Particle identification

  /** Proton identification: TPC alone below the TOF momentum threshold, the
      combined TPC-TOF distance from it on. */
  function IsProtonNSigma(cuts: PidCuts, mom: real, nsigmaTpc: real, nsigmaTof: real): bool {
    if mom < cuts.tofPtMin then Abs(nsigmaTpc) < cuts.nsigmaTpc
    else HypotBelow(nsigmaTof, nsigmaTpc, cuts.nsigmaCombined)
  }

  /** Pion identification: the same rule as for protons, on the pion n-sigmas. */
  function IsPionNSigma(cuts: PidCuts, mom: real, nsigmaTpc: real, nsigmaTof: real): bool {
    if mom < cuts.tofPtMin then Abs(nsigmaTpc) < cuts.nsigmaTpc
    else HypotBelow(nsigmaTof, nsigmaTpc, cuts.nsigmaCombined)
  }

  /** Kaon identification in fixed momentum bands; a momentum of exactly 1.5 falls in no band. */
  function IsKaonNSigma(mom: real, nsigmaTpc: real, nsigmaTof: real): bool {
    if mom < 0.3 then Abs(nsigmaTpc) < 3.0
    else if mom < 0.45 then Abs(nsigmaTpc) < 2.0
    else if mom < 0.55 then Abs(nsigmaTpc) < 1.0
    else if mom < 1.5 then Abs(nsigmaTof) < 3.0 && Abs(nsigmaTpc) < 3.0
    else if mom > 1.5 then Abs(nsigmaTof) < 2.0 && Abs(nsigmaTpc) < 3.0
    else false
  }

  /** Below the TOF threshold the TOF n-sigma plays no part in the proton decision. */
  lemma ProtonTpcOnly(cuts: PidCuts, mom: real, nsigmaTpc: real, tof1: real, tof2: real)
    requires mom < cuts.tofPtMin
    ensures IsProtonNSigma(cuts, mom, nsigmaTpc, tof1) == IsProtonNSigma(cuts, mom, nsigmaTpc, tof2)
    ensures IsProtonNSigma(cuts, mom, nsigmaTpc, tof1) <==> -cuts.nsigmaTpc < nsigmaTpc < cuts.nsigmaTpc
  {
  }

  /** From the TOF threshold on, a proton is accepted exactly when the length
      `h` of (nσTOF, nσTPC) is below the combined threshold. */
  lemma ProtonCombinedAcceptance(cuts: PidCuts, mom: real, nsigmaTpc: real, nsigmaTof: real, h: real)
    requires cuts.tofPtMin <= mom
    requires 0.0 <= h && h * h == nsigmaTof * nsigmaTof + nsigmaTpc * nsigmaTpc
    ensures IsProtonNSigma(cuts, mom, nsigmaTpc, nsigmaTof) <==> h < cuts.nsigmaCombined
  {
    HypotBelowMeaning(nsigmaTof, nsigmaTpc, cuts.nsigmaCombined, h);
  }

  /** The pion rule decides exactly as the proton rule on the same numbers. */
  lemma PionMatchesProton(cuts: PidCuts, mom: real, nsigmaTpc: real, nsigmaTof: real)
    ensures IsPionNSigma(cuts, mom, nsigmaTpc, nsigmaTof) == IsProtonNSigma(cuts, mom, nsigmaTpc, nsigmaTof)
  {
  }

  /** The kaon momentum bands. */
  lemma KaonBands(mom: real, tpc: real, tof: real)
    ensures mom < 0.3 ==> (IsKaonNSigma(mom, tpc, tof) <==> -3.0 < tpc < 3.0)
    ensures 0.3 <= mom < 0.45 ==> (IsKaonNSigma(mom, tpc, tof) <==> -2.0 < tpc < 2.0)
    ensures 0.45 <= mom < 0.55 ==> (IsKaonNSigma(mom, tpc, tof) <==> -1.0 < tpc < 1.0)
    ensures 0.55 <= mom < 1.5 ==> (IsKaonNSigma(mom, tpc, tof) <==> -3.0 < tof < 3.0 && -3.0 < tpc < 3.0)
    ensures 1.5 < mom ==> (IsKaonNSigma(mom, tpc, tof) <==> -2.0 < tof < 2.0 && -3.0 < tpc < 3.0)
    ensures mom == 1.5 ==> !IsKaonNSigma(mom, tpc, tof)
  {
  }

  /** No kaon band accepts a TPC n-sigma of magnitude 3 or more. */
  lemma KaonNeedsTpcWithin3(mom: real, tpc: real, tof: real)
    requires Abs(tpc) >= 3.0
    ensures !IsKaonNSigma(mom, tpc, tof)
  {
  }

  /** The particle number `IsParticleNSigma` was called with, when it is neither 1 nor 2. */
  datatype PidError = WrongParticleNumber(n: int)

  /** The species rule a PDG code selects; a code and its charge conjugate select the same rule. */
  function SpeciesOk(cuts: PidCuts, pdgCode: int, prt: Particle): bool {
    if pdgCode == 2212 || pdgCode == -2212 then IsProtonNSigma(cuts, prt.p, prt.tpc.proton, prt.tof.proton)
    else if pdgCode == 211 || pdgCode == -211 then IsPionNSigma(cuts, prt.p, prt.tpc.pion, prt.tof.pion)
    else if pdgCode == 321 || pdgCode == -321 then IsKaonNSigma(prt.p, prt.tpc.kaon, prt.tof.kaon)
    else false
  }

  /** The analysis configuration the pair loops read. */
  datatype Config = Config(pid: PidCuts, pdgCodeOne: int, pdgCodeTwo: int, isCpr: bool,
                           processPM: bool, processPP: bool, processMM: bool)

  const DefaultConfig: Config := Config(DefaultPidCuts, 211, 211, true, false, true, true)

  /** `IsParticleNSigma`: the rule of the PDG code configured for particle 1
      or 2; any other particle number is a fatal error. */
  function IsParticleNSigma(cfg: Config, n: int, prt: Particle): (r: Result<bool, PidError>)
    ensures r.Err? <==> n != 1 && n != 2
    ensures r.Err? ==> r.error == WrongParticleNumber(n)
  {
    if n == 1 then Ok(SpeciesOk(cfg.pid, cfg.pdgCodeOne, prt))
    else if n == 2 then Ok(SpeciesOk(cfg.pid, cfg.pdgCodeTwo, prt))
    else Err(WrongParticleNumber(n))
  }

  /** A particle and its antiparticle are identified by the same rule. */
  lemma ChargeConjugateSameVerdict(cfg: Config, n: int, prt: Particle)
    ensures IsParticleNSigma(cfg.(pdgCodeOne := -cfg.pdgCodeOne, pdgCodeTwo := -cfg.pdgCodeTwo), n, prt)
            == IsParticleNSigma(cfg, n, prt)
  {
  }

  /** A PDG code other than ±2212, ±211 and ±321 accepts no particle. */
  lemma UnknownCodeRejects(cfg: Config, n: int, prt: Particle)
    requires n == 1 || n == 2
    requires var code := if n == 1 then cfg.pdgCodeOne else cfg.pdgCodeTwo;
             code !in {2212, -2212, 211, -211, 321, -321}
    ensures IsParticleNSigma(cfg, n, prt) == Ok(false)
  {
  }

  // ---------------------------------------------------------------------------
  // Pair enumerations

  /** Index pairs (i, j) with lo <= j < hi, in increasing j. */
  function Row(i: nat, lo: nat, hi: nat): seq<(nat, nat)>
    decreases hi
  {
    if hi <= lo then [] else Row(i, lo, hi - 1) + [(i, hi - 1)]
  }

  /** Rows 0 .. m-1 of a pair loop over n entries of the second group: full
      rows, or strictly-upper rows (j > i). */
  function Rows(m: nat, n: nat, upper: bool): seq<(nat, nat)>
    decreases m
  {
    if m == 0 then [] else Rows(m - 1, n, upper) + Row(m - 1, if upper then m else 0, n)
  }

  /** The full-index combinations of two groups of sizes m and n. */
  function CrossPairs(m: nat, n: nat): seq<(nat, nat)> {
    Rows(m, n, false)
  }

  /** The strictly-upper combinations of one group of size n with itself. */
  function UpperPairs(n: nat): seq<(nat, nat)> {
    Rows(n, n, true)
  }

  lemma {:induction false} RowShape(i: nat, lo: nat, hi: nat)
    ensures |Row(i, lo, hi)| == if hi <= lo then 0 else hi - lo
    ensures forall k :: 0 <= k < |Row(i, lo, hi)| ==> Row(i, lo, hi)[k] == (i, lo + k)
    decreases hi
  {
    if lo < hi {
      RowShape(i, lo, hi - 1);
    }
  }

  lemma RowMembers(i: nat, lo: nat, hi: nat)
    ensures forall ij :: ij in Row(i, lo, hi) <==> ij.0 == i && lo <= ij.1 < hi
  {
    RowShape(i, lo, hi);
    var r := Row(i, lo, hi);
    forall ij: (nat, nat) | ij.0 == i && lo <= ij.1 < hi
      ensures ij in r
    {
      assert r[ij.1 - lo] == ij;
    }
  }

  /** The full-index enumeration makes m * n pairs. */
  lemma {:induction false} CrossPairsCount(m: nat, n: nat)
    ensures |CrossPairs(m, n)| == m * n
    decreases m
  {
    if m > 0 {
      CrossPairsCount(m - 1, n);
      RowShape(m - 1, 0, n);
      assert m * n == (m - 1) * n + n;
    }
  }

  lemma {:induction false} UpperRowsCount(m: nat, n: nat)
    requires m <= n
    ensures 2 * |Rows(m, n, true)| == m * (2 * n - m - 1)
    decreases m
  {
    if m > 0 {
      UpperRowsCount(m - 1, n);
      RowShape(m - 1, m, n);
      assert m * (2 * n - m - 1) == (m - 1) * (2 * n - (m - 1) - 1) + 2 * (n - m);
    }
  }

  /** The strictly-upper enumeration of n entries makes n (n - 1) / 2 pairs. */
  lemma UpperPairsCount(n: nat)
    ensures 2 * |UpperPairs(n)| == n * (n - 1)
  {
    UpperRowsCount(n, n);
  }

  lemma {:induction false} RowsMembers(m: nat, n: nat, upper: bool)
    ensures forall ij :: ij in Rows(m, n, upper) <==> ij.0 < m && (if upper then ij.0 < ij.1 else 0 <= ij.1) && ij.1 < n
    decreases m
  {
    if m > 0 {
      RowsMembers(m - 1, n, upper);
      RowMembers(m - 1, if upper then m else 0, n);
    }
  }

  /** Every pair of positions of the two groups is tried, once each. */
  lemma CrossPairsMembers(m: nat, n: nat)
    ensures forall ij :: ij in CrossPairs(m, n) <==> ij.0 < m && ij.1 < n
  {
    RowsMembers(m, n, false);
  }

  /** The identical-particle loop tries each unordered pair of distinct
      positions once: no entry is paired with itself, no pair comes back swapped. */
  lemma UpperPairsMembers(n: nat)
    ensures forall ij :: ij in UpperPairs(n) <==> ij.0 < ij.1 < n
    ensures forall ij :: ij in UpperPairs(n) ==> ij.0 != ij.1 && (ij.1, ij.0) !in UpperPairs(n)
  {
    RowsMembers(n, n, true);
  }

  // ---------------------------------------------------------------------------
  // The filter chain and the container fills

  datatype EventKind = Same | Mixed

  /** Collaborators the pair loops consult: close-pair rejection, the pair
      cleaner, and the pair transverse momentum. */
  datatype Collaborators = Collaborators(
    isClosePair: (Particle, Particle, real, EventKind) -> bool,
    isCleanPair: (Particle, Particle) -> bool,
    kT: (Particle, Particle) -> real)

  /** A particle passes the selection of particle `n`. */
  predicate PidOk(cfg: Config, n: int, prt: Particle) {
    IsParticleNSigma(cfg, n, prt) == Ok(true)
  }

  /** The three pair types of the analysis, the container types 1, 2 and 3 of the
      source: unlike-sign pairs, and like-sign pairs of the first and of the
      second particle selection. */
  datatype PairKind = PlusMinus | PlusPlus | MinusMinus

  /** Same-event filter chain. The non-identical loop (unlike-sign pairs)
      tests the first leg with the particle-1 selection; the identical-particle
      loop tests both legs with the particle-2 selection. */
  predicate SamePairOk(cfg: Config, env: Collaborators, kind: PairKind, magField: real, p1: Particle, p2: Particle) {
    && PidOk(cfg, if kind == PlusMinus then 1 else 2, p1)
    && PidOk(cfg, 2, p2)
    && !(cfg.isCpr && env.isClosePair(p1, p2, magField, Same))
    && env.isCleanPair(p1, p2)
  }

  /** Mixed-event filter chain: both legs with the particle-2 selection, then
      close-pair rejection; the pair cleaner is not consulted. */
  predicate MixedPairOk(cfg: Config, env: Collaborators, magField: real, p1: Particle, p2: Particle) {
    && PidOk(cfg, 2, p1)
    && PidOk(cfg, 2, p2)
    && !(cfg.isCpr && env.isClosePair(p1, p2, magField, Mixed))
  }

  /** One entry filled into a correlation container: the two legs in fill
      order, the collision multiplicity, and the pair kT. */
  datatype PairFill = PairFill(first: Particle, second: Particle, multCol: int, kT: real)

  /** One pair loop: pair type, the two particle groups, and the collision's
      magnetic field and multiplicity. */
  datatype PairLoop = PairLoop(kind: PairKind, one: seq<Particle>, two: seq<Particle>, magField: real, multCol: int)

  /** The entries a pair loop fills, pair by pair in loop order. */
  function FlatMap<A, B>(f: A -> seq<B>, xs: seq<A>): seq<B>
    decreases |xs|
  {
    if xs == [] then [] else FlatMap(f, xs[..|xs| - 1]) + f(xs[|xs| - 1])
  }

  lemma {:induction false} FlatMapAppend<A, B>(f: A -> seq<B>, xs: seq<A>, ys: seq<A>)
    ensures FlatMap(f, xs + ys) == FlatMap(f, xs) + FlatMap(f, ys)
    decreases |ys|
  {
    if ys == [] {
      assert xs + ys == xs;
    } else {
      var init := ys[..|ys| - 1];
      FlatMapAppend(f, xs, init);
      assert (xs + ys)[..|xs + ys| - 1] == xs + init;
      assert FlatMap(f, xs + ys) == FlatMap(f, xs) + FlatMap(f, init) + f(ys[|ys| - 1]);
    }
  }

  /** What the same-event loop body fills for positions (i, j): nothing for a
      rejected pair; otherwise one entry, with the legs swapped when the draw
      of a like-sign pair is not above 0.5. */
  function SameFillAt(cfg: Config, env: Collaborators, lp: PairLoop, draw: (nat, nat) -> real, ij: (nat, nat)): seq<PairFill> {
    if ij.0 < |lp.one| && ij.1 < |lp.two| && SamePairOk(cfg, env, lp.kind, lp.magField, lp.one[ij.0], lp.two[ij.1]) then
      var p1 := lp.one[ij.0];
      var p2 := lp.two[ij.1];
      if lp.kind == PlusMinus || draw(ij.0, ij.1) > 0.5 then [PairFill(p1, p2, lp.multCol, env.kT(p1, p2))]
      else [PairFill(p2, p1, lp.multCol, env.kT(p1, p2))]
    else []
  }

  /** What the mixed-event loop body fills for positions (i, j). */
  function MixedFillAt(cfg: Config, env: Collaborators, lp: PairLoop, ij: (nat, nat)): seq<PairFill> {
    if ij.0 < |lp.one| && ij.1 < |lp.two| && MixedPairOk(cfg, env, lp.magField, lp.one[ij.0], lp.two[ij.1]) then
      [PairFill(lp.one[ij.0], lp.two[ij.1], lp.multCol, env.kT(lp.one[ij.0], lp.two[ij.1]))]
    else []
  }

  /** The same-event loop body of one pair loop, as a function of the positions. */
  function SameAt(cfg: Config, env: Collaborators, lp: PairLoop, draw: (nat, nat) -> real): ((nat, nat)) -> seq<PairFill> {
    ij => SameFillAt(cfg, env, lp, draw, ij)
  }

  /** The mixed-event loop body of one pair loop, as a function of the positions. */
  function MixedAt(cfg: Config, env: Collaborators, lp: PairLoop): ((nat, nat)) -> seq<PairFill> {
    ij => MixedFillAt(cfg, env, lp, ij)
  }

  /** The entries a same-event pair loop fills for the given positions, in order. */
  function SameFills(cfg: Config, env: Collaborators, lp: PairLoop, draw: (nat, nat) -> real, idx: seq<(nat, nat)>): seq<PairFill> {
    FlatMap(SameAt(cfg, env, lp, draw), idx)
  }

  /** The entries a mixed-event pair loop fills for the given positions, in order. */
  function MixedFills(cfg: Config, env: Collaborators, lp: PairLoop, idx: seq<(nat, nat)>): seq<PairFill> {
    FlatMap(MixedAt(cfg, env, lp), idx)
  }

  /** The positions of the pairs that pass the same-event filter chain. */
  function SameAccepted(cfg: Config, env: Collaborators, lp: PairLoop, idx: seq<(nat, nat)>): seq<(nat, nat)>
    decreases |idx|
  {
    if idx == [] then []
    else
      var ij := idx[|idx| - 1];
      SameAccepted(cfg, env, lp, idx[..|idx| - 1])
        + if ij.0 < |lp.one| && ij.1 < |lp.two| && SamePairOk(cfg, env, lp.kind, lp.magField, lp.one[ij.0], lp.two[ij.1])
          then [ij] else []
  }

  /** Each same-event pair fills at most one entry: exactly one when it passes
      the filter chain, whose legs are (p1, p2) for the unlike-sign loop and
      for a draw above 0.5, and (p2, p1) otherwise. */
  lemma SamePairFill(cfg: Config, env: Collaborators, lp: PairLoop, draw: (nat, nat) -> real, i: nat, j: nat)
    requires i < |lp.one| && j < |lp.two|
    ensures var f := SameFillAt(cfg, env, lp, draw, (i, j));
            && |f| == (if SamePairOk(cfg, env, lp.kind, lp.magField, lp.one[i], lp.two[j]) then 1 else 0)
            && (|f| == 1 && (lp.kind == PlusMinus || draw(i, j) > 0.5) ==> f[0].first == lp.one[i] && f[0].second == lp.two[j])
            && (|f| == 1 && lp.kind != PlusMinus && draw(i, j) <= 0.5 ==> f[0].first == lp.two[j] && f[0].second == lp.one[i])
  {
  }

  /** A loop fills exactly one entry per pair that passes the filter chain. */
  lemma {:induction false} SameFillsCount(cfg: Config, env: Collaborators, lp: PairLoop, draw: (nat, nat) -> real, idx: seq<(nat, nat)>)
    ensures |SameFills(cfg, env, lp, draw, idx)| == |SameAccepted(cfg, env, lp, idx)|
    decreases |idx|
  {
    if idx != [] {
      SameFillsCount(cfg, env, lp, draw, idx[..|idx| - 1]);
    }
  }

  /** Every same-event entry comes from a pair of the loop's own groups that
      passed the filter chain, in one leg order or the other. */
  lemma {:induction false} SameFillsFromAcceptedPairs(cfg: Config, env: Collaborators, lp: PairLoop, draw: (nat, nat) -> real, idx: seq<(nat, nat)>)
    ensures forall f :: f in SameFills(cfg, env, lp, draw, idx) ==>
              exists i, j :: 0 <= i < |lp.one| && 0 <= j < |lp.two|
                             && SamePairOk(cfg, env, lp.kind, lp.magField, lp.one[i], lp.two[j])
                             && ((f.first, f.second) == (lp.one[i], lp.two[j]) || (f.first, f.second) == (lp.two[j], lp.one[i]))
    decreases |idx|
  {
    if idx != [] {
      SameFillsFromAcceptedPairs(cfg, env, lp, draw, idx[..|idx| - 1]);
    }
  }

  /** The unlike-sign loop never draws: its entries are the same whatever the draw. */
  lemma {:induction false} UnlikeSignIgnoresDraw(cfg: Config, env: Collaborators, lp: PairLoop,
                                                 d1: (nat, nat) -> real, d2: (nat, nat) -> real, idx: seq<(nat, nat)>)
    requires lp.kind == PlusMinus
    ensures SameFills(cfg, env, lp, d1, idx) == SameFills(cfg, env, lp, d2, idx)
    decreases |idx|
  {
    if idx != [] {
      UnlikeSignIgnoresDraw(cfg, env, lp, d1, d2, idx[..|idx| - 1]);
    }
  }

  /** The positions of the pairs that pass the mixed-event filter chain. */
  function MixedAccepted(cfg: Config, env: Collaborators, lp: PairLoop, idx: seq<(nat, nat)>): seq<(nat, nat)>
    decreases |idx|
  {
    if idx == [] then []
    else
      var ij := idx[|idx| - 1];
      MixedAccepted(cfg, env, lp, idx[..|idx| - 1])
        + if ij.0 < |lp.one| && ij.1 < |lp.two| && MixedPairOk(cfg, env, lp.magField, lp.one[ij.0], lp.two[ij.1])
          then [ij] else []
  }

  /** A mixed-event loop fills exactly one entry per pair that passes its filter chain. */
  lemma {:induction false} MixedFillsCount(cfg: Config, env: Collaborators, lp: PairLoop, idx: seq<(nat, nat)>)
    ensures |MixedFills(cfg, env, lp, idx)| == |MixedAccepted(cfg, env, lp, idx)|
    decreases |idx|
  {
    if idx != [] {
      MixedFillsCount(cfg, env, lp, idx[..|idx| - 1]);
    }
  }

  /** Every mixed-event entry comes from a pair of the loop's groups that
      passed the filter chain, with the legs never swapped: the first leg is
      from the first collision, the second from the second. */
  lemma {:induction false} MixedFillsFromAcceptedPairs(cfg: Config, env: Collaborators, lp: PairLoop, idx: seq<(nat, nat)>)
    ensures forall f :: f in MixedFills(cfg, env, lp, idx) ==>
              exists i, j :: 0 <= i < |lp.one| && 0 <= j < |lp.two|
                             && MixedPairOk(cfg, env, lp.magField, lp.one[i], lp.two[j])
                             && f == PairFill(lp.one[i], lp.two[j], lp.multCol, env.kT(lp.one[i], lp.two[j]))
    decreases |idx|
  {
    if idx != [] {
      var init := idx[..|idx| - 1];
      MixedFillsFromAcceptedPairs(cfg, env, lp, init);
      var ij := idx[|idx| - 1];
      assert MixedFills(cfg, env, lp, idx) == MixedFills(cfg, env, lp, init) + MixedFillAt(cfg, env, lp, ij);
      if ij.0 < |lp.one| && ij.1 < |lp.two| && MixedPairOk(cfg, env, lp.magField, lp.one[ij.0], lp.two[ij.1]) {
        var i, j := ij.0, ij.1;
        assert MixedFillAt(cfg, env, lp, ij) == [PairFill(lp.one[i], lp.two[j], lp.multCol, env.kT(lp.one[i], lp.two[j]))];
      }
    }
  }

  /** The pair loop `doSameEvent` runs: the full-index combinations of the two
      groups for unlike-sign pairs, the strictly-upper combinations of the
      first group with itself for like-sign pairs. */
  function SameEventLoop(kind: PairKind, one: seq<Particle>, two: seq<Particle>, magField: real, multCol: int): PairLoop {
    PairLoop(kind, one, if kind == PlusMinus then two else one, magField, multCol)
  }

  function SameEventPairs(kind: PairKind, one: seq<Particle>, two: seq<Particle>): seq<(nat, nat)> {
    if kind == PlusMinus then CrossPairs(|one|, |two|) else UpperPairs(|one|)
  }

  /** All entries `doSameEvent` fills, in loop order. */
  function SameEventFills(cfg: Config, env: Collaborators, kind: PairKind, one: seq<Particle>, two: seq<Particle>,
                          magField: real, multCol: int, draw: (nat, nat) -> real): seq<PairFill> {
    SameFills(cfg, env, SameEventLoop(kind, one, two, magField, multCol), draw, SameEventPairs(kind, one, two))
  }

  /** All entries `doMixedEvent` fills, in loop order. */
  function MixedEventFills(cfg: Config, env: Collaborators, kind: PairKind, one: seq<Particle>, two: seq<Particle>,
                           magField: real, multCol: int): seq<PairFill> {
    MixedFills(cfg, env, PairLoop(kind, one, two, magField, multCol), CrossPairs(|one|, |two|))
  }

  /** In the identical-particle loop no particle is paired with itself, and
      every filled entry comes from two different positions of the group. */
  lemma SameEventLikeSignDistinct(cfg: Config, env: Collaborators, kind: PairKind, one: seq<Particle>, two: seq<Particle>,
                                  magField: real, multCol: int, draw: (nat, nat) -> real)
    requires kind != PlusMinus
    ensures forall ij :: ij in SameEventPairs(kind, one, two) ==> ij.0 < ij.1 < |one|
    ensures |SameEventFills(cfg, env, kind, one, two, magField, multCol, draw)| <= |one| * (|one| - 1) / 2
  {
    UpperPairsMembers(|one|);
    UpperPairsCount(|one|);
    var lp := SameEventLoop(kind, one, two, magField, multCol);
    SameFillsCount(cfg, env, lp, draw, UpperPairs(|one|));
    AcceptedAtMost(cfg, env, lp, UpperPairs(|one|));
  }

  lemma {:induction false} AcceptedAtMost(cfg: Config, env: Collaborators, lp: PairLoop, idx: seq<(nat, nat)>)
    ensures |SameAccepted(cfg, env, lp, idx)| <= |idx|
    decreases |idx|
  {
    if idx != [] {
      AcceptedAtMost(cfg, env, lp, idx[..|idx| - 1]);
    }
  }

  /** One collision as the pair loops see it: magnetic field, multiplicity,
      and its entries in the particle-1 and particle-2 partitions. */
  datatype FemtoCollision = FemtoCollision(magField: real, multNtr: int, partsOne: seq<Particle>, partsTwo: seq<Particle>)

  /** The entries one mixing pair of collisions contributes to the mixed-event
      container of a pair type: group 1 of the first collision against group 2
      of the second for unlike-sign pairs, the groups of equal charge for
      like-sign pairs; nothing when the magnetic fields differ. */
  function MixedPairFills(cfg: Config, env: Collaborators, kind: PairKind, c1: FemtoCollision, c2: FemtoCollision): seq<PairFill> {
    if c1.magField != c2.magField then []
    else
      var one := if kind == MinusMinus then c1.partsTwo else c1.partsOne;
      var two := if kind == PlusPlus then c2.partsOne else c2.partsTwo;
      MixedEventFills(cfg, env, kind, one, two, c1.magField, c1.multNtr)
  }

  function MixedPairAt(cfg: Config, env: Collaborators, kind: PairKind): ((FemtoCollision, FemtoCollision)) -> seq<PairFill> {
    (cc: (FemtoCollision, FemtoCollision)) => MixedPairFills(cfg, env, kind, cc.0, cc.1)
  }

  /** The mixed-event entries of one pair type over the mixing pairs, in order. */
  function MixedAll(cfg: Config, env: Collaborators, kind: PairKind, mixing: seq<(FemtoCollision, FemtoCollision)>): seq<PairFill> {
    FlatMap(MixedPairAt(cfg, env, kind), mixing)
  }

  /** A mixing pair whose magnetic fields differ adds nothing. */
  lemma MixedSkipsFieldMismatch(cfg: Config, env: Collaborators, kind: PairKind,
                                mixing: seq<(FemtoCollision, FemtoCollision)>, c1: FemtoCollision, c2: FemtoCollision)
    requires c1.magField != c2.magField
    ensures MixedAll(cfg, env, kind, mixing + [(c1, c2)]) == MixedAll(cfg, env, kind, mixing)
  {
    assert (mixing + [(c1, c2)])[..|mixing|] == mixing;
  }

  lemma MixedAllStep(cfg: Config, env: Collaborators, kind: PairKind, mixing: seq<(FemtoCollision, FemtoCollision)>, k: nat)
    requires k < |mixing|
    ensures MixedAll(cfg, env, kind, mixing[..k + 1])
            == MixedAll(cfg, env, kind, mixing[..k]) + MixedPairFills(cfg, env, kind, mixing[k].0, mixing[k].1)
  {
    assert mixing[..k + 1][..k] == mixing[..k];
  }

  /** The contents of the three containers of one event class: unlike-sign,
      and like-sign of the first and of the second particle selection. */
  datatype Histos = Histos(pm: seq<PairFill>, pp: seq<PairFill>, mm: seq<PairFill>)

  /** What one mixing pair of collisions adds to the mixed-event containers. */
  function MixStep(cfg: Config, env: Collaborators, h: Histos, c1: FemtoCollision, c2: FemtoCollision): Histos {
    Histos(h.pm + (if cfg.processPM then MixedPairFills(cfg, env, PlusMinus, c1, c2) else []),
           h.pp + (if cfg.processPP then MixedPairFills(cfg, env, PlusPlus, c1, c2) else []),
           h.mm + (if cfg.processMM then MixedPairFills(cfg, env, MinusMinus, c1, c2) else []))
  }

  /** The mixed-event containers after the mixing loop over the given pairs of collisions. */
  function MixedRun(cfg: Config, env: Collaborators, h: Histos, mixing: seq<(FemtoCollision, FemtoCollision)>): Histos
    decreases |mixing|
  {
    if mixing == [] then h
    else
      var last := mixing[|mixing| - 1];
      MixStep(cfg, env, MixedRun(cfg, env, h, mixing[..|mixing| - 1]), last.0, last.1)
  }

  lemma GrowStep(start: seq<PairFill>, all: seq<PairFill>, step: seq<PairFill>, enabled: bool)
    ensures (start + if enabled then all else []) + (if enabled then step else [])
            == start + if enabled then all + step else []
  {
    if enabled {
      assert (start + all) + step == start + (all + step);
    } else {
      assert start + [] + [] == start;
    }
  }

  /** The mixing loop appends, to each enabled container, its entries of every
      mixing pair in order; disabled containers are left as they were. */
  lemma {:induction false} MixedRunMeaning(cfg: Config, env: Collaborators, h: Histos, mixing: seq<(FemtoCollision, FemtoCollision)>)
    ensures MixedRun(cfg, env, h, mixing)
            == Histos(h.pm + (if cfg.processPM then MixedAll(cfg, env, PlusMinus, mixing) else []),
                      h.pp + (if cfg.processPP then MixedAll(cfg, env, PlusPlus, mixing) else []),
                      h.mm + (if cfg.processMM then MixedAll(cfg, env, MinusMinus, mixing) else []))
    decreases |mixing|
  {
    if mixing == [] {
      assert h.pm + [] == h.pm && h.pp + [] == h.pp && h.mm + [] == h.mm;
    } else {
      var k := |mixing| - 1;
      MixedRunMeaning(cfg, env, h, mixing[..k]);
      assert mixing[..k + 1] == mixing;
      MixedAllStep(cfg, env, PlusMinus, mixing, k);
      MixedAllStep(cfg, env, PlusPlus, mixing, k);
      MixedAllStep(cfg, env, MinusMinus, mixing, k);
      GrowStep(h.pm, MixedAll(cfg, env, PlusMinus, mixing[..k]), MixedPairFills(cfg, env, PlusMinus, mixing[k].0, mixing[k].1), cfg.processPM);
      GrowStep(h.pp, MixedAll(cfg, env, PlusPlus, mixing[..k]), MixedPairFills(cfg, env, PlusPlus, mixing[k].0, mixing[k].1), cfg.processPP);
      GrowStep(h.mm, MixedAll(cfg, env, MinusMinus, mixing[..k]), MixedPairFills(cfg, env, MinusMinus, mixing[k].0, mixing[k].1), cfg.processMM);
    }
  }

  // ---------------------------------------------------------------------------
  // The pair loops

  /** Whether a particle passes the selection of particle `n` (1 or 2). */
  method PassesPid(cfg: Config, n: int, prt: Particle) returns (ok: bool)
    requires n == 1 || n == 2
    ensures ok == PidOk(cfg, n, prt)
  {
    var r := IsParticleNSigma(cfg, n, prt);
    ok := r == Ok(true);
  }

  /** The body of the same-event pair loop for positions (i, j): the entry it fills, if any. */
  method TrySamePair(cfg: Config, env: Collaborators, lp: PairLoop, draw: (nat, nat) -> real, i: nat, j: nat) returns (out: seq<PairFill>)
    requires i < |lp.one| && j < |lp.two|
    ensures out == SameFillAt(cfg, env, lp, draw, (i, j))
  {
    out := [];
    var p1, p2 := lp.one[i], lp.two[j];
    var ok := PassesPid(cfg, if lp.kind == PlusMinus then 1 else 2, p1);
    if !ok {
      return;
    }
    ok := PassesPid(cfg, 2, p2);
    if !ok {
      return;
    }
    if cfg.isCpr && env.isClosePair(p1, p2, lp.magField, Same) {
      return;
    }
    if !env.isCleanPair(p1, p2) {
      return;
    }
    var kT := env.kT(p1, p2);
    if lp.kind == PlusMinus {
      out := [PairFill(p1, p2, lp.multCol, kT)];
    } else {
      var rand := draw(i, j);
      if rand > 0.5 {
        out := [PairFill(p1, p2, lp.multCol, kT)];
      } else {
        out := [PairFill(p2, p1, lp.multCol, kT)];
      }
    }
  }

  /** One row of a same-event pair loop: position i of the first group
      against positions lo .. |two|-1 of the second. */
  method SameRow(cfg: Config, env: Collaborators, lp: PairLoop, draw: (nat, nat) -> real, i: nat, lo: nat) returns (out: seq<PairFill>)
    requires i < |lp.one|
    ensures out == SameFills(cfg, env, lp, draw, Row(i, lo, |lp.two|))
  {
    out := [];
    if |lp.two| <= lo {
      return;
    }
    var j := lo;
    while j < |lp.two|
      invariant lo <= j <= |lp.two|
      invariant out == SameFills(cfg, env, lp, draw, Row(i, lo, j))
    {
      var e := TrySamePair(cfg, env, lp, draw, i, j);
      assert Row(i, lo, j + 1)[..|Row(i, lo, j + 1)| - 1] == Row(i, lo, j);
      out := out + e;
      j := j + 1;
    }
  }

  /** The first m rows of a same-event pair loop, full or strictly upper. */
  method SameRows(cfg: Config, env: Collaborators, lp: PairLoop, draw: (nat, nat) -> real, m: nat, upper: bool) returns (out: seq<PairFill>)
    requires m <= |lp.one|
    ensures out == SameFills(cfg, env, lp, draw, Rows(m, |lp.two|, upper))
  {
    out := [];
    var i := 0;
    while i < m
      invariant 0 <= i <= m
      invariant out == SameFills(cfg, env, lp, draw, Rows(i, |lp.two|, upper))
    {
      var lo := if upper then i + 1 else 0;
      var row := SameRow(cfg, env, lp, draw, i, lo);
      assert Rows(i + 1, |lp.two|, upper) == Rows(i, |lp.two|, upper) + Row(i, lo, |lp.two|);
      FlatMapAppend(SameAt(cfg, env, lp, draw), Rows(i, |lp.two|, upper), Row(i, lo, |lp.two|));
      out := out + row;
      i := i + 1;
    }
  }

  /** `doSameEvent`: the full-index loop over the two groups for unlike-sign
      pairs, the strictly-upper loop over the first group otherwise. */
  method DoSameEvent(cfg: Config, env: Collaborators, one: seq<Particle>, two: seq<Particle>, magField: real, multCol: int,
                     kind: PairKind, draw: (nat, nat) -> real) returns (out: seq<PairFill>)
    ensures out == SameEventFills(cfg, env, kind, one, two, magField, multCol, draw)
  {
    var lp := SameEventLoop(kind, one, two, magField, multCol);
    out := SameRows(cfg, env, lp, draw, |one|, kind != PlusMinus);
  }

  /** The body of the mixed-event pair loop for positions (i, j). */
  method TryMixedPair(cfg: Config, env: Collaborators, lp: PairLoop, i: nat, j: nat) returns (out: seq<PairFill>)
    requires i < |lp.one| && j < |lp.two|
    ensures out == MixedFillAt(cfg, env, lp, (i, j))
  {
    out := [];
    var p1, p2 := lp.one[i], lp.two[j];
    var ok := PassesPid(cfg, 2, p1);
    if !ok {
      return;
    }
    ok := PassesPid(cfg, 2, p2);
    if !ok {
      return;
    }
    if cfg.isCpr && env.isClosePair(p1, p2, lp.magField, Mixed) {
      return;
    }
    var kT := env.kT(p1, p2);
    out := [PairFill(p1, p2, lp.multCol, kT)];
  }

  method MixedRow(cfg: Config, env: Collaborators, lp: PairLoop, i: nat) returns (out: seq<PairFill>)
    requires i < |lp.one|
    ensures out == MixedFills(cfg, env, lp, Row(i, 0, |lp.two|))
  {
    out := [];
    var j := 0;
    while j < |lp.two|
      invariant 0 <= j <= |lp.two|
      invariant out == MixedFills(cfg, env, lp, Row(i, 0, j))
    {
      var e := TryMixedPair(cfg, env, lp, i, j);
      assert Row(i, 0, j + 1)[..|Row(i, 0, j + 1)| - 1] == Row(i, 0, j);
      out := out + e;
      j := j + 1;
    }
  }

  /** The first m full rows of a mixed-event pair loop. */
  method MixedRows(cfg: Config, env: Collaborators, lp: PairLoop, m: nat) returns (out: seq<PairFill>)
    requires m <= |lp.one|
    ensures out == MixedFills(cfg, env, lp, Rows(m, |lp.two|, false))
  {
    out := [];
    var i := 0;
    while i < m
      invariant 0 <= i <= m
      invariant out == MixedFills(cfg, env, lp, Rows(i, |lp.two|, false))
    {
      var row := MixedRow(cfg, env, lp, i);
      assert Rows(i + 1, |lp.two|, false) == Rows(i, |lp.two|, false) + Row(i, 0, |lp.two|);
      FlatMapAppend(MixedAt(cfg, env, lp), Rows(i, |lp.two|, false), Row(i, 0, |lp.two|));
      out := out + row;
      i := i + 1;
    }
  }

  /** `doMixedEvent`: the full-index loop over a group of one collision and a group of another. */
  method DoMixedEvent(cfg: Config, env: Collaborators, one: seq<Particle>, two: seq<Particle>, magField: real, multCol: int,
                      kind: PairKind) returns (out: seq<PairFill>)
    ensures out == MixedEventFills(cfg, env, kind, one, two, magField, multCol)
  {
    out := MixedRows(cfg, env, PairLoop(kind, one, two, magField, multCol), |one|);
  }

  /** The entries one mixing pair of collisions adds to the container of a pair type. */
  method MixPair(cfg: Config, env: Collaborators, kind: PairKind, c1: FemtoCollision, c2: FemtoCollision) returns (out: seq<PairFill>)
    ensures out == MixedPairFills(cfg, env, kind, c1, c2)
  {
    if c1.magField != c2.magField {
      return [];
    }
    var one := if kind == MinusMinus then c1.partsTwo else c1.partsOne;
    var two := if kind == PlusPlus then c2.partsOne else c2.partsTwo;
    out := DoMixedEvent(cfg, env, one, two, c1.magField, c1.multNtr, kind);
  }

  // ---------------------------------------------------------------------------
  // The analysis task

  /** The analysis task's correlation containers, same event and mixed event, and the
      configuration it runs with. */
  class FemtoPairTask {
    const cfg: Config
    const env: Collaborators
    var same: Histos
    var mixed: Histos

    constructor (cfg: Config, env: Collaborators)
      ensures this.cfg == cfg && this.env == env
      ensures same == Histos([], [], []) && mixed == Histos([], [], [])
    {
      this.cfg := cfg;
      this.env := env;
      same := Histos([], [], []);
      mixed := Histos([], [], []);
    }

    /** `processSameEvent`: the enabled same-event loops of one collision, in
        the order +-, ++, --. The ++ and -- loops order the legs of each pair
        by an arbitrary draw per pair (a fresh generator per accepted pair in
        the source). The +- loop never draws: `drawPP` is passed to it only to
        fill the parameter, and `UnlikeSignIgnoresDraw` shows its entries are
        the same for any draw. */
    method ProcessSameEvent(col: FemtoCollision, drawPP: (nat, nat) -> real, drawMM: (nat, nat) -> real)
      modifies this`same
      ensures same.pm == old(same.pm)
                + if cfg.processPM then SameEventFills(cfg, env, PlusMinus, col.partsOne, col.partsTwo, col.magField, col.multNtr, drawPP) else []
      ensures same.pp == old(same.pp)
                + if cfg.processPP then SameEventFills(cfg, env, PlusPlus, col.partsOne, col.partsOne, col.magField, col.multNtr, drawPP) else []
      ensures same.mm == old(same.mm)
                + if cfg.processMM then SameEventFills(cfg, env, MinusMinus, col.partsTwo, col.partsTwo, col.magField, col.multNtr, drawMM) else []
    {
      if cfg.processPM {
        var e := DoSameEvent(cfg, env, col.partsOne, col.partsTwo, col.magField, col.multNtr, PlusMinus, drawPP);
        same := same.(pm := same.pm + e);
      }
      if cfg.processPP {
        var e := DoSameEvent(cfg, env, col.partsOne, col.partsOne, col.magField, col.multNtr, PlusPlus, drawPP);
        same := same.(pp := same.pp + e);
      }
      if cfg.processMM {
        var e := DoSameEvent(cfg, env, col.partsTwo, col.partsTwo, col.magField, col.multNtr, MinusMinus, drawMM);
        same := same.(mm := same.mm + e);
      }
    }

    /** The loop body of `processMixedEvent` for one mixing pair of collisions. */
    method MixCollisions(c1: FemtoCollision, c2: FemtoCollision)
      modifies this`mixed
      ensures mixed == MixStep(cfg, env, old(mixed), c1, c2)
    {
      if cfg.processPM {
        var e := MixPair(cfg, env, PlusMinus, c1, c2);
        mixed := mixed.(pm := mixed.pm + e);
      }
      if cfg.processPP {
        var e := MixPair(cfg, env, PlusPlus, c1, c2);
        mixed := mixed.(pp := mixed.pp + e);
      }
      if cfg.processMM {
        var e := MixPair(cfg, env, MinusMinus, c1, c2);
        mixed := mixed.(mm := mixed.mm + e);
      }
    }

    /** `processMixedEvent`: every mixing pair of collisions whose magnetic
        fields agree runs the enabled mixed-event loops; the others are skipped. */
    method ProcessMixedEvent(mixing: seq<(FemtoCollision, FemtoCollision)>)
      modifies this`mixed
      ensures mixed == MixedRun(cfg, env, old(mixed), mixing)
      ensures mixed.pm == old(mixed.pm) + if cfg.processPM then MixedAll(cfg, env, PlusMinus, mixing) else []
      ensures mixed.pp == old(mixed.pp) + if cfg.processPP then MixedAll(cfg, env, PlusPlus, mixing) else []
      ensures mixed.mm == old(mixed.mm) + if cfg.processMM then MixedAll(cfg, env, MinusMinus, mixing) else []
    {
      var k := 0;
      while k < |mixing|
        invariant 0 <= k <= |mixing|
        invariant mixed == MixedRun(cfg, env, old(mixed), mixing[..k])
      {
        MixCollisions(mixing[k].0, mixing[k].1);
        assert mixing[..k + 1][..k] == mixing[..k];
        k := k + 1;
      }
      assert mixing[..k] == mixing;
      MixedRunMeaning(cfg, env, old(mixed), mixing);
    }
  }
}
