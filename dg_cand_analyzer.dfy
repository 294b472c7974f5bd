/** Event selection of the diffractive-candidate analyzer: classification of a
    candidate by its sentinel vertex position, the selection chain (good run,
    case, track count, net charge, TOF fraction) and the de-duplication of
    accepted candidates by bunch-crossing number. */
module DgCandAnalyzer {
  import opened Common

  /** Primary-vertex position of a candidate. */
  datatype Vertex = Vertex(x: real, y: real, z: real)

  /** The fields of a diffractive candidate the selection reads. */
  datatype Candidate = Candidate(runNumber: int, pos: Vertex, numContrib: int, netCharge: int, globalBC: nat)

  /** The event cuts of the analysis. */
  datatype Cuts = Cuts(minNTracks: int, maxNTracks: int, netCharges: seq<int>, minRgtrwTOF: real)

  /** Configuration: the cuts, the case selection (0 or less selects all
      cases), and the good-run selector loaded at start-up. */
  datatype Config = Config(cuts: Cuts, candCaseSel: int, isGoodRun: int -> bool)

  /** The vertex a candidate carries when it has a bunch crossing but no collision. */
  const NoCollisionVertex: Vertex := Vertex(-1.0, 1.0, -1.0)

  /** The vertex a candidate carries when it has no bunch crossing. */
  const NoBunchCrossingVertex: Vertex := Vertex(-2.0, 2.0, -2.0)

  /** The case of a candidate: 2 and 3 for the two sentinel vertices, 1 for any other. */
  function CandCase(pos: Vertex): (c: int)
    ensures 1 <= c <= 3
  {
    if pos.x == -1.0 && pos.y == 1.0 && pos.z == -1.0 then 2
    else if pos.x == -2.0 && pos.y == 2.0 && pos.z == -2.0 then 3
    else 1
  }

  /** The case identifies the sentinel vertex exactly. */
  lemma CandCaseMeaning(pos: Vertex)
    ensures CandCase(pos) == 2 <==> pos == NoCollisionVertex
    ensures CandCase(pos) == 3 <==> pos == NoBunchCrossingVertex
    ensures CandCase(pos) == 1 <==> pos != NoCollisionVertex && pos != NoBunchCrossingVertex
  {
  }

  /** The smallest accepted TOF fraction: 1.0 for the sentinel cases, the configured cut for case 1. */
  function TofThreshold(cuts: Cuts, candCase: int): real {
    if candCase != 1 then 1.0 else cuts.minRgtrwTOF
  }

  /** Where `process` leaves a candidate: at one of its early returns, or at
      the end, with its histograms filled. */
  datatype Verdict =
    | BadRun
    | CaseNotSelected
    | TrackCountOutOfRange
    | NetChargeNotAllowed
    | TofFractionTooLow
    | DuplicateBunchCrossing
    | Analysed

  /** One candidate with the values the collaborators compute from its tracks:
      the TOF fraction of the vertex tracks and the number of track
      combinations that pass the PID cuts. */
  datatype Input = Input(cand: Candidate, rtrwTOF: real, nIVMs: nat)

  /** The selection chain of `process`, given the bunch crossings recorded so far. */
  function Classify(cfg: Config, bcnums: set<nat>, input: Input): Verdict {
    var cand := input.cand;
    if !cfg.isGoodRun(cand.runNumber) then BadRun
    else if cfg.candCaseSel > 0 && CandCase(cand.pos) != cfg.candCaseSel then CaseNotSelected
    else if cand.numContrib < cfg.cuts.minNTracks || cand.numContrib > cfg.cuts.maxNTracks then TrackCountOutOfRange
    else if cand.netCharge !in cfg.cuts.netCharges then NetChargeNotAllowed
    else if input.rtrwTOF < TofThreshold(cfg.cuts, CandCase(cand.pos)) then TofFractionTooLow
    else if input.nIVMs > 0 && cand.globalBC in bcnums then DuplicateBunchCrossing
    else Analysed
  }

  /** The candidate passes every event cut before the bunch-crossing check. */
  predicate PassesCuts(cfg: Config, input: Input) {
    var cand := input.cand;
    && cfg.isGoodRun(cand.runNumber)
    && (cfg.candCaseSel <= 0 || CandCase(cand.pos) == cfg.candCaseSel)
    && cfg.cuts.minNTracks <= cand.numContrib <= cfg.cuts.maxNTracks
    && cand.netCharge in cfg.cuts.netCharges
    && input.rtrwTOF >= TofThreshold(cfg.cuts, CandCase(cand.pos))
  }

  /** A candidate is analysed exactly when it passes every cut and, if it has
      a track combination, its bunch crossing was not recorded before; it is
      rejected as a duplicate exactly when it passes the cuts, has a
      combination, and its bunch crossing was recorded. */
  lemma ClassifyMeaning(cfg: Config, bcnums: set<nat>, input: Input)
    ensures Classify(cfg, bcnums, input) == Analysed
            <==> PassesCuts(cfg, input) && !(input.nIVMs > 0 && input.cand.globalBC in bcnums)
    ensures Classify(cfg, bcnums, input) == DuplicateBunchCrossing
            <==> PassesCuts(cfg, input) && input.nIVMs > 0 && input.cand.globalBC in bcnums
  {
  }

  /** With no case selection every case reaches the track-count cut. */
  lemma AllCasesWithoutSelection(cfg: Config, bcnums: set<nat>, input: Input)
    requires cfg.candCaseSel <= 0 && cfg.isGoodRun(input.cand.runNumber)
    ensures Classify(cfg, bcnums, input) != CaseNotSelected
  {
  }

  /** A sentinel candidate needs a TOF fraction of at least 1.0, whatever the configured cut. */
  lemma SentinelNeedsFullTofFraction(cfg: Config, bcnums: set<nat>, input: Input)
    requires input.cand.pos == NoCollisionVertex || input.cand.pos == NoBunchCrossingVertex
    requires input.rtrwTOF < 1.0
    ensures Classify(cfg, bcnums, input) != Analysed
  {
  }

  /** The bunch crossings recorded after `process` ran on one candidate. */
  function Record(cfg: Config, bcnums: set<nat>, input: Input): set<nat> {
    if Classify(cfg, bcnums, input) == Analysed && input.nIVMs > 0 then bcnums + {input.cand.globalBC} else bcnums
  }

  /** The recorded set never shrinks, and gains at most the candidate's own bunch crossing. */
  lemma RecordGrows(cfg: Config, bcnums: set<nat>, input: Input)
    ensures bcnums <= Record(cfg, bcnums, input) <= bcnums + {input.cand.globalBC}
  {
  }

  /** Once a bunch crossing is recorded, a later candidate of that bunch
      crossing with a track combination is never analysed again. */
  lemma RecordedRejectsRepeat(cfg: Config, bcnums: set<nat>, first: Input, second: Input)
    requires Classify(cfg, bcnums, first) == Analysed && first.nIVMs > 0
    requires second.cand.globalBC == first.cand.globalBC && second.nIVMs > 0
    ensures Classify(cfg, Record(cfg, bcnums, first), second) != Analysed
  {
  }

  /** The recorded set after `process` ran on each candidate in turn. */
  function Run(cfg: Config, bcnums: set<nat>, inputs: seq<Input>): set<nat>
    decreases |inputs|
  {
    if inputs == [] then bcnums
    else Record(cfg, Run(cfg, bcnums, inputs[..|inputs| - 1]), inputs[|inputs| - 1])
  }

  /** The bunch crossings recorded along a run, in order. */
  function Recorded(cfg: Config, bcnums: set<nat>, inputs: seq<Input>): seq<nat>
    decreases |inputs|
  {
    if inputs == [] then []
    else
      var before := Run(cfg, bcnums, inputs[..|inputs| - 1]);
      var last := inputs[|inputs| - 1];
      Recorded(cfg, bcnums, inputs[..|inputs| - 1])
        + if Classify(cfg, before, last) == Analysed && last.nIVMs > 0 then [last.cand.globalBC] else []
  }

  /** The elements of a sequence of bunch crossings, as a set. */
  function Elems(r: seq<nat>): set<nat> {
    set b | b in r
  }

  lemma ElemsSnoc(r: seq<nat>, b: nat)
    ensures Elems(r + [b]) == Elems(r) + {b}
    ensures forall i :: 0 <= i < |r| ==> r[i] in Elems(r)
  {
    assert forall x :: x in r + [b] <==> x in r || x == b;
  }

  /** Along any run of candidates, the recorded set is the start set plus the
      bunch crossings of the analysed candidates with track combinations, and
      these are pairwise distinct and new: no bunch crossing is counted twice. */
  lemma {:induction false} RunRecordsDistinct(cfg: Config, bcnums: set<nat>, inputs: seq<Input>)
    ensures var r := Recorded(cfg, bcnums, inputs);
            && Run(cfg, bcnums, inputs) == bcnums + Elems(r)
            && (forall i, j :: 0 <= i < j < |r| ==> r[i] != r[j])
            && (forall i :: 0 <= i < |r| ==> r[i] !in bcnums)
    decreases |inputs|
  {
    if inputs == [] {
      assert Elems([]) == {};
    } else {
      var init := inputs[..|inputs| - 1];
      RunRecordsDistinct(cfg, bcnums, init);
      var r0 := Recorded(cfg, bcnums, init);
      var last := inputs[|inputs| - 1];
      var before := Run(cfg, bcnums, init);
      if Classify(cfg, before, last) == Analysed && last.nIVMs > 0 {
        var bc := last.cand.globalBC;
        assert Recorded(cfg, bcnums, inputs) == r0 + [bc];
        assert Run(cfg, bcnums, inputs) == before + {bc};
        ElemsSnoc(r0, bc);
        assert bc !in before;
      } else {
        assert Recorded(cfg, bcnums, inputs) == r0 + [];
        assert r0 + [] == r0;
      }
    }
  }

  /** The two tracks of a track combination, when it has exactly two; the
      signal histograms are filled for these only. */
  function SignalPair(trkinds: seq<nat>): (r: Option<(nat, nat)>)
    ensures r.Some? <==> |trkinds| == 2
    ensures r.Some? ==> r.value.0 == trkinds[0] && r.value.1 == trkinds[1]
  {
    if |trkinds| != 2 then None else Some((trkinds[0], trkinds[1]))
  }

  /** The analyzer task and its set of accepted bunch crossings. */
  class DgCandAnalyzerTask {
    const cfg: Config
    var bcnums: set<nat>

    constructor (cfg: Config)
      ensures this.cfg == cfg && bcnums == {}
    {
      this.cfg := cfg;
      bcnums := {};
    }

    /** `init`: forget every recorded bunch crossing. */
    method Init()
      modifies this`bcnums
      ensures bcnums == {}
    {
      bcnums := {};
    }

    /** `process`: run the selection chain on one candidate and record its
        bunch crossing when it is analysed with a track combination. */
    method Process(input: Input) returns (v: Verdict)
      modifies this`bcnums
      ensures v == Classify(cfg, old(bcnums), input)
      ensures bcnums == Record(cfg, old(bcnums), input)
    {
      var cand := input.cand;
      if !cfg.isGoodRun(cand.runNumber) {
        return BadRun;
      }
      var candCase := 1;
      if cand.pos.x == -1.0 && cand.pos.y == 1.0 && cand.pos.z == -1.0 {
        candCase := 2;
      } else if cand.pos.x == -2.0 && cand.pos.y == 2.0 && cand.pos.z == -2.0 {
        candCase := 3;
      }
      if cfg.candCaseSel > 0 && candCase != cfg.candCaseSel {
        return CaseNotSelected;
      }
      if cand.numContrib < cfg.cuts.minNTracks || cand.numContrib > cfg.cuts.maxNTracks {
        return TrackCountOutOfRange;
      }
      if cand.netCharge !in cfg.cuts.netCharges {
        return NetChargeNotAllowed;
      }
      var minRgtrwTOF := if candCase != 1 then 1.0 else cfg.cuts.minRgtrwTOF;
      if input.rtrwTOF < minRgtrwTOF {
        return TofFractionTooLow;
      }
      if input.nIVMs > 0 {
        if cand.globalBC in bcnums {
          return DuplicateBunchCrossing;
        }
        bcnums := bcnums + {cand.globalBC};
      }
      return Analysed;
    }
  }
}
