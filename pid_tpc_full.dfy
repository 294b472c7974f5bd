/** The TPC particle-identification table producer: one table per mass
    hypothesis, switched on or off by a three-valued flag that is resolved once
    at initialisation against the inputs the rest of the workflow declares,
    then filled with one row per track for every species whose flag is 1. */
module PidTpcFull {

  /** The nine mass hypotheses, declared in the order the analysis fills their tables. */
  datatype Species = El | Mu | Pi | Ka | Pr | De | Tr | He | Al

  /** One value per mass hypothesis, as the analysis keeps its nine flags and its nine tables. */
  datatype PerSpecies<T> = PerSpecies(el: T, mu: T, pi: T, ka: T, pr: T, de: T, tr: T, he: T, al: T)

  /** The value kept for species `s`. */
  function Get<T>(p: PerSpecies<T>, s: Species): T {
    match s
    case El => p.el
    case Mu => p.mu
    case Pi => p.pi
    case Ka => p.ka
    case Pr => p.pr
    case De => p.de
    case Tr => p.tr
    case He => p.he
    case Al => p.al
  }

  /** `p` with the value of species `s` replaced by `v`, every other value kept. */
  function With<T>(p: PerSpecies<T>, s: Species, v: T): PerSpecies<T> {
    match s
    case El => p.(el := v)
    case Mu => p.(mu := v)
    case Pi => p.(pi := v)
    case Ka => p.(ka := v)
    case Pr => p.(pr := v)
    case De => p.(de := v)
    case Tr => p.(tr := v)
    case He => p.(he := v)
    case Al => p.(al := v)
  }

  /** Reading back a replaced value; replacing twice keeps the second value only. */
  lemma GetWith<T>(p: PerSpecies<T>, s: Species, v: T, w: T)
    ensures Get(With(p, s, v), s) == v
    ensures With(With(p, s, v), s, w) == With(p, s, w)
    ensures With(p, s, Get(p, s)) == p
  {
    match s
    case El =>
    case Mu =>
    case Pi =>
    case Ka =>
    case Pr =>
    case De =>
    case Tr =>
    case He =>
    case Al =>
  }

  /** Suffix of the species in its table name. */
  function Suffix(s: Species): string {
    match s
    case El => "El"
    case Mu => "Mu"
    case Pi => "Pi"
    case Ka => "Ka"
    case Pr => "Pr"
    case De => "De"
    case Tr => "Tr"
    case He => "He"
    case Al => "Al"
  }

  /** Binding under which a downstream task asks for the table of `s`. */
  function TableName(s: Species): string {
    "pidTPCFull" + Suffix(s)
  }

  /** Flag values: -1 (the default) asks for automatic set-up, 0 is off, 1 is on. */
  const AutoFlag: int := -1
  const OffFlag: int := 0
  const OnFlag: int := 1

  /** Effect of the enabling step for species `s` on one input binding:
      a matching binding turns a negative or a positive flag into 1 and
      leaves 0 alone; any other binding leaves the flag as it is. */
  function StepFlag(flag: int, binding: string, s: Species): int {
    if binding == TableName(s) then
      if flag < 0 then OnFlag
      else if flag > 0 then OnFlag
      else flag
    else flag
  }

  /** The flags after the nine enabling steps, in the fixed species order, on
      one input binding: each species' flag takes its own step. */
  function StepAll(flags: PerSpecies<int>, binding: string): PerSpecies<int> {
    PerSpecies(StepFlag(flags.el, binding, El), StepFlag(flags.mu, binding, Mu), StepFlag(flags.pi, binding, Pi),
               StepFlag(flags.ka, binding, Ka), StepFlag(flags.pr, binding, Pr), StepFlag(flags.de, binding, De),
               StepFlag(flags.tr, binding, Tr), StepFlag(flags.he, binding, He), StepFlag(flags.al, binding, Al))
  }

  /** The flags after the nine enabling steps for each binding in turn. */
  function ResolveAll(flags: PerSpecies<int>, bindings: seq<string>): PerSpecies<int>
    decreases |bindings|
  {
    if bindings == [] then flags
    else StepAll(ResolveAll(flags, bindings[..|bindings| - 1]), bindings[|bindings| - 1])
  }

  /** The flag of `s` after the enabling step has seen `bindings` in order. */
  function ResolveFlag(flag: int, bindings: seq<string>, s: Species): int
    decreases |bindings|
  {
    if bindings == [] then flag
    else StepFlag(ResolveFlag(flag, bindings[..|bindings| - 1], s), bindings[|bindings| - 1], s)
  }

  /** All input bindings of all devices, device by device, in declaration order. */
  function Bindings(devices: seq<seq<string>>): seq<string>
    decreases |devices|
  {
    if devices == [] then []
    else Bindings(devices[..|devices| - 1]) + devices[|devices| - 1]
  }

  lemma ResolveFlagSnoc(flag: int, bindings: seq<string>, b: string, s: Species)
    ensures ResolveFlag(flag, bindings + [b], s) == StepFlag(ResolveFlag(flag, bindings, s), b, s)
  {
    assert (bindings + [b])[..|bindings|] == bindings;
  }

  /** Closed form of flag resolution: a non-zero flag becomes 1 exactly when
      some input binds the species' table; otherwise the configured value stays. */
  lemma {:induction false} ResolveFlagClosedForm(flag: int, bindings: seq<string>, s: Species)
    ensures ResolveFlag(flag, bindings, s)
            == if flag != OffFlag && TableName(s) in bindings then OnFlag else flag
    decreases |bindings|
  {
    if bindings != [] {
      var init := bindings[..|bindings| - 1];
      ResolveFlagClosedForm(flag, init, s);
      assert bindings == init + [bindings[|bindings| - 1]];
    }
  }

  /** Resolving over two runs of bindings is resolving over the first, then over the second. */
  lemma ResolveFlagAppend(flag: int, a: seq<string>, b: seq<string>, s: Species)
    ensures ResolveFlag(flag, a + b, s) == ResolveFlag(ResolveFlag(flag, a, s), b, s)
  {
    ResolveFlagClosedForm(flag, a + b, s);
    ResolveFlagClosedForm(flag, a, s);
    ResolveFlagClosedForm(ResolveFlag(flag, a, s), b, s);
    assert TableName(s) in a + b <==> TableName(s) in a || TableName(s) in b;
  }

  /** Resolving all flags together resolves each species' flag on its own:
      no flag depends on another species' flag. */
  lemma {:induction false} ResolveAllMeaning(flags: PerSpecies<int>, bindings: seq<string>, s: Species)
    ensures Get(ResolveAll(flags, bindings), s) == ResolveFlag(Get(flags, s), bindings, s)
    decreases |bindings|
  {
    if bindings != [] {
      var init := bindings[..|bindings| - 1];
      ResolveAllMeaning(flags, init, s);
    }
  }

  /** Resolving all flags over two runs of bindings is resolving over the first, then over the second. */
  lemma {:induction false} ResolveAllAppend(flags: PerSpecies<int>, a: seq<string>, b: seq<string>)
    ensures ResolveAll(flags, a + b) == ResolveAll(ResolveAll(flags, a), b)
    decreases |b|
  {
    if b == [] {
      assert a + b == a;
    } else {
      ResolveAllAppend(flags, a, b[..|b| - 1]);
      assert (a + b)[..|a + b| - 1] == a + b[..|b| - 1];
    }
  }

  /** A matching input switches an automatic or positive flag on and keeps an explicit 0 off. */
  lemma {:induction false} MatchingInputResolves(flag: int, bindings: seq<string>, s: Species)
    requires TableName(s) in bindings
    ensures flag < 0 ==> ResolveFlag(flag, bindings, s) == OnFlag
    ensures flag > 0 ==> ResolveFlag(flag, bindings, s) == OnFlag
    ensures flag == OffFlag ==> ResolveFlag(flag, bindings, s) == OffFlag
  {
    ResolveFlagClosedForm(flag, bindings, s);
  }

  /** Without a matching input the configured value, even the automatic -1, is kept. */
  lemma {:induction false} UnmatchedFlagKept(flag: int, bindings: seq<string>, s: Species)
    requires TableName(s) !in bindings
    ensures ResolveFlag(flag, bindings, s) == flag
  {
    ResolveFlagClosedForm(flag, bindings, s);
  }

  /** Running the resolution a second time over the same inputs changes no flag. */
  lemma {:induction false} ResolveFlagIdempotent(flag: int, bindings: seq<string>, s: Species)
    ensures ResolveFlag(ResolveFlag(flag, bindings, s), bindings, s) == ResolveFlag(flag, bindings, s)
  {
    ResolveFlagClosedForm(flag, bindings, s);
    ResolveFlagClosedForm(ResolveFlag(flag, bindings, s), bindings, s);
  }

  /** Distinct species have distinct table names, so one binding enables at most one species. */
  lemma TableNameInjective(a: Species, b: Species)
    ensures TableName(a) == TableName(b) <==> a == b
  {
    if TableName(a) == TableName(b) {
      assert TableName(a)[10..] == Suffix(a);
      assert TableName(b)[10..] == Suffix(b);
    }
  }

  /** The binding of one species' table never changes another species' flag. */
  lemma OtherSpeciesUntouched(flag: int, s: Species, t: Species)
    requires s != t
    ensures StepFlag(flag, TableName(s), t) == flag
  {
    TableNameInjective(s, t);
  }

  // ---------------------------------------------------------------------------
  // Where the detector-response parametrization is loaded from

  datatype ParamKind = Signal | Sigma

  datatype LoadRequest =
    | FromFile(file: string, name: string, kind: ParamKind)
    | FromStore(path: string, timestamp: int, kind: ParamKind)

  /** Path of a named parametrization in the calibration store: directory, '/', name. */
  function StorePath(dir: string, name: string): (p: string)
    ensures |p| == |dir| + 1 + |name|
    ensures p[..|dir|] == dir && p[|dir|] == '/' && p[|dir| + 1..] == name
  {
    dir + "/" + name
  }

  /** The two loads `init` performs, signal first and then sigma: from the file
      when one is configured, otherwise from the store under the configured path. */
  function ParamLoads(paramFile: string, signalName: string, sigmaName: string,
                      ccdbPath: string, timestamp: int): (r: seq<LoadRequest>)
    ensures |r| == 2 && r[0].kind == Signal && r[1].kind == Sigma
    ensures paramFile != "" ==>
              r[0] == FromFile(paramFile, signalName, Signal) && r[1] == FromFile(paramFile, sigmaName, Sigma)
    ensures paramFile == "" ==>
              && r[0].FromStore? && r[1].FromStore?
              && |r[0].path| == |ccdbPath| + 1 + |signalName| && |r[1].path| == |ccdbPath| + 1 + |sigmaName|
              && r[0].path[|ccdbPath| + 1..] == signalName && r[1].path[|ccdbPath| + 1..] == sigmaName
              && r[0].path[..|ccdbPath| + 1] == r[1].path[..|ccdbPath| + 1] == ccdbPath + "/"
              && r[0].timestamp == r[1].timestamp == timestamp
  {
    if paramFile != "" then
      [FromFile(paramFile, signalName, Signal), FromFile(paramFile, sigmaName, Sigma)]
    else
      var p0 := StorePath(ccdbPath, signalName);
      var p1 := StorePath(ccdbPath, sigmaName);
      assert p0[..|ccdbPath| + 1] == ccdbPath + "/";
      assert p1[..|ccdbPath| + 1] == ccdbPath + "/";
      [FromStore(p0, timestamp, Signal), FromStore(p1, timestamp, Sigma)]
  }

  // ---------------------------------------------------------------------------
  // Table filling

  /** One row of a species table: expected sigma and separation of one track. */
  datatype PidRow = PidRow(expSigma: real, separation: real)

  /** The detector response, a collaborator: expected sigma and separation of
      a track under a mass hypothesis. */
  datatype Response<!Track> = Response(expSigma: (Species, Track) -> real,
                                       separation: (Species, Track) -> real)

  function RowOf<Track>(response: Response<Track>, s: Species, trk: Track): PidRow {
    PidRow(response.expSigma(s, trk), response.separation(s, trk))
  }

  /** The rows for species `s`, one per track, in track order. */
  function Rows<Track>(response: Response<Track>, s: Species, tracks: seq<Track>): seq<PidRow>
    decreases |tracks|
  {
    if tracks == [] then []
    else Rows(response, s, tracks[..|tracks| - 1]) + [RowOf(response, s, tracks[|tracks| - 1])]
  }

  lemma {:induction false} RowsAt<Track>(response: Response<Track>, s: Species, tracks: seq<Track>)
    ensures |Rows(response, s, tracks)| == |tracks|
    ensures forall i :: 0 <= i < |tracks| ==> Rows(response, s, tracks)[i] == RowOf(response, s, tracks[i])
    decreases |tracks|
  {
    if tracks != [] {
      RowsAt(response, s, tracks[..|tracks| - 1]);
    }
  }

  /** What `makeTable` appends for a species: all its rows when the flag is exactly 1, nothing otherwise. */
  function Emitted<Track>(flag: int, response: Response<Track>, s: Species, tracks: seq<Track>): seq<PidRow> {
    if flag == OnFlag then Rows(response, s, tracks) else []
  }

  /** The tables after `makeTable` for species `s` under flag `flag`. */
  function Fill<Track>(tables: PerSpecies<seq<PidRow>>, s: Species, flag: int, response: Response<Track>,
                       tracks: seq<Track>): PerSpecies<seq<PidRow>> {
    With(tables, s, Get(tables, s) + Emitted(flag, response, s, tracks))
  }

  /** The tables after `makeTable` for every species, in the fixed species order. */
  function FillAll<Track>(tables: PerSpecies<seq<PidRow>>, flags: PerSpecies<int>, response: Response<Track>,
                          tracks: seq<Track>): PerSpecies<seq<PidRow>> {
    var t := Fill(tables, El, flags.el, response, tracks);
    var t := Fill(t, Mu, flags.mu, response, tracks);
    var t := Fill(t, Pi, flags.pi, response, tracks);
    var t := Fill(t, Ka, flags.ka, response, tracks);
    var t := Fill(t, Pr, flags.pr, response, tracks);
    var t := Fill(t, De, flags.de, response, tracks);
    var t := Fill(t, Tr, flags.tr, response, tracks);
    var t := Fill(t, He, flags.he, response, tracks);
    Fill(t, Al, flags.al, response, tracks)
  }

  /** `process` appends to each species' table exactly what its own flag asks
      for; no table depends on another species' flag or table. */
  lemma FillAllAt<Track>(tables: PerSpecies<seq<PidRow>>, flags: PerSpecies<int>, response: Response<Track>,
                         tracks: seq<Track>, s: Species)
    ensures Get(FillAll(tables, flags, response, tracks), s) == Get(tables, s) + Emitted(Get(flags, s), response, s, tracks)
  {
    match s
    case El =>
    case Mu =>
    case Pi =>
    case Ka =>
    case Pr =>
    case De =>
    case Tr =>
    case He =>
    case Al =>
  }

  /** `makeTable` appends exactly one row per track, in track order, when the
      flag is 1, and nothing for any other value (an unresolved -1, a 2, ...). */
  lemma EmittedShape<Track>(flag: int, response: Response<Track>, s: Species, tracks: seq<Track>)
    ensures |Emitted(flag, response, s, tracks)| == if flag == OnFlag then |tracks| else 0
    ensures flag == OnFlag ==>
              forall i :: 0 <= i < |tracks| ==>
                Emitted(flag, response, s, tracks)[i] == RowOf(response, s, tracks[i])
  {
    RowsAt(response, s, tracks);
  }

  /** A species left on automatic with no consumer of its table produces no rows at all. */
  lemma {:induction false} UnrequestedAutoEmitsNothing<Track>(bindings: seq<string>, response: Response<Track>,
                                                              s: Species, tracks: seq<Track>)
    requires TableName(s) !in bindings
    ensures Emitted(ResolveFlag(AutoFlag, bindings, s), response, s, tracks) == []
  {
    UnmatchedFlagKept(AutoFlag, bindings, s);
  }

  /** The analysis task: its nine flags, the parametrization loads `init` asked for and the nine output tables. */
  class TpcPidFull {
    var flags: PerSpecies<int>
    var paramLoads: seq<LoadRequest>
    var tables: PerSpecies<seq<PidRow>>

    /** The configured flag values; every table starts empty. */
    constructor (configured: PerSpecies<int>)
      ensures flags == configured && paramLoads == []
      ensures forall s: Species :: Get(tables, s) == []
    {
      flags := configured;
      paramLoads := [];
      tables := PerSpecies([], [], [], [], [], [], [], [], []);
    }

    /** The `enableFlag` step for one input binding and one species. */
    method EnableFlag(binding: string, s: Species)
      modifies this`flags
      ensures flags == With(old(flags), s, StepFlag(Get(old(flags), s), binding, s))
    {
      var table := "pidTPCFull" + Suffix(s);
      if binding == table {
        var flag := Get(flags, s);
        if flag < 0 {
          flags := With(flags, s, 1);
        } else if flag > 0 {
          flags := With(flags, s, 1);
        }
      }
    }

    /** The nine `enableFlag` calls made for one input, in the fixed species order. */
    method EnableAll(binding: string)
      modifies this`flags
      ensures flags == StepAll(old(flags), binding)
    {
      EnableFlag(binding, El);
      EnableFlag(binding, Mu);
      EnableFlag(binding, Pi);
      EnableFlag(binding, Ka);
      EnableFlag(binding, Pr);
      EnableFlag(binding, De);
      EnableFlag(binding, Tr);
      EnableFlag(binding, He);
      EnableFlag(binding, Al);
    }

    /** The `enableFlag` calls for every input of one device, in order. */
    method EnableDevice(inputs: seq<string>)
      modifies this`flags
      ensures flags == ResolveAll(old(flags), inputs)
    {
      ghost var start := flags;
      var j := 0;
      while j < |inputs|
        invariant 0 <= j <= |inputs|
        invariant flags == ResolveAll(start, inputs[..j])
      {
        EnableAll(inputs[j]);
        assert inputs[..j + 1][..j] == inputs[..j];
        j := j + 1;
      }
      assert inputs[..j] == inputs;
    }

    /** Where the parametrization is loaded from: the file when one is
        configured, otherwise the store, signal first and then sigma. */
    method LoadParams(paramFile: string, signalName: string, sigmaName: string, ccdbPath: string, timestamp: int)
      modifies this`paramLoads
      ensures paramLoads == ParamLoads(paramFile, signalName, sigmaName, ccdbPath, timestamp)
    {
      if paramFile != "" {
        paramLoads := [FromFile(paramFile, signalName, Signal), FromFile(paramFile, sigmaName, Sigma)];
      } else {
        var path := ccdbPath + "/" + signalName;
        var first := FromStore(path, timestamp, Signal);
        path := ccdbPath + "/" + sigmaName;
        paramLoads := [first, FromStore(path, timestamp, Sigma)];
      }
    }

    /** `init`: visit every input of every device, then choose where the
        parametrization comes from. */
    method Init(devices: seq<seq<string>>, paramFile: string, signalName: string, sigmaName: string,
                ccdbPath: string, timestamp: int)
      modifies this`flags, this`paramLoads
      ensures flags == ResolveAll(old(flags), Bindings(devices))
      ensures forall s: Species :: Get(flags, s) == ResolveFlag(Get(old(flags), s), Bindings(devices), s)
      ensures paramLoads == ParamLoads(paramFile, signalName, sigmaName, ccdbPath, timestamp)
    {
      ghost var start := flags;
      var i := 0;
      while i < |devices|
        invariant 0 <= i <= |devices|
        invariant flags == ResolveAll(start, Bindings(devices[..i]))
      {
        EnableDevice(devices[i]);
        assert devices[..i + 1][..i] == devices[..i];
        ResolveAllAppend(start, Bindings(devices[..i]), devices[i]);
        i := i + 1;
      }
      assert devices[..i] == devices;
      forall s: Species
        ensures Get(flags, s) == ResolveFlag(Get(start, s), Bindings(devices), s)
      {
        ResolveAllMeaning(start, Bindings(devices), s);
      }
      LoadParams(paramFile, signalName, sigmaName, ccdbPath, timestamp);
    }

    /** `makeTable` for one species and its flag: when the flag is 1, one row per track is appended in track order. */
    method MakeTable<Track>(s: Species, flag: int, response: Response<Track>, tracks: seq<Track>)
      modifies this`tables
      ensures tables == Fill(old(tables), s, flag, response, tracks)
    {
      ghost var start := tables;
      if flag == 1 {
        var k := 0;
        assert Get(start, s) + Rows(response, s, tracks[..0]) == Get(start, s);
        GetWith(start, s, Get(start, s), Get(start, s));
        while k < |tracks|
          invariant 0 <= k <= |tracks|
          invariant tables == With(start, s, Get(start, s) + Rows(response, s, tracks[..k]))
        {
          assert tracks[..k + 1][..k] == tracks[..k];
          ghost var before := Get(start, s) + Rows(response, s, tracks[..k]);
          ghost var after := before + [RowOf(response, s, tracks[k])];
          GetWith(start, s, before, after);
          tables := With(tables, s, Get(tables, s) + [PidRow(response.expSigma(s, tracks[k]), response.separation(s, tracks[k]))]);
          assert after == Get(start, s) + Rows(response, s, tracks[..k + 1]);
          k := k + 1;
        }
        assert tracks[..k] == tracks;
      } else {
        assert Get(start, s) + [] == Get(start, s);
        GetWith(start, s, Get(start, s), Get(start, s));
      }
    }

    /** `process`: `makeTable` for each of the nine species, in the fixed species order. */
    method Process<Track>(response: Response<Track>, tracks: seq<Track>)
      modifies this`tables
      ensures tables == FillAll(old(tables), flags, response, tracks)
    {
      var f := flags;
      MakeTable(El, f.el, response, tracks);
      MakeTable(Mu, f.mu, response, tracks);
      MakeTable(Pi, f.pi, response, tracks);
      MakeTable(Ka, f.ka, response, tracks);
      MakeTable(Pr, f.pr, response, tracks);
      MakeTable(De, f.de, response, tracks);
      MakeTable(Tr, f.tr, response, tracks);
      MakeTable(He, f.he, response, tracks);
      MakeTable(Al, f.al, response, tracks);
    }
  }
}
