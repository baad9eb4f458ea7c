/**
  The tool-call dispatcher: an operation name and an argument bag map to a
  reply payload, a JSON error payload (unknown frequency name, unknown tool),
  or a fault the call raises (missing or unusable argument, zero
  denominator, list index out of range). Optional arguments that are absent
  take their defaults; the JSON text wrapping is not modelled, so payloads
  are structured values.
 */
module Tools {

  import opened Outcomes
  import opened Irrationals
  import opened WellTones
  import opened Calculations
  import opened SortedSets

  /** A decoded JSON argument value. */
  datatype Value =
    | VInt(i: int)
    | VReal(r: real)
    | VBool(b: bool)
    | VStr(s: string)
    | VIntList(items: seq<int>)

  /** The arguments object exactly as the caller sent it. */
  type Json = map<string, Value>

  /** The argument names the operations read. */
  datatype Key =
    | FrequencyName
    | BaseFrequency
    | HarmonicsCount
    | Numerator
    | Denominator
    | FibonacciIndex
    | Primes
    | Count
    | QuantumLevel
    | Depth
    | Steps
    | IncludeFibonacci
    | IncludeGoldenRatio
    | IncludePrimes
    | MatrixSize

  /** The name each argument travels under in the arguments object. */
  function KeyName(key: Key): string {
    match key
    case FrequencyName => "frequency_name"
    case BaseFrequency => "base_frequency"
    case HarmonicsCount => "harmonics_count"
    case Numerator => "numerator"
    case Denominator => "denominator"
    case FibonacciIndex => "fibonacci_index"
    case Primes => "primes"
    case Count => "count"
    case QuantumLevel => "quantum_level"
    case Depth => "depth"
    case Steps => "steps"
    case IncludeFibonacci => "include_fibonacci"
    case IncludeGoldenRatio => "include_golden_ratio"
    case IncludePrimes => "include_primes"
    case MatrixSize => "matrix_size"
  }

  const AllKeys: set<Key> := {
    FrequencyName, BaseFrequency, HarmonicsCount, Numerator, Denominator, FibonacciIndex, Primes, Count,
    QuantumLevel, Depth, Steps, IncludeFibonacci, IncludeGoldenRatio, IncludePrimes, MatrixSize
  }

  lemma KeyListed(key: Key)
    ensures key in AllKeys
  {
    match key
    case FrequencyName =>
    case BaseFrequency =>
    case HarmonicsCount =>
    case Numerator =>
    case Denominator =>
    case FibonacciIndex =>
    case Primes =>
    case Count =>
    case QuantumLevel =>
    case Depth =>
    case Steps =>
    case IncludeFibonacci =>
    case IncludeGoldenRatio =>
    case IncludePrimes =>
    case MatrixSize =>
  }

  /** The arguments the operations can read, by argument. */
  type Arguments = map<Key, Value>

  /** The part of an arguments object the operations can see: every entry under a name some operation reads. */
  function Decode(json: Json): (args: Arguments)
    ensures forall key :: key in args <==> KeyName(key) in json
    ensures forall key :: key in args ==> args[key] == json[KeyName(key)]
  {
    assert forall key :: key in AllKeys by {
      forall key: Key
        ensures key in AllKeys
      {
        KeyListed(key);
      }
    }
    map key | key in AllKeys && KeyName(key) in json :: json[KeyName(key)]
  }

  /** The structured content of a successful reply; every argument a reply echoes is echoed as sent. */
  datatype Payload =
    | WellToneFound(name: string, hz: real)
    | AllWellTones(chakras: seq<Entry>, solfeggio: seq<Entry>, earthResonance: seq<Entry>,
                   brainwaves: seq<Entry>, special: seq<Entry>)
    | ChakraFrequencies(chakras: seq<Entry>)
    | Harmonics(base: Value, harmonics: seq<real>, count: nat)
    | Pythagorean(base: Value, numerator: Value, denominator: Value, frequency: real)
    | Fibonacci(base: Value, index: Value, frequency: real)
    | GoldenRatio(base: Value, frequency: real, phi: real)
    | PrimeHarmonicSet(base: Value, primesUsed: seq<int>, harmonics: seq<real>)
    | PhiSpiralSet(base: Value, frequencies: seq<real>, count: nat)
    | Quantum(base: Value, level: Value, frequency: real)
    | Fractal(base: Value, depth: Value, frequencies: seq<real>, count: nat)
    | Cascade(base: Value, steps: Value, cascade: seq<real>)
    | Matrix(base: Value, size: nat, matrix: seq<real>, fibonacci: Value, goldenRatio: Value, primes: Value)

  /** The error payloads the dispatcher returns as ordinary replies. */
  datatype ErrorPayload =
    | FrequencyNotFound(requested: Value, available: seq<string>)
    | UnknownTool(name: string)

  datatype Outcome =
    | Reply(payload: Payload)
    | ErrorReply(error: ErrorPayload)
    | Raised(fault: Fault)

  /** The thirteen registered operations. */
  datatype Tool =
    | GetWellToneFrequency
    | ListAllWellTones
    | GetChakraFrequencies
    | CalculateHarmonicSeries
    | CalculatePythagoreanFrequency
    | CalculateFibonacciFrequency
    | CalculateGoldenRatioFrequency
    | CalculatePrimeHarmonics
    | GeneratePhiSpiralFrequencies
    | CalculateQuantumHarmonic
    | GenerateFractalFrequencies
    | CalculateResonanceCascade
    | GenerateCustomFrequencyMatrix

  /** The name each operation is registered and called under. */
  function ToolName(t: Tool): string {
    match t
    case GetWellToneFrequency => "get_well_tone_frequency"
    case ListAllWellTones => "list_all_well_tones"
    case GetChakraFrequencies => "get_chakra_frequencies"
    case CalculateHarmonicSeries => "calculate_harmonic_series"
    case CalculatePythagoreanFrequency => "calculate_pythagorean_frequency"
    case CalculateFibonacciFrequency => "calculate_fibonacci_frequency"
    case CalculateGoldenRatioFrequency => "calculate_golden_ratio_frequency"
    case CalculatePrimeHarmonics => "calculate_prime_harmonics"
    case GeneratePhiSpiralFrequencies => "generate_phi_spiral_frequencies"
    case CalculateQuantumHarmonic => "calculate_quantum_harmonic"
    case GenerateFractalFrequencies => "generate_fractal_frequencies"
    case CalculateResonanceCascade => "calculate_resonance_cascade"
    case GenerateCustomFrequencyMatrix => "generate_custom_frequency_matrix"
  }

  /** The operations in registration order. */
  const AllTools: seq<Tool> := [
    GetWellToneFrequency, ListAllWellTones, GetChakraFrequencies,
    CalculateHarmonicSeries, CalculatePythagoreanFrequency, CalculateFibonacciFrequency,
    CalculateGoldenRatioFrequency, CalculatePrimeHarmonics, GeneratePhiSpiralFrequencies,
    CalculateQuantumHarmonic, GenerateFractalFrequencies, CalculateResonanceCascade,
    GenerateCustomFrequencyMatrix
  ]

  /** Where each operation stands in the registration order. */
  function RegistrationIndex(t: Tool): (i: nat)
    ensures i < |AllTools| && AllTools[i] == t
  {
    match t
    case GetWellToneFrequency => 0
    case ListAllWellTones => 1
    case GetChakraFrequencies => 2
    case CalculateHarmonicSeries => 3
    case CalculatePythagoreanFrequency => 4
    case CalculateFibonacciFrequency => 5
    case CalculateGoldenRatioFrequency => 6
    case CalculatePrimeHarmonics => 7
    case GeneratePhiSpiralFrequencies => 8
    case CalculateQuantumHarmonic => 9
    case GenerateFractalFrequencies => 10
    case CalculateResonanceCascade => 11
    case GenerateCustomFrequencyMatrix => 12
  }

  /** The registered names, in registration order. */
  const ToolNames: seq<string> := seq(|AllTools|, i requires 0 <= i < |AllTools| => ToolName(AllTools[i]))

  /** The operation a name selects, if any: the chain of name comparisons in the dispatcher. */
  function Parse(name: string): (r: Option<Tool>)
    ensures r.Some? ==> ToolName(r.value) == name
    ensures r.None? <==> forall t :: ToolName(t) != name
  {
    if name == ToolName(GetWellToneFrequency) then Some(GetWellToneFrequency)
    else if name == ToolName(ListAllWellTones) then Some(ListAllWellTones)
    else if name == ToolName(GetChakraFrequencies) then Some(GetChakraFrequencies)
    else if name == ToolName(CalculateHarmonicSeries) then Some(CalculateHarmonicSeries)
    else if name == ToolName(CalculatePythagoreanFrequency) then Some(CalculatePythagoreanFrequency)
    else if name == ToolName(CalculateFibonacciFrequency) then Some(CalculateFibonacciFrequency)
    else if name == ToolName(CalculateGoldenRatioFrequency) then Some(CalculateGoldenRatioFrequency)
    else if name == ToolName(CalculatePrimeHarmonics) then Some(CalculatePrimeHarmonics)
    else if name == ToolName(GeneratePhiSpiralFrequencies) then Some(GeneratePhiSpiralFrequencies)
    else if name == ToolName(CalculateQuantumHarmonic) then Some(CalculateQuantumHarmonic)
    else if name == ToolName(GenerateFractalFrequencies) then Some(GenerateFractalFrequencies)
    else if name == ToolName(CalculateResonanceCascade) then Some(CalculateResonanceCascade)
    else if name == ToolName(GenerateCustomFrequencyMatrix) then Some(GenerateCustomFrequencyMatrix)
    else None
  }

  /** The length and eleventh character of each registered name, which tell the names apart. */
  function Signature(t: Tool): (nat, char) {
    match t
    case GetWellToneFrequency => (23, 'o')
    case ListAllWellTones => (19, 'e')
    case GetChakraFrequencies => (22, '_')
    case CalculateHarmonicSeries => (25, 'h')
    case CalculatePythagoreanFrequency => (31, 'p')
    case CalculateFibonacciFrequency => (29, 'f')
    case CalculateGoldenRatioFrequency => (32, 'g')
    case CalculatePrimeHarmonics => (25, 'p')
    case GeneratePhiSpiralFrequencies => (31, 'h')
    case CalculateQuantumHarmonic => (26, 'q')
    case GenerateFractalFrequencies => (28, 'r')
    case CalculateResonanceCascade => (27, 'r')
    case GenerateCustomFrequencyMatrix => (32, 'u')
  }

  lemma NameSignature(t: Tool)
    ensures |ToolName(t)| == Signature(t).0 && ToolName(t)[10] == Signature(t).1
  {
  }

  /** Different operations are registered under different names. */
  lemma ToolNameInjective(t: Tool, u: Tool)
    ensures ToolName(t) == ToolName(u) ==> t == u
  {
    NameSignature(t);
    NameSignature(u);
    if ToolName(t) == ToolName(u) {
      assert Signature(t) == Signature(u);
    }
  }

  // ---------------------------------------------------------------------------
  // Reading arguments

  /** arguments.get(key, default). */
  function Get(args: Arguments, key: Key, default: Value): Value {
    if key in args then args[key] else default
  }

  /** The first of `keys` absent from the bag: the KeyError the lookups would raise. */
  function FirstMissing(args: Arguments, keys: seq<Key>): (r: Option<Key>)
    ensures r.None? <==> forall i :: 0 <= i < |keys| ==> keys[i] in args
    ensures r.Some? ==> r.value in keys && r.value !in args
    ensures r.Some? ==> exists i :: 0 <= i < |keys| && keys[i] == r.value && forall j :: 0 <= j < i ==> keys[j] in args
  {
    if |keys| == 0 then None
    else if keys[0] !in args then Some(keys[0])
    else FirstMissing(args, keys[1..])
  }

  /** A value usable as a real number (Python int, float or bool). */
  function AsReal(v: Value): Option<real> {
    match v
    case VInt(i) => Some(i as real)
    case VReal(r) => Some(r)
    case VBool(b) => Some(if b then 1.0 else 0.0)
    case _ => None
  }

  /** A value usable as an integer count or index (Python int or bool). */
  function AsInt(v: Value): Option<int> {
    match v
    case VInt(i) => Some(i)
    case VBool(b) => Some(if b then 1 else 0)
    case _ => None
  }

  /** Python truthiness, as an `if` on the value sees it. */
  function Truthy(v: Value): bool {
    match v
    case VInt(i) => i != 0
    case VReal(r) => r != 0.0
    case VBool(b) => b
    case VStr(s) => s != ""
    case VIntList(items) => items != []
  }

  /** The required arguments of each operation, in the order its handler reads them. */
  function Required(t: Tool): seq<Key> {
    match t
    case GetWellToneFrequency => []
    case ListAllWellTones => []
    case GetChakraFrequencies => []
    case CalculatePythagoreanFrequency => [BaseFrequency, Numerator, Denominator]
    case CalculateFibonacciFrequency => [BaseFrequency, FibonacciIndex]
    case CalculateQuantumHarmonic => [BaseFrequency, QuantumLevel]
    case _ => [BaseFrequency]
  }

  /** The default each optional argument takes when absent. */
  function Default(t: Tool, key: Key): Option<Value> {
    match t
    case GetWellToneFrequency => if key == FrequencyName then Some(VStr("")) else None
    case CalculateHarmonicSeries => if key == HarmonicsCount then Some(VInt(10)) else None
    case CalculatePrimeHarmonics => if key == Primes then Some(VIntList(DefaultPrimes)) else None
    case GeneratePhiSpiralFrequencies => if key == Count then Some(VInt(10)) else None
    case GenerateFractalFrequencies => if key == Depth then Some(VInt(5)) else None
    case CalculateResonanceCascade => if key == Steps then Some(VInt(7)) else None
    case GenerateCustomFrequencyMatrix =>
      if key == IncludeFibonacci || key == IncludeGoldenRatio || key == IncludePrimes then Some(VBool(true))
      else if key == MatrixSize then Some(VInt(8))
      else None
    case _ => None
  }

  /** The value an optional argument is read as: the supplied one, else the default. */
  function Optional(args: Arguments, t: Tool, key: Key): Value
    requires Default(t, key).Some?
  {
    Get(args, key, Default(t, key).value)
  }

  // ---------------------------------------------------------------------------
  // Handlers

  /** get_well_tone_frequency: a tabulated string name answers with its frequency; any other hashable name gets the not-found error. */
  function RunWellToneLookup(args: Arguments): (r: Outcome)
    ensures var v := Optional(args, GetWellToneFrequency, FrequencyName);
            && (r.Reply? <==> v.VStr? && v.s in Names())
            && (r.Reply? ==> r.payload.WellToneFound? && VStr(r.payload.name) == v && Entry(r.payload.name, r.payload.hz) in Table)
            && (r.Raised? <==> v.VIntList?)
            && (r.ErrorReply? ==> r.error == FrequencyNotFound(v, Names()))
  {
    var requested := Optional(args, GetWellToneFrequency, FrequencyName);
    match requested
    case VStr(name) =>
      if Lookup(name).Some? then Reply(WellToneFound(name, Lookup(name).value))
      else ErrorReply(FrequencyNotFound(requested, Names()))
    // A list is unhashable, so the membership test itself raises.
    case VIntList(_) => Raised(MalformedArgument(KeyName(FrequencyName)))
    case _ => ErrorReply(FrequencyNotFound(requested, Names()))
  }

  /** list_all_well_tones: each category holds exactly the table entries its rule admits. */
  function RunListing(): (r: Outcome)
    ensures r.Reply? && r.payload.AllWellTones?
    ensures forall e {:trigger e in r.payload.chakras} :: e in r.payload.chakras <==> e in Table && InCategory(Chakras, e.name)
    ensures forall e {:trigger e in r.payload.solfeggio} :: e in r.payload.solfeggio <==> e in Table && InCategory(Solfeggio, e.name)
    ensures forall e {:trigger e in r.payload.earthResonance} :: e in r.payload.earthResonance <==> e in Table && InCategory(EarthResonance, e.name)
    ensures forall e {:trigger e in r.payload.brainwaves} :: e in r.payload.brainwaves <==> e in Table && InCategory(Brainwaves, e.name)
    ensures forall e {:trigger e in r.payload.special} :: e in r.payload.special <==> e in Table && InCategory(Special, e.name)
  {
    Reply(AllWellTones(View(Chakras), View(Solfeggio), View(EarthResonance), View(Brainwaves), View(Special)))
  }

  /** get_chakra_frequencies: exactly the table entries named like a chakra. */
  function RunChakras(): (r: Outcome)
    ensures r.Reply? && r.payload.ChakraFrequencies?
    ensures forall e {:trigger e in r.payload.chakras} :: e in r.payload.chakras <==> e in Table && InCategory(Chakras, e.name)
  {
    Reply(ChakraFrequencies(Select(Table, Chakras)))
  }

  /** calculate_harmonic_series: the multiples base, 2*base, ... of a numeric base, for a whole count. */
  function RunHarmonicSeries(args: Arguments): (r: Outcome)
    requires BaseFrequency in args
    ensures var base := AsReal(args[BaseFrequency]);
            var count := AsInt(Optional(args, CalculateHarmonicSeries, HarmonicsCount));
            && (r.Reply? <==> base.Some? && count.Some?)
            && (!r.Reply? ==> r.Raised? && r.fault.MalformedArgument?)
            && (r.Reply? ==>
                 && r.payload.Harmonics? && r.payload.base == args[BaseFrequency]
                 && r.payload.count == |r.payload.harmonics| == RangeLength(count.value)
                 && forall i :: 0 <= i < |r.payload.harmonics| ==> r.payload.harmonics[i] == base.value * (i + 1) as real)
  {
    var base := AsReal(args[BaseFrequency]);
    var count := AsInt(Optional(args, CalculateHarmonicSeries, HarmonicsCount));
    if base.None? then Raised(MalformedArgument(KeyName(BaseFrequency)))
    else if count.None? then Raised(MalformedArgument(KeyName(HarmonicsCount)))
    else
      var h := HarmonicSeries(base.value, count.value);
      Reply(Harmonics(args[BaseFrequency], h, |h|))
  }

  /**
    calculate_pythagorean_frequency: base * (num / den). The ratio is divided
    out first, so a bad numerator or denominator, or a zero denominator, is
    reported before the base is multiplied.
   */
  function RunPythagorean(args: Arguments): (r: Outcome)
    requires BaseFrequency in args && Numerator in args && Denominator in args
    ensures var base := AsReal(args[BaseFrequency]);
            var num := AsReal(args[Numerator]);
            var den := AsReal(args[Denominator]);
            && (num.Some? && den.Some? ==> (r == Raised(ZeroDivision) <==> den.value == 0.0))
            && (r.Reply? ==>
                 && base.Some? && num.Some? && den.Some?
                 && r.payload.Pythagorean?
                 && r.payload == Pythagorean(args[BaseFrequency], args[Numerator], args[Denominator], r.payload.frequency)
                 && r.payload.frequency * den.value == base.value * num.value)
            && (r.Raised? && r.fault.MalformedArgument? <==> num.None? || den.None? || (base.None? && den.value != 0.0))
            && (num.Some? && den.Some? && den.value != 0.0 && base.None? ==>
                 r == Raised(MalformedArgument(KeyName(BaseFrequency))))
            && (base.Some? && num.Some? && den.Some? && den.value != 0.0 ==> r.Reply?)
  {
    var base := AsReal(args[BaseFrequency]);
    var num := AsReal(args[Numerator]);
    var den := AsReal(args[Denominator]);
    if num.None? then Raised(MalformedArgument(KeyName(Numerator)))
    else if den.None? then Raised(MalformedArgument(KeyName(Denominator)))
    else
      // Only the ratio's fault can arise before the base is touched.
      match PythagoreanRatio(if base.Some? then base.value else 0.0, num.value, den.value)
      case Err(f) => Raised(f)
      case Ok(freq) =>
        if base.None? then Raised(MalformedArgument(KeyName(BaseFrequency)))
        else Reply(Pythagorean(args[BaseFrequency], args[Numerator], args[Denominator], freq))
  }

  /**
    calculate_fibonacci_frequency: the index is compared and looked up before
    the base is multiplied. A whole index goes through the table lookup; a
    float index past the end clamps like a whole one, and any other float
    reaches the list subscript, which rejects it.
   */
  function RunFibonacci(args: Arguments): (r: Outcome)
    requires BaseFrequency in args && FibonacciIndex in args
    ensures var base := AsReal(args[BaseFrequency]);
            var index := args[FibonacciIndex];
            && (r.Reply? ==>
                 && base.Some? && r.payload.Fibonacci?
                 && r.payload.base == args[BaseFrequency] && r.payload.index == index)
            && (AsInt(index).Some? ==> (r == Raised(IndexOutOfRange(AsInt(index).value)) <==> AsInt(index).value < -12))
            && (base.Some? && AsInt(index).Some? ==>
                 && (r.Reply? <==> AsInt(index).value >= -12)
                 && (r.Raised? <==> AsInt(index).value < -12)
                 && (r.Reply? ==> r.payload.frequency == FibonacciFrequency(base.value, AsInt(index).value).value))
            && (base.Some? && index.VReal? ==>
                 && (r.Reply? <==> index.r >= 12.0)
                 && (r.Reply? ==> r.payload.frequency == base.value * 144.0))
            && (AsInt(index).None? && !(index.VReal? && index.r >= 12.0) ==>
                 r == Raised(MalformedArgument(KeyName(FibonacciIndex))))
            && (base.None? ==> r.Raised?)
  {
    var base := AsReal(args[BaseFrequency]);
    var index := args[FibonacciIndex];
    // Only the index's fault can arise before the base is touched.
    var b := if base.Some? then base.value else 0.0;
    if AsInt(index).Some? then
      match FibonacciFrequency(b, AsInt(index).value)
      case Err(f) => Raised(f)
      case Ok(freq) =>
        if base.None? then Raised(MalformedArgument(KeyName(BaseFrequency)))
        else Reply(Fibonacci(args[BaseFrequency], index, freq))
    else if index.VReal? && FibonacciFrequencyOfReal(b, index.r).Some? then
      if base.None? then Raised(MalformedArgument(KeyName(BaseFrequency)))
      else
        var freq := FibonacciFrequencyOfReal(b, index.r).value;
        assert freq == FibonacciFrequency(b, 12).value;
        Reply(Fibonacci(args[BaseFrequency], index, freq))
    else Raised(MalformedArgument(KeyName(FibonacciIndex)))
  }

  /** calculate_golden_ratio_frequency: the frequency cutting the base in the golden section. */
  function RunGoldenRatio(k: Constants, args: Arguments): (r: Outcome)
    requires k.Valid()
    requires BaseFrequency in args
    ensures var base := AsReal(args[BaseFrequency]);
            && (r.Reply? <==> base.Some?)
            && (!r.Reply? ==> r == Raised(MalformedArgument(KeyName(BaseFrequency))))
            && (r.Reply? ==>
                 && r.payload.GoldenRatio? && r.payload.base == args[BaseFrequency] && r.payload.phi == k.phi
                 && r.payload.frequency * r.payload.frequency == base.value * r.payload.frequency + base.value * base.value)
  {
    var base := AsReal(args[BaseFrequency]);
    if base.None? then Raised(MalformedArgument(KeyName(BaseFrequency)))
    else Reply(GoldenRatio(args[BaseFrequency], GoldenRatioFrequency(k, base.value), k.phi))
  }

  /** calculate_prime_harmonics: the base scaled by each listed prime, in order. */
  function RunPrimeHarmonics(args: Arguments): (r: Outcome)
    requires BaseFrequency in args
    ensures var base := AsReal(args[BaseFrequency]);
            var primes := Optional(args, CalculatePrimeHarmonics, Primes);
            && (r.Reply? <==> base.Some? && primes.VIntList?)
            && (!r.Reply? ==> r.Raised? && r.fault.MalformedArgument?)
            && (r.Reply? ==>
                 && r.payload.PrimeHarmonicSet? && r.payload.base == args[BaseFrequency]
                 && r.payload.primesUsed == primes.items && |r.payload.harmonics| == |primes.items|
                 && forall i :: 0 <= i < |primes.items| ==> r.payload.harmonics[i] == base.value * primes.items[i] as real)
  {
    var base := AsReal(args[BaseFrequency]);
    var primes := Optional(args, CalculatePrimeHarmonics, Primes);
    if base.None? then Raised(MalformedArgument(KeyName(BaseFrequency)))
    else if !primes.VIntList? then Raised(MalformedArgument(KeyName(Primes)))
    else Reply(PrimeHarmonicSet(args[BaseFrequency], primes.items, PrimeHarmonics(base.value, primes.items)))
  }

  /** generate_phi_spiral_frequencies: base times successive powers of phi, for a whole count. */
  function RunPhiSpiral(k: Constants, args: Arguments): (r: Outcome)
    requires k.Valid()
    requires BaseFrequency in args
    ensures var base := AsReal(args[BaseFrequency]);
            var count := AsInt(Optional(args, GeneratePhiSpiralFrequencies, Count));
            && (r.Reply? <==> base.Some? && count.Some?)
            && (!r.Reply? ==> r.Raised? && r.fault.MalformedArgument?)
            && (r.Reply? ==>
                 && r.payload.PhiSpiralSet? && r.payload.base == args[BaseFrequency]
                 && r.payload.count == |r.payload.frequencies| == RangeLength(count.value)
                 && forall i :: 0 <= i < |r.payload.frequencies| ==> r.payload.frequencies[i] == base.value * Pow(k.phi, i))
  {
    var base := AsReal(args[BaseFrequency]);
    var count := AsInt(Optional(args, GeneratePhiSpiralFrequencies, Count));
    if base.None? then Raised(MalformedArgument(KeyName(BaseFrequency)))
    else if count.None? then Raised(MalformedArgument(KeyName(Count)))
    else
      var f := PhiSpiral(k, base.value, count.value);
      Reply(PhiSpiralSet(args[BaseFrequency], f, |f|))
  }

  /** calculate_quantum_harmonic: base * level ** 2 for a numeric level. */
  function RunQuantum(args: Arguments): (r: Outcome)
    requires BaseFrequency in args && QuantumLevel in args
    ensures var base := AsReal(args[BaseFrequency]);
            var level := AsReal(args[QuantumLevel]);
            && (r.Reply? <==> base.Some? && level.Some?)
            && (!r.Reply? ==> r.Raised? && r.fault.MalformedArgument?)
            && (r.Reply? ==>
                 && r.payload.Quantum? && r.payload.base == args[BaseFrequency] && r.payload.level == args[QuantumLevel]
                 && (level.value == level.value.Floor as real ==>
                      r.payload.frequency == base.value * (level.value.Floor * level.value.Floor) as real))
  {
    var base := AsReal(args[BaseFrequency]);
    var level := AsReal(args[QuantumLevel]);
    if base.None? then Raised(MalformedArgument(KeyName(BaseFrequency)))
    else if level.None? then Raised(MalformedArgument(KeyName(QuantumLevel)))
    else Reply(Quantum(args[BaseFrequency], args[QuantumLevel], QuantumHarmonic(base.value, level.value)))
  }

  /** generate_fractal_frequencies: the distinct values of the fractal trail, ascending. */
  function RunFractal(k: Constants, args: Arguments): (r: Outcome)
    requires k.Valid()
    requires BaseFrequency in args
    ensures var base := AsReal(args[BaseFrequency]);
            var depth := AsInt(Optional(args, GenerateFractalFrequencies, Depth));
            && (r.Reply? <==> base.Some? && depth.Some?)
            && (!r.Reply? ==> r.Raised? && r.fault.MalformedArgument?)
            && (r.Reply? ==>
                 && r.payload.Fractal? && r.payload.base == args[BaseFrequency]
                 && r.payload.depth == Optional(args, GenerateFractalFrequencies, Depth)
                 && r.payload.count == |r.payload.frequencies|
                 && StrictlyAscending(r.payload.frequencies)
                 && forall x :: x in r.payload.frequencies <==> x in FractalTrail(k, base.value, RangeLength(depth.value)))
  {
    var base := AsReal(args[BaseFrequency]);
    var depth := AsInt(Optional(args, GenerateFractalFrequencies, Depth));
    if base.None? then Raised(MalformedArgument(KeyName(BaseFrequency)))
    else if depth.None? then Raised(MalformedArgument(KeyName(Depth)))
    else
      var f := FractalFrequencies(k, base.value, depth.value);
      Reply(Fractal(args[BaseFrequency], Optional(args, GenerateFractalFrequencies, Depth), f, |f|))
  }

  /** calculate_resonance_cascade: max(steps, 1) values, starting at the base. */
  function RunCascade(k: Constants, args: Arguments): (r: Outcome)
    requires k.Valid()
    requires BaseFrequency in args
    ensures var base := AsReal(args[BaseFrequency]);
            var steps := AsInt(Optional(args, CalculateResonanceCascade, Steps));
            && (r.Reply? <==> base.Some? && steps.Some?)
            && (!r.Reply? ==> r.Raised? && r.fault.MalformedArgument?)
            && (r.Reply? ==>
                 && r.payload.Cascade? && r.payload.base == args[BaseFrequency]
                 && r.payload.steps == Optional(args, CalculateResonanceCascade, Steps)
                 && |r.payload.cascade| == (if steps.value > 1 then steps.value else 1)
                 && r.payload.cascade[0] == base.value)
  {
    var base := AsReal(args[BaseFrequency]);
    var steps := AsInt(Optional(args, CalculateResonanceCascade, Steps));
    if base.None? then Raised(MalformedArgument(KeyName(BaseFrequency)))
    else if steps.None? then Raised(MalformedArgument(KeyName(Steps)))
    else Reply(Cascade(args[BaseFrequency], Optional(args, CalculateResonanceCascade, Steps), ResonanceCascade(k, base.value, steps.value)))
  }

  /**
    The whole number the matrix reads its size as. Only an enabled part reads
    the size. The Fibonacci part reads it through min(size, 12), which turns
    a float above 12 into the int 12; the phi spiral's range and the primes
    slice need an int (or bool).
   */
  function MatrixSizeRead(size: Value, fib: bool, phi: bool, primes: bool): (r: Option<int>)
    ensures AsInt(size).Some? ==> r == AsInt(size)
    ensures !fib && !phi && !primes ==> r.Some?
    ensures (phi || primes) && AsInt(size).None? ==> r.None?
    ensures fib && !phi && !primes && AsInt(size).None? ==>
              (r.Some? <==> size.VReal? && size.r > 12.0) && (r.Some? ==> r.value == 12)
  {
    if AsInt(size).Some? then AsInt(size)
    else if phi || primes then None
    else if !fib then Some(0)
    else if size.VReal? && size.r > 12.0 then Some(12)
    else None
  }

  /** generate_custom_frequency_matrix: the sorted distinct values of the parts the flags switch on. */
  function RunMatrix(k: Constants, args: Arguments): (r: Outcome)
    requires k.Valid()
    requires BaseFrequency in args
    ensures var t := GenerateCustomFrequencyMatrix;
            var base := AsReal(args[BaseFrequency]);
            var fib := Optional(args, t, IncludeFibonacci);
            var phi := Optional(args, t, IncludeGoldenRatio);
            var primes := Optional(args, t, IncludePrimes);
            var size := MatrixSizeRead(Optional(args, t, MatrixSize), Truthy(fib), Truthy(phi), Truthy(primes));
            && (r.Reply? <==> base.Some? && size.Some?)
            && (!r.Reply? ==> r.Raised? && r.fault.MalformedArgument?)
            && (r.Reply? ==>
                 && r.payload.Matrix? && r.payload.base == args[BaseFrequency]
                 && r.payload.fibonacci == fib && r.payload.goldenRatio == phi && r.payload.primes == primes
                 && r.payload.size == |r.payload.matrix|
                 && StrictlyAscending(r.payload.matrix)
                 && forall x :: x in r.payload.matrix <==>
                      || (Truthy(fib) && x in FibonacciPart(base.value, size.value))
                      || (Truthy(phi) && x in PhiSpiral(k, base.value, size.value))
                      || (Truthy(primes) && x in PrimeHarmonics(base.value, MatrixPrimes(size.value))))
  {
    var t := GenerateCustomFrequencyMatrix;
    var base := AsReal(args[BaseFrequency]);
    var fib := Optional(args, t, IncludeFibonacci);
    var phi := Optional(args, t, IncludeGoldenRatio);
    var primes := Optional(args, t, IncludePrimes);
    var size := MatrixSizeRead(Optional(args, t, MatrixSize), Truthy(fib), Truthy(phi), Truthy(primes));
    if base.None? then Raised(MalformedArgument(KeyName(BaseFrequency)))
    else if size.None? then Raised(MalformedArgument(KeyName(MatrixSize)))
    else
      var m := FrequencyMatrix(k, base.value, Truthy(fib), Truthy(phi), Truthy(primes), size.value);
      Reply(Matrix(args[BaseFrequency], |m|, m, fib, phi, primes))
  }

  /** Run the handler of an operation whose required arguments are all present. */
  function Run(k: Constants, t: Tool, args: Arguments): Outcome
    requires k.Valid()
    requires FirstMissing(args, Required(t)).None?
  {
    var req := Required(t);
    assert |req| > 0 ==> req[0] in args;
    assert |req| > 1 ==> req[1] in args;
    assert |req| > 2 ==> req[2] in args;
    match t
    case GetWellToneFrequency => RunWellToneLookup(args)
    case ListAllWellTones => RunListing()
    case GetChakraFrequencies => RunChakras()
    case CalculateHarmonicSeries => RunHarmonicSeries(args)
    case CalculatePythagoreanFrequency => RunPythagorean(args)
    case CalculateFibonacciFrequency => RunFibonacci(args)
    case CalculateGoldenRatioFrequency => RunGoldenRatio(k, args)
    case CalculatePrimeHarmonics => RunPrimeHarmonics(args)
    case GeneratePhiSpiralFrequencies => RunPhiSpiral(k, args)
    case CalculateQuantumHarmonic => RunQuantum(args)
    case GenerateFractalFrequencies => RunFractal(k, args)
    case CalculateResonanceCascade => RunCascade(k, args)
    case GenerateCustomFrequencyMatrix => RunMatrix(k, args)
  }

  /** A selected operation: raise on the first missing required argument, else run. */
  function Dispatch(k: Constants, t: Tool, args: Arguments): (r: Outcome)
    requires k.Valid()
    ensures !(r.ErrorReply? && r.error.UnknownTool?)
    ensures r.Raised? && r.fault.MissingArgument? <==> FirstMissing(args, Required(t)).Some?
    ensures FirstMissing(args, Required(t)).Some? ==>
              r == Raised(MissingArgument(KeyName(FirstMissing(args, Required(t)).value)))
  {
    match FirstMissing(args, Required(t))
    case Some(key) => Raised(MissingArgument(KeyName(key)))
    case None => Run(k, t, args)
  }

  /** call_tool: an unknown name gets an error payload naming it, a known one is dispatched. */
  function CallTool(k: Constants, name: string, json: Json): (r: Outcome)
    requires k.Valid()
    ensures r == ErrorReply(UnknownTool(name)) <==> forall t :: ToolName(t) != name
    ensures forall t :: ToolName(t) == name ==> r == Dispatch(k, t, Decode(json))
  {
    match Parse(name)
    case None => ErrorReply(UnknownTool(name))
    case Some(t) =>
      assert forall u :: ToolName(u) == name ==> u == t by {
        forall u | ToolName(u) == name
          ensures u == t
        {
          ToolNameInjective(u, t);
        }
      }
      Dispatch(k, t, Decode(json))
  }

  // ---------------------------------------------------------------------------
  // Properties of the dispatcher

  /** A name parses exactly when it is registered. */
  lemma ParseRegistered(name: string)
    ensures Parse(name).None? <==> name !in ToolNames
  {
    if name in ToolNames {
      var i :| 0 <= i < |ToolNames| && ToolNames[i] == name;
      assert ToolName(AllTools[i]) == name;
    } else {
      forall t
        ensures ToolName(t) != name
      {
        var i := RegistrationIndex(t);
        assert ToolNames[i] == ToolName(t);
      }
    }
  }

  /** Each operation's registered name parses back to that operation. */
  lemma ParseToolName(t: Tool)
    ensures Parse(ToolName(t)) == Some(t)
  {
    var r := Parse(ToolName(t));
    ToolNameInjective(r.value, t);
  }

  /** An unknown name, and only an unknown name, gets the unknown-tool error, whatever the arguments. */
  lemma UnknownToolReply(k: Constants, name: string, json: Json)
    requires k.Valid()
    ensures name !in ToolNames <==> CallTool(k, name, json) == ErrorReply(UnknownTool(name))
  {
    ParseRegistered(name);
  }

  /** Calling an operation by its registered name runs that operation. */
  lemma CallToolSelects(k: Constants, t: Tool, json: Json)
    requires k.Valid()
    ensures CallTool(k, ToolName(t), json) == Dispatch(k, t, Decode(json))
  {
    ParseToolName(t);
  }

  /**
    A base frequency that is not a number makes every call that reads it
    raise. Except where the ratio or the index is read first, the fault names
    the base.
   */
  lemma MalformedBase(k: Constants, t: Tool, args: Arguments)
    requires k.Valid()
    requires BaseFrequency in Required(t)
    requires FirstMissing(args, Required(t)).None?
    requires AsReal(args[BaseFrequency]).None?
    ensures Dispatch(k, t, args).Raised?
    ensures t != CalculatePythagoreanFrequency && t != CalculateFibonacciFrequency ==>
              Dispatch(k, t, args) == Raised(MalformedArgument(KeyName(BaseFrequency)))
  {
    assert Dispatch(k, t, args) == Run(k, t, args);
    match t
    case CalculateHarmonicSeries => assert Run(k, t, args) == RunHarmonicSeries(args);
    case CalculatePythagoreanFrequency =>
      assert Required(t)[1] in args && Required(t)[2] in args;
      assert Run(k, t, args) == RunPythagorean(args);
    case CalculateFibonacciFrequency =>
      assert Required(t)[1] in args;
      assert Run(k, t, args) == RunFibonacci(args);
    case CalculateGoldenRatioFrequency => assert Run(k, t, args) == RunGoldenRatio(k, args);
    case CalculatePrimeHarmonics => assert Run(k, t, args) == RunPrimeHarmonics(args);
    case GeneratePhiSpiralFrequencies => assert Run(k, t, args) == RunPhiSpiral(k, args);
    case CalculateQuantumHarmonic =>
      assert Required(t)[1] in args;
      assert Run(k, t, args) == RunQuantum(args);
    case GenerateFractalFrequencies => assert Run(k, t, args) == RunFractal(k, args);
    case CalculateResonanceCascade => assert Run(k, t, args) == RunCascade(k, args);
    case GenerateCustomFrequencyMatrix => assert Run(k, t, args) == RunMatrix(k, args);
  }

  /**
    With a non-numeric base, the Pythagorean operation still divides the
    ratio first: a zero denominator raises ZeroDivision, and only a usable
    ratio gets as far as rejecting the base.
   */
  lemma PythagoreanRatioFirst(k: Constants, args: Arguments, num: real, den: real)
    requires k.Valid()
    requires BaseFrequency in args && AsReal(args[BaseFrequency]).None?
    requires Numerator in args && AsReal(args[Numerator]) == Some(num)
    requires Denominator in args && AsReal(args[Denominator]) == Some(den)
    ensures var r := Dispatch(k, CalculatePythagoreanFrequency, args);
            && (den == 0.0 <==> r == Raised(ZeroDivision))
            && (den != 0.0 <==> r == Raised(MalformedArgument(KeyName(BaseFrequency))))
  {
    var t := CalculatePythagoreanFrequency;
    assert FirstMissing(args, Required(t)).None?;
    assert Dispatch(k, t, args) == Run(k, t, args) == RunPythagorean(args);
  }

  /**
    With a non-numeric base, the Fibonacci operation still reads the index
    first: a whole index below -12 raises IndexOutOfRange and a float below
    12.0 is rejected, before the base is.
   */
  lemma FibonacciIndexFirst(k: Constants, args: Arguments)
    requires k.Valid()
    requires BaseFrequency in args && AsReal(args[BaseFrequency]).None?
    requires FibonacciIndex in args
    ensures var r := Dispatch(k, CalculateFibonacciFrequency, args);
            var index := args[FibonacciIndex];
            && (AsInt(index).Some? && AsInt(index).value < -12 ==> r == Raised(IndexOutOfRange(AsInt(index).value)))
            && (AsInt(index).None? && !(index.VReal? && index.r >= 12.0) ==>
                 r == Raised(MalformedArgument(KeyName(FibonacciIndex))))
            && ((AsInt(index).Some? && AsInt(index).value >= -12) || (index.VReal? && index.r >= 12.0) <==>
                 r == Raised(MalformedArgument(KeyName(BaseFrequency))))
  {
    var t := CalculateFibonacciFrequency;
    assert FirstMissing(args, Required(t)).None?;
    assert Dispatch(k, t, args) == Run(k, t, args) == RunFibonacci(args);
  }

  /** Adding a key the list does not mention leaves the first missing key unchanged. */
  lemma {:induction false} FirstMissingIgnores(args: Arguments, keys: seq<Key>, key: Key, v: Value)
    requires key !in keys
    ensures FirstMissing(args[key := v], keys) == FirstMissing(args, keys)
  {
    if |keys| > 0 {
      FirstMissingIgnores(args, keys[1..], key, v);
    }
  }

  /** Leaving an optional argument out is the same as passing its default. */
  lemma AbsentMeansDefault(k: Constants, t: Tool, args: Arguments, key: Key)
    requires k.Valid()
    requires Default(t, key).Some?
    requires key !in args
    ensures Dispatch(k, t, args) == Dispatch(k, t, args[key := Default(t, key).value])
  {
    var d := Default(t, key).value;
    var args' := args[key := d];
    OptionalNotRequired(t, key);
    FirstMissingIgnores(args, Required(t), key, d);
    if FirstMissing(args, Required(t)).None? {
      forall other | Default(t, other).Some?
        ensures Optional(args', t, other) == Optional(args, t, other)
      {
      }
      RunAgrees(k, t, args, args');
    }
  }

  /** No argument is both required and defaulted. */
  lemma OptionalNotRequired(t: Tool, key: Key)
    requires Default(t, key).Some?
    ensures key !in Required(t)
  {
  }

  /** A handler reads only the required arguments and the optional ones through their defaults. */
  lemma RunAgrees(k: Constants, t: Tool, a: Arguments, b: Arguments)
    requires k.Valid()
    requires FirstMissing(a, Required(t)).None? && FirstMissing(b, Required(t)).None?
    requires forall key :: key in Required(t) ==> key in a && key in b && a[key] == b[key]
    requires forall key :: Default(t, key).Some? ==> Optional(a, t, key) == Optional(b, t, key)
    ensures Run(k, t, a) == Run(k, t, b)
  {
    var req := Required(t);
    assert |req| > 0 ==> a[req[0]] == b[req[0]];
    assert |req| > 1 ==> a[req[1]] == b[req[1]];
    assert |req| > 2 ==> a[req[2]] == b[req[2]];
    if t.GetWellToneFrequency? || t.ListAllWellTones? || t.GetChakraFrequencies? || t.CalculateHarmonicSeries? {
      RunAgreesA(k, t, a, b);
    } else if t.CalculatePythagoreanFrequency? || t.CalculateFibonacciFrequency? || t.CalculateGoldenRatioFrequency? || t.CalculateQuantumHarmonic? {
      RunAgreesB(k, t, a, b);
    } else if t.CalculatePrimeHarmonics? || t.GeneratePhiSpiralFrequencies? || t.GenerateFractalFrequencies? {
      RunAgreesC(k, t, a, b);
    } else {
      RunAgreesD(k, t, a, b);
    }
  }

  lemma RunAgreesA(k: Constants, t: Tool, a: Arguments, b: Arguments)
    requires t.GetWellToneFrequency? || t.ListAllWellTones? || t.GetChakraFrequencies? || t.CalculateHarmonicSeries?
    requires k.Valid()
    requires FirstMissing(a, Required(t)).None? && FirstMissing(b, Required(t)).None?
    requires forall key :: key in Required(t) ==> key in a && key in b && a[key] == b[key]
    requires forall key :: Default(t, key).Some? ==> Optional(a, t, key) == Optional(b, t, key)
    requires BaseFrequency in Required(t) ==> a[BaseFrequency] == b[BaseFrequency]
    ensures Run(k, t, a) == Run(k, t, b)
  {
    match t
    case GetWellToneFrequency =>
      assert Optional(a, t, FrequencyName) == Optional(b, t, FrequencyName);
      assert Run(k, t, a) == RunWellToneLookup(a) && Run(k, t, b) == RunWellToneLookup(b);
    case ListAllWellTones =>
    case GetChakraFrequencies =>
    case CalculateHarmonicSeries =>
      assert Optional(a, t, HarmonicsCount) == Optional(b, t, HarmonicsCount);
      assert Run(k, t, a) == RunHarmonicSeries(a) && Run(k, t, b) == RunHarmonicSeries(b);
  }

  lemma RunAgreesB(k: Constants, t: Tool, a: Arguments, b: Arguments)
    requires t.CalculatePythagoreanFrequency? || t.CalculateFibonacciFrequency? || t.CalculateGoldenRatioFrequency? || t.CalculateQuantumHarmonic?
    requires k.Valid()
    requires FirstMissing(a, Required(t)).None? && FirstMissing(b, Required(t)).None?
    requires forall key :: key in Required(t) ==> key in a && key in b && a[key] == b[key]
    requires forall key :: Default(t, key).Some? ==> Optional(a, t, key) == Optional(b, t, key)
    requires |Required(t)| > 0 ==> a[Required(t)[0]] == b[Required(t)[0]]
    requires |Required(t)| > 1 ==> a[Required(t)[1]] == b[Required(t)[1]]
    requires |Required(t)| > 2 ==> a[Required(t)[2]] == b[Required(t)[2]]
    ensures Run(k, t, a) == Run(k, t, b)
  {
    match t
    case CalculatePythagoreanFrequency =>
      assert Run(k, t, a) == RunPythagorean(a) && Run(k, t, b) == RunPythagorean(b);
    case CalculateFibonacciFrequency =>
      assert Run(k, t, a) == RunFibonacci(a) && Run(k, t, b) == RunFibonacci(b);
    case CalculateGoldenRatioFrequency =>
      assert Run(k, t, a) == RunGoldenRatio(k, a) && Run(k, t, b) == RunGoldenRatio(k, b);
    case CalculateQuantumHarmonic =>
      assert Run(k, t, a) == RunQuantum(a) && Run(k, t, b) == RunQuantum(b);
  }

  lemma RunAgreesC(k: Constants, t: Tool, a: Arguments, b: Arguments)
    requires t.CalculatePrimeHarmonics? || t.GeneratePhiSpiralFrequencies? || t.GenerateFractalFrequencies?
    requires k.Valid()
    requires FirstMissing(a, Required(t)).None? && FirstMissing(b, Required(t)).None?
    requires forall key :: key in Required(t) ==> key in a && key in b && a[key] == b[key]
    requires forall key :: Default(t, key).Some? ==> Optional(a, t, key) == Optional(b, t, key)
    requires a[BaseFrequency] == b[BaseFrequency]
    ensures Run(k, t, a) == Run(k, t, b)
  {
    match t
    case CalculatePrimeHarmonics =>
      assert Optional(a, t, Primes) == Optional(b, t, Primes);
      assert Run(k, t, a) == RunPrimeHarmonics(a) && Run(k, t, b) == RunPrimeHarmonics(b);
    case GeneratePhiSpiralFrequencies =>
      assert Optional(a, t, Count) == Optional(b, t, Count);
      assert Run(k, t, a) == RunPhiSpiral(k, a) && Run(k, t, b) == RunPhiSpiral(k, b);
    case GenerateFractalFrequencies =>
      assert Optional(a, t, Depth) == Optional(b, t, Depth);
      assert Run(k, t, a) == RunFractal(k, a) && Run(k, t, b) == RunFractal(k, b);
  }

  lemma RunAgreesD(k: Constants, t: Tool, a: Arguments, b: Arguments)
    requires t.CalculateResonanceCascade? || t.GenerateCustomFrequencyMatrix?
    requires k.Valid()
    requires FirstMissing(a, Required(t)).None? && FirstMissing(b, Required(t)).None?
    requires forall key :: key in Required(t) ==> key in a && key in b && a[key] == b[key]
    requires forall key :: Default(t, key).Some? ==> Optional(a, t, key) == Optional(b, t, key)
    requires a[BaseFrequency] == b[BaseFrequency]
    ensures Run(k, t, a) == Run(k, t, b)
  {
    match t
    case CalculateResonanceCascade =>
      assert Optional(a, t, Steps) == Optional(b, t, Steps);
      assert Run(k, t, a) == RunCascade(k, a) && Run(k, t, b) == RunCascade(k, b);
    case GenerateCustomFrequencyMatrix =>
      assert Optional(a, t, IncludeFibonacci) == Optional(b, t, IncludeFibonacci);
      assert Optional(a, t, IncludeGoldenRatio) == Optional(b, t, IncludeGoldenRatio);
      assert Optional(a, t, IncludePrimes) == Optional(b, t, IncludePrimes);
      assert Optional(a, t, MatrixSize) == Optional(b, t, MatrixSize);
      assert Run(k, t, a) == RunMatrix(k, a) && Run(k, t, b) == RunMatrix(k, b);
  }

  /** A frequency name is found exactly when it is tabulated, and then with its tabulated value. */
  lemma WellToneLookup(k: Constants, args: Arguments, name: string)
    requires k.Valid()
    requires Get(args, FrequencyName, VStr("")) == VStr(name)
    ensures var r := Dispatch(k, GetWellToneFrequency, args);
            && (r.Reply? <==> name in Names())
            && (r.Reply? ==> r.payload == WellToneFound(name, r.payload.hz) && Entry(name, r.payload.hz) in Table)
            && (!r.Reply? ==> r == ErrorReply(FrequencyNotFound(VStr(name), Names())))
  {
  }

  /** Every tabulated name answers with its own frequency. */
  lemma WellToneTabulated(k: Constants, args: Arguments, i: nat)
    requires k.Valid()
    requires i < |Table|
    requires Get(args, FrequencyName, VStr("")) == VStr(Table[i].name)
    ensures Dispatch(k, GetWellToneFrequency, args) == Reply(WellToneFound(Table[i].name, Table[i].hz))
  {
    LookupTabulated(i);
  }

  /** A name that is not a string is never found, and the reply offers all 25 distinct tabulated names. */
  lemma WellToneNotFound(k: Constants, args: Arguments)
    requires k.Valid()
    requires FrequencyName in args
    requires !args[FrequencyName].VStr? && !args[FrequencyName].VIntList?
    ensures var r := Dispatch(k, GetWellToneFrequency, args);
            && r == ErrorReply(FrequencyNotFound(args[FrequencyName], Names()))
            && |r.error.available| == 25
            && (forall i, j :: 0 <= i < j < 25 ==> r.error.available[i] != r.error.available[j])
            && (forall e :: e in Table ==> e.name in r.error.available)
  {
    var v := args[FrequencyName];
    assert Dispatch(k, GetWellToneFrequency, args) == RunWellToneLookup(args);
    assert Optional(args, GetWellToneFrequency, FrequencyName) == v;
    TableNamesDistinct();
    forall e | e in Table
      ensures e.name in Names()
    {
      var i :| 0 <= i < |Table| && Table[i] == e;
      assert Names()[i] == e.name;
    }
  }

  /** The listing files the whole table under its five categories, each block in table order. */
  lemma ListingPartitionsTable(k: Constants, args: Arguments)
    requires k.Valid()
    ensures var r := Dispatch(k, ListAllWellTones, args);
            && r.Reply? && r.payload.AllWellTones?
            && r.payload.chakras == ChakraEntries
            && r.payload.solfeggio == SolfeggioEntries
            && r.payload.earthResonance == EarthEntries
            && r.payload.brainwaves == BrainwaveEntries
            && r.payload.special == SpecialEntries
            && r.payload.chakras + r.payload.special + r.payload.solfeggio
               + r.payload.earthResonance + r.payload.brainwaves == Table
  {
    ListingBlocks();
  }

  /** The listing's five category lists are the five declared blocks. */
  lemma ListingBlocks()
    ensures var p := RunListing().payload;
            && p.chakras == ChakraEntries
            && p.solfeggio == SolfeggioEntries
            && p.earthResonance == EarthEntries
            && p.brainwaves == BrainwaveEntries
            && p.special == SpecialEntries
  {
    ViewIsGroup(Chakras);
    ViewIsGroup(Solfeggio);
    ViewIsGroup(EarthResonance);
    ViewIsGroup(Brainwaves);
    ViewIsGroup(Special);
  }

  /** The chakra operation answers with the seven entries the listing files under chakras. */
  lemma ChakrasAgreeWithListing(k: Constants, args: Arguments, other: Arguments)
    requires k.Valid()
    ensures var r := Dispatch(k, GetChakraFrequencies, args);
            && r.Reply? && r.payload.ChakraFrequencies?
            && r.payload.chakras == Dispatch(k, ListAllWellTones, other).payload.chakras
            && r.payload.chakras == ChakraEntries
  {
    ViewIsGroup(Chakras);
  }

  // Each operation's dispatch step (the handler an operation with its arguments
  // present runs) is proved on its own, so that the property lemmas after it
  // reason about the computed value alone.

  /** With the base frequency present, an operation needing only the base runs its handler. */
  lemma BaseOnlyRuns(k: Constants, t: Tool, args: Arguments)
    requires k.Valid()
    requires Required(t) == [BaseFrequency]
    requires BaseFrequency in args
    ensures Dispatch(k, t, args) == Run(k, t, args)
  {
    assert FirstMissing(args, Required(t)).None?;
  }

  lemma PythagoreanDispatch(k: Constants, args: Arguments, base: real, num: real, den: real)
    requires k.Valid()
    requires BaseFrequency in args && AsReal(args[BaseFrequency]) == Some(base)
    requires Numerator in args && AsReal(args[Numerator]) == Some(num)
    requires Denominator in args && AsReal(args[Denominator]) == Some(den)
    ensures var f := PythagoreanRatio(base, num, den);
            Dispatch(k, CalculatePythagoreanFrequency, args)
            == if f.Err? then Raised(f.fault)
               else Reply(Pythagorean(args[BaseFrequency], args[Numerator], args[Denominator], f.value))
  {
    var t := CalculatePythagoreanFrequency;
    assert FirstMissing(args, Required(t)).None?;
    assert Dispatch(k, t, args) == Run(k, t, args) == RunPythagorean(args);
  }

  /** The Pythagorean operation raises exactly when the denominator is zero, and otherwise scales by the ratio. */
  lemma PythagoreanZeroDenominator(k: Constants, args: Arguments, base: real, num: real, den: real)
    requires k.Valid()
    requires BaseFrequency in args && AsReal(args[BaseFrequency]) == Some(base)
    requires Numerator in args && AsReal(args[Numerator]) == Some(num)
    requires Denominator in args && AsReal(args[Denominator]) == Some(den)
    ensures var r := Dispatch(k, CalculatePythagoreanFrequency, args);
            && (r == Raised(ZeroDivision) <==> den == 0.0)
            && (den != 0.0 ==> r.Reply? && r.payload.frequency * den == base * num)
  {
    PythagoreanDispatch(k, args, base, num, den);
  }

  lemma FibonacciDispatch(k: Constants, args: Arguments, base: real, index: int)
    requires k.Valid()
    requires BaseFrequency in args && AsReal(args[BaseFrequency]) == Some(base)
    requires FibonacciIndex in args && AsInt(args[FibonacciIndex]) == Some(index)
    ensures var f := FibonacciFrequency(base, index);
            Dispatch(k, CalculateFibonacciFrequency, args)
            == if f.Err? then Raised(f.fault) else Reply(Fibonacci(args[BaseFrequency], args[FibonacciIndex], f.value))
  {
    var t := CalculateFibonacciFrequency;
    assert FirstMissing(args, Required(t)).None?;
    assert Dispatch(k, t, args) == Run(k, t, args) == RunFibonacci(args);
  }

  /** The Fibonacci operation raises exactly when a whole index lies below the table's negative range. */
  lemma FibonacciIndexFault(k: Constants, args: Arguments, base: real, index: int)
    requires k.Valid()
    requires BaseFrequency in args && AsReal(args[BaseFrequency]) == Some(base)
    requires FibonacciIndex in args && AsInt(args[FibonacciIndex]) == Some(index)
    ensures var r := Dispatch(k, CalculateFibonacciFrequency, args);
            var b, i := args[BaseFrequency], args[FibonacciIndex];
            && (r == Raised(IndexOutOfRange(index)) <==> index < -12)
            && (0 <= index < 12 ==> r == Reply(Fibonacci(b, i, base * Fib(index) as real)))
            && (12 <= index ==> r == Reply(Fibonacci(b, i, base * 144.0)))
  {
    FibonacciDispatch(k, args, base, index);
    FibonacciOutcome(Dispatch(k, CalculateFibonacciFrequency, args), args[BaseFrequency], args[FibonacciIndex], base, index);
  }

  /** The three cases of an outcome built from the Fibonacci lookup, apart from any dispatching. */
  lemma FibonacciOutcome(r: Outcome, b: Value, i: Value, base: real, index: int)
    requires var f := FibonacciFrequency(base, index);
             r == if f.Err? then Raised(f.fault) else Reply(Fibonacci(b, i, f.value))
    ensures r == Raised(IndexOutOfRange(index)) <==> index < -12
    ensures 0 <= index < 12 ==> r == Reply(Fibonacci(b, i, base * Fib(index) as real))
    ensures 12 <= index ==> r == Reply(Fibonacci(b, i, base * 144.0))
  {
    var f := FibonacciFrequency(base, index);
    if index < -12 {
      assert f == Err(IndexOutOfRange(index));
    } else if index < 0 {
      assert f.Ok?;
    } else if index < 12 {
      assert f == Ok(base * Fib(index) as real);
    } else {
      assert f == Ok(base * 144.0);
    }
  }

  /**
    A float index is compared with the table's length before it is used: at
    or past the end it clamps to 144 like a whole index, below the end the
    list subscript rejects it.
   */
  lemma FibonacciFloatIndex(k: Constants, args: Arguments, base: real, index: real)
    requires k.Valid()
    requires BaseFrequency in args && AsReal(args[BaseFrequency]) == Some(base)
    requires FibonacciIndex in args && args[FibonacciIndex] == VReal(index)
    ensures var r := Dispatch(k, CalculateFibonacciFrequency, args);
            && (index < 12.0 <==> r == Raised(MalformedArgument(KeyName(FibonacciIndex))))
            && (index >= 12.0 ==> r == Reply(Fibonacci(args[BaseFrequency], VReal(index), base * 144.0)))
            && (index >= 12.0 ==>
                 r.payload.frequency == Dispatch(k, CalculateFibonacciFrequency, args[FibonacciIndex := VInt(12)]).payload.frequency)
  {
    var t := CalculateFibonacciFrequency;
    assert FirstMissing(args, Required(t)).None?;
    assert Dispatch(k, t, args) == Run(k, t, args) == RunFibonacci(args);
    var args' := args[FibonacciIndex := VInt(12)];
    FibonacciIndexFault(k, args', base, 12);
  }

  lemma QuantumDispatch(k: Constants, args: Arguments, base: real, level: real)
    requires k.Valid()
    requires BaseFrequency in args && AsReal(args[BaseFrequency]) == Some(base)
    requires QuantumLevel in args && AsReal(args[QuantumLevel]) == Some(level)
    ensures Dispatch(k, CalculateQuantumHarmonic, args)
            == Reply(Quantum(args[BaseFrequency], args[QuantumLevel], QuantumHarmonic(base, level)))
  {
    var t := CalculateQuantumHarmonic;
    assert FirstMissing(args, Required(t)).None?;
    assert Dispatch(k, t, args) == Run(k, t, args) == RunQuantum(args);
  }

  /** A whole quantum level n >= 1 answers with the (n*n)-th harmonic of the base, and the level's sign does not matter. */
  lemma QuantumReply(k: Constants, args: Arguments, base: real, n: nat)
    requires k.Valid()
    requires n >= 1
    requires BaseFrequency in args && AsReal(args[BaseFrequency]) == Some(base)
    requires QuantumLevel in args && AsReal(args[QuantumLevel]) == Some(n as real)
    ensures var r := Dispatch(k, CalculateQuantumHarmonic, args);
            && r.Reply? && r.payload.Quantum?
            && r.payload.base == args[BaseFrequency] && r.payload.level == args[QuantumLevel]
            && r.payload.frequency == HarmonicSeries(base, n * n)[n * n - 1]
            && r.payload.frequency == QuantumHarmonic(base, -(n as real))
  {
    QuantumDispatch(k, args, base, n as real);
    QuantumLevelsAreSquareHarmonics(base, n);
  }

  lemma HarmonicDispatch(k: Constants, args: Arguments, base: real, n: int)
    requires k.Valid()
    requires BaseFrequency in args && AsReal(args[BaseFrequency]) == Some(base)
    requires AsInt(Get(args, HarmonicsCount, VInt(10))) == Some(n)
    ensures var h := HarmonicSeries(base, n);
            Dispatch(k, CalculateHarmonicSeries, args) == Reply(Harmonics(args[BaseFrequency], h, |h|))
  {
    var t := CalculateHarmonicSeries;
    BaseOnlyRuns(k, t, args);
    assert Run(k, t, args) == RunHarmonicSeries(args);
  }

  /** The harmonic-series reply lists the first multiples of the base and reports how many. */
  lemma HarmonicReply(k: Constants, args: Arguments, base: real, n: int)
    requires k.Valid()
    requires BaseFrequency in args && AsReal(args[BaseFrequency]) == Some(base)
    requires AsInt(Get(args, HarmonicsCount, VInt(10))) == Some(n)
    ensures var r := Dispatch(k, CalculateHarmonicSeries, args);
            && r.Reply? && r.payload.Harmonics? && r.payload.base == args[BaseFrequency]
            && r.payload.count == |r.payload.harmonics| == RangeLength(n)
            && forall i :: 0 <= i < |r.payload.harmonics| ==> r.payload.harmonics[i] == base * (i + 1) as real
  {
    HarmonicDispatch(k, args, base, n);
  }

  lemma GoldenRatioDispatch(k: Constants, args: Arguments, base: real)
    requires k.Valid()
    requires BaseFrequency in args && AsReal(args[BaseFrequency]) == Some(base)
    ensures Dispatch(k, CalculateGoldenRatioFrequency, args)
            == Reply(GoldenRatio(args[BaseFrequency], GoldenRatioFrequency(k, base), k.phi))
  {
    var t := CalculateGoldenRatioFrequency;
    BaseOnlyRuns(k, t, args);
    assert Run(k, t, args) == RunGoldenRatio(k, args);
  }

  /** The golden-ratio reply carries phi and a frequency that divides base and itself in the golden ratio. */
  lemma GoldenRatioReply(k: Constants, args: Arguments, base: real)
    requires k.Valid()
    requires BaseFrequency in args && AsReal(args[BaseFrequency]) == Some(base)
    ensures var r := Dispatch(k, CalculateGoldenRatioFrequency, args);
            && r.Reply? && r.payload.GoldenRatio? && r.payload.base == args[BaseFrequency] && r.payload.phi == k.phi
            && r.payload.frequency * r.payload.frequency == base * r.payload.frequency + base * base
  {
    GoldenRatioDispatch(k, args, base);
  }

  lemma PrimeHarmonicsDispatch(k: Constants, args: Arguments, base: real, primes: seq<int>)
    requires k.Valid()
    requires BaseFrequency in args && AsReal(args[BaseFrequency]) == Some(base)
    requires Get(args, Primes, VIntList(DefaultPrimes)) == VIntList(primes)
    ensures Dispatch(k, CalculatePrimeHarmonics, args)
            == Reply(PrimeHarmonicSet(args[BaseFrequency], primes, PrimeHarmonics(base, primes)))
  {
    var t := CalculatePrimeHarmonics;
    BaseOnlyRuns(k, t, args);
    assert Run(k, t, args) == RunPrimeHarmonics(args);
  }

  /** The prime-harmonics reply scales the base by each listed prime, in the order given. */
  lemma PrimeHarmonicsReply(k: Constants, args: Arguments, base: real, primes: seq<int>)
    requires k.Valid()
    requires BaseFrequency in args && AsReal(args[BaseFrequency]) == Some(base)
    requires Get(args, Primes, VIntList(DefaultPrimes)) == VIntList(primes)
    ensures var r := Dispatch(k, CalculatePrimeHarmonics, args);
            && r.Reply? && r.payload.PrimeHarmonicSet? && r.payload.base == args[BaseFrequency]
            && r.payload.primesUsed == primes && |r.payload.harmonics| == |primes|
            && forall i :: 0 <= i < |primes| ==> r.payload.harmonics[i] == base * primes[i] as real
  {
    PrimeHarmonicsDispatch(k, args, base, primes);
  }

  lemma PhiSpiralDispatch(k: Constants, args: Arguments, base: real, n: int)
    requires k.Valid()
    requires BaseFrequency in args && AsReal(args[BaseFrequency]) == Some(base)
    requires AsInt(Get(args, Count, VInt(10))) == Some(n)
    ensures var f := PhiSpiral(k, base, n);
            Dispatch(k, GeneratePhiSpiralFrequencies, args) == Reply(PhiSpiralSet(args[BaseFrequency], f, |f|))
  {
    var t := GeneratePhiSpiralFrequencies;
    BaseOnlyRuns(k, t, args);
    assert Run(k, t, args) == RunPhiSpiral(k, args);
  }

  /** The phi-spiral reply lists successive powers of phi times the base and reports how many. */
  lemma PhiSpiralReply(k: Constants, args: Arguments, base: real, n: int)
    requires k.Valid()
    requires BaseFrequency in args && AsReal(args[BaseFrequency]) == Some(base)
    requires AsInt(Get(args, Count, VInt(10))) == Some(n)
    ensures var r := Dispatch(k, GeneratePhiSpiralFrequencies, args);
            && r.Reply? && r.payload.PhiSpiralSet? && r.payload.base == args[BaseFrequency]
            && r.payload.count == |r.payload.frequencies| == RangeLength(n)
            && forall i :: 0 <= i < |r.payload.frequencies| ==> r.payload.frequencies[i] == base * Pow(k.phi, i)
  {
    PhiSpiralDispatch(k, args, base, n);
  }

  lemma FractalDispatch(k: Constants, args: Arguments, base: real, depth: int)
    requires k.Valid()
    requires BaseFrequency in args && AsReal(args[BaseFrequency]) == Some(base)
    requires AsInt(Get(args, Depth, VInt(5))) == Some(depth)
    ensures var f := FractalFrequencies(k, base, depth);
            Dispatch(k, GenerateFractalFrequencies, args)
            == Reply(Fractal(args[BaseFrequency], Get(args, Depth, VInt(5)), f, |f|))
  {
    var t := GenerateFractalFrequencies;
    BaseOnlyRuns(k, t, args);
    assert Run(k, t, args) == RunFractal(k, args);
  }

  /** The fractal reply is the ascending, duplicate-free set of the trail's values, with its size. */
  lemma FractalReply(k: Constants, args: Arguments, base: real, depth: int)
    requires k.Valid()
    requires BaseFrequency in args && AsReal(args[BaseFrequency]) == Some(base)
    requires AsInt(Get(args, Depth, VInt(5))) == Some(depth)
    ensures var r := Dispatch(k, GenerateFractalFrequencies, args);
            && r.Reply? && r.payload.Fractal? && r.payload.base == args[BaseFrequency]
            && r.payload.depth == Get(args, Depth, VInt(5))
            && r.payload.count == |r.payload.frequencies|
            && StrictlyAscending(r.payload.frequencies)
            && forall x :: x in r.payload.frequencies <==> x in FractalTrail(k, base, RangeLength(depth))
  {
    FractalDispatch(k, args, base, depth);
  }

  lemma CascadeDispatch(k: Constants, args: Arguments, base: real, steps: int)
    requires k.Valid()
    requires BaseFrequency in args && AsReal(args[BaseFrequency]) == Some(base)
    requires AsInt(Get(args, Steps, VInt(7))) == Some(steps)
    ensures Dispatch(k, CalculateResonanceCascade, args)
            == Reply(Cascade(args[BaseFrequency], Get(args, Steps, VInt(7)), ResonanceCascade(k, base, steps)))
  {
    var t := CalculateResonanceCascade;
    BaseOnlyRuns(k, t, args);
    assert Run(k, t, args) == RunCascade(k, args);
  }

  /** The cascade reply holds max(steps, 1) values, the i-th being the base times sqrt2 to the i. */
  lemma CascadeReply(k: Constants, args: Arguments, base: real, steps: int)
    requires k.Valid()
    requires BaseFrequency in args && AsReal(args[BaseFrequency]) == Some(base)
    requires AsInt(Get(args, Steps, VInt(7))) == Some(steps)
    ensures var r := Dispatch(k, CalculateResonanceCascade, args);
            && r.Reply? && r.payload.Cascade? && r.payload.base == args[BaseFrequency]
            && r.payload.steps == Get(args, Steps, VInt(7))
            && |r.payload.cascade| == (if steps > 1 then steps else 1)
            && forall i :: 0 <= i < |r.payload.cascade| ==> r.payload.cascade[i] == base * Pow(k.sqrt2, i)
  {
    CascadeDispatch(k, args, base, steps);
    var c := ResonanceCascade(k, base, steps);
    forall i | 0 <= i < |c|
      ensures c[i] == base * Pow(k.sqrt2, i)
    {
      ResonanceCascadeClosedForm(k, base, steps, i);
    }
  }

  lemma MatrixDispatch(k: Constants, args: Arguments, base: real, size: int)
    requires k.Valid()
    requires BaseFrequency in args && AsReal(args[BaseFrequency]) == Some(base)
    requires AsInt(Get(args, MatrixSize, VInt(8))) == Some(size)
    ensures var fib := Get(args, IncludeFibonacci, VBool(true));
            var phi := Get(args, IncludeGoldenRatio, VBool(true));
            var primes := Get(args, IncludePrimes, VBool(true));
            var m := FrequencyMatrix(k, base, Truthy(fib), Truthy(phi), Truthy(primes), size);
            Dispatch(k, GenerateCustomFrequencyMatrix, args)
            == Reply(Matrix(args[BaseFrequency], |m|, m, fib, phi, primes))
  {
    var t := GenerateCustomFrequencyMatrix;
    BaseOnlyRuns(k, t, args);
    assert Run(k, t, args) == RunMatrix(k, args);
  }

  /**
    The matrix reply echoes the three flags as sent, is ascending, reports
    its own length, and holds exactly the values of the parts the flags
    switch on.
   */
  lemma MatrixReply(k: Constants, args: Arguments, base: real, size: int)
    requires k.Valid()
    requires BaseFrequency in args && AsReal(args[BaseFrequency]) == Some(base)
    requires AsInt(Get(args, MatrixSize, VInt(8))) == Some(size)
    ensures var r := Dispatch(k, GenerateCustomFrequencyMatrix, args);
            && r.Reply? && r.payload.Matrix? && r.payload.base == args[BaseFrequency]
            && r.payload.size == |r.payload.matrix|
            && r.payload.fibonacci == Get(args, IncludeFibonacci, VBool(true))
            && r.payload.goldenRatio == Get(args, IncludeGoldenRatio, VBool(true))
            && r.payload.primes == Get(args, IncludePrimes, VBool(true))
            && StrictlyAscending(r.payload.matrix)
            && forall x :: x in r.payload.matrix <==>
                 || (Truthy(r.payload.fibonacci) && x in FibonacciPart(base, size))
                 || (Truthy(r.payload.goldenRatio) && x in PhiSpiral(k, base, size))
                 || (Truthy(r.payload.primes) && x in PrimeHarmonics(base, MatrixPrimes(size)))
  {
    MatrixDispatch(k, args, base, size);
  }

  /** With every part switched off the size is never read: any size value gives the empty matrix. */
  lemma MatrixSizeUnread(k: Constants, args: Arguments, base: real)
    requires k.Valid()
    requires BaseFrequency in args && AsReal(args[BaseFrequency]) == Some(base)
    requires !Truthy(Get(args, IncludeFibonacci, VBool(true)))
    requires !Truthy(Get(args, IncludeGoldenRatio, VBool(true)))
    requires !Truthy(Get(args, IncludePrimes, VBool(true)))
    ensures var r := Dispatch(k, GenerateCustomFrequencyMatrix, args);
            r.Reply? && r.payload.matrix == [] && r.payload.size == 0
  {
    var t := GenerateCustomFrequencyMatrix;
    BaseOnlyRuns(k, t, args);
    assert Run(k, t, args) == RunMatrix(k, args);
    var size := MatrixSizeRead(Optional(args, t, MatrixSize), false, false, false);
    FrequencyMatrixEmpty(k, base, size.value);
  }

  /**
    With only the Fibonacci part on, a float size above 12 is read through
    min(size, 12) as 12, and any other float size is rejected.
   */
  lemma MatrixFloatSize(k: Constants, args: Arguments, base: real, size: real)
    requires k.Valid()
    requires BaseFrequency in args && AsReal(args[BaseFrequency]) == Some(base)
    requires MatrixSize in args && args[MatrixSize] == VReal(size)
    requires Truthy(Get(args, IncludeFibonacci, VBool(true)))
    requires !Truthy(Get(args, IncludeGoldenRatio, VBool(true)))
    requires !Truthy(Get(args, IncludePrimes, VBool(true)))
    ensures var r := Dispatch(k, GenerateCustomFrequencyMatrix, args);
            && (r.Reply? <==> size > 12.0)
            && (r.Reply? ==> r.payload.matrix == FrequencyMatrix(k, base, true, false, false, 12))
            && (!r.Reply? ==> r == Raised(MalformedArgument(KeyName(MatrixSize))))
  {
    var t := GenerateCustomFrequencyMatrix;
    BaseOnlyRuns(k, t, args);
    assert Run(k, t, args) == RunMatrix(k, args);
  }

  /** Worked example: a 100 Hz base gives the harmonics 100, 200, 300, 400 and 500 Hz. */
  lemma HarmonicExample(k: Constants)
    requires k.Valid()
    ensures Dispatch(k, CalculateHarmonicSeries,
                   map[BaseFrequency := VInt(100), HarmonicsCount := VInt(5)])
            == Reply(Harmonics(VInt(100), [100.0, 200.0, 300.0, 400.0, 500.0], 5))
  {
    var args := map[BaseFrequency := VInt(100), HarmonicsCount := VInt(5)];
    assert FirstMissing(args, Required(CalculateHarmonicSeries)).None?;
    var h := HarmonicSeries(100.0, 5);
    assert h == [100.0, 200.0, 300.0, 400.0, 500.0];
    assert Dispatch(k, CalculateHarmonicSeries, args) == RunHarmonicSeries(args);
  }

  /** Worked example: a perfect fifth (3:2) above 220 Hz is 330 Hz. */
  lemma PythagoreanExample(k: Constants)
    requires k.Valid()
    ensures Dispatch(k, CalculatePythagoreanFrequency,
                   map[BaseFrequency := VInt(220), Numerator := VInt(3), Denominator := VInt(2)])
            == Reply(Pythagorean(VInt(220), VInt(3), VInt(2), 330.0))
  {
    var args := map[BaseFrequency := VInt(220), Numerator := VInt(3), Denominator := VInt(2)];
    assert FirstMissing(args, Required(CalculatePythagoreanFrequency)).None?;
    assert Dispatch(k, CalculatePythagoreanFrequency, args) == RunPythagorean(args);
  }

  /** Worked example: index 5 scales the base by the sixth Fibonacci number, 8. */
  lemma FibonacciExample(k: Constants)
    requires k.Valid()
    ensures Dispatch(k, CalculateFibonacciFrequency,
                   map[BaseFrequency := VInt(10), FibonacciIndex := VInt(5)])
            == Reply(Fibonacci(VInt(10), VInt(5), 80.0))
  {
    var args := map[BaseFrequency := VInt(10), FibonacciIndex := VInt(5)];
    FibonacciIndexFault(k, args, 10.0, 5);
    assert Fib(5) == 8;
  }

  /** Worked example: index 50 lies past the table and clamps to its last entry, 144. */
  lemma FibonacciClampExample(k: Constants)
    requires k.Valid()
    ensures Dispatch(k, CalculateFibonacciFrequency,
                   map[BaseFrequency := VInt(10), FibonacciIndex := VInt(50)])
            == Reply(Fibonacci(VInt(10), VInt(50), 1440.0))
  {
    var args := map[BaseFrequency := VInt(10), FibonacciIndex := VInt(50)];
    FibonacciIndexFault(k, args, 10.0, 50);
  }

  /** Worked example: the float index 12.5 is not below the table's length, so it clamps rather than failing. */
  lemma FibonacciFloatClampExample(k: Constants)
    requires k.Valid()
    ensures Dispatch(k, CalculateFibonacciFrequency,
                   map[BaseFrequency := VInt(10), FibonacciIndex := VReal(12.5)])
            == Reply(Fibonacci(VInt(10), VReal(12.5), 1440.0))
  {
    var args := map[BaseFrequency := VInt(10), FibonacciIndex := VReal(12.5)];
    FibonacciFloatIndex(k, args, 10.0, 12.5);
  }

  /** Without a frequency name the lookup searches for the empty name, which is never tabulated. */
  lemma MissingNameNotFound(k: Constants, args: Arguments)
    requires k.Valid()
    requires FrequencyName !in args
    ensures Dispatch(k, GetWellToneFrequency, args) == ErrorReply(FrequencyNotFound(VStr(""), Names()))
  {
    WellToneLookup(k, args, "");
    EmptyNameUntabulated();
  }

  /** Every tabulated name satisfies some category's rule, so none is empty. */
  lemma EmptyNameUntabulated()
    ensures "" !in Names()
  {
    forall i | 0 <= i < |Names()|
      ensures Names()[i] != ""
    {
      var e := Table[i];
      ViewsPartition(e);
      var c :| e in View(c);
      assert InCategory(c, Names()[i]);
    }
  }
}
