/** The node classes of audiokit/nodes: the base node, the device input and
    output nodes, and the three effects, with their parameter descriptors,
    their construction from keyword parameters, and `process`. Opening and
    using sound devices is outside the model: a device stream is assumed to
    open, what the input stream reads is a parameter, and what the output
    stream plays is not modelled. */
module Nodes {
  import opened Wrappers
  import opened Json
  import opened Audio
  import Filter
  import Compressor
  import Delay

  datatype Kind = BaseNode | InputNode | OutputNode | FilterNode | CompressorNode | DelayNode

  /** The Python class implementing each kind. */
  function ClassName(k: Kind): string {
    match k
    case BaseNode => "AudioNode"
    case InputNode => "AudioInputNode"
    case OutputNode => "AudioOutputNode"
    case FilterNode => "AudioFilterNode"
    case CompressorNode => "CompressorNode"
    case DelayNode => "DelayNode"
  }

  /** `get_available_nodes()`: the types a pipeline configuration may name. */
  const Registry: map<string, Kind> :=
    map["AudioInputNode" := InputNode, "AudioOutputNode" := OutputNode, "AudioFilterNode" := FilterNode]

  /** The registry maps each class name to its class, and only the input,
      output and filter nodes are registered. */
  lemma RegistryContents()
    ensures Registry.Keys == {"AudioInputNode", "AudioOutputNode", "AudioFilterNode"}
    ensures forall name :: name in Registry ==> ClassName(Registry[name]) == name
    ensures forall k :: k in Registry.Values <==> k in {InputNode, OutputNode, FilterNode}
  {
    assert Registry["AudioInputNode"] == InputNode;
    assert Registry["AudioOutputNode"] == OutputNode;
    assert Registry["AudioFilterNode"] == FilterNode;
  }

  // ---------------------------------------------------------------------
  // Parameter descriptors (`get_parameters`).

  datatype ParamType = IntParam | FloatParam

  datatype Descriptor = Descriptor(ty: ParamType, description: string, default: Json)

  const SampleRateDescriptor := Descriptor(IntParam, "Sample rate in Hz", JInt(44100))

  /** Each class extends its parent's descriptors (all parents are the base
      node). The output node declares `channels`, which its constructor
      reads, like the input node does; the code declares no such entry, so
      its description text is this model's own. */
  function Parameters(k: Kind): map<string, Descriptor> {
    var base := map["sample_rate" := SampleRateDescriptor];
    match k
    case BaseNode => base
    case InputNode =>
      base["channels" := Descriptor(IntParam, "Number of input channels", JInt(2))]
    case OutputNode =>
      base["channels" := Descriptor(IntParam, "Number of output channels", JInt(2))]
    case FilterNode =>
      base["cutoff" := Descriptor(FloatParam, "Filter cutoff frequency in Hz", JInt(1000))]
          ["resonance" := Descriptor(FloatParam, "Filter resonance (Q factor)", JReal(0.707))]
    case CompressorNode =>
      base["threshold" := Descriptor(FloatParam, "Threshold level in dB", JInt(-20))]
          ["ratio" := Descriptor(FloatParam, "Compression ratio", JReal(4.0))]
          ["attack" := Descriptor(FloatParam, "Attack time in ms", JInt(5))]
          ["release" := Descriptor(FloatParam, "Release time in ms", JInt(50))]
          ["makeup" := Descriptor(FloatParam, "Makeup gain in dB", JInt(0))]
    case DelayNode =>
      base["delay_time" := Descriptor(FloatParam, "Delay time in milliseconds", JInt(500))]
          ["feedback" := Descriptor(FloatParam, "Feedback amount (0-1)", JReal(0.3))]
          ["mix" := Descriptor(FloatParam, "Wet/dry mix (0-1)", JReal(0.5))]
  }

  /** The descriptors as the output node's class has them: it inherits the
      base node's `get_parameters` and so declares only `sample_rate`. */
  function ParametersAsWritten(k: Kind): (r: map<string, Descriptor>)
    ensures k != OutputNode ==> r == Parameters(k)
  {
    if k == OutputNode then map["sample_rate" := SampleRateDescriptor] else Parameters(k)
  }

  /** The keyword parameters each class's constructor reads. */
  function ReadByConstructor(k: Kind): set<string> {
    match k
    case BaseNode => {"sample_rate"}
    case InputNode => {"sample_rate", "channels"}
    case OutputNode => {"sample_rate", "channels"}
    case FilterNode => {"sample_rate", "cutoff", "resonance"}
    case CompressorNode => {"sample_rate", "threshold", "ratio", "attack", "release", "makeup"}
    case DelayNode => {"sample_rate", "delay_time", "feedback", "mix"}
  }

  /** As written, the output node reads a parameter it does not declare. */
  lemma OutputChannelsUndeclared()
    ensures "channels" in ReadByConstructor(OutputNode)
    ensures "channels" !in ParametersAsWritten(OutputNode)
  {
  }

  /** Every class declares exactly the parameters its constructor reads. */
  lemma DeclaredIsRead(k: Kind)
    ensures Parameters(k).Keys == ReadByConstructor(k)
  {
    DeclaredNames();
  }

  /** The parameter names each class declares. */
  lemma DeclaredNames()
    ensures Parameters(BaseNode).Keys == {"sample_rate"}
    ensures Parameters(InputNode).Keys == {"sample_rate", "channels"}
    ensures Parameters(OutputNode).Keys == {"sample_rate", "channels"}
    ensures Parameters(FilterNode).Keys == {"sample_rate", "cutoff", "resonance"}
    ensures Parameters(CompressorNode).Keys ==
      {"sample_rate", "threshold", "ratio", "attack", "release", "makeup"}
    ensures Parameters(DelayNode).Keys == {"sample_rate", "delay_time", "feedback", "mix"}
  {
  }

  /** Every class inherits the base node's sample-rate descriptor unchanged. */
  lemma SampleRateInherited(k: Kind)
    ensures "sample_rate" in Parameters(k) && Parameters(k)["sample_rate"] == SampleRateDescriptor
  {
  }

  // ---------------------------------------------------------------------
  // Construction.

  datatype State =
    | Plain
    | Device(channels: Json)
    | FilterState(cutoff: Json, resonance: Json, normalCutoff: real, coeffs: Filter.Coeffs)
    | CompressorState(comp: Compressor.Compressor)
    | DelayState(line: Delay.DelayLine)

  datatype Node = Node(id: Json, kind: Kind, params: map<string, Json>, sampleRate: Json, state: State)

  datatype NodeError =
    | DuplicateArgument   // `node_id` passed both positionally and as a keyword
    | NotANumber          // arithmetic on a value that is not a number (TypeError)
    | ZeroDivision
    | InvalidCutoff       // `butter` rejects a normalised cutoff outside (0, 1)
    | NegativeBufferSize  // `np.zeros` with a negative dimension
    | NotImplemented      // the base node's `process`
    | CompressorFailed(ce: Compressor.CompressorError)
    | DelayFailed(de: Delay.DelayError)

  /** The state each kind of node is built with. */
  predicate StateFits(n: Node) {
    match n.kind
    case BaseNode => n.state.Plain?
    case InputNode => n.state.Device?
    case OutputNode => n.state.Device?
    case FilterNode => n.state.FilterState?
    case CompressorNode => n.state.CompressorState?
    case DelayNode => n.state.DelayState? && Delay.Valid(n.state.line)
  }

  /** The filter node's coefficients: the normalised cutoff
      `cutoff / (sample_rate / 2)` must lie strictly between 0 and 1. */
  function FilterDesign(sampleRate: Json, cutoff: Json, butter: real -> Filter.Coeffs)
    : (r: Result<(real, Filter.Coeffs), NodeError>)
    ensures r.Ok? <==>
      && AsNumber(sampleRate).Some? && AsNumber(cutoff).Some?
      && AsNumber(sampleRate).value != 0.0
      && 0.0 < AsNumber(cutoff).value / (AsNumber(sampleRate).value / 2.0) < 1.0
    ensures r.Ok? ==>
      r.value == (AsNumber(cutoff).value / (AsNumber(sampleRate).value / 2.0),
                  butter(AsNumber(cutoff).value / (AsNumber(sampleRate).value / 2.0)))
    ensures AsNumber(sampleRate).None? ==> r == Err(NotANumber)
    ensures AsNumber(sampleRate) == Some(0.0) && AsNumber(cutoff).Some? ==> r == Err(ZeroDivision)
  {
    match AsNumber(sampleRate)
    case None => Err(NotANumber)
    case Some(sr) =>
      var nyquist := sr / 2.0;
      match AsNumber(cutoff)
      case None => Err(NotANumber)
      case Some(fc) =>
        if nyquist == 0.0 then Err(ZeroDivision)
        else
          var normal := fc / nyquist;
          if normal <= 0.0 || normal >= 1.0 then Err(InvalidCutoff)
          else Ok((normal, butter(normal)))
  }

  /** The values of the named parameters as numbers, in order, or `None` if
      one of them (or its default) is not a number. */
  function Numbers(params: map<string, Json>, names: seq<string>, defaults: seq<Json>): (r: Option<seq<real>>)
    requires |names| == |defaults|
    ensures r.Some? <==> forall i :: 0 <= i < |names| ==> AsNumber(Get(params, names[i], defaults[i])).Some?
    ensures r.Some? ==> |r.value| == |names|
    ensures r.Some? ==>
      forall i :: 0 <= i < |names| ==> r.value[i] == AsNumber(Get(params, names[i], defaults[i])).value
  {
    if |names| == 0 then Some([])
    else
      match (AsNumber(Get(params, names[0], defaults[0])), Numbers(params, names[1..], defaults[1..]))
      case (Some(x), Some(rest)) => Some([x] + rest)
      case (None, _) => None
      case (_, None) =>
        assert forall i :: 1 <= i < |names| ==> names[i] == names[1..][i - 1] && defaults[i] == defaults[1..][i - 1];
        None
  }

  /** `NodeClass(node_id, **params)`. Every node keeps its id and keyword
      parameters and reads `sample_rate` (default 44100); device nodes read
      `channels` (default 2); effects read their own parameters, falling back
      to the declared defaults. */
  function Build(kind: Kind, id: Json, params: map<string, Json>, butter: real -> Filter.Coeffs)
    : (r: Result<Node, NodeError>)
    ensures "node_id" in params ==> r == Err(DuplicateArgument)
    ensures r.Ok? ==> && r.value.id == id && r.value.kind == kind && r.value.params == params
                      && r.value.sampleRate == Get(params, "sample_rate", JInt(44100))
                      && StateFits(r.value)
    ensures "node_id" !in params && kind in {BaseNode, InputNode, OutputNode} ==> r.Ok?
    ensures r.Ok? && kind in {InputNode, OutputNode} ==>
      r.value.state.channels == Get(params, "channels", JInt(2))
    ensures "node_id" !in params && kind == FilterNode ==>
      (r.Ok? <==> FilterDesign(Get(params, "sample_rate", JInt(44100)),
                               Get(params, "cutoff", JInt(1000)), butter).Ok?)
    ensures r.Ok? && kind == FilterNode ==>
      && r.value.state.cutoff == Get(params, "cutoff", JInt(1000))
      && r.value.state.resonance == Get(params, "resonance", JReal(0.707))
  {
    if "node_id" in params then Err(DuplicateArgument)
    else
      var sr := Get(params, "sample_rate", JInt(44100));
      var node := Node(id, kind, params, sr, Plain);
      match kind
      case BaseNode => Ok(node)
      case InputNode => Ok(node.(state := Device(Get(params, "channels", JInt(2)))))
      case OutputNode => Ok(node.(state := Device(Get(params, "channels", JInt(2)))))
      case FilterNode =>
        var cutoff := Get(params, "cutoff", JInt(1000));
        var resonance := Get(params, "resonance", JReal(0.707));
        var design :- FilterDesign(sr, cutoff, butter);
        Ok(node.(state := FilterState(cutoff, resonance, design.0, design.1)))
      case CompressorNode =>
        var numbers := Numbers(params, ["sample_rate", "threshold", "ratio", "attack", "release", "makeup"],
                               [JInt(44100), JInt(-20), JReal(4.0), JInt(5), JInt(50), JInt(0)]);
        if numbers.None? then Err(NotANumber)
        else
          var v := numbers.value;
          Ok(node.(state := CompressorState(Compressor.New(v[1], v[2], v[3], v[4], v[5], v[0]))))
      case DelayNode =>
        match Numbers(params, ["sample_rate", "delay_time", "feedback", "mix"],
                      [JInt(44100), JInt(500), JReal(0.3), JReal(0.5)])
        case None => Err(NotANumber)
        case Some(v) =>
          match Delay.New(v[1], v[0], v[2], v[3])
          case Err(_) => Err(NegativeBufferSize)
          case Ok(line) => Ok(node.(state := DelayState(line)))
  }

  /** The defaults a node falls back on are the defaults its class declares,
      and a filter built from defaults is valid: 1000 Hz against a 22050 Hz
      Nyquist frequency. */
  lemma DefaultsAreDeclared(id: Json, butter: real -> Filter.Coeffs)
    ensures var n := Build(InputNode, id, map[], butter);
      n.Ok? && n.value.sampleRate == Parameters(InputNode)["sample_rate"].default
      && n.value.state.channels == Parameters(InputNode)["channels"].default
    ensures var n := Build(FilterNode, id, map[], butter);
      && n.Ok? && n.value.sampleRate == Parameters(FilterNode)["sample_rate"].default
      && n.value.state.cutoff == Parameters(FilterNode)["cutoff"].default
      && n.value.state.resonance == Parameters(FilterNode)["resonance"].default
      && n.value.state.normalCutoff == 1000.0 / 22050.0
  {
    assert FilterDesign(JInt(44100), JInt(1000), butter).Ok?;
  }

  /** A cutoff at or above the Nyquist frequency is rejected: the default
      1000 Hz cutoff cannot be built at a sample rate of 2000 Hz or less. */
  lemma LowSampleRateRejectsDefaultCutoff(id: Json, rate: int, butter: real -> Filter.Coeffs)
    requires 0 < rate <= 2000
    ensures Build(FilterNode, id, map["sample_rate" := JInt(rate)], butter) == Err(InvalidCutoff)
  {
    var normal := 1000.0 / (rate as real / 2.0);
    assert normal >= 1.0 by {
      assert normal * (rate as real / 2.0) == 1000.0;
    }
  }

  // ---------------------------------------------------------------------
  // Processing.

  /** `node.process(input)`. The base node raises; the input node returns
      what its stream read; the output node hands its input back unchanged,
      `None` included; the effects process one block and keep their state. */
  function Process(n: Node, input: Option<Block>, read: Block, levelDb: real -> real, dbToGain: real -> real)
    : (r: Result<(Node, Option<Block>), NodeError>)
    requires StateFits(n)
    requires n.kind == CompressorNode ==>
      n.state.comp.attackSamples != 0 && n.state.comp.releaseSamples != 0
    ensures n.kind == BaseNode ==> r == Err(NotImplemented)
    ensures n.kind == InputNode ==> r == Ok((n, Some(read)))
    ensures n.kind == OutputNode ==> r == Ok((n, input))
    ensures n.kind == FilterNode ==> r == Ok((n, Some(Filter.ProcessBlock(n.state.coeffs, input, Filter.LastAxis))))
    ensures n.kind == CompressorNode ==>
      var c := Compressor.ProcessBlock(n.state.comp, input, levelDb, dbToGain, Compressor.Inverted);
      r == if c.Ok? then Ok((n.(state := CompressorState(c.value.0)), Some(c.value.1))) else Err(CompressorFailed(c.error))
    ensures n.kind == DelayNode ==>
      var d := Delay.ProcessBlock(n.state.line, input);
      r == if d.Ok? then Ok((n.(state := DelayState(d.value.0)), Some(d.value.1))) else Err(DelayFailed(d.error))
    ensures r.Ok? ==> && r.value.0.id == n.id && r.value.0.kind == n.kind
                      && r.value.0.params == n.params && StateFits(r.value.0)
    ensures input.None? && n.kind in {FilterNode, CompressorNode, DelayNode} ==>
      r.Ok? && r.value.1 == Some(SilentBlock())
  {
    match n.kind
    case BaseNode => Err(NotImplemented)
    case InputNode => Ok((n, Some(read)))
    case OutputNode => Ok((n, input))
    case FilterNode => Ok((n, Some(Filter.ProcessBlock(n.state.coeffs, input, Filter.LastAxis))))
    case CompressorNode =>
      var r := Compressor.ProcessBlock(n.state.comp, input, levelDb, dbToGain, Compressor.Inverted);
      if r.Err? then Err(CompressorFailed(r.error))
      else Ok((n.(state := CompressorState(r.value.0)), Some(r.value.1)))
    case DelayNode =>
      match Delay.ProcessBlock(n.state.line, input)
      case Err(e) => Err(DelayFailed(e))
      case Ok((d, out)) => Ok((n.(state := DelayState(d)), Some(out)))
  }
}
