# AudioKit core, modelled in Dafny

AudioKit is a Python toolkit for audio work. It has three parts:

- **A node-based processing pipeline.**
  - Device input and output nodes.
  - Three effects: a low-pass filter, a compressor and a feedback delay.
  - A graph manager that holds the nodes and their connections.
  - A command line that creates, validates and templates pipelines from YAML.
- **An HTTP client and an SDK facade for the analysis service.**
  - Configuration lookup.
  - File validation.
  - Classification of the server's replies into typed errors.
- **Supporting pieces.**
  - Progress tracking.
  - The user and global configuration.
  - The plugin loader's import allow-list.
  - The terminal widgets: the pipeline graph, the waveform, spectrum and VU-meter visualisers, and the audio monitor.

This project models that core as pure functions over immutable data and proves properties of it.

Samples are reals. An audio block is either mono (a sequence of samples) or stereo (a sequence of left/right frames). Parsed YAML and JSON documents are a `Json` datatype. The file system, the environment and the network are parameters.

Whatever a foreign library computes enters as an input:

- sound devices;
- the Butterworth design;
- logarithms and decibel conversion;
- the FFT;
- AI components;
- signature checks.

| module | file | models |
|---|---|---|
| `Audio`, `Json`, `Text`, `Wrappers` | audio.dfy, json.dfy, text.dfy, wrappers.dfy | blocks and frames (with the facts about Euclidean division the ring buffers need), parsed documents with Python truthiness and dictionary keys, the `str`/`pathlib` helpers, `Option`/`Result` |
| `Nodes` | nodes.dfy | node classes, parameter descriptors, construction from keyword parameters, `process` dispatch |
| `Filter` | filter.dfy | the biquad low-pass applied by `lfilter` |
| `Compressor` | compressor.dfy | gain-reduction targets and the attack/release envelope |
| `Delay` | delay.dfy | the ring-buffer feedback delay |
| `Graph` | graph.dfy | `AudioGraphManager` |
| `PipelineCli` | pipeline.dfy | `create`, `validate`, `template` |
| `Progress` | progress.dfy | `Progress`, `ProgressTracker` |
| `ClientErrors`, `KitErrors` | errors_client.dfy, errors_kit.dfy | the two error hierarchies |
| `Client` | client.dfy | the HTTP client `AudioKit` |
| `Sdk` | sdk.dfy | the SDK facade's validation and result dictionaries |
| `UserConfig`, `CoreConfig` | user_config.dfy, core_config.dfy | the JSON user configuration and the environment settings |
| `Plugins` | plugins.dfy | plugin import validation and the load loop |
| `PipelineWidget`, `Visualizers`, `Monitor` | pipeline_widget.dfy, visualizers.dfy, monitor.dfy | widget state machines |

Where the code evidently does not do what its authors intended, the model holds both versions, and each such place is listed under "## Findings". The as-written member follows the code and exhibits the discrepancy. The corrected member has the intended property proved. The effects are parameterised by the choice: `Filter.ProcessBlock` by the axis it filters along, `Compressor.ProcessBlock` by its gain-reduction curve, `Delay.Process` by the frame it mixes in, and `Plugins.LoadPlugins` by what the protocol check does. `Nodes.Process` and `Delay.ProcessBlock` run the as-written choice. The spectrum analyzer of `Monitor.New` is the one exception: it is built with the corrected size (see "## Left out").

## Model

| member | source | states |
|---|---|---|
| Audio.Trunc | audiokit/nodes/effects.py:62-63 | `int()` of a float truncates toward zero: the result lies within one of the argument, on the side of zero |
| Audio.SilentBlock | audiokit/nodes/effects.py:26-27 | without input an effect returns a stereo block of 1024 frames, all silent |
| Json.AsNumber | audiokit/nodes/effects.py:20-21 | a parsed value can take part in arithmetic exactly when it is an int, a float or a bool |
| Text.Suffix | audiokit/__init__.py:66 | a path suffix is empty or starts with a dot, ends the file name and holds no further dot |
| Text.SuffixOf | audiokit/__init__.py:66 | the suffix of `stem.ext` is `.ext` |
| Text.NoDotNoSuffix | audiokit/__init__.py:66 | a name without a dot has an empty suffix |
| ClientErrors.Base | audiokit_cli/errors.py:7-10 | the base error and `ProcessingError` keep the message as their string form and the status as given |
| ClientErrors.Api | audiokit_cli/errors.py:15-19 | an `APIError` carries the given status, or 500 when the status is missing or zero |
| ClientErrors.Auth | audiokit_cli/errors.py:24-25 | an `AuthError` has status 401 and the default message "Authentication failed" unless one is given |
| ClientErrors.Validation | audiokit_cli/errors.py:30-31 | a `ValidationError` has status 400 |
| ClientErrors.RateLimit | audiokit_cli/errors.py:35-36 | a `RateLimitError` has status 429 and keeps its message |
| ClientErrors.Server | audiokit_cli/errors.py:44-45 | a `ServerError` has status 500 and keeps its message |
| ClientErrors.PrefixesRoundTrip | audiokit_cli/errors.py:15-31 | the "API error: " and "Validation error: " prefixes can be stripped to recover the original message |
| ClientErrors.ApiStatus | audiokit_cli/errors.py:15-19 | an `APIError` status is never zero, and a non-zero status is kept unchanged |
| ClientErrors.FixedStatusesDistinct | audiokit_cli/errors.py:21-45 | the fixed statuses of the auth, validation, rate-limit and server errors are pairwise distinct, so the status identifies the class |
| KitErrors.Hierarchy | audiokit/errors.py:4-40 | every class is an `AudioKitError`; the `APIError`s are exactly `APIError` itself and the authentication and rate-limit errors; validation and processing errors have no subclasses |
| KitErrors.Make | audiokit/errors.py:6-15 | the constructor keeps message and code; absent details become an empty dictionary, and given details are kept |
| KitErrors.RateLimit | audiokit/errors.py:27-32 | a rate-limit error has the fixed message, code `RATE_LIMIT` and exactly one detail, `retry_after` |
| KitErrors.RateLimitRoundTrip | audiokit/errors.py:27-32 | the retry delay can be read back from the details, and different delays give different errors |
| UserConfig.PairOf | audiokit/config.py:30 | `dict.update` takes a key and value from a two-element list whose first element is a string, and from a two-character string |
| UserConfig.UpdatePairsOverlays | audiokit/config.py:30 | applying a list of pairs to a configuration is overlaying it with the map the same pairs build from nothing |
| UserConfig.UpdateStopsAtNonPair | audiokit/config.py:28-32 | the first element that is not a pair raises, and the pairs before it stay applied |
| UserConfig.Overlay | audiokit/config.py:27-32 | the configuration is overlaid with what the file contributes: an object's fields, or a list's leading pairs; a missing or unreadable file, a string or a scalar changes nothing |
| UserConfig.Load | audiokit/config.py:16-38 | the loaded keys are the defaults' plus the file's contribution; a non-empty `AUDIOKIT_API_BASE` sets `api_base_url` to that value plus `/api/v1`; every other key comes from the file if it contributes it, else from the defaults |
| UserConfig.Precedence | audiokit/config.py:16-38 | the environment variable beats the file and the file beats the defaults; an empty variable counts as unset; a failed load counts as no file; a document that is neither an object nor a list, or a list that starts with a non-pair, gives the defaults; a list's first pair is always loaded |
| UserConfig.SaveLoadRoundTrip | audiokit/config.py:24-45 | loading after saving gives the defaults overlaid with what was saved, and exactly what was saved when it covers the default keys |
| UserConfig.ApiBaseUrl | audiokit/config.py:48-50 | the base URL is the loaded `api_base_url`, and the default URL when neither the environment nor the file contributes it |
| CoreConfig.Get | audiokit/core/config.py:76-79 | a set variable wins over the default |
| CoreConfig.GetBool | audiokit/core/config.py:82-85 | a set variable is true exactly when its lower-cased value is one of true, 1, t, y, yes |
| CoreConfig.GetBoolDefault | audiokit/core/config.py:82-85 | an unset key gives back the boolean default; a set value is read without regard to case: values that lower to the same text read alike, and a value reads as its lower-cased form |
| Text.LowerIdempotent | audiokit/core/config.py:84 | lowering twice is lowering once |
| CoreConfig.ParseInt | audiokit/core/config.py:39 | text parses exactly when it is a non-empty run of decimal digits, optionally after one `+` or `-`; the digits give the value, negated after `-` |
| CoreConfig.ShowNatRoundTrip | audiokit/core/config.py:39 | the digits printed for a natural number have that number as their value |
| CoreConfig.ParseShowRoundTrip | audiokit/core/config.py:39 | parsing the printed form of any integer gives the integer back |
| CoreConfig.New | audiokit/core/config.py:23-40 | construction fails exactly when `PINECONE_DIMENSION` (default 1536) does not parse; every other setting is its variable or its default |
| CoreConfig.EmptyEnvDefaults | audiokit/core/config.py:25-40 | with an empty environment every setting is its documented default |
| CoreConfig.ToDict | audiokit/core/config.py:66-74 | the dictionary has exactly the five logging and directory keys, each holding its setting |
| CoreConfig.Join | audiokit/core/config.py:54-64 | a joined path ends with the name and starts with the directory, unless the directory is empty or `.` |
| CoreConfig.JoinName | audiokit/core/config.py:54-64 | the file name of a joined path is the name joined on, for a non-empty name without separators |
| CoreConfig.ModelPath | audiokit/core/config.py:54-56 | a model path lies in the models directory and names the model |
| CoreConfig.OutputPath | audiokit/core/config.py:58-60 | an output path lies in the output directory and names the file |
| CoreConfig.TempPath | audiokit/core/config.py:62-64 | a temporary path lies in the temporary directory and names the file |
| Sdk.ValidateAudioFile | audiokit/__init__.py:59-70 | a path is accepted exactly when it exists and its lower-cased suffix is .wav, .mp3 or .flac; a missing file is reported before a bad suffix, and the message quotes the suffix as written |
| Sdk.ValidateBySuffix | audiokit/__init__.py:66-68 | for an existing path only the suffix decides the verdict |
| Sdk.SuffixDecides | audiokit/__init__.py:66-68 | for `stem.ext` the lower-cased `.ext` alone decides, and a rejection quotes `.ext` as written |
| Sdk.UpperCaseAccepted | audiokit/__init__.py:66 | the suffix check ignores case: `x.WAV` is accepted |
| Sdk.OggRejected | audiokit/__init__.py:66-68 | `.ogg` is not an SDK format, unlike in the HTTP client |
| Sdk.NoSuffixRejected | audiokit/__init__.py:66-68 | a file name without a dot is rejected, with an empty suffix in the message |
| Sdk.AnalyzeAudio | audiokit/__init__.py:87-102 | validation errors pass through unchanged; any failing analysis step becomes "Audio analysis failed"; a result exists only for a valid file and has exactly the keys bpm_key, genre and instruments, holding the three analysis values |
| Sdk.Analysis | audiokit/__init__.py:92-96 | the analysis dictionary has exactly three keys, each holding its analysis value |
| Sdk.ProcessAudio | audiokit/__init__.py:132-143 | a result key is present exactly when its operation was requested; the call fails exactly when a requested operation raises |
| Sdk.NoFlagsNoKeys | audiokit/__init__.py:132-143 | with no operation requested the result is empty |
| Sdk.GenerateContent | audiokit/__init__.py:160-170 | a mood board key is present exactly for a non-empty path, and an instrument key exactly for a non-empty description |
| Sdk.EmptyArgumentsGenerateNothing | audiokit/__init__.py:162-168 | empty strings count as absent arguments |
| Client.Locations | audiokit_cli/__init__.py:30-35 | the candidate files, in order: the explicit path, config.yml, audiokit/config.yml, ~/.audiokit/config.yml |
| Client.FindConfig | audiokit_cli/__init__.py:29-45 | the configuration is the document of the first candidate that exists and loads; it is an empty mapping when none does |
| Client.SkipUnusable | audiokit_cli/__init__.py:38-45 | a missing or unloadable candidate never affects the result: dropping it changes nothing |
| Client.ToFloat | audiokit_cli/__init__.py:54 | `float()` of an int or a float is that number; null, lists and mappings do not convert |
| Client.ToInt | audiokit_cli/__init__.py:55 | `int()` keeps ints, truncates floats toward zero and maps booleans to 1 and 0; null, lists and mappings do not convert |
| Client.Settle | audiokit_cli/__init__.py:48-55 | truthy arguments beat the file, and the file beats the defaults; with no timeout or size configured, the defaults of 30 s and 50 MiB apply; construction fails exactly when `float()` of the timeout or `int()` of the size limit fails, the timeout checked first, and otherwise the settings hold those converted values |
| Client.InitAsWritten | audiokit_cli/__init__.py:38-55 | a configuration document that is not a mapping makes construction fail, naming its type |
| Client.EmptyFileBreaksInit | audiokit_cli/__init__.py:42-48 | an existing empty config.yml makes construction fail even when both URL and key are passed |
| Client.Init | audiokit_cli/__init__.py:29-55 | an empty document is read as an empty mapping; otherwise the as-written constructor applies; only non-mapping documents fail on their type |
| Client.EmptyConfigDefaults | audiokit_cli/__init__.py:29-55 | with an empty configuration, construction succeeds with the default URL and no key, unless the arguments give them |
| Client.Headers | audiokit_cli/__init__.py:92-94 | the key header is sent exactly when the key is truthy, it holds the key, and it is the only header |
| Client.ContentType | audiokit_cli/__init__.py:106-111 | a content type exists exactly for .wav, .mp3, .ogg and .flac |
| Client.ContentTypesDistinct | audiokit_cli/__init__.py:106-111 | distinct formats are uploaded with distinct content types |
| Client.CheckUpload | audiokit_cli/__init__.py:99-111 | a stream passes unchecked; a missing path is a validation error naming it; an existing path passes exactly when its lower-cased suffix is a client format, and otherwise the error quotes the suffix |
| Client.Classify | audiokit_cli/__init__.py:117-153 | 401 and 403 are auth errors; 400 with a mapping body is a validation error quoting `detail`; any other failing status is an `APIError` with that status; a failed request is an `APIError`; success requires a 2xx status and a mapping body, which is returned unless its `errors` field is truthy but not iterable (a non-zero number or `true`), where the warning loop raises TypeError |
| Client.Attempt | audiokit_cli/__init__.py:97-153 | the upload checks run before the request, and their failure is the result |
| Client.AnalyzeAsWritten | audiokit_cli/__init__.py:97-156 | as written, every failure, including the client's own errors, is re-raised as an `APIError` "Analysis failed: ..." without a status |
| Client.AsWrittenAlwaysApi500 | audiokit_cli/__init__.py:155-156 | as written, every failure of `analyze` reaches the caller as an `APIError` with status 500 |
| Client.AsWrittenHidesAuthError | audiokit_cli/__init__.py:125-156 | as written, a rejected key (401) reaches the caller as an `APIError`, not an `AuthError` |
| Client.Analyze | audiokit_cli/__init__.py:75-156 | the client's own errors pass through unchanged, as the documentation promises; only foreign exceptions are wrapped |
| Client.AnalyzeClassifies | audiokit_cli/__init__.py:75-156 | a missing file is a `ValidationError`; 401 and 403 are `AuthError`s with status 401; other failing statuses keep their status; success agrees with the as-written version |
| Client.MissingFileClassified | audiokit_cli/__init__.py:101-102 | a missing file ends `analyze` with a `ValidationError` |
| Client.StatusClassified | audiokit_cli/__init__.py:125-151 | after the upload checks pass, 401 and 403 are `AuthError`s and other failing statuses are errors carrying that status |
| Client.SuccessAgrees | audiokit_cli/__init__.py:134-139 | the corrected and as-written `analyze` succeed on the same inputs, with the same result |
| Graph.ToKey | audiokit/graph/manager.py:16-18 | every id except a list or a mapping is hashable, and a string id is its own key |
| Graph.Empty | audiokit/graph/manager.py:10-13 | a new manager has no nodes and no connections, and is well formed |
| Graph.AddNode | audiokit/graph/manager.py:16-18 | the node is stored under its id, replacing any node with an equal id; other nodes and the connections are untouched; an unhashable id raises |
| Graph.Connect | audiokit/graph/manager.py:21-28 | connecting succeeds exactly when both ids name stored nodes, the source being checked first; on success the pair is appended and the nodes are untouched |
| Graph.GetNode | audiokit/graph/manager.py:31-33 | the stored node is returned exactly when its id was added, and nothing otherwise |
| Graph.ConnectionsInOrder | audiokit/graph/manager.py:35-37 | the connection list starts empty, each connect appends its pair at the end, and adding a node leaves the list unchanged |
| Graph.AddNodePreserves | audiokit/graph/manager.py:16-18 | adding a node keeps every node under its own id and every connection between stored nodes |
| Graph.ConnectPreserves | audiokit/graph/manager.py:21-28 | connecting keeps every connection between stored nodes |
| Graph.ReplaceKeepsConnections | audiokit/graph/manager.py:16-18 | re-adding an id replaces the node without growing the graph or dropping connections |
| Nodes.RegistryContents | audiokit/nodes/__init__.py:9-15 | exactly the input, output and filter nodes are registered, each under its class name |
| Nodes.ParametersAsWritten | audiokit/nodes/io.py:46-62 | as written, every class but the output node declares its full parameter set; the output node declares only the inherited sample rate |
| Nodes.OutputChannelsUndeclared | audiokit/nodes/io.py:49-56 | the output node reads `channels` but does not declare it |
| Nodes.DeclaredIsRead | audiokit/nodes/base.py:22-31 | with the output node corrected, each class declares exactly the parameters its constructor reads |
| Nodes.DeclaredNames | audiokit/nodes/effects.py:30-186 | the parameter names each class declares |
| Nodes.SampleRateInherited | audiokit/nodes/base.py:22-31 | every class declares the base sample rate: an int, default 44100 |
| Nodes.FilterDesign | audiokit/nodes/effects.py:18-22 | the design succeeds exactly when both values are numbers, the rate is non-zero and the normalised cutoff lies strictly between 0 and 1; it then returns that cutoff and its coefficients |
| Nodes.Build | audiokit/nodes/base.py:10-16 | a node keeps its id and parameters and reads `sample_rate` (default 44100); a `node_id` keyword is a duplicate argument; device nodes always build and read `channels` (default 2); a filter builds exactly when its design succeeds |
| Nodes.DefaultsAreDeclared | audiokit/nodes/effects.py:12-47 | the defaults a node falls back on are those its class declares, and the default filter builds at 1000/22050 of Nyquist |
| Nodes.LowSampleRateRejectsDefaultCutoff | audiokit/nodes/effects.py:18-22 | at 2000 Hz or below, the default 1000 Hz cutoff is rejected |
| Nodes.Process | audiokit/nodes/base.py:18-20 | the base node raises; the input node returns what it read; the output node returns its input unchanged; every effect returns silence for no input; the node keeps its id and parameters |
| Filter.LFilter | audiokit/nodes/effects.py:28 | the transposed direct-form-II loop computes exactly the second-order difference equation from a zero state |
| Filter.SilentResponse | audiokit/nodes/effects.py:28 | silence in gives silence out |
| Filter.Causal | audiokit/nodes/effects.py:28 | an output never depends on a later input |
| Filter.FrameAsWrittenClosedForm | audiokit/nodes/effects.py:28 | filtering along the last axis treats each frame as a two-sample signal, and the right output picks up `b1 - a1*b0` times the left input |
| Filter.AsWrittenMixesChannels | audiokit/nodes/effects.py:28 | as written, a click on the left channel alone leaks into the right channel |
| Filter.ChannelsIndependent | audiokit/nodes/effects.py:28 | filtered along time per channel, a silent right channel stays silent and the left channel is the mono response |
| Filter.FramesAsWritten | audiokit/nodes/effects.py:28 | along the last axis, every frame `(l, r)` of a stereo block becomes `(b0*l, b0*r + (b1 - a1*b0)*l)` |
| Filter.ProcessBlock | audiokit/nodes/effects.py:24-28 | no input gives silence; a block keeps its length and shape; a mono block is the filter response; along the last axis, as the code runs it, each stereo frame `(l, r)` becomes `(b0*l, b0*r + (b1 - a1*b0)*l)`; along time each channel is its own filter response |
| Filter.SilenceStaysSilent | audiokit/nodes/effects.py:24-28 | along either axis, a silent stereo block comes out silent, with the same length |
| Filter.TimeAxisKeepsChannelsApart | audiokit/nodes/effects.py:28 | filtered along time, a stereo block with a silent right channel keeps it silent, and its left channel is the mono response |
| Compressor.New | audiokit/nodes/effects.py:53-64 | attack and release are whole sample counts, truncated from ms times rate over 1000, and the envelope starts at 0 dB |
| Compressor.TargetAsWritten | audiokit/nodes/effects.py:75-77 | as written, the gain-reduction target is never positive |
| Compressor.AsWrittenAttenuatesQuietSamples | audiokit/nodes/effects.py:75-77 | as written, at the default settings a 0 dB sample gets no reduction while a -40 dB sample loses 15 dB |
| Compressor.Target | audiokit/nodes/effects.py:75-77 | the corrected target is never positive |
| Compressor.TargetIsCompression | audiokit/nodes/effects.py:75-77 | the corrected target leaves levels at or below the threshold alone, maps a level above it to threshold + (level - threshold)/ratio, and never reduces at ratio 1 |
| Compressor.EnvStep | audiokit/nodes/effects.py:80-88 | the envelope moves toward a lower target by 1/attack of the gap, and otherwise by 1/release of it |
| Compressor.EnvStepBetween | audiokit/nodes/effects.py:80-88 | with counts of at least one, a step lands between the old envelope and the target |
| Compressor.EnvelopeBounded | audiokit/nodes/effects.py:80-88 | the envelope never leaves an interval that holds its start value and every target |
| Compressor.Targets | audiokit/nodes/effects.py:75-77 | one target per sample, each the chosen curve's target for that sample's level |
| Compressor.ProcessBlock | audiokit/nodes/effects.py:66-92 | no input gives silence; ratio 0 divides by zero; a non-empty stereo block is an ambiguous comparison; a mono block drives the envelope through every target of the chosen curve (the inverted one as the node runs it) and is scaled by the gain of the final envelope plus makeup |
| Compressor.EnvelopeNeverBoosts | audiokit/nodes/effects.py:80-88 | on either curve, from a non-positive start, the envelope stays at or below 0 dB and at or above any common lower bound of the start and the targets |
| Compressor.UnitRatioIsTransparent | audiokit/nodes/effects.py:66-92 | at ratio 1, on either curve, only the makeup gain is applied |
| Compressor.LoudBlockPassesAsWritten | audiokit/nodes/effects.py:66-92 | as written, a block whose every sample is at or above the threshold is left uncompressed: only the makeup gain applies |
| Compressor.QuietBlockPassesCorrected | audiokit/nodes/effects.py:66-92 | with the downward curve, a block whose every sample is at or below the threshold is left uncompressed |
| Delay.New | audiokit/nodes/effects.py:132-141 | the buffer holds int(delay ms times rate over 1000) silent frames and the cursor is at 0; a negative size is an error |
| Delay.Step | audiokit/nodes/effects.py:150-160 | one frame: the slot under the cursor is overwritten with input plus feedback times the frame it held; the cursor advances modulo the size; as written the output mixes the dry frame with the row just written (the view `delayed` aliases it), corrected with the frame read before the overwrite |
| Delay.RowViewClosedForm | audiokit/nodes/effects.py:153-160 | as written, one frame outputs the dry frame in full plus `mix*feedback` times the frame the slot held |
| Delay.ReadPosIsWritePos | audiokit/nodes/effects.py:152-153 | the read index `(write_pos - size) % size` is the write cursor itself |
| Delay.Process | audiokit/nodes/effects.py:150-162 | a block keeps its length and the line's size, feedback and mix, with either tap |
| Delay.CursorAdvance | audiokit/nodes/effects.py:157 | after k frames the cursor has moved k places modulo the buffer size |
| Delay.ProcessBlock | audiokit/nodes/effects.py:143-162 | no input gives silence and no change; an empty block passes through; a non-empty block needs a non-empty buffer; a non-empty mono block fails when the loop stores the two-channel wet frame into a scalar output slot, after the first sample has been written into both channels of the row under the cursor and the cursor has advanced, and the error carries that line; a non-empty stereo block runs the frame loop as written |
| Delay.RingInvariant | audiokit/nodes/effects.py:150-160 | after k frames the ring holds what was written in the last size frames, and the outputs so far are the reference outputs of the tap |
| Delay.FreshOutputIsDelayed | audiokit/nodes/effects.py:150-160 | a fresh line outputs at time k the dry frame mixed with the reference wet frame: corrected, what was written exactly size frames earlier (an exact delay by the buffer size); as written, what was written at time k |
| Delay.AsWrittenOutput | audiokit/nodes/effects.py:150-160 | as written, a fresh line outputs at time k the dry frame plus `mix*feedback` times what was written size frames earlier |
| Delay.NewLineAsWritten | audiokit/nodes/effects.py:132-162 | a newly constructed line fed a stereo block outputs, at every time k, the dry frame plus `mix*feedback` times what was written size frames earlier |
| Delay.ProcessConcat | audiokit/nodes/effects.py:143-162 | processing two blocks in turn equals processing their concatenation |
| Delay.SilenceStaysSilent | audiokit/nodes/effects.py:150-160 | with either tap, a silent line fed silence stays silent and outputs silence |
| Delay.NewLineSilentOnSilence | audiokit/nodes/effects.py:132-162 | a newly constructed line fed a silent block outputs silence |
| Delay.ImpulseResponse | audiokit/nodes/effects.py:150-160 | corrected, a unit impulse yields (1 - mix) at time 0, mix times feedback^(q-1) at every multiple q of the size, and silence elsewhere |
| Delay.ImpulseResponseAsWritten | audiokit/nodes/effects.py:150-160 | as written, a unit impulse yields 1 at time 0 whatever the mix, mix times feedback^q at every multiple q of the size, and silence elsewhere |
| PipelineCli.Entries | audiokit/cli/pipeline.py:29 | a list yields its items; an empty mapping or string yields nothing; anything else cannot be walked entry by entry |
| PipelineCli.KindOf | audiokit/cli/pipeline.py:33 | a type resolves exactly when it is a registered class name |
| PipelineCli.BuildEntry | audiokit/cli/pipeline.py:29-34 | a built node has the entry's registered type and id, and its parameters default to the empty mapping |
| PipelineCli.AddAll | audiokit/cli/pipeline.py:29-34 | a successful node loop built every entry, kept the existing nodes and left the connections alone |
| PipelineCli.ConnectAll | audiokit/cli/pipeline.py:37-38 | a successful connection loop appends every entry's endpoints in order and leaves the nodes alone |
| PipelineCli.Create | audiokit/cli/pipeline.py:17-46 | `create` succeeds only when both lists are present and walkable |
| PipelineCli.CreateConnectionsInOrder | audiokit/cli/pipeline.py:37-38 | a created graph holds exactly the configured connections, in order |
| PipelineCli.AddAllWellFormed | audiokit/cli/pipeline.py:29-34 | the node loop keeps the graph well formed |
| PipelineCli.ConnectAllWellFormed | audiokit/cli/pipeline.py:37-38 | the connection loop keeps the graph well formed |
| PipelineCli.CreateWellFormed | audiokit/cli/pipeline.py:28-38 | every node of a created graph is keyed by its id, and every connection joins two configured nodes |
| PipelineCli.AddAllSucceeds | audiokit/cli/pipeline.py:29-34 | the node loop succeeds exactly when every entry builds and has a hashable id |
| PipelineCli.AddAllKeys | audiokit/cli/pipeline.py:29-34 | on success, the node loop adds exactly the keys of the entries' ids to those already present |
| PipelineCli.ConnectAllSucceeds | audiokit/cli/pipeline.py:37-38 | the connection loop succeeds when every entry names two nodes of the graph |
| PipelineCli.ChainBuilds | audiokit/cli/pipeline.py:28-38 | buildable nodes connected in a chain create a graph keyed by their ids, with the chain as its connections |
| PipelineCli.NonStrictIsTypeCheck | audiokit/cli/pipeline.py:135-138 | non-strict validation passes exactly when the node list is walkable and every type is a registered name |
| PipelineCli.StrictImpliesNonStrict | audiokit/cli/pipeline.py:140-149 | strict validation implies non-strict validation, and `sample_rate` is accepted for every registered type |
| PipelineCli.ValidateIgnoresConnections | audiokit/cli/pipeline.py:130-155 | validation never looks at `connections` |
| PipelineCli.ValidateListed | audiokit/cli/pipeline.py:135-149 | a listed node set is valid exactly when every entry is |
| PipelineCli.CreateImpliesValid | audiokit/cli/pipeline.py:124-155 | a document `create` accepts passes non-strict validation, and the converse fails |
| PipelineCli.Template | audiokit/cli/pipeline.py:115-118 | only "basic" and "filter" are templates; any other name, including the advertised "effect", fails |
| PipelineCli.BasicTemplateBuilds | audiokit/cli/pipeline.py:75-89 | the basic template creates two nodes joined input to output |
| PipelineCli.FilterTemplateBuilds | audiokit/cli/pipeline.py:90-112 | the filter template creates the chain input, filter, output |
| PipelineCli.OutputEntryStrict | audiokit/cli/pipeline.py:82-86 | the output entry passes strict validation with corrected descriptors, and fails it as written |
| PipelineCli.TemplatesFailStrictAsWritten | audiokit/cli/pipeline.py:140-149 | as written, neither template passes strict validation, though both pass non-strict validation |
| PipelineCli.TemplatesPassStrict | audiokit/cli/pipeline.py:140-149 | with the output node declaring `channels`, both templates pass strict validation |
| Progress.Initial | audiokit/progress.py:16-23 | a new record has no total, nothing completed, no message and no details |
| Progress.Percentage | audiokit/progress.py:25-30 | the percentage is undefined exactly without a non-zero total, and otherwise times the total gives 100 times the completed count |
| Progress.PercentageEnds | audiokit/progress.py:25-30 | all done is 100 percent and nothing done is 0 percent |
| Progress.PercentageBounded | audiokit/progress.py:25-30 | within 0 and the total, the percentage lies between 0 and 100 |
| Progress.NewTracker | audiokit/progress.py:35-44 | a new tracker is pending, with an empty queue and no task |
| Progress.Update | audiokit/progress.py:61-90 | each given argument replaces its field, the others are kept, and one item is queued |
| Progress.EmptyUpdate | audiokit/progress.py:61-90 | an update without arguments changes nothing but still queues an item |
| Progress.QueueAliasesLiveRecord | audiokit/progress.py:61-90 | every queued item shows the latest state, so an earlier update's values cannot be observed |
| Progress.UpdatesCommute | audiokit/progress.py:61-90 | updates to different fields commute |
| Progress.Start | audiokit/progress.py:46-49 | after start there is a task, and progress and queue are unchanged |
| Progress.Stop | audiokit/progress.py:51-59 | after stop there is no task; without one, stop does nothing |
| Progress.StartStopIdempotent | audiokit/progress.py:46-59 | start and stop are idempotent, stop undoes start, and start does nothing while a task exists |
| Plugins.TopLevel | audiokit/plugins/base.py:67 | `split('.')[0]` is the longest dot-free prefix of the name |
| Plugins.FirstForbidden | audiokit/plugins/base.py:65-68 | finds the first name outside the allow-list, or reports that there is none |
| Plugins.CheckImport | audiokit/plugins/base.py:64-71 | a statement passes exactly when every module it imports is allowed; a `from . import` without a module name fails; the error names a forbidden module |
| Plugins.ValidateImports | audiokit/plugins/base.py:59-71 | a plugin passes exactly when every statement does, and otherwise the first failing statement's error is reported |
| Plugins.ValidateAppend | audiokit/plugins/base.py:64-71 | statements are checked in order: an earlier failure decides, and a passing prefix defers to the rest |
| Plugins.LoadPlugin | audiokit/plugins/base.py:41-57 | a plugin loads exactly when it is signed, verifies, imports only allowed modules and, as written, holds no class; a missing signature is a verification error, not a security error; as written a plugin that passes and holds a class is executed and then fails the protocol check with a TypeError |
| Plugins.LoadPlugins | audiokit/plugins/base.py:34-39 | security errors block one plugin each and loading continues; every loaded plugin passed every check; loading aborts exactly when some other error occurs |
| Plugins.ForbiddenNeverRuns | audiokit/plugins/base.py:34-51 | a plugin with a forbidden import is never loaded |
| Plugins.StopsAt | audiokit/plugins/base.py:34-39 | the first failure that is not a security error aborts loading, after every plugin before it was loaded or blocked |
| Plugins.UnsignedStopsLoading | audiokit/plugins/base.py:34-39 | an unsigned plugin aborts loading after the plugins before it |
| Plugins.ClassStopsLoadingAsWritten | audiokit/plugins/base.py:51-54 | as written, the first plugin that passes its checks and holds a class aborts loading with the protocol check's TypeError |
| Plugins.AllLoadRuntimeCheckable | audiokit/plugins/base.py:34-57 | with a runtime-checkable protocol, plugins that all pass their checks all load, in order, and none is blocked |
| PipelineWidget.IsOverNode | audiokit/cli/widgets/pipeline.py:290-292 | the cursor cell is over a node when it lies less than two cells from the node's fractional position on both axes |
| PipelineWidget.HitRegion | audiokit/cli/widgets/pipeline.py:290-292 | a node at a whole position is hit from the three-by-three block around it, and one at a half-cell position from a four-by-four block |
| PipelineWidget.FirstHit | audiokit/cli/widgets/pipeline.py:129-133 | the first node in position order under the cursor, or none |
| PipelineWidget.ClickedNode | audiokit/cli/widgets/pipeline.py:129-133 | a clicked node is a positioned node under the cursor |
| PipelineWidget.OnClick | audiokit/cli/widgets/pipeline.py:126-159 | a click on nothing changes nothing; a left click completes a pending connection (to a different node) or selects, or with shift starts connecting; a right click deletes the edge from the selection; other buttons post nothing; completing a connection posts exactly when the clicked node differs from the pending one, and a right click on a node posts exactly when a node is selected |
| PipelineWidget.ShiftClickConnects | audiokit/cli/widgets/pipeline.py:136-151 | shift-click on one node and click on another create one connection between them, leaving the selection alone |
| PipelineWidget.ClickOnSourceCancels | audiokit/cli/widgets/pipeline.py:136-151 | clicking the connection source again cancels connecting without a message |
| PipelineWidget.Style | audiokit/cli/widgets/pipeline.py:192-200 | selection beats hover, hover beats the connection source, the source beats activity |
| PipelineWidget.StylesKnown | audiokit/cli/widgets/pipeline.py:192-200 | every node is drawn in one of the five styles |
| PipelineWidget.Title | audiokit/cli/widgets/pipeline.py:216-220 | connecting mode is announced in preference to the selection |
| PipelineWidget.ShiftClickTitle | audiokit/cli/widgets/pipeline.py:216-220 | after a shift-click on a node, the title announces connecting mode |
| Visualizers.Mix | audiokit/cli/widgets/visualizers.py:47-53 | a stereo block becomes the mean of each frame, and a mono block is kept |
| Visualizers.Roll | audiokit/cli/widgets/visualizers.py:51 | rolling by n keeps the size and puts at index i the sample that was n places further on, wrapping round |
| Visualizers.RollByWindow | audiokit/cli/widgets/visualizers.py:51 | rolling by a multiple of the window size gives the buffer back |
| Visualizers.Slide | audiokit/cli/widgets/visualizers.py:47-53 | the window keeps its size; the slide succeeds exactly when the data fits, or when nothing or one value goes into an empty buffer; data that fits drops the oldest samples and is appended; otherwise the assignment fails to broadcast and the buffer is left rolled |
| Visualizers.SlideTwice | audiokit/cli/widgets/visualizers.py:47-53 | two slides in a row equal one slide of the concatenated data |
| Visualizers.FullSlideReplaces | audiokit/cli/widgets/visualizers.py:47-53 | a full window of data replaces the buffer |
| Visualizers.UpdateWaveform | audiokit/cli/widgets/visualizers.py:47-53 | the update succeeds exactly when the block fits the window (or an empty window takes at most one frame); a block that fits drops the oldest samples and ends the window with its mixed samples; a failing update leaves the window rolled by the block's length |
| Visualizers.NewAnalyzerAsWritten | audiokit/cli/widgets/visualizers.py:100-101 | as written, the analyzer stores fft_size/2 spectrum values |
| Visualizers.NewAnalyzer | audiokit/cli/widgets/visualizers.py:100-101 | the corrected analyzer stores as many values as the real FFT returns |
| Visualizers.UpdateSpectrum | audiokit/cli/widgets/visualizers.py:109-126 | the update succeeds exactly when the window slides and the two spectra broadcast (equal sizes, or one holds a single value); the new spectrum has the broadcast size and moves a fifth of the way toward the measured one, elementwise; a size mismatch keeps the slid window; a block that does not fit leaves the spectrum alone and the window rolled by the block's length |
| Visualizers.AsWrittenSpectrumNeverUpdates | audiokit/cli/widgets/visualizers.py:117-125 | as written, the first spectrum update of a new analyzer of at least four samples always fails |
| Visualizers.SpectrumUpdateSucceeds | audiokit/cli/widgets/visualizers.py:109-126 | with the corrected size, every update that fits succeeds and keeps the sizes |
| Visualizers.NewMeter | audiokit/cli/widgets/visualizers.py:195-202 | a meter exists exactly for the six known styles, and starts valid at -60 dB with a hold time of 30 |
| Visualizers.UpdateLevel | audiokit/cli/widgets/visualizers.py:204-213 | a new peak restarts the hold, a held peak counts down, and an expired peak becomes the larger of the level and the peak less 0.5 dB |
| Visualizers.UpdateKeepsValid | audiokit/cli/widgets/visualizers.py:204-213 | every update keeps the peak at or above the level and the counter within the hold time |
| Visualizers.PeakHeld | audiokit/cli/widgets/visualizers.py:204-213 | within the hold time, quieter updates keep the peak and count down one per update |
| Monitor.New | audiokit/cli/widgets/monitor.py:32-43 | a new monitor has zero levels, decay 0.95, a valid modern meter and correctly sized windows |
| Monitor.UpdateLevels | audiokit/cli/widgets/monitor.py:52-59 | a tick keeps both channels and leaves the decay and the child widgets unchanged |
| Monitor.LevelsDecay | audiokit/cli/widgets/monitor.py:52-59 | each level is multiplied by the decay |
| Monitor.PeakHoldCovers | audiokit/cli/widgets/monitor.py:52-59 | the peak hold is the largest of the decayed peak and the new levels |
| Monitor.LevelsNeverRise | audiokit/cli/widgets/monitor.py:52-59 | with a decay in [0, 1], levels never rise and stay non-negative |
| Monitor.UpdateInputLevels | audiokit/cli/widgets/monitor.py:99-103 | an input block never touches the monitor's own levels; the waveform always takes the block; a failing waveform stops before the analyzer, which stays as it was; otherwise the analyzer takes the block and its outcome is the call's; the VU meter takes the new level when both succeed and keeps its state when one fails |
| Monitor.UpdateOutputLevels | audiokit/cli/widgets/monitor.py:105-108 | an output block changes nothing |
| Monitor.LevelsStayZero | audiokit/cli/widgets/monitor.py:52-108 | starting from zero, the level and peak-hold meters read zero forever, whatever audio arrives |
| Monitor.InputReachesMeter | audiokit/cli/widgets/monitor.py:99-103 | an input block that fits the windows reaches the VU meter |

## Left out

- Sound devices: opening the input and output streams, what the input stream reads (a parameter of `Nodes.Process`) and what the output stream plays are outside the model.
- `scipy.signal.butter` enters as a function from normalised cutoff to coefficients. The `resonance` parameter is stored but never used, as in the code.
- The decibel level `20*log10(...)`, the gain `10^(db/20)`, the FFT and the logarithm of the VU meter are abstract functions or inputs. Samples are reals, not float32.
- `AudioGraphManager.process` is an empty stub and is not modelled.
- `list_nodes` only prints the descriptors that `Nodes.ParametersAsWritten` models.
- Printed messages, logging, YAML dumping and reading the files themselves are left out. The model starts from the parsed document.
- Compressor.ProcessBlock: requires non-zero attack and release sample counts. With a zero count the code divides a numpy float by 0 and the envelope becomes infinite or NaN with a warning, which reals cannot represent. A non-empty stereo block is reported as an ambiguous truth value without modelling numpy's element-wise comparison further.
- Nodes.Build: parameters that are not numbers are reported as `NotANumber` as a whole. The model does not track which Python exception arises where.
- CoreConfig.ParseInt: reads an optional sign and ASCII decimal digits. Python's `int()` also accepts surrounding whitespace, underscores and non-ASCII Unicode digits, which are not modelled.
- Text.Lower: lowers ASCII letters only. Python's `str.lower()` also lowers non-ASCII letters, so `GetBool` and the suffix checks agree with Python on ASCII text only.
- CoreConfig.Join: does not normalise `..` or absolute names the way `pathlib` does.
- Directory creation in the global configuration is not modelled.
- Filter.ProcessBlock: models `lfilter` from a zero initial state on every block, as the code calls it; the filter keeps no state across blocks. Blocks with more than two channels are not modelled.
- The widgets' rendering, layout, line drawing between nodes and refresh timers are left out. Only their state and the state transitions are modelled.
- Client.Show: prints strings, null, booleans and integers as Python does. Other detail values are shown as a placeholder.
- Client.ToFloat: reads strings only as integer literals, not as float literals.
- Client.CheckUpload: quotes the path as given, without `pathlib` normalisation.
- A failure of `open()` on an existing file is not modelled.
- httpx is modelled by its outcome: a status with the text of the status error it would raise, a parsed body, or a failed request. The request itself is not sent.
- Plugin execution and command registration are not modelled: whether the executed module holds a class is an input of `Plugins.PluginFile`, and a plugin whose load finishes counts as loaded. Signature and checksum verification (audiokit/plugins/security.py) is an input.
- Visualizers.Mix: handles mono and stereo blocks only; blocks with three or more channels are not modelled.
- The SDK's AI components (analyzer, processor, generator) and the Soundcharts client are inputs. `None` stands for a call that raised.
- audiokit_cli/progress.py is a line-for-line copy of audiokit/progress.py and is modelled once, by `Progress`.
- The asyncio queue is modelled by its item count and the background task by whether it exists. The callback and `_process_updates` are not modelled.
- UserConfig.Overlay: a two-element list whose first element is a number, a boolean or null, and a two-key object inside a list document, are treated as stopping the update. `dict.update` would store the first under a non-string key and the second under its first key, which string-keyed maps and unordered objects cannot express.
- UserConfig.Save: `json.dump` followed by `json.load` is taken as the identity on string-keyed documents, so `SaveLoadRoundTrip` assumes the saved values are finite numbers, strings, booleans, null, lists and objects.
- Monitor.New: builds its spectrum analyzer with the corrected size (see Findings). An analyzer built as written would fail every spectrum update.

## Findings

| source | as written | input that shows it | evidently intended | confidence | as-written member | corrected member |
|---|---|---|---|---|---|---|
| audiokit/nodes/io.py:46-62 | the output node reads `channels` but inherits the base `get_parameters`, so it does not declare it | `pipeline validate --strict` on either generated template | the output node declares `channels`, as the input node does, so the templates validate (the corrected descriptor's text is this model's own) | not executed | PipelineCli.TemplatesFailStrictAsWritten | PipelineCli.TemplatesPassStrict |
| audiokit_cli/__init__.py:155-156 | the outer `except Exception` re-wraps the client's own errors as `APIError("Analysis failed: ...")` with status 500 | a reply with status 401 | `AuthError`, `ValidationError` and status-carrying `APIError` reach the caller, as the docstring lists | not executed | Client.AsWrittenHidesAuthError | Client.AnalyzeClassifies |
| audiokit_cli/__init__.py:38-55 | `.get` is called on whatever `yaml.safe_load` returned, and an empty file loads as `None` | an existing empty `config.yml`, with URL and key passed explicitly | an empty configuration behaves as no configuration | not executed | Client.EmptyFileBreaksInit | Client.EmptyConfigDefaults |
| audiokit/nodes/effects.py:75-77 | the reduction is `(level - threshold) * (1 - 1/ratio)`, so loud samples are left alone and quiet ones attenuated | default settings with a sample at -40 dB | downward compression above the threshold: `(threshold - level) * (1 - 1/ratio)` | not executed | Compressor.AsWrittenAttenuatesQuietSamples | Compressor.TargetIsCompression |
| audiokit/nodes/effects.py:28 | `lfilter` runs along the last axis, which for an (n, 2) block is across the two channels of each frame | a stereo block whose left channel has a click and whose right channel is silent | filtering along time in each channel (`axis=0`) | not executed | Filter.AsWrittenMixesChannels | Filter.TimeAxisKeepsChannelsApart |
| audiokit/cli/widgets/visualizers.py:101 | the spectrum holds `fft_size // 2` values, while `rfft` of `fft_size` samples returns `fft_size // 2 + 1` | the first update of a new analyzer with `fft_size` of at least 4 (the default is 2048) | a spectrum sized as the transform | not executed | Visualizers.AsWrittenSpectrumNeverUpdates | Visualizers.SpectrumUpdateSucceeds |
| audiokit/nodes/effects.py:153-160 | `delayed = self.buffer[read_pos]` is a view of the row under the write cursor, and the loop overwrites that row before it mixes, so the output is `x + mix*feedback*delayed` | a unit impulse into a fresh line: 1 at time 0 whatever the mix, and `mix*feedback` (not `mix`) one buffer length later | a feedback delay that mixes the frame read before the overwrite: `(1 - mix)*x + mix*delayed` | not executed | Delay.ImpulseResponseAsWritten | Delay.ImpulseResponse |
| audiokit/plugins/base.py:53-54 | `issubclass(obj, CLIPlugin)` is called with a `Protocol` that is not `runtime_checkable`, which raises TypeError; `load_plugins` catches only the security error | a signed plugin with allowed imports that defines its command class or imports one (`from pathlib import Path`) | plugins that define a command class are registered, and loading goes on | not executed | Plugins.ClassStopsLoadingAsWritten | Plugins.AllLoadRuntimeCheckable |
