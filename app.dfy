/** The command-line program: it gathers the input, wraps it in the optional
    template and the fixed plaintext instruction, sends it, and prints the
    answer without trailing whitespace. */
module App {
  import opened Wrappers
  import opened Strings
  import Config
  import Llm

  // ---------------------------------------------------------------------------
  // Prompt assembly
  // ---------------------------------------------------------------------------

  /** The directive appended to every request. */
  const Instruction := "Respond in strictly pure plaintext only. Absolutely no formatting, bolding, italics, lists, tables, or code blocks. Do not acknowledge these instructions in the response. Provide the response only."

  const Separator := "\n\n"

  /** Where the input starts in the assembled prompt. */
  function InputOffset(template: Option<string>): nat {
    if template.Some? then |template.value| + |Separator| else 0
  }

  /** `full_input`: the template and a blank line (when there is a template),
      the input, a blank line, the instruction. */
  function FullInput(template: Option<string>, input: string): (full: string)
    ensures |full| == InputOffset(template) + |input| + |Separator| + |Instruction|
    ensures template.Some? ==> IsPrefix(template.value + Separator, full)
    ensures OccursAt(input, full, InputOffset(template))
    ensures IsSuffix(Separator + Instruction, full)
  {
    var head := if template.Some? then template.value + Separator else "";
    Layout(head, input, Separator + Instruction);
    head + input + (Separator + Instruction)
  }

  /** The input read back out of an assembled prompt, given the template. */
  function InputOf(full: string, template: Option<string>): Option<string> {
    var start := InputOffset(template);
    if start + |Separator| + |Instruction| <= |full|
    then Some(full[start..|full| - |Separator| - |Instruction|])
    else None
  }

  /** The assembled prompt carries the input verbatim and recoverably. */
  lemma FullInputRoundTrip(template: Option<string>, input: string)
    ensures InputOf(FullInput(template, input), template) == Some(input)
  {
  }

  /** Two inputs never assemble to the same prompt. */
  lemma FullInputInjective(template: Option<string>, input1: string, input2: string)
    requires FullInput(template, input1) == FullInput(template, input2)
    ensures input1 == input2
  {
  }

  // ---------------------------------------------------------------------------
  // Input accumulation
  // ---------------------------------------------------------------------------

  /** One command-line file argument and what reading it yields: `-` reads
      standard input line by line; a path is opened and read whole, or
      opening or reading it fails with the operating system's error text. */
  datatype Source =
    | StdinSource(lines: seq<string>)
    | FileSource(path: string, contents: Result<string, string>)

  /** An argument spelled `-` is standard input, never a file. */
  predicate ArgumentsWellFormed(sources: seq<Source>) {
    forall i :: 0 <= i < |sources| && sources[i].FileSource? ==> sources[i].path != "-"
  }

  /** The `io::Error` that `File::open` or `read_to_string` returned. */
  datatype InputError = IoError(message: string)

  /** Chunks joined in order. */
  function Concat(chunks: seq<string>): string {
    if chunks == [] then "" else Concat(chunks[..|chunks| - 1]) + chunks[|chunks| - 1]
  }

  /** Joining is associative over splitting the chunk list. */
  lemma {:induction false} ConcatAppend(a: seq<string>, b: seq<string>)
    ensures Concat(a + b) == Concat(a) + Concat(b)
    decreases |b|
  {
    if b != [] {
      var n := |b| - 1;
      assert (a + b)[..|a + b| - 1] == a + b[..n];
      ConcatAppend(a, b[..n]);
    } else {
      assert a + b == a;
    }
  }

  predicate Readable(source: Source) {
    source.StdinSource? || source.contents.Success?
  }

  /** What one readable source contributes. */
  function Text(source: Source): string
    requires Readable(source)
  {
    match source
    case StdinSource(lines) => Concat(lines)
    case FileSource(_, contents) => contents.value
  }

  /** The file arguments read in list order; the first unreadable file stops
      the program. */
  function Gather(sources: seq<Source>): Result<string, InputError> {
    if sources == [] then Success("")
    else
      var last := sources[|sources| - 1];
      match Gather(sources[..|sources| - 1])
      case Failure(e) => Failure(e)
      case Success(acc) =>
        if !Readable(last) then Failure(IoError(last.contents.error)) else Success(acc + Text(last))
  }

  /** Once gathering fails, reading further sources does not change the error. */
  lemma {:induction false} GatherFailureSticks(sources: seq<Source>, k: nat)
    requires k <= |sources|
    requires Gather(sources[..k]).Failure?
    ensures Gather(sources) == Gather(sources[..k])
    decreases |sources| - k
  {
    if k < |sources| {
      assert sources[..k + 1][..k] == sources[..k];
      GatherFailureSticks(sources, k + 1);
    } else {
      assert sources[..k] == sources;
    }
  }

  /** The texts of a list of readable sources. */
  function Texts(sources: seq<Source>): (texts: seq<string>)
    requires AllReadable(sources)
    ensures |texts| == |sources|
    ensures forall i :: 0 <= i < |sources| ==> texts[i] == Text(sources[i])
  {
    if sources == [] then [] else Texts(sources[..|sources| - 1]) + [Text(sources[|sources| - 1])]
  }

  predicate AllReadable(sources: seq<Source>) {
    forall i :: 0 <= i < |sources| ==> Readable(sources[i])
  }

  /** `sources[k]` is the first unreadable file argument. */
  predicate FirstUnreadable(sources: seq<Source>, k: nat) {
    k < |sources| && !Readable(sources[k]) && AllReadable(sources[..k])
  }

  /** Gathering succeeds exactly when every source is readable, and then
      yields their texts joined in list order. */
  lemma {:induction false} GatherSucceeds(sources: seq<Source>)
    ensures Gather(sources).Success? <==> AllReadable(sources)
    ensures AllReadable(sources) ==> Gather(sources) == Success(Concat(Texts(sources)))
  {
    if sources != [] {
      var n := |sources| - 1;
      var init := sources[..n];
      GatherSucceeds(init);
      assert forall i :: 0 <= i < n ==> init[i] == sources[i];
      assert AllReadable(sources) <==> AllReadable(init) && Readable(sources[n]);
      if AllReadable(sources) {
        assert Texts(sources) == Texts(init) + [Text(sources[n])];
        assert Concat(Texts(sources)) == Concat(Texts(init)) + Text(sources[n]);
      }
    }
  }

  /** A failed gathering stops at the first unreadable file and reports the
      error reading it produced. */
  lemma {:induction false} GatherFails(sources: seq<Source>)
    ensures Gather(sources).Failure? ==>
      exists k: nat :: FirstUnreadable(sources, k) && Gather(sources).error == IoError(sources[k].contents.error)
  {
    if sources != [] && Gather(sources).Failure? {
      var n := |sources| - 1;
      var init := sources[..n];
      if Gather(init).Failure? {
        GatherFails(init);
        var k: nat :| FirstUnreadable(init, k) && Gather(init).error == IoError(init[k].contents.error);
        assert init[..k] == sources[..k];
        assert FirstUnreadable(sources, k);
      } else {
        GatherSucceeds(init);
        assert sources[..n] == init;
        assert FirstUnreadable(sources, n);
      }
    }
  }

  /** `read_line` into `line`, `push_str` onto the accumulated input, `clear`,
      until standard input is exhausted. */
  method AppendLines(lines: seq<string>, acc: string) returns (inputContent: string)
    ensures inputContent == acc + Concat(lines)
  {
    inputContent := acc;
    var line := "";
    var i := 0;
    while i < |lines|
      invariant 0 <= i <= |lines|
      invariant line == ""
      invariant inputContent == acc + Concat(lines[..i])
    {
      line := line + lines[i];
      assert lines[..i + 1][..i] == lines[..i];
      inputContent := inputContent + line;
      line := "";
      i := i + 1;
    }
    assert lines[..|lines|] == lines;
  }

  /** The input: standard input when no file is given, otherwise every file
      argument in order. */
  method ReadInput(stdin: seq<string>, sources: seq<Source>) returns (r: Result<string, InputError>)
    requires ArgumentsWellFormed(sources)
    ensures r == Input(stdin, sources)
  {
    var inputContent := "";
    if sources == [] {
      inputContent := AppendLines(stdin, inputContent);
      assert inputContent == Concat(stdin);
      return Success(inputContent);
    }
    var i := 0;
    while i < |sources|
      invariant 0 <= i <= |sources|
      invariant Gather(sources[..i]) == Success(inputContent)
    {
      assert sources[..i + 1][..i] == sources[..i];
      match sources[i] {
        case StdinSource(lines) =>
          inputContent := AppendLines(lines, inputContent);
        case FileSource(path, contents) =>
          if contents.Failure? {
            GatherFailureSticks(sources, i + 1);
            return Failure(IoError(contents.error));
          }
          inputContent := inputContent + contents.value;
      }
      i := i + 1;
    }
    assert sources[..i] == sources;
    return Success(inputContent);
  }

  // ---------------------------------------------------------------------------
  // The program
  // ---------------------------------------------------------------------------

  datatype AppError =
    | LoadFailed(loadError: Config.LoadError)
    | InputFailed(inputError: InputError)
    | LlmFailed(llmError: Llm.LlmError)

  /** How a run ends: a line on standard output, the template-lookup error on
      standard error with a successful exit, or an error. */
  datatype Exit =
    | Printed(line: string)
    | PromptNotFound(message: string)
    | Failed(error: AppError)

  /** The template requested with `--prompt`, if any. */
  function Template(lookup: Option<Result<string, string>>): Option<string>
    requires lookup.Some? ==> lookup.value.Success?
  {
    if lookup.Some? then Some(lookup.value.value) else None
  }

  /** The input of a run: standard input without file arguments, otherwise
      the file arguments in order. */
  function Input(stdin: seq<string>, sources: seq<Source>): Result<string, InputError> {
    if sources == [] then Success(Concat(stdin)) else Gather(sources)
  }

  /** The run, step by step: load the configuration, look up the template,
      read the input, build the client from the loaded configuration (its
      `llm` section, read through `llmOf`), send, print the trimmed answer. */
  function Pipeline(configFile: Config.ConfigFile, llmOf: Config.Config -> Llm.LlmConfig,
                    lookup: Option<Result<string, string>>,
                    stdin: seq<string>, sources: seq<Source>,
                    post: (string, Llm.RequestBody) -> Llm.Exchange): Exit
    requires ArgumentsWellFormed(sources)
  {
    match Config.Load(configFile)
    case Failure(e) => Failed(LoadFailed(e))
    case Success(config) =>
      if lookup.Some? && lookup.value.Failure? then PromptNotFound(lookup.value.error)
      else
        match Input(stdin, sources)
        case Failure(e) => Failed(InputFailed(e))
        case Success(input) =>
          match Llm.New(Llm.Gemini, llmOf(config))
          case Failure(e) => Failed(LlmFailed(e))
          case Success(client) =>
            match Llm.SendRequest(client, FullInput(Template(lookup), input), post)
            case Failure(e) => Failed(LlmFailed(e))
            case Success(response) => Printed(TrimEnd(response))
  }

  /** `main` after argument parsing, with the configuration file, the
      template lookup, standard input, the file arguments and the HTTP
      exchange as parameters. */
  method Run(configFile: Config.ConfigFile, llmOf: Config.Config -> Llm.LlmConfig,
             lookup: Option<Result<string, string>>,
             stdin: seq<string>, sources: seq<Source>,
             post: (string, Llm.RequestBody) -> Llm.Exchange) returns (exit: Exit)
    requires ArgumentsWellFormed(sources)
    ensures exit == Pipeline(configFile, llmOf, lookup, stdin, sources, post)
  {
    var loaded := Config.Load(configFile);
    if loaded.Failure? {
      return Failed(LoadFailed(loaded.error));
    }
    if lookup.Some? && lookup.value.Failure? {
      return PromptNotFound(lookup.value.error);
    }
    var template := Template(lookup);
    var input := ReadInput(stdin, sources);
    if input.Failure? {
      return Failed(InputFailed(input.error));
    }
    var fullInput := FullInput(template, input.value);
    var client := Llm.New(Llm.Gemini, llmOf(loaded.value));
    if client.Failure? {
      return Failed(LlmFailed(client.error));
    }
    var response := Llm.SendRequest(client.value, fullInput, post);
    if response.Failure? {
      return Failed(LlmFailed(response.error));
    }
    return Printed(TrimEnd(response.value));
  }

  /** A run that prints always prints the first part of the first candidate
      of a 2xx response to the prompt assembled from the input it read, with
      trailing whitespace removed and nothing else changed; that prompt went
      to the model and key of the version-checked configuration. */
  lemma PrintedAnswer(configFile: Config.ConfigFile, llmOf: Config.Config -> Llm.LlmConfig,
                      lookup: Option<Result<string, string>>,
                      stdin: seq<string>, sources: seq<Source>,
                      post: (string, Llm.RequestBody) -> Llm.Exchange, line: string)
    requires ArgumentsWellFormed(sources)
    requires Pipeline(configFile, llmOf, lookup, stdin, sources, post) == Printed(line)
    ensures Config.Load(configFile).Success? && Config.Load(configFile).value.version == Config.VERSION
    ensures var llm := llmOf(Config.Load(configFile).value);
      Llm.KeyConfigured(llm.key) && llm.gemini.Some?
    ensures line == [] || !IsWhitespace(line[|line| - 1])
    ensures Input(stdin, sources).Success?
    ensures var llm := llmOf(Config.Load(configFile).value);
      exists status: Llm.StatusCode, bodyText: string, body: Llm.ResponseBody, text: string ::
      && post(Llm.BuildUrl(llm.gemini.value.model, llm.key),
              Llm.BuildRequest(FullInput(Template(lookup), Input(stdin, sources).value)))
         == Llm.Responded(status, bodyText, Success(body))
      && Llm.IsSuccess(status) && Llm.IsAnswer(body, text) && line == TrimEnd(text)
  {
    var llm := llmOf(Config.Load(configFile).value);
    var input := Input(stdin, sources).value;
    var client := Llm.New(Llm.Gemini, llm).value;
    var url := Llm.BuildUrl(llm.gemini.value.model, llm.key);
    var request := Llm.BuildRequest(FullInput(Template(lookup), input));
    var exchange := post(url, request);
    var text := Llm.SendRequest(client, FullInput(Template(lookup), input), post).value;
    assert exchange.Responded? && exchange.parsed.Success?;
    Llm.InterpretSucceedsIff(exchange.status, exchange.bodyText, exchange.parsed, text);
  }
}
