# paip: a Dafny model of the prompt pipeline and the Gemini client

`paip` is a command-line tool that reads text from files or standard input,
optionally puts a named prompt template in front of it, appends a fixed
"answer in plain text" instruction, sends the result to Google's Gemini
`generateContent` endpoint and prints the answer. This project models and
proves the logic of that tool that is not I/O:

- `Llm` (`src/llm.rs`): the API-key check of `LlmClient::new`, the endpoint URL
  and the one-content/one-part request body, the provider dispatch, and the
  interpreter that turns an HTTP exchange into the answer text or exactly one of
  the typed failures (deserialization, API error, unexpected status, empty
  response, plus the missing `[gemini]` table and the transport failure).
- `Config` (`src/config.rs`): the configuration record, the defaults serde
  fills in for absent optional keys, `ensure_version`, and the guarantee that
  `load` only returns a configuration at `VERSION`.
- `App` (`src/main.rs`): assembly of the prompt from the optional template,
  the input and the instruction; accumulation of the input from standard input
  and the file arguments (the imperative loops, as methods with invariants);
  the trimmed output; and the order of the steps of `main`.
- `Strings`: the string facts the Rust code relies on (`trim_end` over
  Unicode white space as `char::is_whitespace` defines it, decimal `Display`
  of integers, prefixes and suffixes). `Wrappers`: `Option` and `Result`.

The environment is made of parameters: the HTTP exchange is a function
`post(url, body)` returning either a transport failure or the status, the body
text and the JSON parser's verdict on it; the configuration file is a value
saying whether the directory exists, whether the file could be read, whether it
parsed, and which keys it holds; standard input is a sequence of lines and each
file argument carries its contents or the operating system's error text. A
file argument spelled `-` is always standard input (`src/main.rs:50`), never a
file; `App.ReadInput` and `App.Run` require this of their arguments.

The three source files do not agree with each other, and the model follows the
code that uses each piece. `src/llm.rs` reads `config.llm.key`,
`config.llm.timeout` and `config.llm.gemini`, but `Config` in `src/config.rs`
declares no `llm` field. The model gives the client the record
`Llm.LlmConfig(key, timeout, gemini)` that `src/llm.rs` reads, and `App.Run`
obtains it from the loaded, version-checked configuration through a parameter
`llmOf`, as `src/main.rs:84` passes the loaded `config` to `LlmClient::new`.
`src/main.rs` calls `Config::load`, `Config::get_default_config_path`,
`Config::create_default_config` and `config.get_prompt`; of these only a free
function `load` is defined in `src/config.rs`, and none of `src/main.rs`,
`src/config.rs`, `src/llm.rs` defines the others. The template lookup is a parameter of `App.Run`
(`None` when `--prompt` is not given, otherwise the lookup's text or error).
`cli.message` is declared in `src/cli.rs` (help text "Additional message to
include after input") but `main` never uses it, so the model appends no message. HTTP success is `reqwest`'s
`is_success`, the range 200 to 299, over status codes 100 to 999.

## Model

| member | source | states |
|---|---|---|
| `Llm.AsStr` | src/llm.rs:14-20 | the Gemini provider's name is `gemini` |
| `Llm.New` | src/llm.rs:30-50 | construction fails exactly when the key is empty or `YOUR_GEMINI_API_KEY`, with the key error for the given provider; on success the client keeps the provider, the key unchanged and the configuration |
| `Llm.KeyErrorMessage` | src/llm.rs:33-37 | the rejected-key message contains `API key is not configured for provider: gemini` |
| `Llm.BuildUrl` | src/llm.rs:66-70 | the URL is the fixed prefix, then the model, then `:generateContent?key=`, then the key, at exactly those positions |
| `Llm.ParseBuildUrl` | src/llm.rs:67-70 | for a model without `:`, model and key are read back unchanged from the URL |
| `Llm.BuildParseUrl` | src/llm.rs:67-70 | every URL from which a model and key are read is the one built from them |
| `Llm.BuildRequest` | src/llm.rs:104-110 | the body has exactly one content with exactly one part, whose text is the prompt verbatim |
| `Llm.RequestRoundTrip` | src/llm.rs:104-110 | the prompt is recovered from the body, and any one-content one-part body carrying that prompt is the built one |
| `Llm.Interpret` | src/llm.rs:117-154 | a body that does not parse is a deserialization error carrying the raw body, whatever the status; a non-2xx status gives the API error with its code and message verbatim, or the status error with the parsed body, and never text; a 2xx gives the first part of the first candidate, or the empty-response error with the body when there is none |
| `Llm.InterpretSucceedsIff` | src/llm.rs:141-149 | text comes back exactly when the body parsed, the status is 2xx and the text is the first part of the first candidate |
| `Llm.FirstWins` | src/llm.rs:141-149 | later parts, later candidates and an `error` field do not change the answer of a 2xx |
| `Llm.ErrorStatusNeverAnswers` | src/llm.rs:125-139 | a non-2xx is a failure even with candidates present, and it is an API error exactly when `error` is present |
| `Llm.SendGeminiRequest` | src/llm.rs:58-155 | without a `[gemini]` table the result is `Gemini configuration not found`; otherwise the request is the built body posted to the built URL from the configured model and the client's key, a transport failure is a network error, and a response is interpreted |
| `Llm.MissingGeminiNeverPosts` | src/llm.rs:59-64 | the missing-table error is the same whatever the transport does, so no request is made |
| `Llm.SendRequest` | src/llm.rs:52-56 | the Gemini provider dispatches to the Gemini request |
| `Llm.Message` | src/llm.rs:33-131 | the key, missing-table, deserialization and API errors display their fixed texts; the deserialization text is the fixed lead, the parser's detail, ` - Body: ` and the raw body, in that order and nothing else; the API text is `LLM API error `, the decimal code, `: ` and the provider's message, and nothing else |
| `Config.DecodeGemini` | src/config.rs:20-36 | `key` and `model` are required (a missing one is named); every other gemini key is `None` when absent and its value when present |
| `Config.Decode` | src/config.rs:9-18 | decoding succeeds exactly when `version`, `provider` and `timeout` are present and the `[gemini]` table, if any, decodes; an absent `gemini` is `None`, an absent `prompt` the empty map, present values are kept; a malformed `[gemini]` table is reported first, then the first missing one of `version`, `provider`, `timeout` |
| `Config.MinimalDocumentDefaults` | src/config.rs:14-17 | a document with only the required keys has no gemini table and no templates |
| `Config.MinimalGeminiDefaults` | src/config.rs:24-35 | a gemini table with only `key` and `model` has every generation parameter unset |
| `Config.EnsureVersion` | src/config.rs:56-64 | the check passes exactly when the version is `VERSION`, and otherwise reports the expected and found versions |
| `Config.VersionMismatchMessage` | src/config.rs:57-62 | the mismatch text is exactly the fixed lead, the expected version in decimal, `, found `, the found version in decimal, and the fixed advice |
| `Config.EnsureVersionExamples` | src/config.rs:93-128 | `VERSION` is 1; a configuration at `VERSION` passes and one at `VERSION + 1` fails |
| `Config.Load` | src/config.rs:38-53 | every configuration `load` returns has version `VERSION`; it returns one exactly when the file was read, parsed and decoded and its version matches, and then it is the decoded one |
| `Strings.Decimal` | src/config.rs:59-61 | the decimal rendering of a number is non-empty, all digits, without a leading zero |
| `Strings.DecimalRoundTrip` | src/config.rs:59-61 | the rendered digits denote the number |
| `Strings.DecimalInjective` | src/llm.rs:128-129 | different codes render differently |
| `Strings.TrimEnd` | src/main.rs:88 | the printed text is a prefix of the response, ends in a non-white-space character (or is empty), and only white space was removed |
| `Strings.TrimEndUnique` | src/main.rs:88 | the three properties of trimming determine its result |
| `Strings.TrimEndIdempotent` | src/main.rs:88 | trimming twice is trimming once |
| `App.FullInput` | src/main.rs:64-74 | the sent text is the template and a blank line when there is a template, then the input verbatim, then a blank line and the fixed instruction |
| `App.FullInputRoundTrip` | src/main.rs:64-74 | the input is recovered from the sent text given the template |
| `App.FullInputInjective` | src/main.rs:64-74 | different inputs give different sent texts |
| `App.ConcatAppend` | src/main.rs:44-47 | appending chunks in order splits over any division of the chunk list |
| `App.GatherSucceeds` | src/main.rs:49-61 | reading the file arguments succeeds exactly when all are readable, and then yields their texts in list order |
| `App.GatherFails` | src/main.rs:58-59 | the run stops at the first unreadable file argument, with the error that reading it produced |
| `App.GatherFailureSticks` | src/main.rs:58-59 | after a file fails, the error is final |
| `App.AppendLines` | src/main.rs:42-47 | the line loop leaves the accumulated input followed by every line, in order |
| `App.ReadInput` | src/main.rs:39-62 | the input is standard input when no file is given, otherwise the file arguments read in order, stopping at the first unreadable file |
| `App.Run` | src/main.rs:14-91 | a run loads the configuration, looks up the template, reads the input, builds the client from the loaded configuration, sends the assembled prompt and prints the trimmed answer, each failure ending the run in that order |
| `App.PrintedAnswer` | src/main.rs:84-88 | whatever a run prints came after a version-checked load and an accepted key from that configuration, after the input was read successfully, and is the trimmed first part of the first candidate of a 2xx response to the prompt assembled from that input, posted to the configured model with that key; it has no trailing white space |

## Left out

- The `--init-config` branch of `main` and `init_default`, `create_default`, `get_path`: file-system work, and `main` calls functions that `src/config.rs` does not define.
- TOML and JSON parsing themselves: the model receives their outcome (which keys are present, or the parser's error text).
- Type errors and integer-range errors while decoding the configuration are one `Malformed` case; which key caused them is not modelled.
- The HTTP transport: building the `reqwest` client (its failure is not modelled), the timeout (`Duration::from_secs`), sending and reading the body are folded into the `post` parameter.
- `Llm.Message`: the texts of the status and empty-response errors print the body with Rust's `Debug` formatting and the status with its reason phrase, which are not modelled; the network error shows the transport's own text.
- Reading from standard input and opening files: each argument comes with its lines or contents; a read error on standard input is not modelled. A second `-` is given its own lines.
- Verbose output to standard error and the `println!` newline.
- The template lookup `get_prompt`, defined in none of `src/main.rs`, `src/config.rs`, `src/llm.rs`: its outcome is a parameter.
- How the `llm` section of the configuration is read from the file: `Config` in `src/config.rs` declares no such field, so `App.Run` takes the projection `llmOf` as a parameter.
- The text of a file-reading error: the program reports the operating system's `io::Error` text, which does not name the path; the model carries that text as an uninterpreted string.
- Generation parameters (`temperature`, `top_p`, `top_k`, `max_output_tokens`, `thinking_budget`, `thinking_level`) are stored by the configuration but nothing in `src/llm.rs` sends them; the `f32` values are kept as bit patterns and never interpreted.
- Command-line parsing (`src/cli.rs`).
