# Postman: a Dafny model of the post generator's core

Postman is a terminal application. The user describes an event (title,
date, time, location, description) and ticks the social platforms it should
be announced on: LinkedIn, Facebook, Twitter, Instagram. For each platform,
one after the other, it asks an OpenRouter chat model for a post. Each
platform's outcome goes into a results dictionary that a preview screen of
cards displays. Any card's text can be copied to the clipboard.

This project models that core and proves properties of it:

- `App` (`app.dfy`) models the application object. It is the class
  `Postman`, with these fields:
  - the results dictionary `outputs`, plus `order`, its keys in insertion
    order as a Python dict keeps them;
  - the lazily built `llmClient`;
  - the saved `formState`;
  - a ghost log `Events` of the requests sent and the cards refreshed.

  Its methods are the platform selection, the Generate action and the
  sequential generation run, a loop over the platforms. Alongside the class,
  the module models the copy choice, the preview grid's row pairing, the
  card refresh on mount and the parsing of Copy-button ids.
- `Prompts` (`prompts.dfy`) holds the closed `Platform` enum, with its
  `Platform(value)` constructor and its error text. It also holds the prompt
  table with its LinkedIn fallback, the event-context text and the
  content-length constraints.
- `Configuration` (`config.dfy`) holds the class `Config`:
  - the validate-once flag;
  - the required-variable check and the `api_key` property;
  - the getters with their defaults;
  - `redact`, a loop of string replacements.

  The environment is a `map<string, string>` passed to each call.
- `Llm` (`llm.dfy`) covers:
  - client construction, meaning the model default and the key lookup;
  - the request `generate` sends and the single call it makes;
  - `generate_stream`, which filters out empty chunks and turns a failure
    into `LLMError`;
  - the three-attempt retry policy declared on `generate_stream`.
- `Text` (`text.dfy`) models the Python string built-ins the code relies on:
  - `str.replace`, including the empty pattern, which inserts the
    replacement around every character;
  - `str.split` and `str.join`;
  - `str.title`;
  - `str(int)` and `int(str)`.
- `Wrappers` (`wrappers.dfy`) defines `Option`, `Result` and `Outcome`.

The chat model is an oracle, a total function from a client and a message
list to the reply text or the exception raised. An exception is either an
`LLMError` or any other exception, each with its `str()`. The streaming
variant is an oracle that returns the chunks delivered and the failure that
ended the stream, if there was one.

A few facts about the code shape the model:

- The code puts the retry decorator only on `generate_stream`
  (src/postman/llm.py:39-44).
- `generate`, the method the application calls, makes exactly one call and
  does not convert errors (src/postman/llm.py:62-75).
- A failing model call is therefore stored as `"Error: …"`, not as
  `"Generation failed: …"`. `App.PlainServiceFailuresAreErrors` proves this.
- The `ainvoke` oracle is a function, so two requests with the same client
  and messages get the same answer. `App.WriteAllSpec` relies on this only
  when a name occurs twice in a run: the last write and the first then
  coincide. The application never runs a list with repeats
  (`App.SelectionIsDistinct`).
- `Text.ReplaceIsJoinOfSplit`, `Text.JoinOfSplit`, `Text.ReplaceBySelf` and
  `Text.TitleIdempotent` use nothing of the application. They check the
  models of `str.replace` and `str.title` against facts of Python's
  built-ins that are independent of the definitions.

## Model

| member | source | states |
|---|---|---|
| App.Postman.GetSelectedPlatforms | src/postman/app.py:275-289 | the selection is non-empty and strictly in the form's order (so without repeats); a name is in it iff its box is checked, or no box is checked and it is "linkedin"; every name is a valid `Platform` value |
| App.Postman.constructor | src/postman/app.py:211-215 | a new application has no client, an empty results dictionary and key order, and no saved form (`form_state = {}`), with nothing sent or shown yet |
| App.SelectStep | src/postman/app.py:279-286 | one checkbox test keeps the list so far an ordered list of exactly the checked platforms up to that box |
| App.SelectDone | src/postman/app.py:289 | after the four tests, a non-empty list is the selection, and an empty one is replaced by ["linkedin"] |
| App.SelectionNamesPlatforms | src/postman/app.py:277-289 | every selected name is a valid `Platform` value |
| App.SelectionIsDistinct | src/postman/app.py:277-289 | a selection in the form's order has no duplicates |
| App.Postman.ActionGenerate | src/postman/app.py:291-324 | a successful form read saves the fields and the selection; a failed read keeps the old state; the run's platforms are the saved ones, or ["linkedin"] before any save; `platform_outputs` becomes exactly those keys, each "Generating...", in that order, with earlier runs' entries gone |
| App.Postman.Store | src/postman/app.py:366-370 | assigning one key updates only that key, and appends it to the key order only if it is new |
| App.Postman.UpdatePlatformCard | src/postman/app.py:375-384 | the card is refreshed with the stored text, or "" if none |
| App.Postman.ShowMessage | src/postman/app.py:331-335 | one iteration of a fixed-message loop: the message is stored, then that card is refreshed with it |
| App.Postman.GenerateOne | src/postman/app.py:353-373 | one iteration of the generation loop: at most one request is sent; the stored text is that platform's outcome; the card is refreshed after it is stored |
| App.Postman.ShowAll | src/postman/app.py:330-350 | the unavailable and configuration-error loops: without a client, when every platform's outcome is one fixed message, each platform in turn is stored that message and its card refreshed, and no request is sent |
| App.Postman.GenerateAll | src/postman/app.py:352-373 | the generation loop: platforms are processed in list order; each gets exactly its own outcome; a failure never stops later platforms |
| App.Postman.RunGeneration | src/postman/app.py:328-373 | the new dictionary is the old one with each run platform assigned its outcome for the branch taken, so every platform holds its own outcome; the key order grows only by new keys, and stays exactly the platforms when the run starts from their placeholders; the event log grows by the run's events, refreshing one card per platform in order; the client is built only when none is kept, then reused; the configuration's flag changes only when a client is built |
| App.Postman.PrepareClient | src/postman/app.py:330-350 | without the LLM modules the run is unavailable; a kept client is reused; otherwise a client is built once and kept, or its construction error is reported; the configuration is validated only when a client is built |
| App.ConfigurationErrorText | src/postman/app.py:346-348 | "Configuration error: " + the construction error + ". Set OPENROUTER_API_KEY in .env to generate." |
| App.Postman.RunWithMode | src/postman/app.py:331-373 | the platform loop for the branch taken: each platform gets its outcome, new keys are appended in order, and the event log grows by the run's events |
| App.Postman.GenerateAndRun | src/postman/app.py:320-373 | after Generate and the run: the form state is the read one (or unchanged when the read fails); the platforms are its selection, or ["linkedin"] when nothing was ever saved; the dictionary holds exactly those platforms, in that order, each with its final outcome; the event log grows by the run's requests and refreshes, one refresh per platform in order; the client and the configuration's flag change as in the run |
| App.Postman.CopyChoice | src/postman/app.py:386-402 | with a truthy platform, copies its stored text iff that text is non-empty, and otherwise warns "Nothing to copy for " + the title-cased name; with no platform, the same for the first value in insertion order, with the display "content"; copied text is never empty |
| App.ModeOf | src/postman/app.py:330-350 | the branch a run takes: unavailable without the LLM modules, the kept client if there is one, otherwise `LLMClient()` with the default model, or its construction error |
| App.Attempt | src/postman/app.py:354-370 | one platform's attempt: `Platform(name)` failing is an error; otherwise one `generate` call with the platform's prompt and event context, giving its reply, an `LLMError` or any other exception |
| App.Render | src/postman/app.py:366-370 | the stored text: the reply, "Generation failed: " + message, or "Error: " + message |
| App.Produce | src/postman/app.py:330-370 | a platform's final text in the branch taken: the fixed unavailable message, the configuration-error message, or the rendered attempt |
| App.FieldsOf | src/postman/app.py:338-362 | the saved form's fields, each "" when nothing has been saved |
| App.WriteAll | src/postman/app.py:353-370 | the dictionary after assigning each platform's outcome in list order |
| App.OrderAfter | src/postman/app.py:324-370 | the key order after those assignments: a key is appended when it is first assigned, unless it was already present |
| App.EventsFor | src/postman/app.py:365-373 | one platform's events: its request when a client exists and the name is a platform, then its card refresh with the stored text |
| App.OnButtonPressed | src/postman/app.py:117-123 | "back" dismisses; a truthy id starting with "copy-" asks to copy the id with every "copy-" removed; anything else does nothing |
| App.GenerationFailedOnlyFromLLMError | src/postman/app.py:353-370 | "Generation failed" is stored iff the name is a platform and the service raised `LLMError` for that platform's request |
| App.PlainServiceFailuresAreErrors | src/postman/app.py:369-370 | a service that never raises `LLMError` never yields "Generation failed"; its failures are stored as "Error: " + the message |
| App.ModeOfSpec | src/postman/app.py:330-350 | a run reports a configuration error iff the LLM modules are present, no client is kept and the API key is not available; a kept client is reused; an unvalidated configuration without the key gives the missing-variable message |
| App.RunStep | src/postman/app.py:353-373 | extending a run by one platform appends its outcome, its new key if any, and its events, after those of the platforms before it |
| App.ShowStep | src/postman/app.py:331-335 | without a client, one more platform stores the fixed message, appends a new key, and adds only that card's refresh |
| App.EventsWithoutClient | src/postman/app.py:330-350 | without a client, a platform's only event is its card refresh |
| App.EventsWithClient | src/postman/app.py:353-373 | with a client and a valid name, the platform's request is sent and then its card is refreshed |
| App.WriteAllSpec | src/postman/app.py:353-370 | after a run, a key is present iff it was before or is in the run; each run platform holds its own outcome; keys outside the run are untouched |
| App.FreshRunOutputs | src/postman/app.py:322-370 | a run over a fresh placeholder dictionary leaves exactly the run's platforms, each with its outcome |
| App.RunSummary | src/postman/app.py:322-373 | every run leaves each platform its own outcome and refreshes one card per platform, in order; a run over placeholders for exactly its own repeat-free platforms leaves exactly those keys, in that order |
| App.OrderAfterSpec | src/postman/app.py:324-370 | the key order stays duplicate-free; existing keys keep their places; new keys follow; a run over existing keys leaves the order unchanged |
| App.RunKeepsKeyOrder | src/postman/app.py:331-373 | a run keeps the key order a repeat-free list of exactly the dictionary's keys |
| App.RunShowsEachPlatformInOrder | src/postman/app.py:331-373 | a run refreshes exactly one card per platform, in the run's order |
| App.ShownPlatformsOfOne | src/postman/app.py:335-373 | each platform's events refresh its own card exactly once |
| App.NoRequestWithoutClient | src/postman/app.py:330-350 | without the LLM modules, or when the client cannot be built, no request is sent |
| App.ReadyRunAlternates | src/postman/app.py:353-373 | with a client and valid names, the event log alternates strictly: platform i's request, then its card refresh, before platform i+1 starts |
| App.ShownPlatformsAppend | src/postman/app.py:372-373 | the card refreshes of two consecutive event logs are those of the first followed by those of the second |
| App.SentRequestsAppend | src/postman/app.py:365 | the requests of two consecutive event logs are those of the first followed by those of the second |
| App.PreviewRows | src/postman/app.py:87-100 | ceil(n/2) rows; row r holds platforms 2r and 2r+1 (only 2r in an odd list's last row); read row by row, the grid is the platform list |
| App.MountedContents | src/postman/app.py:105-115 | on mount each card shows its platform's stored text, "Generating..." when there is none |
| App.PreviewOpensWithPlaceholders | src/postman/app.py:105-115 | the preview opened right after Generate shows "Generating..." on every card |
| App.CopyButtonRoundTrip | src/postman/app.py:63 | the Copy button id "copy-" + p is read back as a request to copy p, when p does not itself contain "copy-" |
| App.CopyButtonId | src/postman/app.py:63 | the Copy button's id, "copy-" + the platform name |
| App.PlatformCopyButtons | src/postman/app.py:117-123 | every platform's Copy button asks to copy exactly that platform |
| Prompts.FromValueSpec | src/postman/prompts.py:7-13 | `Platform(s)` succeeds iff s is one of the four values, and the result's value is s; otherwise it fails with "'s' is not a valid Platform" |
| Prompts.FromValue | src/postman/prompts.py:7-13 | `Platform(s)`: the member whose value is s, or the `ValueError` text |
| Prompts.Value | src/postman/prompts.py:7-13 | `platform.value`: "linkedin", "facebook", "twitter" or "instagram" |
| Prompts.ValueRoundTrip | src/postman/prompts.py:7-13 | every platform is rebuilt from its value, and distinct platforms have distinct values |
| Prompts.PromptLookupFallback | src/postman/prompts.py:143-146 | a prompt dictionary with a LinkedIn entry answers every platform: its own entry, or the LinkedIn prompt when it has none |
| Prompts.PromptTableTotal | src/postman/prompts.py:20-141 | the prompt table has an entry for every platform |
| Prompts.PromptLookup | src/postman/prompts.py:143-146 | `PROMPTS.get(p, PROMPTS[LINKEDIN])`: the default is evaluated first, so a table without LinkedIn raises, shown as no answer |
| Prompts.GetPrompt | src/postman/prompts.py:143-146 | the lookup in the four-entry prompt table |
| Prompts.GetPromptSpec | src/postman/prompts.py:143-146 | a platform's prompt is its own table entry; no platform but LinkedIn gets the LinkedIn prompt |
| Prompts.BuildEventContext | src/postman/prompts.py:148-169 | the f-string: the header, a blank line, the five labelled fields, a blank line, the platform's value and a final newline |
| Prompts.EventContextRoundTrip | src/postman/prompts.py:148-169 | for newline-free fields, splitting the context on newlines gives back exactly its ten lines (header, blank, Title, Date, Time, Location, Description, blank, Platform, and the empty line after the trailing newline), so each field appears verbatim on its own labelled line |
| Prompts.ContextLinesHaveNoNewline | src/postman/prompts.py:159-168 | no line of the context holds a newline when the fields hold none |
| Prompts.HeaderHasNoNewline | src/postman/prompts.py:159 | the header line holds no newline |
| Prompts.NoNewlineAfterLabel | src/postman/prompts.py:161-167 | a labelled line holds no newline when its field holds none |
| Prompts.ConstraintTableTotal | src/postman/prompts.py:174-179 | the constraint table has an entry for every platform |
| Prompts.GetContentConstraint | src/postman/prompts.py:171-180 | LinkedIn and Facebook (and only they) get "2-3 sentences", Twitter gets "1-2 sentences, max 280 characters", Instagram gets "2-3 sentences with emojis" |
| Configuration.FirstUnset | src/postman/config.py:37-42 | the first required variable that is unset or empty, with all before it set; none iff every one is set |
| Configuration.Getenv | src/postman/config.py:56-83 | `os.getenv(key, default)`: the variable's value when present, even if empty, else the default |
| Configuration.IsSet | src/postman/config.py:38 | `os.getenv(var)` is truthy: present and non-empty |
| Configuration.MissingMessage | src/postman/config.py:39-42 | "Required environment variable '" + name + "' is missing. Please set it in .env file or system environment." |
| Configuration.Validation | src/postman/config.py:33-42 | passes, or fails with the missing-variable message for the first unset required variable |
| Configuration.ValidationIffApiKeySet | src/postman/config.py:33-42 | validation passes iff OPENROUTER_API_KEY is set and non-empty, and otherwise fails with the missing-variable message |
| Configuration.ApiKeyOutcomeSpec | src/postman/config.py:44-51 | before validation, the key is returned iff it is set and non-empty; after validation, iff it is present at all; the value returned is the environment's |
| Configuration.ApiKeyOutcome | src/postman/config.py:44-51 | `api_key`: validation first unless already done, then "OPENROUTER_API_KEY is not set" when the variable is absent, else its value |
| Configuration.Config.constructor | src/postman/config.py:11-13 | a new configuration is not yet validated |
| Configuration.Config.ValidateConfiguration | src/postman/config.py:33-42 | the loop over the required variables passes iff the API key is set and non-empty |
| Configuration.Config.EnsureValidated | src/postman/config.py:15-19 | once validated, nothing is checked again; otherwise the check runs, and the flag is set only when it passes |
| Configuration.Config.ApiKey | src/postman/config.py:44-51 | returns the key or the error described by `ApiKeyOutcome`; afterwards the flag is set iff it was, or the key is set |
| Configuration.Config.Model | src/postman/config.py:53-56 | OPENROUTER_MODEL, defaulting to "gpt-3.5-turbo" |
| Configuration.Config.MinWidth | src/postman/config.py:58-61 | 80 by default, else `int()` of the variable |
| Configuration.Config.MinHeight | src/postman/config.py:63-66 | 24 by default, else `int()` of the variable |
| Configuration.Config.ContentLength | src/postman/config.py:68-71 | 3 by default, else `int()` of the variable |
| Configuration.Config.Debug | src/postman/config.py:73-76 | true exactly when POSTMAN_DEBUG equals "1" |
| Configuration.DefaultNumerals | src/postman/config.py:61-71 | the default strings "80", "24" and "3" parse to 80, 24 and 3 |
| Configuration.FieldValues | src/postman/config.py:81-83 | each field's value, "" when unset, in argument order |
| Configuration.ReplaceEachSnoc | src/postman/config.py:81-84 | one more field means one more whole-string replacement, applied last |
| Configuration.ReplaceEach | src/postman/config.py:80-85 | the message after replacing each pattern, in order, by the marker |
| Configuration.SetFieldValues | src/postman/config.py:81-84 | corrected: the values of the fields that are set and non-empty, in argument order |
| Configuration.FieldValuesSnoc | src/postman/config.py:81-83 | the values of one more field are the earlier values followed by its own |
| Configuration.SetFieldValuesSnoc | src/postman/config.py:81-83 | the set values of one more field are the earlier ones, followed by its own only if it is set |
| Configuration.Config.Redact | src/postman/config.py:78-85 | as written: the message after one replacement per field, in argument order, of the field's value (or "") by "[REDACTED]"; no fields leave it unchanged |
| Configuration.RedactUnsetFieldInsertsMarkers | src/postman/config.py:82-84 | an unset field replaces "", which inserts "[REDACTED]" before every character and at the end, so the message grows by 10·(n+1) characters |
| Configuration.RedactUnsetFieldExample | src/postman/config.py:82-84 | redacting "ab" with an unset field gives "[REDACTED]a[REDACTED]b[REDACTED]" |
| Configuration.Config.RedactSetFields | src/postman/config.py:78-85 | corrected: only set, non-empty values are replaced; with no such field the message is unchanged |
| Configuration.NoSetFieldValues | src/postman/config.py:81-84 | with no set field there is nothing to replace |
| Configuration.SetFieldValuesWhenAllSet | src/postman/config.py:81-84 | when every field is set, the corrected redaction replaces the same values as the original |
| Configuration.RedactSetFieldsSkipsUnset | src/postman/config.py:81-84 | the corrected redaction leaves the message unchanged for an unset field |
| Llm.ClientOutcomeSpec | src/postman/llm.py:26-37 | construction succeeds iff the API key is available; the key is the environment's; a truthy model argument is used, and otherwise OPENROUTER_MODEL, or "gpt-3.5-turbo" when it is unset |
| Llm.ClientOutcome | src/postman/llm.py:26-37 | what `LLMClient(model)` builds: `model or config.model`, the key from `config.api_key` (whose error aborts construction), the OpenRouter base URL, streaming on |
| Llm.NewClient | src/postman/llm.py:26-37 | builds the client described by `ClientOutcome`; reading the key validates the configuration when it is set |
| Llm.FullPromptRoundTrip | src/postman/llm.py:66-68 | the system message starts with the prompt verbatim followed by the directive; the sentence count parses back from it |
| Llm.FullPrompt | src/postman/llm.py:66-68 | the prompt, a blank line, then "Generate a post in exactly n sentences." |
| Llm.GenerateRequest | src/postman/llm.py:66-72 | exactly two messages: the system message with the full prompt, then the user input unchanged |
| Llm.Generate | src/postman/llm.py:62-75 | one `ainvoke` call with that request, whose reply or exception is returned unchanged: no retry and no conversion to `LLMError` |
| Llm.NonEmptyChunks | src/postman/llm.py:55-57 | the kept chunks are all non-empty and no more than the upstream ones |
| Llm.NonEmptyChunksKeepText | src/postman/llm.py:55-57 | dropping empty chunks does not change the concatenated text |
| Llm.NonEmptyChunksOfNonEmpty | src/postman/llm.py:55-57 | a stream without empty chunks is yielded unchanged |
| Llm.NonEmptyChunksOfOne | src/postman/llm.py:55-57 | a single chunk is yielded on its own iff it is non-empty |
| Llm.NonEmptyChunksAppend | src/postman/llm.py:55-57 | filtering a stream is filtering its parts in turn, so chunks are never merged, split or reordered |
| Llm.NonEmptyChunksCount | src/postman/llm.py:55-57 | every non-empty chunk is yielded as many times as it arrived, and no empty chunk is yielded |
| Llm.NonEmptyChunksMembers | src/postman/llm.py:55-57 | a chunk is yielded iff it arrived and is non-empty |
| Llm.StreamRequest | src/postman/llm.py:49-52 | the streaming request: the system prompt as given, then the user input |
| Llm.StreamError | src/postman/llm.py:58-60 | the `LLMError` a failing stream raises: "Failed to generate content: " + the upstream message |
| Llm.GenerateStream | src/postman/llm.py:45-60 | yields exactly the upstream's non-empty chunks, in order; an upstream failure then raises `LLMError("Failed to generate content: " + msg)`, without revoking what was yielded |
| Llm.RetryFromSpec | src/postman/llm.py:39-44 | between one and three attempts; stops at the first success; returns the last attempt's result; a failure is returned only after the third attempt |
| Llm.RetryFrom | src/postman/llm.py:39-44 | the `stop_after_attempt(3)` policy from attempt i: the first successful attempt's result, or the third attempt's, with the number of attempts made |
| Llm.RetrySucceedsOnThirdAttempt | src/postman/llm.py:39-44 | two failures and then a success make three calls and return the success |
| Llm.Retry | src/postman/llm.py:39-44 | the attempt loop returns what the policy prescribes: 1 to 3 attempts, all but the last failed, and the error re-raised only on the third |
| Text.OccursHasChars | src/postman/app.py:120-122 | every character of a pattern found in a string is in that string |
| Text.StartsWith | src/postman/app.py:120 | `s.startswith(pat)`: pat is a prefix of s |
| Text.Replace | src/postman/config.py:82-84 | `str.replace`: left-to-right, non-overlapping replacement; the empty pattern inserts the replacement before every character and at the end |
| Text.ReplaceIsJoinOfSplit | src/postman/config.py:82-84 | `s.replace(p, r)` equals `r.join(s.split(p))` for non-empty p |
| Text.JoinOfSplit | src/postman/config.py:82-84 | joining the split of `s` on p gives back `s` |
| Text.ReplaceBySelf | src/postman/config.py:82-84 | replacing a pattern by itself changes nothing |
| Text.ReplaceAbsent | src/postman/config.py:82-84 | replacing an absent non-empty pattern changes nothing |
| Text.ReplaceLeading | src/postman/app.py:122 | a leading occurrence is replaced and the rest handled after it |
| Text.ReplaceEmptyPattern | src/postman/config.py:82-84 | replacing "" inserts the replacement before each character and at the end, keeping the characters in their places in between |
| Text.Split | src/postman/prompts.py:159-168 | `str.split(sep)` for a non-empty separator: at least one part |
| Text.Join | src/postman/prompts.py:159-168 | `sep.join(parts)` |
| Text.SplitOfJoin | src/postman/prompts.py:159-168 | splitting a join on a one-character separator that no part contains gives back the parts |
| Text.SplitNoSeparator | src/postman/prompts.py:159-168 | a string without the separator splits into itself alone |
| Text.Title | src/postman/app.py:390 | `str.title` on ASCII: a letter after a non-letter is upper-cased and any other letter lower-cased |
| Text.TitleIdempotent | src/postman/app.py:390 | `str.title` keeps the length and is idempotent |
| Text.NatToString | src/postman/llm.py:67 | the decimal text of a natural number is non-empty and all digits |
| Text.IntToString | src/postman/llm.py:67 | `str(n)`: "-" before the digits of a negative number, else its digits |
| Text.DigitsValueOfNatToString | src/postman/llm.py:67 | reading back the digits of `str(n)` gives n |
| Text.ParseInt | src/postman/config.py:61-71 | `int(s)`: an optional sign and decimal digits, else the `ValueError` text |
| Text.ParseIntOfIntToString | src/postman/config.py:61-71 | `int(str(n)) == n` for every integer n |

## Left out

- Textual widgets and bindings, CSS, the main form's `compose`,
  `restore_form_state`, `PlatformCard`'s widgets, `notify` messages and the
  `main` entry point are interface plumbing and are not modelled. The
  preview's card refresh is recorded as an event carrying the content.
- App.Postman.UpdatePlatformCard: every call is recorded as a `Shown`
  event. The source refreshes a card only while the current screen is a
  `PreviewScreen` and the card is found (src/postman/app.py:377-384). Which
  screen is showing is interface state that the model does not track, so
  the log records the refreshes the run requests, not those that reach a
  widget.
- `pyperclip.copy` and its failure notice are operating-system clipboard
  I/O. `App.Postman.CopyChoice` models only which content is chosen and the
  refusal of empty content.
- `.env` loading through dotenv, `Path.exists` and the global `Config()`
  built at import are file and process I/O. `os.getenv` becomes a lookup in
  an environment map passed to each call.
- `run_worker`, the async scheduling and a second Generate pressed while a
  run is in progress are concurrency. `_run_generation` is modelled as one
  sequential method that runs to completion.
- The `ImportError` fallback stubs are represented only by the `haveLlm`
  flag.
- `ChatOpenAI` (`ainvoke`, `astream`) is the network client of a foreign
  library, replaced by oracles. Failures of the `ChatOpenAI` constructor
  itself are not modelled: construction fails only for the API key.
- The prompt texts in `PromptManager.PROMPTS` are replaced by distinct
  placeholder constants. Only their presence and distinctness matter to the
  logic.
- App.Postman.GetSelectedPlatforms: a widget query that raises part-way
  returns the platforms found so far, and this is not modelled, because
  widget lookup is interface plumbing.
- App.Postman.ActionGenerate: a failed form read is modelled as
  all-or-nothing, which is what the `try` around the whole dictionary gives.
- Llm.Retry: models the declared policy, meaning the attempt count, stop at
  the first success and re-raise after the third failure. It omits the
  `wait_exponential` sleeps, which are wall-clock timing. It is not wired to
  `Llm.GenerateStream`, because how tenacity treats an async generator is
  library behaviour outside this model.
- Text.ParseInt: accepts only an optional sign and ASCII digits. Python's
  `int()` also allows surrounding whitespace, underscores and non-ASCII
  digits. Those are not modelled because the defaults and typical overrides
  are plain digits.
- Text.Title: handles ASCII letters only. Unicode case mapping is not
  modelled.
- Prompts.FromValue: the error text quotes the value as `repr` does only for
  strings without quotes or escapes. `repr`'s escaping is not modelled.

## Findings

| source | as written | input that shows it | evidently intended | confidence | as-written member | corrected member |
|---|---|---|---|---|---|---|
| src/postman/config.py:81-84 | `redact` replaces `os.getenv(field, "")` even when the field is unset or empty, and replacing "" inserts "[REDACTED]" before every character and at the end | `redact("ab", "UNSET")` with UNSET not in the environment gives "[REDACTED]a[REDACTED]b[REDACTED]" | only values that are actually set are redacted, so an unset field leaves the message unchanged | not executed | Configuration.RedactUnsetFieldExample | Configuration.RedactSetFieldsSkipsUnset |
