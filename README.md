# Healthcare chatbot and patient registry, modelled in Dafny

The system is a web chatbot for looking up patients. A user's message goes
through one chat turn:

- A first pass asks the language model for a reply. A keyword classifier
  then decides whether the message is a patient search, a help request or
  general chat.
- A patient search calls the registry's patient-list tool once.
- A second pass lets the model answer from the tool's text.

The chat service keeps a log of at most ten messages. It builds every
prompt from that log and can summarise it. The registry client turns a
name and a limit into an HTTP query and normalises the response. It lays
the patients out as text, one block per patient. The example registry
server filters twelve fixed patients by a piece of the name, keeps a
prefix of at most `limit` of them, and looks patients up by id.

The model has one module per concern:

- `Text`: the ASCII string operations the code uses: `lower`, `title`,
  `split`, `strip`, `in`, `join`, `str(int)` and `int(str)`, and the
  subsequence relation.
- `Json`: decoded JSON values, and the `str`/`repr`/truthiness/lookup the
  client applies to them.
- `Conversation`: the capped log, the prompt and the summary, as values.
- `Intent`: the keyword classifier. This includes the `(\d+)\s*patient`
  search as a leftmost match with maximal runs.
- `Service`: the `GroqService` class, whose log and model name change in
  place. Its generation is proved against the value-level `GenerateSpec`.
- `App`: the `ChatbotMCPIntegration` class, one turn (`ProcessMessage`,
  proved against `TurnSpec`) and the blank-message check of both web
  endpoints.
- `ApiClient`: field lookup through the alias table, the line-by-line
  layout of the patient list, headers, query parameters and response
  handling.
- `ExampleServer`: the example registry's list and lookup endpoints.
- `EndToEnd`: the client's query as the server reads it, and the server's
  reply as the client lays it out.

The language model, the registry tool and the HTTP request are not
modelled. The outcome of each call is an argument of the operation that
makes the call (`LlmOutcome`, `ToolOutcome`, `HttpOutcome`), so every
property holds for every possible outcome. Confidences are integer tenths
(0.8 is 8).

Two behaviours of the code are easy to miss, and the model keeps both:

- "find patients named John, limit 3" has no limit, because the pattern
  `(\d+)\s*patient` needs "patient" after the digits
  (`Intent.LimitNeedsPatientAfterDigits`). The tool then gets the
  default of 10.
- A patient list that is falsy but not a list (`null`, `{}`, `""`, `0`)
  gives the "No patients found" text, through `if not patients`. The
  model keeps this branch.

## Model

| member | source | states |
|---|---|---|
| Text.Lower | chatbot/groq_service.py:198 | `lower()` keeps the length and leaves no upper-case ASCII letter |
| Text.WordsAreWords | chatbot/groq_service.py:218 | every piece of `split()` is non-empty and has no whitespace |
| Text.WordsOfJoin | chatbot/groq_service.py:218 | `split()` undoes joining whitespace-free words with a space |
| Text.Strip | chatbot/app.py:131 | `strip()` removes exactly the leading and trailing runs of stripped characters: the rest occurs in the input, everything before and after it is a stripped character, and its ends are not |
| Text.StripEmptyIff | chatbot/app.py:131-133 | stripping gives "" exactly when every character is a stripped one |
| Text.StripBlankIff | chatbot/app.py:131-133 | `strip()` gives "" exactly when the message is all whitespace |
| Text.JoinHasPart | chatbot/groq_service.py:138 | every part occurs in `", ".join(parts)` |
| Text.DigitsValueOfNatToString | example_api_server.py:47 | `int(str(n)) == n` for every natural number |
| Json.LastIndex | api_client.py:141 | the position of the last member with the key, absent exactly when no member has it |
| Json.Lookup | api_client.py:40-41 | `d[key]` is absent exactly when no member has the key; a found value is that of the last member with the key, as `json.loads` keeps it |
| Json.LookupUniqueKey | api_client.py:40-41 | a key that occurs once is looked up to its member's value |
| Json.ReprDistinctKeys | api_client.py:77 | an object without repeated keys is shown as every member's `'key': repr(value)`, in document order |
| Json.RepeatedKeyShownOnce | api_client.py:77 | a repeated key is shown once with its last value: `{"a": 1, "a": 2}` is written `{'a': 2}` |
| Conversation.LastN | chatbot/groq_service.py:91-92 | `xs[-n:]` has length min(n, len) and is a suffix of `xs` |
| Conversation.Added | chatbot/groq_service.py:82-92 | one append gives length min(old+1, 10), with the new message last |
| Conversation.AddedKeepsNewestOld | chatbot/groq_service.py:90-92 | apart from the new message, the log is the newest 9 old entries |
| Conversation.AddedAllKeepsNewest | chatbot/groq_service.py:82-92 | appending one at a time keeps the last 10 of old log ++ new messages, so the oldest are evicted first |
| Conversation.FourAppends | chatbot/groq_service.py:157-158 | four appends keep the last 10 of the log and the four entries |
| Conversation.ChatEntriesSpec | chatbot/groq_service.py:99-104 | only user/assistant entries are kept, and every such entry is kept |
| Conversation.PromptShape | chatbot/groq_service.py:94-109 | the prompt is one system entry, then the user/assistant entries of the last 6 log entries in order, then the user message; length 2..8 |
| Conversation.Truncated | chatbot/groq_service.py:256 | content over 100 characters becomes its first 100 plus "..."; shorter content is unchanged |
| Conversation.SummaryLinesAppend | chatbot/groq_service.py:254-257 | the summary gains one line per message, in order |
| Conversation.SummaryEmptyIff | chatbot/groq_service.py:250-251 | "No conversation history." is returned exactly for an empty log |
| Conversation.SummaryOfLongHistory | chatbot/groq_service.py:253-257 | with three or more messages: the header with the full count, then the lines of the last three, oldest first |
| Intent.CandidateName | chatbot/groq_service.py:222-224 | the word with `.,!?` trimmed from both ends is accepted as the name exactly when it is non-empty and not a stop word |
| Intent.FirstIndicatorFrom | chatbot/groq_service.py:219-220 | finds the first indicator word that has a following word |
| Intent.NameAfterIndicatorSpec | chatbot/groq_service.py:216-225 | a found name comes from the word after the first indicator; when that trimmed word is non-empty and not a stop word it is the name; the scan stops there even when that word is rejected; with no indicator there is no name |
| Intent.DigitRunEnd | chatbot/groq_service.py:229 | end of the maximal digit run |
| Intent.SpaceRunEnd | chatbot/groq_service.py:229 | end of the maximal whitespace run |
| Intent.RegexMatchIsMaximal | chatbot/groq_service.py:229 | any match of `(\d+)\s*patient` uses the maximal digit and whitespace runs |
| Intent.LimitMatchIsRegexMatch | chatbot/groq_service.py:229 | a match with maximal runs is a match of the pattern |
| Intent.FindLimitFromIsLeftmost | chatbot/groq_service.py:229 | `re.search` finds a match exactly when there is one, and finds the leftmost |
| Intent.FindLimitSkipsNonDigits | chatbot/groq_service.py:229 | offsets without a digit cannot start a match |
| Intent.Classify | chatbot/groq_service.py:196-242 | requires_tool exactly for patient_search; tool params are empty otherwise; the intent is never error; confidence is 8, 9 or 5 |
| Intent.ScanForName | chatbot/groq_service.py:218-225 | the word loop with its `break` computes the specified name |
| Intent.AnalyzeIntent | chatbot/groq_service.py:196-242 | `_analyze_intent` returns the classifier's verdict; the reply is ignored |
| Intent.PatientKeywordsTakePrecedence | chatbot/groq_service.py:210-213 | a patient or medical keyword gives patient_search, tool, 0.8, whatever help words appear |
| Intent.NonSearchIntents | chatbot/groq_service.py:233-235 | otherwise a help keyword gives help with 0.9, else general with 0.5; no tool |
| Intent.ClassifiedLimit | chatbot/groq_service.py:227-231 | the limit is set exactly for a search with a match, and is the leftmost match's digit value (may be 0, unbounded) |
| Intent.SearchLimit | chatbot/groq_service.py:227-231 | for a search, the limit is searched in the lower-cased message |
| Intent.SearchName | chatbot/groq_service.py:216-225 | for a search with a name keyword, the name comes from the words of the original message |
| Intent.NoLimitInLimitThree | chatbot/groq_service.py:229 | "find patients named john, limit 3" has no match |
| Intent.LimitNeedsPatientAfterDigits | chatbot/groq_service.py:227-231 | "find patients named John, limit 3" has no limit |
| Intent.CountBeforePatients | chatbot/groq_service.py:227-231 | "show me 7 patients" has limit 7 |
| Intent.NoLimitWithoutDigits | chatbot/groq_service.py:229 | a message without digits has no limit |
| Intent.NameAfterNamed | chatbot/groq_service.py:216-225 | "find patients named Alice" gives name "Alice" and no limit |
| Intent.SubstringKeywords | chatbot/groq_service.py:201-213 | "Please forget it" is a patient search, because "get" is inside "forget" |
| Service.FailureGeneration | chatbot/groq_service.py:173-194 | a raised error gives intent error, confidence 0, no tool; setup is flagged exactly when the text mentions api_key or unauthorized |
| Service.EnrichWithToolResult | chatbot/groq_service.py:134-136 | a non-empty tool result wins; the message holds the query and the result |
| Service.EnrichWithTools | chatbot/groq_service.py:137-138 | otherwise the message starts with the user's message and names every available tool |
| Service.GenerateFailures | chatbot/groq_service.py:122-130 | without a client or on an exception: error intent, no tool, confidence 0, log unchanged; setup iff no client or auth error; the model is called iff there is a client |
| Service.GenerateSuccess | chatbot/groq_service.py:154-171 | the log gains the original message and the reply (last 10 kept); the record carries the classifier's verdict; the prompt is built from the log as it was |
| Service.GroqService.constructor | chatbot/groq_service.py:30-38 | the key is the argument or else the environment's; a client exists iff the key is non-empty; the log starts empty |
| Service.GroqService.AddToConversation | chatbot/groq_service.py:82-92 | the log becomes `Added(old log, message)` |
| Service.GroqService.ClearConversation | chatbot/groq_service.py:244-246 | the log becomes empty |
| Service.GroqService.SetModel | chatbot/groq_service.py:270-276 | the model changes only to one of the four available models |
| Service.GroqService.IsConfigured | chatbot/groq_service.py:278-280 | configured exactly when a non-empty key is set |
| Service.GroqService.PrepareMessages | chatbot/groq_service.py:94-109 | the loop builds exactly `Prompt(system prompt, log, message)` |
| Service.GroqService.ConversationSummary | chatbot/groq_service.py:248-259 | the loop builds exactly `Summary(log)` |
| Service.GroqService.GenerateResponse | chatbot/groq_service.py:111-194 | the record, the new log and the prompt sent are those of `GenerateSpec` |
| App.PatientListResult | chatbot/app.py:52-63 | the tool wrapper never fails: a fixed text when MCP is unavailable, the tool's text, or "Error getting patient list: " + error |
| App.ValidateMessageSpec | chatbot/app.py:131-134 | a message is refused with "Message cannot be empty" exactly when it is all whitespace; an accepted one is the message with exactly its leading and trailing whitespace cut off |
| App.ChatbotMCPIntegration.constructor | chatbot/app.py:44-48 | a fresh service on the default model with an empty log |
| App.ChatbotMCPIntegration.GetPatientList | chatbot/app.py:52-63 | returns `PatientListResult` |
| App.ChatbotMCPIntegration.ProcessMessage | chatbot/app.py:65-97 | the reply, the tool calls, the new log and the prompts are those of `TurnSpec` |
| App.ChatbotMCPIntegration.ToolPass | chatbot/app.py:79-94 | the tool is called with the first pass's name and limit, or 10; the second pass runs on the tool's text, as `GenerateSpec` says |
| App.ChatbotMCPIntegration.HandleChat | chatbot/app.py:199-208 | a blank message is refused before any model call, leaving the log unchanged; otherwise the stripped message runs one turn |
| App.ChatbotMCPIntegration.ClearConversation | chatbot/app.py:104-106 | the service's log becomes empty |
| App.ChatbotMCPIntegration.GetConversationSummary | chatbot/app.py:108-110 | returns the service's summary |
| App.ChatbotMCPIntegration.IsLlmConfigured | chatbot/app.py:112-114 | true exactly when the service has a non-empty key |
| App.ToolCalledOnlyForSearches | chatbot/app.py:79-86 | at most one tool call, made exactly when there is a client, the first pass succeeds and the message is a search; it carries the name and the limit, or 10 |
| App.FirstPassRequest | chatbot/app.py:69-72 | pass 1 sends the original message with "Available tools: getpatientlist" appended |
| App.FirstPassMessage | chatbot/app.py:46-48 | the tool list of pass 1 is exactly "getpatientlist" |
| App.SetupEndsTurn | chatbot/app.py:75-76 | setup required: the reply is pass 1's text plus the setup suffix; no tool call, no second pass, log unchanged |
| App.NoToolReply | chatbot/app.py:96-97 | without a tool call the reply is pass 1's text |
| App.ToolTurnReply | chatbot/app.py:88-94 | with a tool call the reply is pass 2's text; pass 2 gets the same message and the tool's text |
| App.ToolTurnLogsFour | chatbot/app.py:69-94 | a tool turn with two successful passes logs user, assistant, user, assistant (last 10 kept) |
| ApiClient.FirstPresentFrom | api_client.py:39-43 | finds the first alias present with a non-null value |
| ApiClient.GetFieldValueSpec | api_client.py:36-44 | the value is that of the first alias present and non-null (an unmapped field is its own alias); otherwise "Unknown" for name and "N/A" for others |
| ApiClient.ListStrings | api_client.py:81-82 | a list of strings, or the position and type of its first non-string |
| ApiClient.ListTextSpec | api_client.py:79-90 | a list is joined with ", " and fails exactly when an item is not a string; anything else is shown with `str` |
| ApiClient.ShownSpec | api_client.py:76-103 | the shown optional lines are exactly the specs that show, in their order |
| ApiClient.CollectSpec | api_client.py:76-103 | the optional lines fail exactly when a shown one fails; otherwise there is one line per shown field, in order |
| ApiClient.BlockSpec | api_client.py:70-106 | a block is the fixed lines, then the shown optional lines in order, then an empty line |
| ApiClient.LineSpecsFailure | api_client.py:76-103 | the optional lines fail exactly on a non-string in a medications/allergies list or a non-string department/status |
| ApiClient.PatientBlockSpec | api_client.py:53-106 | a patient's block fails exactly under those conditions |
| ApiClient.PatientBlockShape | api_client.py:70-74 | a block starts with the "Patient #i", name, id and age lines and ends with an empty line |
| ApiClient.BlockResultsAt | api_client.py:53 | the block of the k-th patient (from 0) carries the number k + 1 |
| ApiClient.ConcatSuccessIff | api_client.py:53-106 | the list is laid out exactly when every block is |
| ApiClient.ConcatFirstFailure | api_client.py:53-106 | a failing layout reports the first failing block's error |
| ApiClient.ConcatPrefix | api_client.py:53-106 | the first i blocks' lines come first, in order |
| ApiClient.FormatStartsWithHeader | api_client.py:51 | a non-empty list's text starts with "Found N patient(s):\n" |
| ApiClient.NoPatientsTextIff | api_client.py:48-49 | the no-patients text is given exactly for an empty list |
| ApiClient.FormatPatientList | api_client.py:46-108 | the loop's text, or its error, is `FormatSpec` |
| ApiClient.BlocksStep | api_client.py:53-106 | one more patient appends its block or keeps the first error |
| ApiClient.BlocksFailurePersists | api_client.py:53-106 | once a block fails, the loop's error stays |
| ApiClient.FormatFirstFailure | api_client.py:53-106 | layout fails with the first failing patient's error |
| ApiClient.Clamp | api_client.py:134 | the limit is in 1..100 and unchanged when already in range |
| ApiClient.QueryParams | api_client.py:129-134 | the dict filled step by step is `BuildParams` |
| ApiClient.BuildParamsSpec | api_client.py:129-134 | the clamped limit is always sent; the name under "name" exactly when non-empty; nothing else |
| ApiClient.GetHeaders | api_client.py:21-34 | the dict filled step by step is `Headers` |
| ApiClient.HeadersSpec | api_client.py:21-34 | Content-Type always; bearer with a token adds Authorization; api_key with a token adds its header (default X-API-Key); any other type adds nothing |
| ApiClient.ConfiguredHeaders | config.py:17-21 | the shipped type "None" sends no authentication header |
| ApiClient.PatientsValueSpec | api_client.py:144-151 | a list is used as is; "patients" before "data"; otherwise [data] if truthy, else [] |
| ApiClient.Records | api_client.py:153 | a list of objects, one record per item |
| ApiClient.ReplyTextSpec | api_client.py:139-168 | network error, error status, undecodable body and falsy list each give their text; only an unsupported list shape gives none |
| ApiClient.ReplyTextOfRecords | api_client.py:153 | a list of objects gives its layout, or "Unexpected error: " + the layout's error |
| ExampleServer.ParseLimit | example_api_server.py:47 | a missing argument, or one that is neither digits nor "-" and digits, gives 10; digits, optionally after "-", give their value |
| ExampleServer.ParseLimitOfIntToString | example_api_server.py:47 | every integer written in decimal is read back as itself |
| ExampleServer.FilterByName | example_api_server.py:53-54 | the filter never grows the list |
| ExampleServer.FilterByNameSpec | example_api_server.py:53-54 | exactly the patients whose lower-cased name contains the lower-cased filter are kept, in order |
| ExampleServer.EmptyFilterKeepsAll | example_api_server.py:53-54 | an empty filter would keep every patient |
| ExampleServer.FilterIgnoresCase | example_api_server.py:54 | a filter and its lower-cased form select the same patients |
| ExampleServer.Truncate | example_api_server.py:57-58 | for limit > 0, the first min(limit, n); for limit <= 0, all |
| ExampleServer.ListReplySpec | example_api_server.py:57-68 | the reply holds a prefix of the filtered patients: min(limit, n) of them for limit > 0, all otherwise; total counts them; the filters are echoed |
| ExampleServer.FilteredSpec | example_api_server.py:46-54 | the name filter keeps registry patients in registry order; a missing or empty name keeps them all |
| ExampleServer.FilteredMembers | example_api_server.py:53-54 | every kept patient is a registry patient and matches a non-empty filter |
| ExampleServer.GetPatientsSpec | example_api_server.py:35-68 | the reply is the first min(limit, n) filtered patients (all for limit <= 0), each a registry patient matching a non-empty filter; total counts them; the filters are echoed; no limit argument means 10 |
| ExampleServer.FindById | example_api_server.py:79 | finds the first patient with the id |
| ExampleServer.GetPatientSpec | example_api_server.py:75-85 | 200 with the first patient with the id, else 404 with "Patient not found" |
| EndToEnd.QueryArg | api_client.py:138 | a parameter reaches the server exactly when it is sent |
| EndToEnd.ServerAnswersClientQuery | example_api_server.py:46-58 | the server reads the clamped limit; it returns min(clamped limit, matches) patients, at most 100, all matching a non-empty name |
| EndToEnd.RegistryFields | api_client.py:36-44 | in a registry patient, department and status are found and medications and allergies are missing |
| EndToEnd.RegistryBlockWritten | api_client.py:97-99 | a registry patient's block is always laid out |
| EndToEnd.RegistryListWritten | api_client.py:46-108 | laying out registry patients never fails |
| EndToEnd.ReplyBodyRecords | api_client.py:144-153 | the client finds the server's "patients" member and reads one record per returned patient, in order |
| EndToEnd.ClientListsReply | api_client.py:139-153 | any list reply of the server is laid out in full; the no-patients text exactly when it holds no patient |
| EndToEnd.ClientListsServerReply | api_client.py:139-153 | the client lays out exactly the returned patients; the no-patients text exactly when there are none |

## Left out

- The chat-completion call, the registry tool and the HTTP request are
  not modelled; each call's outcome is an argument. Sampling parameters,
  `raw_response` and the `asyncio` scheduling are not modelled; turns run
  one after another.
- Timestamps of log entries and all `print` logging are not modelled.
- Flask and Socket.IO routing, JSON request parsing and response wrapping
  are not modelled. Only the blank-message check of `chat_api` and
  `handle_chat_message` is kept.
- The `except` branch of `process_message` (chatbot/app.py:99-102) is not
  modelled. Every call the model makes is total, so that branch cannot be
  reached here.
- The `except Exception` branches of the example server are not modelled,
  because nothing in the modelled code raises. The health and root
  endpoints are not modelled either.
- `get_available_models` is the constant `Service.AvailableModels`.
- `int()` on a digit run of more than 4300 characters raises in Python.
  The model reads any length.
- `ExampleServer.ParseLimit`: reads digits with an optional "-". Python's
  `int()` also accepts "+", surrounding whitespace and underscores.
- `ExampleServer.PatientsBody`: keys are in sorted order, as the server's
  serialiser writes them. The client looks values up by key, so the order
  does not matter.
- Case handling and whitespace are ASCII only: `lower`, `title`, `\d`,
  `\s`, `split()` and `strip()`. A message made only of non-ASCII
  whitespace, such as U+00A0, is refused by chatbot/app.py:131-133 but
  accepted by the model.
- `repr` of strings always uses single quotes and does not escape.
  Floats are not modelled.
- `ApiClient.ReplyText`: the text is `None` when the patient value is
  truthy but not a list of objects. Python would format such values by
  duck typing, for example iterating a dict's keys.
- Query parameters are a map, so their order is not modelled.
- The mis-decoded emoji in chatbot/app.py:55 and chatbot/app.py:76 are
  kept as the characters stored in the file.
