# AG-UI demo agents and their display code, modelled in Dafny

The repository is a set of small agent applications built on the AG-UI protocol: servers that expose chat agents with tools over server-sent events, clients that stream their replies, and a page that renders them. Most of it configures vendor SDKs. This project models the sequential logic around those calls and proves properties of it:

- **CopilotKit adapter** (`CopilotKitAdapter`). The `event_generator` fold turns AG-UI events into CopilotKit `data:` frames. It ends with `[DONE]`, or with one error frame. Frames go on the wire in the event-stream format of section 9.2.5 of the WHATWG HTML Living Standard (`EventStream`).
- **Rich-content markers**:
  - The magentic server's tools write `[LINK]`, `[IMAGE_ID]`, `[WEATHER_ICON]` and `[CALC_RESULT]` markers into their result texts (`ServerMagentic`).
  - The chat page extracts and strips those markers with regular expressions (`RegexScan`, `Markers`, `MarkerScan`, `RichContent`).
  - Dafny proves the round trip from serialiser to parser.
- **Chat page** (`ChatPage`): the input guard of `sendMessage`, and the line reader that accumulates `TEXT_MESSAGE_CONTENT` deltas one chunk at a time. React's queue of `setMessages` updaters is modelled too, because it decides which agent name the streamed message ends up with.
- **Simulated tools**:
  - the financial tools: KPI lookup, chart data, transactions, dashboard and revenue sums (`FinancialTools`);
  - the restaurant search and weather texts of the tools server (`ServerWithTools`).
- **CORS origins** (`Settings`): the `parse_origins` validator.
- **Data analyst copilot** (`DataAnalystCopilot`):
  - the stream-line state of the default event handler;
  - the agent emoji;
  - the plan-review decision;
  - the direct and plan-review analysis loops.
- **CLI clients** (`ToolCallDisplay`):
  - the input guard and the tool-call argument accumulator shared by both command-line clients;
  - the frontend tools registry, notification and location fallback.

Shared helpers model Python's `str.strip`, `split` and `join`, the ASCII part of `lower` and `upper`, JavaScript's `trim`, and an abstract JSON value (`Wrappers`, `Text`, `JsonValue`).

How the external world is represented:

- Every network call, every `input()` and every agent stream is a parameter. Streams are finite sequences of events.
- Images are opaque strings.
- `uuid.uuid4()` is a function from the image index to an id.
- The random draws and clock readings of the financial tools are parameters.
- JSON encoding and decoding are functions passed in.
- Printed output is recorded as an appended sequence of strings.

## Model

| member | source | states |
|---|---|---|
| CopilotKitAdapter.Step | ag_ui_copilotkit_example/backend/copilotkit_adapter.py:46-71 | One event raises exactly when it is not a dict or its delta is not a string. A step grows the running text by exactly the event's delta. A step that yields nothing leaves the state unchanged. No step yields `[DONE]` or an error frame. |
| CopilotKitAdapter.StepTable | ag_ui_copilotkit_example/backend/copilotkit_adapter.py:47-71 | For each event type: START yields `message_start` with the event's id and records the id; CONTENT yields `content` with its delta (a missing delta is `""`) and appends it; END yields the assistant message with the running text; TOOL_CALL_START echoes name and arguments (`{}` when absent); RUN_COMPLETED yields `done`; any other type yields nothing and changes nothing. |
| CopilotKitAdapter.StepFrame | ag_ui_copilotkit_example/backend/copilotkit_adapter.py:47-71 | The frame of a step depends only on the event and the text so far. |
| CopilotKitAdapter.HandleEvent | ag_ui_copilotkit_example/backend/copilotkit_adapter.py:47-71 | The loop body computes exactly the step for the current `assistant_message` and `message_id`. |
| CopilotKitAdapter.EventGenerator | ag_ui_copilotkit_example/backend/copilotkit_adapter.py:37-78 | The imperative generator yields exactly the frames of `Generate`: per-event frames, then `[DONE]` or one error frame. |
| CopilotKitAdapter.StoppedStays | ag_ui_copilotkit_example/backend/copilotkit_adapter.py:76-78 | Once an event raises, later events change nothing. |
| CopilotKitAdapter.RunningIff | ag_ui_copilotkit_example/backend/copilotkit_adapter.py:46-78 | The translation is still running after a prefix exactly when no event of it raises. |
| CopilotKitAdapter.TextIsDeltas | ag_ui_copilotkit_example/backend/copilotkit_adapter.py:43-62 | The running text is the concatenation of every delta since the stream began. START and END never reset it. |
| CopilotKitAdapter.EndCarriesDeltas | ag_ui_copilotkit_example/backend/copilotkit_adapter.py:60-62 | A TEXT_MESSAGE_END frame carries every delta before it. |
| CopilotKitAdapter.FramesInOrder | ag_ui_copilotkit_example/backend/copilotkit_adapter.py:46-71 | Frames already yielded stay a prefix of the output, so frames follow event order. |
| CopilotKitAdapter.FramesGrow | ag_ui_copilotkit_example/backend/copilotkit_adapter.py:46-71 | One more event keeps every frame yielded so far. |
| CopilotKitAdapter.FoldIsPerEvent | ag_ui_copilotkit_example/backend/copilotkit_adapter.py:46-71 | The stateful fold equals an independent per-event definition that sees only the deltas before each event. |
| CopilotKitAdapter.NormalTermination | ag_ui_copilotkit_example/backend/copilotkit_adapter.py:46-74 | On normal termination the output is the per-event frames followed by exactly one `[DONE]`, which occurs nowhere else. |
| CopilotKitAdapter.NoDoneYielded | ag_ui_copilotkit_example/backend/copilotkit_adapter.py:47-71 | The loop never yields `[DONE]` or an error frame. |
| CopilotKitAdapter.FailureTermination | ag_ui_copilotkit_example/backend/copilotkit_adapter.py:76-78 | When the agent stream or a translation step fails, the output has no `[DONE]`, ends with an error frame, and has no other error frame. |
| CopilotKitAdapter.Payloads | ag_ui_copilotkit_example/backend/copilotkit_adapter.py:52-78 | The payload of each frame, one per frame and in order. |
| CopilotKitAdapter.ClientReceives | ag_ui_copilotkit_example/backend/copilotkit_adapter.py:52-78 | Every frame is written as `data: <payload>` and a blank line. An event-stream client receives exactly one message per frame, carrying that frame's payload. |
| CopilotKitAdapter.Endpoint | ag_ui_copilotkit_example/backend/copilotkit_adapter.py:16-95 | The endpoint always answers with at least one frame. |
| CopilotKitAdapter.EndpointFailsEarly | ag_ui_copilotkit_example/backend/copilotkit_adapter.py:24-95 | An unreadable body, or a body without `.get`, gives a stream of exactly one error frame. |
| CopilotKitAdapter.EndpointForwards | ag_ui_copilotkit_example/backend/copilotkit_adapter.py:25-81 | Otherwise the agent receives the body's messages (default `[]`) and thread id (default null), and the stream is the generator's output. |
| EventStream.ColonIndex | ag_ui_copilotkit_example/backend/copilotkit_adapter.py:52 | The first colon of a field line, or the line's length when it has none. |
| EventStream.SplitFrames | ag_ui_copilotkit_example/backend/copilotkit_adapter.py:52-78 | A stream of frames with single-line payloads splits into a `data:` line and a blank line per frame. |
| EventStream.MessagesOfFrames | ag_ui_copilotkit_example/backend/copilotkit_adapter.py:52-78 | Processing those lines dispatches exactly the payloads, in order. |
| EventStream.ReceiveFrames | ag_ui_copilotkit_example/backend/copilotkit_adapter.py:52-78 | A receiver of the frame stream gets back exactly the payloads. |
| RegexScan.Exec | agui_maf_demo/agui_web_ui/app/page.tsx:22-35 | `exec` with `lastIndex` finds a match at or after the position, within the text. |
| RegexScan.ExecAll | agui_maf_demo/agui_web_ui/app/page.tsx:19-37 | The page's `while (re.exec(content))` loop collects exactly the bodies of the global scan, left to right. |
| RegexScan.MatchFirstIsFirstBody | agui_maf_demo/agui_web_ui/app/page.tsx:14-29 | The non-global `match` yields the first body the global scan finds, or none. |
| RegexScan.ExecNone | agui_maf_demo/agui_web_ui/app/page.tsx:22-35 | When `exec` finds nothing, no body lies ahead. |
| RegexScan.ExecSome | agui_maf_demo/agui_web_ui/app/page.tsx:22-35 | A found match is the next body, and the scan resumes after it. |
| RegexScan.ExecProgress | agui_maf_demo/agui_web_ui/app/page.tsx:22-36 | One round of the loop keeps "bodies so far plus bodies ahead" equal to all bodies. |
| RegexScan.SkipPlain | agui_maf_demo/agui_web_ui/app/page.tsx:16-25 | Text without `[` holds no match and survives removal unchanged. |
| RegexScan.SkipNoMatch | agui_maf_demo/agui_web_ui/app/page.tsx:16-25 | Text at none of whose positions a match starts yields no body, survives removal unchanged, and is passed over by `match`. |
| RegexScan.HitStep | agui_maf_demo/agui_web_ui/app/page.tsx:14-38 | At a match, the scan yields its body, removal drops it, and `match` returns it. |
| Markers.Name | agui_maf_demo/agui_web_ui/app/page.tsx:14-33 | Each marker word starts with a capital and has no `[`. |
| Markers.PatternOf | agui_maf_demo/agui_web_ui/app/page.tsx:14-33 | The patterns are `[KIND]` … `[/KIND]`, and they are valid patterns. |
| Markers.PatternsDistinct | agui_maf_demo/agui_web_ui/app/page.tsx:14-33 | The open markers of different kinds differ in their second character. |
| Markers.CloseFrom | agui_maf_demo/agui_web_ui/app/page.tsx:14-33 | The lazy `(.*?)` stops at the first close marker, never past a line terminator. |
| Markers.MarkerPrefix | agui_maf_demo/agui_web_ui/app/page.tsx:14-33 | A single-line marker whose body holds no close marker of its kind is matched, with exactly that body. |
| Markers.MultiLineNoMatch | agui_maf_demo/agui_web_ui/app/page.tsx:14-33 | No match starts at an open marker whose body contains a line terminator before any close marker of its kind, because the patterns do not use the `s` flag. |
| MarkerScan.MarkerMatched | agui_maf_demo/agui_web_ui/app/page.tsx:14-38 | A single-line marker whose body holds no close marker of its kind is extracted, removed and returned by `match`. |
| MarkerScan.OtherMarkerSkipped | agui_maf_demo/agui_web_ui/app/page.tsx:14-38 | A marker of another kind, whose body holds no open marker of this kind, is left alone by this kind's scans. |
| MarkerScan.MultiLineMarkerIgnored | agui_maf_demo/agui_web_ui/app/page.tsx:14-38 | A marker whose body spans lines and holds no marker of its own kind is neither extracted nor stripped. |
| RichContent.ParseRichContent | agui_maf_demo/agui_web_ui/app/page.tsx:12-38 | The component's sequence of matches, loops and replacements computes `RichContentOf`. |
| RichContent.ScanRender | agui_maf_demo/agui_web_ui/app/page.tsx:19-38 | On rendered pieces whose plain text holds no open marker and whose bodies fit, the scan for a kind yields that kind's bodies in order. Removal leaves the pieces without that kind. |
| RichContent.WithoutWellFormed | agui_maf_demo/agui_web_ui/app/page.tsx:16-38 | Removing one kind keeps the plain text and the other kinds' bodies, and leaves none of that kind. |
| RichContent.RemoveAllMarkers | agui_maf_demo/agui_web_ui/app/page.tsx:16-38 | The chain of four replacements removes every marker of every kind. |
| RichContent.WithoutMarkersPlain | agui_maf_demo/agui_web_ui/app/page.tsx:16-38 | What remains is the plain text in its original order. |
| RichContent.ExtractAll | agui_maf_demo/agui_web_ui/app/page.tsx:14-37 | Weather icon and calc result are the first body of their kind, or none. Links and image ids are all bodies of their kind, in order. |
| RichContent.RichContentRoundTrip | agui_maf_demo/agui_web_ui/app/page.tsx:12-38 | The page recovers from rendered pieces exactly their marker bodies and their plain text. This holds when the plain text holds no open marker and each body is one line holding no close marker of its kind and no open marker of another kind. |
| RichContent.NoMarkerWord | agui_maf_demo/agui_web_ui/app/page.tsx:14-33 | Text in which no `[` is followed by W, L, C or I holds no open marker, so `[1, 2, 3]` and `[PDF]` are ordinary text. |
| ChatPage.Turns | agui_maf_demo/agui_web_ui/app/page.tsx:209-211 | The posted history is the role and content of every message, in order. |
| ChatPage.Home.constructor | agui_maf_demo/agui_web_ui/app/page.tsx:143-152 | The page starts with the greeting, an empty input and not loading. |
| ChatPage.Home.HandleQuestionClick | agui_maf_demo/agui_web_ui/app/page.tsx:189-192 | A sample question fills the input unless a reply is loading. Messages are untouched. |
| ChatPage.Home.SendMessage | agui_maf_demo/agui_web_ui/app/page.tsx:194-268 | Blank input, or any input while loading, changes nothing. Otherwise the trimmed text is appended as one user message and the input is cleared. The whole history is posted and the reply's messages follow. Loading ends. |
| ChatPage.Home.Exchange | agui_maf_demo/agui_web_ui/app/page.tsx:204-267 | A failed fetch adds the error message. A body adds the streamed assistant message, which the placeholder's updater places at the first render, followed by the error message if reading failed. Loading is reset in every case. |
| ChatPage.Home.ReadStream | agui_maf_demo/agui_web_ui/app/page.tsx:219-257 | The placeholder's update and the chunk loop append one assistant message, as `Final` gives it for the render schedule. A render falls wherever the schedule puts one while a chunk is awaited, and once after the stream. Until the first render the list is unchanged. |
| ChatPage.Home.ReadChunk | agui_maf_demo/agui_web_ui/app/page.tsx:222-256 | One chunk: the render that awaits it, if any, then the line loop. The loop updates `assistantMessage` and `currentAgentName` and leaves the list alone: a delta's updater waits for the next render. |
| ChatPage.Home.RunUpdaters | agui_maf_demo/agui_web_ui/app/page.tsx:245-250 | A render runs the waiting updaters in order. The placeholder's, if it still waits, appends the assistant message with the current name. Each content updater writes the current text and name to it. Without a waiting updater, nothing changes. |
| ChatPage.IgnoredLine | agui_maf_demo/agui_web_ui/app/page.tsx:229-254 | Lines without a `data: ` prefix, `[DONE]` and unparsable payloads change nothing. |
| ChatPage.ContentLines | agui_maf_demo/agui_web_ui/app/page.tsx:243-244 | A line adds text exactly when it is a TEXT_MESSAGE_CONTENT event with a truthy delta. |
| ChatPage.ReadLinesText | agui_maf_demo/agui_web_ui/app/page.tsx:229-251 | The text read from lines is the earlier text followed by the lines' deltas. |
| ChatPage.StreamText | agui_maf_demo/agui_web_ui/app/page.tsx:216-251 | Whatever the render schedule, the reader's text after a stream is the concatenation of every delta. |
| ChatPage.ShownIsDeltas | agui_maf_demo/agui_web_ui/app/page.tsx:216-250 | After the stream and the final render, the last message's content is the concatenation of every delta, for every render schedule. |
| ChatPage.RunTracks | agui_maf_demo/agui_web_ui/app/page.tsx:216-250 | After any steps, the current name is "Assistant" exactly when an assistant start was read. Either the placeholder has been placed or an updater waits. With no updater waiting, the message shows the whole text and the name as it stood at a render after the last delta. |
| ChatPage.AgentShown | agui_maf_demo/agui_web_ui/app/page.tsx:217-250 | The streamed message's label is the agent name as it stood at some render after the last delta, or at the render after the stream. With no delta, that is the render that ran the placeholder's updater. |
| ChatPage.AgentSettled | agui_maf_demo/agui_web_ui/app/page.tsx:238-250 | When no assistant start follows the last delta, every render schedule shows the final agent name. |
| ChatPage.AgentWithoutRenders | agui_maf_demo/agui_web_ui/app/page.tsx:220-250 | If the page does not render until the stream ends, every updater reads the final variables, so the message is labelled with the final agent name, even when the start came after the last delta. |
| ChatPage.RenderTimingMatters | agui_maf_demo/agui_web_ui/app/page.tsx:220-250 | Take a content line followed, in the next chunk, by an assistant start. The label is "OrchestratorAgent" when the page renders between the two chunks. It is "Assistant" when the page renders only before the first chunk, since the render runs only the placeholder's updater. It is also "Assistant" when the page does not render until the end. |
| ServerMagentic.WebSearch | agui_maf_demo/server_magentic.py:88-115 | The text is the missing-key message, the error text, or the header followed by one entry per hit: numbered title line, content line and `[LINK]url[/LINK]` line. |
| ServerMagentic.SearchNeedsKey | agui_maf_demo/server_magentic.py:94-96 | Without a key the text is the fixed message and does not depend on the service. |
| ServerMagentic.Urls | agui_maf_demo/server_magentic.py:104-111 | One URL per hit, in order; a missing URL is `""`. |
| ServerMagentic.EntriesRendered | agui_maf_demo/server_magentic.py:104-111 | The entries are the rendering of title/content text and link marker pieces. |
| ServerMagentic.EntriesBodies | agui_maf_demo/server_magentic.py:104-111 | The entries carry exactly the result URLs as link bodies, in order, and no other marker. |
| ServerMagentic.SearchContent | agui_maf_demo/server_magentic.py:102-111 | The plain text of a search result is the header followed by each hit's title and content. Its link bodies are the URLs. |
| ServerMagentic.SearchLinksShown | agui_maf_demo/server_magentic.py:102-113 | Round trip with the page: the links extracted are exactly the result URLs in order, and the header and hits are displayed. This holds when the header and hits hold no open marker and each URL is one line holding no marker. |
| ServerMagentic.TitleCase | agui_maf_demo/server_magentic.py:79 | ASCII `str.title()`: a letter after a letter is lower-cased and any other letter upper-cased; the length is kept. |
| ServerMagentic.TitleCaseLetters | agui_maf_demo/server_magentic.py:79 | Title-casing keeps which characters are letters. |
| ServerMagentic.TitleCaseIdempotent | agui_maf_demo/server_magentic.py:79 | Title-casing twice is title-casing once. |
| ServerMagentic.WeatherNeedsKey | agui_maf_demo/server_magentic.py:59-61 | Without a key the text is the fixed message and does not depend on the service. |
| ServerMagentic.WeatherRendered | agui_maf_demo/server_magentic.py:76-83 | The weather text is the head followed by the icon marker. |
| ServerMagentic.WeatherContent | agui_maf_demo/server_magentic.py:76-83 | Its plain text is the head, its first icon body is the icon URL, and it has no other marker. |
| ServerMagentic.WeatherIconShown | agui_maf_demo/server_magentic.py:63-83 | Round trip with the page: it shows the report's icon URL and, as text, the head. This holds when the head holds no open marker. |
| ServerMagentic.CalcRendered | agui_maf_demo/server_magentic.py:125-130 | The calculation text is its head followed by the result marker. |
| ServerMagentic.CalcContent | agui_maf_demo/server_magentic.py:125-130 | Its first calc body is the value, and it has no other marker. |
| ServerMagentic.CalcResultShown | agui_maf_demo/server_magentic.py:123-130 | Round trip with the page: its calculation result is the computed value. This holds when the head holds no open marker and the value is one line holding no marker, which includes a list such as `[1, 2, 1, 2]`. |
| ServerMagentic.SectionsSpec | agui_maf_demo/server_magentic.py:190-199 | The report has a Task section if and only if the description is non-empty, and likewise Output for the output and Warnings for the errors. There are no other sections, and they come in that order. |
| ServerMagentic.ReportHasSections | agui_maf_demo/server_magentic.py:190-199 | The report head is the header followed by exactly those sections. |
| ServerMagentic.NoOutputNotice | agui_maf_demo/server_magentic.py:207-208 | The report ends with the no-output line exactly when output, images and warnings are all empty. |
| ServerMagentic.StoredSpec | agui_maf_demo/server_magentic.py:201-205 | With fresh ids, each image is stored under its own id, every earlier entry is unchanged, and nothing else is added. |
| ServerMagentic.ImagesServed | agui_maf_demo/server_magentic.py:201-341 | After storing, each new id serves its image, and every earlier id serves what it served before. |
| ServerMagentic.Ids | agui_maf_demo/server_magentic.py:202-203 | The ids drawn for the images, one per image, in capture order. |
| ServerMagentic.ImagesRendered | agui_maf_demo/server_magentic.py:202-205 | The image references are one `[IMAGE_ID]id[/IMAGE_ID]` marker per image, in capture order. |
| ServerMagentic.ImagesContent | agui_maf_demo/server_magentic.py:202-205 | Those references carry exactly the ids in order as image bodies and no other marker. What is left is blank lines. |
| ServerMagentic.ImagesFit | agui_maf_demo/server_magentic.py:202-205 | Ids that are single lines holding no marker give image markers that fit. |
| ServerMagentic.FramedRoundTrip | agui_maf_demo/server_magentic.py:190-208 | Image references between plain texts holding no open marker are extracted as exactly the ids, in order. |
| ServerMagentic.ReportRoundTrip | agui_maf_demo/server_magentic.py:190-208 | A report text whose own text holds no open marker round-trips through the page with the ids as its only markers. |
| ServerMagentic.ImageIdsShown | agui_maf_demo/server_magentic.py:141-210 | Round trip with the page: the page's image ids are the ids the images were stored under, in order, and nothing else is taken for a marker. This holds when the report's own text holds no open marker. |
| ServerMagentic.Server.constructor | agui_maf_demo/server_magentic.py:47 | The image storage starts empty. |
| ServerMagentic.Server.WriteHead | agui_maf_demo/server_magentic.py:190-199 | The appended sections build exactly the report head. |
| ServerMagentic.Server.StoreImages | agui_maf_demo/server_magentic.py:201-205 | The loop appends one reference per image and binds each id to its image, in order. |
| ServerMagentic.Server.StoreStep | agui_maf_demo/server_magentic.py:202-205 | One more image extends both the storage and the references by that image. |
| ServerMagentic.Server.ExecutePythonCode | agui_maf_demo/server_magentic.py:141-215 | The result is the error text when execution failed. Otherwise it is the report of the run, with capture errors appended to the warnings. The storage holds the run's images under their ids. |
| ServerMagentic.MissingImageIsSuccess | agui_maf_demo/server_magentic.py:341 | As written, an unknown id is answered with status 200 and a two-element array instead of the error object. |
| ServerMagentic.ServeImage | agui_maf_demo/server_magentic.py:333-341 | As intended: the image is served if and only if the id is stored, and it is the stored data. Otherwise the answer is 404 with the error object. |
| ServerMagentic.Server.GetImage | agui_maf_demo/server_magentic.py:333-341 | The lookup answers as `ServeImage` on the current storage, which it does not modify. |
| ServerWithTools.MatchingSpec | agui_maf_demo/server_with_tools.py:90-91 | The matches are exactly the entries whose cuisine contains the request, ignoring ASCII letter case, in table order. |
| ServerWithTools.AnyCuisine | agui_maf_demo/server_with_tools.py:90-96 | A cuisine of "any" in any ASCII letter case applies no filter. |
| ServerWithTools.ResultsServeCuisine | agui_maf_demo/server_with_tools.py:90-91 | Otherwise every result serves the requested cuisine. |
| ServerWithTools.ResultsFromTable | agui_maf_demo/server_with_tools.py:80-96 | Results are a subsequence of the six-entry table, so they keep its order. |
| ServerWithTools.FirstMatches | agui_maf_demo/server_with_tools.py:96 | For a non-negative limit, the results are the first min(limit, number of matches) matches. |
| ServerWithTools.SearchEchoes | agui_maf_demo/server_with_tools.py:98-103 | The count is the number of results, and location and cuisine are echoed. |
| ServerWithTools.DefaultSearch | agui_maf_demo/server_with_tools.py:71-103 | The defaults give the first three restaurants. |
| ServerWithTools.WeatherNeedsKey | agui_maf_demo/server_with_tools.py:45-47 | Without a key, or with an empty one, `get_weather` answers with the configuration message, whatever the weather service would have replied. |
| ServerWithTools.CorrectionScope | agui_maf_demo/server_with_tools.py:47-65 | `get_weather` as written and its corrected form give the same answer exactly when the key is missing or the lookup did not succeed. On a successful lookup, the text as written has `¬∞C` and the corrected one has `°C`. |
| ServerWithTools.StatusBranches | agui_maf_demo/server_with_tools.py:60-65 | An HTTP 404 gives the city-not-found text. Any other status gives "Error fetching weather" with the error. Both differ from the generic failure text. |
| ServerWithTools.TemperatureUnitAsWritten | agui_maf_demo/server_with_tools.py:59 | As written, the temperature is followed by the two characters `¬∞` and a `C`, so the text is not the intended one. |
| ServerWithTools.TemperatureUnit | agui_maf_demo/server_with_tools.py:59 | The corrected text has the degree sign and `C` right after the temperature. |
| FinancialTools.FirstMatchFrom | ag_ui_copilotkit_example/backend/agents/tools.py:169-170 | The result is the first table position at or after the start whose key matches, or none when no later key does. |
| FinancialTools.CalculateKpi | ag_ui_copilotkit_example/backend/agents/tools.py:165-188 | The loop with early return computes exactly the KPI reply. |
| FinancialTools.KpiReplySpec | ag_ui_copilotkit_example/backend/agents/tools.py:166-188 | A KPI is found if and only if some key matches the normalised name. The reply is then the first matching entry's data, copied. Name and period are echoed. Otherwise the error lists the four keys in table order. |
| FinancialTools.InterpretationSpec | ag_ui_copilotkit_example/backend/agents/tools.py:179 | The interpretation is "{name} is {status with `_` turned into spaces} with a {trend} trend". |
| FinancialTools.KpiIgnoresCase | ag_ui_copilotkit_example/backend/agents/tools.py:166 | ASCII letter case in the name does not change which entry is found. |
| FinancialTools.EmptyNameFindsRoi | ag_ui_copilotkit_example/backend/agents/tools.py:169-170 | The empty name is a substring of every key, so it finds "roi". |
| FinancialTools.GenerateChart | ag_ui_copilotkit_example/backend/agents/tools.py:85-121 | The imperative build computes exactly the chart record. |
| FinancialTools.ChartSpec | ag_ui_copilotkit_example/backend/agents/tools.py:85-121 | Type and title are echoed and the config is responsive. "revenue" in the source gives the revenue series; otherwise "growth" gives the growth series; otherwise the categories are used, with no axis labels. |
| FinancialTools.ChartIgnoresCase | ag_ui_copilotkit_example/backend/agents/tools.py:95-104 | The keyword test ignores ASCII letter case. |
| FinancialTools.SearchTransactions | ag_ui_copilotkit_example/backend/agents/tools.py:229-246 | The query is echoed and the filters default to `{}`. The total equals the list length, which is `min(limit, 5)` clamped at 0. The i-th entry is transaction `TXN-{1000+i}` with its draws. |
| FinancialTools.ResultCountSpec | ag_ui_copilotkit_example/backend/agents/tools.py:231 | At most 5; exactly `limit` between 0 and 5; none when the limit is not positive. |
| FinancialTools.TransactionIdValue | ag_ui_copilotkit_example/backend/agents/tools.py:233 | The i-th id is `TXN-` followed by the decimal digits of 1000 + i. |
| FinancialTools.TransactionIdsDistinct | ag_ui_copilotkit_example/backend/agents/tools.py:231-233 | Different positions have different ids. |
| FinancialTools.DashboardSpec | ag_ui_copilotkit_example/backend/agents/tools.py:258-264 | Metrics, charts and alerts are copied when present and default to `{}`, `[]` and `[]`. The status is "updated". |
| FinancialTools.DashboardIgnoresOthers | ag_ui_copilotkit_example/backend/agents/tools.py:258-264 | Entries under other keys do not affect the dashboard. |
| FinancialTools.Strongest | ag_ui_copilotkit_example/backend/agents/tools.py:56 | `max` with a key: an entry of largest revenue, and the first such entry. |
| FinancialTools.AnalyzeRevenue | ag_ui_copilotkit_example/backend/agents/tools.py:29-58 | The period is echoed, there is one entry per month with base revenue plus the drawn offset, the total is their sum, the strongest month is the one of maximal revenue, and the trend is "upward". |
| FinancialTools.TotalRevenue | ag_ui_copilotkit_example/backend/agents/tools.py:40-47 | The total is the three base revenues plus the offsets. |
| FinancialTools.DecemberStrongest | ag_ui_copilotkit_example/backend/agents/tools.py:41-56 | With offsets in `randint(-20000, 30000)`, December is always the strongest month. |
| Settings.Strs | ag_ui_copilotkit_example/backend/config.py:39 | One JSON string per origin, in order. |
| Settings.KeptFrom | ag_ui_copilotkit_example/backend/config.py:39 | Every kept piece is the non-empty strip of some piece, and is itself stripped. |
| Settings.KeptAll | ag_ui_copilotkit_example/backend/config.py:39 | The strip of every piece that has text is kept. |
| Settings.KeptClean | ag_ui_copilotkit_example/backend/config.py:39 | Pieces that are already stripped and non-empty are kept as they are, in order. |
| Settings.OriginsSpec | ag_ui_copilotkit_example/backend/config.py:36-39 | The origins are exactly the non-empty stripped comma-separated pieces. None is empty, none has surrounding white space, and none contains a comma. |
| Settings.BlankOrigins | ag_ui_copilotkit_example/backend/config.py:39 | A string of only commas and white space parses to no origins. |
| Settings.ReparseJoin | ag_ui_copilotkit_example/backend/config.py:36-39 | Joining the origins with commas and parsing again gives the same origins. |
| Settings.ParseOriginsSpec | ag_ui_copilotkit_example/backend/config.py:35-40 | A string becomes an array of exactly its origins. Any other value is returned unchanged. |
| Settings.DefaultParses | ag_ui_copilotkit_example/backend/config.py:31-39 | The default parses to the three local origins, in order. |
| DataAnalystCopilot.AgentEmojiSpec | data_analyst_copilot/copilot.py:160-169 | The robot is returned if and only if the id is not one of the five known agents. Each emoji is one character. |
| DataAnalystCopilot.Rule | data_analyst_copilot/copilot.py:119-144 | `"-" * 70` is 70 copies of the character. |
| DataAnalystCopilot.SummarySpec | data_analyst_copilot/copilot.py:141 | The summary is a prefix of the text with its newlines made spaces. It has at most 200 characters and no newline, and it is the whole text when that fits. |
| DataAnalystCopilot.DeltaSpec | data_analyst_copilot/copilot.py:123-130 | A delta prints a header exactly when its agent differs from the last one or no line is open, closing an open line first. Afterwards the last id is the agent's and the line is open. |
| DataAnalystCopilot.MessageSpec | data_analyst_copilot/copilot.py:134-144 | A message closes an open line with " ✓", leaves it closed and keeps the last agent id. It prints nothing else when there is no message. |
| DataAnalystCopilot.Deltas | data_analyst_copilot/copilot.py:121-130 | One delta event per text, in order. |
| DataAnalystCopilot.SameAgentContinues | data_analyst_copilot/copilot.py:123-130 | More deltas from the agent whose line is open print only their texts. |
| DataAnalystCopilot.OneHeaderPerRun | data_analyst_copilot/copilot.py:123-130 | A run of deltas from one agent, starting with no line open, prints one header and then the texts. |
| DataAnalystCopilot.Copilot.constructor | data_analyst_copilot/copilot.py:113-130 | No agent has streamed, no line is open and nothing is printed. |
| DataAnalystCopilot.Copilot.HandleEvent | data_analyst_copilot/copilot.py:113-154 | The handler moves the fields to the next state and appends exactly that event's output to the log. |
| DataAnalystCopilot.Copilot.HandleDelta | data_analyst_copilot/copilot.py:121-130 | As above, for a delta event. |
| DataAnalystCopilot.Copilot.HandleMessage | data_analyst_copilot/copilot.py:132-144 | As above, for a message event. |
| DataAnalystCopilot.Copilot.HandleFinal | data_analyst_copilot/copilot.py:146-153 | The final report is printed between rules, and the fields are unchanged. |
| DataAnalystCopilot.PlanReviewSpec | data_analyst_copilot/copilot.py:269-281 | The reply rejects if and only if the stripped choice is "2". It carries an edited plan if and only if the choice is "3", and that plan is the stripped second line. Every other choice approves with no edit. |
| DataAnalystCopilot.LastCompletion | data_analyst_copilot/copilot.py:202-207 | None if and only if no event is a completion. Otherwise it is the data of the last completion. |
| DataAnalystCopilot.AnalyzeDirect | data_analyst_copilot/copilot.py:200-214 | It fails with "Analysis did not complete successfully" if and only if no completion arrives. Otherwise the result is the text of the last completion's data. |
| DataAnalystCopilot.RunStream | data_analyst_copilot/copilot.py:224-236 | The loop over a fresh run computes exactly `RunFold`. |
| DataAnalystCopilot.ResponseStream | data_analyst_copilot/copilot.py:246-252 | The loop over a reply stream computes exactly `ResponseFold`. |
| DataAnalystCopilot.AnalyzeWithPlanReview | data_analyst_copilot/copilot.py:216-260 | The `while True` loop computes exactly the outcome of `ReviewRun` from the empty state. |
| DataAnalystCopilot.RunFoldSpec | data_analyst_copilot/copilot.py:224-229 | After a fresh run the completion is the run's last completion if it had one, and otherwise is unchanged. |
| DataAnalystCopilot.ResponseFoldSpec | data_analyst_copilot/copilot.py:246-252 | The same holds for a reply stream. |
| DataAnalystCopilot.ResponsePending | data_analyst_copilot/copilot.py:249-252 | After a reply stream whose last event is not a completion, a request is pending exactly when that event is a request. A stream of only completions keeps the pending request. |
| DataAnalystCopilot.CompletingRunFinishes | data_analyst_copilot/copilot.py:223-258 | A first run that completes ends the loop with its last completion's result. |
| DataAnalystCopilot.FinishedHasCompletion | data_analyst_copilot/copilot.py:221-258 | The loop finishes only with the result of a completion that some stream delivered. |
| DataAnalystCopilot.TailHasCompletion | data_analyst_copilot/copilot.py:238-252 | The same holds from the completion check onwards. |
| DataAnalystCopilot.ReviewResultDelivered | data_analyst_copilot/copilot.py:216-258 | The whole loop finishes only with a delivered completion's result. |
| ToolCallDisplay.InputSpec | agui_maf_demo/client_with_tools.py:51-57 | A line is refused if and only if it strips to nothing. It ends the chat if and only if it has text and lower-cases to ":q" or "quit". Every other line is sent unchanged. |
| ToolCallDisplay.CaseInsensitive | agui_maf_demo/client_frontend_tools.py:174-180 | Two lines that differ only in ASCII letter case are treated alike. |
| ToolCallDisplay.PaddedQuitIsAsked | agui_maf_demo/client_with_tools.py:55-57 | Exit words are matched on the whole line: a padded "quit" is sent. |
| ToolCallDisplay.AskedFrom | agui_maf_demo/client_with_tools.py:48-57 | One step of the chat loop: it skips a blank line, stops at an exit word and sends any other line. |
| ToolCallDisplay.AskedSpec | agui_maf_demo/client_with_tools.py:48-57 | Every line sent passed the guard, and no more lines are sent than were typed. |
| ToolCallDisplay.QuitStops | agui_maf_demo/client_with_tools.py:55-57 | Nothing typed after an exit word is sent. |
| ToolCallDisplay.Chat | agui_maf_demo/client_with_tools.py:47-111 | The loop sends exactly the lines of `Conversation` and ends as it says; its last line is the goodbye or the error line. Each turn shows what its reply's updates printed, including a reply cut short by an error. |
| ToolCallDisplay.ConversationSpec | agui_maf_demo/client_with_tools.py:47-111 | The lines sent are a prefix of the lines that pass the guard before the exit word. Only the last one's reply can have failed. The chat ends with an error exactly when it did, and with that error. If no reply fails, every line up to the exit word is sent. |
| ToolCallDisplay.ConversationEnding | agui_maf_demo/client_with_tools.py:47-111 | The chat ends at the end of input only when no exit word was typed, and says goodbye only after one was. |
| ToolCallDisplay.TruncateSpec | agui_maf_demo/client_with_tools.py:95-97 | A result of at most 200 characters is shown whole. A longer one is shown as its first 200 characters and "...". |
| ToolCallDisplay.TruncateIdempotent | agui_maf_demo/client_frontend_tools.py:222-224 | Truncating a shown result again changes nothing. |
| ToolCallDisplay.TrackAllAppend | agui_maf_demo/client_with_tools.py:71-102 | Tracking over consecutive contents is tracking the first part, then the second. |
| ToolCallDisplay.ShownAllAppend | agui_maf_demo/client_with_tools.py:71-102 | What is shown for consecutive contents is what the first part shows, then what the second shows from the state the first left. |
| ToolCallDisplay.Calls | agui_maf_demo/client_with_tools.py:72-82 | One call chunk per argument piece, all under the same tool name. |
| ToolCallDisplay.SameCallAppends | agui_maf_demo/client_with_tools.py:74-82 | Chunks for the tool already being tracked append their arguments and print nothing. |
| ToolCallDisplay.NewCallAccumulates | agui_maf_demo/client_frontend_tools.py:197-205 | Chunks starting a new tool announce it once. After them the arguments are the concatenation of the chunks. |
| ToolCallDisplay.ResultResets | agui_maf_demo/client_with_tools.py:84-102 | A function result resets the tracked name and arguments, whatever came before. |
| ToolCallDisplay.CompleteCall | agui_maf_demo/client_frontend_tools.py:197-229 | A new call streamed in chunks and then its result shows the call once, then its full arguments, then the shown result. Tracking is reset. |
| ToolCallDisplay.TurnStep | agui_maf_demo/client_with_tools.py:65-104 | One more update continues the turn from the state the earlier updates left. Its output follows theirs. |
| ToolCallDisplay.HandleContent | agui_maf_demo/client_with_tools.py:72-102 | One content: the new `current_tool_name` and `accumulated_args`, and what it prints, are exactly those of `Track` and `Shows`. |
| ToolCallDisplay.HandleContents | agui_maf_demo/client_with_tools.py:71-102 | The inner loop computes the tracking fold and its output over the update's contents. |
| ToolCallDisplay.DisplayTurn | agui_maf_demo/client_with_tools.py:62-104 | The turn starts with fresh tracking that is carried across updates. It prints exactly what the whole turn shows. |
| ToolCallDisplay.UrgencyEmojiSpec | agui_maf_demo/client_frontend_tools.py:118-119 | "low" and "high" get their own emoji. Any other urgency gets the "normal" emoji. The three emoji differ. |
| ToolCallDisplay.ShowNotificationSpec | agui_maf_demo/client_frontend_tools.py:107-129 | The reply is "Notification displayed: " and the title, regardless of message and urgency. Three lines are printed. |
| ToolCallDisplay.FindToolAt | agui_maf_demo/client_frontend_tools.py:132-137 | A dict lookup finds the entry of a key when no later entry repeats that key. |
| ToolCallDisplay.ToolNamesDistinct | agui_maf_demo/client_frontend_tools.py:132-137 | Different frontend tools have different names. |
| ToolCallDisplay.RegistrySpec | agui_maf_demo/client_frontend_tools.py:132-137 | The registry holds the four tools, each under its own name. Looking a tool's name up returns that tool. |
| ToolCallDisplay.LookupAt | agui_maf_demo/client_frontend_tools.py:45-53 | A dict lookup finds the value of a key when no later field repeats it. |
| ToolCallDisplay.UserLocationSpec | agui_maf_demo/client_frontend_tools.py:33-66 | The Toronto fallback is returned if and only if the geolocation reply is not a usable 200 answer. Otherwise latitude and city are copied from the reply, and the method says IP-based. The fallback says simulated. |

## Left out

- Network services are parameters of the model:
  - Azure OpenAI and the Agent Framework agents;
  - the Tavily, OpenWeatherMap and ipapi.co requests.
  Their answers are values. A call that raises is a value carrying the exception text, such as `SearchFailed`, `WeatherFailed`, or the `failure` of a client's `Stream`.
- The Python code run by `execute_python_code` is not evaluated. Its `eval`/`exec` outcome is an input: output, errors, captured images, or the exception that aborts the run.
- Matplotlib figure capture and base64 encoding are left out. An image is an opaque string.
- `uuid.uuid4()` is a function from the image's position to an id. Freshness is a hypothesis of the storage lemmas.
- The `random` draws and the clock readings of the financial tools are inputs.
- Floating point is left out. The growth percentages, averages and forecast of `analyze_revenue` are not modelled; revenues are integers.
- JSON encoding of frames and parsing of lines are left out: `json.dumps` and `JSON.parse` are functions passed in.
- React's updating of the DOM, the markdown-to-HTML step (agui_maf_demo/agui_web_ui/app/page.tsx:41-46) and the styling are left out. The page is modelled as its state. Of React's scheduling, the model keeps only whether a render falls while the reader awaits each chunk, and that is a parameter.
- ChatPage.Home.ReadStream: every `setMessages` updater the placeholder or a delta passes while the reader runs is taken to wait for the next render. React 18 runs an updater at once only when neither of the component's two fibers has an update pending, and after the page's earlier state changes one of them still has. React's fiber internals are not modelled, and neither is the double call of updaters in strict development mode, which yields the same state.
- Asynchronous streams, `await` and the event loop become finite sequences of events or chunks, consumed in order.
- A line split across two chunks is lost by the page. The model keeps this behaviour: it splits each chunk on its own.
- Console colours, ANSI escapes and the exact wording of decorative prints are left out. What is printed is recorded as structured entries.
- `json.loads` pretty-printing of the arguments in the frontend-tools client (agui_maf_demo/client_frontend_tools.py:209-214) is left out. The model shows the raw accumulated arguments, as the other client does.
- The plan text prints of the plan-review loop (data_analyst_copilot/copilot.py:230-236) are not modelled, and neither is the call of a custom event handler (data_analyst_copilot/copilot.py:156-157). Of the plan-review loop, only the decision logic and what it delivers are modelled.
- `read_local_preferences` and `get_device_info` return constants read from the local machine. They appear only as registry entries.
- The FastAPI apps, CORS middleware, uvicorn start-up, credentials and the image HTTP route wiring are left out (agui_maf_demo/server_magentic.py:35-44,222-232,321-332). The route's function is modelled by `ServeImage`.
- The server_with_tools `calculate`, `get_current_time` and `web_search` tools are not part of this model.
- ToolCallDisplay.Chat: a `KeyboardInterrupt` (Ctrl-C) is not modelled, because it can arrive at any moment. Its goodbye is the one the exit word prints. End of input is modelled: `input()` raises `EOFError`, and the chat ends with the error line.
- The traceback that the frontend-tools client prints after its error line (agui_maf_demo/client_frontend_tools.py:239-240) is left out.
- RichContent.RichContentRoundTrip: promised only under three conditions.
  - The plain text holds no open marker `[WEATHER_ICON]`, `[LINK]`, `[CALC_RESULT]` or `[IMAGE_ID]`.
  - Each body is one line.
  - Each body holds no close marker of its own kind and no open marker of another kind.
  Otherwise the page's expressions take part of the text for a marker, or a marker nested in a body for a marker of its own, so what it extracts is not the pieces' bodies. `RichContent.NoMarkerWord` shows that bracketed text such as `[1, 2, 3]` or `[PDF]` meets the first condition.
- RichContent.ScanRender, RichContent.WithoutWellFormed, RichContent.RemoveAllMarkers, RichContent.WithoutMarkersPlain and RichContent.ExtractAll: promised under the same conditions.
- ServerMagentic.SearchLinksShown: promised only when the header and the hits' titles and contents hold no open marker, and each URL is one line holding no marker.
- ServerMagentic.WeatherIconShown: promised only when the weather head holds no open marker, and the icon URL is one line holding no marker.
- ServerMagentic.CalcResultShown: promised only when the expression's head holds no open marker, and the value is one line holding no marker. A list value such as `[1, 2, 1, 2]` qualifies.
- ServerMagentic.FramedRoundTrip, ServerMagentic.ReportRoundTrip and ServerMagentic.ImageIdsShown: promised only when the report's own text holds no open marker, and each id is one line holding no marker.
- FinancialTools.KpiIgnoresCase: proved for the model's ASCII case mapping. Under Python's full mapping the source lacks the property: "ﬁt" (with the U+FB01 ligature) finds no KPI, while its upper case "FIT" finds the profit margin.
- FinancialTools.ChartIgnoresCase: proved for the model's ASCII case mapping. Under Python's full mapping the source lacks the property: "growtẖ" (ending in U+1E96) gives the category chart, while its upper case lower-cases to "growth" followed by U+0331 and gives the growth chart.
- Text.LowerChar and Text.UpperChar map ASCII letters only. Python's `lower` and `upper` map every cased letter, and can change a text's length. So on text with non-ASCII letters the model can differ from the source. For example, `calculate_kpi("ROİ")` lower-cases to "roi" followed by U+0307 and finds ROI, while the model keeps "İ" and finds nothing. This affects `FinancialTools.Normalise`, and `ServerMagentic.TitleCase` too: Python's `"éa".title()` is "Éa", because "é" is a cased letter, while the model takes "é" for a word break and gives "éA". The other lower-case tests agree with the source: `FinancialTools.ChartFor`'s keywords, the tools server's cuisine filter and the clients' exit words. The only letters that Python lower-cases to ASCII letters are "İ" (to "i" and U+0307) and the Kelvin sign (to "k"), and none of those tests can be met through them.
- The truthiness of a dict argument chunk is not modelled. Arguments are strings, as the clients' `str(content.arguments)` makes them.

## Findings

| source | as written | input that shows it | evidently intended | confidence | as-written member | corrected member |
|---|---|---|---|---|---|---|
| agui_maf_demo/server_magentic.py:341 | `return {"error": ...}, 404` in a FastAPI handler is a tuple. It is encoded as the JSON array `[{"error": ...}, 404]` with status 200. | requesting `/images/x` when no image `x` is stored | a 404 response with the error object | not executed | ServerMagentic.MissingImageIsSuccess | ServerMagentic.ServeImage |
| agui_maf_demo/server_with_tools.py:59 | The weather summary contains the mojibake `¬∞C` where the degree sign was meant. | any successful weather reply, e.g. a temperature of 20 | `20°C` | not executed | ServerWithTools.TemperatureUnitAsWritten | ServerWithTools.TemperatureUnit |
