# OpenAIChatGPTBlazor in Dafny

A model of the logic behind the pages and the video client of
OpenAIChatGPTBlazor, a Blazor front end for Azure OpenAI:

- the video request record, which keeps width and height in one `"WxH"`
  string and the duration as text, and the null handling of the nullable
  Unix-timestamp converter (`video_models.dfy`);
- the video client: the connection-string parser, the choice between an
  API key and a bearer token, the three request URLs and the rule that a
  non-success answer raises (`video_service.dfy`);
- the video page: submitting a prompt, polling a job at most 120 times,
  downloading the generated videos and aborting (`generate_video.dfy`);
- the chat page: a streamed answer is accumulated and appended, the history
  is saved to and restored from local storage as (role, text) records, and
  the conversation is exported as Markdown (`chat_page.dfy`, with what it
  shares with the older page in `conversation.dfy`);
- the image-edit page: upload checks, the loop that fills a byte buffer from
  a stream, and the edit call (`edit_image.dfy`);
- the older chat page, which starts from one system message and ignores
  every `TaskCanceledException` (`legacy_chat_page.dfy`).

`cancellation.dfy` models the `CancellationTokenSource` each page keeps.
`text.dfy` and `numbers.dfy` model the .NET string and integer routines
the code relies on: `Trim`, `Split`, `StartsWith`, `int.TryParse`,
`int.ToString()` and C#'s truncating division. `wrappers.dfy` holds
`Option` and `Result`.

Each page is a class whose fields are the component's fields. Every method
is proved against a pure function over a snapshot of those fields,
`View() == Spec(old(View()), ...)`, and the lemmas about those functions
state what the page promises. Everything outside the program comes in as
a parameter:

- the provider's answers, as scripts indexed by request number;
- the streamed fragments;
- the reads a file stream serves;
- browser storage;
- `Convert.ToBase64String`.

A moment at which the user presses Abort is a flag in the same script.

## Model

| member | source | states |
|---|---|---|
| VideoModels.ParseSizeOfSides | OpenAIChatGPTBlazor/Services/Models/VideoModels.cs:53-65 | a size text `a + "x" + b` with no other 'x' reads as (a, b) when both sides are integers, and as (720, 1280) otherwise |
| VideoModels.ParseSizeMalformed | OpenAIChatGPTBlazor/Services/Models/VideoModels.cs:55-64 | a size text that does not hold exactly one 'x' reads as the fallback (720, 1280) |
| VideoModels.ParseFormatSize | OpenAIChatGPTBlazor/Services/Models/VideoModels.cs:53-70 | writing any pair of 32-bit integers as `"{w}x{h}"` and parsing it back gives the pair, negative values included |
| VideoModels.DefaultSizeIsFallback | OpenAIChatGPTBlazor/Services/Models/VideoModels.cs:13-64 | the default size "720x1280" is the fallback pair written out, so it reads as (720, 1280) |
| VideoModels.ResolutionOptionsParse | OpenAIChatGPTBlazor/Services/Models/VideoModels.cs:200-210 | every offered resolution is a well-formed size that reads as the sides written in it; the default size is one of them |
| VideoModels.RoundSecondsValue | OpenAIChatGPTBlazor/Services/Models/VideoModels.cs:37-51 | after `NSeconds := n`, reading `NSeconds` gives 4 when n <= 4, 8 when 4 < n <= 8, and 12 otherwise |
| VideoModels.RoundSecondsSupported | OpenAIChatGPTBlazor/Services/Models/VideoModels.cs:40-50 | the duration read back is one of `VideoDurations.Options`. It is the smallest supported duration that is at least n, or 12 when none is |
| VideoModels.VideoGenerationRequest.constructor | OpenAIChatGPTBlazor/Services/Models/VideoModels.cs:7-19 | the defaults: empty prompt, size "720x1280", seconds "4", model "sora-2" |
| VideoModels.VideoGenerationRequest.UpdateSize | OpenAIChatGPTBlazor/Services/Models/VideoModels.cs:67-70 | `Size` becomes exactly `"{w}x{h}"`; `Width` and `Height` then read w and h; no other property changes |
| VideoModels.VideoGenerationRequest.SetWidth | OpenAIChatGPTBlazor/Services/Models/VideoModels.cs:23-27 | `Width` reads back the value set and `Height` keeps its previous reading (the fallback's when the size was malformed); the other properties do not change |
| VideoModels.VideoGenerationRequest.SetHeight | OpenAIChatGPTBlazor/Services/Models/VideoModels.cs:29-34 | `Height` reads back the value set and `Width` keeps its previous reading; the other properties do not change |
| VideoModels.VideoGenerationRequest.SetNSeconds | OpenAIChatGPTBlazor/Services/Models/VideoModels.cs:36-51 | `Seconds` becomes "4", "8" or "12" by the rounding rule, so `NSeconds` is a supported duration; nothing else changes |
| VideoModels.ReadNullableTimestamp | OpenAIChatGPTBlazor/Services/Models/VideoModels.cs:258-291 | a JSON null, and only a null, reads as null. A value comes from the number or the parsed string. A string that does not parse, or any other token, raises "Unable to convert {type} to DateTime?" |
| VideoModels.WriteNullableTimestamp | OpenAIChatGPTBlazor/Services/Models/VideoModels.cs:293-308 | an absent value, and only that, is written as null; a present one as its Unix seconds |
| VideoModels.TimestampRoundTrip | OpenAIChatGPTBlazor/Services/Models/VideoModels.cs:258-308 | reading what the writer wrote gives the value back, null included, when its Unix seconds fit in a `long` and convert back to it |
| VideoService.Segments | OpenAIChatGPTBlazor/Services/VideoGenerationService.cs:65 | the segments of a connection string are non-empty and hold no ';' |
| VideoService.SegmentsOfJoin | OpenAIChatGPTBlazor/Services/VideoGenerationService.cs:65 | non-empty segments without ';' joined by ';' are split back into exactly those segments |
| VideoService.Setting | OpenAIChatGPTBlazor/Services/VideoGenerationService.cs:71-75 | a segment yields a (name, value) setting exactly when it contains '=' |
| VideoService.SettingValueKeepsEquals | OpenAIChatGPTBlazor/Services/VideoGenerationService.cs:71-75 | a segment is split at its first '=' only, so the value keeps any later '='; both halves are trimmed |
| VideoService.LastValueAt | OpenAIChatGPTBlazor/Services/VideoGenerationService.cs:69-86 | when a name occurs several times, the value of its last occurrence is the one kept |
| VideoService.LastValueNone | OpenAIChatGPTBlazor/Services/VideoGenerationService.cs:66-86 | no value is found exactly when no segment names the parameter, compared ignoring case |
| VideoService.Configure | OpenAIChatGPTBlazor/Services/VideoGenerationService.cs:55-97 | null or empty gives (fallback, no key, false). `useApiKey` holds exactly when a non-empty Key was found. With an Endpoint, the base URL is its last value with exactly its trailing run of '/' removed: a prefix that does not end in '/' and is followed only by '/'s; without one, it is the fallback. The key is the last Key value |
| VideoService.ParseConnectionString | OpenAIChatGPTBlazor/Services/VideoGenerationService.cs:55-97 | the `foreach` over the segments, overwriting on each Endpoint or Key, computes exactly `Configure` |
| VideoService.Authenticate | OpenAIChatGPTBlazor/Services/VideoGenerationService.cs:125-158 | the `Api-key` header, with the key, exactly when `useApiKey` holds and the key is non-empty. Otherwise a bearer token from the credential. It fails exactly when that branch's credential fails, with "Could not obtain bearer token for video generation" |
| VideoService.ConfiguredKeyChoosesHeader | OpenAIChatGPTBlazor/Services/VideoGenerationService.cs:89-130 | with the configuration the constructor builds, the API-key header is chosen exactly when `useApiKey` is true |
| VideoService.UrlsIdentifyTheirTarget | OpenAIChatGPTBlazor/Services/VideoGenerationService.cs:167-284 | the three URLs all begin with the base URL and "/openai/v1/video/generations"; distinct job ids give distinct status URLs and distinct generation ids distinct content URLs |
| VideoService.FailureMessage | OpenAIChatGPTBlazor/Services/VideoGenerationService.cs:209-217 | the error message starts with the call's prefix and ": " and contains the status and the response body |
| VideoService.Interpret | OpenAIChatGPTBlazor/Services/VideoGenerationService.cs:187-224 | a transport exception passes through. A non-success status raises an error naming the status and body. A success is decoded, and a null decoding raises |
| VideoService.CreateVideoJob | OpenAIChatGPTBlazor/Services/VideoGenerationService.cs:160-225 | a token failure raises before anything is sent; otherwise one POST of the request body to the jobs URL with the chosen header, interpreted as above |
| VideoService.GetJobStatus | OpenAIChatGPTBlazor/Services/VideoGenerationService.cs:227-274 | a token failure raises; otherwise one GET of the job's status URL, interpreted as above |
| VideoService.GetVideoContent | OpenAIChatGPTBlazor/Services/VideoGenerationService.cs:276-320 | a token failure raises; otherwise one GET of the generation's content URL whose success yields the body's bytes |
| VideoService.NonSuccessAlwaysRaises | OpenAIChatGPTBlazor/Services/VideoGenerationService.cs:207-313 | for each of the three calls, a non-success answer never yields a result: the error raised contains the status and the body |
| GenerateVideo.ProgressBounds | OpenAIChatGPTBlazor/Components/Pages/GenerateVideo.razor.cs:213-224 | for attempts in [0, max) the estimate lies in [0, 100]. "running" lies in [20, 80), "pending" is at most 10 and an unknown status at most 50 |
| GenerateVideo.ProgressMonotone | OpenAIChatGPTBlazor/Components/Pages/GenerateVideo.razor.cs:213-224 | for a fixed status the estimate never decreases as attempts grow (C# truncating division) |
| GenerateVideo.Abort | OpenAIChatGPTBlazor/Components/Pages/GenerateVideo.razor.cs:226-239 | a disposed source only sets "Error cancelling generation: ..."; otherwise the token is cancelled, loading stops, the status is "Cancelled" and the warning says so, while results, bytes and the success message stay |
| GenerateVideo.RetrieveAll | OpenAIChatGPTBlazor/Components/Pages/GenerateVideo.razor.cs:190-206 | when every download succeeds, one byte array per generation is appended, in order, and the success message counts them |
| GenerateVideo.RetrieveFailureKeepsSuccess | OpenAIChatGPTBlazor/Components/Pages/GenerateVideo.razor.cs:190-211 | a failed download sets the "Error retrieving video content: " warning. The results, the success message and the bytes downloaded before it stay. A download that throws leaves the whole page as it was, apart from those bytes and the warning "Error retrieving video content: " followed by the exception's message |
| GenerateVideo.PollBounded | OpenAIChatGPTBlazor/Components/Pages/GenerateVideo.razor.cs:112-188 | at most 120 status requests are made. A timeout happens only after all 120, and only then is the timeout warning the outcome. A final end has a final status |
| GenerateVideo.PollUsesOnlyItsRequests | OpenAIChatGPTBlazor/Components/Pages/GenerateVideo.razor.cs:117-182 | polling depends only on the answers to the requests it makes: scripts agreeing on those give the same outcome |
| GenerateVideo.PollStopsAtFinal | OpenAIChatGPTBlazor/Components/Pages/GenerateVideo.razor.cs:140-166 | an answer "succeeded", "failed" or "cancelled" ends polling with no further request |
| GenerateVideo.PollStopsAtError | OpenAIChatGPTBlazor/Components/Pages/GenerateVideo.razor.cs:177-181 | an exception from a status request ends polling with "Error checking job status: {message}" and no further request |
| GenerateVideo.PollTimesOut | OpenAIChatGPTBlazor/Components/Pages/GenerateVideo.razor.cs:184-187 | when every answer has a non-final status and nobody aborts, polling makes exactly the remaining requests and ends with the timeout warning |
| GenerateVideo.PollCancelledFirst | OpenAIChatGPTBlazor/Components/Pages/GenerateVideo.razor.cs:117-120 | a token already cancelled at the loop head means no request and no change |
| GenerateVideo.SucceededAppendsGenerations | OpenAIChatGPTBlazor/Components/Pages/GenerateVideo.razor.cs:140-150 | a "succeeded" answer with k > 0 generations appends all k to the results, in order, whatever the downloads bring |
| GenerateVideo.RequestBodyFaithful | OpenAIChatGPTBlazor/Components/Pages/GenerateVideo.razor.cs:74-81 | the job request carries the page's width and height exactly and a supported duration at least the page's, or 12 |
| GenerateVideo.BlankPromptMakesNoCall | OpenAIChatGPTBlazor/Components/Pages/GenerateVideo.razor.cs:51-55 | a blank prompt only sets "Please enter a prompt for video generation.". No service call is made and no answer matters |
| GenerateVideo.SubmitEnds | OpenAIChatGPTBlazor/Components/Pages/GenerateVideo.razor.cs:49-110 | whatever the services do, a submitted prompt ends with `loading` false and at most 120 status requests |
| GenerateVideo.GenerateVideoPage.constructor | OpenAIChatGPTBlazor/Components/Pages/GenerateVideo.razor.cs:11-35 | the field initialisers: 480 by 480, 5 seconds, status "Unknown", no source, nothing loaded |
| GenerateVideo.GenerateVideoPage.AbortGeneration | OpenAIChatGPTBlazor/Components/Pages/GenerateVideo.razor.cs:226-239 | the handler has exactly the effect `Abort` describes |
| GenerateVideo.GenerateVideoPage.RetrieveVideoContent | OpenAIChatGPTBlazor/Components/Pages/GenerateVideo.razor.cs:190-211 | the download loop ends in the state `RetrieveFrom` describes |
| GenerateVideo.GenerateVideoPage.PollOnceStep | OpenAIChatGPTBlazor/Components/Pages/GenerateVideo.razor.cs:122-181 | one pass of the loop body gives the page `PollOnce` describes, and returns exactly when `PollOnce` stops |
| GenerateVideo.GenerateVideoPage.PollThrew | OpenAIChatGPTBlazor/Components/Pages/GenerateVideo.razor.cs:172-181 | a status request that throws stops polling with the error warning |
| GenerateVideo.GenerateVideoPage.PollAborted | OpenAIChatGPTBlazor/Components/Pages/GenerateVideo.razor.cs:172-181 | an Abort press that makes the request throw cancels and stops polling silently |
| GenerateVideo.GenerateVideoPage.ConcludeStep | OpenAIChatGPTBlazor/Components/Pages/GenerateVideo.razor.cs:140-166 | a final status gives the page `Conclude` describes |
| GenerateVideo.GenerateVideoPage.PollAnswered | OpenAIChatGPTBlazor/Components/Pages/GenerateVideo.razor.cs:124-170 | an answered request updates status and progress, concludes on a final status, and otherwise goes on unless an Abort cancelled the wait |
| GenerateVideo.GenerateVideoPage.PollTurn | OpenAIChatGPTBlazor/Components/Pages/GenerateVideo.razor.cs:122-170 | one counted request: either polling ends in `PollFrom`'s state, or what remains of it leads to that same state |
| GenerateVideo.GenerateVideoPage.PollJobStatus | OpenAIChatGPTBlazor/Components/Pages/GenerateVideo.razor.cs:112-188 | the loop ends in `PollFrom`'s state and makes exactly `PollFrom`'s number of status requests |
| GenerateVideo.GenerateVideoPage.BuildRequest | OpenAIChatGPTBlazor/Components/Pages/GenerateVideo.razor.cs:74-81 | the request built through the setters is `RequestBody` of the page |
| GenerateVideo.GenerateVideoPage.StartJob | OpenAIChatGPTBlazor/Components/Pages/GenerateVideo.razor.cs:59-71 | the page becomes `Started`: loading, no warning, success message, generations, videos or job id, status "Starting...", progress 0, and a fresh source that is not cancelled; the previous source, if any, is disposed; prompt, size and duration stay |
| GenerateVideo.GenerateVideoPage.ClearMessages | OpenAIChatGPTBlazor/Components/Pages/GenerateVideo.razor.cs:59-61 | the page is loading and both messages are empty; nothing else changes |
| GenerateVideo.GenerateVideoPage.ClearJob | OpenAIChatGPTBlazor/Components/Pages/GenerateVideo.razor.cs:62-66 | no generations, no videos, no job id, status "Starting..." and progress 0; nothing else changes |
| GenerateVideo.GenerateVideoPage.ReplaceSource | OpenAIChatGPTBlazor/Components/Pages/GenerateVideo.razor.cs:70-71 | the old source, if any, is disposed and a fresh one that is not cancelled takes its place; nothing else changes |
| GenerateVideo.GenerateVideoPage.CreateJob | OpenAIChatGPTBlazor/Components/Pages/GenerateVideo.razor.cs:84-104 | the creation's outcome, and the polling that follows a created job, give `AfterCreate`'s state and request count |
| GenerateVideo.GenerateVideoPage.FollowJob | OpenAIChatGPTBlazor/Components/Pages/GenerateVideo.razor.cs:88-94 | a created job's id and status are taken over and polling runs, after the Abort's effect when the user aborted meanwhile, as `AfterCreate` describes |
| GenerateVideo.GenerateVideoPage.RunSubmit | OpenAIChatGPTBlazor/Components/Pages/GenerateVideo.razor.cs:49-110 | the handler ends in `Submit`'s state with `Submit`'s request count; a submitted prompt leaves `loading` false and a fresh source, and disposes the previous source if there was one; a blank prompt keeps the source |
| GenerateVideo.GenerateVideoPage.Dispose | OpenAIChatGPTBlazor/Components/Pages/GenerateVideo.razor.cs:267-270 | the source, if any, is disposed and nothing else changes |
| Cancellation.CancelField | OpenAIChatGPTBlazor/Components/Pages/Index.razor.cs:152-168 | the guarded `Cancel()`. Without a source nothing happens. A disposed source throws `ObjectDisposedException`, whose message is returned. Any other source ends up cancelled |
| Conversation.StreamedIsConcatenation | OpenAIChatGPTBlazor/Components/Pages/Index.razor.cs:115-127 | the streamed text is the in-order concatenation of every fragment of every update |
| Conversation.ExportLines | OpenAIChatGPTBlazor/Components/Pages/Index.razor.cs:183-189 | the export has 1 + 2n lines: the header, then for message i the line "## {role}" and its content, in order |
| Conversation.ExportStep | OpenAIChatGPTBlazor/Components/Pages/Index.razor.cs:185-189 | writing one more message appends exactly its role line and content line, each followed by a newline |
| Conversation.ExportReadsBack | OpenAIChatGPTBlazor/Components/Pages/Index.razor.cs:183-189 | when no role or content holds a newline, splitting the export at newlines gives back exactly its lines, plus an empty last piece |
| Conversation.RoleName | OpenAIChatGPTBlazor/Components/Pages/Index.razor.cs:206-215 | the name of each kind is "system", "user" or "assistant", and "unknown" for any other kind; no two kinds share a name |
| ChatPage.Content | OpenAIChatGPTBlazor/Components/Pages/Index.razor.cs:201-204 | the text of the first content part when that part is text, otherwise "[No Text]" |
| ChatPage.Save | OpenAIChatGPTBlazor/Components/Pages/Index.razor.cs:261-275 | a system, user or assistant message becomes the record of its role name and its content; any other kind becomes the empty record |
| ChatPage.Load | OpenAIChatGPTBlazor/Components/Pages/Index.razor.cs:316-321 | a record becomes one text message holding the record's text; the roles "system", "user" and "assistant" come back as their own kind, and any other role as a user message |
| ChatPage.RoleMappingRoundTrip | OpenAIChatGPTBlazor/Components/Pages/Index.razor.cs:256-327 | saving then loading keeps the kind and text of system, user and assistant messages. A message without text is saved as "[No Text]". A record comes back unchanged exactly when its role is "system", "user" or "assistant". Any other role loads as a user message |
| ChatPage.HistoryRoundTrip | OpenAIChatGPTBlazor/Components/Pages/Index.razor.cs:256-327 | a saved history loads back with the same length and order, each message with its kind and first-part text |
| ChatPage.FindOption | OpenAIChatGPTBlazor/Components/Pages/Index.razor.cs:106-108 | no option is found exactly when no key matches; otherwise the first option whose key "{DeploymentName}-{Hint}" matches |
| ChatPage.SearchAsksFirst | OpenAIChatGPTBlazor/Components/Pages/Index.razor.cs:99-103 | every search first appends a user message with `_next`, empties `_next`, and ends with `loading` false |
| ChatPage.SearchCompletes | OpenAIChatGPTBlazor/Components/Pages/Index.razor.cs:113-135 | a completed stream adds exactly one assistant message whose text is the in-order concatenation of all fragments. The history is saved, and `_stream` and the warning are empty |
| ChatPage.SearchFails | OpenAIChatGPTBlazor/Components/Pages/Index.razor.cs:137-149 | a broken stream adds no assistant message and saves nothing. A cancellation after Abort leaves the warning as it was. Any other failure shows the exception's message |
| ChatPage.SearchWithoutModel | OpenAIChatGPTBlazor/Components/Pages/Index.razor.cs:106-112 | an unknown model key fails with "Selected model is not found." after the user turn was appended |
| ChatPage.StaleStreamLeaks | OpenAIChatGPTBlazor/Components/Pages/Index.razor.cs:120-145 | as written, a stream broken after "Hel" followed by a completed "Hi" appends the assistant message "HelHi" |
| ChatPage.SearchAsWritten | OpenAIChatGPTBlazor/Components/Pages/Index.razor.cs:95-150 | `RunSearch` as written: the user turn comes first, `_next` is emptied and `loading` ends false. An unknown model shows "Selected model is not found.". A completed stream appends one assistant message holding the old `_stream` followed by the new fragments, saves the history and clears `_stream`. A broken stream saves nothing, keeps the old and new fragments in `_stream`, and is quiet only for a cancellation after Abort |
| ChatPage.Reset | OpenAIChatGPTBlazor/Components/Pages/Index.razor.cs:244-254 | the chat holds exactly one system message with the prompt, and the history is saved as that one record |
| ChatPage.InitiateKeepsOrResets | OpenAIChatGPTBlazor/Components/Pages/Index.razor.cs:283-308 | a non-empty stored history is taken over as it loads. An absent, empty or unreadable one resets the chat to the one system message |
| ChatPage.ReloadRestores | OpenAIChatGPTBlazor/Components/Pages/Index.razor.cs:51-64 | a page opened on storage that another page saved shows that page's model, autoscroll setting and conversation |
| ChatPage.Delete | OpenAIChatGPTBlazor/Components/Pages/Index.razor.cs:170-173 | the chosen message is removed and the others keep their order; the stored history does not change |
| ChatPage.ChatPage.constructor | OpenAIChatGPTBlazor/Components/Pages/Index.razor.cs:22-34 | the field initialisers: no messages, loading, autoscroll on, no source |
| ChatPage.ChatPage.OnInitialized | OpenAIChatGPTBlazor/Components/Pages/Index.razor.cs:45-49 | the first configured model's key is selected when there is one |
| ChatPage.ChatPage.StoreChatHistory | OpenAIChatGPTBlazor/Components/Pages/Index.razor.cs:256-281 | the loop stores exactly the records of all messages, in order |
| ChatPage.ChatPage.JsonToChat | OpenAIChatGPTBlazor/Components/Pages/Index.razor.cs:310-327 | the loop yields exactly the loaded message of each record, in order |
| ChatPage.ChatPage.ReadHistory | OpenAIChatGPTBlazor/Components/Pages/Index.razor.cs:285-295 | an absent history reads as "[]" and so as no message, an unreadable one as no message, and records load one by one, in order |
| ChatPage.ChatPage.ResetChat | OpenAIChatGPTBlazor/Components/Pages/Index.razor.cs:244-254 | the handler has exactly the effect `Reset` describes |
| ChatPage.ChatPage.InitiateChat | OpenAIChatGPTBlazor/Components/Pages/Index.razor.cs:283-308 | the handler has exactly the effect `Initiate` describes |
| ChatPage.ChatPage.FirstRender | OpenAIChatGPTBlazor/Components/Pages/Index.razor.cs:51-69 | the stored model and autoscroll settings win over the current ones, the chat is initiated, and loading ends |
| ChatPage.ChatPage.OnSettingsChanged | OpenAIChatGPTBlazor/Components/Pages/Index.razor.cs:223-227 | both settings are written to storage |
| ChatPage.ChatPage.AbortSearch | OpenAIChatGPTBlazor/Components/Pages/Index.razor.cs:152-168 | cancels only a present source; what `Cancel()` throws becomes the warning; nothing else changes |
| ChatPage.ChatPage.ReceiveStream | OpenAIChatGPTBlazor/Components/Pages/Index.razor.cs:115-127 | the nested loops append every fragment to `_stream`, in order |
| ChatPage.ChatPage.ReceiveUpdate | OpenAIChatGPTBlazor/Components/Pages/Index.razor.cs:118-127 | the text of every part of one update is appended to `_stream`, in order; nothing else changes |
| ChatPage.ChatPage.Finish | OpenAIChatGPTBlazor/Components/Pages/Index.razor.cs:129-149 | completion appends the assistant message, saves and clears. A cancellation with the token cancelled is quiet. Another failure shows its message. `loading` ends false |
| ChatPage.ChatPage.RunSearch | OpenAIChatGPTBlazor/Components/Pages/Index.razor.cs:95-150 | the handler, with `_stream` emptied at its start, ends in the state `FreshSearch` describes |
| ChatPage.ChatPage.BeginSearch | OpenAIChatGPTBlazor/Components/Pages/Index.razor.cs:99-105 | the user turn with `_next` is appended, `_next` is emptied, the page is loading and a new source that is not cancelled is created; `_stream` is emptied too, as the corrected handler does |
| ChatPage.ChatPage.DeleteMessage | OpenAIChatGPTBlazor/Components/Pages/Index.razor.cs:170-173 | the handler has exactly the effect `Delete` describes |
| ChatPage.ChatPage.CopyMessageToNext | OpenAIChatGPTBlazor/Components/Pages/Index.razor.cs:175-179 | `_next` becomes the message's content text; nothing else changes |
| ChatPage.ChatPage.DownloadConversation | OpenAIChatGPTBlazor/Components/Pages/Index.razor.cs:181-199 | the `StringBuilder` loop produces exactly the Markdown export of the messages |
| LegacyChatPage.SearchAsksFirst | OpenAIChatGPTBlazor/Pages/Index.razor.cs:67-71 | every search first appends a user message with `_next`, empties `_next`, and ends with `loading` false |
| LegacyChatPage.SearchCompletes | OpenAIChatGPTBlazor/Pages/Index.razor.cs:72-86 | a completed stream adds exactly one assistant message whose text is the in-order concatenation of all fragments, and clears `_stream` and the warning |
| LegacyChatPage.SearchFails | OpenAIChatGPTBlazor/Pages/Index.razor.cs:88-100 | a broken stream adds no assistant message. Every `TaskCanceledException` leaves the warning alone, whatever the token. Any other exception shows its message |
| LegacyChatPage.StaleStreamLeaks | OpenAIChatGPTBlazor/Pages/Index.razor.cs:77-91 | as written, an aborted stream after "Hel" followed by a completed "Hi" appends the assistant message "HelHi" |
| LegacyChatPage.SearchAsWritten | OpenAIChatGPTBlazor/Pages/Index.razor.cs:63-100 | `RunSearch` as written: the user turn comes first, `_next` is emptied and `loading` ends false. A completed stream appends one assistant message holding the old `_stream` followed by the new fragments and clears `_stream`. A broken stream keeps the old and new fragments in `_stream`; every `TaskCanceledException` leaves the warning alone, and any other exception shows its message |
| LegacyChatPage.Delete | OpenAIChatGPTBlazor/Pages/Index.razor.cs:121-124 | the chosen message is removed and the others keep their order |
| LegacyChatPage.LegacyChatPage.constructor | OpenAIChatGPTBlazor/Pages/Index.razor.cs:11-26 | the chat starts with exactly one system message holding the prompt for today's date |
| LegacyChatPage.LegacyChatPage.FirstRender | OpenAIChatGPTBlazor/Pages/Index.razor.cs:35-43 | loading ends and nothing else changes |
| LegacyChatPage.LegacyChatPage.AbortSearch | OpenAIChatGPTBlazor/Pages/Index.razor.cs:103-119 | cancels only a present source; what `Cancel()` throws becomes the warning; nothing else changes |
| LegacyChatPage.LegacyChatPage.ReceiveStream | OpenAIChatGPTBlazor/Pages/Index.razor.cs:73-81 | the nested loops append every fragment to `_stream`, in order |
| LegacyChatPage.LegacyChatPage.ReceiveUpdate | OpenAIChatGPTBlazor/Pages/Index.razor.cs:75-80 | the content of every message update of one choice is appended to `_stream`, in order; nothing else changes |
| LegacyChatPage.LegacyChatPage.RunSearch | OpenAIChatGPTBlazor/Pages/Index.razor.cs:63-101 | the handler, with `_stream` emptied at its start, ends in the state `FreshSearch` describes |
| LegacyChatPage.LegacyChatPage.BeginSearch | OpenAIChatGPTBlazor/Pages/Index.razor.cs:67-71 | the user turn with `_next` is appended, `_next` is emptied, the page is loading and a new source that is not cancelled is created; `_stream` is emptied too, as the corrected handler does |
| LegacyChatPage.LegacyChatPage.DeleteMessage | OpenAIChatGPTBlazor/Pages/Index.razor.cs:121-124 | the handler has exactly the effect `Delete` describes |
| LegacyChatPage.LegacyChatPage.CopyMessageToNext | OpenAIChatGPTBlazor/Pages/Index.razor.cs:126-130 | `_next` becomes the message's content; nothing else changes |
| LegacyChatPage.LegacyChatPage.DownloadConversation | OpenAIChatGPTBlazor/Pages/Index.razor.cs:132-146 | the `StringBuilder` loop produces exactly the Markdown export of the messages |
| EditImage.FillFrom | OpenAIChatGPTBlazor/Components/Pages/EditImage.razor.cs:69-81 | the read loop only adds bytes after those already read and never reads more than the buffer holds |
| EditImage.FillStopsAtEmptyRead | OpenAIChatGPTBlazor/Components/Pages/EditImage.razor.cs:71-81 | a loop that meets no exception stops short of a full buffer only after a read that returned 0 |
| EditImage.FillCompletes | OpenAIChatGPTBlazor/Components/Pages/EditImage.razor.cs:71-81 | reads that always bring something fill the whole buffer without an exception |
| EditImage.Buffer | OpenAIChatGPTBlazor/Components/Pages/EditImage.razor.cs:69-81 | the buffer has the file's size, starts with the bytes read, and holds zeros after them |
| EditImage.SelectOutcomes | OpenAIChatGPTBlazor/Components/Pages/EditImage.razor.cs:41-100 | over 50 MiB is rejected with the size message, checked first. A non-"image/" type is rejected with the PNG/JPG message. The file is kept exactly when it passes both and reads without an exception. A kept file shows its bytes and clears the previous edit result |
| EditImage.EditOutcomes | OpenAIChatGPTBlazor/Components/Pages/EditImage.razor.cs:114-190 | no file or a blank prompt changes nothing. Otherwise `loading` ends false. A cancellation after Abort, in the read or in the edit call, leaves no warning. Without Abort a cancellation shows the `TaskCanceledException` message, and any other exception from either shows its own message and keeps the edit result. A returned image becomes `editedData` and its PNG data URL `editedUrl`, with no warning. In every other case `editedData` and `editedUrl` stay as they were |
| EditImage.EditImagePage.constructor | OpenAIChatGPTBlazor/Components/Pages/EditImage.razor.cs:18-28 | the field initialisers: nothing uploaded, nothing loading, no source |
| EditImage.EditImagePage.ReadInto | OpenAIChatGPTBlazor/Components/Pages/EditImage.razor.cs:68-81 | the `while` loop over the array fills `buffer[..total]` with the bytes `ReadAll` describes and leaves the rest of the array as it was; 0 <= total <= length |
| EditImage.EditImagePage.CopyChunk | OpenAIChatGPTBlazor/Components/Pages/EditImage.razor.cs:73-77 | one `ReadAsync` stores the bytes it read at offset `totalRead`: the buffer up to the new end is the old prefix followed by those bytes, and everything after is untouched |
| EditImage.EditImagePage.ReadFile | OpenAIChatGPTBlazor/Components/Pages/EditImage.razor.cs:129-145 | a new zero-filled buffer of the file's size read to the end gives `Buffer(ReadAll(...))`, or the read's exception |
| EditImage.EditImagePage.OnFileSelected | OpenAIChatGPTBlazor/Components/Pages/EditImage.razor.cs:41-100 | the handler has exactly the effect `Select` describes |
| EditImage.EditImagePage.AbortEdit | OpenAIChatGPTBlazor/Components/Pages/EditImage.razor.cs:192-208 | cancels only a present source; what `Cancel()` throws becomes the warning; nothing else changes |
| EditImage.EditImagePage.StartEdit | OpenAIChatGPTBlazor/Components/Pages/EditImage.razor.cs:121-126 | loading starts and the warning clears. The previous source is disposed before a fresh one is installed |
| EditImage.EditImagePage.RunEdit | OpenAIChatGPTBlazor/Components/Pages/EditImage.razor.cs:114-190 | the handler ends in the state `Edit` describes and, when it runs at all, has disposed the previous source |
| EditImage.EditImagePage.Fail | OpenAIChatGPTBlazor/Components/Pages/EditImage.razor.cs:175-185 | the two exception handlers: a cancellation with the token cancelled is quiet, any other exception shows its message, and `loading` ends false |

## Left out

- HTTP transport, response bodies and JSON (de)serialisation are left out. Answers arrive already decoded, as parameters. The JSON text of the stored chat history is represented by its records; text that does not deserialize is the `Unreadable` history.
- `DefaultAzureCredential` is the outcome parameter `credential`. The reflection in `ExtractBaseUrlFromClient` is the `fallback` parameter of `VideoService.Configure`.
- `DateTime` parsing and Unix-time conversion are left out. `VideoModels.ReadNullableTimestamp` takes them as the parameters `fromUnix`, `tryParse` and `toUnix`, so only the null and error branches are the converter's own.
- The non-nullable `UnixTimestampConverter` and the timestamp fields of the responses are left out; they hold no logic beyond the nullable converter's.
- Timing is left out: `Task.Delay(5000)` and the interleaving of `async` handlers. An Abort press is a flag at the points where it can take effect: during a request, during the wait, during a creation or download, during a stream.
- `StateHasChanged`, focus, scrolling, Prism highlighting, the JS module imports and `DisposeAsync` are left out.
- `DownloadVideo`, `DownloadVideoFromBytes` and `DownloadEditedImage` are left out. The file download of the Markdown export is too; the export text is modelled.
- `Convert.ToBase64String` is an uninterpreted parameter.
- The key handlers (`OnPromptKeydown`, `OnNextKeydown`) and the click wrappers are left out; they only call the handlers modelled. `ToggleTopRow` is left out as pure UI.
- The image size chosen in the edit options component is not part of this model; it only travels to the edit call.
- The legacy page's `OnInitializedAsync` is left out: the feature flag and the split list of selectable models. The selected model is a constructor parameter of `LegacyChatPage.LegacyChatPage`.
- Both `GenerateImage` pages and `Program.cs` are not part of this model. The one fact used from `Program.cs` is the option key `"{DeploymentName}-{Hint}"` (`ChatPage.Key`).
- ChatPage.ChatPage.DeleteMessage: the message is chosen by its position, whereas `List.Remove` removes the first element equal to its argument. The two agree for the message a user clicks. With several equal messages the source would remove the earliest one.
- LegacyChatPage.LegacyChatPage.DeleteMessage: chosen by position, for the same reason.
- Text.EqualsIgnoreCase: the `OrdinalIgnoreCase` comparison of the connection-string names folds ASCII letters only, whereas .NET also folds other letters. "Endpoint" and "Key" are ASCII.
- Numbers.ParseInt32: `int.TryParse` is modelled with the invariant culture's signs and white space; trailing NUL characters, which .NET also accepts, are not modelled.
- `Environment.NewLine` is taken as "\n", its value on Linux.
- The `StartsWith("image/")` test is culture-sensitive in .NET; it is modelled as an ordinal prefix test.
- `e.File` throwing, and a stream opened for a file larger than allowed, are left out: the size check comes first, so the page never opens such a stream.
- Failures of browser-storage writes are left out: the model's storage writes always succeed.
- Null record fields in the stored history are left out. In the legacy page a null message content reads as "".
- Every `TaskCanceledException` is shown with the default text "A task was canceled."; one raised by `HttpClient` for a timeout or an internal cancellation carries its own text, which the model does not distinguish.
- In the chat page, the cancellation token is never handed to `CompleteChatStreamingAsync`. An Abort press there only cancels the source; the stream itself runs to its end or its own failure. The model follows the code.
- GenerateVideo.ProgressBounds: states "running" within [20, 80). This is tighter than the 90 cap in the code, because 20 + attempts * 60 / 120 stays below 80 while attempts < 120.

## Findings

| source | as written | input that shows it | evidently intended | confidence | as-written member | corrected member |
|---|---|---|---|---|---|---|
| OpenAIChatGPTBlazor/Components/Pages/Index.razor.cs:129-145 | `_stream` is emptied only after a completed answer. The two exception handlers keep the partial text, and the next search appends to it | a completion that delivers "Hel" and then throws, followed by a search whose completion delivers "Hi": the new assistant message reads "HelHi" | each answer holds only the fragments of its own stream | not executed | ChatPage.StaleStreamLeaks | ChatPage.ChatPage.RunSearch |
| OpenAIChatGPTBlazor/Pages/Index.razor.cs:83-95 | `_stream` is emptied only after a completed answer. The swallowed `TaskCanceledException` and the error handler keep the partial text, and the next search appends to it | a completion aborted after "Hel", followed by a search whose completion delivers "Hi": the new assistant message reads "HelHi" | each answer holds only the fragments of its own stream | not executed | LegacyChatPage.StaleStreamLeaks | LegacyChatPage.LegacyChatPage.RunSearch |

In both pages the as-written behaviour is the function `Search`. The
corrected behaviour is `FreshSearch`, which empties `_stream` when a search
starts. The page classes implement `FreshSearch`. `ChatPage.SearchCompletes`
and `LegacyChatPage.SearchCompletes` prove, about `FreshSearch`, that a
completed answer is exactly the concatenation of its own fragments.
