# Voicemail triage: a verified model

The system records a patient's voicemail in the browser, uploads it, stores
a PROCESSING row, and runs a durable workflow. The workflow transcribes and
analyses the audio, picks a Calendly booking URL and marks the row COMPLETED.
Two clients show the stored rows:
- a recorder page that polls while anything is PROCESSING;
- a staff dashboard that sorts the rows, auto-selects one and renders a detail panel.

The detail panel highlights the extracted values in the transcript and embeds
the booking widget.

The model is one Dafny module per source file, plus shared definitions:

| module | file | models |
|---|---|---|
| `Wrappers` | wrappers.dfy | `Option`, `Result` |
| `Text` | text.dfy | ASCII `lower()`, substring `in`, `join` |
| `Records` | records.dfy | the stored row, the analysis dictionary, JavaScript and Python truthiness, column-by-column `setattr` |
| `Sorting` | sorting.dfy | a stable sort by an integer key, shared by Python's `sorted` and JavaScript's `Array.prototype.sort` |
| `Storage` | storage.dfy | `Database` in backend/app/db/storage.py, as a class over an ordered id list and a table |
| `Calendly` | calendly.dfy | `CalendlyService` in backend/app/services/calendly.py |
| `Routes` | routes.dfy | `create_voicemail` and `list_voicemails` in backend/app/api/routes.py |
| `Workflow` | workflow.dfy | the booking-URL choice, the completion update and the result of `process_voicemail` in backend/app/inngest_client.py |
| `App` | app.dfy | frontend/src/App.jsx: the poll rule, the upload form, the card colour, and the recording controller as a class |
| `Dashboard` | dashboard.dfy | frontend/src/components/Dashboard.jsx: sort orders, badges, summary label, selection state |
| `Detail` | detail.dfy | frontend/src/components/VoicemailDetail.jsx: fallbacks, missing-information line, booking widget, transcript highlighting |
| `Lifecycle` | lifecycle.dfy | properties that span the layers |

Stateful code is modelled as classes whose methods change fields:
- the database;
- the recorder's refs and state;
- the react-query cache entry;
- the dashboard's `useState` hooks.

Everything else is functions on values.

Where this model and the system's written description disagree, the model
follows the code:
- The dashboard auto-selects `voicemails[0]` of the list as fetched (which
  the backend has sorted by urgency), not the first row of its own sorted view.
- The selection is never re-synced with later fetches, so it keeps the snapshot taken at selection time.
- The dashboard polls every 5000 ms unconditionally.
- The backend rank gives NEED_VALIDATION (not in its map) the same rank as a null urgency (3).
- `treatment_mode` defaults to "Telehealth" only when the key is absent. A
  present null or empty value reaches `get_base_url` falsy, which then gives
  the default path.

`startRecording` obtains the microphone stream before constructing the
recorder. If the constructor or `start()` throws, the stream is never
stopped. `App.CaptureController.StartRecording` models this as written.

All recorders share one chunk buffer. A recording started again before the
previous recorder has delivered its last chunk and fired `onstop` receives
that chunk in its own buffer. The old `onstop` uploads it, and the new
recording's stop uploads it a second time (`App.LateChunkUploadedTwice`).
The old `onstop` uploads only the buffer as it is then, so the chunks it
recorded before the restart are not uploaded at all.

## Model

| member | source | states |
|---|---|---|
| Records.Set | backend/app/db/storage.py:38-39 | one `setattr` gives the named column the new value and keeps the id |
| Records.SetKeepsOtherColumns | backend/app/db/storage.py:38-39 | one `setattr` leaves every other column as it was |
| Records.ApplyAllKeyByKey | backend/app/db/storage.py:38-39 | applying an updates dictionary key by key leaves each column holding the last value written to it, and a column no key names unchanged |
| Sorting.SortByCorrect | backend/app/api/routes.py:89 | the stable sort is a permutation, is ordered by the key, and keeps the original relative order of elements with equal keys |
| Sorting.SortByConstantKey | frontend/src/components/Dashboard.jsx:55 | a comparator that always answers 0 leaves the list in its original order |
| Storage.Database.constructor | backend/app/db/storage.py:5-7 | a fresh database holds no rows |
| Storage.Database.Rows | backend/app/db/storage.py:46-51 | the rows in insertion order (the order assumed for the unordered query), one per stored id, each carrying its own id |
| Storage.Database.Find | backend/app/db/storage.py:29 | a row is found exactly when its id is stored, and the row found carries that id |
| Storage.Database.SaveVoicemail | backend/app/db/storage.py:12-22 | a new id is inserted and the saved row returned; an existing id fails with an integrity error and changes nothing |
| Storage.Database.GetVoicemail | backend/app/db/storage.py:26-31 | returns a row exactly when some stored row has that id, and then that row; changes nothing |
| Storage.Database.UpdateVoicemail | backend/app/db/storage.py:33-44 | an unknown id returns None and changes nothing; a known id gets the key-by-key update (each column ends at the last value written to it, or keeps its old value), is returned, and no other row changes |
| Storage.Database.ListVoicemails | backend/app/db/storage.py:46-51 | every stored row exactly once, each equal to the stored row for its id |
| Calendly.CalendlyService.DefaultPath | backend/app/services/calendly.py:5-9 | the telehealth path when it is non-empty, else the in-person path |
| Calendly.CalendlyService.GetBaseUrl | backend/app/services/calendly.py:34-43 | the base URL is always one of the two configured paths, and the default path when no mode is given |
| Calendly.BaseUrlPresentWhenConfigured | backend/app/services/calendly.py:34-43 | when either path is configured, every mode gets a non-empty URL |
| Calendly.BaseUrlHonoursMode | backend/app/services/calendly.py:38-42 | a clinic/person mode gets the in-person path and a telehealth/video mode gets the telehealth path, when that path is set |
| Calendly.BaseUrlDefault | backend/app/services/calendly.py:38-43 | no mode, an unrecognised mode, or a recognised mode whose path is unset gives the default path |
| Calendly.BaseUrlIgnoresCase | backend/app/services/calendly.py:39-41 | the mode is matched case-insensitively: lower-casing it first changes nothing |
| Calendly.CalendlyService.CreateEventLink | backend/app/services/calendly.py:11-32 | the event link picks its page as `get_base_url` does: it is absent exactly when that page is empty, and otherwise is that page followed by `?` and the encoded name and email |
| Routes.Rank | backend/app/api/routes.py:87-89 | RED ranks 0, YELLOW 1, GREEN 2, and NEED_VALIDATION, any other value and None all rank 3 |
| Routes.ListResponse | backend/app/api/routes.py:83-90 | the listing is a permutation of the stored rows, ordered by rank and stable within each rank; no row before a RED row has another urgency, only RED rows precede a YELLOW row, and only RED, YELLOW or GREEN rows precede a GREEN row |
| Routes.ListResponseExample | backend/app/api/routes.py:86-89 | red first: a YELLOW, a RED and a GREEN row are listed RED, YELLOW, GREEN |
| Routes.InitialRecord | backend/app/api/routes.py:44-52 | the initial row is PROCESSING with file path `<id>.wav`, the creation time, and no transcript, urgency, category or analysis |
| Routes.CreateVoicemail | backend/app/api/routes.py:22-62 | an upload failure or a duplicate id gives 500, sends no event and stores nothing; otherwise the initial row is stored, a `voicemail/received` event carries the id and file path, and the response is `queued`; statuses only advance |
| Workflow.TreatmentMode | backend/app/inngest_client.py:66-67 | an absent `treatment_mode` gives "Telehealth", a string is passed on as it is, a non-string gives no mode exactly when it is falsy, and a truthy non-string makes `lower()` raise |
| Workflow.CompletionUpdates | backend/app/inngest_client.py:66-81 | the updates fail exactly when the treatment mode does; they name each column at most once and never the file path or the creation time |
| Workflow.CompletionFailsOnlyOnBadMode | backend/app/inngest_client.py:66-67 | the completion raises exactly when `treatment_mode` is present, truthy and not a string |
| Workflow.CompletedRow | backend/app/inngest_client.py:70-81 | the five updates applied key by key give the row with transcript, COMPLETED, urgency, category and the analysis carrying the booking URL |
| Workflow.CompletionEffect | backend/app/inngest_client.py:66-81 | the completed row keeps id, file path and creation time, takes urgency and category with their defaults, and stores every analysis key unchanged except `booking_url` |
| Workflow.BookingUrlDefaultsToTelehealth | backend/app/inngest_client.py:66-67 | an analysis without `treatment_mode` books through the default (telehealth-first) path |
| Workflow.BookingUrlFalsyModeDefaults | backend/app/inngest_client.py:66-67 | a present but falsy `treatment_mode` (null, empty, zero) does not fail and books through the default path |
| Workflow.Snippet | backend/app/inngest_client.py:86 | the snippet is the first 50 characters of the transcript, or all of it when shorter |
| Workflow.ProcessVoicemail | backend/app/inngest_client.py:38-86 | a failing completion changes nothing; otherwise only the event's row is updated, to the completed row, and the result carries success, the snippet and the analysis; when every stored status is PROCESSING or COMPLETED beforehand (as in every state reached from an empty database), statuses only advance |
| App.AnyProcessing | frontend/src/App.jsx:23 | true exactly when some row is PROCESSING |
| App.RefetchInterval | frontend/src/App.jsx:21-25 | 2000 ms exactly when loaded data holds a PROCESSING row, otherwise no polling |
| App.PollingFollowsStoredRows | frontend/src/App.jsx:21-25 | polling the sorted listing goes on exactly while some stored row is PROCESSING |
| App.CardColourOf | frontend/src/App.jsx:120-136 | a PROCESSING card is slate; otherwise RED, YELLOW and GREEN urgencies get their colour and anything else slate |
| App.Flatten | frontend/src/App.jsx:50 | the blob holds as many bytes as the chunks together and starts with the bytes of the first chunk |
| App.FlattenAppend | frontend/src/App.jsx:45-50 | appending a chunk appends its bytes to the recording |
| App.UploadForm | frontend/src/App.jsx:29-32 | the upload form holds exactly one `file` entry, the blob, named `voicemail.wav` |
| App.VoicemailsQuery.constructor | frontend/src/App.jsx:15-26 | the query starts with no data and not invalidated |
| App.VoicemailsQuery.NextPoll | frontend/src/App.jsx:21-25 | a next poll is scheduled exactly when the cached data holds a PROCESSING row, and its delay is 2000 ms |
| App.VoicemailsQuery.OnFetched | frontend/src/App.jsx:17-20 | a fetch replaces the cached data and clears the invalidation |
| App.VoicemailsQuery.OnUploadSuccess | frontend/src/App.jsx:34-36 | a successful upload invalidates the cache and keeps its data |
| App.NewRecorderKeepsInvariant | frontend/src/App.jsx:41-56 | a recorder created while idle on a fresh stream becomes the current one, owns that stream alone, and records exactly when `start()` succeeded |
| App.CaptureController.constructor | frontend/src/App.jsx:10-12 | not recording, no recorder, no chunks, no uploads |
| App.CaptureController.StartRecording | frontend/src/App.jsx:39-61 | a denied microphone only alerts; a constructor or start failure alerts and leaves the new stream running; success records with a fresh recorder and empty chunks |
| App.CaptureController.OnDataAvailable | frontend/src/App.jsx:45-47 | a non-empty chunk is appended and an empty one ignored, so the recorded bytes grow by exactly the chunk |
| App.CaptureController.StopRecording | frontend/src/App.jsx:63-68 | while recording, the current recorder moves to stopping; in every case recording is off afterwards |
| App.CaptureController.OnStop | frontend/src/App.jsx:49-53 | uploads one `audio/wav` blob of all chunks collected so far, stops that recorder's stream and nothing else |
| App.StopTwiceThenStopped | frontend/src/App.jsx:63-68 | two calls of `stopRecording` followed by the recorder's stop event upload exactly one blob, and the recorder ends inactive |
| App.LateChunkUploadedTwice | frontend/src/App.jsx:40-68 | when a new recording starts before the old recorder delivers its last chunk and stops, that chunk is uploaded by the old stop and again by the new recording's stop |
| Dashboard.DashboardRefetchInterval | frontend/src/components/Dashboard.jsx:20 | the dashboard polls every 5000 ms whatever the data |
| Dashboard.PriorityRank | frontend/src/components/Dashboard.jsx:50-52 | RED ranks 0, NEED_VALIDATION 1, YELLOW 2, GREEN 3, and any other or absent urgency 4 |
| Dashboard.SortKeyMatchesComparator | frontend/src/components/Dashboard.jsx:45-56 | for every order, the source's comparator on two rows is the difference of their sort keys, so sorting by the key is sorting with the comparator |
| Dashboard.SortedView | frontend/src/components/Dashboard.jsx:45-56 | the view is empty before data loads, and otherwise a permutation of the data ordered by the chosen key, stable among equal keys |
| Dashboard.SortedViewOrders | frontend/src/components/Dashboard.jsx:45-56 | newest first, oldest first, critical first and safe first each order the view as named; critical first puts every RED row before all others and safe first after all others; an unknown order keeps the fetched order |
| Dashboard.SortedViewStable | frontend/src/components/Dashboard.jsx:45-56 | two rows that tie under the chosen order keep their relative position |
| Dashboard.SummaryLabelOf | frontend/src/components/Dashboard.jsx:132-136 | "Extraction Failed" exactly for a FAILED row or a COMPLETED row without transcript; otherwise the summary when truthy, else "Processing..." |
| Dashboard.UrgencyBadge | frontend/src/components/Dashboard.jsx:30-42 | RED gets the red style, YELLOW yellow, GREEN green, NEED_VALIDATION orange, and any other value grey; the text is the urgency, or UNKNOWN when empty |
| Dashboard.RowBadge | frontend/src/components/Dashboard.jsx:128 | a row shows a badge exactly when its urgency is non-empty, and that badge is `urgencyBadge` of the urgency: its label and its per-urgency style |
| Dashboard.DashboardState.constructor | frontend/src/components/Dashboard.jsx:11-12 | nothing selected, newest first |
| Dashboard.DashboardState.OnVoicemailsChanged | frontend/src/components/Dashboard.jsx:24-28 | with nothing selected, the first fetched row is selected when there is one; an existing selection is never replaced |
| Dashboard.DashboardState.SelectRow | frontend/src/components/Dashboard.jsx:119 | clicking a row selects it and keeps the sort order |
| Dashboard.DashboardState.Close | frontend/src/components/Dashboard.jsx:166 | closing the panel clears the selection and keeps the sort order |
| Dashboard.DashboardState.SetSortBy | frontend/src/components/Dashboard.jsx:78 | choosing an order changes only the order |
| Dashboard.DashboardState.IsHighlighted | frontend/src/components/Dashboard.jsx:122 | a row is highlighted exactly when the selection has its id |
| Detail.AnalysisOf | frontend/src/components/VoicemailDetail.jsx:10 | an absent analysis reads as an empty dictionary |
| Detail.FieldOr | frontend/src/components/VoicemailDetail.jsx:89-133 | a truthy field is shown as stored, anything else as the fallback text |
| Detail.MissingInfoLine | frontend/src/components/VoicemailDetail.jsx:72-75 | a non-empty list is shown joined with ", "; a non-empty string raises; anything else shows nothing |
| Detail.JoinRoundTrip | frontend/src/components/VoicemailDetail.jsx:74 | the joined line gives back the list when no item contains a comma |
| Detail.BookingWidget | frontend/src/components/VoicemailDetail.jsx:176-183 | the widget URL is the stored booking URL, else the configured URL, else `https://calendly.com`, so never empty; prefilled with the patient name and the fixed email |
| Detail.Escape | frontend/src/components/VoicemailDetail.jsx:29 | escaping never shortens a value and leaves a value without syntax characters as it is |
| Detail.EscapeIsLiteral | frontend/src/components/VoicemailDetail.jsx:29 | an escaped value, read as a pattern, matches exactly that value |
| Detail.PatternMatchesValuesLiterally | frontend/src/components/VoicemailDetail.jsx:29 | the pattern has one alternative per value, in order, each matching its value literally |
| Detail.MatchAt | frontend/src/components/VoicemailDetail.jsx:29-30 | a match at a position is non-empty and lies inside the text |
| Detail.MatchAtCorrect | frontend/src/components/VoicemailDetail.jsx:29-30 | a match equals some value ignoring case; no match means no value matches there |
| Detail.MatchAtFirstWins | frontend/src/components/VoicemailDetail.jsx:29-30 | the match at a position is the first value, in order, that matches there, and has that value's length |
| Detail.Candidates | frontend/src/components/VoicemailDetail.jsx:17-24 | seven candidates: symptoms, appointment time, patient name, intent, treatment mode and visit type as stored, then "referral" exactly when a referral plan is set |
| Detail.TruthyOnly | frontend/src/components/VoicemailDetail.jsx:25 | every value kept is truthy, and no more values are kept than there were candidates |
| Detail.TruthyOnlyMembers | frontend/src/components/VoicemailDetail.jsx:25 | a value is kept exactly when it is a truthy candidate |
| Detail.TruthyOnlyAppend | frontend/src/components/VoicemailDetail.jsx:25 | filtering keeps the order: it distributes over concatenation |
| Detail.TruthyOnlyKeepsTruthy | frontend/src/components/VoicemailDetail.jsx:25 | candidates that are all truthy pass through unchanged |
| Detail.HighlightValuesInOrder | frontend/src/components/VoicemailDetail.jsx:17-25 | the values to highlight are the truthy ones among the six fields, in pattern order, followed by "referral" when a referral plan is set |
| Detail.SplitFromConcat | frontend/src/components/VoicemailDetail.jsx:30 | the scan from any point loses nothing: its parts concatenate to the rest of the text |
| Detail.SplitFromScanned | frontend/src/components/VoicemailDetail.jsx:30 | the scan from any point lays its parts end to end over the rest of the text; between matches no value matches at any position, and each captured part is the match found at its start |
| Detail.Split | frontend/src/components/VoicemailDetail.jsx:30 | the parts concatenate back to the transcript, alternate between unmatched text and captured matches, and sit where the scan found them |
| Detail.ScannedFindsEveryMatch | frontend/src/components/VoicemailDetail.jsx:29-30 | every position where a value occurs, ignoring case, lies inside a captured part |
| Detail.IsHighlightValue | frontend/src/components/VoicemailDetail.jsx:35 | true exactly when some value equals the part ignoring case |
| Detail.HighlightText | frontend/src/components/VoicemailDetail.jsx:14-45 | no text renders nothing; a non-empty text with no values renders unchanged; a non-empty text with string values renders marked parts; a non-string value raises; otherwise the marked parts rebuild the text, exactly the captured matches are marked, and the unmarked parts hold no occurrence of a value |
| Detail.HighlightFindsEveryOccurrence | frontend/src/components/VoicemailDetail.jsx:29-35 | wherever a value occurs in the transcript, ignoring case, that position lies inside a highlighted part |
| Detail.AlertStyleOf | frontend/src/components/VoicemailDetail.jsx:65-68 | RED is red, NEED_VALIDATION orange, anything else neutral |
| Detail.AudioUrl | frontend/src/components/VoicemailDetail.jsx:155 | the audio source is the API URL, then the backend's `/api/voicemails/audio/` route, then the stored file path |
| Detail.RenderDetail | frontend/src/components/VoicemailDetail.jsx:7-185 | no row renders the placeholder; a row renders its first 8 id characters, title, time, symptoms, patient, mode and type cells (each with its fallback), alert, missing-information line, highlighted transcript, audio source and widget as above, and fails exactly when one of those raises |
| Lifecycle.PollingStopsAfterLastCompletion | backend/app/inngest_client.py:72-81 | once the last PROCESSING row is completed, the client's next fetch turns polling off |
| Lifecycle.CompletedDetailBooksChosenUrl | frontend/src/components/VoicemailDetail.jsx:177 | with a Calendly path configured, the panel of a completed row books through the URL the workflow chose |
| Lifecycle.UnconfiguredDetailFallsBack | frontend/src/components/VoicemailDetail.jsx:177 | with no Calendly path configured, the panel of a completed row books through the client's configured URL |

## Left out

- Transcription, LLM analysis, MinIO storage and the audio route are external
  services or I/O. The transcript and the analysis dictionary are inputs to
  `Workflow.ProcessVoicemail`. The upload outcome is the boolean `uploadOk`,
  and the bucket-creation step is not modelled.
- The workflow engine is not modelled: step memoisation, retries and
  durability. `ProcessVoicemail` is one atomic run, and the event's failed
  delivery is not modelled.
- React rendering and styling are not modelled. Class names are reduced to
  colour and style enumerations, and markup is reduced to the values shown.
- `created_at` is an integer timestamp. Date parsing, `toLocaleTimeString`
  and `Date.now()` are left out, so an unparsable date (NaN in JavaScript)
  is not represented.
- `Text.Lower` folds ASCII letters only. Unicode case mapping in Python's
  `lower()` and in JavaScript's `toLowerCase` and `i` flag is not modelled.
- `Calendly.CalendlyService.CreateEventLink`: `urllib.parse.urlencode` is
  the parameter `encode`, so the exact escaping of the query string is not
  modelled.
- `Workflow.CompletionUpdates`: a present `urgency` or `intent` that is not a
  string is stored as None, because the record columns are modelled as
  optional strings. The source would store the raw value.
- `Records.Value` holds lists of strings only. A `missing_info` list with
  non-string items and nested objects are not represented.
- `Dashboard.PriorityRank`, `Dashboard.UrgencyBadge` and `App.CardColourOf`
  treat every urgency outside their tables as unknown. In the source, an
  urgency that names an inherited JavaScript object property (such as
  `toString` or `constructor`) finds a function in `urgencyOrder`,
  `styles` or `statusColors`. The model ranks such a row last and gives it
  the grey badge and the slate card, where the source would not.
- `App.CaptureController.StartRecording` runs atomically. The interleaving of
  its `await` with a second click, and a recorder that stops on its own
  (for example when the device is unplugged), are not modelled.
- `Storage.Database.Rows` and `Storage.Database.ListVoicemails` return the
  rows in insertion order. `query(Voicemail).all()` has no ORDER BY, so the
  database may return them in any scan order (an updated row can come back
  after rows inserted later). The stability of `Routes.ListResponse` and the
  dashboard's choice among rows of equal rank are stated against that
  assumed order.
- `App.CaptureController.StopRecording` reads the current `isRecording`. A
  handler kept from an earlier render reads the value of that render, and
  this stale read is not modelled.
- React-query internals are not modelled: timer scheduling, request
  de-duplication, and the loading flag.
- The dashboard's search input has no behaviour in the source and is not modelled.
- Other files are not part of this model: the ORM class and session, the
  settings, the Inngest client setup, the FastAPI application, the navbar
  and the Tailwind config. The row's `id` is assumed to be its primary key,
  which is why `Storage.Database.SaveVoicemail` rejects a duplicate id.
- The LLM extraction schema declares no `treatment_mode`, `symptoms` or
  `booking_url` fields. The model still accepts any analysis dictionary,
  since the source reads the dictionary without validating it.
