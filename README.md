# NewsBite core in Dafny

NewsBite is a small Flask web app. A visitor picks a topic, a persona and
a time window. The server then does three things:

1. It searches the web for news on the topic in that window.
2. It has a chat model write a short script in the persona's voice.
3. It has a text-to-speech service read the script aloud.

The MP3 is kept in an in-process dict (the audio cache) under a fresh
uuid. The page links to it twice: once for playing inline, once for a
one-shot download that removes it from the cache.

This project models the core of that server, `api/index.py`:

- `Wrappers`: the `Option` and `Result` types.
- `Text`: the Python string operations the server depends on, with
  CPython's semantics:
  - `str.strip()` with the full `str.isspace` set;
  - `str.replace`;
  - `str.split(sep)[0]`;
  - `sep.join`;
  - the slice `s[:n]`.
- `Catalog`: the `PERSONAS` and `TIME_PERIODS` tables (the constants
  `Personas`, built from `PersonaNames` and `PersonaRules`, and
  `TimePeriods`), and the
  `.get(id, table["1"])` lookups that fall back to entry "1". Also the
  persona label `index()` derives from a persona's text.
- `AudioStore`: the audio cache as a class whose `entries` map the
  methods update, with insert, the non-destructive lookup behind
  `serve_audio` and the `pop` behind `download_audio`.
- `Bite`: `generate_daily_bite`:
  - the search query, the context block and the prompt, as functions;
  - the download name and its slug;
  - the loop that drains the speech stream into one buffer;
  - `Produce`, the specification of the whole pipeline;
  - `GenerateDailyBite`, the method that runs the pipeline and inserts
    into the cache.
- `Web`: `index()` and the two audio routes:
  - `Handle` is the page `index()` renders for a request, over any pair
    of tables with an entry "1";
  - `Stored` is the cache afterwards;
  - the methods `Index`, `ServeAudio` and `DownloadAudio` mutate the
    cache. Their contracts tie them to those functions.

The external services are one datatype of three functions: search,
completion and speech synthesis. Each maps its input to a `Result`. An
exception a service raises is a `Failure` carrying its message.

`uuid.uuid4().hex` and `time.time()` are parameters, `audioId` and
`now`. A Flask 404 (`abort(404)`) is a `None` reply.

## Model

| member | source | states |
|---|---|---|
| Text.Strip | api/index.py:186 | the result neither starts nor ends with a whitespace character (CPython's `isspace` set) |
| Text.TrimStart | api/index.py:186 | only a whitespace prefix is removed, and the rest starts with a non-space |
| Text.TrimEnd | api/index.py:186 | only a whitespace suffix is removed, and the rest ends with a non-space |
| Text.StripOf | api/index.py:186 | only the surrounding whitespace is removed: whitespace + core + whitespace strips to the core |
| Text.StripEmptyIff | api/index.py:186 | the strip is empty exactly when the input is all whitespace |
| Text.StripWithin | api/index.py:197 | the strip is no longer than its input and holds only characters of the input |
| Text.StripIdempotent | api/index.py:186 | stripping twice is stripping once |
| Text.ReplaceChar | api/index.py:131 | same length; each occurrence of the target is replaced and every other character is kept |
| Text.ReplaceAll | api/index.py:197 | the input comes back unchanged when it has no occurrence of the pattern; a replacement no longer than the pattern never lengthens the text |
| Text.ReplaceAllAtStart | api/index.py:197 | an occurrence at the very start is replaced as a whole |
| Text.ReplaceAllKeeps | api/index.py:197 | a character in neither the pattern nor the replacement is in the result exactly when it is in the input |
| Text.BeforeFirst | api/index.py:197 | the result is a prefix without the separator; a separator follows it unless it is all of the input |
| Text.BeforeFirstOf | api/index.py:197 | text before the first separator is the head, whatever follows |
| Text.Take | api/index.py:132 | `s[:n]`: the prefix of length min(n, len s) |
| Text.Join | api/index.py:88 | `sep.join(parts)`: the definition JoinAt, JoinSepAt, JoinLength and JoinSnoc are about |
| Text.JoinAt | api/index.py:88 | part i of a join sits at the sum of the earlier parts' and separators' lengths |
| Text.JoinSepAt | api/index.py:88 | a separator follows every part but the last |
| Text.JoinLength | api/index.py:88 | the join is exactly the parts plus one separator per gap |
| Text.JoinSnoc | api/index.py:125-126 | joining one more part appends a separator and that part |
| Catalog.Persona | api/index.py:48-55 | how each PERSONAS text is written, "Persona: NAME. RULES"; the constants PersonaNames and PersonaRules hold the six names and rules verbatim, and Personas is the table built from them; the definition PersonaLabelOf and PersonaLabels are about |
| Catalog.Lookup | api/index.py:193-194 | `table.get(id, table["1"])` always yields an entry of the table |
| Catalog.LookupFallback | api/index.py:193-194 | in a table of distinct entries, entry "1" comes back exactly for the id "1" and for unknown ids |
| Catalog.PersonaPrompt | api/index.py:193 | the persona lookup over PERSONAS (the constant Personas) never fails and yields a PERSONAS entry |
| Catalog.LookupTimePeriod | api/index.py:194 | the time lookup over TIME_PERIODS (the constant TimePeriods, lines 57-66 verbatim) never fails and yields a TIME_PERIODS entry |
| Catalog.PersonaFallback | api/index.py:193 | a known id gets its own persona; entry "1" is given exactly to "1" and to unknown ids |
| Catalog.TimePeriodFallback | api/index.py:194 | a known id gets its own window; window "1" is given exactly to "1" and to unknown ids |
| Catalog.PersonasDistinct | api/index.py:48-55 | the six personas are pairwise different |
| Catalog.PersonaNamesDistinct | api/index.py:48-55 | the six persona names are pairwise different |
| Catalog.TimePeriodsDistinct | api/index.py:57-66 | the eight windows are pairwise different |
| Catalog.PersonaNamesPlain | api/index.py:48-55 | every persona name is non-blank, has no surrounding whitespace, and contains no "." or "P" |
| Catalog.PersonaLabel | api/index.py:197 | the label has no ".", no surrounding whitespace, and is no longer than the persona text |
| Catalog.DropTag | api/index.py:197 | removing "Persona:" from the front of text without a "P" leaves just that text |
| Catalog.PersonaLabelOf | api/index.py:197 | the label of "Persona: NAME. RULES" is NAME, for a plain name |
| Catalog.PersonaLabels | api/index.py:48-55 | every catalog persona is labelled with its own name |
| Catalog.LabelOfAnyId | api/index.py:193-197 | any id is labelled with its own catalog name when known, and with that of "1" otherwise |
| AudioStore.AudioCache.constructor | api/index.py:16 | the cache starts empty |
| AudioStore.AudioCache.Insert | api/index.py:134-138 | the id gets the entry; every other id keeps its entry |
| AudioStore.AudioCache.Serve | api/index.py:150-153 | found exactly for a present id, with that id's entry |
| AudioStore.AudioCache.Download | api/index.py:165-168 | for a present id, its entry is returned and the id removed; an absent id is not found and nothing changes |
| Bite.SearchQuery | api/index.py:84 | the search query f-string: the definition SearchQueryParts and SearchQueryInjective are about |
| Bite.SearchQueryParts | api/index.py:84 | the query is the topic, the fixed infix and the time phrase, in that order, and nothing else |
| Bite.SearchQueryInjective | api/index.py:84 | for one time phrase, different topics give different queries |
| Bite.ResultLine | api/index.py:88 | one `f"{title}: {content}"` line: the definition ResultLineParts is about |
| Bite.Lines | api/index.py:88 | one `title: content` line per search result, in order |
| Bite.Context | api/index.py:88 | the context block, the lines joined by "\n": the definition ContextHoldsLine, ContextHoldsTitle, ContextHoldsContent and ContextLength are about |
| Bite.ResultLineParts | api/index.py:88 | a line is the title, ": " and the content |
| Bite.ContextHoldsLine | api/index.py:88 | result i's line sits in the context at its start; a newline follows unless it is the last; the next line starts after that newline |
| Bite.ContextHoldsTitle | api/index.py:88 | result i's title occurs in the context |
| Bite.ContextHoldsContent | api/index.py:88 | result i's content occurs in the context after its title and ": " |
| Bite.ContextLength | api/index.py:88 | the context is exactly the lines and the newlines between them |
| Bite.SystemPrompt | api/index.py:91-105 | the triple-quoted system prompt, verbatim, with the persona text and the time label in its holes: the definition SystemPromptHoldsPersona is about |
| Bite.Prompt | api/index.py:107 | the completion input f-string: the definition PromptParts, PromptHoldsPiece, PromptHoldsSystemPiece, PromptHoldsPersona and PromptHoldsEveryResult are about |
| Bite.FillInHolds | api/index.py:91-105 | the two substituted values sit verbatim in the template's holes |
| Bite.SystemPromptHoldsPersona | api/index.py:91-105 | the system prompt carries the persona text right after its opening lines, and the time label in its instructions |
| Bite.PromptParts | api/index.py:107 | the prompt starts with the system prompt, holds the context verbatim, and ends with the drafting instruction |
| Bite.PromptHoldsPiece | api/index.py:107 | whatever occurs in the context occurs in the prompt, shifted by where the context starts |
| Bite.PromptHoldsSystemPiece | api/index.py:107 | whatever occurs in the system prompt occurs at the same place in the prompt |
| Bite.PromptHoldsPersona | api/index.py:91-107 | the persona text reaches the completion model |
| Bite.PromptHoldsEveryResult | api/index.py:88-107 | every search result's title and content reach the completion model |
| Bite.Slug | api/index.py:131 | no spaces; "bite" exactly for the empty topic and the topic "bite"; otherwise the topic with each space turned into "_" |
| Bite.ShortId | api/index.py:132 | the first eight characters of the id, or the whole id when it is shorter |
| Bite.Filename | api/index.py:132 | `f"bite_{slug}_{audio_id[:8]}.mp3"`: the definition FilenameRoundTrip and FilenameShape are about |
| Bite.ParseFilename | api/index.py:132 | the inverse of the download name built here: strips "bite_" and ".mp3" and splits at the last "_" (with the helpers LastIndex, LastIndexAfter and CutThree); the definition FilenameRoundTrip and FilenameShape are about |
| Bite.FilenameRoundTrip | api/index.py:130-132 | for an id without "_", parsing the download name gives back the slug and the short id |
| Bite.FilenameShape | api/index.py:130-132 | for a uuid's hex id, the name is 18 characters longer than the slug and ends in eight hex digits plus ".mp3" |
| Bite.Flatten | api/index.py:124-127 | all speech chunks back to back: the definition Drain is proved against and FlattenHoldsChunk and FlattenLength are about |
| Bite.FlattenHoldsChunk | api/index.py:124-127 | every speech chunk sits in the audio after the chunks before it |
| Bite.FlattenLength | api/index.py:124-127 | the audio is exactly as long as all chunks together, also for an empty stream |
| Bite.Drain | api/index.py:124-127 | the loop's buffer is all the chunks, back to back, in order |
| Bite.Produce | api/index.py:78-144 | a successful run carries the given id and the name derived from the topic and that id |
| Bite.SearchFailureIsFinal | api/index.py:83-86 | a failed search ends the run with its error; completion and speech are not consulted |
| Bite.CompletionFailureIsFinal | api/index.py:108-114 | a failed completion ends the run with its error; speech is not consulted |
| Bite.ProduceSucceeds | api/index.py:108-144 | after a successful search and completion, a speech failure ends the run with its error, and a speech success gives the completion's script, the given id, the derived name and all chunks back to back |
| Bite.GenerateDailyBite | api/index.py:78-144 | success returns the script, the id and the name, and adds exactly the entry (whole audio, name, time); failure returns the error and leaves the cache untouched |
| Web.Field | api/index.py:186-188 | `request.form.get(field, default)`: the definition the form defaults of Handle, TopicRequiredIff and the two ActsAsDefault lemmas are about |
| Web.TopicOf | api/index.py:186 | the topic is blank exactly when the field is missing or all whitespace; otherwise it has non-space ends |
| Web.Respond | api/index.py:190-210 | exactly one of a result and an error; "Topic is required." exactly for a blank topic; a result has the topic, the id, the derived name, the persona's label and the window's label |
| Web.RespondFollowsProduce | api/index.py:195-210 | a result shows exactly when the topic is non-blank and the run succeeds, with the run's script; a failed run shows "Failed to generate bite: " and its message |
| Web.Generate | api/index.py:190-196 | the generation a POST starts, none for a blank topic: the definition Respond, Submit and AfterGeneration are about |
| Web.SiteTablesHaveDefaults | api/index.py:48-66 | both site tables have an entry "1", and looking them up is PersonaPrompt and LookupTimePeriod |
| Web.Handle | api/index.py:177-221 | a GET has neither a result nor an error; a POST echoes the stripped topic and the form's persona and time ids (defaulting to "1") and has exactly one of a result and an error; a result belongs to the echoed non-blank topic and shows the label of the looked-up persona and window |
| Web.HandleFollowsStarted | api/index.py:185-210 | a result shows exactly when the generation the request starts succeeds, with its script; a failed generation shows "Failed to generate bite: " and its message |
| Web.Started | api/index.py:185-196 | the generation a request starts after the form defaults and table lookups: the definition Stored and GenerateThenServe are about |
| Web.AfterGeneration | api/index.py:134-138 | the cache after a generation, with only a success adding its entry: the definition Submit is proved against |
| Web.Stored | api/index.py:177-221 | the cache after `index()` handles a request: the definition Index is proved against and TopicRequiredIff is about |
| Web.GetShowsDefaults | api/index.py:179-183 | a GET renders an empty topic, both selections "1", no result and no error |
| Web.TopicRequiredIff | api/index.py:186-191 | the required-topic error appears exactly for a missing or blank topic; then nothing is generated and the cache is unchanged |
| Web.UnknownPersonaActsAsDefault | api/index.py:187-193 | a missing or unknown persona id gives the outcome of entry "1" |
| Web.UnknownTimeActsAsDefault | api/index.py:188-194 | a missing or unknown time id gives the outcome of window "1" |
| Web.ResultShowsCatalogLabel | api/index.py:193-197 | with the site tables, a shown persona label is always one of the six catalog names |
| Web.ResultShowsChosenPersona | api/index.py:187-205 | with the site tables, a result for a form that picks a known persona shows that persona's own name |
| Web.ResultSlugIsTopic | api/index.py:131 | a shown result's name is built from the validated topic, so its slug is never the "bite" fallback for a topic other than "bite" |
| Web.Submit | api/index.py:190-210 | renders Respond's outcome and leaves the cache as AfterGeneration says |
| Web.Index | api/index.py:177-221 | renders Handle's page over PERSONAS and TIME_PERIODS and leaves the cache as Stored says |
| Web.ServeAudio | api/index.py:147-159 | an inline reply with the stored bytes and name exactly for a present id; the cache is not changed |
| Web.DownloadAudio | api/index.py:162-174 | an attachment reply exactly for a present id, after which the id is gone |
| Web.DownloadThenServe | api/index.py:162-174 | after a download the id can be neither played nor downloaded again |
| Web.GenerateThenServe | api/index.py:147-159 | a shown result's audio is playable inline under the shown name, and is the whole spoken script |

## Left out

- Flask routing, `render_template`, `send_file`, `url_for` and `abort`:
  - a page is the `Page` value handed to the template;
  - an audio reply is its bytes, download name and attachment flag;
  - a 404 is `None`;
  - the mimetype is always "audio/mpeg" and is not modelled;
  - the two URLs built with `url_for` are replaced in `BiteView` by the audio id they are built from.
- `get_api_key`, `init_clients` and the lazily created clients (lines 20-45): the environment and the network are not modelled. A missing key's `RuntimeError` ends a request like any other service failure, so it falls under the modelled `Failure` path.
- The search, chat-completion and speech services are functions passed in. Their fixed parameters are not modelled: search depth, model names, voice id and `max_tokens`.
- A search response without "results", or a result without "title" or "content", raises `KeyError`. Here that is a search `Failure`, because a result is always a title and a content.
- A completion whose `message.content` is `None` is not modelled: the script is always a string.
- The speech stream is a list of chunks delivered whole or failing as a whole. A failure partway through the stream is folded into one `Failure`, and the partial buffer that is thrown away is not modelled.
- `uuid.uuid4()` and `time.time()` are parameters. Nothing proves the uuid fresh, so an id already in the cache is overwritten, as a Python dict would be.
- `AUDIO_TTL` is declared, but nothing in the source reads it. The model keeps the constant, and entries never expire.
- Concurrent requests sharing the cache are not modelled.
- `Web.Handle` takes the two tables as a parameter so that its laws hold for any tables with an entry "1". `Web.Index` fixes them to PERSONAS and TIME_PERIODS.
- `app.py` and `static/js/main.js` are not part of this model.
