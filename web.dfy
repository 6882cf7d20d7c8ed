/** The request handling of api/index.py: the form of the "/" route with its
    defaults, topic validation and table fallbacks, the persona label shown
    with a result, and the two audio routes over the cache. */
module Web {
  import opened Wrappers
  import opened Text
  import opened Catalog
  import opened AudioStore
  import opened Bite

  /** A request to "/": a GET, or a POST with its form fields. */
  datatype Request = Get | Post(form: map<string, string>)

  /** The `result` dict the template renders, with the audio id in place of
      the two URLs built from it. */
  datatype BiteView = BiteView(script: string, audioId: string, filename: string,
                               personaLabel: string, topic: string, timeLabel: string)

  /** What `index()` renders: the echoed form fields, then a result or an error. */
  datatype Page = Page(topic: string, selectedPersona: string, selectedTime: string,
                       result: Option<BiteView>, error: Option<string>)

  /** The body of an audio response: the bytes, the download name, and
      whether the browser is told to save it rather than play it. */
  datatype AudioReply = AudioReply(data: seq<byte>, downloadName: string, asAttachment: bool)

  const TopicRequired: string := "Topic is required."
  const FailurePrefix: string := "Failed to generate bite: "

  /** `form.get(field, default)`. */
  function Field(form: map<string, string>, field: string, default: string): string
  {
    if field in form then form[field] else default
  }

  /** `(form.get("topic") or "").strip()`: blank exactly when the field is
      missing or holds only whitespace; otherwise it starts and ends with a
      non-space character. */
  function TopicOf(form: map<string, string>): (topic: string)
    ensures topic == [] <==> ("topic" !in form || AllSpace(form["topic"]))
    ensures topic == [] || (!IsSpace(topic[0]) && !IsSpace(topic[|topic| - 1]))
  {
    var raw := Field(form, "topic", "");
    StripEmptyIff(raw);
    Strip(raw)
  }

  /** The generation a POST starts once the ids have gone through the
      tables' fallback lookups, or None when the topic is blank. */
  function Generate(topic: string, personaPrompt: string, period: TimePeriod,
                    services: Services, audioId: string): Option<Result<Bite, string>>
  {
    if topic == [] then None
    else Some(Produce(topic, personaPrompt, period.query, period.displayLabel, services, audioId))
  }

  /** The `result` and `error` a POST renders. */
  datatype Outcome = Outcome(result: Option<BiteView>, error: Option<string>)

  /** Exactly one of a result and an error; a result belongs to the
      non-blank topic, carries the run's id and script, the persona's label
      and the window's label. */
  function Respond(topic: string, personaPrompt: string, period: TimePeriod,
                   services: Services, audioId: string): (o: Outcome)
    ensures o.result.Some? <==> o.error.None?
    ensures o.error == Some(TopicRequired) <==> topic == []
    ensures o.result.Some? ==>
      && topic != [] && o.result.value.topic == topic && o.result.value.audioId == audioId
      && o.result.value.filename == Filename(topic, audioId)
      && o.result.value.personaLabel == PersonaLabel(personaPrompt)
      && o.result.value.timeLabel == period.displayLabel
  {
    match Generate(topic, personaPrompt, period, services, audioId)
    case None => Outcome(None, Some(TopicRequired))
    case Some(Failure(e)) =>
      assert |FailurePrefix + e| > |TopicRequired|;
      Outcome(None, Some(FailurePrefix + e))
    case Some(Success(b)) =>
      Outcome(Some(BiteView(b.script, b.audioId, b.filename, PersonaLabel(personaPrompt), topic, period.displayLabel)), None)
  }

  /** The rendered outcome follows the pipeline: a result shows exactly when
      the topic is non-blank and the run succeeds, and then it shows the
      run's script; a failed run shows "Failed to generate bite: " and the
      failure's message. */
  lemma RespondFollowsProduce(topic: string, personaPrompt: string, period: TimePeriod,
                              services: Services, audioId: string)
    ensures var o := Respond(topic, personaPrompt, period, services, audioId);
      var p := Produce(topic, personaPrompt, period.query, period.displayLabel, services, audioId);
      && (o.result.Some? <==> topic != [] && p.Success?)
      && (o.result.Some? ==> o.result.value.script == p.value.script)
      && (topic != [] && p.Failure? ==> o.error == Some(FailurePrefix + p.error))
  {
  }

  /** The two lookup tables `index()` consults. */
  datatype Tables = Tables(personas: map<string, string>, timePeriods: map<string, TimePeriod>)

  /** Both tables have the entry "1" the lookups fall back to. */
  predicate HasDefaults(tables: Tables)
  {
    DefaultId in tables.personas && DefaultId in tables.timePeriods
  }

  /** PERSONAS and TIME_PERIODS. */
  const SiteTables: Tables := Tables(Personas, TimePeriods)

  lemma SiteTablesHaveDefaults()
    ensures HasDefaults(SiteTables)
    ensures forall id :: Lookup(SiteTables.personas, id) == PersonaPrompt(id)
    ensures forall id :: Lookup(SiteTables.timePeriods, id) == LookupTimePeriod(id)
  {
    assert DefaultId in PersonaNames && DefaultId in PersonaRules;
  }

  /** The page `index()` renders for a request, given the tables and the id
      a generation would draw: a GET shows neither a result nor an error; a
      POST shows exactly one of them, and a result always belongs to the
      non-blank topic the page echoes. */
  function Handle(tables: Tables, req: Request, services: Services, audioId: string): (page: Page)
    requires HasDefaults(tables)
    ensures req.Get? ==> page.result.None? && page.error.None?
    ensures req.Post? ==>
      && page.topic == TopicOf(req.form)
      && page.selectedPersona == Field(req.form, "persona", DefaultId)
      && page.selectedTime == Field(req.form, "time_period", DefaultId)
    ensures req.Post? ==> (page.result.Some? <==> page.error.None?)
    ensures page.result.Some? ==> page.topic != [] && page.result.value.topic == page.topic
    ensures page.result.Some? ==> page.result.value.audioId == audioId
    ensures page.result.Some? ==> page.result.value.filename == Filename(page.topic, audioId)
    ensures page.result.Some? ==>
      && page.result.value.personaLabel == PersonaLabel(Lookup(tables.personas, page.selectedPersona))
      && page.result.value.timeLabel == Lookup(tables.timePeriods, page.selectedTime).displayLabel
  {
    match req
    case Get => Page("", DefaultId, DefaultId, None, None)
    case Post(form) =>
      var topic := TopicOf(form);
      var persona := Field(form, "persona", DefaultId);
      var time := Field(form, "time_period", DefaultId);
      var o := Respond(topic, Lookup(tables.personas, persona), Lookup(tables.timePeriods, time), services, audioId);
      Page(topic, persona, time, o.result, o.error)
  }

  /** The generation a request starts, if any. */
  function Started(tables: Tables, req: Request, services: Services, audioId: string): Option<Result<Bite, string>>
    requires HasDefaults(tables)
  {
    match req
    case Get => None
    case Post(form) =>
      Generate(TopicOf(form), Lookup(tables.personas, Field(form, "persona", DefaultId)),
               Lookup(tables.timePeriods, Field(form, "time_period", DefaultId)), services, audioId)
  }

  /** The cache after a generation: only a successful one adds an entry. */
  function AfterGeneration(entries: map<string, Entry>, g: Option<Result<Bite, string>>,
                           audioId: string, now: real): map<string, Entry>
  {
    match g
    case Some(Success(b)) => entries[audioId := Entry(b.audio, b.filename, now)]
    case _ => entries
  }

  /** The cache after `index()` has handled a request. */
  function Stored(tables: Tables, entries: map<string, Entry>, req: Request, services: Services,
                  audioId: string, now: real): map<string, Entry>
    requires HasDefaults(tables)
  {
    AfterGeneration(entries, Started(tables, req, services, audioId), audioId, now)
  }

  /** The page follows the generation the request starts: a result shows
      exactly when that generation succeeds, with its script; a failed one
      shows "Failed to generate bite: " and the failure's message. */
  lemma HandleFollowsStarted(tables: Tables, req: Request, services: Services, audioId: string)
    requires HasDefaults(tables)
    ensures var page := Handle(tables, req, services, audioId);
      var g := Started(tables, req, services, audioId);
      && (page.result.Some? <==> g.Some? && g.value.Success?)
      && (page.result.Some? ==> page.result.value.script == g.value.value.script)
      && (g.Some? && g.value.Failure? ==> page.error == Some(FailurePrefix + g.value.error))
  {
    if req.Post? {
      var form := req.form;
      RespondFollowsProduce(TopicOf(form), Lookup(tables.personas, Field(form, "persona", DefaultId)),
                            Lookup(tables.timePeriods, Field(form, "time_period", DefaultId)), services, audioId);
    }
  }

  /** A GET renders the untouched form: no topic, both selections "1". */
  lemma GetShowsDefaults(tables: Tables, services: Services, audioId: string)
    requires HasDefaults(tables)
    ensures Handle(tables, Get, services, audioId) == Page("", DefaultId, DefaultId, None, None)
  {
  }

  /** "Topic is required." is shown exactly when the topic field is missing
      or blank, and then nothing is generated and the cache is unchanged. */
  lemma TopicRequiredIff(tables: Tables, form: map<string, string>, services: Services, audioId: string,
                         entries: map<string, Entry>, now: real)
    requires HasDefaults(tables)
    ensures Handle(tables, Post(form), services, audioId).error == Some(TopicRequired)
        <==> ("topic" !in form || AllSpace(form["topic"]))
    ensures ("topic" !in form || AllSpace(form["topic"])) ==>
      && Started(tables, Post(form), services, audioId).None?
      && Stored(tables, entries, Post(form), services, audioId, now) == entries
  {
  }

  /** A missing or unknown persona id renders what the id "1" renders: the
      outcome is produced from entry "1"'s rules. */
  lemma UnknownPersonaActsAsDefault(tables: Tables, form: map<string, string>, services: Services, audioId: string)
    requires HasDefaults(tables)
    requires "persona" !in form || form["persona"] !in tables.personas
    ensures var page := Handle(tables, Post(form), services, audioId);
      Outcome(page.result, page.error)
      == Respond(TopicOf(form), tables.personas[DefaultId],
                 Lookup(tables.timePeriods, Field(form, "time_period", DefaultId)), services, audioId)
  {
  }

  /** A missing or unknown time id renders what the id "1" renders: the
      outcome is produced for window "1". */
  lemma UnknownTimeActsAsDefault(tables: Tables, form: map<string, string>, services: Services, audioId: string)
    requires HasDefaults(tables)
    requires "time_period" !in form || form["time_period"] !in tables.timePeriods
    ensures var page := Handle(tables, Post(form), services, audioId);
      Outcome(page.result, page.error)
      == Respond(TopicOf(form), Lookup(tables.personas, Field(form, "persona", DefaultId)),
                 tables.timePeriods[DefaultId], services, audioId)
  {
  }

  /** A result rendered with the site's tables names one of the six
      catalog personas. */
  lemma ResultShowsCatalogLabel(req: Request, services: Services, audioId: string)
    requires HasDefaults(SiteTables)
    requires Handle(SiteTables, req, services, audioId).result.Some?
    ensures Handle(SiteTables, req, services, audioId).result.value.personaLabel in PersonaNames.Values
  {
    SiteTablesHaveDefaults();
    LabelOfAnyId(Handle(SiteTables, req, services, audioId).selectedPersona);
  }

  /** With the site's tables, a result for a form that picks a known
      persona shows that persona's own name. */
  lemma ResultShowsChosenPersona(form: map<string, string>, services: Services, audioId: string)
    requires HasDefaults(SiteTables)
    requires "persona" in form && form["persona"] in Personas
    requires Handle(SiteTables, Post(form), services, audioId).result.Some?
    ensures Handle(SiteTables, Post(form), services, audioId).result.value.personaLabel == PersonaNames[form["persona"]]
  {
    SiteTablesHaveDefaults();
    LabelOfAnyId(form["persona"]);
  }

  /** A rendered result's download name is built from the validated topic,
      so the "bite" fallback of the slug never fires unless the topic is
      literally "bite": the name always carries the topic with spaces made
      "_". */
  lemma ResultSlugIsTopic(tables: Tables, req: Request, services: Services, audioId: string)
    requires HasDefaults(tables)
    requires Handle(tables, req, services, audioId).result.Some?
    ensures var page := Handle(tables, req, services, audioId);
      && page.result.value.filename == Filename(page.topic, audioId)
      && Slug(page.topic) == ReplaceChar(page.topic, ' ', '_')
  {
  }

  /** The validation and the `try` block of `index()` for a POST: renders
      `Respond`'s outcome and stores what `Generate` produced. */
  method Submit(cache: AudioCache, topic: string, personaPrompt: string, period: TimePeriod,
                services: Services, audioId: string, now: real)
    returns (o: Outcome)
    modifies cache
    ensures o == Respond(topic, personaPrompt, period, services, audioId)
    ensures cache.entries == AfterGeneration(old(cache.entries), Generate(topic, personaPrompt, period, services, audioId), audioId, now)
  {
    if topic == [] {
      return Outcome(None, Some(TopicRequired));
    }
    var generation := GenerateDailyBite(cache, topic, personaPrompt, period.query, period.displayLabel,
                                        services, audioId, now);
    match generation
    case Success(g) =>
      o := Outcome(Some(BiteView(g.script, g.audioId, g.filename, PersonaLabel(personaPrompt), topic, period.displayLabel)), None);
    case Failure(e) =>
      o := Outcome(None, Some(FailurePrefix + e));
  }

  /** `index()` with the fresh id and the clock reading passed in: over the
      site's tables it renders `Handle`'s page and leaves the cache as
      `Stored` says. */
  method Index(cache: AudioCache, req: Request, services: Services, audioId: string, now: real)
    returns (page: Page)
    modifies cache
    ensures HasDefaults(SiteTables)
    ensures page == Handle(SiteTables, req, services, audioId)
    ensures cache.entries == Stored(SiteTables, old(cache.entries), req, services, audioId, now)
  {
    SiteTablesHaveDefaults();
    if req.Get? {
      return Page("", DefaultId, DefaultId, None, None);
    }
    var topic := TopicOf(req.form);
    var selectedPersona := Field(req.form, "persona", DefaultId);
    var selectedTime := Field(req.form, "time_period", DefaultId);
    var o := Submit(cache, topic, PersonaPrompt(selectedPersona), LookupTimePeriod(selectedTime), services, audioId, now);
    page := Page(topic, selectedPersona, selectedTime, o.result, o.error);
  }

  /** `serve_audio`: the stored bytes under their download name, played
      inline; 404 for an unknown id; the cache is left as it was. */
  method ServeAudio(cache: AudioCache, audioId: string) returns (reply: Option<AudioReply>)
    ensures reply.Some? <==> audioId in cache.entries
    ensures reply.Some? ==> reply.value == AudioReply(cache.entries[audioId].data, cache.entries[audioId].filename, false)
  {
    var found := cache.Serve(audioId);
    if found.None? {
      return None;
    }
    reply := Some(AudioReply(found.value.data, found.value.filename, false));
  }

  /** `download_audio`: the stored bytes as an attachment, after which the
      id is gone; 404 for an unknown id. */
  method DownloadAudio(cache: AudioCache, audioId: string) returns (reply: Option<AudioReply>)
    modifies cache
    ensures reply.Some? <==> audioId in old(cache.entries)
    ensures reply.Some? ==> reply.value == AudioReply(old(cache.entries)[audioId].data, old(cache.entries)[audioId].filename, true)
    ensures cache.entries == old(cache.entries) - {audioId}
  {
    var found := cache.Download(audioId);
    if found.None? {
      return None;
    }
    reply := Some(AudioReply(found.value.data, found.value.filename, true));
  }

  /** A download is one-shot: the audio it hands out can be neither played
      nor downloaded again. */
  method DownloadThenServe(cache: AudioCache, audioId: string)
    returns (first: Option<AudioReply>, played: Option<AudioReply>, again: Option<AudioReply>)
    modifies cache
    ensures first.Some? <==> audioId in old(cache.entries)
    ensures played.None? && again.None?
    ensures cache.entries == old(cache.entries) - {audioId}
  {
    first := DownloadAudio(cache, audioId);
    played := ServeAudio(cache, audioId);
    again := DownloadAudio(cache, audioId);
  }

  /** A successful POST leaves its audio playable under the id the page
      shows: the whole spoken script, under the page's download name. */
  method GenerateThenServe(cache: AudioCache, req: Request, services: Services, audioId: string, now: real)
    returns (page: Page, reply: Option<AudioReply>)
    modifies cache
    ensures HasDefaults(SiteTables)
    ensures page == Handle(SiteTables, req, services, audioId)
    ensures page.result.Some? ==>
      && reply.Some?
      && reply.value.downloadName == page.result.value.filename
      && !reply.value.asAttachment
      && reply.value.data == Started(SiteTables, req, services, audioId).value.value.audio
  {
    page := Index(cache, req, services, audioId, now);
    reply := None;
    if page.result.Some? {
      reply := ServeAudio(cache, page.result.value.audioId);
    }
  }
}
