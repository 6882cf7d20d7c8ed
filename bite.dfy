/** The pipeline of `generate_daily_bite` in api/index.py: the search query,
    the context block, the prompt, the download name, the draining of the
    speech stream, and the insert into the audio cache. The three external
    services are handed in as functions; an exception they raise is a
    `Failure` carrying its message. */
module Bite {
  import opened Wrappers
  import opened Text
  import opened AudioStore

  /** One item of the search response's "results". */
  datatype SearchResult = SearchResult(title: string, content: string)

  /** The web search, the chat completion and the text-to-speech stream. */
  datatype Services = Services(
    search: string -> Result<seq<SearchResult>, string>,
    complete: string -> Result<string, string>,
    synthesize: string -> Result<seq<seq<byte>>, string>)

  /** What `generate_daily_bite` returns. */
  datatype Generation = Generation(script: string, audioId: string, filename: string)

  /** Everything one successful run produces, audio included. */
  datatype Bite = Bite(script: string, audioId: string, filename: string, audio: seq<byte>)

  const QueryInfix: string := " trends, changes, developments, and key events "

  /** The query sent to the web search. */
  function SearchQuery(topic: string, timeQuery: string): string
  {
    topic + QueryInfix + timeQuery
  }

  /** The query starts with the topic, ends with the time phrase, and keeps
      the two apart, so one time phrase never makes two topics collide. */
  lemma SearchQueryParts(topic: string, timeQuery: string)
    ensures OccursAt(SearchQuery(topic, timeQuery), topic, 0)
    ensures OccursAt(SearchQuery(topic, timeQuery), QueryInfix, |topic|)
    ensures OccursAt(SearchQuery(topic, timeQuery), timeQuery, |topic| + |QueryInfix|)
    ensures |SearchQuery(topic, timeQuery)| == |topic| + |QueryInfix| + |timeQuery|
  {
    var q := SearchQuery(topic, timeQuery);
    assert q[..|topic|] == topic;
    assert q[|topic|..|topic| + |QueryInfix|] == QueryInfix;
    assert q[|topic| + |QueryInfix|..] == timeQuery;
  }

  lemma SearchQueryInjective(t1: string, t2: string, timeQuery: string)
    requires SearchQuery(t1, timeQuery) == SearchQuery(t2, timeQuery)
    ensures t1 == t2
  {
    SearchQueryParts(t1, timeQuery);
    SearchQueryParts(t2, timeQuery);
  }

  /** One line of the context block: `f"{title}: {content}"`. */
  function ResultLine(r: SearchResult): string
  {
    r.title + ": " + r.content
  }

  /** The list comprehension over the results. */
  function Lines(results: seq<SearchResult>): (lines: seq<string>)
    ensures |lines| == |results|
    ensures forall i :: 0 <= i < |results| ==> lines[i] == ResultLine(results[i])
  {
    seq(|results|, i requires 0 <= i < |results| => ResultLine(results[i]))
  }

  /** The context block: the result lines joined by "\n". */
  function Context(results: seq<SearchResult>): string
  {
    Join(Lines(results), "\n")
  }

  /** Where result `i`'s line starts in the context block. */
  function LineStart(results: seq<SearchResult>, i: nat): nat
    requires i <= |results|
  {
    Offset(Lines(results), "\n", i)
  }

  /** A line is the title, ": " and the content, in that order. */
  lemma ResultLineParts(r: SearchResult)
    ensures OccursAt(ResultLine(r), r.title, 0)
    ensures OccursAt(ResultLine(r), ": ", |r.title|)
    ensures OccursAt(ResultLine(r), r.content, |r.title| + 2)
    ensures |ResultLine(r)| == |r.title| + 2 + |r.content|
  {
    OccursInMiddle(r.title, ": ", r.content);
    OccursAfter(r.title + ": ", r.content);
    assert r.title + ": " + r.content == [] + r.title + (": " + r.content);
    OccursInMiddle([], r.title, ": " + r.content);
  }

  /** Result `i`'s line sits in the context block at LineStart, followed by a
      newline unless it is the last, and the next line starts right after
      that newline: the lines come in the order of the results. */
  lemma ContextHoldsLine(results: seq<SearchResult>, i: nat)
    requires i < |results|
    ensures OccursAt(Context(results), ResultLine(results[i]), LineStart(results, i))
    ensures i + 1 < |results| ==> OccursAt(Context(results), "\n", LineStart(results, i) + |ResultLine(results[i])|)
    ensures LineStart(results, i + 1) == LineStart(results, i) + |ResultLine(results[i])| + 1
  {
    JoinAt(Lines(results), "\n", i);
    if i + 1 < |results| {
      JoinSepAt(Lines(results), "\n", i);
    }
  }

  /** Result `i`'s title sits in the context block where its line starts. */
  lemma ContextHoldsTitle(results: seq<SearchResult>, i: nat)
    requires i < |results|
    ensures OccursAt(Context(results), results[i].title, LineStart(results, i))
  {
    ContextHoldsLine(results, i);
    ResultLineParts(results[i]);
    OccursAtCompose(Context(results), ResultLine(results[i]), results[i].title, LineStart(results, i), 0);
  }

  /** Result `i`'s content sits in the context block after its title and ": ". */
  lemma ContextHoldsContent(results: seq<SearchResult>, i: nat)
    requires i < |results|
    ensures OccursAt(Context(results), results[i].content, LineStart(results, i) + |results[i].title| + 2)
  {
    ContextHoldsLine(results, i);
    ResultLineParts(results[i]);
    OccursAtCompose(Context(results), ResultLine(results[i]), results[i].content,
                    LineStart(results, i), |results[i].title| + 2);
  }

  /** The block is exactly the lines and the newlines between them. */
  lemma ContextLength(results: seq<SearchResult>)
    requires |results| > 0
    ensures |Context(results)| + 1 == LineStart(results, |results|)
  {
    JoinLength(Lines(results), "\n");
  }

  const PromptOpening: string :=
    "\n    You are a viral content creator. Create " +
    "a 30-second video script.\n" +
    "    Simple text only in txt format. No need to add headers.\n" +
    "    "

  const PromptRules: string :=
    "\n    Length: Max 75 words.\n" +
    "    \n" +
    "    IMPORTANT: You are summarizing news/trends from the ENTIRE "

  const PromptExamples: string :=
    " period.\n" +
    "    Focus on the overall journey, major " +
    "shifts, and key milestones during this time " +
    "only, no need to mention the before.\n" +
    "    If there were ups and downs, mention " +
    "both. Show the full picture, not just the " +
    "latest event.\n" +
    "    Example: \"Over the past week, gold " +
    "started strong at $2000, dipped 10% mid-week, " +
    "then rebounded 25% to close higher.\"\n" +
    "    Example: \"Over the last 24 hours, gold " +
    "decided to dive nose down into the 4800s " +
    "waters, where its currently resting and " +
    "probably holding for the weekend\"\n" +
    "    Example: \"Over the past 5 years, NVDA " +
    "stocks were the underdogs, the AI boom brought " +
    "them so high, and they don't seem to be " +
    "stopping any time soon\"  \n" +
    "    \n" +
    "    Note: If you are mentioning numbers, don't add commas.\n" +
    "    "

  /** Text with two holes: `opening`, `first`, `middle`, `second`, `ending`. */
  function FillIn(opening: string, first: string, middle: string, second: string, ending: string): string
  {
    opening + (first + (middle + second + ending))
  }

  /** The two filled-in pieces sit verbatim where the holes are. */
  lemma FillInHolds(opening: string, first: string, middle: string, second: string, ending: string)
    ensures OccursAt(FillIn(opening, first, middle, second, ending), first, |opening|)
    ensures OccursAt(FillIn(opening, first, middle, second, ending), second, |opening| + |first| + |middle|)
  {
    OccursInMiddle(opening, first, middle + second + ending);
    OccursInMiddle(middle, second, ending);
    OccursAtShift(first, middle + second + ending, second, |middle|);
    OccursAtShift(opening, first + (middle + second + ending), second, |first| + |middle|);
  }

  /** The triple-quoted `system_prompt`, indentation and all: the persona's
      rules and the time label go into its two holes. */
  function SystemPrompt(personaPrompt: string, timeLabel: string): string
  {
    FillIn(PromptOpening, personaPrompt, PromptRules, timeLabel, PromptExamples)
  }

  /** The system prompt carries the persona's rules verbatim right after the
      opening lines, and the time label inside the instructions. */
  lemma SystemPromptHoldsPersona(personaPrompt: string, timeLabel: string)
    ensures OccursAt(SystemPrompt(personaPrompt, timeLabel), personaPrompt, |PromptOpening|)
    ensures OccursAt(SystemPrompt(personaPrompt, timeLabel), timeLabel, |PromptOpening| + |personaPrompt| + |PromptRules|)
  {
    FillInHolds(PromptOpening, personaPrompt, PromptRules, timeLabel, PromptExamples);
  }

  const ContextHeading: string := "\n\nContext from "

  /** The drafting instruction that ends the prompt. */
  function Closing(timeLabel: string): string
  {
    "\n\nDraft the script covering the full " + timeLabel + " period:"
  }

  /** `f"{system_prompt}\n\nContext from {time_label}:\n{context}\n\nDraft the script ..."`. */
  function Prompt(systemPrompt: string, timeLabel: string, context: string): string
  {
    systemPrompt + ContextHeading + timeLabel + ":\n" + context + Closing(timeLabel)
  }

  /** Where the context block starts in the prompt. */
  function ContextStart(systemPrompt: string, timeLabel: string): nat
  {
    |systemPrompt| + |ContextHeading| + |timeLabel| + 2
  }

  /** The prompt starts with the system prompt, carries the whole context
      block verbatim, and after it only the drafting instruction. */
  lemma PromptParts(systemPrompt: string, timeLabel: string, context: string)
    ensures OccursAt(Prompt(systemPrompt, timeLabel, context), systemPrompt, 0)
    ensures OccursAt(Prompt(systemPrompt, timeLabel, context), context, ContextStart(systemPrompt, timeLabel))
    ensures OccursAt(Prompt(systemPrompt, timeLabel, context), Closing(timeLabel),
                     ContextStart(systemPrompt, timeLabel) + |context|)
    ensures |Prompt(systemPrompt, timeLabel, context)|
         == ContextStart(systemPrompt, timeLabel) + |context| + |Closing(timeLabel)|
  {
    var before := systemPrompt + ContextHeading + timeLabel + ":\n";
    OccursInMiddle(before, context, Closing(timeLabel));
    OccursAfter(before + context, Closing(timeLabel));
    var p := Prompt(systemPrompt, timeLabel, context);
    assert p[..|systemPrompt|] == systemPrompt;
  }

  /** Whatever occurs in the context block occurs in the prompt, shifted by
      where the block starts. */
  lemma PromptHoldsPiece(systemPrompt: string, timeLabel: string, context: string, piece: string, j: nat)
    requires OccursAt(context, piece, j)
    ensures OccursAt(Prompt(systemPrompt, timeLabel, context), piece, ContextStart(systemPrompt, timeLabel) + j)
  {
    PromptParts(systemPrompt, timeLabel, context);
    OccursAtCompose(Prompt(systemPrompt, timeLabel, context), context, piece, ContextStart(systemPrompt, timeLabel), j);
  }

  /** Whatever occurs in the system prompt occurs at the same place in the prompt. */
  lemma PromptHoldsSystemPiece(systemPrompt: string, timeLabel: string, context: string, piece: string, j: nat)
    requires OccursAt(systemPrompt, piece, j)
    ensures OccursAt(Prompt(systemPrompt, timeLabel, context), piece, j)
  {
    PromptParts(systemPrompt, timeLabel, context);
    OccursAtCompose(Prompt(systemPrompt, timeLabel, context), systemPrompt, piece, 0, j);
  }

  /** The persona's rules reach the completion model, right after the
      opening lines of the prompt. */
  lemma PromptHoldsPersona(personaPrompt: string, timeLabel: string, context: string)
    ensures OccursAt(Prompt(SystemPrompt(personaPrompt, timeLabel), timeLabel, context), personaPrompt, |PromptOpening|)
  {
    SystemPromptHoldsPersona(personaPrompt, timeLabel);
    PromptHoldsSystemPiece(SystemPrompt(personaPrompt, timeLabel), timeLabel, context, personaPrompt, |PromptOpening|);
  }

  /** Every search result's title and content reach the completion model,
      each at its place in the context block. */
  lemma PromptHoldsEveryResult(systemPrompt: string, timeLabel: string, results: seq<SearchResult>)
    ensures forall i :: 0 <= i < |results| ==>
      && Contains(Prompt(systemPrompt, timeLabel, Context(results)), results[i].title)
      && Contains(Prompt(systemPrompt, timeLabel, Context(results)), results[i].content)
  {
    var context := Context(results);
    var p := Prompt(systemPrompt, timeLabel, context);
    forall i | 0 <= i < |results|
      ensures Contains(p, results[i].title) && Contains(p, results[i].content)
    {
      ContextHoldsTitle(results, i);
      PromptHoldsPiece(systemPrompt, timeLabel, context, results[i].title, LineStart(results, i));
      ContextHoldsContent(results, i);
      PromptHoldsPiece(systemPrompt, timeLabel, context, results[i].content, LineStart(results, i) + |results[i].title| + 2);
    }
  }

  /** `topic.replace(" ", "_") or "bite"`: no spaces; "bite" exactly for the
      empty topic and for the topic "bite"; otherwise the topic, character
      for character, with each space turned into "_". */
  function Slug(topic: string): (slug: string)
    ensures ' ' !in slug
    ensures slug == "bite" <==> (topic == "" || topic == "bite")
    ensures topic != "" ==> |slug| == |topic|
    ensures topic != "" ==> forall k :: 0 <= k < |topic| ==> slug[k] == (if topic[k] == ' ' then '_' else topic[k])
  {
    var replaced := ReplaceChar(topic, ' ', '_');
    assert topic == "bite" ==> replaced == "bite";
    if replaced == "" then "bite" else replaced
  }

  /** `s[:8]` of the id: the short id in the download name. */
  function ShortId(audioId: string): (short: string)
    ensures |audioId| >= 8 ==> short == audioId[..8]
    ensures |audioId| < 8 ==> short == audioId
  {
    Take(audioId, 8)
  }

  /** `f"bite_{slug}_{audio_id[:8]}.mp3"`. */
  function Filename(topic: string, audioId: string): string
  {
    "bite_" + (Slug(topic) + "_" + ShortId(audioId)) + ".mp3"
  }

  /** The position of the last `c` in `s`, if any. */
  function LastIndex(s: string, c: char): (r: Option<nat>)
    ensures r.None? ==> c !in s
    ensures r.Some? ==> r.value < |s| && s[r.value] == c && c !in s[r.value + 1..]
  {
    if s == [] then None
    else if s[|s| - 1] == c then Some(|s| - 1)
    else
      var r := LastIndex(s[..|s| - 1], c);
      assert r.Some? ==> s[r.value + 1..] == s[..|s| - 1][r.value + 1..] + [s[|s| - 1]];
      assert s == s[..|s| - 1] + [s[|s| - 1]];
      r
  }

  /** Reads a download name back into its slug and short id: strip "bite_"
      and ".mp3", and split at the last "_". */
  function ParseFilename(name: string): Option<(string, string)>
  {
    if |name| < 9 || name[..5] != "bite_" || name[|name| - 4..] != ".mp3" then None
    else
      var middle := name[5..|name| - 4];
      match LastIndex(middle, '_')
      case None => None
      case Some(i) => Some((middle[..i], middle[i + 1..]))
  }

  /** Splitting at the last `c` finds the `c` that only `b` follows. */
  lemma {:induction false} LastIndexAfter(a: string, c: char, b: string)
    requires c !in b
    ensures LastIndex(a + [c] + b, c) == Some(|a|)
  {
    var s := a + [c] + b;
    if b != [] {
      var front := b[..|b| - 1];
      assert s[|s| - 1] == b[|b| - 1];
      assert s[..|s| - 1] == a + [c] + front;
      LastIndexAfter(a, c, front);
    } else {
      assert s == a + [c];
    }
  }

  /** The three pieces of `p + m + q` can be cut back out. */
  lemma CutThree(p: string, m: string, q: string)
    ensures (p + m + q)[..|p|] == p
    ensures (p + m + q)[|p| + |m|..] == q
    ensures (p + m + q)[|p|..|p| + |m|] == m
  {
  }

  /** The download name can be read back: for an id without "_" (a uuid's hex
      form has none), it yields the slug and the first eight characters of
      the id. */
  lemma FilenameRoundTrip(topic: string, audioId: string)
    requires '_' !in audioId
    ensures ParseFilename(Filename(topic, audioId)) == Some((Slug(topic), ShortId(audioId)))
  {
    var slug, short := Slug(topic), ShortId(audioId);
    assert short == audioId[..|short|];
    var middle := slug + "_" + short;
    CutThree("bite_", middle, ".mp3");
    LastIndexAfter(slug, '_', short);
    CutThree(slug, "_", short);
  }

  /** What `uuid.uuid4().hex` yields: 32 lower-case hex digits. */
  predicate IsHexId(audioId: string) {
    |audioId| == 32 && forall k :: 0 <= k < |audioId| ==> audioId[k] in "0123456789abcdef"
  }

  /** A hex uuid's download name is "bite_", the slug, "_", eight hex digits
      and ".mp3", and reads back to the slug and those eight digits. */
  lemma FilenameShape(topic: string, audioId: string)
    requires IsHexId(audioId)
    ensures |ShortId(audioId)| == 8
    ensures forall k :: 0 <= k < 8 ==> ShortId(audioId)[k] in "0123456789abcdef"
    ensures |Filename(topic, audioId)| == |Slug(topic)| + 18
    ensures ParseFilename(Filename(topic, audioId)) == Some((Slug(topic), audioId[..8]))
  {
    assert '_' !in audioId;
    FilenameRoundTrip(topic, audioId);
  }

  /** All chunks of the speech stream, back to back. */
  function Flatten(chunks: seq<seq<byte>>): seq<byte>
  {
    Join(chunks, [])
  }

  /** Every chunk sits in the flattened audio at the sum of the lengths of
      the chunks before it. */
  lemma FlattenHoldsChunk(chunks: seq<seq<byte>>, i: nat)
    requires i < |chunks|
    ensures OccursAt(Flatten(chunks), chunks[i], Offset(chunks, [], i))
  {
    JoinAt(chunks, [], i);
  }

  /** The flattened audio is exactly as long as all chunks together, also
      for an empty stream. */
  lemma FlattenLength(chunks: seq<seq<byte>>)
    ensures |Flatten(chunks)| == Offset(chunks, [], |chunks|)
  {
    if |chunks| > 0 {
      JoinLength(chunks, []);
    }
  }

  /** The `BytesIO` loop: every chunk written, in order, into one buffer. */
  method Drain(chunks: seq<seq<byte>>) returns (buffer: seq<byte>)
    ensures buffer == Flatten(chunks)
  {
    buffer := [];
    for i := 0 to |chunks|
      invariant buffer == Flatten(chunks[..i])
    {
      JoinSnoc(chunks[..i], chunks[i], []);
      assert chunks[..i + 1] == chunks[..i] + [chunks[i]];
      buffer := buffer + chunks[i];
    }
    assert chunks[..|chunks|] == chunks;
  }

  /** The pipeline as a whole: search, then completion, then speech; the
      first exception ends it with that exception's message. */
  function Produce(topic: string, personaPrompt: string, timeQuery: string, timeLabel: string,
                   services: Services, audioId: string): (r: Result<Bite, string>)
    ensures r.Success? ==> r.value.audioId == audioId && r.value.filename == Filename(topic, audioId)
  {
    match services.search(SearchQuery(topic, timeQuery))
    case Failure(e) => Failure(e)
    case Success(results) =>
      match services.complete(Prompt(SystemPrompt(personaPrompt, timeLabel), timeLabel, Context(results)))
      case Failure(e) => Failure(e)
      case Success(script) =>
        match services.synthesize(script)
        case Failure(e) => Failure(e)
        case Success(chunks) => Success(Bite(script, audioId, Filename(topic, audioId), Flatten(chunks)))
  }

  /** A failed search ends the run with its error whatever the completion
      and speech services would do: neither is consulted. */
  lemma SearchFailureIsFinal(topic: string, personaPrompt: string, timeQuery: string, timeLabel: string,
                             search: string -> Result<seq<SearchResult>, string>,
                             complete1: string -> Result<string, string>,
                             complete2: string -> Result<string, string>,
                             synthesize1: string -> Result<seq<seq<byte>>, string>,
                             synthesize2: string -> Result<seq<seq<byte>>, string>,
                             audioId: string)
    requires search(SearchQuery(topic, timeQuery)).Failure?
    ensures Produce(topic, personaPrompt, timeQuery, timeLabel, Services(search, complete1, synthesize1), audioId)
         == Produce(topic, personaPrompt, timeQuery, timeLabel, Services(search, complete2, synthesize2), audioId)
         == Failure(search(SearchQuery(topic, timeQuery)).error)
  {
  }

  /** A failed completion ends the run with its error whatever the speech
      service would do: it is not consulted. */
  lemma CompletionFailureIsFinal(topic: string, personaPrompt: string, timeQuery: string, timeLabel: string,
                                 search: string -> Result<seq<SearchResult>, string>,
                                 complete: string -> Result<string, string>,
                                 synthesize1: string -> Result<seq<seq<byte>>, string>,
                                 synthesize2: string -> Result<seq<seq<byte>>, string>,
                                 audioId: string)
    requires search(SearchQuery(topic, timeQuery)).Success?
    requires complete(Prompt(SystemPrompt(personaPrompt, timeLabel), timeLabel, Context(search(SearchQuery(topic, timeQuery)).value))).Failure?
    ensures var e := complete(Prompt(SystemPrompt(personaPrompt, timeLabel), timeLabel, Context(search(SearchQuery(topic, timeQuery)).value))).error;
      && Produce(topic, personaPrompt, timeQuery, timeLabel, Services(search, complete, synthesize1), audioId)
         == Produce(topic, personaPrompt, timeQuery, timeLabel, Services(search, complete, synthesize2), audioId)
         == Failure(e)
  {
  }

  /** Once search and completion have succeeded, the speech service
      decides the run: its failure ends the run with its error, and its
      success completes the run with the completion's script, the given id,
      the derived name and all chunks of the audio back to back. */
  lemma ProduceSucceeds(topic: string, personaPrompt: string, timeQuery: string, timeLabel: string,
                        services: Services, audioId: string)
    requires services.search(SearchQuery(topic, timeQuery)).Success?
    requires services.complete(Prompt(SystemPrompt(personaPrompt, timeLabel), timeLabel,
                                      Context(services.search(SearchQuery(topic, timeQuery)).value))).Success?
    ensures var found := services.search(SearchQuery(topic, timeQuery));
      var done := services.complete(Prompt(SystemPrompt(personaPrompt, timeLabel), timeLabel, Context(found.value)));
      var spoken := services.synthesize(done.value);
      && (spoken.Failure? ==> Produce(topic, personaPrompt, timeQuery, timeLabel, services, audioId) == Failure(spoken.error))
      && (spoken.Success? ==> Produce(topic, personaPrompt, timeQuery, timeLabel, services, audioId)
                              == Success(Bite(done.value, audioId, Filename(topic, audioId), Flatten(spoken.value))))
  {
  }

  /** `generate_daily_bite` with the fresh id and the clock reading passed
      in: on success the cache gains exactly the new entry (the whole audio
      and the derived name) and the run's script, id and name come back; on
      any service failure the error comes back and the cache is untouched. */
  method GenerateDailyBite(cache: AudioCache, topic: string, personaPrompt: string, timeQuery: string,
                           timeLabel: string, services: Services, audioId: string, now: real)
    returns (r: Result<Generation, string>)
    modifies cache
    ensures match Produce(topic, personaPrompt, timeQuery, timeLabel, services, audioId)
      case Failure(e) => r == Failure(e) && cache.entries == old(cache.entries)
      case Success(b) =>
        && r == Success(Generation(b.script, audioId, b.filename))
        && cache.entries == old(cache.entries)[audioId := Entry(b.audio, b.filename, now)]
  {
    var found := services.search(SearchQuery(topic, timeQuery));
    if found.Failure? {
      return Failure(found.error);
    }
    var context := Context(found.value);
    var systemPrompt := SystemPrompt(personaPrompt, timeLabel);
    var completed := services.complete(Prompt(systemPrompt, timeLabel, context));
    if completed.Failure? {
      return Failure(completed.error);
    }
    var script := completed.value;
    var spoken := services.synthesize(script);
    if spoken.Failure? {
      return Failure(spoken.error);
    }
    var audio := Drain(spoken.value);
    var filename := Filename(topic, audioId);
    cache.Insert(audioId, Entry(audio, filename, now));
    r := Success(Generation(script, audioId, filename));
  }
}
