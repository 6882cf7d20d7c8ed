/** The static persona and time-window tables of api/index.py and the
    lookups that fall back to entry "1" for an id the table does not know. */
module Catalog {
  import opened Text

  /** One TIME_PERIODS entry: the label shown to the user and the phrase
      appended to the search query. */
  datatype TimePeriod = TimePeriod(displayLabel: string, query: string)

  /** The id every lookup falls back to, and the form fields' default. */
  const DefaultId: string := "1"

  /** How every PERSONAS entry is written: the persona's name, then its rules. */
  function Persona(name: string, rules: string): string
  {
    "Persona: " + name + ". " + rules
  }

  /** The name each PERSONAS entry opens with. */
  const PersonaNames: map<string, string> := map[
    "1" := "Gen-Z Critic",
    "2" := "Gen Alpha",
    "3" := "Old Skool Cool",
    "4" := "Simple / ELI5",
    "5" := "Breaking News Anchor",
    "6" := "William Shakespeare"
  ]

  /** The style rules that follow the name in each PERSONAS entry. */
  const PersonaRules: map<string, string> := map[
    "1" := "Rules: Use high-energy 'hook' first, no " +
           "corporate jargon, use modern slang naturally " +
           "(no cap, bet, vibe).",
    "2" := "Rules: Use extreme internet slang (skibidi, " +
           "fanum tax, rizz, gyatt, ohio). Chaotic energy. " +
           "Call the viewer 'chat'.",
    "3" := "Rules: 90s slang (da bomb, all that, psych, " +
           "as if). Boom bap rhythm. References to 90s " +
           "pop culture.",
    "4" := "Rules: Explain like I'm 5. Very simple words, " +
           "short sentences. Educational and gentle " +
           "tone. No jargon.",
    "5" := "Rules: authoritative, dramatic, urgent. " +
           "Start with 'BREAKING NEWS'. Formal but gripping.",
    "6" := "Rules: Early Modern English. Iambic pentameter. " +
           "Use 'thee', 'thou', 'verily', 'hark'. Dramatic " +
           "and poetic."
  ]

  /** PERSONAS: id to the persona's name and style rules, pasted into the prompt. */
  const Personas: map<string, string> :=
    map id | id in PersonaNames && id in PersonaRules :: Persona(PersonaNames[id], PersonaRules[id])

  /** TIME_PERIODS: id to the lookback window. */
  const TimePeriods: map<string, TimePeriod> := map[
    "1" := TimePeriod("24 hours", "in the last 24 hours"),
    "2" := TimePeriod("3 days", "in the last 3 days"),
    "3" := TimePeriod("1 week", "in the last week"),
    "4" := TimePeriod("1 month", "in the last month"),
    "5" := TimePeriod("3 months", "in the last 3 months"),
    "6" := TimePeriod("6 months", "in the last 6 months"),
    "7" := TimePeriod("1 year", "in the last year"),
    "8" := TimePeriod("5 years", "in the last 5 years")
  ]

  /** `table.get(id, table["1"])`: the id's own entry, or entry "1" for an
      id the table lacks; a table without "1" would raise instead. */
  function Lookup<V(==)>(table: map<string, V>, id: string): (r: V)
    requires DefaultId in table
    ensures r in table.Values
  {
    if id in table then table[id] else table[DefaultId]
  }

  /** In a table whose entries all differ, entry "1" comes back exactly for
      the id "1" and for ids the table lacks. */
  lemma LookupFallback<V>(table: map<string, V>, id: string)
    requires DefaultId in table
    requires forall a, b :: a in table && b in table && a != b ==> table[a] != table[b]
    ensures Lookup(table, id) == table[DefaultId] <==> (id == DefaultId || id !in table)
  {
  }

  /** `PERSONAS.get(id, PERSONAS["1"])`: never fails, always a table entry. */
  function PersonaPrompt(id: string): (r: string)
    ensures r in Personas.Values
  {
    assert DefaultId in PersonaNames && DefaultId in PersonaRules;
    Lookup(Personas, id)
  }

  /** `TIME_PERIODS.get(id, TIME_PERIODS["1"])`: never fails, always a table entry. */
  function LookupTimePeriod(id: string): (r: TimePeriod)
    ensures r in TimePeriods.Values
  {
    Lookup(TimePeriods, id)
  }

  /** `persona_prompt.split(".")[0].replace("Persona:", "").strip()`: never
      holds a ".", never starts or ends with whitespace, never longer than
      the rules it comes from. */
  function PersonaLabel(personaPrompt: string): (shown: string)
    ensures '.' !in shown
    ensures shown == [] || (!IsSpace(shown[0]) && !IsSpace(shown[|shown| - 1]))
    ensures |shown| <= |personaPrompt|
  {
    var head := BeforeFirst(personaPrompt, '.');
    var dropped := ReplaceAll(head, "Persona:", "");
    ReplaceAllKeeps(head, "Persona:", "", '.');
    StripWithin(dropped);
    Strip(dropped)
  }

  /** Removing the "Persona:" tag in front of text that has no "P" leaves
      just that text. */
  lemma DropTag(spaced: string)
    requires 'P' !in spaced
    ensures ReplaceAll("Persona:" + spaced, "Persona:", "") == spaced
  {
    ReplaceAllAtStart("Persona:", "", spaced);
    forall k: nat
      ensures !OccursAt(spaced, "Persona:", k)
    {
      if k + 8 <= |spaced| {
        assert spaced[k] in spaced;
        assert spaced[k..k + 8][0] == spaced[k];
      }
    }
  }

  /** The label of rules written the catalog's way is the persona's name,
      for a name without "." or "P" and without surrounding whitespace. */
  lemma {:induction false} PersonaLabelOf(name: string, rules: string)
    requires name != [] && !IsSpace(name[0]) && !IsSpace(name[|name| - 1])
    requires '.' !in name && 'P' !in name
    ensures PersonaLabel(Persona(name, rules)) == name
  {
    var head := "Persona: " + name;
    assert Persona(name, rules) == head + ['.'] + (" " + rules);
    BeforeFirstOf(head, '.', " " + rules);
    var spaced := " " + name;
    assert head == "Persona:" + spaced;
    DropTag(spaced);
    assert IsSpace(' ');
    assert spaced == " " + name + "";
    StripOf(" ", name, "");
  }

  /** The names are well formed: none is blank, none has surrounding
      whitespace, a "." or a "P". */
  lemma PersonaNamesPlain(id: string)
    requires id in PersonaNames
    ensures var name := PersonaNames[id];
      && name != [] && !IsSpace(name[0]) && !IsSpace(name[|name| - 1])
      && '.' !in name && 'P' !in name
  {
  }

  /** Every catalog persona is shown under its own name. */
  lemma PersonaLabels(id: string)
    requires id in Personas
    ensures PersonaLabel(Personas[id]) == PersonaNames[id]
  {
    PersonaNamesPlain(id);
    PersonaLabelOf(PersonaNames[id], PersonaRules[id]);
  }

  /** Whatever id arrives, the label shown is a catalog name: the id's own
      for a known id, that of "1" for any other. */
  lemma LabelOfAnyId(id: string)
    ensures id in Personas ==> PersonaLabel(PersonaPrompt(id)) == PersonaNames[id]
    ensures id !in Personas ==> PersonaLabel(PersonaPrompt(id)) == PersonaNames[DefaultId]
  {
    if id in Personas {
      PersonaLabels(id);
    } else {
      PersonaLabels(DefaultId);
    }
  }

  /** Different persona ids carry different names. */
  lemma PersonaNamesDistinct(a: string, b: string)
    requires a in PersonaNames && b in PersonaNames && a != b
    ensures PersonaNames[a] != PersonaNames[b]
  {
    assert PersonaNames.Keys == {"1", "2", "3", "4", "5", "6"};
  }

  /** Different persona ids name different style rules. */
  lemma PersonasDistinct(a: string, b: string)
    requires a in Personas && b in Personas && a != b
    ensures Personas[a] != Personas[b]
  {
    PersonaNamesDistinct(a, b);
    PersonaLabels(a);
    PersonaLabels(b);
  }

  /** Different time ids name different windows. */
  lemma TimePeriodsDistinct(a: string, b: string)
    requires a in TimePeriods && b in TimePeriods && a != b
    ensures TimePeriods[a] != TimePeriods[b]
  {
    assert TimePeriods.Keys == {"1", "2", "3", "4", "5", "6", "7", "8"};
  }

  /** A known id gets its own rules; any other id gets exactly the rules of
      "1", and only those ids and "1" itself get them. */
  lemma PersonaFallback(id: string)
    ensures id in Personas ==> PersonaPrompt(id) == Personas[id]
    ensures PersonaPrompt(id) == Personas[DefaultId] <==> (id == DefaultId || id !in Personas)
  {
    forall a, b | a in Personas && b in Personas && a != b
      ensures Personas[a] != Personas[b]
    {
      PersonasDistinct(a, b);
    }
    LookupFallback(Personas, id);
  }

  /** A known id gets its own window; any other id gets exactly window "1",
      and only those ids and "1" itself get it. */
  lemma TimePeriodFallback(id: string)
    ensures id in TimePeriods ==> LookupTimePeriod(id) == TimePeriods[id]
    ensures LookupTimePeriod(id) == TimePeriods[DefaultId] <==> (id == DefaultId || id !in TimePeriods)
  {
    forall a, b | a in TimePeriods && b in TimePeriods && a != b
      ensures TimePeriods[a] != TimePeriods[b]
    {
      TimePeriodsDistinct(a, b);
    }
    LookupFallback(TimePeriods, id);
  }
}
