/** The suggestion engine (backend/app/services/suggestion_engine.rb): for one
    transcript message, ask the model for candidates and turn the novel ones
    into stored, broadcast suggestions.

    The pure part — the context window, the previous-suggestion list, the
    candidate classification, the reference resolution, the type alias map
    and the whole call as a function of the store — comes first; the engine
    object that performs the call step by step follows, proved against it. */
module SuggestionEngine {
  import opened Wrappers
  import opened Text
  import opened Json
  import opened SuggestionModel
  import opened Records
  import opened GeminiClient

  /** How many trailing messages the model sees. */
  const ContextSize: nat := 7
  /** How many previous descriptions the prompt lists. */
  const PreviousLimit: nat := 10
  /** How many leading characters of a message identify it in a reference. */
  const ReferencePrefix: nat := 30

  /** `GeminiClient.new.extract_suggestions(context_texts, previous_suggestions)`
      as the engine sees it: a collaborator object. */
  type Extractor = (seq<Option<string>>, seq<Option<string>>) -> Extracted

  /** The extractor the engine uses: the Gemini client over its HTTP and
      JSON collaborators. */
  function Gemini(client: ClientEnv): Extractor {
    (context, prev) => ExtractSuggestions(context, prev, client)
  }

  /** What the engine depends on but cannot see: the extractor (`Gemini` of
      some client), the fuzzy matcher, and whether a suggestion, once
      created, is also appended to the incident object's already loaded
      `suggestions` association (ActiveRecord's inverse bookkeeping decides
      this; it is not visible in the source). */
  datatype Env = Env(extract: Extractor, findBest: Matcher, addsToLoaded: SuggestionRecord -> bool)

  /** The Ruby exceptions that escape `call`. */
  datatype EngineError =
    | ClientFailed(cause: ClientError)  // raised inside `extract_suggestions`
    | NotIterable                       // the parsed answer has no `each`
    | NilContent                        // `msg.content[0, 30]` on a nil content

  /** The store, the incident object's loaded `suggestions` list (None until
      first read), and the exception that ended the call, if any. */
  datatype Progress = Progress(st: StoreState, loaded: Option<seq<SuggestionRecord>>, error: Option<EngineError>)

  // ---------------------------------------------------------------------
  // What the model is told
  // ---------------------------------------------------------------------

  /** The last `n` elements of `s` (all of them when there are fewer). */
  function LastN<T>(s: seq<T>, n: nat): (r: seq<T>)
    ensures |r| == if |s| < n then |s| else n
    ensures r == s[|s| - |r|..]
  {
    if |s| <= n then s else s[|s| - n..]
  }

  /** `TranscriptMessage.where(incident:).order(:created_at).last(7)`: the
      incident's trailing window, oldest first. */
  function Context(st: StoreState, incident: nat): (r: seq<Message>)
    ensures var all := MessagesOf(st.messages, incident);
      |r| == (if |all| < ContextSize then |all| else ContextSize) && r == all[|all| - |r|..]
    ensures forall m :: m in r ==> m in st.messages && m.incidentId == incident
  {
    LastN(MessagesOf(st.messages, incident), ContextSize)
  }

  /** Descriptions of the newest `k` rows of `rs`, newest first. */
  function NewestDescriptions(rs: seq<SuggestionRecord>, k: nat): (r: seq<Option<string>>)
    ensures |r| == if |rs| < k then |rs| else k
    ensures forall i :: 0 <= i < |r| ==> r[i] == rs[|rs| - 1 - i].description
    decreases k
  {
    if k == 0 || |rs| == 0 then []
    else [rs[|rs| - 1].description] + NewestDescriptions(rs[..|rs| - 1], k - 1)
  }

  /** `incident.suggestions.order(created_at: :desc).limit(10).pluck(:description)`. */
  function PreviousDescriptions(st: StoreState, incident: nat): seq<Option<string>> {
    NewestDescriptions(SuggestionsOf(st.suggestions, incident), PreviousLimit)
  }

  // ---------------------------------------------------------------------
  // Candidates
  // ---------------------------------------------------------------------

  /** `suggestions.each`: an Array yields its elements, a Hash its
      `[key, value]` pairs (which the loop then skips); anything else has no
      `each` and raises. */
  function Items(v: Json): (r: Option<seq<Json>>)
    ensures v.JArr? ==> r == Some(v.items)
    ensures r.None? <==> !(v.JArr? || v.JObj?)
    ensures v.JObj? ==> r.Some? && forall i :: 0 <= i < |r.value| ==> r.value[i].JArr?
  {
    match v
    case JArr(items) => Some(items)
    case JObj(fields) => Some(seq(|fields|, i requires 0 <= i < |fields| => JArr([JStr(fields[i].0), fields[i].1])))
    case _ => None
  }

  /** One element of the model's answer, as the loop sees it. */
  datatype Candidate =
    | Structured(kind: Option<string>, title: Option<string>, description: Option<string>, referenced: Option<string>)
    | Plain(text: string)
    | Ignored

  /** `hash[name]` where a string is expected; anything else reads as nil. */
  function TextField(fields: seq<(string, Json)>, name: string): (r: Option<string>)
    ensures r.Some? <==> Lookup(fields, name).JStr?
    ensures r.Some? ==> Lookup(fields, name) == JStr(r.value)
  {
    match Lookup(fields, name)
    case JStr(s) => Some(s)
    case _ => None
  }

  /** `is_a?(Hash)`, `is_a?(String)`, or neither. */
  function Classify(item: Json): Candidate {
    match item
    case JObj(fields) =>
      Structured(TextField(fields, "type"), TextField(fields, "title"),
                 TextField(fields, "description"), TextField(fields, "referenced_message"))
    case JStr(s) => Plain(s)
    case _ => Ignored
  }

  // ---------------------------------------------------------------------
  // The type alias map
  // ---------------------------------------------------------------------

  /** `type_map` in `create_suggestion`: the display labels and the enum
      names. */
  const TypeAliases: map<string, SuggestionType> := map[
    "Action Item" := ActionItem,
    "Trigger Event" := TriggerEvent,
    "Root Cause" := RootCause,
    "Missing Metadata" := Metadata,
    "action_item" := ActionItem,
    "trigger_event" := TriggerEvent,
    "root_cause" := RootCause,
    "metadata" := Metadata]

  /** `type_map[kind] || :metadata`. */
  function TypeFromKind(kind: Option<string>): SuggestionType {
    if kind.Some? && kind.value in TypeAliases then TypeAliases[kind.value] else Metadata
  }

  /** The eight listed strings map to their enum values. */
  lemma TypeFromKindListed()
    ensures TypeFromKind(Some("Action Item")) == ActionItem && TypeFromKind(Some("action_item")) == ActionItem
    ensures TypeFromKind(Some("Trigger Event")) == TriggerEvent && TypeFromKind(Some("trigger_event")) == TriggerEvent
    ensures TypeFromKind(Some("Root Cause")) == RootCause && TypeFromKind(Some("root_cause")) == RootCause
    ensures TypeFromKind(Some("Missing Metadata")) == Metadata && TypeFromKind(Some("metadata")) == Metadata
  {
  }

  /** Every type's enum name maps back to that type. */
  lemma TypeFromKindOfName(t: SuggestionType)
    ensures TypeFromKind(Some(Name(t))) == t
  {
  }

  /** A missing type, or any string outside the map (the casing matters),
      becomes `metadata`. */
  lemma TypeFromKindDefault(kind: Option<string>)
    requires kind.Some? ==> kind.value !in TypeAliases
    ensures TypeFromKind(kind) == Metadata
  {
  }

  // ---------------------------------------------------------------------
  // Reference resolution
  // ---------------------------------------------------------------------

  /** `ref.include?(msg.content[0, 30])`. */
  predicate Matches(m: Message, ref: string) {
    m.content.Some? && Contains(ref, Take(m.content.value, ReferencePrefix))
  }

  /** Each of the first `n` messages of `ms` has content and none of them
      matches. */
  predicate NoneMatch(ms: seq<Message>, ref: string, n: nat)
    requires n <= |ms|
  {
    forall j :: 0 <= j < n ==> ms[j].content.Some? && !Matches(ms[j], ref)
  }

  /** Where `context.find` stops: at a match, at a nil content (which
      raises), or at the end. */
  datatype Scan = Found(index: nat) | NilAt(index: nat) | NotFound

  /** `context.find { |msg| ref.include?(msg.content[0, 30]) }`, oldest first. */
  function ScanReferenced(context: seq<Message>, ref: string): (r: Scan)
    ensures r.Found? ==> r.index < |context| && Matches(context[r.index], ref) && NoneMatch(context, ref, r.index)
    ensures r.NilAt? ==> r.index < |context| && context[r.index].content.None? && NoneMatch(context, ref, r.index)
    ensures r.NotFound? ==> NoneMatch(context, ref, |context|)
    decreases |context|
  {
    if |context| == 0 then NotFound
    else if context[0].content.None? then NilAt(0)
    else if Matches(context[0], ref) then Found(0)
    else
      match ScanReferenced(context[1..], ref)
      case Found(k) => Found(k + 1)
      case NilAt(k) => NilAt(k + 1)
      case NotFound => NotFound
  }

  /** `referenced = context.find { ... }; referenced ||= @message`: the
      message a candidate points at, or `Err` where the search raises. */
  function ResolveReference(context: seq<Message>, ref: Option<string>, trigger: Message): (r: Result<Message>)
    ensures ref.None? ==> r == Ok(trigger)
    ensures ref.Some? && NoneMatch(context, ref.value, |context|) ==> r == Ok(trigger)
    ensures r.Ok? ==> r.value == trigger || r.value in context
  {
    match ref
    case None => Ok(trigger)
    case Some(s) =>
      match ScanReferenced(context, s)
      case Found(k) => Ok(context[k])
      case NilAt(_) => Err
      case NotFound =>
        Ok(trigger)
  }

  /** The first context message, oldest first, whose opening characters
      occur in the reference is the one referenced. */
  lemma FirstMatchIsReferenced(context: seq<Message>, ref: string, trigger: Message, k: nat)
    requires k < |context| && Matches(context[k], ref) && NoneMatch(context, ref, k)
    ensures ResolveReference(context, Some(ref), trigger) == Ok(context[k])
  {
  }

  /** A nil content met before any match makes the search raise. */
  lemma NilContentBeforeMatchRaises(context: seq<Message>, ref: string, trigger: Message, k: nat)
    requires k < |context| && context[k].content.None? && NoneMatch(context, ref, k)
    ensures ResolveReference(context, Some(ref), trigger).Err?
  {
  }

  // ---------------------------------------------------------------------
  // Creating suggestions
  // ---------------------------------------------------------------------

  /** The row `Suggestion.create!` writes for a candidate pointing at `m`:
      incident, message and content all come from `m`. */
  function NewRecord(st: StoreState, kind: Option<string>, title: Option<string>, description: Option<string>, m: Message): SuggestionRecord {
    SuggestionRecord(st.clock, m.incidentId, m.id, TypeFromKind(kind), title, description, m.content, st.clock)
  }

  /** `create_suggestion` after a novelty check that loaded `recent`: the
      row is stored and broadcast. */
  function Created(st: StoreState, recent: seq<SuggestionRecord>, r: SuggestionRecord, env: Env): Progress {
    Progress(AddSuggestion(st, r), Some(if env.addsToLoaded(r) then recent + [r] else recent), None)
  }

  /** One turn of the `suggestions.each` loop. */
  function ProcessCandidate(st: StoreState, loaded: Option<seq<SuggestionRecord>>, trigger: Message,
                            context: seq<Message>, item: Json, env: Env): Progress
  {
    match Classify(item)
    case Ignored => Progress(st, loaded, None)
    case Plain(s) =>
      var recent := LoadedSuggestions(st, loaded, trigger.incidentId);
      if !IsNovelAndValuable(Some(s), Descriptions(recent), env.findBest) then Progress(st, Some(recent), None)
      else Created(st, recent, NewRecord(st, Some("metadata"), None, Some(s), trigger), env)
    case Structured(kind, title, description, ref) =>
      var recent := LoadedSuggestions(st, loaded, trigger.incidentId);
      if !IsNovelAndValuable(description, Descriptions(recent), env.findBest) then Progress(st, Some(recent), None)
      else
        match ResolveReference(context, ref, trigger)
        case Err => Progress(st, Some(recent), Some(NilContent))
        case Ok(m) => Created(st, recent, NewRecord(st, kind, title, description, m), env)
  }

  /** The loop over `items`, in order, stopping at the first exception. */
  function ProcessAll(st: StoreState, loaded: Option<seq<SuggestionRecord>>, trigger: Message,
                      context: seq<Message>, items: seq<Json>, env: Env): Progress
    decreases |items|
  {
    if |items| == 0 then Progress(st, loaded, None)
    else
      var p := ProcessAll(st, loaded, trigger, context, items[..|items| - 1], env);
      if p.error.Some? then p
      else ProcessCandidate(p.st, p.loaded, trigger, context, items[|items| - 1], env)
  }

  /** `SuggestionEngine.new(trigger).call`, where `loaded` is the state of
      the `suggestions` association of the trigger's incident object. */
  function EngineCall(st: StoreState, loaded: Option<seq<SuggestionRecord>>, trigger: Message, env: Env): Progress {
    var context := Context(st, trigger.incidentId);
    match env.extract(Contents(context), PreviousDescriptions(st, trigger.incidentId))
    case Raised(e) => Progress(st, loaded, Some(ClientFailed(e)))
    case Extracted(v) =>
      match Items(v)
      case None => Progress(st, loaded, Some(NotIterable))
      case Some(items) => ProcessAll(st, loaded, trigger, context, items, env)
  }

  /** A candidate that is neither a Hash nor a String is skipped. */
  lemma IgnoredCandidateSkipped(st: StoreState, loaded: Option<seq<SuggestionRecord>>, trigger: Message,
                                context: seq<Message>, item: Json, env: Env)
    requires !item.JObj? && !item.JStr?
    ensures ProcessCandidate(st, loaded, trigger, context, item, env) == Progress(st, loaded, None)
  {
  }

  /** A candidate whose description fails the novelty gate creates nothing
      and raises nothing; a String candidate is judged with the string
      itself as its description. */
  lemma RejectedCandidateCreatesNothing(st: StoreState, loaded: Option<seq<SuggestionRecord>>, trigger: Message,
                                        context: seq<Message>, item: Json, env: Env)
    requires item.JObj? || item.JStr?
    requires var description := if item.JStr? then Some(item.s) else TextField(item.fields, "description");
      !IsNovelAndValuable(description, Descriptions(LoadedSuggestions(st, loaded, trigger.incidentId)), env.findBest)
    ensures var p := ProcessCandidate(st, loaded, trigger, context, item, env);
      p.st == st && p.error.None?
  {
  }

  /** An accepted String candidate becomes a `metadata` suggestion with no
      title, the string as its description, pointing at the trigger. */
  lemma PlainCandidateCreatesMetadata(st: StoreState, loaded: Option<seq<SuggestionRecord>>, trigger: Message,
                                      context: seq<Message>, s: string, env: Env)
    requires IsNovelAndValuable(Some(s), Descriptions(LoadedSuggestions(st, loaded, trigger.incidentId)), env.findBest)
    ensures var p := ProcessCandidate(st, loaded, trigger, context, JStr(s), env);
      p.error.None? &&
      p.st == AddSuggestion(st, SuggestionRecord(st.clock, trigger.incidentId, trigger.id, Metadata, None, Some(s), trigger.content, st.clock))
  {
    TypeFromKindListed();
  }

  /** An accepted Hash candidate becomes a suggestion of the mapped type,
      with the candidate's title and description, and the incident, id and
      content of the message its reference resolves to. */
  lemma StructuredCandidateCreates(st: StoreState, loaded: Option<seq<SuggestionRecord>>, trigger: Message,
                                   context: seq<Message>, fields: seq<(string, Json)>, m: Message, env: Env)
    requires IsNovelAndValuable(TextField(fields, "description"),
                                Descriptions(LoadedSuggestions(st, loaded, trigger.incidentId)), env.findBest)
    requires ResolveReference(context, TextField(fields, "referenced_message"), trigger) == Ok(m)
    ensures var p := ProcessCandidate(st, loaded, trigger, context, JObj(fields), env);
      p.error.None? &&
      p.st == AddSuggestion(st, SuggestionRecord(st.clock, m.incidentId, m.id, TypeFromKind(TextField(fields, "type")),
                                                 TextField(fields, "title"), TextField(fields, "description"),
                                                 m.content, st.clock))
  {
    var recent := LoadedSuggestions(st, loaded, trigger.incidentId);
    var r := NewRecord(st, TextField(fields, "type"), TextField(fields, "title"), TextField(fields, "description"), m);
    assert Classify(JObj(fields)) == Structured(TextField(fields, "type"), TextField(fields, "title"),
                                                TextField(fields, "description"), TextField(fields, "referenced_message"));
    assert ProcessCandidate(st, loaded, trigger, context, JObj(fields), env) == Created(st, recent, r, env);
  }

  /** A Hash candidate whose reference search meets a nil content raises,
      after the novelty gate, and creates nothing. */
  lemma NilContentRaises(st: StoreState, loaded: Option<seq<SuggestionRecord>>, trigger: Message,
                         context: seq<Message>, fields: seq<(string, Json)>, env: Env)
    requires IsNovelAndValuable(TextField(fields, "description"),
                                Descriptions(LoadedSuggestions(st, loaded, trigger.incidentId)), env.findBest)
    requires ResolveReference(context, TextField(fields, "referenced_message"), trigger).Err?
    ensures var p := ProcessCandidate(st, loaded, trigger, context, JObj(fields), env);
      p.st == st && p.error == Some(NilContent)
  {
  }

  /** A failure inside the client, or an answer with no `each`, ends the
      call before anything is created. */
  lemma FailedExtractionCreatesNothing(st: StoreState, loaded: Option<seq<SuggestionRecord>>, trigger: Message, env: Env)
    requires var context := Context(st, trigger.incidentId);
      var reply := env.extract(Contents(context), PreviousDescriptions(st, trigger.incidentId));
      reply.Raised? || Items(reply.suggestions).None?
    ensures var p := EngineCall(st, loaded, trigger, env);
      p.st == st && p.loaded == loaded && p.error.Some?
  {
  }

  // ---------------------------------------------------------------------
  // What a call does to the store
  // ---------------------------------------------------------------------

  /** The broadcast payloads of `rs`, in order. */
  function AsJsonAll(rs: seq<SuggestionRecord>): seq<Json>
    decreases |rs|
  {
    if |rs| == 0 then [] else AsJsonAll(rs[..|rs| - 1]) + [AsJson(rs[|rs| - 1])]
  }

  /** A row created by the engine: id and tick `id` from the counter, the
      engine's incident, and a message of `sources` as its reference. */
  predicate FreshRow(r: SuggestionRecord, id: nat, incident: nat, sources: seq<Message>) {
    r.id == id && r.createdAt == id && r.incidentId == incident && Referenced(sources, r)
  }

  /** `st'` is `st` with rows appended to the suggestions table, each
      broadcast once as its `as_json`, in creation order, and nothing else
      changed. */
  predicate Appended(st: StoreState, st': StoreState, incident: nat, sources: seq<Message>) {
    var n := |st.suggestions|;
    st'.messages == st.messages &&
    n <= |st'.suggestions| && st'.suggestions[..n] == st.suggestions &&
    st'.clock == st.clock + (|st'.suggestions| - n) &&
    st'.broadcasts == st.broadcasts + AsJsonAll(st'.suggestions[n..]) &&
    forall i :: n <= i < |st'.suggestions| ==> FreshRow(st'.suggestions[i], st.clock + (i - n), incident, sources)
  }

  /** An accepted description is at least 10 characters long once normalised
      and differs, once normalised, from that of every row of `base`. */
  predicate NovelAgainst(r: SuggestionRecord, base: seq<SuggestionRecord>) {
    |NormalDescription(r.description)| >= 10 &&
    forall x :: x in base ==> NormalDescription(x.description) != NormalDescription(r.description)
  }

  /** Normalised descriptions of `rs` are pairwise distinct. */
  predicate Distinct(rs: seq<SuggestionRecord>) {
    forall i, j :: 0 <= i < j < |rs| ==> NormalDescription(rs[i].description) != NormalDescription(rs[j].description)
  }

  /** The incident object's loaded list, if any, is the incident's rows. */
  predicate InSync(st: StoreState, loaded: Option<seq<SuggestionRecord>>, incident: nat) {
    loaded.None? || loaded.value == SuggestionsOf(st.suggestions, incident)
  }

  /** What the novelty gate's acceptance says about the history it saw. */
  lemma AcceptedIsNovel(description: Option<string>, recent: seq<SuggestionRecord>, findBest: Matcher)
    requires IsNovelAndValuable(description, Descriptions(recent), findBest)
    ensures |NormalDescription(description)| >= 10
    ensures forall x :: x in recent ==> NormalDescription(x.description) != NormalDescription(description)
  {
    forall x | x in recent
      ensures NormalDescription(x.description) != NormalDescription(description)
    {
      var j :| 0 <= j < |recent| && recent[j] == x;
      assert Descriptions(recent)[j] == x.description;
    }
  }

  /** One turn of the loop either leaves the store alone or appends one row
      that is fresh, points at the trigger or a context message, and passed
      the novelty gate against the list the incident object returned. */
  lemma CandidateStep(st: StoreState, loaded: Option<seq<SuggestionRecord>>, trigger: Message,
                      context: seq<Message>, item: Json, env: Env) returns (created: Option<SuggestionRecord>)
    requires forall m :: m in context ==> m.incidentId == trigger.incidentId
    ensures var p := ProcessCandidate(st, loaded, trigger, context, item, env);
      var recent := LoadedSuggestions(st, loaded, trigger.incidentId);
      (created.None? ==> p.st == st && (p.loaded == loaded || p.loaded == Some(recent))) &&
      (created.Some? ==>
        p.st == AddSuggestion(st, created.value) && p.error.None? &&
        FreshRow(created.value, st.clock, trigger.incidentId, context + [trigger]) &&
        NovelAgainst(created.value, recent) &&
        p.loaded == Some(if env.addsToLoaded(created.value) then recent + [created.value] else recent))
  {
    var recent := LoadedSuggestions(st, loaded, trigger.incidentId);
    var sources := context + [trigger];
    match Classify(item)
    case Ignored =>
      created := None;
    case Plain(s) =>
      if IsNovelAndValuable(Some(s), Descriptions(recent), env.findBest) {
        var r := NewRecord(st, Some("metadata"), None, Some(s), trigger);
        AcceptedIsNovel(Some(s), recent, env.findBest);
        assert trigger in sources;
        created := Some(r);
      } else {
        created := None;
      }
    case Structured(kind, title, description, ref) =>
      if IsNovelAndValuable(description, Descriptions(recent), env.findBest) {
        match ResolveReference(context, ref, trigger)
        case Err =>
          created := None;
        case Ok(m) =>
          var r := NewRecord(st, kind, title, description, m);
          AcceptedIsNovel(description, recent, env.findBest);
          assert m in sources;
          created := Some(r);
      } else {
        created := None;
      }
  }

  lemma AsJsonAllSnoc(b: seq<Json>, rs: seq<SuggestionRecord>, r: SuggestionRecord, n: nat)
    requires n <= |rs|
    ensures b + AsJsonAll((rs + [r])[n..]) == (b + AsJsonAll(rs[n..])) + [AsJson(r)]
  {
    assert (rs + [r])[n..] == rs[n..] + [r];
    assert (rs[n..] + [r])[..|rs| - n] == rs[n..];
  }

  lemma FreshRowsSnoc(rs: seq<SuggestionRecord>, r: SuggestionRecord, n: nat, clock: nat, incident: nat, sources: seq<Message>)
    requires n <= |rs|
    requires forall i :: n <= i < |rs| ==> FreshRow(rs[i], clock + (i - n), incident, sources)
    requires FreshRow(r, clock + (|rs| - n), incident, sources)
    ensures forall i :: n <= i < |rs + [r]| ==> FreshRow((rs + [r])[i], clock + (i - n), incident, sources)
  {
    forall i | n <= i < |rs + [r]|
      ensures FreshRow((rs + [r])[i], clock + (i - n), incident, sources)
    {
      if i < |rs| {
        assert (rs + [r])[i] == rs[i];
      }
    }
  }

  /** Appending one more fresh row keeps `Appended`. */
  lemma AppendedStep(st0: StoreState, st1: StoreState, r: SuggestionRecord, incident: nat, sources: seq<Message>)
    requires Appended(st0, st1, incident, sources)
    requires FreshRow(r, st1.clock, incident, sources)
    ensures Appended(st0, AddSuggestion(st1, r), incident, sources)
  {
    var n := |st0.suggestions|;
    var s1 := st1.suggestions;
    var st2 := AddSuggestion(st1, r);
    assert st2.suggestions[..n] == st0.suggestions by {
      assert (s1 + [r])[..n] == s1[..n];
    }
    AsJsonAllSnoc(st0.broadcasts, s1, r, n);
    assert forall i :: n <= i < |st2.suggestions| ==> FreshRow(st2.suggestions[i], st0.clock + (i - n), incident, sources) by {
      FreshRowsSnoc(s1, r, n, st0.clock, incident, sources);
    }
  }

  /** The loop appends fresh rows only, each passed the novelty gate against
      every row the incident object's list held when the loop began (the
      table's rows of the incident when it was not loaded yet). */
  lemma {:induction false} ProcessAllAppends(st: StoreState, loaded: Option<seq<SuggestionRecord>>, trigger: Message,
                                             context: seq<Message>, items: seq<Json>, env: Env)
    requires forall m :: m in context ==> m.incidentId == trigger.incidentId
    ensures var p := ProcessAll(st, loaded, trigger, context, items, env);
      var base := LoadedSuggestions(st, loaded, trigger.incidentId);
      Appended(st, p.st, trigger.incidentId, context + [trigger]) &&
      (forall i :: |st.suggestions| <= i < |p.st.suggestions| ==> NovelAgainst(p.st.suggestions[i], base)) &&
      (if p.loaded.None? then loaded.None? && p.st == st else forall x :: x in base ==> x in p.loaded.value)
    decreases |items|
  {
    if |items| == 0 {
      assert st.suggestions[|st.suggestions|..] == [];
    } else {
      var prev := ProcessAll(st, loaded, trigger, context, items[..|items| - 1], env);
      ProcessAllAppends(st, loaded, trigger, context, items[..|items| - 1], env);
      if prev.error.None? {
        var created := CandidateStep(prev.st, prev.loaded, trigger, context, items[|items| - 1], env);
        var p := ProcessAll(st, loaded, trigger, context, items, env);
        if created.Some? {
          CreatedAppends(st, loaded, trigger.incidentId, context + [trigger], prev, p, created.value,
                         env.addsToLoaded(created.value));
        } else {
          var recent := LoadedSuggestions(prev.st, prev.loaded, trigger.incidentId);
          assert forall x :: x in LoadedSuggestions(st, loaded, trigger.incidentId) ==> x in recent;
        }
      }
    }
  }

  /** A step from `prev` to `p` that creates one fresh row, novel against
      the list then held (and adds it to the list when `adds`), keeps what
      `ProcessAllAppends` states. */
  lemma CreatedAppends(st: StoreState, loaded: Option<seq<SuggestionRecord>>, inc: nat, sources: seq<Message>,
                       prev: Progress, p: Progress, r: SuggestionRecord, adds: bool)
    requires var base := LoadedSuggestions(st, loaded, inc);
      Appended(st, prev.st, inc, sources) &&
      (forall i :: |st.suggestions| <= i < |prev.st.suggestions| ==> NovelAgainst(prev.st.suggestions[i], base)) &&
      (if prev.loaded.None? then loaded.None? && prev.st == st else forall x :: x in base ==> x in prev.loaded.value)
    requires var recent := LoadedSuggestions(prev.st, prev.loaded, inc);
      p.st == AddSuggestion(prev.st, r) && FreshRow(r, prev.st.clock, inc, sources) && NovelAgainst(r, recent) &&
      p.loaded == Some(if adds then recent + [r] else recent)
    ensures var base := LoadedSuggestions(st, loaded, inc);
      Appended(st, p.st, inc, sources) &&
      (forall i :: |st.suggestions| <= i < |p.st.suggestions| ==> NovelAgainst(p.st.suggestions[i], base)) &&
      forall x :: x in base ==> x in p.loaded.value
  {
    var base := LoadedSuggestions(st, loaded, inc);
    var recent := LoadedSuggestions(prev.st, prev.loaded, inc);
    assert forall x :: x in base ==> x in recent;
    AppendedStep(st, prev.st, r, inc, sources);
    assert NovelAgainst(r, base);
  }

  /** When every created row joins the loaded list, the list stays equal to
      the incident's rows, and no two of them share a normalised
      description. */
  lemma {:induction false} ProcessAllKeepsDistinct(st: StoreState, loaded: Option<seq<SuggestionRecord>>, trigger: Message,
                                                   context: seq<Message>, items: seq<Json>, env: Env)
    requires forall r :: env.addsToLoaded(r)
    requires forall m :: m in context ==> m.incidentId == trigger.incidentId
    requires InSync(st, loaded, trigger.incidentId) && Distinct(SuggestionsOf(st.suggestions, trigger.incidentId))
    ensures var p := ProcessAll(st, loaded, trigger, context, items, env);
      InSync(p.st, p.loaded, trigger.incidentId) && Distinct(SuggestionsOf(p.st.suggestions, trigger.incidentId))
    decreases |items|
  {
    var inc := trigger.incidentId;
    if |items| > 0 {
      var prev := ProcessAll(st, loaded, trigger, context, items[..|items| - 1], env);
      ProcessAllKeepsDistinct(st, loaded, trigger, context, items[..|items| - 1], env);
      if prev.error.None? {
        var created := CandidateStep(prev.st, prev.loaded, trigger, context, items[|items| - 1], env);
        var recent := LoadedSuggestions(prev.st, prev.loaded, inc);
        assert recent == SuggestionsOf(prev.st.suggestions, inc);
        if created.Some? {
          var r := created.value;
          SuggestionsOfAppend(prev.st.suggestions, r, inc);
          assert SuggestionsOf(prev.st.suggestions + [r], inc) == recent + [r];
          forall i, j | 0 <= i < j < |recent + [r]|
            ensures NormalDescription((recent + [r])[i].description) != NormalDescription((recent + [r])[j].description)
          {
            if j == |recent| {
              assert (recent + [r])[i] in recent;
            }
          }
        }
      }
    }
  }

  /** A call leaves the messages alone and appends rows to the suggestions
      table, each pointing at the trigger or a message of its context window
      and carrying that message's incident and content, each broadcast once
      right after it is created; each passed the novelty gate against every
      row the incident object's list held when the call began. */
  lemma CallAppends(st: StoreState, loaded: Option<seq<SuggestionRecord>>, trigger: Message, env: Env)
    ensures var p := EngineCall(st, loaded, trigger, env);
      Appended(st, p.st, trigger.incidentId, Context(st, trigger.incidentId) + [trigger]) &&
      forall i :: |st.suggestions| <= i < |p.st.suggestions| ==>
        NovelAgainst(p.st.suggestions[i], LoadedSuggestions(st, loaded, trigger.incidentId))
  {
    var context := Context(st, trigger.incidentId);
    var reply := env.extract(Contents(context), PreviousDescriptions(st, trigger.incidentId));
    var p := EngineCall(st, loaded, trigger, env);
    if reply.Extracted? && Items(reply.suggestions).Some? {
      ProcessAllAppends(st, loaded, trigger, context, Items(reply.suggestions).value, env);
      assert p == ProcessAll(st, loaded, trigger, context, Items(reply.suggestions).value, env);
    } else {
      assert p.st == st;
      AppendedNothing(st, trigger.incidentId, context + [trigger]);
    }
  }

  /** Appending no rows is an `Appended` step. */
  lemma AppendedNothing(st: StoreState, incident: nat, sources: seq<Message>)
    ensures Appended(st, st, incident, sources)
  {
    assert st.suggestions[|st.suggestions|..] == [];
  }

  /** When every created row joins the loaded list and the list is in step
      with the table, a call keeps the incident's normalised descriptions
      pairwise distinct. */
  lemma CallKeepsDistinct(st: StoreState, loaded: Option<seq<SuggestionRecord>>, trigger: Message, env: Env)
    requires forall r :: env.addsToLoaded(r)
    requires InSync(st, loaded, trigger.incidentId) && Distinct(SuggestionsOf(st.suggestions, trigger.incidentId))
    ensures var p := EngineCall(st, loaded, trigger, env);
      InSync(p.st, p.loaded, trigger.incidentId) && Distinct(SuggestionsOf(p.st.suggestions, trigger.incidentId))
  {
    var context := Context(st, trigger.incidentId);
    var reply := env.extract(Contents(context), PreviousDescriptions(st, trigger.incidentId));
    var p := EngineCall(st, loaded, trigger, env);
    if reply.Extracted? && Items(reply.suggestions).Some? {
      ProcessAllKeepsDistinct(st, loaded, trigger, context, Items(reply.suggestions).value, env);
      assert p == ProcessAll(st, loaded, trigger, context, Items(reply.suggestions).value, env);
    } else {
      assert p.st == st && p.loaded == loaded;
    }
  }

  /** Rows appended as a call appends them keep the tables consistent when
      every possible reference is a stored message. */
  lemma AppendedWellFormed(st: StoreState, st': StoreState, incident: nat, sources: seq<Message>)
    requires WellFormed(st) && Appended(st, st', incident, sources)
    requires forall m :: m in sources ==> m in st.messages
    ensures WellFormed(st')
  {
    var n := |st.suggestions|;
    forall i | 0 <= i < |st'.suggestions|
      ensures st'.suggestions[i].id < st'.clock && Referenced(st'.messages, st'.suggestions[i])
    {
      if i < n {
        assert st'.suggestions[i] == st.suggestions[i];
      } else {
        var r := st'.suggestions[i];
        var m :| m in sources && m.id == r.transcriptMessageId && m.incidentId == r.incidentId && m.content == r.content;
        assert m in st'.messages;
      }
    }
    forall i, j | 0 <= i < j < |st'.suggestions|
      ensures st'.suggestions[i].id < st'.suggestions[j].id
    {
      if j < n {
        assert st'.suggestions[i] == st.suggestions[i] && st'.suggestions[j] == st.suggestions[j];
      } else if i < n {
        assert st'.suggestions[i] == st.suggestions[i];
      }
    }
  }

  /** A call on a stored trigger keeps the tables consistent. */
  lemma CallWellFormed(st: StoreState, loaded: Option<seq<SuggestionRecord>>, trigger: Message, env: Env)
    requires WellFormed(st) && trigger in st.messages
    ensures WellFormed(EngineCall(st, loaded, trigger, env).st)
  {
    CallAppends(st, loaded, trigger, env);
    AppendedWellFormed(st, EngineCall(st, loaded, trigger, env).st, trigger.incidentId, Context(st, trigger.incidentId) + [trigger]);
  }

  /** Once an exception has ended the loop, later candidates change
      nothing. */
  lemma {:induction false} ErrorStops(st: StoreState, loaded: Option<seq<SuggestionRecord>>, trigger: Message,
                                      context: seq<Message>, items: seq<Json>, k: nat, env: Env)
    requires k <= |items|
    requires ProcessAll(st, loaded, trigger, context, items[..k], env).error.Some?
    ensures ProcessAll(st, loaded, trigger, context, items, env) == ProcessAll(st, loaded, trigger, context, items[..k], env)
    decreases |items| - k
  {
    if k < |items| {
      var shorter := items[..|items| - 1];
      assert shorter[..k] == items[..k];
      ErrorStops(st, loaded, trigger, context, shorter, k, env);
    } else {
      assert items[..k] == items;
    }
  }

  // ---------------------------------------------------------------------
  // The engine object
  // ---------------------------------------------------------------------

  /** `SuggestionEngine`: holds the triggering message and, through it, the
      incident object whose `suggestions` association the novelty gate
      reads. */
  class Engine {
    const message: Message
    const incident: Incident

    constructor (message: Message, incident: Incident)
      requires incident.id == message.incidentId
      ensures this.message == message && this.incident == incident
    {
      this.message := message;
      this.incident := incident;
    }

    /** `call`: the store, the incident object and the exception raised, if
        any, are those the specification `Call` gives. */
    method Call(store: Store, env: Env) returns (error: Option<EngineError>)
      requires incident.id == message.incidentId
      modifies store, incident
      ensures Progress(store.State(), incident.loaded, error) == EngineCall(old(store.State()), old(incident.loaded), message, env)
    {
      var context := Context(store.State(), message.incidentId);
      var previous := PreviousDescriptions(store.State(), message.incidentId);
      var reply := env.extract(Contents(context), previous);
      if reply.Raised? {
        return Some(ClientFailed(reply.error));
      }
      var answer := Items(reply.suggestions);
      if answer.None? {
        return Some(NotIterable);
      }
      error := ProcessItems(store, env, context, answer.value);
    }

    /** `suggestions.each`: the candidates processed in order until one raises. */
    method ProcessItems(store: Store, env: Env, context: seq<Message>, items: seq<Json>) returns (error: Option<EngineError>)
      requires incident.id == message.incidentId
      modifies store, incident
      ensures Progress(store.State(), incident.loaded, error) ==
        ProcessAll(old(store.State()), old(incident.loaded), message, context, items, env)
    {
      ghost var st0 := store.State();
      ghost var loaded0 := incident.loaded;
      var i := 0;
      while i < |items|
        invariant 0 <= i <= |items|
        invariant ProcessAll(st0, loaded0, message, context, items[..i], env) == Progress(store.State(), incident.loaded, None)
      {
        assert items[..i + 1][..i] == items[..i];
        error := ProcessItem(store, env, context, items[i]);
        if error.Some? {
          ErrorStops(st0, loaded0, message, context, items, i + 1, env);
          return;
        }
        i := i + 1;
      }
      assert items[..i] == items;
      return None;
    }

    /** The body of the `suggestions.each` block for one candidate. */
    method ProcessItem(store: Store, env: Env, context: seq<Message>, item: Json) returns (error: Option<EngineError>)
      requires incident.id == message.incidentId
      modifies store, incident
      ensures Progress(store.State(), incident.loaded, error) ==
        ProcessCandidate(old(store.State()), old(incident.loaded), message, context, item, env)
    {
      error := None;
      match Classify(item) {
        case Ignored =>
        case Plain(s) =>
          var recent := incident.Suggestions(store);
          if IsNovelAndValuable(Some(s), Descriptions(recent), env.findBest) {
            CreateSuggestion(store, env, recent, Some("metadata"), None, Some(s), message);
          }
        case Structured(kind, title, description, ref) =>
          var recent := incident.Suggestions(store);
          if IsNovelAndValuable(description, Descriptions(recent), env.findBest) {
            var referenced := ResolveReference(context, ref, message);
            if referenced.Err? {
              return Some(NilContent);
            }
            CreateSuggestion(store, env, recent, kind, title, description, referenced.value);
          }
      }
    }

    /** `create_suggestion`: the row is created from the referenced message
        and broadcast; the incident object's loaded list gains it when the
        environment says the association tracks it. */
    method CreateSuggestion(store: Store, env: Env, recent: seq<SuggestionRecord>, kind: Option<string>,
                            title: Option<string>, description: Option<string>, referenced: Message)
      requires incident.loaded == Some(recent)
      modifies store, incident
      ensures Progress(store.State(), incident.loaded, None) ==
        Created(old(store.State()), recent, NewRecord(old(store.State()), kind, title, description, referenced), env)
    {
      var r := store.CreateSuggestion(referenced.incidentId, referenced.id, TypeFromKind(kind), title, description, referenced.content);
      if env.addsToLoaded(r) {
        incident.Track(r);
      }
      store.Broadcast(AsJson(r));
    }
  }
}
