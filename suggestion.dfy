/** The Suggestion model (backend/app/models/suggestion.rb): the type enum and
    its stored codes, the persisted row and its JSON form, and the novelty
    gate `is_novel_and_valuable?`. */
module SuggestionModel {
  import opened Wrappers
  import opened Text
  import opened Json

  datatype SuggestionType = ActionItem | TriggerEvent | RootCause | Metadata

  /** The integer stored in the `suggestion_type` column. */
  function Code(t: SuggestionType): (c: nat)
    ensures c < 4
  {
    match t
    case ActionItem => 0
    case TriggerEvent => 1
    case RootCause => 2
    case Metadata => 3
  }

  /** Reading a stored code back: defined exactly on 0..3, and the inverse of
      `Code` there. */
  function FromCode(c: int): (r: Option<SuggestionType>)
    ensures r.Some? <==> 0 <= c < 4
    ensures r.Some? ==> Code(r.value) == c
  {
    if c == 0 then Some(ActionItem)
    else if c == 1 then Some(TriggerEvent)
    else if c == 2 then Some(RootCause)
    else if c == 3 then Some(Metadata)
    else None
  }

  /** Every type's code reads back as that type. */
  lemma CodeRoundTrip(t: SuggestionType)
    ensures FromCode(Code(t)) == Some(t)
  {
  }

  /** The enum's name, as `as_json` writes it. */
  function Name(t: SuggestionType): string {
    match t
    case ActionItem => "action_item"
    case TriggerEvent => "trigger_event"
    case RootCause => "root_cause"
    case Metadata => "metadata"
  }

  /** A row of the `suggestions` table. Rows are never updated, so
      `updated_at` equals `created_at`; times are logical ticks. */
  datatype SuggestionRecord = SuggestionRecord(
    id: nat,
    incidentId: nat,
    transcriptMessageId: nat,
    suggestionType: SuggestionType,
    title: Option<string>,
    description: Option<string>,
    content: Option<string>,
    createdAt: nat)

  function JText(x: Option<string>): Json {
    match x
    case Some(s) => JStr(s)
    case None => JNull
  }

  /** The fields `as_json` keeps. `serializable_hash` intersects the
      model's attribute names with the `only:` list, so they come out in the
      column order of the `suggestions` table, not in the order of `only:`. */
  const AsJsonFields: seq<string> := ["id", "content", "description", "suggestion_type",
                                      "transcript_message_id", "incident_id", "created_at", "updated_at",
                                      "title"]

  /** `Suggestion#as_json`: the listed fields of the row, in column order. */
  function AsJson(r: SuggestionRecord): Json {
    JObj([("id", JNum(r.id)), ("content", JText(r.content)), ("description", JText(r.description)),
          ("suggestion_type", JStr(Name(r.suggestionType))),
          ("transcript_message_id", JNum(r.transcriptMessageId)), ("incident_id", JNum(r.incidentId)),
          ("created_at", JNum(r.createdAt)), ("updated_at", JNum(r.createdAt)), ("title", JText(r.title))])
  }

  /** The JSON form holds exactly the listed fields, in column order. */
  lemma AsJsonShape(r: SuggestionRecord)
    ensures var j := AsJson(r);
      j.JObj? && |j.fields| == |AsJsonFields| &&
      forall i :: 0 <= i < |AsJsonFields| ==> j.fields[i].0 == AsJsonFields[i]
  {
  }

  /** The title and description of the JSON form read back as the row's
      values. */
  lemma AsJsonText(r: SuggestionRecord)
    ensures var fields := AsJson(r).fields;
      Lookup(fields, "title") == JText(r.title) &&
      Lookup(fields, "description") == JText(r.description)
  {
    var fields := AsJson(r).fields;
    LookupAt(fields, "title", 8);
    LookupAt(fields, "description", 2);
  }

  /** The type of the JSON form is written by its enum name, and the content
      reads back as the row's. */
  lemma AsJsonKind(r: SuggestionRecord)
    ensures var fields := AsJson(r).fields;
      Lookup(fields, "suggestion_type") == JStr(Name(r.suggestionType)) &&
      Lookup(fields, "content") == JText(r.content)
  {
    var fields := AsJson(r).fields;
    LookupAt(fields, "suggestion_type", 3);
    LookupAt(fields, "content", 1);
  }

  /** The id, reference and time fields of the JSON form read back as the
      row's values. */
  lemma AsJsonIds(r: SuggestionRecord)
    ensures var fields := AsJson(r).fields;
      Lookup(fields, "id") == JNum(r.id) &&
      Lookup(fields, "transcript_message_id") == JNum(r.transcriptMessageId) &&
      Lookup(fields, "incident_id") == JNum(r.incidentId) &&
      Lookup(fields, "created_at") == JNum(r.createdAt) &&
      Lookup(fields, "updated_at") == JNum(r.createdAt)
  {
    var fields := AsJson(r).fields;
    LookupAt(fields, "id", 0);
    LookupAt(fields, "transcript_message_id", 4);
    LookupAt(fields, "incident_id", 5);
    LookupAt(fields, "created_at", 6);
    LookupAt(fields, "updated_at", 7);
  }

  // ---------------------------------------------------------------------
  // Novelty gate
  // ---------------------------------------------------------------------

  /** What `FuzzyMatch#find_best` yields once destructured into
      `best_match, score`: nothing, or a best match with a score that may be
      nil. */
  datatype MatchResult = NoMatch | Match(best: string, score: Option<real>)

  /** The fuzzy matcher: normalised query and normalised candidates in. */
  type Matcher = (string, seq<string>) -> MatchResult

  /** `description.to_s.downcase.strip`; nil reads as "". */
  function NormalDescription(d: Option<string>): string {
    Normalize(d.GetOr(""))
  }

  function NormalDescriptions(existing: seq<Option<string>>): (r: seq<string>)
    ensures |r| == |existing|
    ensures forall i :: 0 <= i < |existing| ==> r[i] == NormalDescription(existing[i])
  {
    seq(|existing|, i requires 0 <= i < |existing| => NormalDescription(existing[i]))
  }

  /** The matcher's verdict that counts as a near-duplicate. */
  predicate FuzzyHit(m: MatchResult) {
    m.Match? && m.score.Some? && m.score.value >= 0.95
  }

  /** `Suggestion.is_novel_and_valuable?(suggestion, incident)`, given the
      candidate's description and the descriptions of every suggestion the
      incident has. */
  function IsNovelAndValuable(description: Option<string>, existing: seq<Option<string>>, findBest: Matcher): bool {
    var desc := NormalDescription(description);
    if |desc| < 10 then false
    else if exists i :: 0 <= i < |existing| && NormalDescription(existing[i]) == desc then false
    else !FuzzyHit(findBest(desc, NormalDescriptions(existing)))
  }

  /** A nil description reads as "" and is rejected. */
  lemma NilDescriptionRejected(existing: seq<Option<string>>, findBest: Matcher)
    ensures !IsNovelAndValuable(None, existing, findBest)
  {
    assert NormalDescription(None) == "";
  }

  /** Anything whose normal form is shorter than 10 characters is rejected,
      whatever the history and the matcher. */
  lemma ShortRejected(description: Option<string>, existing: seq<Option<string>>, findBest: Matcher)
    requires |NormalDescription(description)| < 10
    ensures !IsNovelAndValuable(description, existing, findBest)
  {
  }

  /** An exact match, after normalising both sides, with ANY suggestion of
      the incident rejects the candidate. */
  lemma ExactDuplicateRejected(description: Option<string>, existing: seq<Option<string>>, findBest: Matcher, k: nat)
    requires k < |existing| && NormalDescription(existing[k]) == NormalDescription(description)
    ensures !IsNovelAndValuable(description, existing, findBest)
  {
  }

  /** A best match scoring at least 0.95 rejects the candidate. */
  lemma FuzzyDuplicateRejected(description: Option<string>, existing: seq<Option<string>>, findBest: Matcher)
    requires FuzzyHit(findBest(NormalDescription(description), NormalDescriptions(existing)))
    ensures !IsNovelAndValuable(description, existing, findBest)
  {
  }

  /** Otherwise the candidate is accepted. */
  lemma AcceptedOtherwise(description: Option<string>, existing: seq<Option<string>>, findBest: Matcher)
    requires |NormalDescription(description)| >= 10
    requires forall i :: 0 <= i < |existing| ==> NormalDescription(existing[i]) != NormalDescription(description)
    requires !FuzzyHit(findBest(NormalDescription(description), NormalDescriptions(existing)))
    ensures IsNovelAndValuable(description, existing, findBest)
  {
  }

  /** With no history and a matcher that finds nothing, every description of
      normal length at least 10 is accepted. */
  lemma EmptyHistoryAccepts(description: Option<string>, findBest: Matcher)
    requires findBest(NormalDescription(description), []) == NoMatch
    ensures IsNovelAndValuable(description, [], findBest) <==> |NormalDescription(description)| >= 10
  {
    assert NormalDescriptions([]) == [];
  }

  /** The verdict does not change when the candidate's letter case or the
      whitespace around it changes. */
  lemma VerdictIgnoresCaseAndPadding(p: string, x: string, y: string, q: string,
                                     existing: seq<Option<string>>, findBest: Matcher)
    requires AllSpace(p) && AllSpace(q) && Downcase(x) == Downcase(y)
    ensures IsNovelAndValuable(Some(p + x + q), existing, findBest) == IsNovelAndValuable(Some(y), existing, findBest)
  {
    NormalizePadded(p, x, y, q);
  }
}
