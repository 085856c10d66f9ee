/** The persistence layer and the broadcast channel, kept in memory: the
    `transcript_messages` and `suggestions` tables as sequences in creation
    order, the log of what was broadcast on the "suggestions" stream, and a
    logical counter that hands out ids and creation ticks. */
module Records {
  import opened Wrappers
  import opened Json
  import opened SuggestionModel

  /** A row of the `transcript_messages` table. */
  datatype Message = Message(id: nat, incidentId: nat, content: Option<string>, speaker: Option<string>, createdAt: nat)

  datatype StoreState = StoreState(
    messages: seq<Message>,
    suggestions: seq<SuggestionRecord>,
    broadcasts: seq<Json>,
    clock: nat)

  /** Consistency of the tables: ids and ticks come from the counter in
      creation order, and every suggestion points at a message of its own
      incident and carries that message's content. */
  predicate WellFormed(st: StoreState) {
    (forall i :: 0 <= i < |st.messages| ==> st.messages[i].id < st.clock) &&
    (forall i, j :: 0 <= i < j < |st.messages| ==> st.messages[i].id < st.messages[j].id) &&
    (forall i :: 0 <= i < |st.suggestions| ==> st.suggestions[i].id < st.clock) &&
    (forall i, j :: 0 <= i < j < |st.suggestions| ==> st.suggestions[i].id < st.suggestions[j].id) &&
    (forall i :: 0 <= i < |st.suggestions| ==> Referenced(st.messages, st.suggestions[i]))
  }

  /** Some message is the one `r` points at, in `r`'s incident, with `r`'s content. */
  predicate Referenced(messages: seq<Message>, r: SuggestionRecord) {
    exists m :: m in messages && m.id == r.transcriptMessageId && m.incidentId == r.incidentId && m.content == r.content
  }

  /** `incident.transcript_messages`, ordered by creation. */
  function MessagesOf(messages: seq<Message>, incident: nat): (r: seq<Message>)
    ensures |r| <= |messages|
    ensures forall m :: m in r <==> m in messages && m.incidentId == incident
    decreases |messages|
  {
    if |messages| == 0 then []
    else
      var rest := MessagesOf(messages[..|messages| - 1], incident);
      var last := messages[|messages| - 1];
      assert messages == messages[..|messages| - 1] + [last];
      if last.incidentId == incident then rest + [last] else rest
  }

  /** `incident.suggestions`, ordered by creation. */
  function SuggestionsOf(suggestions: seq<SuggestionRecord>, incident: nat): (r: seq<SuggestionRecord>)
    ensures |r| <= |suggestions|
    ensures forall s :: s in r <==> s in suggestions && s.incidentId == incident
    decreases |suggestions|
  {
    if |suggestions| == 0 then []
    else
      var rest := SuggestionsOf(suggestions[..|suggestions| - 1], incident);
      var last := suggestions[|suggestions| - 1];
      assert suggestions == suggestions[..|suggestions| - 1] + [last];
      if last.incidentId == incident then rest + [last] else rest
  }

  lemma SuggestionsOfAppend(suggestions: seq<SuggestionRecord>, r: SuggestionRecord, incident: nat)
    ensures SuggestionsOf(suggestions + [r], incident) ==
      SuggestionsOf(suggestions, incident) + (if r.incidentId == incident then [r] else [])
  {
    assert (suggestions + [r])[..|suggestions|] == suggestions;
  }

  function Descriptions(rs: seq<SuggestionRecord>): (r: seq<Option<string>>)
    ensures |r| == |rs|
    ensures forall i :: 0 <= i < |rs| ==> r[i] == rs[i].description
  {
    seq(|rs|, i requires 0 <= i < |rs| => rs[i].description)
  }

  function Contents(ms: seq<Message>): (r: seq<Option<string>>)
    ensures |r| == |ms|
    ensures forall i :: 0 <= i < |ms| ==> r[i] == ms[i].content
  {
    seq(|ms|, i requires 0 <= i < |ms| => ms[i].content)
  }

  /** `TranscriptMessage.create!`: the next id and tick, appended. */
  function AddMessage(st: StoreState, incident: nat, content: Option<string>, speaker: Option<string>): StoreState {
    st.(messages := st.messages + [Message(st.clock, incident, content, speaker, st.clock)], clock := st.clock + 1)
  }

  /** `Suggestion.create!` followed by the broadcast of its `as_json`. */
  function AddSuggestion(st: StoreState, r: SuggestionRecord): StoreState {
    st.(suggestions := st.suggestions + [r], broadcasts := st.broadcasts + [AsJson(r)], clock := st.clock + 1)
  }

  /** A message appended by `AddMessage` keeps the tables consistent. */
  lemma AddMessageWellFormed(st: StoreState, incident: nat, content: Option<string>, speaker: Option<string>)
    requires WellFormed(st)
    ensures WellFormed(AddMessage(st, incident, content, speaker))
  {
    var st' := AddMessage(st, incident, content, speaker);
    assert st'.suggestions == st.suggestions;
    forall i | 0 <= i < |st'.suggestions|
      ensures Referenced(st'.messages, st'.suggestions[i])
    {
      assert Referenced(st.messages, st.suggestions[i]);
      ReferencedGrows(st.messages, st'.messages[|st.messages|..], st.suggestions[i]);
      assert st.messages + st'.messages[|st.messages|..] == st'.messages;
    }
  }

  /** A reference stays resolved when messages are appended. */
  lemma ReferencedGrows(messages: seq<Message>, more: seq<Message>, r: SuggestionRecord)
    requires Referenced(messages, r)
    ensures Referenced(messages + more, r)
  {
    var m :| m in messages && m.id == r.transcriptMessageId && m.incidentId == r.incidentId && m.content == r.content;
    assert m in messages + more;
  }

  /** The incident's suggestions as `incident.suggestions` returns them:
      the loaded list when there is one, the table otherwise. */
  function LoadedSuggestions(st: StoreState, loaded: Option<seq<SuggestionRecord>>, incident: nat): seq<SuggestionRecord> {
    match loaded
    case Some(rs) => rs
    case None => SuggestionsOf(st.suggestions, incident)
  }

  /** An `Incident` object in memory and the state of its `suggestions`
      association: not loaded, or the list it holds. */
  class Incident {
    const id: nat
    var loaded: Option<seq<SuggestionRecord>>

    constructor (id: nat)
      ensures this.id == id && loaded == None
    {
      this.id := id;
      loaded := None;
    }

    /** Iterating `incident.suggestions`: the held list, loaded from the
        table on first use. */
    method Suggestions(store: Store) returns (rs: seq<SuggestionRecord>)
      modifies this
      ensures rs == LoadedSuggestions(store.State(), old(loaded), id)
      ensures loaded == Some(rs)
    {
      if loaded.None? {
        loaded := Some(SuggestionsOf(store.suggestions, id));
      }
      rs := loaded.value;
    }

    /** A row added to the association: appended to the held list, if any
        (an association not yet loaded reads the table anyway). */
    method Track(r: SuggestionRecord)
      modifies this
      ensures loaded == if old(loaded).Some? then Some(old(loaded).value + [r]) else None
    {
      if loaded.Some? {
        loaded := Some(loaded.value + [r]);
      }
    }
  }

  /** The in-memory tables and broadcast log, updated in place. */
  class Store {
    var messages: seq<Message>
    var suggestions: seq<SuggestionRecord>
    var broadcasts: seq<Json>
    var clock: nat

    function State(): StoreState
      reads this
    {
      StoreState(messages, suggestions, broadcasts, clock)
    }

    constructor (initial: StoreState)
      ensures State() == initial
    {
      messages, suggestions, broadcasts, clock := initial.messages, initial.suggestions, initial.broadcasts, initial.clock;
    }

    /** `TranscriptMessage.create!(incident:, content:, speaker:)`. */
    method CreateMessage(incident: nat, content: Option<string>, speaker: Option<string>) returns (m: Message)
      modifies this
      ensures State() == AddMessage(old(State()), incident, content, speaker)
      ensures m == Message(old(clock), incident, content, speaker, old(clock))
    {
      m := Message(clock, incident, content, speaker, clock);
      messages := messages + [m];
      clock := clock + 1;
    }

    /** `Suggestion.create!` with the next id and tick; the row is returned. */
    method CreateSuggestion(incident: nat, messageId: nat, kind: SuggestionType, title: Option<string>,
                            description: Option<string>, content: Option<string>) returns (r: SuggestionRecord)
      modifies this
      ensures r == SuggestionRecord(old(clock), incident, messageId, kind, title, description, content, old(clock))
      ensures messages == old(messages) && suggestions == old(suggestions) + [r] && broadcasts == old(broadcasts)
      ensures clock == old(clock) + 1
    {
      r := SuggestionRecord(clock, incident, messageId, kind, title, description, content, clock);
      suggestions := suggestions + [r];
      clock := clock + 1;
    }

    /** `ActionCable.server.broadcast("suggestions", payload)`. */
    method Broadcast(payload: Json)
      modifies this
      ensures State() == old(State()).(broadcasts := old(broadcasts) + [payload])
    {
      broadcasts := broadcasts + [payload];
    }
  }
}
