/** The data helpers and list handlers of the incident analysis page: how
    the incident fetched from `/api/incidents/:id` becomes the transcript
    entries and the suggestion cards, and how editing, deleting and
    clicking a transcript line change the page's state. */
module IncidentAnalysis {
  import opened Wrappers
  import opened Text
  import SuggestionModel

  // ---------------------------------------------------------------------
  // The fetched incident, as the page reads it
  // ---------------------------------------------------------------------

  /** One element of a message's `suggestions` array. */
  datatype ApiSuggestion = ApiSuggestion(id: nat, suggestionType: Option<string>, title: Option<string>,
                                         description: Option<string>, content: Option<string>,
                                         createdAt: Option<string>)

  /** One element of `transcript_messages`; `suggestions` may be absent. */
  datatype ApiMessage = ApiMessage(id: nat, content: Option<string>, speaker: Option<string>,
                                   createdAt: Option<string>, suggestions: Option<seq<ApiSuggestion>>)

  /** The response body; `transcript_messages` may be absent. */
  datatype ApiIncident = ApiIncident(transcriptMessages: Option<seq<ApiMessage>>)

  /** The `type` of a card. */
  datatype Kind = Action | RootCause | TriggerEvent | Metadata

  /** The colour family of a card. */
  datatype Category = Sand | Sage | Lavender

  /** A suggestion card. `body` is always set by the mapping. */
  datatype Suggestion = Suggestion(id: string, kind: Kind, title: string, body: string, timestamp: string,
                                   category: Category, transcriptMessageId: string)

  /** A line of the transcript panel. */
  datatype TranscriptEntry = TranscriptEntry(id: string, timestamp: string, speaker: string, text: string)

  /** `new Date(s).toLocaleTimeString()`, which depends on the locale and
      the clock zone of the browser. */
  type Formatter = string -> string

  /** `v || d` on a string that may be null: the empty string is falsy too. */
  function Or(v: Option<string>, d: string): string {
    if v.Some? && v.value != "" then v.value else d
  }

  /** `created_at ? format(created_at) : ''`. */
  function Stamp(createdAt: Option<string>, format: Formatter): string {
    if createdAt.Some? && createdAt.value != "" then format(createdAt.value) else ""
  }

  /** `data.transcript_messages || []`. */
  function Messages(data: ApiIncident): seq<ApiMessage> {
    data.transcriptMessages.GetOr([])
  }

  // ---------------------------------------------------------------------
  // mapTranscriptEntries
  // ---------------------------------------------------------------------

  function EntryOf(m: ApiMessage, format: Formatter): TranscriptEntry {
    TranscriptEntry(NatToString(m.id), Stamp(m.createdAt, format), Or(m.speaker, "System"), Or(m.content, ""))
  }

  /** One entry per message, in order: the id as a decimal string, the
      speaker or "System", the content or the empty string. */
  function MapTranscriptEntries(data: ApiIncident, format: Formatter): (r: seq<TranscriptEntry>)
    ensures |r| == |Messages(data)|
    ensures data.transcriptMessages.None? ==> r == []
    ensures forall i :: 0 <= i < |r| ==>
      ParseDecimal(r[i].id) == Some(Messages(data)[i].id) &&
      r[i].speaker != "" &&
      (r[i].speaker == "System" <==> Messages(data)[i].speaker in {None, Some(""), Some("System")}) &&
      (Messages(data)[i].speaker.Some? && Messages(data)[i].speaker.value != "" ==>
         r[i].speaker == Messages(data)[i].speaker.value) &&
      (Messages(data)[i].content.Some? ==> r[i].text == Messages(data)[i].content.value) &&
      (Messages(data)[i].content.None? ==> r[i].text == "")
  {
    IdsParse();
    var ms := Messages(data);
    seq(|ms|, i requires 0 <= i < |ms| => EntryOf(ms[i], format))
  }

  /** `parseInt(String(n), 10) == n` for every id. */
  lemma IdsParse()
    ensures forall n: nat :: ParseDecimal(NatToString(n)) == Some(n)
  {
    forall n: nat {
      ParseNatToString(n);
    }
  }

  /** Distinct message ids give distinct entry ids. */
  lemma EntryIdsDistinct(data: ApiIncident, format: Formatter, i: nat, j: nat)
    requires i < j < |Messages(data)|
    requires Messages(data)[i].id != Messages(data)[j].id
    ensures MapTranscriptEntries(data, format)[i].id != MapTranscriptEntries(data, format)[j].id
  {
    NatToStringInjective(Messages(data)[i].id, Messages(data)[j].id);
  }

  // ---------------------------------------------------------------------
  // mapSuggestions
  // ---------------------------------------------------------------------

  /** The `switch` on `suggestion_type`: the card type and its colour. */
  function TypeOf(suggestionType: Option<string>): (r: (Kind, Category))
    ensures r.0 == Action <==> r.1 == Sand
    ensures r.0 == TriggerEvent <==> r.1 == Lavender
    ensures r.0 == Action <==> suggestionType == Some("action_item")
    ensures r.0 == TriggerEvent <==> suggestionType == Some("trigger_event")
    ensures r.0 == RootCause <==> suggestionType == Some("root_cause")
  {
    match suggestionType
    case Some("action_item") => (Action, Sand)
    case Some("trigger_event") => (TriggerEvent, Lavender)
    case Some("root_cause") => (RootCause, Sage)
    case _ => (Metadata, Sage)
  }

  /** Every suggestion type the backend serialises gets the card type of
      the same name; none falls through to the default by accident. */
  lemma TypeOfBackendName(t: SuggestionModel.SuggestionType)
    ensures TypeOf(Some(SuggestionModel.Name(t))).0 ==
      match t
      case ActionItem => Action
      case TriggerEvent => TriggerEvent
      case RootCause => RootCause
      case Metadata => Metadata
  {
  }

  /** The card made from suggestion `s` of message `messageId`. */
  function CardOf(s: ApiSuggestion, messageId: nat, format: Formatter): Suggestion {
    var (kind, category) := TypeOf(s.suggestionType);
    Suggestion(NatToString(s.id), kind, Or(s.title, ""), Or(s.description, Or(s.content, "")),
               Stamp(s.createdAt, format), category, NatToString(messageId))
  }

  /** What `suggestions.push(...)` adds for message `m`: its cards, in
      order, or nothing when it has no suggestions. */
  function CardsOf(m: ApiMessage, format: Formatter): (r: seq<Suggestion>)
    ensures |r| == |m.suggestions.GetOr([])|
    ensures forall i :: 0 <= i < |r| ==> r[i].transcriptMessageId == NatToString(m.id)
  {
    var ss := m.suggestions.GetOr([]);
    seq(|ss|, i requires 0 <= i < |ss| => CardOf(ss[i], m.id, format))
  }

  /** The array after the `forEach`, before sorting. */
  function Pushed(ms: seq<ApiMessage>, format: Formatter): seq<Suggestion>
    decreases |ms|
  {
    if |ms| == 0 then []
    else Pushed(ms[..|ms| - 1], format) + CardsOf(ms[|ms| - 1], format)
  }

  /** The number of suggestions across `ms`. */
  function Total(ms: seq<ApiMessage>): nat
    decreases |ms|
  {
    if |ms| == 0 then 0
    else Total(ms[..|ms| - 1]) + |ms[|ms| - 1].suggestions.GetOr([])|
  }

  /** Every card of `xs` has a numeric message id. */
  predicate Keyed(xs: seq<Suggestion>) {
    forall i :: 0 <= i < |xs| ==> ParseDecimal(xs[i].transcriptMessageId).Some?
  }

  /** `parseInt(transcriptMessageId, 10)`, the number the comparator reads.
      Every card the mapping makes has a numeric message id (`PushedKeys`),
      so the comparator's fallback to the timestamps is never reached and
      the value given here to the others plays no part. */
  function Key(x: Suggestion): nat {
    ParseDecimal(x.transcriptMessageId).GetOr(0)
  }

  /** `mapSuggestions`: push the cards of every message, then sort the
      array in place with the comparator `idA - idB`. */
  method MapSuggestions(data: ApiIncident, format: Formatter) returns (r: seq<Suggestion>)
    ensures r == SortBy(Pushed(Messages(data), format), Key)
  {
    var ms := Messages(data);
    var pushed: seq<Suggestion> := [];
    var i := 0;
    while i < |ms|
      invariant i <= |ms|
      invariant pushed == Pushed(ms[..i], format)
    {
      assert ms[..i + 1][..i] == ms[..i];
      pushed := pushed + CardsOf(ms[i], format);
      i := i + 1;
    }
    assert ms[..i] == ms;
    var a := new Suggestion[|pushed|](j requires 0 <= j < |pushed| => pushed[j]);
    assert a[..] == pushed;
    SortInPlace(a, Key);
    r := a[..];
  }

  // ---------------------------------------------------------------------
  // A stable sort by a numeric key
  // ---------------------------------------------------------------------

  /** `xs` in ascending order of `key`. */
  predicate SortedBy<T>(xs: seq<T>, key: T -> nat) {
    forall i, j :: 0 <= i < j < |xs| ==> key(xs[i]) <= key(xs[j])
  }

  /** The elements of `xs` whose key is `k`, in their order. */
  function WithKey<T>(xs: seq<T>, key: T -> nat, k: nat): seq<T>
    decreases |xs|
  {
    if |xs| == 0 then []
    else WithKey(xs[..|xs| - 1], key, k) + (if key(xs[|xs| - 1]) == k then [xs[|xs| - 1]] else [])
  }

  /** `x` placed after every element of `s` whose key is not larger, as a
      stable sort places the last element. */
  function Insert<T>(s: seq<T>, x: T, key: T -> nat): (r: seq<T>)
    ensures |r| == |s| + 1
    decreases |s|
  {
    if |s| == 0 then [x]
    else if key(s[|s| - 1]) <= key(x) then s + [x]
    else Insert(s[..|s| - 1], x, key) + [s[|s| - 1]]
  }

  /** `Array.prototype.sort` with a comparator that subtracts keys: a
      stable sort by `key`. */
  function SortBy<T>(xs: seq<T>, key: T -> nat): (r: seq<T>)
    ensures |r| == |xs|
    decreases |xs|
  {
    if |xs| == 0 then []
    else Insert(SortBy(xs[..|xs| - 1], key), xs[|xs| - 1], key)
  }

  /** The in-place sort, as an insertion sort: every stable sort with this
      comparator gives the same order. */
  method SortInPlace<T>(a: array<T>, key: T -> nat)
    modifies a
    ensures a[..] == SortBy(old(a[..]), key)
  {
    ghost var xs := a[..];
    var i := 0;
    while i < a.Length
      invariant i <= a.Length
      invariant a[..i] == SortBy(xs[..i], key)
      invariant a[i..] == xs[i..]
    {
      InsertAt(a, i, key);
      SortStep(xs, key, i);
      assert a[i + 1..] == xs[i + 1..];
      i := i + 1;
    }
    assert xs[..i] == xs;
  }

  /** One pass of the outer loop: `a[i]` moves left past the larger keys
      of the sorted prefix, which shift one place right. */
  method InsertAt<T>(a: array<T>, i: nat, key: T -> nat)
    requires i < a.Length
    modifies a
    ensures a[..i + 1] == Insert(old(a[..i]), old(a[i]), key)
    ensures a[i + 1..] == old(a[i + 1..])
  {
    ghost var p := a[..i];
    var x := a[i];
    var j := i;
    while j > 0 && key(a[j - 1]) > key(x)
      invariant j <= i
      invariant forall k :: 0 <= k < j ==> a[k] == p[k]
      invariant forall k :: j < k <= i ==> a[k] == p[k - 1]
      invariant forall k :: i < k < a.Length ==> a[k] == old(a[k])
      invariant forall k :: j <= k < i ==> key(p[k]) > key(x)
    {
      a[j] := a[j - 1];
      j := j - 1;
    }
    a[j] := x;
    Assembled(a[..], p, x, j);
    InsertionPoint(p, x, key, j);
  }

  /** The array after the insertion: the prefix, `x`, the shifted rest. */
  lemma Assembled<T>(s: seq<T>, p: seq<T>, x: T, j: nat)
    requires j <= |p| < |s|
    requires forall k :: 0 <= k < j ==> s[k] == p[k]
    requires s[j] == x
    requires forall k :: j < k <= |p| ==> s[k] == p[k - 1]
    ensures s[..|p| + 1] == p[..j] + [x] + p[j..]
  {
  }

  /** `Insert` puts `x` right after the last element whose key is not
      larger than its own. */
  lemma {:induction false} InsertionPoint<T>(p: seq<T>, x: T, key: T -> nat, j: nat)
    requires j <= |p| && (j == 0 || key(p[j - 1]) <= key(x))
    requires forall k :: j <= k < |p| ==> key(p[k]) > key(x)
    ensures Insert(p, x, key) == p[..j] + [x] + p[j..]
    decreases |p|
  {
    if j == |p| {
      assert p[..j] == p && p[j..] == [];
    } else {
      var init, last := p[..|p| - 1], p[|p| - 1];
      InsertionPoint(init, x, key, j);
      assert init[..j] == p[..j];
      assert init[j..] + [last] == p[j..];
    }
  }

  /** Sorting one more element is inserting it into the sorted prefix. */
  lemma SortStep<T>(xs: seq<T>, key: T -> nat, i: nat)
    requires i < |xs|
    ensures SortBy(xs[..i + 1], key) == Insert(SortBy(xs[..i], key), xs[i], key)
  {
    assert xs[..i + 1][..i] == xs[..i];
  }

  /** Inserting below a bound keeps every key below it. */
  lemma {:induction false} InsertBounded<T>(s: seq<T>, x: T, key: T -> nat, b: nat)
    requires forall i :: 0 <= i < |s| ==> key(s[i]) <= b
    requires key(x) <= b
    ensures forall i :: 0 <= i < |Insert(s, x, key)| ==> key(Insert(s, x, key)[i]) <= b
    decreases |s|
  {
    if |s| > 0 && key(s[|s| - 1]) > key(x) {
      InsertBounded(s[..|s| - 1], x, key, b);
    }
  }

  lemma {:induction false} InsertSorted<T>(s: seq<T>, x: T, key: T -> nat)
    requires SortedBy(s, key)
    ensures SortedBy(Insert(s, x, key), key)
    decreases |s|
  {
    if |s| > 0 {
      var init, last := s[..|s| - 1], s[|s| - 1];
      if key(last) > key(x) {
        InsertSorted(init, x, key);
        InsertBounded(init, x, key, key(last));
      }
    }
  }

  /** The sorted sequence is in ascending order of key. */
  lemma {:induction false} SortSorted<T>(xs: seq<T>, key: T -> nat)
    ensures SortedBy(SortBy(xs, key), key)
    decreases |xs|
  {
    if |xs| > 0 {
      SortSorted(xs[..|xs| - 1], key);
      InsertSorted(SortBy(xs[..|xs| - 1], key), xs[|xs| - 1], key);
    }
  }

  lemma {:induction false} InsertPermutes<T>(s: seq<T>, x: T, key: T -> nat)
    ensures multiset(Insert(s, x, key)) == multiset(s) + multiset{x}
    decreases |s|
  {
    if |s| > 0 && key(s[|s| - 1]) > key(x) {
      var init, last := s[..|s| - 1], s[|s| - 1];
      InsertPermutes(init, x, key);
      assert s == init + [last];
    }
  }

  /** The sorted sequence is a permutation of the input. */
  lemma {:induction false} SortPermutes<T>(xs: seq<T>, key: T -> nat)
    ensures multiset(SortBy(xs, key)) == multiset(xs)
    decreases |xs|
  {
    if |xs| > 0 {
      var init, last := xs[..|xs| - 1], xs[|xs| - 1];
      var sorted := SortBy(init, key);
      assert SortBy(xs, key) == Insert(sorted, last, key);
      SortPermutes(init, key);
      InsertPermutes(sorted, last, key);
      assert xs == init + [last];
      assert multiset(xs) == multiset(init) + multiset{last};
    }
  }

  lemma WithKeySnoc<T>(s: seq<T>, x: T, key: T -> nat, k: nat)
    ensures WithKey(s + [x], key, k) == WithKey(s, key, k) + (if key(x) == k then [x] else [])
  {
    assert (s + [x])[..|s|] == s;
  }

  /** Inserting `x` puts it after the elements with its own key. */
  lemma {:induction false} WithKeyInsert<T>(s: seq<T>, x: T, key: T -> nat, k: nat)
    ensures WithKey(Insert(s, x, key), key, k) == WithKey(s, key, k) + (if key(x) == k then [x] else [])
    decreases |s|
  {
    if |s| > 0 {
      var init, last := s[..|s| - 1], s[|s| - 1];
      if key(last) <= key(x) {
        WithKeySnoc(s, x, key, k);
      } else {
        WithKeyInsert(init, x, key, k);
        WithKeySnoc(Insert(init, x, key), last, key, k);
      }
    }
  }

  /** The sort is stable: the elements with each key keep their order. */
  lemma {:induction false} SortStable<T>(xs: seq<T>, key: T -> nat, k: nat)
    ensures WithKey(SortBy(xs, key), key, k) == WithKey(xs, key, k)
    decreases |xs|
  {
    if |xs| > 0 {
      var init := xs[..|xs| - 1];
      SortStable(init, key, k);
      WithKeyInsert(SortBy(init, key), xs[|xs| - 1], key, k);
    }
  }

  lemma {:induction false} WithKeyAppend<T>(s: seq<T>, t: seq<T>, key: T -> nat, k: nat)
    ensures WithKey(s + t, key, k) == WithKey(s, key, k) + WithKey(t, key, k)
    decreases |t|
  {
    if |t| > 0 {
      var init, last := t[..|t| - 1], t[|t| - 1];
      assert s + t == (s + init) + [last];
      WithKeyAppend(s, init, key, k);
      WithKeySnoc(s + init, last, key, k);
      WithKeySnoc(init, last, key, k);
    } else {
      assert s + t == s;
    }
  }

  lemma {:induction false} WithKeyConstant<T>(xs: seq<T>, key: T -> nat, c: nat, k: nat)
    requires forall i :: 0 <= i < |xs| ==> key(xs[i]) == c
    ensures WithKey(xs, key, k) == if c == k then xs else []
    decreases |xs|
  {
    if |xs| > 0 {
      WithKeyConstant(xs[..|xs| - 1], key, c, k);
    }
  }

  // ---------------------------------------------------------------------
  // What mapSuggestions returns
  // ---------------------------------------------------------------------

  /** The messages of `ms` whose id is `k`, in order. */
  function MessagesWithId(ms: seq<ApiMessage>, k: nat): seq<ApiMessage>
    decreases |ms|
  {
    if |ms| == 0 then []
    else MessagesWithId(ms[..|ms| - 1], k) + (if ms[|ms| - 1].id == k then [ms[|ms| - 1]] else [])
  }

  /** The cards of a message all carry its id, as a number. */
  lemma CardsKey(m: ApiMessage, format: Formatter)
    ensures Keyed(CardsOf(m, format))
    ensures forall i :: 0 <= i < |CardsOf(m, format)| ==> Key(CardsOf(m, format)[i]) == m.id
  {
    ParseNatToString(m.id);
  }

  /** Every pushed card has a numeric message id. */
  lemma {:induction false} PushedKeys(ms: seq<ApiMessage>, format: Formatter)
    ensures Keyed(Pushed(ms, format))
    decreases |ms|
  {
    if |ms| > 0 {
      var init, last := ms[..|ms| - 1], ms[|ms| - 1];
      PushedKeys(init, format);
      CardsKey(last, format);
      var p, c := Pushed(init, format), CardsOf(last, format);
      assert forall i :: 0 <= i < |c| ==> (p + c)[|p| + i] == c[i];
    }
  }

  /** The cards of message `k` in the pushed array are those of the
      messages with id `k`, in order. */
  lemma {:induction false} WithKeyPushed(ms: seq<ApiMessage>, format: Formatter, k: nat)
    ensures WithKey(Pushed(ms, format), Key, k) == Pushed(MessagesWithId(ms, k), format)
    decreases |ms|
  {
    if |ms| > 0 {
      var init, last := ms[..|ms| - 1], ms[|ms| - 1];
      WithKeyPushed(init, format, k);
      WithKeyAppend(Pushed(init, format), CardsOf(last, format), Key, k);
      CardsKey(last, format);
      WithKeyConstant(CardsOf(last, format), Key, last.id, k);
      if last.id == k {
        PushedSnoc(MessagesWithId(init, k), last, format);
      } else {
        assert MessagesWithId(ms, k) == MessagesWithId(init, k);
        assert WithKey(Pushed(ms, format), Key, k) == WithKey(Pushed(init, format), Key, k) + [];
      }
    }
  }

  lemma PushedSnoc(ms: seq<ApiMessage>, m: ApiMessage, format: Formatter)
    ensures Pushed(ms + [m], format) == Pushed(ms, format) + CardsOf(m, format)
  {
    assert (ms + [m])[..|ms|] == ms;
  }

  lemma {:induction false} PushedLength(ms: seq<ApiMessage>, format: Formatter)
    ensures |Pushed(ms, format)| == Total(ms)
    decreases |ms|
  {
    if |ms| > 0 {
      PushedLength(ms[..|ms| - 1], format);
    }
  }

  /** What `mapSuggestions` returns: one card per suggestion of the
      fetched incident, a permutation of the pushed cards, in ascending
      order of message id, the cards of each message in their own order;
      a message whose id no other message shares gets exactly its own
      cards. Every message id is numeric, so the comparator never falls
      back to the timestamps. */
  lemma MapSuggestionsOrder(data: ApiIncident, format: Formatter)
    ensures var pushed := Pushed(Messages(data), format);
      var r := SortBy(pushed, Key);
      Keyed(pushed) &&
      |r| == Total(Messages(data)) &&
      multiset(r) == multiset(pushed) &&
      SortedBy(r, Key) &&
      forall m :: m in Messages(data) && MessagesWithId(Messages(data), m.id) == [m] ==>
        WithKey(r, Key, m.id) == CardsOf(m, format)
  {
    var ms := Messages(data);
    var pushed := Pushed(ms, format);
    var r := SortBy(pushed, Key);
    PushedKeys(ms, format);
    PushedLength(ms, format);
    SortPermutes(pushed, Key);
    SortSorted(pushed, Key);
    forall m | m in ms && MessagesWithId(ms, m.id) == [m]
      ensures WithKey(r, Key, m.id) == CardsOf(m, format)
    {
      SortStable(pushed, Key, m.id);
      WithKeyPushed(ms, format, m.id);
      assert [m][..0] == [];
    }
  }

  /** Every card names its parent message; its body is the non-empty
      description, else the content, else empty (`||` passes over an empty
      description); its title is the suggestion's, defaulting to empty. */
  lemma CardFields(s: ApiSuggestion, messageId: nat, format: Formatter)
    ensures var c := CardOf(s, messageId, format);
      ParseDecimal(c.transcriptMessageId) == Some(messageId) &&
      ParseDecimal(c.id) == Some(s.id) &&
      (s.title.None? ==> c.title == "") &&
      (s.title.Some? ==> c.title == s.title.value) &&
      (s.description.Some? && s.description.value != "" ==> c.body == s.description.value) &&
      (s.description in {None, Some("")} && s.content.Some? ==> c.body == s.content.value) &&
      (s.description in {None, Some("")} && s.content.None? ==> c.body == "")
  {
    ParseNatToString(messageId);
    ParseNatToString(s.id);
  }

  // ---------------------------------------------------------------------
  // The page's list handlers
  // ---------------------------------------------------------------------

  /** The part of the page's state the handlers read and set. */
  datatype PageState = PageState(suggestions: seq<Suggestion>, editingId: Option<string>, editedBody: string,
                                 showDeleteDialog: bool, toDelete: Option<Suggestion>,
                                 focused: Option<string>, highlighted: Option<string>)

  /** The card ids of `xs`, in order. */
  function Ids(xs: seq<Suggestion>): (r: seq<string>)
    ensures |r| == |xs| && forall i :: 0 <= i < |xs| ==> r[i] == xs[i].id
  {
    seq(|xs|, i requires 0 <= i < |xs| => xs[i].id)
  }

  predicate DistinctIds(xs: seq<Suggestion>) {
    forall i, j :: 0 <= i < j < |xs| ==> xs[i].id != xs[j].id
  }

  /** `handleEdit`: start editing with the card's body. */
  function HandleEdit(ps: PageState, s: Suggestion): PageState {
    ps.(editingId := Some(s.id), editedBody := s.body)
  }

  /** The body of every card with id `id` replaced. */
  function SetBody(xs: seq<Suggestion>, id: string, body: string): seq<Suggestion> {
    seq(|xs|, i requires 0 <= i < |xs| => if xs[i].id == id then xs[i].(body := body) else xs[i])
  }

  /** `handleEditSave`: the edited body goes into the cards with the
      suggestion's id, and editing ends. */
  function HandleEditSave(ps: PageState, s: Suggestion): (r: PageState)
    ensures Ids(r.suggestions) == Ids(ps.suggestions)
    ensures forall i :: 0 <= i < |ps.suggestions| ==>
      r.suggestions[i].(body := "") == ps.suggestions[i].(body := "") &&
      r.suggestions[i].body == (if ps.suggestions[i].id == s.id then ps.editedBody else ps.suggestions[i].body)
    ensures r.editingId.None?
    ensures r.(suggestions := ps.suggestions, editingId := ps.editingId) == ps
  {
    ps.(suggestions := SetBody(ps.suggestions, s.id, ps.editedBody), editingId := None)
  }

  /** The inline `onEdit` of a card: title and body of the cards with id
      `id` replaced. */
  function OnEdit(ps: PageState, id: string, title: string, body: string): (r: PageState)
    ensures Ids(r.suggestions) == Ids(ps.suggestions)
    ensures forall i :: 0 <= i < |ps.suggestions| ==>
      r.suggestions[i].(title := "", body := "") == ps.suggestions[i].(title := "", body := "") &&
      (ps.suggestions[i].id == id ==> r.suggestions[i].title == title && r.suggestions[i].body == body) &&
      (ps.suggestions[i].id != id ==> r.suggestions[i] == ps.suggestions[i])
    ensures r.(suggestions := ps.suggestions) == ps
  {
    ps.(suggestions := seq(|ps.suggestions|, i requires 0 <= i < |ps.suggestions| =>
      if ps.suggestions[i].id == id then ps.suggestions[i].(title := title, body := body) else ps.suggestions[i]))
  }

  /** Opening the editor and saving without typing leaves the cards as
      they were, when card ids are distinct. */
  lemma EditThenSaveUnchanged(ps: PageState, s: Suggestion)
    requires DistinctIds(ps.suggestions) && s in ps.suggestions
    ensures HandleEditSave(HandleEdit(ps, s), s).suggestions == ps.suggestions
  {
    var r := HandleEditSave(HandleEdit(ps, s), s).suggestions;
    forall i | 0 <= i < |ps.suggestions|
      ensures r[i] == ps.suggestions[i]
    {
      if ps.suggestions[i].id == s.id {
        var k :| 0 <= k < |ps.suggestions| && ps.suggestions[k] == s;
        assert k == i;
      }
    }
  }

  /** Saving an edit keeps the cards in message order: it changes no
      card's message. */
  lemma EditKeepsOrder(ps: PageState, s: Suggestion)
    requires SortedBy(ps.suggestions, Key)
    ensures SortedBy(HandleEditSave(ps, s).suggestions, Key)
  {
    var r := HandleEditSave(ps, s).suggestions;
    assert forall i :: 0 <= i < |r| ==> r[i].transcriptMessageId == ps.suggestions[i].(body := "").transcriptMessageId;
  }

  /** The cards of `xs` whose id is not `id`, in order. */
  function Without(xs: seq<Suggestion>, id: string): seq<Suggestion>
    decreases |xs|
  {
    if |xs| == 0 then []
    else Without(xs[..|xs| - 1], id) + (if xs[|xs| - 1].id != id then [xs[|xs| - 1]] else [])
  }

  /** A card survives a deletion exactly when its id is not the chosen one. */
  lemma {:induction false} WithoutMembers(xs: seq<Suggestion>, id: string)
    ensures forall x :: x in Without(xs, id) <==> x in xs && x.id != id
    decreases |xs|
  {
    if |xs| > 0 {
      var init, last := xs[..|xs| - 1], xs[|xs| - 1];
      WithoutMembers(init, id);
      assert xs == init + [last];
    }
  }

  /** Deleting keeps every key below a bound that held before. */
  lemma {:induction false} WithoutBounded(xs: seq<Suggestion>, id: string, b: nat)
    requires forall i :: 0 <= i < |xs| ==> Key(xs[i]) <= b
    ensures forall i :: 0 <= i < |Without(xs, id)| ==> Key(Without(xs, id)[i]) <= b
    decreases |xs|
  {
    if |xs| > 0 {
      WithoutBounded(xs[..|xs| - 1], id, b);
    }
  }

  /** `handleDelete`: ask for confirmation. */
  function HandleDelete(ps: PageState, s: Suggestion): PageState {
    ps.(toDelete := Some(s), showDeleteDialog := true)
  }

  /** `confirmDelete`: drop the cards with the chosen id, if one was
      chosen, and close the dialog. */
  function ConfirmDelete(ps: PageState): (r: PageState)
    ensures !r.showDeleteDialog && r.toDelete.None?
    ensures ps.toDelete.None? ==> r.suggestions == ps.suggestions
    ensures ps.toDelete.Some? ==> forall x :: x in r.suggestions <==> x in ps.suggestions && x.id != ps.toDelete.value.id
    ensures r.(suggestions := ps.suggestions, showDeleteDialog := ps.showDeleteDialog, toDelete := ps.toDelete) == ps
  {
    var kept := if ps.toDelete.Some? then WithoutMembers(ps.suggestions, ps.toDelete.value.id); Without(ps.suggestions, ps.toDelete.value.id)
                else ps.suggestions;
    ps.(suggestions := kept, showDeleteDialog := false, toDelete := None)
  }

  /** `cancelDelete`: close the dialog, keep the cards. */
  function CancelDelete(ps: PageState): (r: PageState)
    ensures r.suggestions == ps.suggestions && !r.showDeleteDialog && r.toDelete.None?
  {
    ps.(showDeleteDialog := false, toDelete := None)
  }

  /** Asking to delete and then cancelling restores the page, when no
      dialog was open before. */
  lemma CancelRestores(ps: PageState, s: Suggestion)
    requires !ps.showDeleteDialog && ps.toDelete.None?
    ensures CancelDelete(HandleDelete(ps, s)) == ps
  {
  }

  /** The cards with id `id`. */
  function Matching(xs: seq<Suggestion>, id: string): seq<Suggestion>
    decreases |xs|
  {
    if |xs| == 0 then []
    else Matching(xs[..|xs| - 1], id) + (if xs[|xs| - 1].id == id then [xs[|xs| - 1]] else [])
  }

  /** A deletion removes exactly the cards with the chosen id. */
  lemma {:induction false} DeleteLength(xs: seq<Suggestion>, id: string)
    ensures |Without(xs, id)| + |Matching(xs, id)| == |xs|
    decreases |xs|
  {
    if |xs| > 0 {
      DeleteLength(xs[..|xs| - 1], id);
    }
  }

  /** A deletion keeps the other cards in their order, so the list stays
      in message order. */
  lemma {:induction false} DeleteKeepsOrder(xs: seq<Suggestion>, id: string)
    requires SortedBy(xs, Key)
    ensures SortedBy(Without(xs, id), Key)
    decreases |xs|
  {
    if |xs| > 0 {
      var init, last := xs[..|xs| - 1], xs[|xs| - 1];
      DeleteKeepsOrder(init, id);
      var w := Without(init, id);
      if last.id != id {
        WithoutBounded(init, id, Key(last));
      }
    }
  }

  /** Deleting twice is deleting once. */
  lemma {:induction false} DeleteIdempotent(xs: seq<Suggestion>, id: string)
    ensures Without(Without(xs, id), id) == Without(xs, id)
    decreases |xs|
  {
    if |xs| > 0 {
      var init, last := xs[..|xs| - 1], xs[|xs| - 1];
      DeleteIdempotent(init, id);
      var w := Without(init, id);
      if last.id != id {
        WithoutSnoc(w, last, id);
      } else {
        assert Without(xs, id) == w + [];
        assert w + [] == w;
      }
    }
  }

  lemma WithoutSnoc(xs: seq<Suggestion>, x: Suggestion, id: string)
    ensures Without(xs + [x], id) == Without(xs, id) + (if x.id != id then [x] else [])
  {
    assert (xs + [x])[..|xs|] == xs;
  }

  /** Asking to delete a card and confirming removes every card with its
      id and closes the dialog. */
  lemma DeleteRoundTrip(ps: PageState, s: Suggestion)
    ensures var r := ConfirmDelete(HandleDelete(ps, s));
      r.suggestions == Without(ps.suggestions, s.id) && !r.showDeleteDialog && r.toDelete.None? &&
      forall x :: x in r.suggestions ==> x.id != s.id
  {
  }

  /** `suggestions.find(s => s.transcriptMessageId === id)`. */
  function FindByMessage(xs: seq<Suggestion>, transcriptId: string): (r: Option<nat>)
    ensures r.Some? ==> r.value < |xs| && xs[r.value].transcriptMessageId == transcriptId
    ensures r.Some? ==> forall i :: 0 <= i < r.value ==> xs[i].transcriptMessageId != transcriptId
    ensures r.None? ==> forall i :: 0 <= i < |xs| ==> xs[i].transcriptMessageId != transcriptId
    decreases |xs|
  {
    if |xs| == 0 then None
    else if xs[0].transcriptMessageId == transcriptId then Some(0)
    else match FindByMessage(xs[1..], transcriptId)
      case None => None
      case Some(k) => Some(k + 1)
  }

  /** `handleTranscriptClick`: highlight the clicked line, and focus the
      first card of that message if it has one. */
  function HandleTranscriptClick(ps: PageState, transcriptId: string): (r: PageState)
    ensures r.highlighted == Some(transcriptId)
    ensures r.focused != ps.focused ==> exists x :: x in ps.suggestions && x.transcriptMessageId == transcriptId && r.focused == Some(x.id)
    ensures (forall x :: x in ps.suggestions ==> x.transcriptMessageId != transcriptId) ==> r.focused == ps.focused
    ensures r.(focused := ps.focused, highlighted := ps.highlighted) == ps
  {
    match FindByMessage(ps.suggestions, transcriptId)
    case Some(k) => ps.(focused := Some(ps.suggestions[k].id), highlighted := Some(transcriptId))
    case None => ps.(highlighted := Some(transcriptId))
  }

  /** On the mapped cards, clicking the line of a message with suggestions
      focuses that message's first card. */
  lemma ClickFocusesFirstCard(ps: PageState, transcriptId: string, k: nat)
    requires k < |ps.suggestions| && ps.suggestions[k].transcriptMessageId == transcriptId
    requires forall i :: 0 <= i < k ==> ps.suggestions[i].transcriptMessageId != transcriptId
    ensures HandleTranscriptClick(ps, transcriptId).focused == Some(ps.suggestions[k].id)
  {
  }
}
