/** The transcript panel's speaker badges: the icon chosen for a speaker,
    and the per-session cache that gives each new speaker the next colour
    of a ten-colour palette, round robin. */
module TranscriptPanel {
  import opened Wrappers
  import IncidentAnalysis

  // ---------------------------------------------------------------------
  // getSpeakerIcon
  // ---------------------------------------------------------------------

  datatype Icon = Bot | User

  /** The bot icon for the "System" speaker, the user icon for anyone else. */
  function SpeakerIcon(speaker: string): (r: Icon)
    ensures r == Bot <==> speaker == "System"
  {
    if speaker == "System" then Bot else User
  }

  /** A message stored without a speaker, or with an empty one, is shown
      with the bot icon; any other speaker but "System" with the user icon. */
  lemma MissingSpeakerShowsBot(data: IncidentAnalysis.ApiIncident, format: IncidentAnalysis.Formatter, i: nat)
    requires i < |IncidentAnalysis.Messages(data)|
    ensures var m := IncidentAnalysis.Messages(data)[i];
      var e := IncidentAnalysis.MapTranscriptEntries(data, format)[i];
      (SpeakerIcon(e.speaker) == Bot <==> m.speaker in {None, Some(""), Some("System")})
  {
  }

  // ---------------------------------------------------------------------
  // getDynamicSpeakerColor
  // ---------------------------------------------------------------------

  /** `pastelColors`. */
  const Palette: seq<string> := [
    "bg-blue-100 text-blue-800 border-blue-200",
    "bg-green-100 text-green-800 border-green-200",
    "bg-purple-100 text-purple-800 border-purple-200",
    "bg-pink-100 text-pink-800 border-pink-200",
    "bg-yellow-100 text-yellow-800 border-yellow-200",
    "bg-orange-100 text-orange-800 border-orange-200",
    "bg-teal-100 text-teal-800 border-teal-200",
    "bg-indigo-100 text-indigo-800 border-indigo-200",
    "bg-red-100 text-red-800 border-red-200",
    "bg-sky-100 text-sky-800 border-sky-200"
  ]

  /** The palette's colours are ten distinct, non-empty class lists. */
  lemma PaletteDistinct()
    ensures |Palette| == 10
    ensures forall i, j :: 0 <= i < j < |Palette| ==> Palette[i] != Palette[j]
    ensures forall i :: 0 <= i < |Palette| ==> Palette[i] != ""
  {
  }

  /** `pastelColors[colorIndex % pastelColors.length]`. */
  function NextColor(colorIndex: nat): string {
    Palette[colorIndex % |Palette|]
  }

  /** The module-level `speakerColorMap` and `colorIndex`, as values. */
  datatype Cache = Cache(colors: map<string, string>, colorIndex: nat)

  /** The cache when the module is loaded. */
  const Fresh := Cache(map[], 0)

  /** The colour returned for `speaker`. */
  function ColorFor(c: Cache, speaker: string): string {
    if speaker in c.colors then c.colors[speaker] else NextColor(c.colorIndex)
  }

  /** The cache after the call for `speaker`. */
  function Step(c: Cache, speaker: string): Cache {
    if speaker in c.colors then c
    else Cache(c.colors[speaker := NextColor(c.colorIndex)], c.colorIndex + 1)
  }

  /** What the cache keeps true: the counter is the number of speakers
      coloured so far, and every colour is a palette colour. */
  ghost predicate Valid(c: Cache) {
    c.colorIndex == |c.colors| &&
    forall s :: s in c.colors ==> c.colors[s] in Palette
  }

  /** One call returns a palette colour and keeps the cache valid; a known
      speaker changes nothing; a new speaker gets the colour at the counter,
      the counter rises by one and no other speaker's colour moves. */
  lemma StepFacts(c: Cache, speaker: string)
    requires Valid(c)
    ensures ColorFor(c, speaker) in Palette
    ensures Valid(Step(c, speaker))
    ensures speaker in c.colors ==> Step(c, speaker) == c
    ensures speaker !in c.colors ==>
      ColorFor(c, speaker) == Palette[c.colorIndex % 10] &&
      Step(c, speaker).colorIndex == c.colorIndex + 1 &&
      Step(c, speaker).colors[speaker] == ColorFor(c, speaker) &&
      forall s :: s != speaker ==> (s in Step(c, speaker).colors <==> s in c.colors)
    ensures forall s :: s in c.colors ==> s in Step(c, speaker).colors && Step(c, speaker).colors[s] == c.colors[s]
    ensures speaker in Step(c, speaker).colors && Step(c, speaker).colors[speaker] == ColorFor(c, speaker)
  {
    if speaker !in c.colors {
      assert c.colors[speaker := NextColor(c.colorIndex)].Keys == c.colors.Keys + {speaker};
    }
  }

  /** The cache after a call for each of `speakers`, in order. */
  function After(c: Cache, speakers: seq<string>): Cache
    decreases |speakers|
  {
    if |speakers| == 0 then c
    else Step(After(c, speakers[..|speakers| - 1]), speakers[|speakers| - 1])
  }

  /** The colours those calls return, in order. */
  function ColorsOf(c: Cache, speakers: seq<string>): (r: seq<string>)
    ensures |r| == |speakers|
    decreases |speakers|
  {
    if |speakers| == 0 then []
    else
      var init := speakers[..|speakers| - 1];
      ColorsOf(c, init) + [ColorFor(After(c, init), speakers[|speakers| - 1])]
  }

  /** The distinct speakers of `speakers`, in order of first appearance. */
  function Seen(speakers: seq<string>): seq<string>
    decreases |speakers|
  {
    if |speakers| == 0 then []
    else
      var prev := Seen(speakers[..|speakers| - 1]);
      var last := speakers[|speakers| - 1];
      if last in prev then prev else prev + [last]
  }

  /** `Seen` lists each speaker of `speakers` once. */
  lemma {:induction false} SeenFacts(speakers: seq<string>)
    ensures forall s :: s in Seen(speakers) <==> s in speakers
    ensures forall i, j :: 0 <= i < j < |Seen(speakers)| ==> Seen(speakers)[i] != Seen(speakers)[j]
    decreases |speakers|
  {
    if |speakers| > 0 {
      var init := speakers[..|speakers| - 1];
      SeenFacts(init);
      assert speakers == init + [speakers[|speakers| - 1]];
    }
  }

  /** A call keeps every colour already given, and leaves the speaker
      with the colour it returned. */
  lemma StepKeeps(c: Cache, speaker: string)
    ensures forall s :: s in c.colors ==> s in Step(c, speaker).colors && Step(c, speaker).colors[s] == c.colors[s]
    ensures speaker in Step(c, speaker).colors && Step(c, speaker).colors[speaker] == ColorFor(c, speaker)
  {
  }

  /** A run of calls keeps every colour already given, and colours every
      speaker it meets. */
  lemma {:induction false} AfterKeeps(c: Cache, speakers: seq<string>)
    ensures forall s :: s in c.colors ==> s in After(c, speakers).colors && After(c, speakers).colors[s] == c.colors[s]
    ensures forall i :: 0 <= i < |speakers| ==> speakers[i] in After(c, speakers).colors
    decreases |speakers|
  {
    if |speakers| > 0 {
      var init := speakers[..|speakers| - 1];
      AfterKeeps(c, init);
      StepKeeps(After(c, init), speakers[|speakers| - 1]);
      assert forall i :: 0 <= i < |init| ==> speakers[i] == init[i];
    }
  }

  /** A run of calls keeps the cache valid. */
  lemma {:induction false} AfterValid(c: Cache, speakers: seq<string>)
    requires Valid(c)
    ensures Valid(After(c, speakers))
    decreases |speakers|
  {
    if |speakers| > 0 {
      var init := speakers[..|speakers| - 1];
      AfterValid(c, init);
      StepFacts(After(c, init), speakers[|speakers| - 1]);
    }
  }

  /** Every call for a speaker returns the colour the cache holds for it
      at the end: a speaker's badge never changes colour. */
  lemma {:induction false} ColorsStable(c: Cache, speakers: seq<string>, i: nat)
    requires i < |speakers|
    ensures speakers[i] in After(c, speakers).colors
    ensures ColorsOf(c, speakers)[i] == After(c, speakers).colors[speakers[i]]
    decreases |speakers|
  {
    var init, last := speakers[..|speakers| - 1], speakers[|speakers| - 1];
    var d := After(c, init);
    StepKeeps(d, last);
    if i < |init| {
      ColorsStable(c, init, i);
      assert speakers[i] == init[i];
      assert ColorsOf(c, speakers)[i] == ColorsOf(c, init)[i];
    }
  }

  /** From a fresh cache, the k-th distinct speaker gets the colour at
      counter k, palette colour k mod 10, and the counter is the number of distinct speakers. */
  lemma {:induction false} FreshAssigns(speakers: seq<string>)
    ensures After(Fresh, speakers).colorIndex == |Seen(speakers)|
    ensures forall s :: s in After(Fresh, speakers).colors <==> s in Seen(speakers)
    ensures forall k :: 0 <= k < |Seen(speakers)| ==>
      Seen(speakers)[k] in After(Fresh, speakers).colors &&
      After(Fresh, speakers).colors[Seen(speakers)[k]] == NextColor(k)
    decreases |speakers|
  {
    if |speakers| > 0 {
      var init, last := speakers[..|speakers| - 1], speakers[|speakers| - 1];
      FreshAssigns(init);
      var c, prev := After(Fresh, init), Seen(init);
      if last in prev {
        assert Seen(speakers) == prev && After(Fresh, speakers) == c;
      } else {
        assert Seen(speakers) == prev + [last];
        AssignsNew(c, prev, last);
      }
    }
  }

  /** A speaker not yet seen gets the colour at the counter, and the
      speakers seen before keep theirs. */
  lemma AssignsNew(c: Cache, prev: seq<string>, last: string)
    requires c.colorIndex == |prev| && last !in prev
    requires forall s :: s in c.colors <==> s in prev
    requires forall k :: 0 <= k < |prev| ==> prev[k] in c.colors && c.colors[prev[k]] == NextColor(k)
    ensures var d, seen := Step(c, last), prev + [last];
      d.colorIndex == |seen| &&
      (forall s :: s in d.colors <==> s in seen) &&
      forall k :: 0 <= k < |seen| ==> seen[k] in d.colors && d.colors[seen[k]] == NextColor(k)
  {
    var seen := prev + [last];
    forall k | 0 <= k < |prev|
      ensures seen[k] == prev[k] != last
    {
    }
  }

  /** The first ten distinct speakers get ten different colours, and the
      eleventh shares the first one's. */
  lemma RoundRobin(speakers: seq<string>)
    ensures var c := After(Fresh, speakers);
      var seen := Seen(speakers);
      (forall i, j :: 0 <= i < j < |seen| && j < 10 ==>
        seen[i] in c.colors && seen[j] in c.colors && c.colors[seen[i]] != c.colors[seen[j]]) &&
      (|seen| > 10 ==> seen[10] in c.colors && seen[0] in c.colors && c.colors[seen[10]] == c.colors[seen[0]])
  {
    FreshAssigns(speakers);
    NextColorRoundRobin();
  }

  /** Counters 0 to 9 pick ten different colours; counter 10 picks the
      first again. */
  lemma NextColorRoundRobin()
    ensures forall i, j :: 0 <= i < j < 10 ==> NextColor(i) != NextColor(j)
    ensures NextColor(10) == NextColor(0)
  {
    PaletteDistinct();
    assert forall i :: 0 <= i < 10 ==> NextColor(i) == Palette[i];
  }

  /** Two passes of calls are one pass over both. */
  lemma {:induction false} AfterConcat(c: Cache, a: seq<string>, b: seq<string>)
    ensures After(c, a + b) == After(After(c, a), b)
    decreases |b|
  {
    if |b| == 0 {
      assert a + b == a;
    } else {
      assert (a + b)[..|a + b| - 1] == a + b[..|b| - 1];
      AfterConcat(c, a, b[..|b| - 1]);
    }
  }

  /** The module-level cache, shared by every render of the panel. */
  class SpeakerColors {
    var colors: map<string, string>
    var colorIndex: nat

    constructor ()
      ensures State() == Fresh
    {
      colors := map[];
      colorIndex := 0;
    }

    function State(): Cache
      reads this
    {
      Cache(colors, colorIndex)
    }

    /** `getDynamicSpeakerColor`, looking the speaker up among the map's
        own entries. */
    method DynamicColor(speaker: string) returns (color: string)
      modifies this
      ensures color == ColorFor(old(State()), speaker)
      ensures State() == Step(old(State()), speaker)
    {
      if speaker in colors {
        return colors[speaker];
      }
      color := Palette[colorIndex % |Palette|];
      colors := colors[speaker := color];
      colorIndex := colorIndex + 1;
    }

    /** One render of the entries: a badge colour per entry, in order. */
    method RenderColors(speakers: seq<string>) returns (badges: seq<string>)
      modifies this
      ensures badges == ColorsOf(old(State()), speakers)
      ensures State() == After(old(State()), speakers)
    {
      badges := [];
      var i := 0;
      while i < |speakers|
        invariant i <= |speakers|
        invariant badges == ColorsOf(old(State()), speakers[..i])
        invariant State() == After(old(State()), speakers[..i])
      {
        assert speakers[..i + 1][..i] == speakers[..i];
        var color := DynamicColor(speakers[i]);
        badges := badges + [color];
        i := i + 1;
      }
      assert speakers[..i] == speakers;
    }
  }

  // ---------------------------------------------------------------------
  // The lookup as written: a plain object inherits from Object.prototype
  // ---------------------------------------------------------------------

  /** What `speakerColorMap[speaker]` can yield: an own entry, or a
      property every plain object inherits. */
  datatype Found = Own(color: string) | Inherited(name: string)

  /** The properties of Object.prototype (section 20.1.3 of ECMA-262) and
      the `__proto__` accessor: all of them are truthy. */
  const InheritedNames: set<string> := {
    "constructor", "hasOwnProperty", "isPrototypeOf", "propertyIsEnumerable", "toLocaleString",
    "toString", "valueOf", "__proto__", "__defineGetter__", "__defineSetter__",
    "__lookupGetter__", "__lookupSetter__"
  }

  /** `speakerColorMap[speaker]` on a plain object. */
  function LookupAsWritten(colors: map<string, string>, speaker: string): Option<Found> {
    if speaker in colors then Some(Own(colors[speaker]))
    else if speaker in InheritedNames then Some(Inherited(speaker))
    else None
  }

  /** `getDynamicSpeakerColor` as written: a truthy lookup is returned
      as it is, whatever it is. */
  function ColorAsWritten(c: Cache, speaker: string): (Found, Cache) {
    match LookupAsWritten(c.colors, speaker)
    case Some(Own(color)) => if color != "" then (Own(color), c) else (Own(NextColor(c.colorIndex)), Step(c, speaker))
    case Some(Inherited(name)) => (Inherited(name), c)
    case None => (Own(NextColor(c.colorIndex)), Step(c, speaker))
  }

  /** A speaker named "constructor" gets Object's constructor function as
      its badge class, not a palette colour, and is never added to the
      cache; the own-entry lookup gives it the first palette colour. */
  lemma InheritedNameGetsNoColor()
    ensures ColorAsWritten(Fresh, "constructor") == (Inherited("constructor"), Fresh)
    ensures ColorFor(Fresh, "constructor") == Palette[0]
    ensures "constructor" in Step(Fresh, "constructor").colors
  {
  }

  /** For every other speaker the code as written agrees with the
      own-entry lookup on a valid cache. */
  lemma AsWrittenAgreesElsewhere(c: Cache, speaker: string)
    requires Valid(c) && speaker !in InheritedNames
    ensures ColorAsWritten(c, speaker) == (Own(ColorFor(c, speaker)), Step(c, speaker))
  {
    if speaker in c.colors {
      PaletteDistinct();
      var k :| 0 <= k < |Palette| && Palette[k] == c.colors[speaker];
    }
  }
}
