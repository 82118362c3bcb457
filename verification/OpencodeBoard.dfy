/** What an Opencode conversation shows of its texts, stated against the history of events alone: which segments
    have an entry, what it shows, and when it is up to date. */
module OpencodeBoard {
  import opened Text
  import opened Conversation
  import opened Opencode
  import opened OpencodeProperties

  // ---------- The history as reference ----------

  ghost predicate Speaks(role: Option<string>) {
    role.Some? && role.value != "user"
  }

  /** The last event shows segment `k`: it brings text to it while its message has a role other than the user's,
      or gives its message such a role while it is the current segment and has text. */
  ghost predicate Shows(h: seq<Event>, k: SegKey) {
    && h != [] && k.segment == Segment(h, k.key)
    && (|| (IsText(Last(h), k.key) && Speaks(RoleOf(h, k.key.message)))
        || (Last(h).Meta? && Key(Last(h).session, Last(h).message) == k.key && Speaks(Last(h).role)
            && Pieces(h, k.key, k.segment) != []))
  }

  /** A segment as it stands: who speaks, and the newest text of every part in the order first seen. */
  ghost function TextNow(h: seq<Event>, k: SegKey): Entry {
    TextEntry(RoleOf(h, k.key.message) == Some("system"), Spell(Pieces(h, k.key, k.segment)))
  }

  /** The segment as it stood when it was last shown. */
  ghost function ShownEntry(h: seq<Event>, k: SegKey): (e: Option<Entry>)
    ensures e.Some? ==> e.value.TextEntry?
  {
    if h == [] then None else if Shows(h, k) then Some(TextNow(h, k)) else ShownEntry(Front(h), k)
  }

  // ---------- The board ----------

  ghost predicate ShowsSegment(s: State, b: Board<Entry>, h: seq<Event>, k: SegKey) {
    && (k in s.byMessage <==> ShownEntry(h, k).Some?)
    && (k in s.byMessage ==>
          && k.segment <= Segment(h, k.key) && s.byMessage[k] in b
          && Some(b[s.byMessage[k]]) == ShownEntry(h, k))
  }

  ghost predicate Ordered(s: State) {
    && (forall k, k' :: k in s.byMessage && k' in s.byMessage && s.byMessage[k] == s.byMessage[k'] ==> k == k')
    && forall k, k' :: k in s.byMessage && k' in s.byMessage && k.key == k'.key && k.segment < k'.segment ==>
                         s.byMessage[k] < s.byMessage[k']
  }

  ghost predicate PartsShown(s: State, b: Board<Entry>) {
    forall p :: p in s.byPart ==> s.byPart[p] in b && b[s.byPart[p]].ToolEntry?
  }

  ghost predicate Inv(s: State, b: Board<Entry>, h: seq<Event>, supply: Supply) {
    && Holds(b, supply, s.used) && Ordered(s)
    && (forall k :: ShowsSegment(s, b, h, k)) && PartsShown(s, b)
  }

  /** A step that starts with `used` positions drawn and plays by the rules. */
  ghost predicate Good(used: nat, b: Board<Entry>, h: seq<Event>, supply: Supply, st: Step) {
    && Disciplined(b, st.patches) && used <= st.state.used
    && Added(st.patches) == Handed(supply, used, st.state.used)
    && Inv(st.state, Play(b, st.patches), h, supply)
  }

  lemma GoodQuiet(b: Board<Entry>, h: seq<Event>, supply: Supply, s: State)
    requires Inv(s, b, h, supply)
    ensures Good(s.used, b, h, supply, Step(s, []))
  {
    hide ShowsSegment, Holds, Ordered, PartsShown;
  }

  lemma NextIsLast(b: Board<Entry>, supply: Supply, used: nat, i: nat)
    requires Increasing(supply) && Holds(b, supply, used) && i in b
    ensures i < supply(used)
  {
    assert IsHanded(supply, used, i);
  }

  /** A segment that the event does not show stays as it is, if nobody touched its entry. */
  lemma StillShown(s: State, b: Board<Entry>, h: seq<Event>, s': State, b': Board<Entry>, k: SegKey)
    requires h != [] && ShowsSegment(s, b, Front(h), k) && !Shows(h, k)
    requires k in s'.byMessage <==> k in s.byMessage
    requires k in s.byMessage ==> s.byMessage[k] in b ==>
               s'.byMessage[k] == s.byMessage[k] && s.byMessage[k] in b' && b'[s.byMessage[k]] == b[s.byMessage[k]]
    ensures ShowsSegment(s', b', h, k)
  {
    assert Segment(Front(h), k.key) <= Segment(h, k.key);
    assert ShownEntry(h, k) == ShownEntry(Front(h), k);
    hide Segment, Shows, ShownEntry, TextNow;
  }

  ghost predicate RestShown(s: State, b: Board<Entry>, h: seq<Event>, k: SegKey) {
    forall j :: j != k ==> ShowsSegment(s, b, h, j)
  }

  ghost predicate IsTextAt(s: State, b: Board<Entry>, k: SegKey) {
    k in s.byMessage ==> s.byMessage[k] in b && b[s.byMessage[k]].TextEntry?
  }

  /** Showing a segment as it stands. */
  lemma GoodShow(s: State, b: Board<Entry>, h: seq<Event>, supply: Supply, k: SegKey, e: Entry)
    requires Increasing(supply) && Holds(b, supply, s.used) && Ordered(s) && RestShown(s, b, h, k) && PartsShown(s, b)
    requires IsTextAt(s, b, k) && Shows(h, k) && e == TextNow(h, k)
    ensures Good(s.used, b, h, supply, ShowText(s, supply, k, e))
  {
    hide Holds, Increasing, NeverRepeats, Play, Disciplined, Added, Ordered, PartsShown, ShowsSegment, RestShown, Shows;
    hide TextNow;
    var st := ShowText(s, supply, k, e);
    var p := st.patches[0];
    IncreasingNeverRepeats(supply);
    HoldsNext(b, supply, s.used, e);
    assert st.patches == [p];
    PlayOne(b, p);
    HoldsPatch(b, supply, s.used, p);
    ShowKeepsOthers(s, b, h, supply, k, e);
    ShowKeepsOrder(s, b, h, supply, k, e);
  }

  lemma ShowKeepsOthers(s: State, b: Board<Entry>, h: seq<Event>, supply: Supply, k: SegKey, e: Entry)
    requires Ordered(s) && RestShown(s, b, h, k) && PartsShown(s, b) && supply(s.used) !in b
    requires IsTextAt(s, b, k) && Shows(h, k) && e == TextNow(h, k)
    ensures var st := ShowText(s, supply, k, e); var b' := b[st.patches[0].index := e];
            PartsShown(st.state, b') && forall j :: ShowsSegment(st.state, b', h, j)
  {
    var st := ShowText(s, supply, k, e);
    var b' := b[st.patches[0].index := e];
    assert ShownEntry(h, k) == Some(e) && k.segment <= Segment(h, k.key);
    hide Segment, Shows, TextNow;
    forall j
      ensures ShowsSegment(st.state, b', h, j)
    {
      assert j != k ==> ShowsSegment(s, b, h, j);
    }
  }

  lemma ShowKeepsOrder(s: State, b: Board<Entry>, h: seq<Event>, supply: Supply, k: SegKey, e: Entry)
    requires Increasing(supply) && Holds(b, supply, s.used) && Ordered(s) && RestShown(s, b, h, k)
    requires Shows(h, k)
    ensures Ordered(ShowText(s, supply, k, e).state)
  {
    hide Segment, ShownEntry, Increasing, Holds, ShowsSegment;
    assert k.segment == Segment(h, k.key);
    hide Shows;
    forall j | j in s.byMessage && j != k
      ensures s.byMessage[j] < supply(s.used) && j.segment <= Segment(h, j.key)
    {
      assert ShowsSegment(s, b, h, j);
      ShownBefore(s, b, h, supply, j);
    }
    hide RestShown;
  }

  lemma ShownBefore(s: State, b: Board<Entry>, h: seq<Event>, supply: Supply, k: SegKey)
    requires Increasing(supply) && Holds(b, supply, s.used) && ShowsSegment(s, b, h, k) && k in s.byMessage
    ensures s.byMessage[k] < supply(s.used) && k.segment <= Segment(h, k.key)
  {
    hide Segment, ShownEntry, Increasing, Holds;
    NextIsLast(b, supply, s.used, s.byMessage[k]);
  }

  // ---------- One event ----------

  /** All segments but one are shown as before. */
  lemma OthersShown(s: State, b: Board<Entry>, h: seq<Event>, t: State, k: SegKey)
    requires h != [] && (forall j :: ShowsSegment(s, b, Front(h), j)) && t.byMessage == s.byMessage
    requires forall j :: j != k ==> !Shows(h, j)
    ensures RestShown(t, b, h, k) && IsTextAt(t, b, k) && (!Shows(h, k) ==> ShowsSegment(t, b, h, k))
  {
    hide ShowsSegment, Shows;
    forall j | j != k || !Shows(h, k)
      ensures ShowsSegment(t, b, h, j)
    {
      assert ShowsSegment(s, b, Front(h), j);
      StillShown(s, b, h, t, b, j);
    }
    assert ShowsSegment(s, b, Front(h), k);
    ShownIsText(s, b, Front(h), k);
  }

  lemma ShownIsText(s: State, b: Board<Entry>, h: seq<Event>, k: SegKey)
    requires ShowsSegment(s, b, h, k)
    ensures IsTextAt(s, b, k)
  {
    hide ShownEntry, Segment;
  }

  /** Positions after a step that only changed other maps. */
  ghost predicate SamePositions(s: State, t: State) {
    t.byMessage == s.byMessage && t.byPart == s.byPart && t.used == s.used
  }

  lemma QuietOrShow(s: State, b: Board<Entry>, h: seq<Event>, supply: Supply, t: State, k: SegKey, show: bool, e: Entry)
    requires h != [] && Increasing(supply) && Inv(s, b, Front(h), supply) && SamePositions(s, t)
    requires (forall j :: j != k ==> !Shows(h, j)) && show == Shows(h, k) && (show ==> e == TextNow(h, k))
    ensures Good(s.used, b, h, supply, if show then ShowText(t, supply, k, e) else Step(t, []))
  {
    OthersShown(s, b, h, t, k);
    assert Ordered(t) && PartsShown(t, b);
    hide ShowsSegment, Shows, TextNow, Ordered, PartsShown, Holds, ShowText, Increasing, Good;
    if show {
      GoodShow(t, b, h, supply, k, e);
    } else {
      GoodQuiet(b, h, supply, t);
    }
  }

  lemma TextShows(s: State, h: seq<Event>, supply: Supply)
    requires h != [] && Last(h).TextPart? && Tracks(s, Front(h))
    ensures var ev := Last(h); var s1 := OpenSegment(s, ev.key); var k := Current(s1, ev.key);
            var s2 := StoreText(s1, k, ev.part, ev.text);
            var show := ev.key.message in s.roles && s.roles[ev.key.message] != "user";
            && (forall j :: j != k ==> !Shows(h, j)) && show == Shows(h, k) && SamePositions(s, s2)
            && k in s2.aggregated && (show ==> RoleEntry(s.roles[ev.key.message], s2.aggregated[k]) == TextNow(h, k))
  {
    var ev := Last(h);
    var s1 := OpenSegment(s, ev.key);
    var k := Current(s1, ev.key);
    assert TracksKey(s, Front(h), ev.key);
    TextTracksKey(s, h, supply, ev.key);
    SegmentOf(s1, ev.key);
    OpenSegmentKeeps(s, ev.key);
    StoreTextKeeps(s1, k, ev.part, ev.text);
    TextSpells(s, h, supply, k);
    RoleOfFront(s, h, ev.key.message);
    hide Segment, Pieces, Spell, Broken, OpenSegment, StoreText, Current, TracksKey, TracksSegment, RoleOf, Tracks;
  }

  lemma SegmentOf(s: State, key: Key)
    ensures Current(s, key).key == key
  {
  }

  lemma RoleOfFront(s: State, h: seq<Event>, m: string)
    requires h != [] && Tracks(s, Front(h)) && !Last(h).Meta?
    ensures RoleOf(h, m) == if m in s.roles then Some(s.roles[m]) else None
  {
    hide TracksKey, TracksSegment;
  }

  lemma GoodText(s: State, b: Board<Entry>, h: seq<Event>, supply: Supply)
    requires h != [] && Last(h).TextPart? && Increasing(supply) && Tracks(s, Front(h)) && Inv(s, b, Front(h), supply)
    ensures Good(s.used, b, h, supply, Normalize(s, supply, Last(h)))
  {
    hide OnText, OpenSegment, StoreText, ShowText, Current, Shows, Inv, Good, Tracks, TextNow;
    var ev := Last(h);
    var s1 := OpenSegment(s, ev.key);
    var k := Current(s1, ev.key);
    var s2 := StoreText(s1, k, ev.part, ev.text);
    TextShows(s, h, supply);
    TextShape(s, supply, ev.key, ev.part, ev.text);
    var show := ev.key.message in s.roles && s.roles[ev.key.message] != "user";
    var e := if show then RoleEntry(s.roles[ev.key.message], s2.aggregated[k]) else TextEntry(false, "");
    QuietOrShow(s, b, h, supply, s2, k, show, e);
  }

  lemma MetaShows(s: State, h: seq<Event>)
    requires h != [] && Last(h).Meta? && Tracks(s, Front(h))
    ensures var ev := Last(h); var k := Current(s, Key(ev.session, ev.message));
            var show := ev.role.Some? && k in s.aggregated && ev.role.value != "user";
            && (forall j :: j != k ==> !Shows(h, j)) && show == Shows(h, k)
            && (show ==> RoleEntry(ev.role.value, s.aggregated[k]) == TextNow(h, k))
  {
    var ev := Last(h);
    var key := Key(ev.session, ev.message);
    var k := Current(s, key);
    assert TracksKey(s, Front(h), key) && TracksSegment(s, Front(h), k);
    SegmentOf(s, key);
    MetaKeepsPieces(h);
    assert RoleOf(h, ev.message) == if ev.role.Some? then ev.role else RoleOf(Front(h), ev.message);
    hide Segment, Pieces, Spell, Broken, Current, RoleOf, FirstSeen, Newest;
  }

  lemma MetaKeepsPieces(h: seq<Event>)
    requires h != [] && !Last(h).TextPart?
    ensures forall key :: Segment(h, key) == Segment(Front(h), key)
    ensures forall key, n :: Pieces(h, key, n) == Pieces(Front(h), key, n)
  {
  }

  lemma GoodMeta(s: State, b: Board<Entry>, h: seq<Event>, supply: Supply)
    requires h != [] && Last(h).Meta? && Increasing(supply) && Tracks(s, Front(h)) && Inv(s, b, Front(h), supply)
    ensures Good(s.used, b, h, supply, Normalize(s, supply, Last(h)))
  {
    hide ShowText, Current, Shows, Inv, Good, Tracks, TextNow;
    var ev := Last(h);
    var t := if ev.role.Some? then SetRole(s, ev.message, ev.role.value) else s;
    var k := Current(s, Key(ev.session, ev.message));
    MetaShows(s, h);
    var show := ev.role.Some? && k in s.aggregated && ev.role.value != "user";
    var e := if show then RoleEntry(ev.role.value, s.aggregated[k]) else TextEntry(false, "");
    QuietOrShow(s, b, h, supply, t, k, show, e);
  }

  lemma GoodTool(s: State, b: Board<Entry>, h: seq<Event>, supply: Supply)
    requires h != [] && Last(h).ToolPart? && Increasing(supply) && Inv(s, b, Front(h), supply)
    ensures Good(s.used, b, h, supply, Normalize(s, supply, Last(h)))
  {
    var ev := Last(h);
    ToolPatch(s, supply, ev.key, ev.part, ev.summary);
    hide OnTool;
    var st := OnTool(s, supply, ev.key, ev.part, ev.summary);
    var p, s' := st.patches[0], st.state;
    ToolKeepsTexts(s, b, h, s', p);
    hide ShowsSegment;
    GoodToolPatch(s, b, h, supply, s', ev.part, p);
  }

  lemma GoodToolPatch(s: State, b: Board<Entry>, h: seq<Event>, supply: Supply, s': State, part: string,
                      p: Patch<Entry>)
    requires Increasing(supply) && Holds(b, supply, s.used) && Ordered(s) && PartsShown(s, b) && !p.Remove?
             && p.entry.ToolEntry?
    requires if part in s.byPart then p.Replace? && p.index == s.byPart[part] && s'.used == s.used
             else p.Add? && p.index == supply(s.used) && s'.used == s.used + 1
    requires s'.byPart == s.byPart[part := p.index] && s'.byMessage == s.byMessage
    requires var b' := b[p.index := p.entry]; forall k :: ShowsSegment(s', b', h, k)
    ensures Good(s.used, b, h, supply, Step(s', [p]))
  {
    hide Holds, Increasing, NeverRepeats, Play, Disciplined, Added, ShowsSegment;
    IncreasingNeverRepeats(supply);
    HoldsNext(b, supply, s.used, p.entry);
    PlayOne(b, p);
    HoldsPatch(b, supply, s.used, p);
  }

  lemma ToolPatch(s: State, supply: Supply, key: Key, part: string, summary: string)
    ensures var st := OnTool(s, supply, key, part, summary);
            var i := if part in s.byPart then s.byPart[part] else supply(s.used);
            && st.patches == [if part in s.byPart then Replace(i, ToolEntry(summary)) else Add(i, ToolEntry(summary))]
            && st.state.byPart == s.byPart[part := i] && st.state.used == s.used + (if part in s.byPart then 0 else 1)
            && st.state.byMessage == s.byMessage && st.state.roles == s.roles
  {
    MarkBreakKeeps(s, key);
    ShowToolKeeps(MarkBreak(s, key), supply, part, ToolEntry(summary));
    assert part in s.byPart ==> s.byPart[part := s.byPart[part]] == s.byPart;
    hide MarkBreak;
  }

  lemma ToolKeepsTexts(s: State, b: Board<Entry>, h: seq<Event>, s': State, p: Patch<Entry>)
    requires h != [] && Last(h).ToolPart? && (forall k :: ShowsSegment(s, b, Front(h), k))
    requires s'.byMessage == s.byMessage && !p.Remove?
    requires p.index in b ==> b[p.index].ToolEntry?
    ensures var b' := b[p.index := p.entry]; forall k :: ShowsSegment(s', b', h, k)
  {
    var b' := b[p.index := p.entry];
    forall j
      ensures ShowsSegment(s', b', h, j)
    {
      assert ShowsSegment(s, b, Front(h), j);
      ShownIsText(s, b, Front(h), j);
      assert !Shows(h, j);
      hide ShowsSegment, Shows;
      StillShown(s, b, h, s', b', j);
    }
  }

  lemma GoodEvent(s: State, b: Board<Entry>, h: seq<Event>, supply: Supply)
    requires h != [] && Increasing(supply) && Tracks(s, Front(h)) && Inv(s, b, Front(h), supply)
    ensures Good(s.used, b, h, supply, Normalize(s, supply, Last(h)))
  {
    hide Good, Tracks;
    if Last(h).Meta? {
      GoodMeta(s, b, h, supply);
    } else if Last(h).TextPart? {
      GoodText(s, b, h, supply);
    } else if Last(h).ToolPart? {
      GoodTool(s, b, h, supply);
    } else {
      assert forall j :: !Shows(h, j);
      hide Inv, Shows;
      QuietOrShow(s, b, h, supply, s, SegKey(Key("", ""), 0), false, TextEntry(false, ""));
    }
  }

  // ---------- Runs ----------

  /** Over every run, whatever the roles do and whoever else draws positions: each position drawn is added once; a
      segment has an entry exactly when some event showed it; the entry shows the segment as it stood when it was
      last shown; and later segments of a message come after earlier ones. */
  lemma {:induction false} RunShows(h: seq<Event>, supply: Supply)
    requires Increasing(supply)
    ensures Good(0, map[], h, supply, Run(INIT, supply, h))
    decreases |h|
  {
    if h == [] {
      NothingYet(supply);
    } else {
      hide Normalize, Inv, Tracks;
      RunShows(Front(h), supply);
      RunTracks(Front(h), supply);
      var before := Run(INIT, supply, Front(h));
      var b := Play(map[], before.patches);
      GoodEvent(before.state, b, h, supply);
      var last := Normalize(before.state, supply, Last(h));
      PlayAppend(map[], before.patches, last.patches);
      HandedAppend(supply, 0, before.state.used, last.state.used);
    }
  }

  lemma NothingYet(supply: Supply)
    ensures Good(0, map[], [], supply, Step(INIT, []))
  {
  }

  /** A segment has an entry exactly when the last event of some beginning of the history showed it. */
  lemma {:induction false} ShownIffShows(h: seq<Event>, k: SegKey)
    ensures ShownEntry(h, k).Some? <==> exists n :: 0 <= n <= |h| && Shows(h[..n], k)
    decreases |h|
  {
    if h != [] {
      ShownIffShows(Front(h), k);
      hide Shows, TextNow;
      assert h[..|h|] == h;
      if ShownEntry(Front(h), k).Some? {
        var n :| 0 <= n <= |Front(h)| && Shows(Front(h)[..n], k);
        assert Front(h)[..n] == h[..n];
      }
      forall n | 0 <= n <= |h| && Shows(h[..n], k)
        ensures ShownEntry(h, k).Some?
      {
        if n < |h| {
          assert Front(h)[..n] == h[..n];
        }
      }
    }
  }

  // ---------- When entries are up to date ----------

  /** If the segment has an entry, it shows the newest text of every part. */
  ghost predicate UpToDate(h: seq<Event>, k: SegKey) {
    ShownEntry(h, k).Some? ==> ShownEntry(h, k).value.content == Spell(Pieces(h, k.key, k.segment))
  }

  ghost predicate AlwaysUpToDate(h: seq<Event>) {
    h == [] || (AlwaysUpToDate(Front(h)) && forall k :: UpToDate(h, k))
  }

  /** The last event changes the text of a segment that has an entry, while its message is the user's. */
  ghost predicate Misses(h: seq<Event>, k: SegKey) {
    && h != [] && IsText(Last(h), k.key) && k.segment == Segment(h, k.key)
    && ShownEntry(Front(h), k).Some? && RoleOf(h, k.key.message) == Some("user")
    && Spell(Pieces(h, k.key, k.segment)) != Spell(Pieces(Front(h), k.key, k.segment))
  }

  ghost predicate NeverMisses(h: seq<Event>) {
    h == [] || (NeverMisses(Front(h)) && forall k :: !Misses(h, k))
  }

  lemma {:induction false} ShownHasRole(h: seq<Event>, k: SegKey)
    requires ShownEntry(h, k).Some?
    ensures RoleOf(h, k.key.message).Some?
    decreases |h|
  {
    hide Segment, Pieces, TextNow;
    if !Shows(h, k) {
      ShownHasRole(Front(h), k);
    }
  }

  /** The last event brings text to the segment. */
  ghost predicate Feeds(h: seq<Event>, k: SegKey) {
    h != [] && IsText(Last(h), k.key) && k.segment == Segment(h, k.key)
  }

  lemma UnfedKeepsPieces(h: seq<Event>, k: SegKey)
    requires h != [] && !Feeds(h, k)
    ensures Pieces(h, k.key, k.segment) == Pieces(Front(h), k.key, k.segment)
  {
    hide Spell, Broken;
  }

  lemma FedKeepsRole(h: seq<Event>, k: SegKey)
    requires Feeds(h, k)
    ensures RoleOf(h, k.key.message) == RoleOf(Front(h), k.key.message)
  {
    hide Segment;
  }

  /** What a segment that feeds or not shows after the event. */
  lemma FedIsShown(h: seq<Event>, k: SegKey)
    requires Feeds(h, k)
    ensures Shows(h, k) <==> Speaks(RoleOf(h, k.key.message))
  {
    hide Segment, Pieces, RoleOf;
  }

  lemma UpToDateMeans(h: seq<Event>, k: SegKey)
    requires h != []
    ensures UpToDate(h, k)
       <==> Shows(h, k) || (ShownEntry(Front(h), k).Some? ==>
                              ShownEntry(Front(h), k).value.content == Spell(Pieces(h, k.key, k.segment)))
  {
    hide Segment, Pieces, Spell, RoleOf, Shows;
  }

  lemma OneMiss(h: seq<Event>, k: SegKey)
    requires h != [] && UpToDate(Front(h), k)
    ensures UpToDate(h, k) <==> !Misses(h, k)
  {
    hide Segment, Pieces, Spell, RoleOf, ShownEntry;
    UpToDateMeans(h, k);
    if ShownEntry(Front(h), k).Some? {
      ShownHasRole(Front(h), k);
    }
    if Feeds(h, k) {
      FedKeepsRole(h, k);
      FedIsShown(h, k);
    } else {
      UnfedKeepsPieces(h, k);
    }
  }

  /** Every entry shows the newest text of every part of its segment at every moment, if and only if no text event
      changes a segment that has an entry while its message is the user's. */
  lemma {:induction false} UpToDateIff(h: seq<Event>)
    ensures AlwaysUpToDate(h) <==> NeverMisses(h)
    decreases |h|
  {
    hide UpToDate, Misses;
    if h != [] {
      UpToDateIff(Front(h));
      if AlwaysUpToDate(Front(h)) {
        forall k
          ensures UpToDate(h, k) <==> !Misses(h, k)
        {
          UpToDateNow(Front(h), k);
          OneMiss(h, k);
        }
      }
    }
  }

  lemma UpToDateNow(h: seq<Event>, k: SegKey)
    requires AlwaysUpToDate(h)
    ensures UpToDate(h, k)
  {
  }

  /** In particular when no message that had another role is declared the user's. */
  lemma {:induction false} KeptRolesNeverMiss(h: seq<Event>)
    requires RolesKept(h)
    ensures NeverMisses(h) && forall k :: ShownEntry(h, k).Some? ==> Speaks(RoleOf(h, k.key.message))
    decreases |h|
  {
    hide Segment, Pieces, TextNow, Spell;
    if h != [] {
      KeptRolesNeverMiss(Front(h));
      forall k | ShownEntry(h, k).Some?
        ensures Speaks(RoleOf(h, k.key.message))
      {
        if !Shows(h, k) {
          assert Speaks(RoleOf(Front(h), k.key.message));
        }
      }
      forall k
        ensures !Misses(h, k)
      {
        assert ShownEntry(Front(h), k).Some? ==> Speaks(RoleOf(Front(h), k.key.message));
      }
    }
  }

  const ROLE_CHANGES: seq<Event> := [Meta("s", "m", Some("assistant")), TextPart(Key("s", "m"), "p", "a"),
                                     Meta("s", "m", Some("user")), TextPart(Key("s", "m"), "q", "b")]

  /** Such a run: an entry that was shown stays as it was when its message is declared the user's, while the
      segment grows. */
  lemma RoleChangeLeavesEntryBehind()
    ensures !NeverMisses(ROLE_CHANGES) && !RolesKept(ROLE_CHANGES)
    ensures Run(INIT, Own, ROLE_CHANGES).patches == [Add(0, TextEntry(false, "a"))]
    ensures Spell(Pieces(ROLE_CHANGES, Key("s", "m"), 0)) == "ab"
  {
    hide Run, Spell, Pieces, RolesKept, NeverMisses;
    RoleChangeRun();
    RoleChangeSpells();
    RoleIsChanged();
    RoleChangeMisses();
  }

  lemma RoleChangeMisses()
    ensures !NeverMisses(ROLE_CHANGES)
  {
    hide RoleOf, Segment, Pieces, Spell, ShownEntry;
    RoleChangeSpells();
    RoleChangeSpeaks();
    RoleChangeShown();
    var h, k := ROLE_CHANGES, SegKey(Key("s", "m"), 0);
    assert "ab"[1] == 'b' && |"a"| == 1;
    assert Misses(h, k);
  }

  /** The history of one message: its segment, whether it is closed, and the pieces of its first segment. */
  ghost predicate HistoryAt(h: seq<Event>, key: Key, segment: nat, broken: bool, pieces: seq<Piece>) {
    Segment(h, key) == segment && Broken(h, key) == broken && Pieces(h, key, 0) == pieces
  }

  lemma NoHistory(h: seq<Event>, key: Key)
    ensures HistoryAt(h[..0], key, 0, false, []) && RoleOf(h[..0], key.message).None?
  {
  }

  lemma PrefixStep(h: seq<Event>, n: nat)
    requires n < |h|
    ensures Front(h[..n + 1]) == h[..n] && Last(h[..n + 1]) == h[n]
  {
  }

  lemma TextAt(h: seq<Event>, n: nat, key: Key, segment: nat, broken: bool, pieces: seq<Piece>)
    requires n < |h| && IsText(h[n], key) && HistoryAt(h[..n], key, segment, broken, pieces)
    ensures var segment' := if broken then segment + 1 else segment;
            HistoryAt(h[..n + 1], key, segment', false,
                      if segment' == 0 then pieces + [Piece(h[n].part, h[n].text)] else pieces)
    ensures RoleOf(h[..n + 1], key.message) == RoleOf(h[..n], key.message)
  {
    hide Spell, Segment, Broken;
    PrefixStep(h, n);
    HistoryStep(h[..n + 1], key);
  }

  lemma ToolAt(h: seq<Event>, n: nat, key: Key, segment: nat, pieces: seq<Piece>)
    requires n < |h| && IsTool(h[n], key) && HistoryAt(h[..n], key, segment, false, pieces)
    requires segment == 0 && Spell(pieces) != ""
    ensures HistoryAt(h[..n + 1], key, segment, true, pieces)
    ensures RoleOf(h[..n + 1], key.message) == RoleOf(h[..n], key.message)
  {
    hide Spell;
    PrefixStep(h, n);
  }

  lemma MetaAt(h: seq<Event>, n: nat, key: Key, segment: nat, broken: bool, pieces: seq<Piece>)
    requires n < |h| && h[n].Meta? && HistoryAt(h[..n], key, segment, broken, pieces)
    ensures HistoryAt(h[..n + 1], key, segment, broken, pieces)
    ensures h[n].message == key.message && h[n].role.Some? ==> RoleOf(h[..n + 1], key.message) == h[n].role
  {
    hide Spell, Segment, Broken;
    PrefixStep(h, n);
    HistoryStep(h[..n + 1], key);
  }

  /** The roles, segments and pieces of the run. */
  lemma RoleChangeHistory()
    ensures var h, key, a, b := ROLE_CHANGES, Key("s", "m"), Piece("p", "a"), Piece("q", "b");
            && RoleOf(h[..1], "m") == Some("assistant") && RoleOf(h[..2], "m") == Some("assistant")
            && RoleOf(h[..3], "m") == Some("user") && RoleOf(h[..4], "m") == Some("user")
            && HistoryAt(h[..2], key, 0, false, [a]) && HistoryAt(h[..3], key, 0, false, [a])
            && HistoryAt(h[..4], key, 0, false, [a, b])
  {
    hide HistoryAt, RoleOf;
    var h, key, a, b := ROLE_CHANGES, Key("s", "m"), Piece("p", "a"), Piece("q", "b");
    NoHistory(h, key);
    MetaAt(h, 0, key, 0, false, []);
    TextAt(h, 1, key, 0, false, []);
    assert [] + [a] == [a] && [a] + [b] == [a, b];
    MetaAt(h, 2, key, 0, false, [a]);
    TextAt(h, 3, key, 0, false, [a]);
  }

  lemma RoleChangeSpeaks()
    ensures RoleOf(ROLE_CHANGES[..2], "m") == Some("assistant") && RoleOf(ROLE_CHANGES[..3], "m") == Some("user")
    ensures Segment(ROLE_CHANGES[..2], Key("s", "m")) == 0 && Segment(ROLE_CHANGES, Key("s", "m")) == 0
    ensures Spell(Pieces(ROLE_CHANGES[..3], Key("s", "m"), 0)) == "a"
    ensures RoleOf(ROLE_CHANGES, "m") == Some("user")
  {
    hide Segment, Pieces, Broken, Spell, RoleOf;
    RoleChangeHistory();
    SpellOne("p", "a");
    assert ROLE_CHANGES[..4] == ROLE_CHANGES;
  }

  lemma SpellOne(part: string, text: string)
    ensures Spell([Piece(part, text)]) == text
  {
    var x := Piece(part, text);
    SpellMore([], x);
    FirstOfNone();
    assert [] + [x] == [x] && FirstSeen([x]) == [part] && Newest([x]) == map[part := text];
    hide FirstSeen, Newest;
    JoinTwo(part, part, map[part := text]);
    hide Join;
  }

  lemma RoleChangeShown()
    ensures ShownEntry(ROLE_CHANGES[..3], SegKey(Key("s", "m"), 0)).Some?
  {
    hide RoleOf, Segment, Pieces, Spell, ShownEntry, Shows, TextNow;
    var h, k := ROLE_CHANGES, SegKey(Key("s", "m"), 0);
    RoleChangeSpeaks();
    assert "assistant"[0] != "user"[0];
    AssistantShows(h[..2], k);
    ShownNext(h, 1, k);
    ShownNext(h, 2, k);
  }

  lemma AssistantShows(h: seq<Event>, k: SegKey)
    requires Feeds(h, k) && Speaks(RoleOf(h, k.key.message))
    ensures Shows(h, k)
  {
    hide RoleOf, Segment, Pieces;
  }

  lemma RoleIsChanged()
    ensures !RolesKept(ROLE_CHANGES)
  {
    hide RoleOf, HistoryAt;
    RoleChangeHistory();
    var h := ROLE_CHANGES;
    PrefixStep(h, 2);
    PrefixStep(h, 3);
    assert h[..4] == h && "assistant"[0] != "user"[0];
    assert !RolesKept(h[..3]);
  }

  lemma SpellTwo(p: string, q: string, x: string, y: string)
    requires p != q
    ensures Spell([Piece(p, x), Piece(q, y)]) == x + y
  {
    hide Join;
    var a, b := Piece(p, x), Piece(q, y);
    FirstOfNone();
    SpellMore([], a);
    SpellMore([a], b);
    assert [] + [a] == [a] && [a] + [b] == [a, b];
    assert FirstSeen([a]) == [p] && FirstSeen([a, b]) == [p, q] && Newest([a, b]) == map[p := x][q := y];
    hide FirstSeen, Newest;
    JoinTwo(p, q, map[p := x][q := y]);
  }

  lemma RoleChangeSpells()
    ensures Spell(Pieces(ROLE_CHANGES, Key("s", "m"), 0)) == "ab"
  {
    hide Segment, Broken, Pieces, Spell, RoleOf;
    RoleChangeHistory();
    assert ROLE_CHANGES[..4] == ROLE_CHANGES && "p"[0] != "q"[0] && "a" + "b" == "ab";
    SpellTwo("p", "q", "a", "b");
  }

  lemma FirstOfNone()
    ensures FirstSeen([]) == [] && Newest([]) == map[]
  {
  }

  lemma JoinTwo(p: string, q: string, texts: map<string, string>)
    requires p in texts && q in texts
    ensures Join([p, q], texts) == texts[p] + texts[q]
    ensures Join([p], texts) == texts[p]
  {
    assert [p, q][..1] == [p] && [p][..0] == [];
    assert Join([p], texts) == "" + texts[p] == texts[p];
  }

  const KNOWN := INIT.(roles := map["m" := "assistant"])
  const SHOWING := var k := SegKey(Key("s", "m"), 0);
                   State(map[], map[k := 0], map[k := ["p"]], map[k := map["p" := "a"]], map[k := "a"], map[], {},
                         KNOWN.roles, 1)

  lemma FirstTextShows()
    ensures Normalize(KNOWN, Own, TextPart(Key("s", "m"), "p", "a")) == Step(SHOWING, [Add(0, TextEntry(false, "a"))])
  {
    JoinTwo("p", "p", map["p" := "a"]);
    assert [] + ["p"] == ["p"];
    hide Join;
  }

  lemma UserTextIsQuiet(s: State, key: Key, part: string, text: string)
    requires key.message in s.roles && s.roles[key.message] == "user"
    ensures Normalize(s, Own, TextPart(key, part, text)).patches == []
  {
    TextShape(s, Own, key, part, text);
    hide OnText;
  }

  lemma MetaSteps()
    ensures Normalize(INIT, Own, Meta("s", "m", Some("assistant"))) == Step(KNOWN, [])
    ensures Normalize(SHOWING, Own, Meta("s", "m", Some("user"))) == Step(SHOWING.(roles := map["m" := "user"]), [])
  {
    hide ShowText, OnText;
    assert KNOWN.roles["m" := "user"] == map["m" := "user"];
  }

  lemma RoleChangeRun()
    ensures Run(INIT, Own, ROLE_CHANGES).patches == [Add(0, TextEntry(false, "a"))]
  {
    hide Normalize, Run;
    var h, s3 := ROLE_CHANGES, SHOWING.(roles := map["m" := "user"]);
    MetaSteps();
    FirstTextShows();
    UserTextIsQuiet(s3, Key("s", "m"), "q", "b");
    RunOne(h, 0);
    RunOne(h, 1);
    RunOne(h, 2);
    RunOne(h, 3);
    assert h[..4] == h;
  }

  lemma RunOne(h: seq<Event>, n: nat)
    requires n < |h|
    ensures var before := Run(INIT, Own, h[..n]); var last := Normalize(before.state, Own, h[n]);
            Run(INIT, Own, h[..n + 1]) == Step(last.state, before.patches + last.patches)
    ensures Run(INIT, Own, h[..0]) == Step(INIT, [])
  {
    hide Normalize;
    assert h[..n + 1][..n] == h[..n];
  }

  /** Once a message has moved on from a segment that was never shown, the segment never is. */
  lemma {:induction false} MissedForever(h: seq<Event>, later: seq<Event>, k: SegKey)
    requires k.segment < Segment(h, k.key) && ShownEntry(h, k).None?
    ensures k.segment < Segment(h + later, k.key) && ShownEntry(h + later, k).None?
    decreases |later|
  {
    if later == [] {
      assert h + later == h;
    } else {
      MissedForever(h, Front(later), k);
      assert Front(h + later) == h + Front(later);
      assert Segment(Front(h + later), k.key) <= Segment(h + later, k.key);
      hide Segment, Pieces, RoleOf, TextNow;
    }
  }

  /** Text, a tool event, more text, and only then a role. */
  ghost predicate RoleTooLate(h: seq<Event>, key: Key) {
    |h| == 4 && IsText(h[0], key) && h[0].text != "" && IsTool(h[1], key) && IsText(h[2], key) && h[3].Meta?
  }

  /** In every such run the first text never appears. */
  lemma LateRoleLosesText(h: seq<Event>, key: Key, supply: Supply)
    requires Increasing(supply) && RoleTooLate(h, key)
    ensures var k := SegKey(key, 0);
            && Spell(Pieces(h, key, 0)) == h[0].text && ShownEntry(h, k).None?
            && k !in Run(INIT, supply, h).state.byMessage
  {
    hide Spell, Pieces, Segment, ShownEntry, Run, Holds;
    var k := SegKey(key, 0);
    LateRoleHistory(h, key);
    LateRoleShowsNothing(h, key);
    RunShows(h, supply);
    var st := Run(INIT, supply, h);
    assert ShowsSegment(st.state, Play(map[], st.patches), h, k);
  }

  lemma LateRoleHistory(h: seq<Event>, key: Key)
    requires RoleTooLate(h, key)
    ensures Spell(Pieces(h, key, 0)) == h[0].text && Segment(h[..3], key) == 1
    ensures RoleOf(h[..1], key.message).None? && RoleOf(h[..2], key.message).None?
  {
    hide Segment, Broken, Pieces, Spell, RoleOf;
    var one := Piece(h[0].part, h[0].text);
    SpellOne(one.part, one.text);
    NoHistory(h, key);
    TextAt(h, 0, key, 0, false, []);
    assert [] + [one] == [one];
    ToolAt(h, 1, key, 0, [one]);
    TextAt(h, 2, key, 0, true, [one]);
    MetaAt(h, 3, key, 1, false, [one]);
    assert h[..4] == h;
  }

  lemma LateRoleShowsNothing(h: seq<Event>, key: Key)
    requires RoleTooLate(h, key)
    ensures ShownEntry(h, SegKey(key, 0)).None?
  {
    hide Spell, Pieces, Segment, RoleOf, TextNow;
    var k := SegKey(key, 0);
    LateRoleHistory(h, key);
    ShownNext(h, 0, k);
    ShownNext(h, 1, k);
    ShownNext(h, 2, k);
    hide ShownEntry;
    assert h[..3] + [h[3]] == h;
    MissedForever(h[..3], [h[3]], k);
  }

  lemma ShownNext(h: seq<Event>, n: nat, k: SegKey)
    requires n < |h|
    ensures ShownEntry(h[..0], k).None?
    ensures ShownEntry(h[..n + 1], k)
            == if Shows(h[..n + 1], k) then Some(TextNow(h[..n + 1], k)) else ShownEntry(h[..n], k)
    ensures Last(h[..n + 1]) == h[n]
  {
    hide Shows, TextNow;
    assert Front(h[..n + 1]) == h[..n];
  }

  // ---------- Closed segments ----------

  /** The message has moved on from the segment, or a tool event has closed it. */
  ghost predicate Closed(h: seq<Event>, key: Key, segment: nat) {
    segment < Segment(h, key) || (segment == Segment(h, key) && Broken(h, key))
  }

  /** A closed segment stays closed and gets no more text. */
  lemma {:induction false} ClosedForever(h: seq<Event>, later: seq<Event>, key: Key, segment: nat)
    requires Closed(h, key, segment)
    ensures Closed(h + later, key, segment) && Pieces(h + later, key, segment) == Pieces(h, key, segment)
    decreases |later|
  {
    if later == [] {
      assert h + later == h;
    } else {
      ClosedForever(h, Front(later), key, segment);
      assert Front(h + later) == h + Front(later);
    }
  }

  /** Once a tool event follows text that is not empty, the entry of that segment keeps its position and its
      content forever, and text that comes later goes to a later position. */
  lemma ToolFreezesText(h: seq<Event>, tool: Event, later: seq<Event>, supply: Supply, key: Key)
    requires Increasing(supply) && RolesKept(h + [tool] + later)
    requires IsTool(tool, key) && Spell(Pieces(h, key, Segment(h, key))) != ""
    ensures var k := SegKey(key, Segment(h, key));
            var s, st := Run(INIT, supply, h + [tool]).state, Run(INIT, supply, h + [tool] + later);
            && (k in s.byMessage ==> k in st.state.byMessage && st.state.byMessage[k] == s.byMessage[k])
            && Disciplined(map[], st.patches)
            && var b := Play(map[], st.patches);
            && (k in st.state.byMessage ==>
                  var i := st.state.byMessage[k];
                  i in b && b[i].TextEntry? && b[i].content == Spell(Pieces(h, key, k.segment)))
            && (forall k': SegKey ::
                  k'.key == key && k.segment < k'.segment && k in st.state.byMessage && k' in st.state.byMessage ==>
                  st.state.byMessage[k] < st.state.byMessage[k'])
            && (forall t :: IsText(t, key) ==> k.segment < Segment(h + [tool] + later + [t], key))
  {
    var n, h1 := Segment(h, key), h + [tool];
    assert Front(h1) == h && Last(h1) == tool;
    assert Closed(h1, key, n) && Pieces(h1, key, n) == Pieces(h, key, n);
    ClosedForever(h1, later, key, n);
    forall t | IsText(t, key)
      ensures n < Segment(h1 + later + [t], key)
    {
      assert Front(h1 + later + [t]) == h1 + later;
    }
    hide Segment, Pieces, Spell, Broken;
    RunShows(h1 + later, supply);
    KeptRolesNeverMiss(h1 + later);
    UpToDateIff(h1 + later);
    UpToDateNow(h1 + later, SegKey(key, n));
    hide NeverMisses, AlwaysUpToDate, ShownEntry, RolesKept, Holds;
    var st := Run(INIT, supply, h1 + later);
    assert ShowsSegment(st.state, Play(map[], st.patches), h1 + later, SegKey(key, n));
    PositionKept(h1, later, supply, SegKey(key, n));
  }

  /** A segment keeps its position once it has one. */
  lemma {:induction false} PositionKept(h: seq<Event>, later: seq<Event>, supply: Supply, k: SegKey)
    ensures KeepsPosition(Run(INIT, supply, h).state, Run(INIT, supply, h + later).state, k)
    decreases |later|
  {
    if later == [] {
      assert h + later == h;
    } else {
      PositionKept(h, Front(later), supply, k);
      assert (h + later)[..|h + later| - 1] == h + Front(later) && (h + later)[|h + later| - 1] == Last(later);
      hide Normalize;
      EventKeepsPosition(Run(INIT, supply, h + Front(later)).state, supply, Last(later), k);
    }
  }

  ghost predicate KeepsPosition(s: State, t: State, k: SegKey) {
    k in s.byMessage ==> k in t.byMessage && t.byMessage[k] == s.byMessage[k]
  }

  lemma EventKeepsPosition(s: State, supply: Supply, ev: Event, k: SegKey)
    ensures KeepsPosition(s, Normalize(s, supply, ev).state, k)
  {
    match ev
    case TextPart(key, part, text) => TextKeepsPosition(s, supply, key, part, text, k);
    case ToolPart(key, part, summary) =>
      MarkBreakKeeps(s, key);
      ShowToolKeeps(MarkBreak(s, key), supply, part, ToolEntry(summary));
    case Meta(session, message, role) =>
      if role.Some? { MetaKeepsPosition(s, supply, session, message, role.value, k); }
    case _ =>
    hide OnText, OnMeta, MarkBreak, ShowTool;
  }

  lemma ShowKeepsPosition(s: State, supply: Supply, k': SegKey, e: Entry, k: SegKey)
    ensures KeepsPosition(s, ShowText(s, supply, k', e).state, k)
  {
  }

  lemma TextKeepsPosition(s: State, supply: Supply, key: Key, part: string, text: string, k: SegKey)
    ensures KeepsPosition(s, OnText(s, supply, key, part, text).state, k)
  {
    var s1 := OpenSegment(s, key);
    var k' := Current(s1, key);
    var s2 := StoreText(s1, k', part, text);
    OpenSegmentKeeps(s, key);
    StoreTextKeeps(s1, k', part, text);
    TextShape(s, supply, key, part, text);
    hide OnText, OpenSegment, StoreText, ShowText, Current;
    if key.message in s.roles && s.roles[key.message] != "user" {
      ShowKeepsPosition(s2, supply, k', RoleEntry(s.roles[key.message], s2.aggregated[k']), k);
    }
  }

  lemma MetaKeepsPosition(s: State, supply: Supply, session: string, message: string, role: string, k: SegKey)
    ensures KeepsPosition(s, OnMeta(s, supply, session, message, role).state, k)
  {
    var s1, k' := SetRole(s, message, role), Current(s, Key(session, message));
    if k' in s.aggregated && role != "user" {
      ShowKeepsPosition(s1, supply, k', RoleEntry(role, s.aggregated[k']), k);
    }
    hide ShowText, Current;
  }
}
