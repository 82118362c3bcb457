/** The whole Opencode conversation from the history of events alone: the tool entries, who owns which position, and
    who speaks in the text entries. What a text entry shows is in `OpencodeBoard`. */
module OpencodeEntries {
  import opened Text
  import opened Conversation
  import opened Opencode
  import opened OpencodeProperties
  import opened OpencodeBoard

  // ---------- Tools ----------

  /** The newest summary of a tool part. */
  ghost function Summary(h: seq<Event>, part: string): Option<string> {
    if h == [] then None
    else if Last(h).ToolPart? && Last(h).part == part then Some(Last(h).summary)
    else Summary(Front(h), part)
  }

  /** A tool part has an entry exactly when there was an event for it, and it shows the newest. */
  ghost predicate PartShown(s: State, b: Board<Entry>, h: seq<Event>, p: string) {
    && (p in s.byPart <==> Summary(h, p).Some?)
    && (p in s.byPart ==> s.byPart[p] in b && b[s.byPart[p]] == ToolEntry(Summary(h, p).value))
  }

  ghost predicate PartsApart(s: State) {
    forall p, q :: p in s.byPart && q in s.byPart && s.byPart[p] == s.byPart[q] ==> p == q
  }

  ghost predicate ToolsExact(s: State, b: Board<Entry>, h: seq<Event>) {
    (forall p :: PartShown(s, b, h, p)) && PartsApart(s)
  }

  /** Showing a text leaves the tools alone. */
  lemma ToolsSpared(s: State, b: Board<Entry>, h: seq<Event>, supply: Supply, k: SegKey, e: Entry)
    requires ToolsExact(s, b, h) && IsTextAt(s, b, k) && supply(s.used) !in b
    ensures var st := ShowText(s, supply, k, e); ToolsExact(st.state, BoardAfter(b, st.patches), h)
  {
    hide Summary;
    var st := ShowText(s, supply, k, e);
    forall p
      ensures PartShown(st.state, BoardAfter(b, st.patches), h, p)
    {
      assert PartShown(s, b, h, p);
    }
  }

  lemma ToolShown(s: State, b: Board<Entry>, h: seq<Event>, supply: Supply, part: string, summary: string)
    requires h != [] && Last(h).ToolPart? && Last(h).part == part && Last(h).summary == summary
    requires ToolsExact(s, b, Front(h)) && supply(s.used) !in b
    ensures var st := ShowTool(s, supply, part, ToolEntry(summary)); ToolsExact(st.state, BoardAfter(b, st.patches), h)
  {
    var st := ShowTool(s, supply, part, ToolEntry(summary));
    var t, b' := st.state, BoardAfter(b, st.patches);
    forall p
      ensures PartShown(t, b', h, p)
      ensures p in s.byPart ==> s.byPart[p] in b
    {
      assert PartShown(s, b, Front(h), p) && PartShown(s, b, Front(h), part);
    }
  }

  /** Events that are not for tools, and steps that leave the positions alone. */
  lemma ToolsKept(s: State, b: Board<Entry>, h: seq<Event>, t: State, h': seq<Event>)
    requires ToolsExact(s, b, h) && t.byPart == s.byPart
    requires h' == h || (h' != [] && h == Front(h') && !Last(h').ToolPart?)
    ensures ToolsExact(t, b, h')
  {
    forall p
      ensures PartShown(t, b, h', p)
    {
      assert PartShown(s, b, h, p);
    }
  }

  lemma ToolsAfterMeta(s: State, b: Board<Entry>, h: seq<Event>, supply: Supply)
    requires h != [] && Last(h).Meta? && ToolsExact(s, b, Front(h)) && supply(s.used) !in b
             && forall k :: IsTextAt(s, b, k)
    ensures var st := Normalize(s, supply, Last(h)); ToolsExact(st.state, BoardAfter(b, st.patches), h)
  {
    var ev := Last(h);
    hide ToolsExact, ShowText;
    ToolsKept(s, b, Front(h), s, h);
    if ev.role.Some? {
      var s1, k := SetRole(s, ev.message, ev.role.value), Current(s, Key(ev.session, ev.message));
      ToolsKept(s, b, Front(h), s1, h);
      if k in s.aggregated && ev.role.value != "user" {
        assert IsTextAt(s, b, k);
        ToolsSpared(s1, b, h, supply, k, RoleEntry(ev.role.value, s.aggregated[k]));
      }
    }
  }

  lemma ToolsAfterText(s: State, b: Board<Entry>, h: seq<Event>, supply: Supply)
    requires h != [] && Last(h).TextPart? && ToolsExact(s, b, Front(h)) && supply(s.used) !in b
             && forall k :: IsTextAt(s, b, k)
    ensures var st := Normalize(s, supply, Last(h)); ToolsExact(st.state, BoardAfter(b, st.patches), h)
  {
    hide ToolsExact, ShowText, OpenSegment, StoreText, OnText, Current, BoardAfter;
    var ev := Last(h);
    var s1 := OpenSegment(s, ev.key);
    var k := Current(s1, ev.key);
    var s2 := StoreText(s1, k, ev.part, ev.text);
    NoPatchNoChange(b);
    OpenSegmentKeeps(s, ev.key);
    StoreTextKeeps(s1, k, ev.part, ev.text);
    TextShape(s, supply, ev.key, ev.part, ev.text);
    ToolsKept(s, b, Front(h), s2, h);
    if ev.key.message in s.roles && s.roles[ev.key.message] != "user" {
      assert IsTextAt(s, b, k);
      ToolsSpared(s2, b, h, supply, k, RoleEntry(s.roles[ev.key.message], s2.aggregated[k]));
    }
  }

  lemma NoPatchNoChange(b: Board<Entry>)
    ensures BoardAfter(b, []) == b
  {
  }

  lemma ToolsAfterEvent(s: State, b: Board<Entry>, h: seq<Event>, supply: Supply)
    requires h != [] && ToolsExact(s, b, Front(h)) && supply(s.used) !in b && forall k :: IsTextAt(s, b, k)
    ensures var st := Normalize(s, supply, Last(h)); ToolsExact(st.state, BoardAfter(b, st.patches), h)
  {
    var ev := Last(h);
    hide ToolsExact, IsTextAt;
    if ev.Meta? {
      ToolsAfterMeta(s, b, h, supply);
    } else if ev.TextPart? {
      ToolsAfterText(s, b, h, supply);
    } else if ev.ToolPart? {
      MarkBreakKeeps(s, ev.key);
      ToolsKept(s, b, Front(h), MarkBreak(s, ev.key), Front(h));
      hide MarkBreak, ShowTool;
      ToolShown(MarkBreak(s, ev.key), b, h, supply, ev.part, ev.summary);
    } else {
      ToolsKept(s, b, Front(h), s, h);
    }
  }

  lemma AtMostOne(s: State, supply: Supply, ev: Event)
    ensures |Normalize(s, supply, ev).patches| <= 1
  {
    hide OpenSegment, StoreText, Current, MarkBreak;
    match ev
    case TextPart(key, part, text) => TextShape(s, supply, key, part, text);
    case _ =>
  }

  lemma InvGives(s: State, b: Board<Entry>, h: seq<Event>, supply: Supply)
    requires Inv(s, b, h, supply) && Increasing(supply)
    ensures supply(s.used) !in b && forall k :: IsTextAt(s, b, k)
  {
    IncreasingNeverRepeats(supply);
    HoldsNext(b, supply, s.used, ToolEntry(""));
    hide Holds, Increasing, ShowsSegment, IsTextAt;
    forall k
      ensures IsTextAt(s, b, k)
    {
      assert ShowsSegment(s, b, h, k);
      ShownIsText(s, b, h, k);
    }
  }

  /** Over every run, whatever the roles do: every tool part has one entry of its own from its first event on, and
      it shows the newest summary. */
  lemma {:induction false} RunShowsTools(h: seq<Event>, supply: Supply)
    requires Increasing(supply)
    ensures var st := Run(INIT, supply, h);
            Disciplined(map[], st.patches) && ToolsExact(st.state, Play(map[], st.patches), h)
    decreases |h|
  {
    hide Normalize, Inv, ToolsExact;
    RunShows(h, supply);
    if h == [] {
      NoTools();
    } else {
      RunShowsTools(Front(h), supply);
      RunShows(Front(h), supply);
      RunTracks(Front(h), supply);
      var before := Run(INIT, supply, Front(h));
      var b := Play(map[], before.patches);
      var last := Normalize(before.state, supply, Last(h));
      InvGives(before.state, b, Front(h), supply);
      ToolsAfterEvent(before.state, b, h, supply);
      hide Tracks, IsTextAt;
      GoodEvent(before.state, b, h, supply);
      AtMostOne(before.state, supply, Last(h));
      PlayAtMostOne(b, last.patches);
      PlayAppend(map[], before.patches, last.patches);
    }
  }

  lemma NoTools()
    ensures ToolsExact(INIT, map[], [])
  {
  }

  // ---------- The whole conversation ----------

  /** What an entry belongs to. */
  datatype Owner = OfSegment(k: SegKey) | OfPart(part: string)

  /** The entry of an owner, from the history alone. */
  ghost function EntryOf(h: seq<Event>, o: Owner): Option<Entry> {
    match o
    case OfSegment(k) => ShownEntry(h, k)
    case OfPart(p) => if Summary(h, p).Some? then Some(ToolEntry(Summary(h, p).value)) else None
  }

  /** What the last event may show: the current segment of its message, or its tool part. */
  ghost function Target(h: seq<Event>): Option<Owner>
    requires h != []
  {
    match Last(h)
    case Meta(session, message, _) =>
      var key := Key(session, message);
      Some(OfSegment(SegKey(key, Segment(h, key))))
    case TextPart(key, _, _) => Some(OfSegment(SegKey(key, Segment(h, key))))
    case ToolPart(_, part, _) => Some(OfPart(part))
    case Ignored => None
  }

  /** The last event shows something that was not shown before. */
  ghost predicate Opens(h: seq<Event>)
    requires h != []
  {
    Target(h).Some? && EntryOf(Front(h), Target(h).value).None? && EntryOf(h, Target(h).value).Some?
  }

  /** The owners, in the order they were first shown. */
  ghost function Owners(h: seq<Event>): seq<Owner> {
    if h == [] then [] else Owners(Front(h)) + if Opens(h) then [Target(h).value] else []
  }

  ghost predicate HasPosition(s: State, o: Owner, i: nat) {
    match o
    case OfSegment(k) => k in s.byMessage && s.byMessage[k] == i
    case OfPart(p) => p in s.byPart && s.byPart[p] == i
  }

  /** Each owner has the position it drew, and nobody else has one. */
  ghost predicate Placed(s: State, h: seq<Event>, supply: Supply) {
    && s.used == |Owners(h)|
    && (forall n :: 0 <= n < |Owners(h)| ==> HasPosition(s, Owners(h)[n], supply(n)))
    && forall o :: o in Owners(h) <==> EntryOf(h, o).Some?
  }

  /** One step draws a position for its target, or none. */
  ghost predicate Draws(s: State, t: State, supply: Supply, target: Option<Owner>, opens: bool) {
    && (opens ==> target.Some? && HasPosition(t, target.value, supply(s.used)) && t.used == s.used + 1)
    && (!opens ==> t.used == s.used)
    && forall o, i :: HasPosition(s, o, i) ==> HasPosition(t, o, i)
  }

  lemma ShowDraws(s: State, supply: Supply, k: SegKey, e: Entry)
    ensures Draws(s, ShowText(s, supply, k, e).state, supply, Some(OfSegment(k)), k !in s.byMessage)
  {
  }

  lemma ToolDraws(s: State, supply: Supply, ev: Event)
    requires ev.ToolPart?
    ensures Draws(s, Normalize(s, supply, ev).state, supply, Some(OfPart(ev.part)), ev.part !in s.byPart)
  {
    ToolPatch(s, supply, ev.key, ev.part, ev.summary);
    hide OnTool;
  }

  lemma QuietDraws(s: State, t: State, supply: Supply, target: Option<Owner>)
    requires SamePositions(s, t)
    ensures Draws(s, t, supply, target, false)
  {
  }

  lemma DrawsFrom(s: State, s1: State, t: State, supply: Supply, target: Option<Owner>, opens: bool)
    requires SamePositions(s, s1) && Draws(s1, t, supply, target, opens)
    ensures Draws(s, t, supply, target, opens)
  {
    forall o, i | HasPosition(s, o, i)
      ensures HasPosition(t, o, i)
    {
      assert HasPosition(s1, o, i);
    }
  }

  lemma TextDraws(s: State, h: seq<Event>, supply: Supply)
    requires h != [] && Last(h).TextPart? && Tracks(s, Front(h))
    ensures var k := SegKey(Last(h).key, Segment(h, Last(h).key));
            Draws(s, Normalize(s, supply, Last(h)).state, supply, Some(OfSegment(k)), Shows(h, k) && k !in s.byMessage)
  {
    hide OnText, OpenSegment, StoreText, ShowText, Current, Shows, Tracks, Draws, TextNow, Segment;
    var ev := Last(h);
    var s1 := OpenSegment(s, ev.key);
    var k := Current(s1, ev.key);
    var s2 := StoreText(s1, k, ev.part, ev.text);
    TextShows(s, h, supply);
    TextShape(s, supply, ev.key, ev.part, ev.text);
    TextTarget(s, h, supply);
    if Shows(h, k) {
      var e := RoleEntry(s.roles[ev.key.message], s2.aggregated[k]);
      ShowDraws(s2, supply, k, e);
      DrawsFrom(s, s2, ShowText(s2, supply, k, e).state, supply, Some(OfSegment(k)), k !in s.byMessage);
    } else {
      QuietDraws(s, s2, supply, Some(OfSegment(k)));
    }
  }

  lemma TextTarget(s: State, h: seq<Event>, supply: Supply)
    requires h != [] && Last(h).TextPart? && Tracks(s, Front(h))
    ensures var key := Last(h).key; Current(OpenSegment(s, key), key) == SegKey(key, Segment(h, key))
  {
    hide Segment, OpenSegment, TracksSegment;
    var key := Last(h).key;
    assert TracksKey(s, Front(h), key);
    TextTracksKey(s, h, supply, key);
    SegmentOf(OpenSegment(s, key), key);
  }

  lemma MetaShape(s: State, supply: Supply, ev: Event)
    requires ev.Meta?
    ensures var k, t := Current(s, Key(ev.session, ev.message)),
                        if ev.role.Some? then SetRole(s, ev.message, ev.role.value) else s;
            Normalize(s, supply, ev)
            == if ev.role.Some? && k in s.aggregated && ev.role.value != "user"
               then ShowText(t, supply, k, RoleEntry(ev.role.value, s.aggregated[k])) else Step(t, [])
  {
    hide ShowText, Current;
  }

  lemma MetaTarget(s: State, h: seq<Event>)
    requires h != [] && Last(h).Meta? && Tracks(s, Front(h))
    ensures var key := Key(Last(h).session, Last(h).message); Current(s, key) == SegKey(key, Segment(h, key))
  {
    hide Segment, Broken, TracksSegment;
    var key := Key(Last(h).session, Last(h).message);
    assert TracksKey(s, Front(h), key);
    HistoryStep(h, key);
    SegmentOf(s, key);
  }

  lemma MetaDraws(s: State, h: seq<Event>, supply: Supply)
    requires h != [] && Last(h).Meta? && Tracks(s, Front(h))
    ensures var key := Key(Last(h).session, Last(h).message); var k := SegKey(key, Segment(h, key));
            Draws(s, Normalize(s, supply, Last(h)).state, supply, Some(OfSegment(k)), Shows(h, k) && k !in s.byMessage)
  {
    hide Normalize, ShowText, Current, Shows, Tracks, Draws, TextNow, Segment;
    var ev := Last(h);
    var k := Current(s, Key(ev.session, ev.message));
    var t := if ev.role.Some? then SetRole(s, ev.message, ev.role.value) else s;
    MetaTarget(s, h);
    MetaShows(s, h);
    MetaShape(s, supply, ev);
    if Shows(h, k) {
      var e := RoleEntry(ev.role.value, s.aggregated[k]);
      ShowDraws(t, supply, k, e);
      DrawsFrom(s, t, ShowText(t, supply, k, e).state, supply, Some(OfSegment(k)), k !in s.byMessage);
    } else {
      QuietDraws(s, t, supply, Some(OfSegment(k)));
    }
  }

  /** A segment gets its first entry when an event shows it. */
  lemma OpensSegment(s: State, b: Board<Entry>, h: seq<Event>, k: SegKey)
    requires h != [] && Target(h) == Some(OfSegment(k)) && ShowsSegment(s, b, Front(h), k)
    ensures Opens(h) <==> Shows(h, k) && k !in s.byMessage
  {
    hide Shows, TextNow, Segment;
  }

  lemma OpensTool(s: State, b: Board<Entry>, h: seq<Event>)
    requires h != [] && Last(h).ToolPart? && PartShown(s, b, Front(h), Last(h).part)
    ensures Opens(h) <==> Last(h).part !in s.byPart
  {
  }

  /** The processor draws a position exactly when the history shows something new. */
  lemma EventDraws(s: State, b: Board<Entry>, h: seq<Event>, supply: Supply)
    requires h != [] && Tracks(s, Front(h)) && Inv(s, b, Front(h), supply) && ToolsExact(s, b, Front(h))
    ensures Draws(s, Normalize(s, supply, Last(h)).state, supply, Target(h), Opens(h))
  {
    var ev := Last(h);
    hide Draws, Opens, Shows, ShowsSegment, PartShown, Segment, Tracks, Holds;
    match ev
    case Meta(session, message, _) =>
      var k := Target(h).value.k;
      assert ShowsSegment(s, b, Front(h), k);
      OpensSegment(s, b, h, k);
      MetaDraws(s, h, supply);
    case TextPart(key, _, _) =>
      var k := Target(h).value.k;
      assert ShowsSegment(s, b, Front(h), k);
      OpensSegment(s, b, h, k);
      TextDraws(s, h, supply);
    case ToolPart(_, part, _) =>
      assert PartShown(s, b, Front(h), part);
      OpensTool(s, b, h);
      ToolDraws(s, supply, ev);
    case Ignored =>
      NothingOpens(h);
      QuietDraws(s, s, supply, None);
  }

  lemma NothingOpens(h: seq<Event>)
    requires h != [] && Last(h).Ignored?
    ensures !Opens(h)
  {
  }

  /** An owner has an entry exactly when it had one or has just been shown first. */
  lemma EntriesMore(h: seq<Event>, o: Owner)
    requires h != []
    ensures EntryOf(h, o).Some? <==> EntryOf(Front(h), o).Some? || (Opens(h) && Target(h) == Some(o))
  {
    hide Segment, TextNow, Pieces, RoleOf;
  }

  lemma PlacedMore(s: State, h: seq<Event>, supply: Supply, t: State)
    requires h != [] && Placed(s, Front(h), supply) && Draws(s, t, supply, Target(h), Opens(h))
    ensures Placed(t, h, supply)
  {
    var before, all := Owners(Front(h)), Owners(h);
    assert all == before + if Opens(h) then [Target(h).value] else [];
    hide Opens, HasPosition, EntryOf, Target, Owners;
    forall n | 0 <= n < |all|
      ensures HasPosition(t, all[n], supply(n))
    {
      assert n < |before| ==> HasPosition(s, before[n], supply(n));
    }
    forall o
      ensures o in all <==> EntryOf(h, o).Some?
    {
      EntriesMore(h, o);
    }
  }

  lemma {:induction false} RunPlaced(h: seq<Event>, supply: Supply)
    requires Increasing(supply)
    ensures Placed(Run(INIT, supply, h).state, h, supply)
    decreases |h|
  {
    if h != [] {
      hide Normalize, Inv, ToolsExact, Placed, Tracks, Draws, Opens;
      RunPlaced(Front(h), supply);
      RunTracks(Front(h), supply);
      RunShows(Front(h), supply);
      RunShowsTools(Front(h), supply);
      var before := Run(INIT, supply, Front(h));
      EventDraws(before.state, Play(map[], before.patches), h, supply);
      PlacedMore(before.state, h, supply, Normalize(before.state, supply, Last(h)).state);
    }
  }

  ghost predicate OwnersDiffer(h: seq<Event>) {
    forall m, n :: 0 <= m < n < |Owners(h)| ==> Owners(h)[m] != Owners(h)[n]
  }

  /** Position `i` shows the entry of its owner. */
  ghost predicate OwnerShows(b: Board<Entry>, h: seq<Event>, supply: Supply, n: nat)
    requires n < |Owners(h)|
  {
    supply(n) in b && Some(b[supply(n)]) == EntryOf(h, Owners(h)[n])
  }

  /** Over every run, whatever the roles do and whoever else draws positions, the conversation is exactly what the
      history says: the segments and tool parts that were shown stand in the order in which they were first shown,
      each once, each with its entry, and there is nothing else. */
  lemma RunShowsHistory(h: seq<Event>, supply: Supply)
    requires Increasing(supply)
    ensures var st := Run(INIT, supply, h);
            && Disciplined(map[], st.patches) && st.state.used == |Owners(h)| && OwnersDiffer(h)
            && (forall o :: o in Owners(h) <==> EntryOf(h, o).Some?)
            && var b := Play(map[], st.patches);
            && Holds(b, supply, |Owners(h)|) && forall n :: 0 <= n < |Owners(h)| ==> OwnerShows(b, h, supply, n)
  {
    RunPlaced(h, supply);
    RunShows(h, supply);
    RunShowsTools(h, supply);
    var st := Run(INIT, supply, h);
    var b := Play(map[], st.patches);
    hide Run, Holds, Disciplined, Play, Owners, ShownEntry, Summary, Segment;
    forall n | 0 <= n < |Owners(h)|
      ensures OwnerShows(b, h, supply, n)
    {
      assert HasPosition(st.state, Owners(h)[n], supply(n));
      match Owners(h)[n]
      case OfSegment(k) => assert ShowsSegment(st.state, b, h, k);
      case OfPart(p) => assert PartShown(st.state, b, h, p);
    }
    forall m, n | 0 <= m < n < |Owners(h)|
      ensures Owners(h)[m] != Owners(h)[n]
    {
      assert HasPosition(st.state, Owners(h)[m], supply(m)) && HasPosition(st.state, Owners(h)[n], supply(n));
      assert supply(m) < supply(n);
    }
  }

  /** Whatever follows, every entry keeps its position. */
  lemma {:induction false} PlacesKept(h: seq<Event>, later: seq<Event>)
    ensures Owners(h) <= Owners(h + later)
    decreases |later|
  {
    if later == [] {
      assert h + later == h;
    } else {
      PlacesKept(h, Front(later));
      assert Front(h + later) == h + Front(later);
      hide Opens, Target;
    }
  }

  // ---------- Speakers ----------

  /** A role is given to a message once. */
  ghost predicate RolesFixed(h: seq<Event>) {
    h == [] || (RolesFixed(Front(h))
                && (Last(h).Meta? && Last(h).role.Some? ==> RoleOf(Front(h), Last(h).message) in {None, Last(h).role}))
  }

  /** Then every text entry is a system message exactly when its message has the role "system", and shows the
      newest text of every part. */
  lemma {:induction false} FixedRolesShow(h: seq<Event>, k: SegKey)
    requires RolesFixed(h)
    ensures ShownEntry(h, k).Some? ==>
              && ShownEntry(h, k).value.isSystem == (RoleOf(h, k.key.message) == Some("system"))
              && ShownEntry(h, k).value.content == Spell(Pieces(h, k.key, k.segment))
    decreases |h|
  {
    FixedIsKept(h);
    KeptRolesNeverMiss(h);
    UpToDateIff(h);
    UpToDateNow(h, k);
    hide NeverMisses, AlwaysUpToDate, Segment, Pieces, Spell;
    if h != [] && !Shows(h, k) && ShownEntry(h, k).Some? {
      FixedRolesShow(Front(h), k);
      ShownHasRole(Front(h), k);
    }
  }

  lemma {:induction false} FixedIsKept(h: seq<Event>)
    requires RolesFixed(h)
    ensures RolesKept(h)
    decreases |h|
  {
    if h != [] {
      FixedIsKept(Front(h));
    }
  }
}
