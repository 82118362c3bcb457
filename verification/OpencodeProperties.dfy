/** What the maps of the Opencode share processor know, stated against the history of events alone. */
module OpencodeProperties {
  import opened Text
  import opened Conversation
  import opened Opencode

  // ---------- The history as reference ----------

  datatype Piece = Piece(part: string, text: string)

  function Last(h: seq<Event>): Event
    requires h != []
  {
    h[|h| - 1]
  }

  function Front(h: seq<Event>): seq<Event>
    requires h != []
  {
    h[..|h| - 1]
  }

  predicate IsText(ev: Event, key: Key) { ev.TextPart? && ev.key == key }
  predicate IsTool(ev: Event, key: Key) { ev.ToolPart? && ev.key == key }

  /** The segment a message is in: how many texts followed a break. */
  ghost function Segment(h: seq<Event>, key: Key): nat
    decreases |h|, 0
  {
    if h == [] then 0
    else Segment(Front(h), key) + if IsText(Last(h), key) && Broken(Front(h), key) then 1 else 0
  }

  /** Whether a tool event has closed the segment: it came after text that was not empty. */
  ghost predicate Broken(h: seq<Event>, key: Key)
    decreases |h|, 0
  {
    h != [] && !IsText(Last(h), key)
    && (Broken(Front(h), key) || (IsTool(Last(h), key) && Spell(Pieces(Front(h), key, Segment(Front(h), key))) != ""))
  }

  /** The text events of one segment of a message, in order. */
  ghost function Pieces(h: seq<Event>, key: Key, segment: nat): seq<Piece>
    decreases |h|, 1
  {
    if h == [] then []
    else if IsText(Last(h), key) && Segment(h, key) == segment then
      Pieces(Front(h), key, segment) + [Piece(Last(h).part, Last(h).text)]
    else Pieces(Front(h), key, segment)
  }

  function FirstSeen(ps: seq<Piece>): seq<string> {
    if ps == [] then []
    else
      var seen := FirstSeen(ps[..|ps| - 1]);
      if ps[|ps| - 1].part in seen then seen else seen + [ps[|ps| - 1].part]
  }

  function Newest(ps: seq<Piece>): map<string, string> {
    if ps == [] then map[] else Newest(ps[..|ps| - 1])[ps[|ps| - 1].part := ps[|ps| - 1].text]
  }

  /** The newest text of every part, in the order the parts were first seen. */
  function Spell(ps: seq<Piece>): string {
    Join(FirstSeen(ps), Newest(ps))
  }

  /** The texts of any number of parts, one after the other. */
  lemma {:induction false} JoinIsConcat(order: seq<string>, texts: map<string, string>)
    ensures Join(order, texts)
            == Concat(seq(|order|, i requires 0 <= i < |order| => if order[i] in texts then texts[order[i]] else ""))
  {
    if order == [] {
      assert Join(order, texts) == "";
    } else {
      var n := |order| - 1;
      var init := order[..n];
      JoinIsConcat(init, texts);
      var all := seq(|order|, i requires 0 <= i < |order| => if order[i] in texts then texts[order[i]] else "");
      var front := seq(|init|, i requires 0 <= i < |init| => if init[i] in texts then texts[init[i]] else "");
      assert all == front + [all[n]];
      ConcatFrame("", front, all[n]);
    }
  }

  ghost function RoleOf(h: seq<Event>, message: string): Option<string> {
    if h == [] then None
    else if Last(h).Meta? && Last(h).message == message && Last(h).role.Some? then Last(h).role
    else RoleOf(Front(h), message)
  }

  /** No message that had another role is declared the user's. */
  ghost predicate RolesKept(h: seq<Event>) {
    h == [] || (RolesKept(Front(h))
                && (Last(h).Meta? && Last(h).role == Some("user") ==>
                      RoleOf(Front(h), Last(h).message) in {None, Some("user")}))
  }

  // ---------- The maps follow the history ----------

  ghost predicate TracksKey(s: State, h: seq<Event>, key: Key) {
    Current(s, key).segment == Segment(h, key) && (key in s.pending <==> Broken(h, key))
  }

  ghost predicate TracksSegment(s: State, h: seq<Event>, k: SegKey) {
    TracksPieces(s, k, Pieces(h, k.key, k.segment))
  }

  ghost predicate Tracks(s: State, h: seq<Event>) {
    && (forall key :: TracksKey(s, h, key))
    && (forall k :: TracksSegment(s, h, k))
    && forall m :: RoleOf(h, m) == if m in s.roles then Some(s.roles[m]) else None
  }

  lemma SpellMore(ps: seq<Piece>, x: Piece)
    ensures FirstSeen(ps + [x]) == if x.part in FirstSeen(ps) then FirstSeen(ps) else FirstSeen(ps) + [x.part]
    ensures Newest(ps + [x]) == Newest(ps)[x.part := x.text]
  {
    assert (ps + [x])[..|ps|] == ps;
  }

  /** What the events look at and text events change. */
  ghost predicate SameTexts(s: State, t: State) {
    t.segment == s.segment && t.order == s.order && t.texts == s.texts && t.aggregated == s.aggregated
  }

  lemma ShowTextKeeps(s: State, supply: Supply, k: SegKey, e: Entry)
    ensures var t := ShowText(s, supply, k, e).state; SameTexts(s, t) && t.pending == s.pending && t.roles == s.roles
  {
  }

  lemma ShowToolKeeps(s: State, supply: Supply, part: string, e: Entry)
    ensures var t := ShowTool(s, supply, part, e).state; SameTexts(s, t) && t.pending == s.pending && t.roles == s.roles
    ensures ShowTool(s, supply, part, e).state.byMessage == s.byMessage
  {
  }

  lemma MarkBreakKeeps(s: State, key: Key)
    ensures var t := MarkBreak(s, key); SameTexts(s, t) && t.roles == s.roles && t.byMessage == s.byMessage
    ensures MarkBreak(s, key).byPart == s.byPart && MarkBreak(s, key).used == s.used
    ensures MarkBreak(s, key).pending
            == if Current(s, key) in s.aggregated && s.aggregated[Current(s, key)] != "" then s.pending + {key}
               else s.pending
  {
    hide Current;
  }

  lemma OpenSegmentKeeps(s: State, key: Key)
    ensures var t := OpenSegment(s, key);
            && t.order == s.order && t.texts == s.texts && t.aggregated == s.aggregated && t.roles == s.roles
            && t.byMessage == s.byMessage && t.byPart == s.byPart && t.used == s.used
    ensures OpenSegment(s, key).pending == s.pending - {key}
    ensures OpenSegment(s, key).segment
            == if key in s.pending then s.segment[key := Current(s, key).segment + 1] else s.segment
  {
    hide Current;
    assert key !in s.pending ==> s.pending - {key} == s.pending;
  }

  lemma StoreTextKeeps(s: State, k: SegKey, part: string, text: string)
    ensures var t := StoreText(s, k, part, text);
            && t.segment == s.segment && t.pending == s.pending && t.roles == s.roles
            && t.byMessage == s.byMessage && t.byPart == s.byPart && t.used == s.used && k in t.aggregated
  {
    hide Join;
  }

  /** The text maps after a text event, whether or not it was shown. */
  lemma TextStored(s: State, supply: Supply, key: Key, part: string, text: string)
    ensures var t, s1 := OnText(s, supply, key, part, text).state, OpenSegment(s, key);
            var s2 := StoreText(s1, Current(s1, key), part, text);
            SameTexts(s2, t) && t.pending == s1.pending && t.roles == s.roles && t.segment == s1.segment
  {
    var s1 := OpenSegment(s, key);
    var k := Current(s1, key);
    var s2 := StoreText(s1, k, part, text);
    OpenSegmentKeeps(s, key);
    StoreTextKeeps(s1, k, part, text);
    if key.message in s.roles && s.roles[key.message] != "user" {
      ShowTextKeeps(s2, supply, k, RoleEntry(s.roles[key.message], s2.aggregated[k]));
    }
    hide StoreText, OpenSegment, ShowText, Current;
  }

  /** Segments and breaks one event on. */
  lemma HistoryStep(h: seq<Event>, key: Key)
    requires h != []
    ensures Segment(h, key) == Segment(Front(h), key) + if IsText(Last(h), key) && Broken(Front(h), key) then 1 else 0
    ensures IsText(Last(h), key) ==> !Broken(h, key)
    ensures !IsText(Last(h), key) && !IsTool(Last(h), key) ==> Broken(h, key) == Broken(Front(h), key)
  {
    hide Pieces, Spell;
  }

  lemma TextTracksKey(s: State, h: seq<Event>, supply: Supply, key: Key)
    requires h != [] && Last(h).TextPart? && TracksKey(s, Front(h), key) && TracksKey(s, Front(h), Last(h).key)
    ensures TracksKey(OnText(s, supply, Last(h).key, Last(h).part, Last(h).text).state, h, key)
    ensures Current(OpenSegment(s, Last(h).key), Last(h).key).segment == Segment(h, Last(h).key)
  {
    hide OnText, OpenSegment, StoreText, Segment, Broken;
    TextStored(s, supply, Last(h).key, Last(h).part, Last(h).text);
    OpenSegmentKeeps(s, Last(h).key);
    HistoryStep(h, key);
    HistoryStep(h, Last(h).key);
  }

  /** The maps of one segment hold what its pieces spell. */
  ghost predicate TracksPieces(s: State, k: SegKey, ps: seq<Piece>) {
    && (k in s.order <==> ps != []) && (k in s.texts <==> ps != []) && (k in s.aggregated <==> ps != [])
    && (ps != [] ==> s.order[k] == FirstSeen(ps) && s.texts[k] == Newest(ps) && s.aggregated[k] == Spell(ps))
  }

  lemma StoreTracks(s: State, k: SegKey, part: string, text: string, j: SegKey, ps: seq<Piece>)
    requires TracksPieces(s, j, ps)
    ensures TracksPieces(StoreText(s, k, part, text), j, if j == k then ps + [Piece(part, text)] else ps)
  {
    if j == k {
      SpellMore(ps, Piece(part, text));
      StoreHere(s, k, part, text, if ps == [] then [] else s.order[k], if ps == [] then map[] else s.texts[k]);
      assert ps == [] ==> FirstSeen(ps) == [] && Newest(ps) == map[];
    } else {
      StoreElsewhere(s, k, part, text, j);
    }
    hide StoreText, Join, FirstSeen, Newest;
  }

  lemma StoreHere(s: State, k: SegKey, part: string, text: string, order: seq<string>, texts: map<string, string>)
    requires order == if k in s.order then s.order[k] else []
    requires texts == if k in s.texts then s.texts[k] else map[]
    ensures var t := StoreText(s, k, part, text); var order' := if part in order then order else order + [part];
            && k in t.order && k in t.texts && k in t.aggregated
            && t.order[k] == order' && t.texts[k] == texts[part := text]
            && t.aggregated[k] == Join(order', texts[part := text])
  {
    hide Join;
  }

  lemma StoreElsewhere(s: State, k: SegKey, part: string, text: string, j: SegKey)
    requires j != k
    ensures var t := StoreText(s, k, part, text);
            && (j in t.order <==> j in s.order) && (j in t.texts <==> j in s.texts)
            && (j in t.aggregated <==> j in s.aggregated)
            && (j in s.order ==> t.order[j] == s.order[j]) && (j in s.texts ==> t.texts[j] == s.texts[j])
            && (j in s.aggregated ==> t.aggregated[j] == s.aggregated[j])
  {
    hide Join;
  }

  lemma TextTracksSegment(s: State, h: seq<Event>, supply: Supply, j: SegKey)
    requires h != [] && Last(h).TextPart? && TracksSegment(s, Front(h), j) && TracksKey(s, Front(h), Last(h).key)
    ensures TracksSegment(OnText(s, supply, Last(h).key, Last(h).part, Last(h).text).state, h, j)
  {
    var ev, p := Last(h), Front(h);
    TextTracksKey(s, h, supply, ev.key);
    TextStored(s, supply, ev.key, ev.part, ev.text);
    OpenSegmentKeeps(s, ev.key);
    var ps, x := Pieces(p, j.key, j.segment), Piece(ev.part, ev.text);
    assert Pieces(h, j.key, j.segment) == if j == SegKey(ev.key, Segment(h, ev.key)) then ps + [x] else ps;
    var s1 := OpenSegment(s, ev.key);
    StoreTracks(s1, Current(s1, ev.key), ev.part, ev.text, j, ps);
    hide OnText, OpenSegment, StoreText, Pieces, Segment, Broken, FirstSeen, Newest, Spell;
  }

  lemma OtherKeeps(s: State, supply: Supply, ev: Event)
    requires !ev.TextPart?
    ensures var t := Normalize(s, supply, ev).state;
            && SameTexts(s, t)
            && forall key :: key in t.pending <==>
                 key in s.pending || (IsTool(ev, key) && Current(s, key) in s.aggregated
                                      && s.aggregated[Current(s, key)] != "")
  {
    match ev
    case Meta(session, message, role) => if role.Some? { MetaKeeps(s, supply, session, message, role.value); }
    case ToolPart(key, part, summary) =>
      MarkBreakKeeps(s, key);
      ShowToolKeeps(MarkBreak(s, key), supply, part, ToolEntry(summary));
    case _ =>
    hide OnText, OnMeta, ShowTool, MarkBreak;
  }

  lemma MetaKeeps(s: State, supply: Supply, session: string, message: string, role: string)
    ensures var t := OnMeta(s, supply, session, message, role).state;
            SameTexts(s, t) && t.pending == s.pending && t.roles == s.roles[message := role]
  {
    var s1, k := SetRole(s, message, role), Current(s, Key(session, message));
    if k in s.aggregated && role != "user" {
      ShowTextKeeps(s1, supply, k, RoleEntry(role, s.aggregated[k]));
    }
    hide ShowText, Current;
  }

  lemma OtherTracksKey(s: State, h: seq<Event>, supply: Supply, key: Key)
    requires h != [] && !Last(h).TextPart? && TracksKey(s, Front(h), key) && TracksSegment(s, Front(h), Current(s, key))
    ensures TracksKey(Normalize(s, supply, Last(h)).state, h, key)
  {
    OtherKeeps(s, supply, Last(h));
    hide Normalize;
    assert Spell([]) == "";
    hide Pieces, Spell;
  }

  lemma OtherTracksSegment(s: State, h: seq<Event>, supply: Supply, j: SegKey)
    requires h != [] && !Last(h).TextPart? && TracksSegment(s, Front(h), j)
    ensures TracksSegment(Normalize(s, supply, Last(h)).state, h, j)
  {
    OtherKeeps(s, supply, Last(h));
    hide Normalize;
    assert Pieces(h, j.key, j.segment) == Pieces(Front(h), j.key, j.segment);
    hide Pieces, Spell, FirstSeen, Newest;
  }

  lemma RolesTrack(s: State, h: seq<Event>, supply: Supply)
    requires h != [] && forall m :: RoleOf(Front(h), m) == if m in s.roles then Some(s.roles[m]) else None
    ensures var t := Normalize(s, supply, Last(h)).state;
            forall m :: RoleOf(h, m) == if m in t.roles then Some(t.roles[m]) else None
  {
    RolesAfter(s, supply, Last(h));
    hide Normalize;
  }

  lemma RolesAfter(s: State, supply: Supply, ev: Event)
    ensures Normalize(s, supply, ev).state.roles
            == if ev.Meta? && ev.role.Some? then s.roles[ev.message := ev.role.value] else s.roles
  {
    match ev
    case Meta(session, message, role) => if role.Some? { MetaKeeps(s, supply, session, message, role.value); }
    case ToolPart(key, part, summary) =>
      MarkBreakKeeps(s, key);
      ShowToolKeeps(MarkBreak(s, key), supply, part, ToolEntry(summary));
    case TextPart(key, part, text) => TextStored(s, supply, key, part, text);
    case _ =>
    hide OnText, OnMeta, ShowTool, MarkBreak;
  }

  lemma EventTracks(s: State, h: seq<Event>, supply: Supply)
    requires h != [] && Tracks(s, Front(h))
    ensures Tracks(Normalize(s, supply, Last(h)).state, h)
  {
    var ev, p, s' := Last(h), Front(h), Normalize(s, supply, Last(h)).state;
    hide Pieces, Spell, Segment, Broken;
    RolesTrack(s, h, supply);
    forall key
      ensures TracksKey(s', h, key)
    {
      assert TracksKey(s, p, key) && TracksSegment(s, p, Current(s, key));
      if ev.TextPart? {
        assert TracksKey(s, p, ev.key);
        TextTracksKey(s, h, supply, key);
      } else {
        OtherTracksKey(s, h, supply, key);
      }
    }
    forall j: SegKey
      ensures TracksSegment(s', h, j)
    {
      assert TracksSegment(s, p, j);
      if ev.TextPart? {
        assert TracksKey(s, p, ev.key);
        TextTracksSegment(s, h, supply, j);
      } else {
        OtherTracksSegment(s, h, supply, j);
      }
    }
  }

  /** Over every run the eight maps say no more and no less than the history. */
  lemma {:induction false} RunTracks(h: seq<Event>, supply: Supply)
    ensures Tracks(Run(INIT, supply, h).state, h)
    decreases |h|
  {
    if h != [] {
      RunTracks(Front(h), supply);
      EventTracks(Run(INIT, supply, Front(h)).state, h, supply);
    }
  }

  // ---------- One text event ----------

  lemma TextShape(s: State, supply: Supply, key: Key, part: string, text: string)
    ensures var s1 := OpenSegment(s, key); var k := Current(s1, key); var s2 := StoreText(s1, k, part, text);
            OnText(s, supply, key, part, text)
            == if key.message in s.roles && s.roles[key.message] != "user"
               then ShowText(s2, supply, k, RoleEntry(s.roles[key.message], s2.aggregated[k])) else Step(s2, [])
  {
    hide OpenSegment, Current, ShowText;
  }

  lemma TextSpells(s: State, h: seq<Event>, supply: Supply, k: SegKey)
    requires h != [] && Last(h).TextPart? && Tracks(s, Front(h)) && k == SegKey(Last(h).key, Segment(h, Last(h).key))
    ensures var s1 := OpenSegment(s, Last(h).key);
            var s2 := StoreText(s1, k, Last(h).part, Last(h).text);
            k in s2.aggregated && s2.aggregated[k] == Spell(Pieces(h, k.key, k.segment))
  {
    var ev := Last(h);
    var ps := Pieces(Front(h), k.key, k.segment);
    assert TracksSegment(s, Front(h), k);
    assert Pieces(h, k.key, k.segment) == ps + [Piece(ev.part, ev.text)];
    OpenSegmentKeeps(s, ev.key);
    StoreTracks(OpenSegment(s, ev.key), k, ev.part, ev.text, k, ps);
    hide OpenSegment, StoreText, Pieces, Segment, Spell, FirstSeen, Newest;
  }

  // ---------- Positions, whatever the roles do ----------

  ghost predicate Registered(s: State, b: Board<Entry>, supply: Supply) {
    && Holds(b, supply, s.used)
    && (forall k :: k in s.byMessage ==> s.byMessage[k] in b) && (forall p :: p in s.byPart ==> s.byPart[p] in b)
  }

  /** Every position drawn is added once and replaces name positions added before. */
  ghost predicate Tidy(used: nat, b: Board<Entry>, supply: Supply, st: Step) {
    && Disciplined(b, st.patches) && used <= st.state.used
    && Added(st.patches) == Handed(supply, used, st.state.used)
    && Registered(st.state, Play(b, st.patches), supply)
  }

  lemma TidyShow(s: State, b: Board<Entry>, supply: Supply, k: SegKey, e: Entry)
    requires NeverRepeats(supply) && Registered(s, b, supply)
    ensures Tidy(s.used, b, supply, ShowText(s, supply, k, e))
  {
    hide Holds, NeverRepeats, Play, Disciplined, Added;
    var p := ShowText(s, supply, k, e).patches[0];
    HoldsNext(b, supply, s.used, e);
    PlayOne(b, p);
    HoldsPatch(b, supply, s.used, p);
  }

  lemma TidyTool(s: State, b: Board<Entry>, supply: Supply, part: string, e: Entry)
    requires NeverRepeats(supply) && Registered(s, b, supply)
    ensures Tidy(s.used, b, supply, ShowTool(s, supply, part, e))
  {
    hide Holds, NeverRepeats, Play, Disciplined, Added;
    var p := ShowTool(s, supply, part, e).patches[0];
    HoldsNext(b, supply, s.used, e);
    PlayOne(b, p);
    HoldsPatch(b, supply, s.used, p);
  }

  lemma TidyText(s: State, b: Board<Entry>, supply: Supply, key: Key, part: string, text: string)
    requires NeverRepeats(supply) && Registered(s, b, supply)
    ensures Tidy(s.used, b, supply, OnText(s, supply, key, part, text))
  {
    var s1 := OpenSegment(s, key);
    var k := Current(s1, key);
    var s2 := StoreText(s1, k, part, text);
    OpenSegmentKeeps(s, key);
    StoreTextKeeps(s1, k, part, text);
    TextShape(s, supply, key, part, text);
    hide OnText, ShowText, OpenSegment, StoreText, Current, Holds, NeverRepeats;
    if key.message in s.roles && s.roles[key.message] != "user" {
      TidyShow(s2, b, supply, k, RoleEntry(s.roles[key.message], s2.aggregated[k]));
    }
  }

  lemma TidyQuiet(s: State, b: Board<Entry>, supply: Supply, t: State)
    requires Registered(s, b, supply) && t.byMessage == s.byMessage && t.byPart == s.byPart && t.used == s.used
    ensures Tidy(s.used, b, supply, Step(t, []))
  {
    hide Holds;
  }

  lemma TidyMeta(s: State, b: Board<Entry>, supply: Supply, session: string, message: string, role: string)
    requires NeverRepeats(supply) && Registered(s, b, supply)
    ensures Tidy(s.used, b, supply, OnMeta(s, supply, session, message, role))
  {
    hide ShowText, Current, Holds, NeverRepeats, Tidy;
    var t, k := SetRole(s, message, role), Current(s, Key(session, message));
    TidyQuiet(s, b, supply, t);
    if k in s.aggregated && role != "user" {
      TidyShow(t, b, supply, k, RoleEntry(role, s.aggregated[k]));
    }
  }

  lemma TidyEvent(s: State, b: Board<Entry>, supply: Supply, ev: Event)
    requires NeverRepeats(supply) && Registered(s, b, supply)
    ensures Tidy(s.used, b, supply, Normalize(s, supply, ev))
  {
    hide ShowText, ShowTool, MarkBreak, OnText, OnMeta, Current, Holds, NeverRepeats, Tidy;
    TidyQuiet(s, b, supply, s);
    match ev
    case Meta(session, message, role) =>
      if role.Some? { TidyMeta(s, b, supply, session, message, role.value); }
    case TextPart(key, part, text) => TidyText(s, b, supply, key, part, text);
    case ToolPart(key, part, summary) =>
      MarkBreakKeeps(s, key);
      TidyTool(MarkBreak(s, key), b, supply, part, ToolEntry(summary));
    case Ignored =>
  }

  lemma {:induction false} RunTidy(h: seq<Event>, supply: Supply)
    requires NeverRepeats(supply)
    ensures Tidy(0, map[], supply, Run(INIT, supply, h))
    decreases |h|
  {
    if h != [] {
      RunTidy(Front(h), supply);
      var before := Run(INIT, supply, Front(h));
      var b := Play(map[], before.patches);
      TidyEvent(before.state, b, supply, Last(h));
      var last := Normalize(before.state, supply, Last(h));
      hide Normalize, Registered;
      PlayAppend(map[], before.patches, last.patches);
      HandedAppend(supply, 0, before.state.used, last.state.used);
    }
  }
}
