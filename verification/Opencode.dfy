/** Opencode share events: text parts of one message are joined into one entry per segment, a tool event
    after text closes the segment, and nothing is shown before the message's role is known. */
module Opencode {
  import opened Text
  import opened Conversation

  datatype Key = Key(session: string, message: string)
  datatype SegKey = SegKey(key: Key, segment: nat)

  datatype Event =
    | Meta(session: string, message: string, role: Option<string>)
    | TextPart(key: Key, part: string, text: string)
    | ToolPart(key: Key, part: string, summary: string)
    | Ignored

  datatype Entry = TextEntry(isSystem: bool, content: string) | ToolEntry(summary: string)

  /** The maps of `process_share_events`, and how many positions were drawn. */
  datatype State = State(
    byPart: map<string, nat>,
    byMessage: map<SegKey, nat>,
    order: map<SegKey, seq<string>>,
    texts: map<SegKey, map<string, string>>,
    aggregated: map<SegKey, string>,
    segment: map<Key, nat>,
    pending: set<Key>,
    roles: map<string, string>,
    used: nat)

  const INIT := State(map[], map[], map[], map[], map[], map[], {}, map[], 0)

  datatype Step = Step(state: State, patches: seq<Patch<Entry>>)

  function Current(s: State, key: Key): SegKey {
    SegKey(key, if key in s.segment then s.segment[key] else 0)
  }

  /** The texts of the parts, in order, skipping parts without text. */
  function Join(order: seq<string>, texts: map<string, string>): string {
    if order == [] then ""
    else
      var last := order[|order| - 1];
      Join(order[..|order| - 1], texts) + if last in texts then texts[last] else ""
  }

  function RoleEntry(role: string, content: string): Entry {
    TextEntry(role == "system", content)
  }

  /** Show the text of a segment: replace its entry, or add one. */
  function ShowText(s: State, supply: Supply, k: SegKey, e: Entry): Step {
    if k in s.byMessage then Step(s, [Replace(s.byMessage[k], e)])
    else Step(s.(byMessage := s.byMessage[k := supply(s.used)], used := s.used + 1), [Add(supply(s.used), e)])
  }

  function SetRole(s: State, message: string, role: string): State {
    s.(roles := s.roles[message := role])
  }

  function OnMeta(s: State, supply: Supply, session: string, message: string, role: string): Step {
    var s1 := SetRole(s, message, role);
    var k := Current(s, Key(session, message));
    if k in s.aggregated && role != "user" then ShowText(s1, supply, k, RoleEntry(role, s.aggregated[k]))
    else Step(s1, [])
  }

  /** A text that follows a closed segment opens the next one. */
  function OpenSegment(s: State, key: Key): State {
    if key in s.pending then
      s.(pending := s.pending - {key}, segment := s.segment[key := Current(s, key).segment + 1])
    else s
  }

  function StoreText(s: State, k: SegKey, part: string, text: string): State {
    var order := if k in s.order then s.order[k] else [];
    var order' := if part in order then order else order + [part];
    var texts := (if k in s.texts then s.texts[k] else map[])[part := text];
    s.(order := s.order[k := order'], texts := s.texts[k := texts],
       aggregated := s.aggregated[k := Join(order', texts)])
  }

  function OnText(s: State, supply: Supply, key: Key, part: string, text: string): Step {
    var s1 := OpenSegment(s, key);
    var k := Current(s1, key);
    var s2 := StoreText(s1, k, part, text);
    if key.message in s.roles && s.roles[key.message] != "user" then
      ShowText(s2, supply, k, RoleEntry(s.roles[key.message], s2.aggregated[k]))
    else Step(s2, [])
  }

  /** Text that is pending when a tool event arrives is to be closed before the next text. */
  function MarkBreak(s: State, key: Key): State {
    var k := Current(s, key);
    if k in s.aggregated && s.aggregated[k] != "" then s.(pending := s.pending + {key}) else s
  }

  function ShowTool(s: State, supply: Supply, part: string, e: Entry): Step {
    if part in s.byPart then Step(s, [Replace(s.byPart[part], e)])
    else Step(s.(byPart := s.byPart[part := supply(s.used)], used := s.used + 1), [Add(supply(s.used), e)])
  }

  function OnTool(s: State, supply: Supply, key: Key, part: string, summary: string): Step {
    ShowTool(MarkBreak(s, key), supply, part, ToolEntry(summary))
  }

  function Normalize(s: State, supply: Supply, ev: Event): Step {
    match ev
    case Meta(session, message, role) =>
      if role.Some? then OnMeta(s, supply, session, message, role.value) else Step(s, [])
    case TextPart(key, part, text) => OnText(s, supply, key, part, text)
    case ToolPart(key, part, summary) => OnTool(s, supply, key, part, summary)
    case Ignored => Step(s, [])
  }

  function Run(s: State, supply: Supply, evs: seq<Event>): Step
    decreases |evs|
  {
    if evs == [] then Step(s, [])
    else
      var before := Run(s, supply, evs[..|evs| - 1]);
      var last := Normalize(before.state, supply, evs[|evs| - 1]);
      Step(last.state, before.patches + last.patches)
  }

  // ---------- The loop ----------

  class ShareProcessor {
    var byPart: map<string, nat>
    var byMessage: map<SegKey, nat>
    var order: map<SegKey, seq<string>>
    var texts: map<SegKey, map<string, string>>
    var aggregated: map<SegKey, string>
    var segment: map<Key, nat>
    var pending: set<Key>
    var roles: map<string, string>

    constructor ()
      ensures View(0) == INIT
    {
      byPart, byMessage, order, texts, aggregated := map[], map[], map[], map[], map[];
      segment, pending, roles := map[], {}, map[];
    }

    ghost function View(used: nat): State
      reads this
    {
      State(byPart, byMessage, order, texts, aggregated, segment, pending, roles, used)
    }

    method Upsert(k: SegKey, e: Entry, provider: IndexProvider) returns (patch: Patch<Entry>)
      modifies this`byMessage, provider
      ensures Step(View(provider.used), [patch]) == ShowText(old(View(provider.used)), provider.supply, k, e)
    {
      if k in byMessage {
        patch := Replace(byMessage[k], e);
      } else {
        var i := provider.Next();
        byMessage := byMessage[k := i];
        patch := Add(i, e);
      }
    }

    method Store(k: SegKey, part: string, text: string)
      modifies this`order, this`texts, this`aggregated
      ensures forall used: nat :: View(used) == StoreText(old(View(used)), k, part, text)
    {
      hide Join;
      var partsOrder := if k in order then order[k] else [];
      if part !in partsOrder { partsOrder := partsOrder + [part]; }
      var partTexts := (if k in texts then texts[k] else map[])[part := text];
      var joined := Join(partsOrder, partTexts);
      order, texts, aggregated := order[k := partsOrder], texts[k := partTexts], aggregated[k := joined];
    }

    method HandleText(key: Key, part: string, text: string, provider: IndexProvider)
      returns (patches: seq<Patch<Entry>>)
      modifies this, provider
      ensures Step(View(provider.used), patches) == OnText(old(View(provider.used)), provider.supply, key, part, text)
    {
      patches := [];
      if key in pending {
        pending := pending - {key};
        segment := segment[key := (if key in segment then segment[key] else 0) + 1];
      }
      var k := SegKey(key, if key in segment then segment[key] else 0);
      ghost var s1 := OpenSegment(old(View(provider.used)), key);
      assert View(provider.used) == s1 && k == Current(s1, key);
      Store(k, part, text);
      ghost var s2 := StoreText(s1, k, part, text);
      assert View(provider.used) == s2 && k in aggregated && roles == old(roles);
      hide OpenSegment, StoreText, ShowText, Current;
      if key.message in roles && roles[key.message] != "user" {
        var patch := Upsert(k, RoleEntry(roles[key.message], aggregated[k]), provider);
        patches := [patch];
      }
    }

    method Handle(ev: Event, provider: IndexProvider) returns (patches: seq<Patch<Entry>>)
      modifies this, provider
      ensures Step(View(provider.used), patches) == Normalize(old(View(provider.used)), provider.supply, ev)
    {
      patches := [];
      match ev {
        case Meta(session, message, role) =>
          if role.Some? {
            roles := roles[message := role.value];
            var key := Key(session, message);
            var k := SegKey(key, if key in segment then segment[key] else 0);
            if k in aggregated && role.value != "user" {
              var patch := Upsert(k, RoleEntry(role.value, aggregated[k]), provider);
              patches := [patch];
            }
          }
        case TextPart(key, part, text) => patches := HandleText(key, part, text, provider);
        case ToolPart(key, part, summary) =>
          var k := SegKey(key, if key in segment then segment[key] else 0);
          if k in aggregated && aggregated[k] != "" { pending := pending + {key}; }
          if part in byPart {
            patches := [Replace(byPart[part], ToolEntry(summary))];
          } else {
            var i := provider.Next();
            byPart := byPart[part := i];
            patches := [Add(i, ToolEntry(summary))];
          }
        case Ignored =>
      }
    }
  }

  method ProcessShareEvents(evs: seq<Event>, provider: IndexProvider) returns (patches: seq<Patch<Entry>>)
    requires provider.used == 0
    modifies provider
    ensures patches == Run(INIT, provider.supply, evs).patches
  {
    var p := new ShareProcessor();
    patches := [];
    for n := 0 to |evs|
      invariant fresh(p) && Step(p.View(provider.used), patches) == Run(INIT, provider.supply, evs[..n])
    {
      var more := p.Handle(evs[n], provider);
      assert evs[..n + 1][..n] == evs[..n];
      patches := patches + more;
    }
    assert evs[..|evs|] == evs;
  }
}
