/** Executor profiles: the defaults, what a user changed, and the cache they are merged into.

    The maps have no order, so every loop here goes through its keys in whatever order it finds them. */
module Profiles {
  import opened Text

  type Executor = string

  datatype Agent = Agent(base: Executor, settings: string)

  type Profile = map<string, Agent>
  type Configs = map<Executor, Profile>

  const GENIE := "GENIE"

  datatype Error =
    | CannotDeleteExecutor(executor: Executor)
    | CannotDeleteBuiltInConfig(executor: Executor, variant: string)
    | Validation(executor: Executor)

  datatype Result<+T> = Ok(value: T) | Err(error: Error)

  // ---------- Canonical keys ----------

  function Upper(c: char): char {
    if 'a' <= c <= 'z' then c - 'a' + 'A' else c
  }

  predicate EqIgnoreCase(a: string, b: string) {
    |a| == |b| && forall i :: 0 <= i < |a| ==> Upper(a[i]) == Upper(b[i])
  }

  /** `screaming` is the conversion to SCREAMING_SNAKE_CASE. */
  function CanonicalKey(screaming: string -> string, key: string): string {
    if EqIgnoreCase(key, "DEFAULT") || EqIgnoreCase(key, GENIE) then GENIE else screaming(key)
  }

  predicate IsCanonical(screaming: string -> string, key: string) {
    CanonicalKey(screaming, key) == key
  }

  ghost predicate Idempotent(screaming: string -> string) {
    forall key :: IsCanonical(screaming, CanonicalKey(screaming, key))
  }

  function ToUpper(s: string): string {
    seq(|s|, i requires 0 <= i < |s| => if 'a' <= s[i] <= 'z' then s[i] - 'a' + 'A' else s[i])
  }

  /** "default" and "genie", in whatever case, stand for the default; every other key is converted. */
  lemma KeyStandsFor(screaming: string -> string, key: string)
    ensures CanonicalKey(screaming, key)
            == if ToUpper(key) == "DEFAULT" || ToUpper(key) == "GENIE" then "GENIE" else screaming(key)
  {
    assert ToUpper("DEFAULT") == "DEFAULT" && ToUpper("GENIE") == "GENIE";
    SameUpper(key, "DEFAULT");
    SameUpper(key, "GENIE");
    hide EqIgnoreCase, ToUpper;
  }

  lemma SameUpper(a: string, b: string)
    ensures EqIgnoreCase(a, b) <==> ToUpper(a) == ToUpper(b)
  {
    if ToUpper(a) == ToUpper(b) {
      assert |a| == |ToUpper(a)| == |b|;
      forall i | 0 <= i < |a|
        ensures Upper(a[i]) == Upper(b[i])
      {
        assert ToUpper(a)[i] == ToUpper(b)[i];
      }
    }
  }

  /** What canonicalising promises for every order of the keys: the keys are the canonical forms, a key that was
      canonical keeps its configuration, and every other configuration comes from one of the keys it stands for. */
  ghost predicate Canonicalised(screaming: string -> string, p: Profile, q: Profile) {
    && (forall k :: k in q ==> IsCanonical(screaming, k) && StandsFor(screaming, p, q, k))
    && (forall k :: k in p ==> CanonicalKey(screaming, k) in q)
    && (forall k :: k in p && IsCanonical(screaming, k) ==> k in q && q[k] == p[k])
  }

  ghost predicate StandsFor(screaming: string -> string, p: Profile, q: Profile, k: string)
    requires k in q
  {
    exists o :: o in p && CanonicalKey(screaming, o) == k && p[o] == q[k]
  }

  /** Halfway: the keys in `done` have been replaced. */
  ghost predicate Partly(screaming: string -> string, p: Profile, q: Profile, done: set<string>) {
    && (forall o :: o in done ==> o in p && !IsCanonical(screaming, o) && o !in q && CanonicalKey(screaming, o) in q)
    && (forall k :: k in p && k !in done ==> k in q && q[k] == p[k])
    && NewOnesStand(screaming, p, q, done)
  }

  ghost predicate NewOnesStand(screaming: string -> string, p: Profile, q: Profile, done: set<string>) {
    forall k :: k in q && (k !in p || k in done) ==> IsCanonical(screaming, k) && StandsFor(screaming, p, q, k)
  }

  /** Replacing one more key. */
  function Replaced(q: Profile, old_: string, canon: string): Profile
    requires old_ in q
  {
    var rest := q - {old_};
    if canon in rest then rest else rest[canon := q[old_]]
  }

  lemma CanonIsCanonical(screaming: string -> string, o: string)
    requires Idempotent(screaming)
    ensures IsCanonical(screaming, CanonicalKey(screaming, o))
    ensures !IsCanonical(screaming, o) ==> CanonicalKey(screaming, o) != o
  {
  }

  lemma PartlyMore(screaming: string -> string, p: Profile, q: Profile, done: set<string>, o: string)
    requires Idempotent(screaming) && Partly(screaming, p, q, done) && o in p && o !in done
             && !IsCanonical(screaming, o)
    ensures o in q && Partly(screaming, p, Replaced(q, o, CanonicalKey(screaming, o)), done + {o})
  {
    hide CanonicalKey, IsCanonical, Idempotent, NewOnesStand;
    CanonIsCanonical(screaming, o);
    NewOneStands(screaming, p, q, done, o, CanonicalKey(screaming, o));
    forall x | x in done
      ensures CanonicalKey(screaming, x) != o
    {
      CanonIsCanonical(screaming, x);
    }
  }

  lemma NewOneStands(screaming: string -> string, p: Profile, q: Profile, done: set<string>, o: string, canon: string)
    requires NewOnesStand(screaming, p, q, done) && o in p && o in q && q[o] == p[o]
    requires canon == CanonicalKey(screaming, o) && canon != o && IsCanonical(screaming, canon)
    ensures NewOnesStand(screaming, p, Replaced(q, o, canon), done + {o})
  {
    var q' := Replaced(q, o, canon);
    hide CanonicalKey, IsCanonical;
    forall k | k in q' && (k !in p || k in done + {o})
      ensures IsCanonical(screaming, k) && StandsFor(screaming, p, q', k)
    {
      if k == canon && canon !in q {
        assert p[o] == q'[k];
      } else {
        assert k in q && q'[k] == q[k];
        var o' :| o' in p && CanonicalKey(screaming, o') == k && p[o'] == q[k];
      }
    }
  }

  lemma PartlyDone(screaming: string -> string, p: Profile, q: Profile, done: set<string>)
    requires Partly(screaming, p, q, done) && forall k :: k in p && !IsCanonical(screaming, k) ==> k in done
    ensures Canonicalised(screaming, p, q)
  {
    forall k | k in q
      ensures IsCanonical(screaming, k) && StandsFor(screaming, p, q, k)
    {
      if k in p && k !in done {
        assert IsCanonical(screaming, k) && p[k] == q[k];
      }
    }
  }

  ghost predicate Listed(screaming: string -> string, p: Profile, rs: seq<(string, string)>, done: set<string>) {
    && (forall i :: 0 <= i < |rs| ==>
          rs[i].0 in p && !IsCanonical(screaming, rs[i].0) && rs[i].1 == CanonicalKey(screaming, rs[i].0))
    && (forall i, j :: 0 <= i < j < |rs| ==> rs[i].0 != rs[j].0)
    && forall k :: k in p && !IsCanonical(screaming, k) && k in done ==> exists i :: 0 <= i < |rs| && rs[i].0 == k
  }

  method ListReplacements(screaming: string -> string, p: Profile) returns (replacements: seq<(string, string)>)
    ensures Listed(screaming, p, replacements, p.Keys)
  {
    hide CanonicalKey;
    replacements := [];
    var todo := p.Keys;
    while todo != {}
      invariant todo <= p.Keys && Listed(screaming, p, replacements, p.Keys - todo)
      invariant forall i :: 0 <= i < |replacements| ==> replacements[i].0 !in todo
    {
      var key :| key in todo;
      ghost var before, listed := p.Keys - todo, replacements;
      todo := todo - {key};
      var canon := CanonicalKey(screaming, key);
      if canon != key { replacements := replacements + [(key, canon)]; }
      forall k | k in p && !IsCanonical(screaming, k) && k in p.Keys - todo
        ensures exists i :: 0 <= i < |replacements| && replacements[i].0 == k
      {
        if k == key {
          assert replacements[|listed|].0 == k;
        } else {
          assert k in before;
          var i :| 0 <= i < |listed| && listed[i].0 == k;
          assert replacements[i].0 == k;
        }
      }
    }
  }

  // -- One order of the keys --

  /** What the second loop makes of a profile when it meets the keys in this order. */
  function Outcome(screaming: string -> string, p: Profile, order: seq<string>): Profile {
    if order == [] then p
    else
      var q, o := Outcome(screaming, p, order[..|order| - 1]), order[|order| - 1];
      if o in q then Replaced(q, o, CanonicalKey(screaming, o)) else q
  }

  ghost predicate Distinct(order: seq<string>) {
    forall i, j :: 0 <= i < j < |order| ==> order[i] != order[j]
  }

  /** The keys that are not canonical, each once, in some order. */
  ghost predicate IsOrder(screaming: string -> string, p: Profile, order: seq<string>) {
    Distinct(order) && forall k :: k in order <==> k in p && !IsCanonical(screaming, k)
  }

  ghost predicate SomeOf(screaming: string -> string, p: Profile, order: seq<string>) {
    Distinct(order) && forall k :: k in order ==> k in p && !IsCanonical(screaming, k)
  }

  ghost function KeysOf(order: seq<string>): set<string> {
    set k | k in order
  }

  /** The second loop can make `q` of `p`. */
  ghost predicate IsOutcome(screaming: string -> string, p: Profile, q: Profile) {
    exists order :: IsOrder(screaming, p, order) && q == Outcome(screaming, p, order)
  }

  lemma {:induction false} OutcomePartly(screaming: string -> string, p: Profile, order: seq<string>)
    requires Idempotent(screaming) && SomeOf(screaming, p, order)
    ensures Partly(screaming, p, Outcome(screaming, p, order), KeysOf(order))
    ensures forall o :: o in p && o !in order && !IsCanonical(screaming, o) ==> o in Outcome(screaming, p, order)
    decreases |order|
  {
    hide CanonicalKey, IsCanonical, Idempotent;
    if order == [] {
      PartlyStarts(screaming, p);
      assert KeysOf(order) == {};
    } else {
      var init, o := order[..|order| - 1], order[|order| - 1];
      assert order == init + [o] && o !in init;
      OutcomePartly(screaming, p, init);
      PartlyMore(screaming, p, Outcome(screaming, p, init), KeysOf(init), o);
      assert KeysOf(order) == KeysOf(init) + {o};
      hide Replaced, NewOnesStand;
    }
  }

  /** Whatever the order, the outcome is a canonical form of the profile. */
  lemma OutcomeIsCanonical(screaming: string -> string, p: Profile, order: seq<string>)
    requires Idempotent(screaming) && IsOrder(screaming, p, order)
    ensures Canonicalised(screaming, p, Outcome(screaming, p, order))
  {
    OutcomePartly(screaming, p, order);
    hide CanonicalKey, IsCanonical, Idempotent, Partly, Outcome;
    PartlyDone(screaming, p, Outcome(screaming, p, order), KeysOf(order));
  }

  method CanonicaliseProfile(screaming: string -> string, p: Profile) returns (q: Profile)
    requires Idempotent(screaming)
    ensures Canonicalised(screaming, p, q) && IsOutcome(screaming, p, q)
  {
    var replacements := ListReplacements(screaming, p);
    ghost var order := Firsts(replacements);
    ListedIsOrder(screaming, p, replacements);
    q := p;
    OutcomeNext(screaming, p, order, 0);
    hide CanonicalKey, IsCanonical, Idempotent, Listed, IsOrder, Canonicalised, Outcome;
    for i := 0 to |replacements|
      invariant q == Outcome(screaming, p, order[..i])
    {
      OutcomeNext(screaming, p, order, i);
      ListedAt(screaming, p, replacements, i);
      var (old_, canon) := replacements[i];
      if old_ in q {
        var cfg := q[old_];
        q := q - {old_};
        if canon !in q { q := q[canon := cfg]; }
      }
    }
    assert order[..|replacements|] == order;
    OutcomeIsCanonical(screaming, p, order);
  }

  lemma OutcomeNext(screaming: string -> string, p: Profile, order: seq<string>, n: nat)
    ensures Outcome(screaming, p, order[..0]) == p
    ensures n < |order| ==>
              var q := Outcome(screaming, p, order[..n]);
              Outcome(screaming, p, order[..n + 1])
              == if order[n] in q then Replaced(q, order[n], CanonicalKey(screaming, order[n])) else q
  {
    hide CanonicalKey, Replaced;
    if n < |order| {
      assert order[..n + 1][..n] == order[..n];
    }
  }

  ghost function Firsts(rs: seq<(string, string)>): seq<string> {
    seq(|rs|, i requires 0 <= i < |rs| => rs[i].0)
  }

  lemma PartlyStarts(screaming: string -> string, p: Profile)
    ensures Partly(screaming, p, p, {})
  {
  }

  lemma ListedAt(screaming: string -> string, p: Profile, rs: seq<(string, string)>, n: nat)
    requires Listed(screaming, p, rs, p.Keys) && n < |rs|
    ensures rs[n].1 == CanonicalKey(screaming, rs[n].0)
  {
  }

  lemma ListedIsOrder(screaming: string -> string, p: Profile, rs: seq<(string, string)>)
    requires Listed(screaming, p, rs, p.Keys)
    ensures IsOrder(screaming, p, Firsts(rs))
  {
    hide CanonicalKey, IsCanonical;
    var order := Firsts(rs);
    forall k
      ensures k in order <==> k in p && !IsCanonical(screaming, k)
    {
      if k in p && !IsCanonical(screaming, k) {
        var i :| 0 <= i < |rs| && rs[i].0 == k;
        assert order[i] == k;
      }
    }
  }

  /** A profile with canonical keys is left as it is. */
  lemma CanonicalIsKept(screaming: string -> string, p: Profile, q: Profile)
    requires Canonicalised(screaming, p, q) && forall k :: k in p ==> IsCanonical(screaming, k)
    ensures q == p
  {
    hide CanonicalKey;
    forall k | k in q
      ensures k in p
    {
      var o :| o in p && CanonicalKey(screaming, o) == k && p[o] == q[k];
      assert IsCanonical(screaming, o);
    }
  }

  /** Two keys compete for one canonical key that nobody holds. */
  ghost predicate Compete(screaming: string -> string, p: Profile, a: string, b: string) {
    && a in p && b in p && p[a] != p[b]
    && CanonicalKey(screaming, a) == CanonicalKey(screaming, b) && CanonicalKey(screaming, a) !in p
  }

  /** Two canonical forms of a profile differ only where keys compete. */
  lemma FormsDifferOnlyForCompetitors(screaming: string -> string, p: Profile, q: Profile, r: Profile)
    requires Canonicalised(screaming, p, q) && Canonicalised(screaming, p, r)
    requires forall a, b :: !Compete(screaming, p, a, b)
    ensures q == r
  {
    hide CanonicalKey;
    forall k | k in q
      ensures k in r && q[k] == r[k]
    {
      var o :| o in p && CanonicalKey(screaming, o) == k && p[o] == q[k];
      var o' :| o' in p && CanonicalKey(screaming, o') == k && p[o'] == r[k];
      assert !Compete(screaming, p, o, o');
    }
    forall k | k in r
      ensures k in q
    {
      var o :| o in p && CanonicalKey(screaming, o) == k && p[o] == r[k];
    }
  }

  /** The first key in the order that stands for a free canonical key gets it for good. */
  lemma {:induction false} FirstWins(screaming: string -> string, p: Profile, a: string, rest: seq<string>)
    requires Idempotent(screaming) && SomeOf(screaming, p, [a] + rest) && CanonicalKey(screaming, a) !in p
    ensures var q, k := Outcome(screaming, p, [a] + rest), CanonicalKey(screaming, a); k in q && q[k] == p[a]
    decreases |rest|
  {
    var order := [a] + rest;
    if rest == [] {
      assert order == [a] && [a][..0] == [] && Outcome(screaming, p, []) == p && order[0] == a;
    } else {
      var init, o := rest[..|rest| - 1], rest[|rest| - 1];
      assert order[..|order| - 1] == [a] + init && order[|order| - 1] == o;
      assert o in order && IsCanonical(screaming, CanonicalKey(screaming, a)) && !IsCanonical(screaming, o);
      SomeInit(screaming, p, order);
      hide Idempotent, CanonicalKey, Replaced, SomeOf;
      FirstWins(screaming, p, a, init);
      var q, k := Outcome(screaming, p, [a] + init), CanonicalKey(screaming, a);
      assert k != o;
      if o in q { ReplacedKeeps(q, o, CanonicalKey(screaming, o), k); }
    }
  }

  lemma ReplacedKeeps(q: Profile, o: string, canon: string, k: string)
    requires o in q && k in q && k != o
    ensures k in Replaced(q, o, canon) && Replaced(q, o, canon)[k] == q[k]
  {
  }

  lemma SomeInit(screaming: string -> string, p: Profile, order: seq<string>)
    requires SomeOf(screaming, p, order) && order != []
    ensures SomeOf(screaming, p, order[..|order| - 1])
  {
    hide IsCanonical, CanonicalKey;
  }

  /** Any set of keys can be met in some order. */
  lemma {:induction false} InSomeOrder(keys: set<string>) returns (order: seq<string>)
    ensures Distinct(order) && forall k :: k in order <==> k in keys
    decreases |keys|
  {
    if keys == {} {
      order := [];
    } else {
      var k :| k in keys;
      var rest := InSomeOrder(keys - {k});
      order := rest + [k];
      forall x
        ensures x in order <==> x in keys
      {
      }
    }
  }

  /** Any key that is not canonical can be met first. */
  lemma MetFirst(screaming: string -> string, p: Profile, a: string) returns (rest: seq<string>)
    requires a in p && !IsCanonical(screaming, a)
    ensures IsOrder(screaming, p, [a] + rest)
  {
    hide IsCanonical, CanonicalKey;
    rest := InSomeOrder((set k | k in p && !IsCanonical(screaming, k)) - {a});
    var order := [a] + rest;
    forall k
      ensures k in order <==> k in p && !IsCanonical(screaming, k)
    {
    }
    assert Distinct(order) by { assert a !in rest; }
  }

  /** Where keys compete, two orders of the keys give two outcomes. */
  lemma CompetitorsMakeOrderMatter(screaming: string -> string, p: Profile, a: string, b: string)
    returns (order: seq<string>, order': seq<string>)
    requires Idempotent(screaming) && Compete(screaming, p, a, b)
    ensures IsOrder(screaming, p, order) && IsOrder(screaming, p, order')
    ensures Outcome(screaming, p, order) != Outcome(screaming, p, order')
  {
    assert !IsCanonical(screaming, a) && !IsCanonical(screaming, b);
    hide CanonicalKey, IsCanonical, Idempotent, Outcome, Distinct;
    var rest := MetFirst(screaming, p, a);
    var rest' := MetFirst(screaming, p, b);
    FirstWins(screaming, p, a, rest);
    FirstWins(screaming, p, b, rest');
    order, order' := [a] + rest, [b] + rest';
  }

  /** The outcome is the same for every order of the keys, if and only if no two keys compete. */
  lemma OrderMattersExactly(screaming: string -> string, p: Profile)
    requires Idempotent(screaming)
    ensures (forall order, order' :: IsOrder(screaming, p, order) && IsOrder(screaming, p, order') ==>
               Outcome(screaming, p, order) == Outcome(screaming, p, order'))
       <==> forall a, b :: !Compete(screaming, p, a, b)
  {
    hide CanonicalKey, Outcome, IsOrder, Canonicalised, Idempotent, Compete;
    if forall a, b :: !Compete(screaming, p, a, b) {
      forall order, order' | IsOrder(screaming, p, order) && IsOrder(screaming, p, order')
        ensures Outcome(screaming, p, order) == Outcome(screaming, p, order')
      {
        OutcomeIsCanonical(screaming, p, order);
        OutcomeIsCanonical(screaming, p, order');
        FormsDifferOnlyForCompetitors(screaming, p, Outcome(screaming, p, order), Outcome(screaming, p, order'));
      }
    } else {
      var a, b :| Compete(screaming, p, a, b);
      var order, order' := CompetitorsMakeOrderMatter(screaming, p, a, b);
    }
  }

  ghost predicate AllCanonicalised(screaming: string -> string, c: Configs, d: Configs) {
    d.Keys == c.Keys && forall x :: x in c ==> Canonicalised(screaming, c[x], d[x])
  }

  /** The keys of every executor were met in some order. */
  ghost predicate AllOutcomes(screaming: string -> string, c: Configs, d: Configs) {
    d.Keys == c.Keys && forall x :: x in c ==> IsOutcome(screaming, c[x], d[x])
  }

  lemma OutcomesAreCanonical(screaming: string -> string, c: Configs, d: Configs)
    requires Idempotent(screaming) && AllOutcomes(screaming, c, d)
    ensures AllCanonicalised(screaming, c, d)
  {
    hide Canonicalised, Idempotent, IsOrder, Outcome;
    forall x | x in c
      ensures Canonicalised(screaming, c[x], d[x])
    {
      assert IsOutcome(screaming, c[x], d[x]);
      var order :| IsOrder(screaming, c[x], order) && d[x] == Outcome(screaming, c[x], order);
      OutcomeIsCanonical(screaming, c[x], order);
    }
  }

  method Canonicalise(screaming: string -> string, c: Configs) returns (d: Configs)
    requires Idempotent(screaming)
    ensures AllOutcomes(screaming, c, d) && AllCanonicalised(screaming, c, d)
  {
    hide Canonicalised, Idempotent, IsOutcome;
    d := c;
    var todo := c.Keys;
    while todo != {}
      invariant todo <= c.Keys == d.Keys
      invariant forall x :: x in c ==> if x in todo then d[x] == c[x] else IsOutcome(screaming, c[x], d[x])
    {
      var x :| x in todo;
      var q := CanonicaliseProfile(screaming, d[x]);
      d := d[x := q];
      todo := todo - {x};
    }
    OutcomesAreCanonical(screaming, c, d);
  }

  // ---------- Overrides ----------

  /** The configurations that are new or differ. */
  function Differences(base: Profile, current: Profile): Profile {
    map n | n in current && !(n in base && base[n] == current[n]) :: current[n]
  }

  /** Everything built in is still there. */
  ghost predicate NothingDeleted(defaults: Configs, current: Configs) {
    forall x :: x in defaults ==> x in current && defaults[x].Keys <= current[x].Keys
  }

  predicate Overridden(defaults: Configs, current: Configs, x: Executor)
    requires x in current
  {
    x !in defaults || Differences(defaults[x], current[x]) != map[]
  }

  function OverrideOf(defaults: Configs, current: Configs, x: Executor): Profile
    requires x in current
  {
    if x in defaults then Differences(defaults[x], current[x]) else current[x]
  }

  function Overrides(defaults: Configs, current: Configs): Configs {
    map x | x in current && Overridden(defaults, current, x) :: OverrideOf(defaults, current, x)
  }

  function Merged(defaults: Configs, overrides: Configs): Configs {
    map x | x in defaults.Keys + overrides.Keys ::
      if x in defaults && x in overrides then defaults[x] + overrides[x]
      else if x in defaults then defaults[x] else overrides[x]
  }

  /** The error names something built in that is gone. */
  predicate Names(e: Error, defaults: Configs, current: Configs) {
    match e
    case CannotDeleteExecutor(x) => x in defaults && x !in current
    case CannotDeleteBuiltInConfig(x, n) => x in defaults && x in current && n in defaults[x] && n !in current[x]
    case Validation(_) => false
  }

  method FindDeletedConfig(x: Executor, base: Profile, current: Profile) returns (r: Option<string>)
    ensures r.None? <==> base.Keys <= current.Keys
    ensures r.Some? ==> r.value in base && r.value !in current
  {
    var todo := base.Keys;
    while todo != {}
      invariant todo <= base.Keys && base.Keys - todo <= current.Keys
    {
      var n :| n in todo;
      if n !in current { return Some(n); }
      todo := todo - {n};
    }
    r := None;
  }

  /** Scan for built-in executors and configurations that were taken away. */
  method FindDeletion(defaults: Configs, current: Configs) returns (r: Option<Error>)
    ensures r.None? <==> NothingDeleted(defaults, current)
    ensures r.Some? ==> Names(r.value, defaults, current)
  {
    var todo := defaults.Keys;
    while todo != {}
      invariant todo <= defaults.Keys
      invariant forall x :: x in defaults && x !in todo ==> x in current && defaults[x].Keys <= current[x].Keys
    {
      var x :| x in todo;
      if x !in current { return Some(CannotDeleteExecutor(x)); }
      var gone := FindDeletedConfig(x, defaults[x], current[x]);
      if gone.Some? { return Some(CannotDeleteBuiltInConfig(x, gone.value)); }
      todo := todo - {x};
    }
    r := None;
  }

  method CollectDifferences(base: Profile, current: Profile) returns (r: Profile)
    ensures r == Differences(base, current)
  {
    r := map[];
    var todo := current.Keys;
    while todo != {}
      invariant todo <= current.Keys
      invariant forall n :: n in r <==> n in current && n !in todo && !(n in base && base[n] == current[n])
      invariant forall n :: n in r ==> n in current && r[n] == current[n]
    {
      var n :| n in todo;
      if n in base {
        if current[n] != base[n] { r := r[n := current[n]]; }
      } else {
        r := r[n := current[n]];
      }
      todo := todo - {n};
    }
  }

  method ComputeOverrides(defaults: Configs, current: Configs) returns (r: Result<Configs>)
    ensures r.Ok? <==> NothingDeleted(defaults, current)
    ensures r.Ok? ==> r.value == Overrides(defaults, current)
    ensures r.Err? ==> Names(r.error, defaults, current)
  {
    var deletion := FindDeletion(defaults, current);
    if deletion.Some? { return Err(deletion.value); }
    hide Differences, NothingDeleted;
    var overrides: Configs := map[];
    var todo := current.Keys;
    while todo != {}
      invariant todo <= current.Keys
      invariant forall x :: x in overrides <==> x in current && x !in todo && Overridden(defaults, current, x)
      invariant forall x :: x in overrides ==> x in current && overrides[x] == OverrideOf(defaults, current, x)
    {
      var x :| x in todo;
      if x in defaults {
        var changes := CollectDifferences(defaults[x], current[x]);
        if changes != map[] { overrides := overrides[x := changes]; }
      } else {
        overrides := overrides[x := current[x]];
      }
      todo := todo - {x};
    }
    r := Ok(overrides);
  }

  method MergeProfile(base: Profile, changes: Profile) returns (r: Profile)
    ensures r == base + changes
  {
    r := base;
    var todo := changes.Keys;
    while todo != {}
      invariant todo <= changes.Keys && r.Keys == base.Keys + (changes.Keys - todo)
      invariant forall n :: n in r ==> r[n] == if n in changes && n !in todo then changes[n] else base[n]
    {
      var n :| n in todo;
      r := r[n := changes[n]];
      todo := todo - {n};
    }
  }

  method MergeWithDefaults(defaults: Configs, overrides: Configs) returns (r: Configs)
    ensures r == Merged(defaults, overrides)
  {
    r := defaults;
    var todo := overrides.Keys;
    while todo != {}
      invariant todo <= overrides.Keys && r.Keys == defaults.Keys + (overrides.Keys - todo)
      invariant forall x :: x in r ==>
                  r[x] == if x in todo || x !in overrides then defaults[x] else Merged(defaults, overrides)[x]
    {
      var x :| x in todo;
      if x in defaults {
        var merged := MergeProfile(r[x], overrides[x]);
        r := r[x := merged];
      } else {
        r := r[x := overrides[x]];
      }
      todo := todo - {x};
    }
  }

  lemma DifferencesRestore(base: Profile, current: Profile)
    requires base.Keys <= current.Keys
    ensures base + Differences(base, current) == current
  {
  }

  /** Merging the overrides back into the defaults gives exactly what they were computed from. */
  lemma RoundTrip(defaults: Configs, current: Configs)
    requires NothingDeleted(defaults, current)
    ensures Merged(defaults, Overrides(defaults, current)) == current
  {
    var m := Merged(defaults, Overrides(defaults, current));
    hide Differences;
    assert m.Keys == current.Keys;
    forall x | x in current
      ensures m[x] == current[x]
    {
      if x in defaults {
        DifferencesRestore(defaults[x], current[x]);
      }
    }
  }

  /** The overrides are the least that do: any overrides that give `current` contain them. */
  lemma OverridesAreLeast(defaults: Configs, current: Configs, others: Configs)
    requires Merged(defaults, others) == current
    ensures var o := Overrides(defaults, current);
            forall x :: x in o ==> x in others && forall n :: n in o[x] ==> n in others[x] && others[x][n] == o[x][n]
  {
    var o := Overrides(defaults, current);
    forall x | x in o
      ensures x in others && forall n :: n in o[x] ==> n in others[x] && others[x][n] == o[x][n]
    {
      assert x in Merged(defaults, others) && current[x] == Merged(defaults, others)[x];
    }
  }

  /** So removing any overriding executor, even one with nothing in it, or any one configuration changes the
      merge. */
  lemma OverridesAreMinimal(defaults: Configs, current: Configs, x: Executor)
    requires x in Overrides(defaults, current)
    ensures var o := Overrides(defaults, current);
            && Merged(defaults, o - {x}) != current
            && forall n :: n in o[x] ==> Merged(defaults, o[x := o[x] - {n}]) != current
  {
    var o := Overrides(defaults, current);
    if Merged(defaults, o - {x}) == current {
      OverridesAreLeast(defaults, current, o - {x});
    }
    forall n | n in o[x]
      ensures Merged(defaults, o[x := o[x] - {n}]) != current
    {
      var without := o[x := o[x] - {n}];
      if Merged(defaults, without) == current {
        OverridesAreLeast(defaults, current, without);
      }
    }
  }

  // ---------- The cache ----------

  predicate Reserved(name: string) {
    |name| >= 2 && name[..2] == "__"
  }

  /** There is a default of the executor's own kind, and no name starts with two underscores. */
  ghost predicate ValidProfile(x: Executor, p: Profile) {
    && "GENIE" in p && p["GENIE"].base == x
    && forall n :: n in p ==> !(|n| >= 2 && n[0] == '_' && n[1] == '_')
  }

  ghost predicate Valid(c: Configs) {
    forall x :: x in c ==> ValidProfile(x, c[x])
  }

  method HasReserved(p: Profile) returns (r: bool)
    ensures r <==> exists n :: n in p && Reserved(n)
  {
    var todo := p.Keys;
    while todo != {}
      invariant todo <= p.Keys && forall n :: n in p && n !in todo ==> !Reserved(n)
    {
      var n :| n in todo;
      if Reserved(n) { return true; }
      todo := todo - {n};
    }
    r := false;
  }

  method ValidateMerged(merged: Configs) returns (r: Option<Error>)
    ensures r.None? <==> Valid(merged)
    ensures r.Some? ==>
              && r.value.Validation? && r.value.executor in merged
              && !ValidProfile(r.value.executor, merged[r.value.executor])
  {
    var todo := merged.Keys;
    while todo != {}
      invariant todo <= merged.Keys && forall x :: x in merged && x !in todo ==> ValidProfile(x, merged[x])
    {
      var x :| x in todo;
      var p := merged[x];
      if GENIE !in p || p[GENIE].base != x { return Some(Validation(x)); }
      var reserved := HasReserved(p);
      if reserved { return Some(Validation(x)); }
      todo := todo - {x};
    }
    r := None;
  }

  ghost predicate CanonicalKeys(screaming: string -> string, c: Configs) {
    forall x, n :: x in c && n in c[x] ==> IsCanonical(screaming, n)
  }

  /** What the embedded defaults are. */
  ghost predicate GoodDefaults(screaming: string -> string, defaults: Configs) {
    CanonicalKeys(screaming, defaults) && Valid(defaults)
  }

  /** Everything built in is there, keys are canonical, and every executor has a fitting default. */
  ghost predicate Safe(screaming: string -> string, defaults: Configs, cache: Configs) {
    NothingDeleted(defaults, cache) && CanonicalKeys(screaming, cache) && Valid(cache)
  }

  /** A canonical form of what was asked for is accepted: nothing built in is gone, and what it merges to is
      valid. */
  ghost predicate Accepted(defaults: Configs, c: Configs) {
    NothingDeleted(defaults, c) && Valid(Merged(defaults, Overrides(defaults, c)))
  }

  ghost function Cached(defaults: Configs, c: Configs, before: Configs): Configs {
    if Accepted(defaults, c) then Merged(defaults, Overrides(defaults, c)) else before
  }

  /** One call of `update_cache`, whatever order the keys come in: the overrides of what was asked for are merged into
      the defaults, or nothing happens. */
  ghost predicate Update(screaming: string -> string, defaults: Configs, current: Configs, before: Configs,
                         after: Configs)
  {
    exists c :: AllOutcomes(screaming, current, c) && after == Cached(defaults, c, before)
  }

  lemma CanonicalisedKeys(screaming: string -> string, c: Configs, d: Configs)
    requires AllCanonicalised(screaming, c, d)
    ensures CanonicalKeys(screaming, d)
    ensures CanonicalKeys(screaming, c) ==> d == c
  {
    hide IsCanonical, CanonicalKey;
    forall x, n | x in d && n in d[x]
      ensures IsCanonical(screaming, n)
    {
      assert Canonicalised(screaming, c[x], d[x]);
    }
    if CanonicalKeys(screaming, c) {
      forall x | x in c
        ensures d[x] == c[x]
      {
        CanonicalIsKept(screaming, c[x], d[x]);
      }
    }
  }

  /** Canonicalising the embedded defaults leaves them as they are. */
  method CanonicalDefaults(screaming: string -> string, defaults: Configs) returns (d: Configs)
    requires Idempotent(screaming) && GoodDefaults(screaming, defaults)
    ensures d == defaults
  {
    d := Canonicalise(screaming, defaults);
    CanonicalisedKeys(screaming, defaults, d);
  }

  class ProfileCache {
    const screaming: string -> string
    const defaults: Configs
    var cache: Configs

    constructor Load(screaming: string -> string, defaults: Configs)
      requires Idempotent(screaming) && GoodDefaults(screaming, defaults)
      ensures this.screaming == screaming && this.defaults == defaults && cache == defaults
      ensures Safe(screaming, defaults, cache)
    {
      var d := CanonicalDefaults(screaming, defaults);
      DefaultsAreSafe(screaming, defaults);
      this.screaming, this.defaults, cache := screaming, defaults, d;
    }

    /** `c` is the canonical form that the order of the keys has led to. */
    method UpdateCache(current: Configs) returns (r: Result<()>, ghost c: Configs)
      requires Idempotent(screaming) && GoodDefaults(screaming, defaults)
      modifies this
      ensures AllOutcomes(screaming, current, c)
      ensures (r.Ok? <==> Accepted(defaults, c)) && cache == Cached(defaults, c, old(cache))
      ensures r.Err? ==> Names(r.error, defaults, c) || NotValid(r.error, c)
      ensures Update(screaming, defaults, current, old(cache), cache)
    {
      hide AllCanonicalised, AllOutcomes, Valid, NothingDeleted, Names, ValidProfile, GoodDefaults, Idempotent;
      hide Merged, Overrides;
      var d := CanonicalDefaults(screaming, defaults);
      var asked := Canonicalise(screaming, current);
      c := asked;
      var overrides := ComputeOverrides(d, asked);
      if overrides.Err? { return Err(overrides.error), asked; }
      var merged := MergeWithDefaults(d, overrides.value);
      RoundTrip(d, asked);
      var problem := ValidateMerged(merged);
      if problem.Some? { return Err(problem.value), asked; }
      cache := merged;
      r := Ok(());
    }
  }

  /** The error names an executor whose profile is not valid. */
  ghost predicate NotValid(e: Error, c: Configs) {
    e.Validation? && e.executor in c && !ValidProfile(e.executor, c[e.executor])
  }

  /** An accepted update puts exactly the canonical form of what was asked for into the cache, and that is safe. */
  lemma AcceptedIsSafe(screaming: string -> string, defaults: Configs, current: Configs, c: Configs)
    requires Idempotent(screaming) && AllOutcomes(screaming, current, c) && Accepted(defaults, c)
    ensures Merged(defaults, Overrides(defaults, c)) == c && Safe(screaming, defaults, c)
  {
    RoundTrip(defaults, c);
    OutcomesAreCanonical(screaming, current, c);
    CanonicalisedKeys(screaming, current, c);
    hide AllOutcomes, AllCanonicalised, Idempotent, CanonicalKeys, NothingDeleted, Valid, Merged, Overrides;
  }

  lemma UpdateIsSafe(screaming: string -> string, defaults: Configs, current: Configs, before: Configs, after: Configs)
    requires Idempotent(screaming) && Safe(screaming, defaults, before)
             && Update(screaming, defaults, current, before, after)
    ensures Safe(screaming, defaults, after)
  {
    hide AllOutcomes, Idempotent, Safe, Accepted, Merged, Overrides;
    var c :| AllOutcomes(screaming, current, c) && after == Cached(defaults, c, before);
    if Accepted(defaults, c) {
      AcceptedIsSafe(screaming, defaults, current, c);
    }
  }

  lemma DefaultsAreSafe(screaming: string -> string, defaults: Configs)
    requires GoodDefaults(screaming, defaults)
    ensures Safe(screaming, defaults, defaults)
  {
    hide CanonicalKeys, Valid;
  }

  /** The caches after `load` and each of the calls of `update_cache` that follow. */
  ghost predicate Updates(screaming: string -> string, defaults: Configs, asked: seq<Configs>, caches: seq<Configs>) {
    && |caches| == |asked| + 1 && caches[0] == defaults
    && forall i :: 0 <= i < |asked| ==> Update(screaming, defaults, asked[i], caches[i], caches[i + 1])
  }

  /** Whatever was asked for, and in whatever order the keys came, every cache after `load` is safe. */
  lemma {:induction false} CacheStaysSafe(screaming: string -> string, defaults: Configs, asked: seq<Configs>,
                                          caches: seq<Configs>, n: nat)
    requires Idempotent(screaming) && GoodDefaults(screaming, defaults)
    requires Updates(screaming, defaults, asked, caches) && n <= |asked|
    ensures Safe(screaming, defaults, caches[n])
  {
    hide Update, Safe, Idempotent, GoodDefaults;
    if n == 0 {
      DefaultsAreSafe(screaming, defaults);
    } else {
      CacheStaysSafe(screaming, defaults, asked, caches, n - 1);
      assert Update(screaming, defaults, asked[n - 1], caches[n - 1], caches[n - 1 + 1]);
      UpdateIsSafe(screaming, defaults, asked[n - 1], caches[n - 1], caches[n]);
    }
  }

  /** Asking for what is cached is accepted and changes nothing. */
  lemma PuttingBackChangesNothing(screaming: string -> string, defaults: Configs, cache: Configs, c: Configs)
    requires Idempotent(screaming) && Safe(screaming, defaults, cache) && AllOutcomes(screaming, cache, c)
    ensures Accepted(defaults, c) && Cached(defaults, c, cache) == cache
  {
    OutcomesAreCanonical(screaming, cache, c);
    CanonicalisedKeys(screaming, cache, c);
    RoundTrip(defaults, c);
    hide AllOutcomes, AllCanonicalised, Idempotent, CanonicalKeys, NothingDeleted, Valid, Merged, Overrides;
  }

  /** Without competing keys the order of the keys does not matter for the cache. */
  lemma UpdateIsDetermined(screaming: string -> string, defaults: Configs, current: Configs, before: Configs,
                           after: Configs, after': Configs)
    requires Idempotent(screaming) && forall x, a, b :: x in current ==> !Compete(screaming, current[x], a, b)
    requires Update(screaming, defaults, current, before, after) && Update(screaming, defaults, current, before, after')
    ensures after == after'
  {
    hide AllOutcomes, Idempotent, Cached, Compete;
    var c :| AllOutcomes(screaming, current, c) && after == Cached(defaults, c, before);
    var c' :| AllOutcomes(screaming, current, c') && after' == Cached(defaults, c', before);
    OutcomesAreCanonical(screaming, current, c);
    OutcomesAreCanonical(screaming, current, c');
    hide Canonicalised;
    forall x | x in current
      ensures c[x] == c'[x]
    {
      FormsDifferOnlyForCompetitors(screaming, current[x], c[x], c'[x]);
    }
    assert c == c';
  }

  // ---------- Looking up an agent ----------

  datatype ProfileId = ProfileId(executor: Executor, variant: Option<string>)

  function GetCodingAgent(c: Configs, id: ProfileId): Option<Agent> {
    var variant := if id.variant.Some? then id.variant.value else GENIE;
    if id.executor in c && variant in c[id.executor] then Some(c[id.executor][variant]) else None
  }

  /** `None` is where the source panics. */
  function GetCodingAgentOrDefault(c: Configs, id: ProfileId): Option<Agent> {
    var found := GetCodingAgent(c, id);
    if found.Some? then found else GetCodingAgent(c, id.(variant := Some(GENIE)))
  }

  /** For every executor in a safe cache there is an agent, and one of the executor's own kind when the variant
      is missing; without the executor there is none. */
  lemma LookupNeverPanics(screaming: string -> string, defaults: Configs, c: Configs, id: ProfileId)
    requires Safe(screaming, defaults, c)
    ensures GetCodingAgentOrDefault(c, id).Some? <==> id.executor in c
    ensures id.executor in defaults ==> GetCodingAgentOrDefault(c, id).Some?
    ensures id.variant.Some? && id.executor in c && id.variant.value in c[id.executor] ==>
              GetCodingAgentOrDefault(c, id) == Some(c[id.executor][id.variant.value])
    ensures id.variant.Some? && id.executor in c && id.variant.value !in c[id.executor] ==>
              GetCodingAgentOrDefault(c, id) == Some(c[id.executor]["GENIE"])
    ensures id.executor in c && GetCodingAgent(c, id).None? ==> GetCodingAgentOrDefault(c, id).value.base == id.executor
    ensures id.executor in c && id.variant.None? ==> GetCodingAgentOrDefault(c, id) == Some(c[id.executor][GENIE])
  {
    hide CanonicalKeys;
    if id.executor in c {
      assert ValidProfile(id.executor, c[id.executor]);
    }
  }
}
