/** The servers object inside an agent's configuration: read and replaced at a path of object keys. */
module ConfigPath {
  import opened Text

  datatype Json =
    | Null
    | Bool(b: bool)
    | Number(n: int)
    | Str(s: string)
    | Array(items: seq<Json>)
    | Object(fields: map<string, Json>)

  const EMPTY := Object(map[])

  /** `Value::get` with a string: only objects have keys. */
  function Field(j: Json, key: string): Option<Json> {
    if j.Object? && key in j.fields then Some(j.fields[key]) else None
  }

  /** The value at a path. */
  function At(j: Json, path: seq<string>): Option<Json>
    decreases |path|
  {
    if path == [] then Some(j)
    else
      var next := Field(j, path[0]);
      if next.Some? then At(next.value, path[1..]) else None
  }

  function AsServers(j: Option<Json>): map<string, Json> {
    if j.Some? && j.value.Object? then j.value.fields else map[]
  }

  function AsObject(j: Json): Json {
    if j.Object? then j else EMPTY
  }

  /** Step into a key, making it an object if it is missing or something else. */
  function Child(j: Json, key: string): Json
    requires j.Object?
  {
    if key in j.fields then AsObject(j.fields[key]) else EMPTY
  }

  /** The configuration with the servers put at the path; what is on the way becomes an object. */
  function Set(j: Json, path: seq<string>, servers: map<string, Json>): (r: Json)
    requires path != []
    ensures r.Object?
    decreases |path|
  {
    var o := AsObject(j);
    if |path| == 1 then Object(o.fields[path[0] := Object(servers)])
    else Object(o.fields[path[0] := Set(Child(o, path[0]), path[1..], servers)])
  }

  method GetServers(config: Json, path: seq<string>) returns (servers: map<string, Json>)
    ensures servers == AsServers(At(config, path))
  {
    var current := config;
    for i := 0 to |path|
      invariant At(config, path) == At(current, path[i..])
    {
      var next := Field(current, path[i]);
      assert path[i..][1..] == path[i + 1..];
      if next.None? { return map[]; }
      current := next.value;
    }
    if current.Object? { return current.fields; }
    return map[];
  }

  // ---------- The descent, as the source makes it ----------

  /** Everything above the value in hand: the objects entered, outermost first, and the keys taken. */
  datatype Frame = Frame(fields: map<string, Json>, key: string)

  function Plug(frames: seq<Frame>, j: Json): Json {
    if frames == [] then j
    else
      var last := frames[|frames| - 1];
      Plug(frames[..|frames| - 1], Object(last.fields[last.key := j]))
  }

  /** The loop walks down with a reference and writes in place; the frames are what the reference points into.
      No step meets a value that is not an object where it needs one. */
  method SetServers(config: Json, path: seq<string>, servers: map<string, Json>) returns (r: Json)
    requires path != []
    ensures r == Set(config, path, servers)
  {
    var current := if config.Object? then config else EMPTY;
    ghost var goal := Set(config, path, servers);
    var frames: seq<Frame> := [];
    for i := 0 to |path| - 1
      invariant current.Object? && i == |frames|
      invariant Plug(frames, Set(current, path[i..], servers)) == goal
    {
      var part := path[i];
      ghost var above, before := frames, current;
      assert path[i..][1..] == path[i + 1..] && path[i..][0] == part;
      if part !in current.fields { current := Object(current.fields[part := EMPTY]); }
      var next := current.fields[part];
      var down := if next.Object? then next else EMPTY;
      ghost var rest := Set(down, path[i + 1..], servers);
      assert down == Child(before, part) && current.fields[part := rest] == before.fields[part := rest];
      frames := frames + [Frame(current.fields, part)];
      assert frames[..|frames| - 1] == above;
      PlugMore(frames, rest);
      current := down;
    }
    var last := path[|path| - 1];
    assert path[|path| - 1..] == [last];
    current := Object(current.fields[last := Object(servers)]);
    r := PlugAll(frames, current);
  }

  lemma PlugMore(frames: seq<Frame>, j: Json)
    requires frames != []
    ensures var last := frames[|frames| - 1];
            Plug(frames, j) == Plug(frames[..|frames| - 1], Object(last.fields[last.key := j]))
  {
  }

  method PlugAll(frames: seq<Frame>, j: Json) returns (r: Json)
    ensures r == Plug(frames, j)
  {
    r := j;
    var n: nat := |frames|;
    assert frames[..n] == frames;
    while n > 0
      invariant n <= |frames| && Plug(frames[..n], r) == Plug(frames, j)
    {
      n := n - 1;
      assert frames[..n + 1][..n] == frames[..n];
      r := Object(frames[n].fields[frames[n].key := r]);
    }
  }

  // ---------- Laws ----------

  /** What was set is what is read, in every configuration. */
  lemma {:induction false} GetSet(j: Json, path: seq<string>, servers: map<string, Json>)
    requires path != []
    ensures At(Set(j, path, servers), path) == Some(Object(servers))
    ensures AsServers(At(Set(j, path, servers), path)) == servers
    decreases |path|
  {
    if |path| == 1 {
      assert path[1..] == [];
    } else {
      GetSet(Child(AsObject(j), path[0]), path[1..], servers);
    }
  }

  /** Neither path leads through the other. */
  predicate Diverge(p: seq<string>, q: seq<string>) {
    p != [] && q != [] && (p[0] != q[0] || Diverge(p[1..], q[1..]))
  }

  /** Setting leaves every diverging path as it was, in every configuration. */
  lemma {:induction false} SetKeepsOthers(j: Json, path: seq<string>, q: seq<string>, servers: map<string, Json>)
    requires Diverge(path, q)
    ensures At(Set(j, path, servers), q) == At(j, q)
    decreases |path|
  {
    if path[0] == q[0] {
      var child := Child(AsObject(j), path[0]);
      SetKeepsOthers(child, path[1..], q[1..], servers);
      ChildLooksTheSame(j, path[0], q[1..]);
    }
  }

  /** A value that is not an object has nothing below it, so replacing it by an empty object loses no path. */
  lemma ChildLooksTheSame(j: Json, key: string, q: seq<string>)
    requires q != []
    ensures At(Child(AsObject(j), key), q) == if Field(j, key).Some? then At(Field(j, key).value, q) else None
  {
  }

  /** Setting twice is setting the last. */
  lemma {:induction false} SetTwice(j: Json, path: seq<string>, a: map<string, Json>, b: map<string, Json>)
    requires path != []
    ensures Set(Set(j, path, a), path, b) == Set(j, path, b)
    decreases |path|
  {
    var o := AsObject(j);
    if |path| == 1 {
      assert o.fields[path[0] := Object(a)][path[0] := Object(b)] == o.fields[path[0] := Object(b)];
    } else {
      var child := Child(o, path[0]);
      SetTwice(child, path[1..], a, b);
      var mid, end := Set(child, path[1..], a), Set(child, path[1..], b);
      assert o.fields[path[0] := mid][path[0] := end] == o.fields[path[0] := end];
    }
  }

  /** Putting back the servers that were read changes nothing, exactly when the path leads to an object. */
  lemma {:induction false} SetGet(j: Json, path: seq<string>)
    requires path != []
    ensures Set(j, path, AsServers(At(j, path))) == j <==> At(j, path).Some? && At(j, path).value.Object?
    decreases |path|
  {
    var servers := AsServers(At(j, path));
    GetSet(j, path, servers);
    if At(j, path).Some? && At(j, path).value.Object? {
      SetSame(j, path);
    }
  }

  lemma {:induction false} SetSame(j: Json, path: seq<string>)
    requires path != [] && At(j, path).Some? && At(j, path).value.Object?
    ensures Set(j, path, AsServers(At(j, path))) == j
    decreases |path|
  {
    var child := Field(j, path[0]).value;
    if |path| == 1 {
      assert path[1..] == [];
    } else {
      SetSame(child, path[1..]);
      assert child.Object?;
    }
    assert j.fields[path[0] := child] == j.fields;
  }
}
