/** The robot's configuration document: a JSON-like value, the top-level merge
    with the built-in defaults, and the nested lookups each robot layer performs. */
module Config {

  /** A value as Python's json module produces it. */
  datatype Json =
    | JNull
    | JBool(b: bool)
    | JInt(i: int)
    | JFloat(f: real)
    | JStr(s: string)
    | JList(items: seq<Json>)
    | JObj(fields: map<string, Json>)

  /** The configuration dictionary itself. */
  type Doc = map<string, Json>

  /** The top-level merge of `_load_config`: every key of `defaults` that the
      user document lacks is copied in; keys the user gave are kept as they are. */
  function Merged(user: Doc, defaults: Doc): (m: Doc)
    ensures m.Keys == user.Keys + defaults.Keys
    ensures forall k :: k in user ==> m[k] == user[k]
    ensures forall k :: k in defaults && k !in user ==> m[k] == defaults[k]
  {
    defaults + user
  }

  /** Running the merge a second time changes nothing. */
  lemma MergeIdempotent(user: Doc, defaults: Doc)
    ensures Merged(Merged(user, defaults), defaults) == Merged(user, defaults)
  {
  }

  /** An empty user document resolves to exactly the defaults. */
  lemma MergeOfEmpty(defaults: Doc)
    ensures Merged(map[], defaults) == defaults
  {
  }

  // ---------------------------------------------------------------------------
  // Nested lookup, `if "a" in c: if "b" in c["a"]: ... x = c["a"]["b"]`

  /** The outcome of following a key path: the path is absent, it leads to a
      value, or a step raises (Python's `in` or `[]` on a value that is no dict). */
  datatype Probe = Missing | Found(value: Json) | Fails

  /** Python's `key in s` for strings: substring test. */
  predicate IsSubstring(key: string, s: string)
    decreases |s|
  {
    key <= s || (s != [] && IsSubstring(key, s[1..]))
  }

  /** One `if key in parent:` followed by `parent[key]`. A dict answers by its
      keys. A string or list answers `in` without raising, but then indexing it
      by a string raises; any other value raises already at `in`. */
  function Step(parent: Json, key: string): Probe
  {
    match parent
    case JObj(fields) => if key in fields then Found(fields[key]) else Missing
    case JStr(s) => if IsSubstring(key, s) then Fails else Missing
    case JList(items) => if JStr(key) in items then Fails else Missing
    case _ => Fails
  }

  function Walk(node: Json, path: seq<string>): Probe
    decreases |path|
  {
    if path == [] then Found(node)
    else
      match Step(node, path[0])
      case Found(child) => Walk(child, path[1..])
      case other => other
  }

  function Resolve(doc: Doc, path: seq<string>): Probe
  {
    Walk(JObj(doc), path)
  }

  /** If some prefix of a path is already absent, the whole path is absent:
      a parameter is replaced only when its full nested path exists. */
  lemma {:induction false} MissingPrefix(node: Json, path: seq<string>, n: nat)
    requires 1 <= n <= |path|
    requires Walk(node, path[..n]) == Missing
    ensures Walk(node, path) == Missing
    decreases n
  {
    assert path[..n][0] == path[0];
    match Step(node, path[0])
    case Found(child) =>
      assert path[..n][1..] == path[1..][..n - 1];
      MissingPrefix(child, path[1..], n - 1);
    case Missing =>
    case Fails =>
  }

  /** After the top-level merge a nested path is looked up wholly in the user
      document when it names the first key, and wholly in the defaults otherwise:
      the merge does not reach inside nested dictionaries. */
  lemma MergeIsShallow(user: Doc, defaults: Doc, path: seq<string>)
    requires |path| >= 1
    ensures Resolve(Merged(user, defaults), path)
         == if path[0] in user then Resolve(user, path) else Resolve(defaults, path)
  {
  }

  // ---------------------------------------------------------------------------
  // Typed parameters. A Python attribute takes whatever value the document holds;
  // the model's fields are typed, so a value of the wrong kind is excluded.

  /** Values Python accepts in arithmetic (bool is a subclass of int). */
  predicate IsNumber(j: Json)
  {
    j.JInt? || j.JFloat? || j.JBool?
  }

  function AsReal(j: Json): real
    requires IsNumber(j)
  {
    match j
    case JInt(i) => i as real
    case JFloat(f) => f
    case JBool(b) => if b then 1.0 else 0.0
  }

  /** Values Python accepts as a list index. */
  predicate IsIndex(j: Json)
  {
    j.JInt? || j.JBool?
  }

  function AsIndex(j: Json): int
    requires IsIndex(j)
  {
    match j
    case JInt(i) => i
    case JBool(b) => if b then 1 else 0
  }

  predicate IsNumberList(j: Json)
  {
    j.JList? && forall k :: 0 <= k < |j.items| ==> IsNumber(j.items[k])
  }

  function AsRealList(j: Json): (r: seq<real>)
    requires IsNumberList(j)
    ensures |r| == |j.items|
    ensures forall k :: 0 <= k < |r| ==> r[k] == AsReal(j.items[k])
  {
    seq(|j.items|, k requires 0 <= k < |j.items| => AsReal(j.items[k]))
  }

  predicate RealAt(doc: Doc, path: seq<string>)
  {
    match Resolve(doc, path)
    case Missing => true
    case Found(v) => IsNumber(v)
    case Fails => false
  }

  predicate IndexAt(doc: Doc, path: seq<string>)
  {
    match Resolve(doc, path)
    case Missing => true
    case Found(v) => IsIndex(v)
    case Fails => false
  }

  predicate RealListAt(doc: Doc, path: seq<string>)
  {
    match Resolve(doc, path)
    case Missing => true
    case Found(v) => IsNumberList(v)
    case Fails => false
  }

  /** The hardcoded default, replaced by the document's value when the path exists. */
  function RealParam(doc: Doc, path: seq<string>, default: real): real
    requires RealAt(doc, path)
  {
    match Resolve(doc, path)
    case Found(v) => AsReal(v)
    case _ => default
  }

  function IndexParam(doc: Doc, path: seq<string>, default: int): int
    requires IndexAt(doc, path)
  {
    match Resolve(doc, path)
    case Found(v) => AsIndex(v)
    case _ => default
  }

  function RealListParam(doc: Doc, path: seq<string>, default: seq<real>): seq<real>
    requires RealListAt(doc, path)
  {
    match Resolve(doc, path)
    case Found(v) => AsRealList(v)
    case _ => default
  }

  /** A parameter whose path is cut off after `n` keys keeps its default,
      whichever kind of value it takes. */
  lemma KeepsDefaultWhenPrefixMissing(doc: Doc, path: seq<string>, n: nat,
                                      real_default: real, index_default: int, list_default: seq<real>)
    requires 1 <= n <= |path|
    requires Resolve(doc, path[..n]) == Missing
    ensures RealAt(doc, path) && RealParam(doc, path, real_default) == real_default
    ensures IndexAt(doc, path) && IndexParam(doc, path, index_default) == index_default
    ensures RealListAt(doc, path) && RealListParam(doc, path, list_default) == list_default
  {
    MissingPrefix(JObj(doc), path, n);
  }
}
