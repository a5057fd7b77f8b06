/**
 The JSON Patch requests sent to Ironic, applied as RFC 6902 says to the JSON document of a
 node.  Paths are strings, as the program builds them, and are read as RFC 6901 says.
 */
module JsonPatch {
  import opened Wrappers
  import opened JsonValue
  import opened Pointer

  datatype Op = Add(path: string, value: Json) | Remove(path: string)

  // ---------------------------------------------------------------- RFC 6901

  /** The text between slashes. */
  function Split(s: string): (r: seq<string>)
    ensures r != []
  {
    if s == [] then [""]
    else
      var rest := Split(s[1..]);
      if s[0] == '/' then [""] + rest else [[s[0]] + rest[0]] + rest[1..]
  }

  function UnescapeAll(tokens: seq<string>): (r: seq<string>)
    ensures |r| == |tokens|
  {
    if tokens == [] then [] else [Unescape(tokens[0])] + UnescapeAll(tokens[1..])
  }

  /** A pointer is empty or a sequence of tokens, each after a slash. */
  function Tokens(path: string): Option<seq<string>> {
    if path == "" then Some([])
    else if path[0] != '/' then None
    else Some(UnescapeAll(Split(path[1..])))
  }

  lemma {:induction false} SplitAtSlash(t: string, rest: string)
    requires '/' !in t
    ensures Split(t + "/" + rest) == [t] + Split(rest)
    decreases |t|
  {
    if t == [] {
      assert t + "/" + rest == "/" + rest;
      assert ("/" + rest)[1..] == rest;
    } else {
      var s := t + "/" + rest;
      assert s[0] == t[0] && s[1..] == t[1..] + "/" + rest;
      SplitAtSlash(t[1..], rest);
      assert [t[0]] + t[1..] == t;
    }
  }

  lemma {:induction false} SplitWithoutSlash(t: string)
    requires '/' !in t
    ensures Split(t) == [t]
    decreases |t|
  {
    if t != [] {
      SplitWithoutSlash(t[1..]);
      assert [t[0]] + t[1..] == t;
    }
  }

  // ---------------------------------------------------------------- RFC 6902

  /** Section 4.1: the parent must exist; an existing member is replaced. */
  function AddAt(doc: Json, tokens: seq<string>, value: Json): Option<Json>
    decreases |tokens|
  {
    if tokens == [] then Some(value)
    else if !doc.Object? then None
    else if |tokens| == 1 then Some(Object(doc.members[tokens[0] := value]))
    else if tokens[0] !in doc.members then None
    else
      match AddAt(doc.members[tokens[0]], tokens[1..], value)
      case None => None
      case Some(inner) => Some(Object(doc.members[tokens[0] := inner]))
  }

  /** Section 4.2: the target must exist. */
  function RemoveAt(doc: Json, tokens: seq<string>): Option<Json>
    decreases |tokens|
  {
    if tokens == [] || !doc.Object? || tokens[0] !in doc.members then None
    else if |tokens| == 1 then Some(Object(doc.members - {tokens[0]}))
    else
      match RemoveAt(doc.members[tokens[0]], tokens[1..])
      case None => None
      case Some(inner) => Some(Object(doc.members[tokens[0] := inner]))
  }

  function Apply(doc: Json, op: Op): Option<Json> {
    match Tokens(op.path)
    case None => None
    case Some(tokens) =>
      match op
      case Add(_, value) => AddAt(doc, tokens, value)
      case Remove(_) => RemoveAt(doc, tokens)
  }

  /** Section 5: operations apply in order, and all of them or none. */
  function ApplyAll(doc: Json, ops: seq<Op>): Option<Json>
    decreases |ops|
  {
    if ops == [] then Some(doc)
    else
      match Apply(doc, ops[0])
      case None => None
      case Some(next) => ApplyAll(next, ops[1..])
  }

  /** One more operation at the end. */
  lemma {:induction false} ApplyAppend(doc: Json, ops: seq<Op>, op: Op)
    ensures ApplyAll(doc, ops + [op])
            == match ApplyAll(doc, ops) case None => None case Some(d) => Apply(d, op)
    decreases |ops|
  {
    if ops == [] {
      assert ops + [op] == [op];
      assert [op][1..] == [];
      if Apply(doc, op).Some? {
        assert ApplyAll(Apply(doc, op).value, []) == Apply(doc, op);
      }
    } else {
      assert (ops + [op])[0] == ops[0] && (ops + [op])[1..] == ops[1..] + [op];
      if Apply(doc, ops[0]).Some? {
        ApplyAppend(Apply(doc, ops[0]).value, ops[1..], op);
      }
    }
  }

  // ---------------------------------------------------------------- a node and its labels

  const LABELS := "osac_labels"
  const LABELS_PATH := "/extra/osac_labels"

  /** The document of a node: `extra` is an object, whose members the program does not own. */
  function Document(extra: map<string, Json>): Json {
    Object(map["extra" := Object(extra)])
  }

  function LabelPath(key: string): string {
    "/extra/osac_labels/" + Escape(key)
  }

  /** extra.osac_labels is there and is an object. */
  predicate HasLabels(extra: map<string, Json>) {
    LABELS in extra && extra[LABELS].Object?
  }

  function LabelsOf(extra: map<string, Json>): map<string, Json> {
    if HasLabels(extra) then extra[LABELS].members else map[]
  }

  function WithLabels(extra: map<string, Json>, labels: map<string, Json>): map<string, Json> {
    extra[LABELS := Object(labels)]
  }

  /** A label's path names the member with exactly that key, whatever characters the key has. */
  lemma LabelPathTokens(key: string)
    ensures Tokens(LabelPath(key)) == Some(["extra", LABELS, key])
  {
    hide Split, UnescapeAll, Unescape, Escape;
    EscapeHasNoSlash(key);
    UnescapeEscape(key);
    var e := Escape(key);
    assert LabelPath(key) == "/" + ("extra" + "/" + ("osac_labels" + "/" + e));
    PathOfThree("extra", "osac_labels", e);
  }

  lemma LabelsPathTokens()
    ensures Tokens(LABELS_PATH) == Some(["extra", LABELS])
  {
    hide Split, UnescapeAll, Unescape;
    assert LABELS_PATH == "/" + ("extra" + "/" + "osac_labels");
    PathOfTwo("extra", "osac_labels");
  }

  predicate IsPlain(s: string) {
    '/' !in s && '~' !in s
  }

  lemma PathOfTwo(a: string, b: string)
    requires IsPlain(a) && IsPlain(b)
    ensures Tokens("/" + (a + "/" + b)) == Some([a, b])
  {
    hide Unescape;
    var path := "/" + (a + "/" + b);
    assert path[1..] == a + "/" + b;
    SplitAtSlash(a, b);
    SplitWithoutSlash(b);
    assert Split(path[1..]) == [a, b];
    PlainText(a);
    PlainText(b);
    assert [a, b][1..] == [b] && [b][1..] == [];
    assert UnescapeAll([b]) == [b] + UnescapeAll([]) == [b];
    assert UnescapeAll([a, b]) == [a] + UnescapeAll([b]);
  }

  lemma PathOfThree(a: string, b: string, c: string)
    requires IsPlain(a) && IsPlain(b) && '/' !in c
    ensures Tokens("/" + (a + "/" + (b + "/" + c))) == Some([a, b, Unescape(c)])
  {
    hide Unescape;
    var path := "/" + (a + "/" + (b + "/" + c));
    assert path[1..] == a + "/" + (b + "/" + c);
    SplitAtSlash(a, b + "/" + c);
    SplitAtSlash(b, c);
    SplitWithoutSlash(c);
    var tokens := [a, b, c];
    assert Split(path[1..]) == tokens;
    PlainText(a);
    PlainText(b);
    assert tokens[1..] == [b, c] && [b, c][1..] == [c] && [c][1..] == [];
    assert UnescapeAll([c]) == [Unescape(c)] + UnescapeAll([]) == [Unescape(c)];
    assert UnescapeAll([b, c]) == [b] + UnescapeAll([c]);
    assert UnescapeAll(tokens) == [a] + UnescapeAll([b, c]);
    assert [a] + ([b] + [Unescape(c)]) == [a, b, Unescape(c)];
    assert Tokens(path) == Some(UnescapeAll(tokens));
  }

  /** A text without a tilde has nothing to unescape. */
  lemma PlainText(s: string)
    requires IsPlain(s)
    ensures Unescape(s) == s
  {
    NothingToReplace(s, '1', "/");
    NothingToReplace(s, '0', "~");
  }

  lemma {:induction false} NothingToReplace(s: string, digit: char, sub: string)
    requires '~' !in s
    ensures ReplaceAll(s, ['~', digit], sub) == s
    decreases |s|
  {
    if |s| >= 2 {
      NothingToReplace(s[1..], digit, sub);
      assert s[..2][0] == s[0];
      assert s == [s[0]] + s[1..];
    }
  }

  /** Adding a label: accepted exactly when osac_labels is an object, and then sets that key. */
  lemma AddLabel(extra: map<string, Json>, key: string, value: Json)
    ensures Apply(Document(extra), Add(LabelPath(key), value))
            == if HasLabels(extra) then Some(Document(WithLabels(extra, LabelsOf(extra)[key := value]))) else None
  {
    LabelPathTokens(key);
    var tokens := ["extra", LABELS, key];
    assert tokens[1..] == [LABELS, key] && tokens[1..][1..] == [key];
    assert AddAt(Object(extra), [LABELS, key], value)
        == if HasLabels(extra) then Some(Object(WithLabels(extra, LabelsOf(extra)[key := value]))) else None
    by {
      if LABELS in extra {
        assert AddAt(extra[LABELS], [key], value)
            == if extra[LABELS].Object? then Some(Object(extra[LABELS].members[key := value])) else None;
      }
    }
    SameDocument(extra);
  }

  /** Removing a label: accepted exactly when the label exists. */
  lemma RemoveLabel(extra: map<string, Json>, key: string)
    ensures Apply(Document(extra), Remove(LabelPath(key)))
            == if key in LabelsOf(extra) then Some(Document(WithLabels(extra, LabelsOf(extra) - {key}))) else None
  {
    LabelPathTokens(key);
    var tokens := ["extra", LABELS, key];
    assert tokens[1..] == [LABELS, key] && tokens[1..][1..] == [key];
    assert RemoveAt(Object(extra), [LABELS, key])
        == if key in LabelsOf(extra) then Some(Object(WithLabels(extra, LabelsOf(extra) - {key}))) else None
    by {
      if LABELS in extra {
        assert RemoveAt(extra[LABELS], [key])
            == if extra[LABELS].Object? && key in extra[LABELS].members
               then Some(Object(extra[LABELS].members - {key})) else None;
      }
    }
    SameDocument(extra);
  }

  /** The initial request is always accepted. */
  lemma AddLabelsObject(extra: map<string, Json>)
    ensures Apply(Document(extra), Add(LABELS_PATH, Object(map[]))) == Some(Document(WithLabels(extra, map[])))
  {
    LabelsPathTokens();
    var tokens := ["extra", LABELS];
    assert tokens[1..] == [LABELS];
    SameDocument(extra);
  }

  lemma SameDocument(extra: map<string, Json>)
    ensures forall e: map<string, Json> {:trigger Document(e)} ::
              Document(extra).members["extra" := Object(e)] == Document(e).members
  {
  }
}
