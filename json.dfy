/** Decoded JSON values as the registry client sees them after
    `response.json()`, with the few Python operations it applies to them:
    truthiness, dictionary lookup, `type(v).__name__`, `str(v)` and `repr(v)`. */
module Json {
  import opened Wrappers
  import opened Text

  /** A JSON value. Objects hold their members as they appear in the
      document, repeated keys included; `Lookup` and `PyRepr` read them as
      the dict `json.loads` builds (one entry per key, at the key's first
      position, holding its last value). Numbers are integers only. */
  datatype Json =
    | JNull
    | JBool(b: bool)
    | JInt(i: int)
    | JStr(s: string)
    | JList(items: seq<Json>)
    | JObj(members: seq<Member>)

  datatype Member = Member(key: string, value: Json)

  /** Python truthiness: `None`, `False`, `0`, `""`, `[]` and `{}` are false. */
  predicate Truthy(j: Json) {
    match j
    case JNull => false
    case JBool(b) => b
    case JInt(i) => i != 0
    case JStr(s) => s != ""
    case JList(items) => items != []
    case JObj(members) => members != []
  }

  predicate HasKey(members: seq<Member>, key: string) {
    exists i :: 0 <= i < |members| && members[i].key == key
  }

  /** The position of the last member with the key. */
  function LastIndex(members: seq<Member>, key: string): (r: Option<nat>)
    ensures r.None? <==> !HasKey(members, key)
    ensures r.Some? ==> r.value < |members| && members[r.value].key == key
    ensures r.Some? ==> forall j :: r.value < j < |members| ==> members[j].key != key
  {
    if members == [] then None
    else if members[|members| - 1].key == key then Some(|members| - 1)
    else
      var r := LastIndex(members[..|members| - 1], key);
      assert forall i :: 0 <= i < |members| - 1 ==> members[..|members| - 1][i] == members[i];
      r
  }

  /** `members[i]` is the last member with the key. */
  predicate IsLastWithKey(members: seq<Member>, i: nat, key: string) {
    i < |members| && members[i].key == key && forall j :: i < j < |members| ==> members[j].key != key
  }

  /** `d[key]` for a decoded object. A key that occurs more than once in
      the document keeps its last value, as `json.loads` does. */
  function Lookup(members: seq<Member>, key: string): (r: Option<Json>)
    ensures r.None? <==> !HasKey(members, key)
    ensures r.Some? ==> exists i: nat :: IsLastWithKey(members, i, key) && members[i].value == r.value
  {
    match LastIndex(members, key)
    case None => None
    case Some(i) =>
      assert IsLastWithKey(members, i, key);
      Some(members[i].value)
  }

  /** A key that occurs once is looked up to its member's value. */
  lemma LookupUniqueKey(members: seq<Member>, i: nat)
    requires i < |members|
    requires forall j :: 0 <= j < |members| && j != i ==> members[j].key != members[i].key
    ensures Lookup(members, members[i].key) == Some(members[i].value)
  {
    assert HasKey(members, members[i].key);
  }

  /** `type(v).__name__`, used in the text of the exceptions the formatter
      can raise. */
  function TypeName(j: Json): string {
    match j
    case JNull => "NoneType"
    case JBool(_) => "bool"
    case JInt(_) => "int"
    case JStr(_) => "str"
    case JList(_) => "list"
    case JObj(_) => "dict"
  }

  /** `repr(s)` for a string without quotes, backslashes or control characters. */
  function QuoteString(s: string): string {
    "'" + s + "'"
  }

  /** `str(v)`: the text an f-string substitutes. */
  function PyStr(j: Json): string {
    match j
    case JStr(s) => s
    case _ => PyRepr(j)
  }

  /** `repr(v)`: how a value is shown inside a container. */
  function PyRepr(j: Json): string
    decreases j
  {
    match j
    case JNull => "None"
    case JBool(b) => if b then "True" else "False"
    case JInt(i) => IntToString(i)
    case JStr(s) => QuoteString(s)
    case JList(items) => "[" + ReprItems(items) + "]"
    case JObj(members) => "{" + Join(ReprMembers(members, 0), ", ") + "}"
  }

  /** List items shown with `repr` and separated by ", ". */
  function ReprItems(items: seq<Json>): string
    decreases items
  {
    if items == [] then ""
    else if |items| == 1 then PyRepr(items[0])
    else PyRepr(items[0]) + ", " + ReprItems(items[1..])
  }

  /** `'key': repr(value)`: one entry of a dictionary's text. */
  function EntryRepr(m: Member): string
    decreases m
  {
    QuoteString(m.key) + ": " + PyRepr(m.value)
  }

  /** An earlier member has the same key as `members[i]`. */
  predicate KeySeenBefore(members: seq<Member>, i: nat)
    requires i < |members|
  {
    exists j :: 0 <= j < i && members[j].key == members[i].key
  }

  /** The entries of the dict decoded from `members`, from position `i`
      on: one per key, where the key first occurs, with the key's last
      value. */
  function ReprMembers(members: seq<Member>, i: nat): seq<string>
    requires i <= |members|
    decreases members, |members| - i
  {
    if i == |members| then []
    else
      var rest := ReprMembers(members, i + 1);
      if KeySeenBefore(members, i) then rest
      else
        assert HasKey(members, members[i].key);
        [EntryRepr(members[LastIndex(members, members[i].key).value])] + rest
  }

  /** Every member's entry, in order: how an object without repeated keys
      is shown. */
  function Entries(members: seq<Member>): (r: seq<string>)
    ensures |r| == |members|
  {
    if members == [] then [] else [EntryRepr(members[0])] + Entries(members[1..])
  }

  /** Keys that are all different: every member is shown, in order. */
  lemma {:induction false} ReprDistinctKeys(members: seq<Member>, i: nat)
    requires i <= |members|
    requires DistinctKeys(members)
    ensures ReprMembers(members, i) == Entries(members[i..])
    decreases |members| - i
  {
    if i < |members| {
      ReprDistinctKeys(members, i + 1);
      FirstOfDistinct(members, i);
      assert members[i..][1..] == members[i + 1..];
    }
  }

  predicate DistinctKeys(members: seq<Member>) {
    forall a, b :: 0 <= a < b < |members| ==> members[a].key != members[b].key
  }

  /** With distinct keys, every member is the only and last one with its key. */
  lemma FirstOfDistinct(members: seq<Member>, i: nat)
    requires i < |members| && DistinctKeys(members)
    ensures !KeySeenBefore(members, i)
    ensures HasKey(members, members[i].key) && LastIndex(members, members[i].key) == Some(i)
  {
    assert HasKey(members, members[i].key);
  }

  /** A repeated key is shown once, with its last value. */
  lemma RepeatedKeyShownOnce()
    ensures PyStr(JObj([Member("a", JInt(1)), Member("a", JInt(2))])) == "{'a': 2}"
  {
    var members := [Member("a", JInt(1)), Member("a", JInt(2))];
    assert members[0].key == members[1].key;
    assert KeySeenBefore(members, 1);
    assert HasKey(members, "a");
    assert LastIndex(members, "a") == Some(1);
    assert ReprMembers(members, 0) == [EntryRepr(members[1])];
    assert EntryRepr(members[1]) == "'a': 2";
  }
}
