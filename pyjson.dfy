/** Already-parsed JSON values as Python's `json.loads` delivers them (objects
    are dicts in insertion order), with the pieces of Python semantics the
    scripts rely on: truthiness, `dict.get`, `str()` and the errors raised when a
    value has the wrong type. */
module PyJson {
  import opened Strings
  import opened Seqs

  datatype Json =
    | JNull
    | JBool(b: bool)
    | JNum(n: int)
    | JStr(s: string)
    | JArr(items: seq<Json>)
    | JObj(members: seq<Member>)

  datatype Member = Member(key: string, value: Json)

  /** Python's `bool(v)`. */
  predicate Truthy(j: Json)
  {
    match j
    case JNull => false
    case JBool(b) => b
    case JNum(n) => n != 0
    case JStr(s) => s != ""
    case JArr(items) => items != []
    case JObj(members) => members != []
  }

  /** `key in d`. */
  predicate HasKey(members: seq<Member>, key: string)
  {
    exists i :: 0 <= i < |members| && members[i].key == key
  }

  /** `d.get(key, default)`. `json.loads` keeps the last of repeated keys, so
      the value is that of the last member with the key. */
  function Get(members: seq<Member>, key: string, default: Json): (r: Json)
    ensures !HasKey(members, key) ==> r == default
    ensures HasKey(members, key) ==>
      exists i :: && 0 <= i < |members| && members[i].key == key && r == members[i].value
                  && forall j :: i < j < |members| ==> members[j].key != key
  {
    if members == [] then default
    else if members[|members| - 1].key == key then members[|members| - 1].value
    else
      var init := members[..|members| - 1];
      assert forall i :: 0 <= i < |init| ==> init[i] == members[i];
      Get(init, key, default)
  }

  /** The keys of the members, in the order written. */
  function KeysOf(members: seq<Member>): (r: seq<string>)
    ensures |r| == |members| && forall i :: 0 <= i < |members| ==> r[i] == members[i].key
  {
    seq(|members|, i requires 0 <= i < |members| => members[i].key)
  }

  /** The keys of the dict `json.loads` builds: each key once, where it first appears. */
  function DictKeys(members: seq<Member>): (r: seq<string>)
    ensures forall t :: 0 <= t < |r| ==> HasKey(members, r[t])
    ensures forall i :: 0 <= i < |members| ==> members[i].key in r
    ensures NoDuplicates(r)
  {
    var keys := KeysOf(members);
    var r := Dedupe(keys);
    assert forall t :: 0 <= t < |r| ==> HasKey(members, r[t]) by {
      forall t | 0 <= t < |r|
        ensures HasKey(members, r[t])
      {
        var i :| 0 <= i < |keys| && keys[i] == r[t];
        assert members[i].key == r[t];
      }
    }
    r
  }

  /** The position of the last member with the key: the one whose value the dict keeps. */
  function LastIndex(members: seq<Member>, key: string): (i: nat)
    requires HasKey(members, key)
    ensures i < |members| && members[i].key == key
    ensures forall j :: i < j < |members| ==> members[j].key != key
  {
    var n := |members| - 1;
    if members[n].key == key then n
    else
      var init := members[..n];
      var k :| 0 <= k < |members| && members[k].key == key;
      assert init[k] == members[k];
      var i := LastIndex(init, key);
      assert init[i] == members[i];
      i
  }

  /** `d.get(key)` of a present key reads the member `str(d)` shows. */
  lemma GetIsLast(members: seq<Member>, key: string, default: Json)
    requires HasKey(members, key)
    ensures Get(members, key, default) == members[LastIndex(members, key)].value
  {
    var i :| && 0 <= i < |members| && members[i].key == key && Get(members, key, default) == members[i].value
             && forall j :: i < j < |members| ==> members[j].key != key;
    var last := LastIndex(members, key);
    assert !(i < last) && !(last < i);
  }

  /** `type(v).__name__`. */
  function TypeName(j: Json): string
  {
    match j
    case JNull => "NoneType"
    case JBool(_) => "bool"
    case JNum(_) => "int"
    case JStr(_) => "str"
    case JArr(_) => "list"
    case JObj(_) => "dict"
  }

  /** The message of the AttributeError `v.get(...)` raises on a non-dict. */
  function NoGetError(j: Json): string
  {
    "'" + TypeName(j) + "' object has no attribute 'get'"
  }

  function HexDigit(d: int): char
    requires 0 <= d < 16
  {
    if d < 10 then ('0' as int + d) as char else ('a' as int + d - 10) as char
  }

  /** One character inside `repr()` of a string quoted with `quote`. */
  function ReprChar(c: char, quote: char): string
  {
    if c == quote || c == '\\' then ['\\', c]
    else if c == '\t' then "\\t"
    else if c == '\n' then "\\n"
    else if c == '\r' then "\\r"
    else if c < ' ' || '\U{7f}' <= c <= '\U{a0}' || c == '\U{ad}' then
      "\\x" + [HexDigit(c as int / 16), HexDigit(c as int % 16)]
    else [c]
  }

  function ReprChars(s: string, quote: char): string
  {
    if s == [] then "" else ReprChar(s[0], quote) + ReprChars(s[1..], quote)
  }

  /** `repr(s)`: single quotes unless the text has a single quote and no double one. */
  function ReprString(s: string): string
  {
    var quote := if '\'' in s && '"' !in s then '"' else '\'';
    [quote] + ReprChars(s, quote) + [quote]
  }

  /** `repr(v)`. */
  function PyRepr(j: Json): string
  {
    match j
    case JNull => "None"
    case JBool(b) => if b then "True" else "False"
    case JNum(n) => IntToString(n)
    case JStr(s) => ReprString(s)
    case JArr(items) =>
      "[" + Join(", ", seq(|items|, i requires 0 <= i < |items| => PyRepr(items[i]))) + "]"
    case JObj(members) =>
      var keys := DictKeys(members);
      "{" + Join(", ", seq(|keys|, t requires 0 <= t < |keys| =>
                             var i := LastIndex(members, keys[t]);
                             ReprString(keys[t]) + ": " + PyRepr(members[i].value))) + "}"
  }

  /** `str(v)`: a string is itself, anything else its `repr`. */
  function PyStr(j: Json): string
  {
    if j.JStr? then j.s else PyRepr(j)
  }

  /** A key written twice is shown once, with its second value. */
  lemma RepeatedKeyShownOnce()
    ensures PyStr(JObj([Member("k", JStr("ab")), Member("k", JStr("cd"))])) == "{'k': 'cd'}"
  {
    var members := [Member("k", JStr("ab")), Member("k", JStr("cd"))];
    RepeatedKeyDict(members);
    QuotedLetters();
  }

  lemma RepeatedKeyDict(members: seq<Member>)
    requires members == [Member("k", JStr("ab")), Member("k", JStr("cd"))]
    ensures DictKeys(members) == ["k"] && LastIndex(members, "k") == 1
  {
    assert KeysOf(members) == ["k"] + ["k"];
    assert Dedupe(["k"]) == ["k"] by {
      DedupeStep([], "k");
      assert [] + ["k"] == ["k"];
    }
    DedupeStep(["k"], "k");
  }

  lemma QuotedLetters()
    ensures ReprString("k") == "'k'" && ReprString("cd") == "'cd'"
  {
    assert ReprChars("k", '\'') == "k" by {
      assert ReprChar('k', '\'') == "k";
      assert "k"[1..] == [];
    }
    assert ReprChars("cd", '\'') == "cd" by {
      assert ReprChar('c', '\'') == "c" && ReprChar('d', '\'') == "d";
      assert "cd"[1..] == "d" && "d"[1..] == [];
    }
    assert '\'' !in "k" && '\'' !in "cd";
  }
}
