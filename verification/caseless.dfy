/** A case-insensitive view of a header dictionary, as the `caseless` library gives:
    `get(name)` scans every key in insertion order and keeps the value of the last
    key equal to `name` once both are lower-cased. */
module Caseless {
  import opened Wrappers
  import Strings

  /** One key of the dictionary with its value. */
  datatype Entry = Entry(name: string, value: string)

  /** A JavaScript object of string values, keys in insertion order. */
  type Dict = seq<Entry>

  predicate Matches(e: Entry, name: string) {
    Strings.Lower(e.name) == Strings.Lower(name)
  }

  /** `caseless(dict).get(name)`: the value of the last matching key, if any. */
  function Get(dict: Dict, name: string): (r: Option<string>)
    ensures r.None? <==> forall i :: 0 <= i < |dict| ==> !Matches(dict[i], name)
    ensures r.Some? ==>
      exists i :: 0 <= i < |dict| && Matches(dict[i], name) && dict[i].value == r.value
        && forall j :: i < j < |dict| ==> !Matches(dict[j], name)
    decreases |dict|
  {
    if dict == [] then None
    else
      var last := |dict| - 1;
      if Matches(dict[last], name) then Some(dict[last].value)
      else
        var init := dict[..last];
        assert forall i :: 0 <= i < last ==> init[i] == dict[i];
        Get(init, name)
  }

  /** The lookup depends only on the lower-cased name: `Content-Type` and
      `content-type` find the same value. */
  lemma {:induction false} GetIgnoresCase(dict: Dict, a: string, b: string)
    requires Strings.Lower(a) == Strings.Lower(b)
    ensures Get(dict, a) == Get(dict, b)
    decreases |dict|
  {
    if dict != [] {
      GetIgnoresCase(dict[..|dict| - 1], a, b);
    }
  }

  /** A key added later that matches `name` hides every earlier one. */
  lemma GetLastWins(dict: Dict, e: Entry, name: string)
    requires Matches(e, name)
    ensures Get(dict + [e], name) == Some(e.value)
  {
  }

  /** A key added later that does not match `name` changes nothing. */
  lemma GetSkipsOthers(dict: Dict, e: Entry, name: string)
    requires !Matches(e, name)
    ensures Get(dict + [e], name) == Get(dict, name)
  {
    assert (dict + [e])[..|dict|] == dict;
  }

  /** The dictionary without the keys that match `name`, as after setting that
      header anew: the other keys stay, in order. */
  function Drop(dict: Dict, name: string): (r: Dict)
    ensures forall i :: 0 <= i < |r| ==> !Matches(r[i], name)
    ensures forall i :: 0 <= i < |r| ==> r[i] in dict
    ensures Get(r, name).None?
    decreases |dict|
  {
    if dict == [] then []
    else
      var rest := Drop(dict[..|dict| - 1], name);
      if Matches(dict[|dict| - 1], name) then rest else rest + [dict[|dict| - 1]]
  }

  /** Writing the same key last to two dictionaries that agree on a name keeps them
      agreeing on it. */
  lemma GetAppendSame(a: Dict, b: Dict, e: Entry, name: string)
    requires Get(a, name) == Get(b, name)
    ensures Get(a + [e], name) == Get(b + [e], name)
  {
    if Matches(e, name) {
      GetLastWins(a, e, name);
      GetLastWins(b, e, name);
    } else {
      GetSkipsOthers(a, e, name);
      GetSkipsOthers(b, e, name);
    }
  }

  /** Dropping one name leaves the lookup of every other name unchanged. */
  lemma {:induction false} DropKeepsOthers(dict: Dict, name: string, other: string)
    requires Strings.Lower(other) != Strings.Lower(name)
    ensures Get(Drop(dict, name), other) == Get(dict, other)
    decreases |dict|
  {
    if dict != [] {
      var init := dict[..|dict| - 1];
      var last := dict[|dict| - 1];
      var rest := Drop(init, name);
      DropKeepsOthers(init, name, other);
      assert dict == init + [last];
      if Matches(last, name) {
        assert Drop(dict, name) == rest;
        GetSkipsOthers(init, last, other);
      } else {
        assert Drop(dict, name) == rest + [last];
        GetAppendSame(rest, init, last, other);
      }
    }
  }

  /** Looking up in two dictionaries written one after the other: the later one wins
      wherever it has the name. */
  lemma {:induction false} GetConcat(a: Dict, b: Dict, name: string)
    ensures Get(a + b, name) == if Get(b, name).Some? then Get(b, name) else Get(a, name)
    decreases |b|
  {
    if b == [] {
      assert a + b == a;
    } else {
      var init := b[..|b| - 1];
      var last := b[|b| - 1];
      assert a + b == (a + init) + [last];
      assert b == init + [last];
      GetConcat(a, init, name);
      if Matches(last, name) {
        GetLastWins(a + init, last, name);
        GetLastWins(init, last, name);
      } else {
        GetSkipsOthers(a + init, last, name);
        GetSkipsOthers(init, last, name);
      }
    }
  }
}
