/** Resolution of an owned CRD entry to the coordinates the resource API is
    addressed by: the plural resource name and the `group/version` string. */
module Crd {
  import opened Wrappers
  import opened Kube

  /** The two halves of a CRD name `<plural>.<group>`. */
  datatype Coordinates = Coordinates(plural: string, group: string)

  /** Splits a CRD name at its first `.`: the plural is the text before it and
      the group is all of the text after it (further dots included). A name
      without a dot is all plural, with an empty group. */
  function ParseCrdName(name: string): (c: Coordinates)
    ensures '.' !in c.plural
    ensures '.' in name ==> name == c.plural + "." + c.group
    ensures '.' !in name ==> c.plural == name && c.group == ""
  {
    if |name| == 0 then Coordinates("", "")
    else if name[0] == '.' then Coordinates("", name[1..])
    else
      var rest := ParseCrdName(name[1..]);
      assert name == [name[0]] + name[1..];
      Coordinates([name[0]] + rest.plural, rest.group)
  }

  /** The CRD name that the coordinates stand for. */
  function CrdName(c: Coordinates): string {
    c.plural + "." + c.group
  }

  /** Splitting a name that starts with a character other than `.`. */
  lemma ParseCrdNameCons(ch: char, rest: string)
    requires ch != '.'
    ensures ParseCrdName([ch] + rest) ==
      Coordinates([ch] + ParseCrdName(rest).plural, ParseCrdName(rest).group)
  {
    var name := [ch] + rest;
    assert name[0] == ch && name[1..] == rest;
  }

  /** Splitting a name that starts with `.`. */
  lemma ParseCrdNameDot(rest: string)
    ensures ParseCrdName(['.'] + rest) == Coordinates("", rest)
  {
    var name := ['.'] + rest;
    assert name[0] == '.' && name[1..] == rest;
  }

  /** Joining coordinates whose plural has no dot and splitting the result
      gives the coordinates back; with the split's own contract this makes
      the two inverse to each other. */
  lemma {:induction false} ParseCrdNameOfCrdName(c: Coordinates)
    requires '.' !in c.plural
    ensures ParseCrdName(CrdName(c)) == c
    decreases |c.plural|
  {
    if |c.plural| == 0 {
      assert CrdName(c) == ['.'] + c.group;
      ParseCrdNameDot(c.group);
    } else {
      var tail := Coordinates(c.plural[1..], c.group);
      assert c.plural == [c.plural[0]] + tail.plural;
      assert c.plural[0] in c.plural;
      assert '.' !in tail.plural;
      ParseCrdNameOfCrdName(tail);
      assert CrdName(c) == [c.plural[0]] + CrdName(tail);
      ParseCrdNameCons(c.plural[0], CrdName(tail));
    }
  }

  /** Where the resource API serves the instances of an owned CRD. */
  datatype ApiTarget = ApiTarget(groupVersion: string, plural: string)

  /** The group/version `<group>/<version>` and plural of an owned entry. */
  function Resolve(d: CrdDescription): (t: ApiTarget)
    ensures |t.groupVersion| > |d.version|
    ensures '.' in d.name ==> d.name == t.plural + "." + t.groupVersion[..|t.groupVersion| - |d.version| - 1]
    ensures t.groupVersion[|t.groupVersion| - |d.version|..] == d.version
    ensures t.groupVersion[|t.groupVersion| - |d.version| - 1] == '/'
    ensures '.' !in t.plural
  {
    var c := ParseCrdName(d.name);
    var gv := c.group + "/" + d.version;
    assert gv[..|c.group|] == c.group;
    ApiTarget(gv, c.plural)
  }

  /** `i` is the position of the first owned entry named `crdName`. */
  predicate IsFirstOwned(owned: seq<CrdDescription>, crdName: string, i: int) {
    && 0 <= i < |owned|
    && owned[i].name == crdName
    && forall j :: 0 <= j < i ==> owned[j].name != crdName
  }

  /** There is at most one first position. */
  lemma FirstOwnedUnique(owned: seq<CrdDescription>, crdName: string, k: int)
    requires IsFirstOwned(owned, crdName, k)
    ensures forall i :: IsFirstOwned(owned, crdName, i) ==> i == k
  {
  }

  /** The index of the first owned entry whose name is exactly `crdName`,
      as `find` with an exact name comparison picks it. */
  function FindOwned(owned: seq<CrdDescription>, crdName: string): (r: Option<nat>)
    ensures r.Some? ==> IsFirstOwned(owned, crdName, r.value)
    ensures r.None? <==> forall j :: 0 <= j < |owned| ==> owned[j].name != crdName
  {
    if |owned| == 0 then None
    else if owned[0].name == crdName then Some(0)
    else
      match FindOwned(owned[1..], crdName)
      case None => None
      case Some(k) =>
        assert forall j :: 1 <= j <= k ==> owned[j] == owned[1..][j - 1];
        Some(k + 1)
  }
}
