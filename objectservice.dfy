/**
 * The pure and loop-based parts of MPFB's object service: unique object names,
 * vertex-group queries, the MakeHuman object-type test, the expansion of the
 * base mesh's vertex-group ranges, child lists and the search for related
 * objects among an object's nearest relatives.
 *
 * Blender's scene is a value here: the objects of `bpy.data.objects` in their
 * order, each with its parent, whether it is an armature, its MakeHuman
 * `object_type` property and its vertex data.
 */
module ObjectService {
  import opened Optional
  import opened Sequences

  // ---------------------------------------------------------------------------
  // Python's `str.lower` and `str.strip`, on ASCII

  /** The characters below 128 for which Python's `str.isspace` holds. */
  predicate IsSpace(c: char)
  {
    c == ' ' || c == '\t' || c == '\n' || c == '\r' || c == '\U{B}' || c == '\U{C}' ||
    ('\U{1C}' <= c <= '\U{1F}')
  }

  function LowerChar(c: char): char
  {
    if 'A' <= c <= 'Z' then (c as int + 32) as char else c
  }

  function Lower(s: string): (r: string)
    ensures |r| == |s|
    ensures forall i :: 0 <= i < |s| ==> r[i] == LowerChar(s[i])
  {
    if s == [] then [] else [LowerChar(s[0])] + Lower(s[1..])
  }

  /** Where `str.lstrip()` cuts: the number of leading whitespace characters. */
  function LeadingSpaces(s: string): (n: nat)
    ensures n <= |s|
    ensures forall k :: 0 <= k < n ==> IsSpace(s[k])
    ensures n < |s| ==> !IsSpace(s[n])
  {
    if s != [] && IsSpace(s[0]) then 1 + LeadingSpaces(s[1..]) else 0
  }

  /** Where `str.rstrip()` cuts: the length left once trailing whitespace is removed. */
  function TrailingStart(s: string): (m: nat)
    ensures m <= |s|
    ensures forall k :: m <= k < |s| ==> IsSpace(s[k])
    ensures m > 0 ==> !IsSpace(s[m - 1])
  {
    if s != [] && IsSpace(s[|s| - 1]) then TrailingStart(s[..|s| - 1]) else |s|
  }

  /** `str.strip()`: a slice of `s` with whitespace on neither end, and only whitespace cut off. */
  function Strip(s: string): (r: string)
    ensures var i := LeadingSpaces(s);
      i + |r| <= |s| && r == s[i..i + |r|] &&
      (forall k :: 0 <= k < i ==> IsSpace(s[k])) && (forall k :: i + |r| <= k < |s| ==> IsSpace(s[k]))
    ensures r != [] ==> !IsSpace(r[0]) && !IsSpace(r[|r| - 1])
  {
    var i := LeadingSpaces(s);
    var j := TrailingStart(s);
    if j <= i then [] else s[i..j]
  }

  predicate OccursAt(needle: string, haystack: string, i: nat)
  {
    i + |needle| <= |haystack| && haystack[i..i + |needle|] == needle
  }

  /** Python's `needle in haystack` on strings. */
  predicate IsSubstring(needle: string, haystack: string)
  {
    exists i: nat | i <= |haystack| :: OccursAt(needle, haystack, i)
  }

  // ---------------------------------------------------------------------------
  // Objects

  type ObjId = nat

  datatype VertexGroup = VertexGroup(name: string, index: int)

  /** A mesh vertex: its index and the indexes of the vertex groups it belongs to. */
  datatype Vertex = Vertex(index: int, groups: seq<int>)

  /** What the object service reads of a Blender object. `typeProperty` is the MakeHuman
      `object_type` property (`None` when unset). */
  datatype BlenderObject = BlenderObject(
    parent: Option<ObjId>,
    isArmature: bool,
    typeProperty: Option<string>,
    vertexGroups: seq<VertexGroup>,
    vertices: seq<Vertex>)

  /** `get_object_type`: the stripped type property, `""` for no object or no property. */
  function ObjectType(obj: Option<BlenderObject>): (t: string)
    ensures obj.None? || obj.value.typeProperty.None? ==> t == ""
    ensures obj.Some? && obj.value.typeProperty.Some? ==> t == Strip(obj.value.typeProperty.value)
  {
    if obj.None? then ""
    else match obj.value.typeProperty
      case None => ""
      case Some(p) => Strip(p)
  }

  /** `object_is_any_makehuman_object`: the object has a non-blank MakeHuman type. */
  predicate IsAnyMakeHumanObject(obj: Option<BlenderObject>)
  {
    obj.Some? && ObjectType(obj) != ""
  }

  /** An object is a MakeHuman object exactly when its type property holds a character other
      than whitespace. */
  lemma MakeHumanObjectHasTypeText(obj: Option<BlenderObject>)
    ensures IsAnyMakeHumanObject(obj) <==>
      obj.Some? && obj.value.typeProperty.Some? &&
      exists k :: 0 <= k < |obj.value.typeProperty.value| && !IsSpace(obj.value.typeProperty.value[k])
  {
  }

  /** The `mpfb_type_name` argument: one type name or a sequence of them. */
  datatype TypeQuery = Single(name: string) | Many(names: seq<string>)

  /** Python's falsiness of the argument: the empty string or the empty sequence. */
  predicate QueryBlank(query: TypeQuery)
  {
    match query
    case Single(name) => name == ""
    case Many(names) => names == []
  }

  /** A lone name is treated as the one-element list. */
  function QueryItems(query: TypeQuery): seq<string>
  {
    match query
    case Single(name) => [name]
    case Many(names) => names
  }

  /** An item accepts a (lowercased) type when, lowercased and stripped, it is non-blank
      and occurs in it. */
  predicate ItemMatches(item: string, loweredType: string)
  {
    var stripped := Strip(Lower(item));
    stripped != "" && IsSubstring(stripped, loweredType)
  }

  /** The loop over the query's items, returning at the first one that matches. */
  function AnyItemMatches(items: seq<string>, loweredType: string): bool
  {
    if items == [] then false
    else if ItemMatches(items[0], loweredType) then true
    else AnyItemMatches(items[1..], loweredType)
  }

  /** The loop accepts exactly when some item matches. */
  lemma {:induction false} AnyItemMatchesSpec(items: seq<string>, loweredType: string)
    ensures AnyItemMatches(items, loweredType) <==>
      exists k :: 0 <= k < |items| && ItemMatches(items[k], loweredType)
  {
    if items != [] {
      AnyItemMatchesSpec(items[1..], loweredType);
      assert forall k :: 1 <= k < |items| ==> items[k] == items[1..][k - 1];
    }
  }

  /** `object_is`. */
  function ObjectIs(obj: Option<BlenderObject>, query: TypeQuery): (r: bool)
    ensures r ==> !QueryBlank(query) && IsAnyMakeHumanObject(obj)
  {
    if QueryBlank(query) then false
    else
      var objectType := ObjectType(obj);
      if objectType == "" then false
      else AnyItemMatches(QueryItems(query), Lower(objectType))
  }

  /** `object_is` is false for a blank query or an object without a type; otherwise it is
      true exactly when some item, lowercased and stripped, is a non-blank substring of the
      lowercased type. */
  lemma ObjectIsSpec(obj: Option<BlenderObject>, query: TypeQuery)
    ensures ObjectIs(obj, query) <==> (!QueryBlank(query) && ObjectType(obj) != "" &&
      exists k :: 0 <= k < |QueryItems(query)| && ItemMatches(QueryItems(query)[k], Lower(ObjectType(obj))))
  {
    if !QueryBlank(query) && ObjectType(obj) != "" {
      AnyItemMatchesSpec(QueryItems(query), Lower(ObjectType(obj)));
    }
  }

  lemma LowerIdempotent(s: string)
    ensures Lower(Lower(s)) == Lower(s)
  {
  }

  /** A name and the one-element list holding it select the same objects. */
  lemma ObjectIsSingleAsList(obj: Option<BlenderObject>, name: string)
    ensures ObjectIs(obj, Single(name)) == ObjectIs(obj, Many([name]))
  {
    if name == "" {
      var t := Lower(ObjectType(obj));
      assert Strip(Lower(name)) == "";
      assert !ItemMatches(name, t);
      assert !AnyItemMatches([name], t);
    }
  }

  /** For a lone name the test is that name's match against the lowercased type. */
  lemma ObjectIsSingle(obj: Option<BlenderObject>, name: string)
    ensures ObjectIs(obj, Single(name)) ==
      (name != "" && ObjectType(obj) != "" && ItemMatches(name, Lower(ObjectType(obj))))
  {
    if name != "" && ObjectType(obj) != "" {
      var t := Lower(ObjectType(obj));
      assert [name][0] == name;
      assert AnyItemMatches([name], t) == ItemMatches(name, t);
    }
  }

  /** The test ignores the case of the query: the lowercased name selects the same objects. */
  lemma ObjectIsIgnoresQueryCase(obj: Option<BlenderObject>, name: string)
    ensures ObjectIs(obj, Single(Lower(name))) == ObjectIs(obj, Single(name))
  {
    LowerIdempotent(name);
    ObjectIsSingle(obj, name);
    ObjectIsSingle(obj, Lower(name));
    assert |Lower(name)| == |name|;
  }

  // ---------------------------------------------------------------------------
  // ensure_unique_name

  function DigitChar(d: nat): char
    requires d < 10
  {
    ('0' as int + d) as char
  }

  /** `str(i).zfill(3)` for numbers below 1000. */
  function Zfill3(i: nat): (s: string)
    requires i < 1000
    ensures |s| == 3
  {
    [DigitChar(i / 100), DigitChar(i / 10 % 10), DigitChar(i % 10)]
  }

  function DigitValue(c: char): int
  {
    c as int - '0' as int
  }

  /** Reads back a three-digit string. */
  function ParseDigits3(s: string): int
    requires |s| == 3
  {
    100 * DigitValue(s[0]) + 10 * DigitValue(s[1]) + DigitValue(s[2])
  }

  lemma Zfill3RoundTrip(i: nat)
    requires i < 1000
    ensures ParseDigits3(Zfill3(i)) == i
  {
  }

  /** Different numbers give different suffixes. */
  lemma Zfill3Injective(i: nat, j: nat)
    requires i < 1000 && j < 1000 && i != j
    ensures Zfill3(i) != Zfill3(j)
  {
    Zfill3RoundTrip(i);
    Zfill3RoundTrip(j);
  }

  /** The candidate name for suffix number `i`. */
  function Suffixed(desired: string, i: nat): string
    requires i < 1000
  {
    desired + "." + Zfill3(i)
  }

  /** The first free candidate from suffix `i` on, or the fixed `.999` fallback. */
  function FirstFreeFrom(existing: set<string>, desired: string, i: nat): (r: string)
    requires 1 <= i <= 100
    ensures r == desired + ".999" ||
      exists k :: i <= k < 100 && r == Suffixed(desired, k) && r !in existing
    decreases 100 - i
  {
    if i == 100 then desired + ".999"
    else if Suffixed(desired, i) !in existing then Suffixed(desired, i)
    else FirstFreeFrom(existing, desired, i + 1)
  }

  /** The name `ensure_unique_name` picks. */
  function UniqueName(existing: set<string>, desired: string): (r: string)
    ensures desired !in existing ==> r == desired
    ensures r !in existing || r == desired + ".999"
  {
    if desired !in existing then desired else FirstFreeFrom(existing, desired, 1)
  }

  /** `ensure_unique_name`; `existing` is the set of names in `bpy.data.objects`. */
  method EnsureUniqueName(existing: set<string>, desired: string) returns (name: string)
    ensures name == UniqueName(existing, desired)
  {
    if desired !in existing {
      return desired;
    }
    var i := 1;
    while i < 100
      invariant 1 <= i <= 100
      invariant FirstFreeFrom(existing, desired, i) == FirstFreeFrom(existing, desired, 1)
    {
      var rangedName := desired + "." + Zfill3(i);
      if rangedName !in existing {
        return rangedName;
      }
      i := i + 1;
    }
    return desired + ".999";
  }

  lemma {:induction false} FirstFreeFromSmallest(existing: set<string>, desired: string, i: nat, j: nat)
    requires 1 <= i <= j < 100
    requires forall k :: i <= k < j ==> Suffixed(desired, k) in existing
    requires Suffixed(desired, j) !in existing
    ensures FirstFreeFrom(existing, desired, i) == Suffixed(desired, j)
    decreases j - i
  {
    if i < j {
      FirstFreeFromSmallest(existing, desired, i + 1, j);
    }
  }

  lemma {:induction false} FirstFreeFromFallback(existing: set<string>, desired: string, i: nat)
    requires 1 <= i <= 100
    requires forall k :: i <= k < 100 ==> Suffixed(desired, k) in existing
    ensures FirstFreeFrom(existing, desired, i) == desired + ".999"
    decreases 100 - i
  {
    if i < 100 {
      FirstFreeFromFallback(existing, desired, i + 1);
    }
  }

  /** A free desired name is kept; otherwise the smallest free suffix in 1..99 is used, and
      the result is then a name not yet taken. */
  lemma UniqueNameSmallestFree(existing: set<string>, desired: string, j: nat)
    requires desired in existing
    requires 1 <= j < 100
    requires forall k :: 1 <= k < j ==> Suffixed(desired, k) in existing
    requires Suffixed(desired, j) !in existing
    ensures UniqueName(existing, desired) == Suffixed(desired, j)
    ensures UniqueName(existing, desired) !in existing
  {
    FirstFreeFromSmallest(existing, desired, 1, j);
  }

  lemma UniqueNameKeepsFreeName(existing: set<string>, desired: string)
    requires desired !in existing
    ensures UniqueName(existing, desired) == desired
  {
  }

  /** When all 99 suffixes are taken the fallback is returned, whether or not it is free. */
  lemma UniqueNameFallback(existing: set<string>, desired: string)
    requires desired in existing
    requires forall k :: 1 <= k < 100 ==> Suffixed(desired, k) in existing
    ensures UniqueName(existing, desired) == desired + ".999"
  {
    FirstFreeFromFallback(existing, desired, 1);
  }

  /** The fallback can collide with an existing object. */
  lemma UniqueNameMayCollide(desired: string)
    ensures var existing := {desired, desired + ".999"} + (set k | 1 <= k < 100 :: Suffixed(desired, k));
      UniqueName(existing, desired) in existing
  {
    var existing := {desired, desired + ".999"} + (set k | 1 <= k < 100 :: Suffixed(desired, k));
    forall k | 1 <= k < 100 ensures Suffixed(desired, k) in existing { }
    UniqueNameFallback(existing, desired);
  }

  // ---------------------------------------------------------------------------
  // Vertex groups

  /** The loop over the object's vertex groups, returning true at the first name match. */
  function AnyGroupNamed(groups: seq<VertexGroup>, name: string): (r: bool)
    ensures r <==> exists k :: 0 <= k < |groups| && groups[k].name == name
  {
    if groups == [] then false
    else if groups[0].name == name then true
    else
      var rest := AnyGroupNamed(groups[1..], name);
      assert forall k :: 1 <= k < |groups| ==> groups[k] == groups[1..][k - 1];
      rest
  }

  /** `has_vertex_group`: false for no object or an empty name; otherwise true exactly when
      some vertex group has that name. */
  function HasVertexGroup(obj: Option<BlenderObject>, name: string): (r: bool)
    ensures r <==> (obj.Some? && name != "" &&
      exists k :: 0 <= k < |obj.value.vertexGroups| && obj.value.vertexGroups[k].name == name)
  {
    obj.Some? && name != "" && AnyGroupNamed(obj.value.vertexGroups, name)
  }

  /** The index of the last group with the given name: the loop keeps overwriting it. */
  function LastGroupIndex(groups: seq<VertexGroup>, name: string): Option<int>
  {
    if groups == [] then None
    else if groups[|groups| - 1].name == name then Some(groups[|groups| - 1].index)
    else LastGroupIndex(groups[..|groups| - 1], name)
  }

  /** `LastGroupIndex` finds a group exactly when one has the name, and it is the last such. */
  lemma {:induction false} LastGroupIndexIsLast(groups: seq<VertexGroup>, name: string)
    ensures LastGroupIndex(groups, name).Some? <==> exists k :: 0 <= k < |groups| && groups[k].name == name
    ensures LastGroupIndex(groups, name).Some? ==>
      exists k :: 0 <= k < |groups| && groups[k].name == name && groups[k].index == LastGroupIndex(groups, name).value &&
        forall m :: k < m < |groups| ==> groups[m].name != name
  {
    if groups != [] {
      var n := |groups| - 1;
      if groups[n].name != name {
        var front := groups[..n];
        LastGroupIndexIsLast(front, name);
        assert forall k :: 0 <= k < n ==> groups[k] == front[k];
      }
    }
  }

  /** The indexes of the vertices in the group, in vertex order, with repeats. */
  function MemberIndexes(vertices: seq<Vertex>, groupIndex: int): seq<int>
  {
    if vertices == [] then []
    else
      var v := vertices[|vertices| - 1];
      MemberIndexes(vertices[..|vertices| - 1], groupIndex) + (if groupIndex in v.groups then [v.index] else [])
  }

  /** Removes repeats, keeping each value where it is first seen; the values kept are
      exactly those of `s`. */
  function Dedup(s: seq<int>): (r: seq<int>)
    ensures forall x :: x in r <==> x in s
  {
    if s == [] then []
    else
      var n := |s| - 1;
      var front := Dedup(s[..n]);
      assert s == s[..n] + [s[n]];
      if s[n] in front then front else front + [s[n]]
  }

  predicate NoDuplicates(s: seq<int>)
  {
    forall i, j :: 0 <= i < j < |s| ==> s[i] != s[j]
  }

  /** The first position of a value in a sequence. */
  function FirstIndex(s: seq<int>, x: int): (i: nat)
    requires x in s
    ensures i < |s| && s[i] == x && forall k :: 0 <= k < i ==> s[k] != x
  {
    if s[0] == x then 0 else 1 + FirstIndex(s[1..], x)
  }

  /** `Dedup` keeps each value once. */
  lemma {:induction false} DedupNoDuplicates(s: seq<int>)
    ensures NoDuplicates(Dedup(s))
  {
    if s != [] {
      DedupNoDuplicates(s[..|s| - 1]);
    }
  }

  /** `Dedup` keeps the values in the order of their first occurrence in `s`. */
  lemma {:induction false} DedupFirstSeenOrder(s: seq<int>)
    ensures forall i, j :: 0 <= i < j < |Dedup(s)| ==> FirstIndex(s, Dedup(s)[i]) < FirstIndex(s, Dedup(s)[j])
  {
    if s != [] {
      var n := |s| - 1;
      var pre := s[..n];
      DedupFirstSeenOrder(pre);
      assert s == pre + [s[n]];
      forall x | x in pre ensures FirstIndex(s, x) == FirstIndex(pre, x) {
        FirstIndexPrefix(pre, s[n], x);
      }
      var d := Dedup(s);
      if s[n] !in pre {
        FirstIndexNew(pre, s[n]);
        forall i, j | 0 <= i < j < |d| ensures FirstIndex(s, d[i]) < FirstIndex(s, d[j]) {
          if j == |d| - 1 {
            assert d[i] in pre;
          } else {
            assert d[i] == Dedup(pre)[i] && d[j] == Dedup(pre)[j];
          }
        }
      }
    }
  }

  lemma FirstIndexPrefix(pre: seq<int>, y: int, x: int)
    requires x in pre
    ensures FirstIndex(pre + [y], x) == FirstIndex(pre, x)
  {
    var i := FirstIndex(pre, x);
    var s := pre + [y];
    assert s[i] == x;
    assert forall k :: 0 <= k < i ==> s[k] == pre[k];
  }

  lemma FirstIndexNew(pre: seq<int>, y: int)
    requires y !in pre
    ensures FirstIndex(pre + [y], y) == |pre|
  {
    var s := pre + [y];
    assert s[|pre|] == y;
    assert forall k :: 0 <= k < |pre| ==> s[k] == pre[k];
  }

  /** The vertex indexes `get_vertex_indexes_for_vertex_group` returns. */
  function VertexIndexesFor(obj: Option<BlenderObject>, name: string): seq<int>
  {
    if obj.None? || name == "" then []
    else match LastGroupIndex(obj.value.vertexGroups, name)
      case None => []
      case Some(gi) => Dedup(MemberIndexes(obj.value.vertices, gi))
  }

  /** `get_vertex_indexes_for_vertex_group`. */
  method GetVertexIndexesForVertexGroup(obj: Option<BlenderObject>, name: string) returns (relevant: seq<int>)
    ensures relevant == VertexIndexesFor(obj, name)
  {
    if obj.None? || name == "" {
      return [];
    }
    var groupIndex := FindLastGroupIndex(obj.value.vertexGroups, name);
    if groupIndex.None? {
      return [];
    }
    relevant := CollectMembers(obj.value.vertices, groupIndex.value);
  }

  /** The loop over the vertex groups: it keeps the index of every group with the name, so
      the last one wins. */
  method FindLastGroupIndex(groups: seq<VertexGroup>, name: string) returns (groupIndex: Option<int>)
    ensures groupIndex == LastGroupIndex(groups, name)
  {
    groupIndex := None;
    var g := 0;
    while g < |groups|
      invariant 0 <= g <= |groups|
      invariant groupIndex == LastGroupIndex(groups[..g], name)
    {
      assert groups[..g + 1][..g] == groups[..g];
      if groups[g].name == name {
        groupIndex := Some(groups[g].index);
      }
      g := g + 1;
    }
    assert groups[..g] == groups;
  }

  /** The loop over the vertices, adding each member's index unless already present. */
  method CollectMembers(vertices: seq<Vertex>, gi: int) returns (relevant: seq<int>)
    ensures relevant == Dedup(MemberIndexes(vertices, gi))
  {
    relevant := [];
    var v := 0;
    while v < |vertices|
      invariant 0 <= v <= |vertices|
      invariant relevant == Dedup(MemberIndexes(vertices[..v], gi))
    {
      VertexStep(vertices, v, gi);
      relevant := AddIfMember(relevant, vertices[v], gi);
      v := v + 1;
    }
    assert vertices[..v] == vertices;
  }

  /** The loop over one vertex's groups. */
  method AddIfMember(before: seq<int>, vertex: Vertex, gi: int) returns (relevant: seq<int>)
    ensures relevant == if gi in vertex.groups && vertex.index !in before then before + [vertex.index] else before
  {
    relevant := before;
    var e := 0;
    while e < |vertex.groups|
      invariant 0 <= e <= |vertex.groups|
      invariant relevant == if gi in vertex.groups[..e] && vertex.index !in before then before + [vertex.index] else before
    {
      assert vertex.groups[..e + 1] == vertex.groups[..e] + [vertex.groups[e]];
      if vertex.groups[e] == gi {
        if vertex.index !in relevant {
          relevant := relevant + [vertex.index];
        }
      }
      e := e + 1;
    }
    assert vertex.groups[..e] == vertex.groups;
  }

  lemma VertexStep(vertices: seq<Vertex>, v: nat, gi: int)
    requires v < |vertices|
    ensures Dedup(MemberIndexes(vertices[..v + 1], gi)) ==
      var before := Dedup(MemberIndexes(vertices[..v], gi));
      var vertex := vertices[v];
      if gi in vertex.groups && vertex.index !in before then before + [vertex.index] else before
  {
    var pre := vertices[..v + 1];
    assert pre[..v] == vertices[..v];
    assert pre[v] == vertices[v];
    var m := MemberIndexes(vertices[..v], gi);
    var vertex := vertices[v];
    if gi in vertex.groups {
      assert MemberIndexes(pre, gi) == m + [vertex.index];
      assert (m + [vertex.index])[..|m|] == m;
    } else {
      assert MemberIndexes(pre, gi) == m + [];
      assert m + [] == m;
    }
  }

  /** The result is empty for no object, an empty name or an unknown group; otherwise it
      lists each vertex of the last group with that name exactly once, in the order the
      vertices are first found. */
  lemma VertexIndexesSpec(obj: Option<BlenderObject>, name: string)
    ensures obj.None? || name == "" || LastGroupIndex(obj.value.vertexGroups, name).None? ==>
      VertexIndexesFor(obj, name) == []
    ensures obj.Some? && name != "" && LastGroupIndex(obj.value.vertexGroups, name).Some? ==>
      var members := MemberIndexes(obj.value.vertices, LastGroupIndex(obj.value.vertexGroups, name).value);
      var result := VertexIndexesFor(obj, name);
      NoDuplicates(result) && (forall x :: x in result <==> x in members) &&
      forall i, j :: 0 <= i < j < |result| ==> FirstIndex(members, result[i]) < FirstIndex(members, result[j])
  {
    if obj.Some? && name != "" && LastGroupIndex(obj.value.vertexGroups, name).Some? {
      var members := MemberIndexes(obj.value.vertices, LastGroupIndex(obj.value.vertexGroups, name).value);
      DedupNoDuplicates(members);
      DedupFirstSeenOrder(members);
    }
  }

  /** A value is a member index exactly when some vertex with that index is in the group. */
  lemma {:induction false} MemberIndexesSpec(vertices: seq<Vertex>, gi: int)
    ensures forall x :: x in MemberIndexes(vertices, gi) <==>
      exists k :: 0 <= k < |vertices| && vertices[k].index == x && gi in vertices[k].groups
  {
    if vertices != [] {
      var n := |vertices| - 1;
      var front := vertices[..n];
      MemberIndexesSpec(front, gi);
      assert forall k :: 0 <= k < n ==> vertices[k] == front[k];
    }
  }

  // ---------------------------------------------------------------------------
  // The base mesh's vertex-group definition

  /** Python's `range(start, stop + 1)`: `start` up to `stop`, empty when `stop < start`. */
  function RangeInclusive(start: int, stop: int): (r: seq<int>)
    ensures |r| == if stop < start then 0 else stop - start + 1
    ensures forall k :: 0 <= k < |r| ==> r[k] == start + k
    decreases stop - start
  {
    if stop < start then [] else [start] + RangeInclusive(start + 1, stop)
  }

  /** A group's `[start, stop]` pairs, each expanded and concatenated in order. */
  function ExpandRanges(pairs: seq<(int, int)>): seq<int>
  {
    if pairs == [] then []
    else
      var n := |pairs| - 1;
      ExpandRanges(pairs[..n]) + RangeInclusive(pairs[n].0, pairs[n].1)
  }

  /** A vertex is in the expanded group exactly when some pair's range covers it. */
  lemma {:induction false} ExpandRangesMembers(pairs: seq<(int, int)>)
    ensures forall x :: x in ExpandRanges(pairs) <==> exists k :: 0 <= k < |pairs| && pairs[k].0 <= x <= pairs[k].1
  {
    if pairs != [] {
      var n := |pairs| - 1;
      var front := pairs[..n];
      ExpandRangesMembers(front);
      assert forall k :: 0 <= k < n ==> pairs[k] == front[k];
      var last := RangeInclusive(pairs[n].0, pairs[n].1);
      forall x | pairs[n].0 <= x <= pairs[n].1 ensures x in last {
        assert last[x - pairs[n].0] == x;
      }
    }
  }

  /** The expanded length is the sum of the inclusive range sizes. */
  function RangesSize(pairs: seq<(int, int)>): nat
  {
    if pairs == [] then 0
    else
      var n := |pairs| - 1;
      RangesSize(pairs[..n]) + (if pairs[n].1 < pairs[n].0 then 0 else pairs[n].1 - pairs[n].0 + 1)
  }

  lemma {:induction false} ExpandRangesLength(pairs: seq<(int, int)>)
    ensures |ExpandRanges(pairs)| == RangesSize(pairs)
  {
    if pairs != [] {
      ExpandRangesLength(pairs[..|pairs| - 1]);
    }
  }

  /** The definition: every group of the file expanded, then the extra groups, which replace
      groups of the same name. */
  function ExpandedDefinition(unexpanded: map<string, seq<(int, int)>>, extras: map<string, seq<int>>): (d: map<string, seq<int>>)
    ensures d.Keys == unexpanded.Keys + extras.Keys
    ensures forall g :: g in extras ==> d[g] == extras[g]
    ensures forall g :: g in unexpanded && g !in extras ==> d[g] == ExpandRanges(unexpanded[g])
  {
    (map g | g in unexpanded :: ExpandRanges(unexpanded[g])) + extras
  }

  /** The expansion loop: each group's list is filled by extending it with one range at a time. */
  method ExpandVertexGroups(unexpanded: map<string, seq<(int, int)>>, extras: map<string, seq<int>>)
    returns (expanded: map<string, seq<int>>)
    ensures expanded == ExpandedDefinition(unexpanded, extras)
  {
    expanded := map[];
    var remaining := unexpanded.Keys;
    while remaining != {}
      invariant remaining <= unexpanded.Keys
      invariant expanded.Keys == unexpanded.Keys - remaining
      invariant forall g :: g in expanded ==> expanded[g] == ExpandRanges(unexpanded[g])
      decreases remaining
    {
      var group :| group in remaining;
      var ranges := unexpanded[group];
      var vertices: seq<int> := [];
      var r := 0;
      while r < |ranges|
        invariant 0 <= r <= |ranges|
        invariant vertices == ExpandRanges(ranges[..r])
      {
        assert ranges[..r + 1][..r] == ranges[..r];
        vertices := vertices + RangeInclusive(ranges[r].0, ranges[r].1);
        r := r + 1;
      }
      assert ranges[..r] == ranges;
      expanded := expanded[group := vertices];
      remaining := remaining - {group};
    }
    assert expanded == map g | g in unexpanded :: ExpandRanges(unexpanded[g]);
    expanded := expanded + extras;
  }

  /** The module-level cache of the definition, filled on first use. */
  class VertexGroupCache {
    var unexpanded: Option<map<string, seq<(int, int)>>>
    var expanded: Option<map<string, seq<int>>>

    constructor ()
      ensures unexpanded == None && expanded == None
    {
      unexpanded := None;
      expanded := None;
    }

    /** `get_base_mesh_vertex_group_definition`. `fileContents` is what the JSON file holds and
        `extras` is `BASEMESH_EXTRA_GROUPS`; the file is read only while the cache is empty,
        and once filled the cache is left unchanged by the call. */
    method GetBaseMeshVertexGroupDefinition(fileContents: map<string, seq<(int, int)>>, extras: map<string, seq<int>>)
      returns (definition: map<string, seq<int>>)
      modifies this
      ensures old(expanded).Some? ==> expanded == old(expanded) && unexpanded == old(unexpanded)
      ensures old(expanded).None? ==>
        unexpanded == Some(fileContents) && expanded == Some(ExpandedDefinition(fileContents, extras))
      ensures expanded.Some? && definition == expanded.value
    {
      if expanded.None? {
        unexpanded := Some(fileContents);
        var e := ExpandVertexGroups(fileContents, extras);
        expanded := Some(e);
      }
      definition := expanded.value;
    }
  }

  // ---------------------------------------------------------------------------
  // The scene and its parent relation

  /** `objects` is `bpy.data.objects` in its order and `info` describes each object. The
      ghost `depth` witnesses that following parents always ends: it grows from parent to
      child and stays below the number of objects. */
  datatype World = World(objects: seq<ObjId>, info: map<ObjId, BlenderObject>, ghost depth: map<ObjId, nat>)

  predicate ObjectsKnown(w: World)
  {
    forall o :: o in w.objects ==> o in w.info
  }

  ghost predicate ValidWorld(w: World)
  {
    ObjectsKnown(w) &&
    (forall o :: o in w.info ==> o in w.depth && w.depth[o] < |w.objects|) &&
    (forall o :: o in w.info && w.info[o].parent.Some? ==>
      w.info[o].parent.value in w.info && w.depth[w.info[o].parent.value] < w.depth[o])
  }

  /** The objects among `objs` whose parent is `parent`, in order. */
  function ChildrenAmong(w: World, objs: seq<ObjId>, parent: Option<ObjId>): seq<ObjId>
    requires forall o :: o in objs ==> o in w.info
  {
    if objs == [] then []
    else
      var n := |objs| - 1;
      ChildrenAmong(w, objs[..n], parent) + (if w.info[objs[n]].parent == parent then [objs[n]] else [])
  }

  /** `get_list_of_children`: for `None` these are the objects without a parent. */
  function ChildrenOf(w: World, parent: Option<ObjId>): seq<ObjId>
    requires ObjectsKnown(w)
  {
    ChildrenAmong(w, w.objects, parent)
  }

  method GetListOfChildren(w: World, parent: Option<ObjId>) returns (children: seq<ObjId>)
    requires ObjectsKnown(w)
    ensures children == ChildrenOf(w, parent)
  {
    children := [];
    var i := 0;
    while i < |w.objects|
      invariant 0 <= i <= |w.objects|
      invariant children == ChildrenAmong(w, w.objects[..i], parent)
    {
      var potentialChild := w.objects[i];
      assert w.objects[..i + 1][..i] == w.objects[..i];
      if w.info[potentialChild].parent == parent {
        children := children + [potentialChild];
      }
      i := i + 1;
    }
    assert w.objects[..i] == w.objects;
  }

  /** The children are exactly the listed objects with that parent. */
  lemma {:induction false} ChildrenAmongMembers(w: World, objs: seq<ObjId>, parent: Option<ObjId>)
    requires forall o :: o in objs ==> o in w.info
    ensures forall x :: x in ChildrenAmong(w, objs, parent) <==> x in objs && w.info[x].parent == parent
  {
    if objs != [] {
      var n := |objs| - 1;
      var front := objs[..n];
      assert objs == front + [objs[n]];
      ChildrenAmongMembers(w, front, parent);
    }
  }

  lemma ChildrenOfMembers(w: World, parent: Option<ObjId>)
    requires ObjectsKnown(w)
    ensures forall x :: x in ChildrenOf(w, parent) <==> x in w.objects && w.info[x].parent == parent
  {
    ChildrenAmongMembers(w, w.objects, parent);
  }

  /** `a` is a proper ancestor of `x`. */
  ghost predicate IsAncestor(w: World, a: ObjId, x: ObjId)
    requires ValidWorld(w) && x in w.info
    decreases w.depth[x]
  {
    var p := w.info[x].parent;
    p.Some? && (p.value == a || IsAncestor(w, a, p.value))
  }

  lemma {:induction false} AncestorIsShallower(w: World, a: ObjId, x: ObjId)
    requires ValidWorld(w) && x in w.info && IsAncestor(w, a, x)
    ensures a in w.info && w.depth[a] < w.depth[x]
    decreases w.depth[x]
  {
    var p := w.info[x].parent.value;
    if p != a {
      AncestorIsShallower(w, a, p);
    }
  }

  lemma {:induction false} AncestorTransitive(w: World, a: ObjId, b: ObjId, x: ObjId)
    requires ValidWorld(w) && x in w.info && b in w.info
    requires IsAncestor(w, a, b) && IsAncestor(w, b, x)
    ensures IsAncestor(w, a, x)
    decreases w.depth[x]
  {
    var p := w.info[x].parent.value;
    if p != b {
      AncestorTransitive(w, a, b, p);
    }
  }

  // ---------------------------------------------------------------------------
  // find_all_objects_of_type_amongst_nearest_relatives

  function Obj(w: World, o: ObjId): Option<BlenderObject>
    requires o in w.info
  {
    Some(w.info[o])
  }

  /** `rec_children(parent, exclude)`; nothing when the search is limited to parents. */
  function RecChildren(w: World, p: ObjId, exclude: Option<ObjId>, query: TypeQuery, onlyParents: bool): (r: seq<ObjId>)
    requires ValidWorld(w) && p in w.info
    ensures onlyParents ==> r == []
    ensures forall x :: x in r ==> x in w.info && ObjectIs(Obj(w, x), query)
    decreases |w.objects| - w.depth[p], 1, 0
  {
    if onlyParents then []
    else
      var kids := ChildrenOf(w, Some(p));
      ChildrenOfMembers(w, Some(p));
      ScanChildren(w, p, kids, exclude, query)
  }

  /** The loop of `rec_children` over the remaining children: a child the walk came from is
      skipped, a matching child is yielded, and a non-matching armature is searched in turn. */
  function ScanChildren(w: World, p: ObjId, kids: seq<ObjId>, exclude: Option<ObjId>, query: TypeQuery): (r: seq<ObjId>)
    requires ValidWorld(w) && p in w.info
    requires forall c :: c in kids ==> c in w.info && w.info[c].parent == Some(p)
    ensures forall x :: x in r ==> x in w.info && ObjectIs(Obj(w, x), query)
    decreases |w.objects| - w.depth[p], 0, |kids|
  {
    if kids == [] then []
    else
      var c := kids[0];
      var here :=
        if Some(c) == exclude then []
        else if ObjectIs(Obj(w, c), query) then [c]
        else if w.info[c].isArmature then RecChildren(w, c, None, query, false)
        else [];
      here + ScanChildren(w, p, kids[1..], exclude, query)
  }

  /** An object is blocking when it is neither an armature nor a MakeHuman object. */
  predicate Blocking(w: World, q: ObjId)
    requires q in w.info
  {
    !w.info[q].isArmature && !IsAnyMakeHumanObject(Obj(w, q))
  }

  /** The climb from `from` to its parent and on; once past the first ancestor the
      strict test always applies. */
  function Climb(w: World, from: ObjId, strict: bool, query: TypeQuery, onlyParents: bool): (r: seq<ObjId>)
    requires ValidWorld(w) && from in w.info
    decreases w.depth[from]
  {
    var parent := w.info[from].parent;
    if parent.None? then []
    else
      var q := parent.value;
      if strict && Blocking(w, q) then []
      else
        (if ObjectIs(Obj(w, q), query) then [q] else []) +
        RecChildren(w, q, Some(from), query, onlyParents) +
        Climb(w, q, true, query, onlyParents)
  }

  /** Everything the generator yields, in order. */
  function FindAll(w: World, obj: Option<ObjId>, query: TypeQuery, onlyParents: bool, strictParent: bool, onlyChildren: bool): (r: seq<ObjId>)
    requires ValidWorld(w) && (obj.Some? ==> obj.value in w.info)
    ensures obj.None? || QueryBlank(query) ==> r == []
    ensures forall x :: x in r ==> x in w.info && ObjectIs(Obj(w, x), query)
  {
    if obj.None? || QueryBlank(query) then []
    else
      var o := obj.value;
      ClimbMatches(w, o, strictParent, query, onlyParents);
      (if ObjectIs(Obj(w, o), query) then [o] else []) +
      RecChildren(w, o, None, query, onlyParents) +
      (if onlyChildren then [] else Climb(w, o, strictParent, query, onlyParents))
  }

  /** `find_object_of_type_amongst_nearest_relatives`: the first object yielded, if any. */
  function FindOne(w: World, obj: Option<ObjId>, query: TypeQuery, onlyParents: bool, strictParent: bool, onlyChildren: bool): (r: Option<ObjId>)
    requires ValidWorld(w) && (obj.Some? ==> obj.value in w.info)
    ensures var all := FindAll(w, obj, query, onlyParents, strictParent, onlyChildren);
      (r.None? <==> all == []) && (r.Some? ==> r.value == all[0])
  {
    var all := FindAll(w, obj, query, onlyParents, strictParent, onlyChildren);
    if all == [] then None else Some(all[0])
  }

  /** The `while` loop over parents: from the object the walk starts at, each ancestor in
      turn until there is none or the strict test stops it. */
  method ClimbParents(w: World, start: ObjId, strictParent: bool, query: TypeQuery, onlyParents: bool)
    returns (found: seq<ObjId>)
    requires ValidWorld(w) && start in w.info
    ensures found == Climb(w, start, strictParent, query, onlyParents)
  {
    found := [];
    var parentFrom := start;
    var parent := w.info[start].parent;
    var strict := strictParent;
    while parent.Some?
      invariant parentFrom in w.info && parent == w.info[parentFrom].parent
      invariant found + Climb(w, parentFrom, strict, query, onlyParents) == Climb(w, start, strictParent, query, onlyParents)
      decreases w.depth[parentFrom]
    {
      var q := parent.value;
      if strict && Blocking(w, q) {
        break;
      }
      var yielded := if ObjectIs(Obj(w, q), query) then [q] else [];
      var scanned := RecChildren(w, q, Some(parentFrom), query, onlyParents);
      ClimbLoopStep(w, parentFrom, strict, query, onlyParents, found);
      found := found + (yielded + scanned);
      parentFrom := q;
      parent := w.info[q].parent;
      strict := true;
    }
    ClimbEnds(w, parentFrom, strict, query, onlyParents);
    assert found + [] == found;
  }

  /** The climb ends at an object without a parent, or at a blocking parent met strictly. */
  lemma ClimbEnds(w: World, from: ObjId, strict: bool, query: TypeQuery, onlyParents: bool)
    requires ValidWorld(w) && from in w.info
    requires w.info[from].parent.None? || (strict && Blocking(w, w.info[from].parent.value))
    ensures Climb(w, from, strict, query, onlyParents) == []
  {
  }

  /** One pass of the `while` loop moves the parent's part of the climb into what was found. */
  lemma ClimbLoopStep(w: World, from: ObjId, strict: bool, query: TypeQuery, onlyParents: bool, found: seq<ObjId>)
    requires ValidWorld(w) && from in w.info
    requires w.info[from].parent.Some? && !(strict && Blocking(w, w.info[from].parent.value))
    ensures var q := w.info[from].parent.value;
      found + Climb(w, from, strict, query, onlyParents) ==
        found + ((if ObjectIs(Obj(w, q), query) then [q] else []) + RecChildren(w, q, Some(from), query, onlyParents)) +
        Climb(w, q, true, query, onlyParents)
  {
    var q := w.info[from].parent.value;
    ClimbStep(w, from, strict, query, onlyParents);
    ConcatAssoc(found, (if ObjectIs(Obj(w, q), query) then [q] else []) + RecChildren(w, q, Some(from), query, onlyParents),
      Climb(w, q, true, query, onlyParents));
  }

  /** The generator itself: the object, its child scan, then the climb over parents. */
  method FindAllObjectsOfTypeAmongstNearestRelatives(
    w: World, obj: Option<ObjId>, query: TypeQuery, onlyParents: bool, strictParent: bool, onlyChildren: bool)
    returns (found: seq<ObjId>)
    requires ValidWorld(w) && (obj.Some? ==> obj.value in w.info)
    ensures found == FindAll(w, obj, query, onlyParents, strictParent, onlyChildren)
  {
    if obj.None? || QueryBlank(query) {
      return [];
    }
    var o := obj.value;
    var self := if ObjectIs(Obj(w, o), query) then [o] else [];
    var below := RecChildren(w, o, None, query, onlyParents);
    if onlyChildren {
      return self + below + [];
    }
    var above := ClimbParents(w, o, strictParent, query, onlyParents);
    found := self + below + above;
  }

  // ---------------------------------------------------------------------------
  // What the search yields

  /** `x` is reached from `p` through a chain of non-matching armatures. */
  ghost predicate ReachedThroughArmatures(w: World, p: ObjId, x: ObjId, query: TypeQuery)
    requires ValidWorld(w) && x in w.info
    decreases w.depth[x]
  {
    var parent := w.info[x].parent;
    parent.Some? &&
    (parent.value == p ||
     (w.info[parent.value].isArmature && !ObjectIs(Obj(w, parent.value), query) &&
      ReachedThroughArmatures(w, p, parent.value, query)))
  }

  lemma {:induction false} ReachedIsDescendant(w: World, p: ObjId, x: ObjId, query: TypeQuery)
    requires ValidWorld(w) && x in w.info && ReachedThroughArmatures(w, p, x, query)
    ensures IsAncestor(w, p, x)
    decreases w.depth[x]
  {
    var parent := w.info[x].parent.value;
    if parent != p {
      ReachedIsDescendant(w, p, parent, query);
    }
  }

  /** A chain of non-matching armatures from child `c` of `p` is one from `p`. */
  lemma {:induction false} ArmatureChainExtends(w: World, p: ObjId, c: ObjId, x: ObjId, query: TypeQuery)
    requires ValidWorld(w) && x in w.info && c in w.info
    requires w.info[c].parent == Some(p) && w.info[c].isArmature && !ObjectIs(Obj(w, c), query)
    requires ReachedThroughArmatures(w, c, x, query)
    ensures ReachedThroughArmatures(w, p, x, query)
    decreases w.depth[x]
  {
    var parent := w.info[x].parent.value;
    if parent != c {
      ArmatureChainExtends(w, p, c, parent, query);
    }
  }

  /** Every object a child scan yields is reached from `p` through non-matching armatures. */
  lemma {:induction false} RecChildrenSound(w: World, p: ObjId, exclude: Option<ObjId>, query: TypeQuery, onlyParents: bool)
    requires ValidWorld(w) && p in w.info
    ensures forall x :: x in RecChildren(w, p, exclude, query, onlyParents) ==>
      ReachedThroughArmatures(w, p, x, query)
    decreases |w.objects| - w.depth[p], 1, 0
  {
    if !onlyParents {
      ChildrenOfMembers(w, Some(p));
      ScanChildrenSound(w, p, ChildrenOf(w, Some(p)), exclude, query);
    }
  }

  lemma {:induction false} ScanChildrenSound(w: World, p: ObjId, kids: seq<ObjId>, exclude: Option<ObjId>, query: TypeQuery)
    requires ValidWorld(w) && p in w.info
    requires forall c :: c in kids ==> c in w.info && w.info[c].parent == Some(p)
    ensures forall x :: x in ScanChildren(w, p, kids, exclude, query) ==>
      ReachedThroughArmatures(w, p, x, query)
    decreases |w.objects| - w.depth[p], 0, |kids|
  {
    if kids != [] {
      var c := kids[0];
      ScanChildrenSound(w, p, kids[1..], exclude, query);
      if Some(c) != exclude && !ObjectIs(Obj(w, c), query) && w.info[c].isArmature {
        RecChildrenSound(w, c, None, query, false);
        forall x | x in RecChildren(w, c, None, query, false)
          ensures ReachedThroughArmatures(w, p, x, query)
        {
          ArmatureChainExtends(w, p, c, x, query);
        }
      }
    }
  }

  /** Neither of two distinct children of one parent is an ancestor of the other. */
  lemma SiblingsUnrelated(w: World, p: ObjId, c: ObjId, e: ObjId)
    requires ValidWorld(w) && c in w.info && e in w.info && c != e
    requires w.info[c].parent == Some(p) && w.info[e].parent == Some(p)
    ensures !IsAncestor(w, c, e) && !IsAncestor(w, e, c)
  {
    if IsAncestor(w, c, e) {
      AncestorIsShallower(w, c, e);
      if p != c {
        AncestorIsShallower(w, c, p);
      }
    }
    if IsAncestor(w, e, c) {
      AncestorIsShallower(w, e, c);
      if p != e {
        AncestorIsShallower(w, e, p);
      }
    }
  }

  /** The child the walk came from, and everything below it, is left out of a scan. */
  lemma {:induction false} ScanChildrenSkipsExcluded(
    w: World, p: ObjId, kids: seq<ObjId>, e: ObjId, query: TypeQuery)
    requires ValidWorld(w) && p in w.info && e in w.info && w.info[e].parent == Some(p)
    requires forall c :: c in kids ==> c in w.info && w.info[c].parent == Some(p)
    ensures forall x :: x in ScanChildren(w, p, kids, Some(e), query) ==>
      x in w.info && x != e && !IsAncestor(w, e, x)
    decreases |kids|
  {
    if kids != [] {
      var c := kids[0];
      var here :=
        if c == e then []
        else if ObjectIs(Obj(w, c), query) then [c]
        else if w.info[c].isArmature then RecChildren(w, c, None, query, false)
        else [];
      var rest := ScanChildren(w, p, kids[1..], Some(e), query);
      assert ScanChildren(w, p, kids, Some(e), query) == here + rest;
      ScanChildrenSkipsExcluded(w, p, kids[1..], e, query);
      if c != e && ObjectIs(Obj(w, c), query) {
        HereSkipsExcluded(w, p, c, e, query, c);
      } else if c != e && w.info[c].isArmature {
        forall x | x in here
          ensures x in w.info && x != e && !IsAncestor(w, e, x)
        {
          HereSkipsExcluded(w, p, c, e, query, x);
        }
      }
    }
  }

  /** What one child contributes to a scan at the excluded child's parent avoids that child. */
  lemma HereSkipsExcluded(w: World, p: ObjId, c: ObjId, e: ObjId, query: TypeQuery, x: ObjId)
    requires ValidWorld(w) && p in w.info && e in w.info && w.info[e].parent == Some(p)
    requires c in w.info && w.info[c].parent == Some(p) && c != e
    requires x == c || (!ObjectIs(Obj(w, c), query) && w.info[c].isArmature && x in RecChildren(w, c, None, query, false))
    ensures x in w.info && x != e && !IsAncestor(w, e, x)
  {
    SiblingsUnrelated(w, p, c, e);
    if x != c {
      RecChildrenSound(w, c, None, query, false);
      ReachedIsDescendant(w, c, x, query);
      DescendantOfSiblingAvoids(w, p, c, e, x);
    }
  }

  /** A descendant of one child is neither another child nor below it. */
  lemma DescendantOfSiblingAvoids(w: World, p: ObjId, c: ObjId, e: ObjId, x: ObjId)
    requires ValidWorld(w) && c in w.info && e in w.info && x in w.info && c != e
    requires w.info[c].parent == Some(p) && w.info[e].parent == Some(p)
    requires IsAncestor(w, c, x)
    ensures x != e && !IsAncestor(w, e, x)
  {
    SiblingsUnrelated(w, p, c, e);
    if IsAncestor(w, e, x) {
      AncestorsFormChain(w, c, e, x);
    }
  }

  /** Two ancestors of one object are equal or one is an ancestor of the other. */
  lemma {:induction false} AncestorsFormChain(w: World, a: ObjId, b: ObjId, x: ObjId)
    requires ValidWorld(w) && x in w.info
    requires IsAncestor(w, a, x) && IsAncestor(w, b, x)
    ensures a in w.info && b in w.info
    ensures a == b || IsAncestor(w, a, b) || IsAncestor(w, b, a)
    decreases w.depth[x]
  {
    AncestorIsShallower(w, a, x);
    AncestorIsShallower(w, b, x);
    var p := w.info[x].parent.value;
    if p != a && p != b {
      AncestorsFormChain(w, a, b, p);
    }
  }

  /** A scan at the parent of the object the walk came from skips that object and its subtree. */
  lemma RecChildrenSkipsExcluded(w: World, p: ObjId, e: ObjId, query: TypeQuery, onlyParents: bool)
    requires ValidWorld(w) && p in w.info && e in w.info && w.info[e].parent == Some(p)
    ensures forall x :: x in RecChildren(w, p, Some(e), query, onlyParents) ==>
      x in w.info && x != e && !IsAncestor(w, e, x)
  {
    if !onlyParents {
      ChildrenOfMembers(w, Some(p));
      ScanChildrenSkipsExcluded(w, p, ChildrenOf(w, Some(p)), e, query);
    }
  }

  /** A listed, matching child other than the excluded one is yielded by the scan. */
  lemma {:induction false} ScanChildrenYieldsMatchingChild(
    w: World, p: ObjId, kids: seq<ObjId>, exclude: Option<ObjId>, query: TypeQuery, c: ObjId)
    requires ValidWorld(w) && p in w.info
    requires forall k :: k in kids ==> k in w.info && w.info[k].parent == Some(p)
    requires c in kids && Some(c) != exclude && ObjectIs(Obj(w, c), query)
    ensures c in ScanChildren(w, p, kids, exclude, query)
    decreases |kids|
  {
    if kids[0] != c {
      ScanChildrenYieldsMatchingChild(w, p, kids[1..], exclude, query, c);
    }
  }

  lemma RecChildrenYieldsMatchingChild(w: World, p: ObjId, exclude: Option<ObjId>, query: TypeQuery, c: ObjId)
    requires ValidWorld(w) && p in w.info
    requires c in w.objects && w.info[c].parent == Some(p) && Some(c) != exclude && ObjectIs(Obj(w, c), query)
    ensures c in RecChildren(w, p, exclude, query, false)
  {
    ChildrenOfMembers(w, Some(p));
    ScanChildrenYieldsMatchingChild(w, p, ChildrenOf(w, Some(p)), exclude, query, c);
  }
  /** Every object of the scene is listed in `bpy.data.objects`. */
  predicate AllListed(w: World)
  {
    forall o :: o in w.info ==> o in w.objects
  }

  /** What a scan below a non-matching armature child yields, the scan over its parent's
      children yields too. */
  lemma {:induction false} ArmatureScanIncluded(
    w: World, p: ObjId, kids: seq<ObjId>, exclude: Option<ObjId>, query: TypeQuery, c: ObjId)
    requires ValidWorld(w) && p in w.info
    requires forall k :: k in kids ==> k in w.info && w.info[k].parent == Some(p)
    requires c in kids && Some(c) != exclude && !ObjectIs(Obj(w, c), query) && w.info[c].isArmature
    ensures forall x :: x in RecChildren(w, c, None, query, false) ==> x in ScanChildren(w, p, kids, exclude, query)
    decreases |kids|
  {
    if kids[0] != c {
      ArmatureScanIncluded(w, p, kids[1..], exclude, query, c);
    }
  }

  /** What a scan below a non-matching armature reached from `p` yields, the scan at `p`
      yields too. */
  lemma {:induction false} ReachedArmatureLifts(w: World, p: ObjId, a: ObjId, query: TypeQuery, x: ObjId)
    requires ValidWorld(w) && AllListed(w) && p in w.info && a in w.info
    requires w.info[a].isArmature && !ObjectIs(Obj(w, a), query) && ReachedThroughArmatures(w, p, a, query)
    requires x in RecChildren(w, a, None, query, false)
    ensures x in RecChildren(w, p, None, query, false)
    decreases w.depth[a]
  {
    var b := w.info[a].parent.value;
    ChildrenOfMembers(w, Some(b));
    ArmatureScanIncluded(w, b, ChildrenOf(w, Some(b)), None, query, a);
    if b != p {
      ReachedArmatureLifts(w, p, b, query, x);
    }
  }

  /** The child scan yields exactly the matching objects reached from `p` through
      non-matching armatures. */
  lemma RecChildrenComplete(w: World, p: ObjId, x: ObjId, query: TypeQuery)
    requires ValidWorld(w) && AllListed(w) && p in w.info && x in w.info
    ensures x in RecChildren(w, p, None, query, false) <==>
      ReachedThroughArmatures(w, p, x, query) && ObjectIs(Obj(w, x), query)
  {
    RecChildrenSound(w, p, None, query, false);
    if ReachedThroughArmatures(w, p, x, query) && ObjectIs(Obj(w, x), query) {
      var a := w.info[x].parent.value;
      RecChildrenYieldsMatchingChild(w, a, None, query, x);
      if a != p {
        ReachedArmatureLifts(w, p, a, query, x);
      }
    }
  }

  /** One step of the climb: the parent if it matches, the scan of its other children, then
      the strict climb from the parent. */
  lemma ClimbStep(w: World, from: ObjId, strict: bool, query: TypeQuery, onlyParents: bool)
    requires ValidWorld(w) && from in w.info
    requires w.info[from].parent.Some? && !(strict && Blocking(w, w.info[from].parent.value))
    ensures var q := w.info[from].parent.value;
      Climb(w, from, strict, query, onlyParents) ==
        (if ObjectIs(Obj(w, q), query) then [q] else []) +
        RecChildren(w, q, Some(from), query, onlyParents) +
        Climb(w, q, true, query, onlyParents)
  {
  }

  /** Every object the climb yields is a known object that matches the query. */
  lemma {:induction false} ClimbMatches(w: World, from: ObjId, strict: bool, query: TypeQuery, onlyParents: bool)
    requires ValidWorld(w) && from in w.info
    ensures forall x :: x in Climb(w, from, strict, query, onlyParents) ==> x in w.info && ObjectIs(Obj(w, x), query)
    decreases w.depth[from]
  {
    var parent := w.info[from].parent;
    if parent.Some? && !(strict && Blocking(w, parent.value)) {
      ClimbMatches(w, parent.value, true, query, onlyParents);
    }
  }

  /** The climb never comes back to the object it started from or to anything below it. */
  lemma {:induction false} ClimbAvoidsStart(w: World, from: ObjId, strict: bool, query: TypeQuery, onlyParents: bool)
    requires ValidWorld(w) && from in w.info
    ensures forall x :: x in Climb(w, from, strict, query, onlyParents) ==>
      x in w.info && x != from && !IsAncestor(w, from, x)
    decreases w.depth[from]
  {
    var parent := w.info[from].parent;
    if parent.Some? && !(strict && Blocking(w, parent.value)) {
      var q := parent.value;
      ClimbStep(w, from, strict, query, onlyParents);
      if IsAncestor(w, from, q) {
        AncestorIsShallower(w, from, q);
      }
      RecChildrenSkipsExcluded(w, q, from, query, onlyParents);
      ClimbAvoidsStart(w, q, true, query, onlyParents);
      ClimbAboveAvoidsStart(w, from, q, query, onlyParents);
    }
  }

  /** What the climb yields from the parent on avoids the child it came from, and its subtree. */
  lemma ClimbAboveAvoidsStart(w: World, from: ObjId, q: ObjId, query: TypeQuery, onlyParents: bool)
    requires ValidWorld(w) && from in w.info && w.info[from].parent == Some(q)
    requires forall x :: x in Climb(w, q, true, query, onlyParents) ==>
      x in w.info && x != q && !IsAncestor(w, q, x)
    ensures forall x :: x in Climb(w, q, true, query, onlyParents) ==>
      x != from && !IsAncestor(w, from, x)
  {
    forall x | x in Climb(w, q, true, query, onlyParents)
      ensures x != from && !IsAncestor(w, from, x)
    {
      if IsAncestor(w, from, x) {
        AncestorTransitive(w, q, from, x);
      }
    }
  }

  /** With `only_parents` the climb yields ancestors of its start and nothing else. */
  lemma {:induction false} ClimbOnlyAncestors(w: World, from: ObjId, strict: bool, query: TypeQuery)
    requires ValidWorld(w) && from in w.info
    ensures forall x :: x in Climb(w, from, strict, query, true) ==> IsAncestor(w, x, from)
    decreases w.depth[from]
  {
    var parent := w.info[from].parent;
    if parent.Some? && !(strict && Blocking(w, parent.value)) {
      var q := parent.value;
      RecChildrenSound(w, q, Some(from), query, true);
      ClimbOnlyAncestors(w, q, true, query);
      forall x | x in Climb(w, q, true, query, true)
        ensures IsAncestor(w, x, from)
      {
        AncestorTransitive(w, x, q, from);
      }
    }
  }

  /** The climb does not pass a blocking ancestor `b` that it meets with the strict test on:
      everything it yields lies below `b`. */
  lemma {:induction false} ClimbStopsAtBlocker(w: World, from: ObjId, strict: bool, query: TypeQuery, onlyParents: bool, b: ObjId)
    requires ValidWorld(w) && from in w.info && b in w.info
    requires IsAncestor(w, b, from) && Blocking(w, b)
    requires strict || w.info[from].parent != Some(b)
    ensures forall x :: x in Climb(w, from, strict, query, onlyParents) ==> x in w.info && IsAncestor(w, b, x)
    decreases w.depth[from]
  {
    var q := w.info[from].parent.value;
    if q != b && !(strict && Blocking(w, q)) {
      RecChildrenSound(w, q, Some(from), query, onlyParents);
      forall x | x in RecChildren(w, q, Some(from), query, onlyParents)
        ensures IsAncestor(w, b, x)
      {
        ReachedIsDescendant(w, q, x, query);
        AncestorTransitive(w, b, q, x);
      }
      ClimbStopsAtBlocker(w, q, true, query, onlyParents, b);
    }
  }

  /** The three parts of a search for a non-blank query: the object, its child scan, the climb. */
  lemma FindAllParts(w: World, o: ObjId, query: TypeQuery, onlyParents: bool, strictParent: bool, onlyChildren: bool)
    requires ValidWorld(w) && o in w.info && !QueryBlank(query)
    ensures FindAll(w, Some(o), query, onlyParents, strictParent, onlyChildren) ==
      (if ObjectIs(Obj(w, o), query) then [o] else []) +
      RecChildren(w, o, None, query, onlyParents) +
      (if onlyChildren then [] else Climb(w, o, strictParent, query, onlyParents))
  {
  }

  /** Everything yielded matches; the object itself is yielded exactly when it matches, and
      then first. */
  lemma FindAllSelfFirst(w: World, o: ObjId, query: TypeQuery, onlyParents: bool, strictParent: bool, onlyChildren: bool)
    requires ValidWorld(w) && o in w.info && !QueryBlank(query)
    ensures var all := FindAll(w, Some(o), query, onlyParents, strictParent, onlyChildren);
      (forall x :: x in all ==> x in w.info && ObjectIs(Obj(w, x), query)) &&
      (o in all <==> ObjectIs(Obj(w, o), query)) &&
      (ObjectIs(Obj(w, o), query) ==> all[0] == o)
  {
    RecChildrenSound(w, o, None, query, onlyParents);
    forall x | x in RecChildren(w, o, None, query, onlyParents)
      ensures x != o
    {
      ReachedIsDescendant(w, o, x, query);
      AncestorIsShallower(w, o, x);
    }
    ClimbAvoidsStart(w, o, strictParent, query, onlyParents);
  }

  /** With `only_children` the search yields the object and objects below it, never an
      ancestor. */
  lemma FindAllOnlyChildren(w: World, o: ObjId, query: TypeQuery, onlyParents: bool, strictParent: bool)
    requires ValidWorld(w) && o in w.info
    ensures forall x :: x in FindAll(w, Some(o), query, onlyParents, strictParent, true) ==>
      x in w.info && (x == o || IsAncestor(w, o, x)) && !IsAncestor(w, x, o)
  {
    var below := RecChildren(w, o, None, query, onlyParents);
    var self := if ObjectIs(Obj(w, o), query) then [o] else [];
    ScanBelowIsDescendant(w, o, query, onlyParents);
    if IsAncestor(w, o, o) {
      AncestorIsShallower(w, o, o);
    }
    if !QueryBlank(query) {
      FindAllParts(w, o, query, onlyParents, strictParent, true);
      assert FindAll(w, Some(o), query, onlyParents, strictParent, true) == self + below + [];
      forall x | x in FindAll(w, Some(o), query, onlyParents, strictParent, true)
        ensures x in w.info && (x == o || IsAncestor(w, o, x)) && !IsAncestor(w, x, o)
      {
        assert x in self || x in below;
      }
    }
  }

  /** The child scan of an object yields only its descendants, never one of its ancestors. */
  lemma ScanBelowIsDescendant(w: World, o: ObjId, query: TypeQuery, onlyParents: bool)
    requires ValidWorld(w) && o in w.info
    ensures forall x :: x in RecChildren(w, o, None, query, onlyParents) ==> IsAncestor(w, o, x) && !IsAncestor(w, x, o)
  {
    RecChildrenSound(w, o, None, query, onlyParents);
    forall x | x in RecChildren(w, o, None, query, onlyParents)
      ensures IsAncestor(w, o, x) && !IsAncestor(w, x, o)
    {
      ReachedIsDescendant(w, o, x, query);
      AncestorIsShallower(w, o, x);
      if IsAncestor(w, x, o) {
        AncestorIsShallower(w, x, o);
      }
    }
  }

  /** With `only_parents` no child scan runs: the search yields the object and ancestors of it. */
  lemma FindAllOnlyParents(w: World, o: ObjId, query: TypeQuery, strictParent: bool, onlyChildren: bool)
    requires ValidWorld(w) && o in w.info
    ensures RecChildren(w, o, None, query, true) == []
    ensures forall x :: x in FindAll(w, Some(o), query, true, strictParent, onlyChildren) ==>
      x == o || IsAncestor(w, x, o)
  {
    RecChildrenSound(w, o, None, query, true);
    ClimbOnlyAncestors(w, o, strictParent, query);
  }

  /** A blocking ancestor ends the search: with `strict_parent`, or for any ancestor above
      the immediate parent (the climb turns strict after its first step), nothing at or
      beyond it is yielded. */
  lemma FindAllStopsAtBlocker(w: World, o: ObjId, query: TypeQuery, onlyParents: bool, strictParent: bool, b: ObjId)
    requires ValidWorld(w) && o in w.info && b in w.info
    requires IsAncestor(w, b, o) && Blocking(w, b)
    requires strictParent || w.info[o].parent != Some(b)
    ensures forall x :: x in FindAll(w, Some(o), query, onlyParents, strictParent, false) ==>
      x in w.info && IsAncestor(w, b, x)
  {
    RecChildrenSound(w, o, None, query, onlyParents);
    forall x | x in RecChildren(w, o, None, query, onlyParents)
      ensures IsAncestor(w, b, x)
    {
      ReachedIsDescendant(w, o, x, query);
      AncestorTransitive(w, b, o, x);
    }
    ClimbStopsAtBlocker(w, o, strictParent, query, onlyParents, b);
  }

  /** A matching listed child of the object is found unless only parents are searched. */
  lemma FindAllYieldsMatchingChild(w: World, o: ObjId, query: TypeQuery, strictParent: bool, onlyChildren: bool, c: ObjId)
    requires ValidWorld(w) && o in w.info
    requires c in w.objects && w.info[c].parent == Some(o) && ObjectIs(Obj(w, c), query)
    ensures c in FindAll(w, Some(o), query, false, strictParent, onlyChildren)
  {
    FindAllParts(w, o, query, false, strictParent, onlyChildren);
    RecChildrenYieldsMatchingChild(w, o, None, query, c);
  }

  /** A matching object below the object, reached through non-matching armatures, is found
      unless only parents are searched. */
  lemma FindAllYieldsReachedDescendant(w: World, o: ObjId, query: TypeQuery, strictParent: bool, onlyChildren: bool, x: ObjId)
    requires ValidWorld(w) && AllListed(w) && o in w.info && x in w.info
    requires ReachedThroughArmatures(w, o, x, query) && ObjectIs(Obj(w, x), query)
    ensures x in FindAll(w, Some(o), query, false, strictParent, onlyChildren)
  {
    FindAllParts(w, o, query, false, strictParent, onlyChildren);
    RecChildrenComplete(w, o, x, query);
  }

  /** A matching sibling is found unless only parents or only children are searched, or the
      strict test stops at a blocking parent. */
  lemma FindAllYieldsMatchingSibling(w: World, o: ObjId, q: ObjId, query: TypeQuery, strictParent: bool, s: ObjId)
    requires ValidWorld(w) && o in w.info && w.info[o].parent == Some(q)
    requires s in w.objects && w.info[s].parent == Some(q) && s != o && ObjectIs(Obj(w, s), query)
    requires !(strictParent && Blocking(w, q))
    ensures s in FindAll(w, Some(o), query, false, strictParent, false)
  {
    FindAllParts(w, o, query, false, strictParent, false);
    ClimbStep(w, o, strictParent, query, false);
    RecChildrenYieldsMatchingChild(w, q, Some(o), query, s);
  }

  /** A matching parent is always found unless only children are searched: a matching object
      is a MakeHuman object, so the strict test never stops at it. */
  lemma FindAllYieldsMatchingParent(w: World, o: ObjId, query: TypeQuery, onlyParents: bool, strictParent: bool, q: ObjId)
    requires ValidWorld(w) && o in w.info
    requires w.info[o].parent == Some(q) && ObjectIs(Obj(w, q), query)
    ensures q in FindAll(w, Some(o), query, onlyParents, strictParent, false)
  {
  }
}
