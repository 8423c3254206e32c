/** `uniformUtil`: flattening arrays and arrays of objects into the uniform
    names a shader receives, `name[i]` and `name[i].property`. */
module UniformUtil {

  // ---------------------------------------------------------------------------
  // Decimal indices

  predicate IsDigit(c: char)
  {
    '0' <= c <= '9'
  }

  predicate AllDigits(s: string)
  {
    forall k :: 0 <= k < |s| ==> IsDigit(s[k])
  }

  function DigitChar(d: nat): (c: char)
    requires d < 10
    ensures IsDigit(c) && c as int - '0' as int == d
  {
    (d + '0' as int) as char
  }

  /** How a template literal writes a non-negative integer index: its decimal
      digits, most significant first, with no leading zero. */
  function NatToString(n: nat): (s: string)
    ensures |s| >= 1 && AllDigits(s)
    ensures n >= 10 ==> s[0] != '0'
  {
    if n < 10 then [DigitChar(n)] else NatToString(n / 10) + [DigitChar(n % 10)]
  }

  /** Reads a string of decimal digits back as a number. */
  function ParseDecimal(s: string): nat
    requires AllDigits(s)
  {
    if s == [] then 0 else ParseDecimal(s[..|s| - 1]) * 10 + (s[|s| - 1] as int - '0' as int)
  }

  /** Reading back an index written in decimal gives the index. */
  lemma {:induction false} ParseNatToString(n: nat)
    ensures ParseDecimal(NatToString(n)) == n
  {
    var s := NatToString(n);
    if n < 10 {
      assert s[..0] == [];
    } else {
      ParseNatToString(n / 10);
      assert s[..|s| - 1] == NatToString(n / 10);
    }
  }

  /** Distinct indices are written differently. */
  lemma NatToStringInjective(i: nat, j: nat)
    ensures NatToString(i) == NatToString(j) <==> i == j
  {
    if NatToString(i) == NatToString(j) {
      ParseNatToString(i);
      ParseNatToString(j);
    }
  }

  /** The number of decimal digits `s` starts with. */
  function LeadingDigits(s: string): (n: nat)
    ensures n <= |s|
  {
    if s == [] || !IsDigit(s[0]) then 0 else 1 + LeadingDigits(s[1..])
  }

  lemma {:induction false} LeadingDigitsOf(d: string, r: string)
    requires AllDigits(d)
    ensures LeadingDigits(d + "]" + r) == |d|
  {
    if d != [] {
      assert (d + "]" + r)[1..] == d[1..] + "]" + r;
      LeadingDigitsOf(d[1..], r);
    } else {
      assert (d + "]" + r)[0] == ']';
    }
  }

  /** A run of digits closed by `]` can be split in only one way. */
  lemma DigitsThenBracket(d1: string, r1: string, d2: string, r2: string)
    requires AllDigits(d1) && AllDigits(d2)
    requires d1 + "]" + r1 == d2 + "]" + r2
    ensures d1 == d2 && r1 == r2
  {
    var s := d1 + "]" + r1;
    LeadingDigitsOf(d1, r1);
    LeadingDigitsOf(d2, r2);
    assert d1 == s[..|d1|] == d2;
    assert r1 == s[|d1| + 1..] == r2;
  }

  // ---------------------------------------------------------------------------
  // Uniform names

  /** `${uniformArrayName}[${index}]`. */
  function ArrayKey(name: string, index: nat): string
  {
    name + "[" + NatToString(index) + "]"
  }

  /** An array name reads back: the array name and `[`, then the index in
      decimal, then `]`. */
  lemma ArrayKeyParts(name: string, index: nat)
    ensures var r := ArrayKey(name, index);
      && |r| >= |name| + 3 && r[..|name| + 1] == name + "[" && r[|r| - 1] == ']'
      && AllDigits(r[|name| + 1..|r| - 1]) && ParseDecimal(r[|name| + 1..|r| - 1]) == index
  {
    var r := ArrayKey(name, index);
    ParseNatToString(index);
    assert r[|name| + 1..|r| - 1] == NatToString(index);
    assert r[..|name| + 1] == name + "[";
  }

  /** `${uniformArrayName}[${index}].${property}`. */
  function ObjectKey(name: string, index: nat, property: string): string
  {
    name + "[" + NatToString(index) + "]." + property
  }

  /** An object name is the array name of its element, a dot, and the property. */
  lemma ObjectKeyExtends(name: string, index: nat, property: string)
    ensures ObjectKey(name, index, property) == ArrayKey(name, index) + "." + property
  {
  }

  /** Two array names under the same array name coincide only for the same index. */
  lemma ArrayKeyInjective(name: string, i: nat, j: nat)
    ensures ArrayKey(name, i) == ArrayKey(name, j) <==> i == j
  {
    if ArrayKey(name, i) == ArrayKey(name, j) {
      var di, dj := NatToString(i), NatToString(j);
      assert ArrayKey(name, i) == (name + "[") + di + "]";
      assert ArrayKey(name, j) == (name + "[") + dj + "]";
      assert di + "]" == ArrayKey(name, i)[|name| + 1..];
      assert dj + "]" == ArrayKey(name, j)[|name| + 1..];
      assert di == (di + "]")[..|di|];
      NatToStringInjective(i, j);
    }
  }

  /** Two object names under the same array name coincide only for the same
      index and the same property: the `]` ends the index. */
  lemma ObjectKeyInjective(name: string, i: nat, p: string, j: nat, q: string)
    ensures ObjectKey(name, i, p) == ObjectKey(name, j, q) <==> i == j && p == q
  {
    if ObjectKey(name, i, p) == ObjectKey(name, j, q) {
      var di, dj := NatToString(i), NatToString(j);
      var tail := ObjectKey(name, i, p)[|name| + 1..];
      assert ObjectKey(name, i, p) == (name + "[") + (di + "]" + ("." + p));
      assert ObjectKey(name, j, q) == (name + "[") + (dj + "]" + ("." + q));
      assert tail == di + "]" + ("." + p);
      assert tail == dj + "]" + ("." + q);
      DigitsThenBracket(di, "." + p, dj, "." + q);
      assert p == ("." + p)[1..];
      assert q == ("." + q)[1..];
      NatToStringInjective(i, j);
    }
  }

  // ---------------------------------------------------------------------------
  // The builders

  /** `makeUniformsForArray`: element i of `arr` under `name[i]`, and nothing else. */
  method MakeUniformsForArray<T>(uniformArrayName: string, arr: seq<T>) returns (reduced: map<string, T>)
    ensures forall i :: 0 <= i < |arr| ==> ArrayKey(uniformArrayName, i) in reduced && reduced[ArrayKey(uniformArrayName, i)] == arr[i]
    ensures forall k :: k in reduced ==> exists i :: 0 <= i < |arr| && k == ArrayKey(uniformArrayName, i)
    ensures |reduced| == |arr|
  {
    reduced := map[];
    var index := 0;
    while index < |arr|
      invariant index <= |arr|
      invariant forall i :: 0 <= i < index ==> ArrayKey(uniformArrayName, i) in reduced && reduced[ArrayKey(uniformArrayName, i)] == arr[i]
      invariant forall k :: k in reduced ==> exists i :: 0 <= i < index && k == ArrayKey(uniformArrayName, i)
    {
      var key := ArrayKey(uniformArrayName, index);
      forall i | 0 <= i < index
        ensures ArrayKey(uniformArrayName, i) != key
      {
        ArrayKeyInjective(uniformArrayName, i, index);
      }
      reduced := reduced[key := arr[index]];
      index := index + 1;
    }
    ArrayUniformsCount(uniformArrayName, |arr|, reduced);
  }

  /** The number of properties of all the objects together. */
  function TotalProperties<V>(objects: seq<map<string, V>>): nat
  {
    if objects == [] then 0 else TotalProperties(objects[..|objects| - 1]) + |objects[|objects| - 1]|
  }

  /** `m` holds property p of object i under `name[i].p`, for every object before `n`. */
  ghost predicate HoldsObjects<V>(name: string, objects: seq<map<string, V>>, n: nat, m: map<string, V>)
    requires n <= |objects|
  {
    forall i, p :: 0 <= i < n && p in objects[i] ==>
      ObjectKey(name, i, p) in m && m[ObjectKey(name, i, p)] == objects[i][p]
  }

  /** Every key of `m` names a property of an object before `n`. */
  ghost predicate OnlyObjects<V>(name: string, objects: seq<map<string, V>>, n: nat, m: map<string, V>)
    requires n <= |objects|
  {
    forall k :: k in m ==> exists i, p :: 0 <= i < n && p in objects[i] && k == ObjectKey(name, i, p)
  }

  /** The `forEach` over one object's properties: each property p of `item`
      stored under `name[index].p`, added to what is already there. */
  method AddObjectUniforms<V>(name: string, index: nat, item: map<string, V>, reduced: map<string, V>) returns (r: map<string, V>)
    requires forall p :: p in item ==> ObjectKey(name, index, p) !in reduced
    ensures forall k :: k in reduced ==> k in r && r[k] == reduced[k]
    ensures forall p :: p in item ==> ObjectKey(name, index, p) in r && r[ObjectKey(name, index, p)] == item[p]
    ensures forall k :: k in r ==> k in reduced || exists p :: p in item && k == ObjectKey(name, index, p)
  {
    r := reduced;
    var remaining := item.Keys;
    ghost var done: set<string> := {};
    while remaining != {}
      invariant remaining + done == item.Keys && remaining !! done
      invariant forall k :: k in reduced ==> k in r && r[k] == reduced[k]
      invariant forall p :: p in done ==> ObjectKey(name, index, p) in r && r[ObjectKey(name, index, p)] == item[p]
      invariant forall k :: k in r ==> k in reduced || exists p :: p in done && k == ObjectKey(name, index, p)
      decreases remaining
    {
      var property :| property in remaining;
      var key := ObjectKey(name, index, property);
      forall p | p in done
        ensures ObjectKey(name, index, p) != key
      {
        ObjectKeyInjective(name, index, p, index, property);
      }
      r := r[key := item[property]];
      remaining := remaining - {property};
      done := done + {property};
    }
  }

  /** The keys of the object at `index` are not yet taken by earlier objects. */
  lemma FreshObjectKeys<V>(name: string, objects: seq<map<string, V>>, index: nat, reduced: map<string, V>)
    requires index < |objects| && OnlyObjects(name, objects, index, reduced)
    ensures forall p :: p in objects[index] ==> ObjectKey(name, index, p) !in reduced
  {
    forall p | p in objects[index]
      ensures ObjectKey(name, index, p) !in reduced
    {
      var key := ObjectKey(name, index, p);
      if key in reduced {
        var i, q :| 0 <= i < index && q in objects[i] && key == ObjectKey(name, i, q);
        ObjectKeyInjective(name, i, q, index, p);
      }
    }
  }

  /** Adding the object at `index` extends both predicates to `index + 1`. */
  lemma ObjectsExtended<V>(name: string, objects: seq<map<string, V>>, index: nat, reduced: map<string, V>, r: map<string, V>)
    requires index < |objects|
    requires HoldsObjects(name, objects, index, reduced) && OnlyObjects(name, objects, index, reduced)
    requires forall k :: k in reduced ==> k in r && r[k] == reduced[k]
    requires forall p :: p in objects[index] ==> ObjectKey(name, index, p) in r && r[ObjectKey(name, index, p)] == objects[index][p]
    requires forall k :: k in r ==> k in reduced || exists p :: p in objects[index] && k == ObjectKey(name, index, p)
    ensures HoldsObjects(name, objects, index + 1, r) && OnlyObjects(name, objects, index + 1, r)
  {
  }

  /** `makeUniformsForObjectArray`: property p of object i under `name[i].p`,
      and nothing else. */
  method MakeUniformsForObjectArray<V>(uniformArrayName: string, objects: seq<map<string, V>>) returns (reduced: map<string, V>)
    ensures forall i, p :: 0 <= i < |objects| && p in objects[i] ==>
      ObjectKey(uniformArrayName, i, p) in reduced && reduced[ObjectKey(uniformArrayName, i, p)] == objects[i][p]
    ensures forall k :: k in reduced ==> exists i, p :: 0 <= i < |objects| && p in objects[i] && k == ObjectKey(uniformArrayName, i, p)
    ensures |reduced| == TotalProperties(objects)
  {
    reduced := map[];
    var index := 0;
    while index < |objects|
      invariant index <= |objects|
      invariant HoldsObjects(uniformArrayName, objects, index, reduced)
      invariant OnlyObjects(uniformArrayName, objects, index, reduced)
    {
      FreshObjectKeys(uniformArrayName, objects, index, reduced);
      var next := AddObjectUniforms(uniformArrayName, index, objects[index], reduced);
      ObjectsExtended(uniformArrayName, objects, index, reduced, next);
      reduced := next;
      index := index + 1;
    }
    ObjectUniformsCount(uniformArrayName, objects, reduced);
  }

  // ---------------------------------------------------------------------------
  // How many uniforms the builders produce

  /** The names `name[0]` … `name[n-1]`. */
  ghost function ArrayKeys(name: string, n: nat): set<string>
  {
    set i | 0 <= i < n :: ArrayKey(name, i)
  }

  lemma {:induction false} ArrayKeysCount(name: string, n: nat)
    ensures |ArrayKeys(name, n)| == n
  {
    if n > 0 {
      ArrayKeysCount(name, n - 1);
      assert ArrayKeys(name, n) == ArrayKeys(name, n - 1) + {ArrayKey(name, n - 1)};
      if ArrayKey(name, n - 1) in ArrayKeys(name, n - 1) {
        var i :| 0 <= i < n - 1 && ArrayKey(name, i) == ArrayKey(name, n - 1);
        ArrayKeyInjective(name, i, n - 1);
      }
    }
  }

  /** A map holding exactly the names `name[0]` … `name[n-1]`, as the result
      of `makeUniformsForArray` does, has `n` entries: one uniform per element. */
  lemma ArrayUniformsCount<T>(name: string, n: nat, m: map<string, T>)
    requires forall i :: 0 <= i < n ==> ArrayKey(name, i) in m
    requires forall k :: k in m ==> exists i :: 0 <= i < n && k == ArrayKey(name, i)
    ensures |m| == n
  {
    assert m.Keys == ArrayKeys(name, n);
    ArrayKeysCount(name, n);
  }

  /** The names `name[index].p` for the properties p of one object. */
  ghost function PropertyKeys(name: string, index: nat, properties: set<string>): set<string>
  {
    set p | p in properties :: ObjectKey(name, index, p)
  }

  lemma {:induction false} PropertyKeysCount(name: string, index: nat, properties: set<string>)
    ensures |PropertyKeys(name, index, properties)| == |properties|
    decreases properties
  {
    if properties != {} {
      var p :| p in properties;
      var rest := properties - {p};
      PropertyKeysCount(name, index, rest);
      assert PropertyKeys(name, index, properties) == PropertyKeys(name, index, rest) + {ObjectKey(name, index, p)};
      if ObjectKey(name, index, p) in PropertyKeys(name, index, rest) {
        var q :| q in rest && ObjectKey(name, index, q) == ObjectKey(name, index, p);
        ObjectKeyInjective(name, index, q, index, p);
      }
    }
  }

  /** The names of the properties of the first `n` objects. */
  ghost function ObjectKeys<V>(name: string, objects: seq<map<string, V>>, n: nat): set<string>
    requires n <= |objects|
  {
    set i, p | 0 <= i < n && p in objects[i] :: ObjectKey(name, i, p)
  }

  /** The names of the first `n + 1` objects are those of the first `n` and,
      new among them, those of the object at `n`. */
  lemma ObjectKeysSplit<V>(name: string, objects: seq<map<string, V>>, n: nat)
    requires n < |objects|
    ensures ObjectKeys(name, objects, n + 1) == ObjectKeys(name, objects, n) + PropertyKeys(name, n, objects[n].Keys)
    ensures ObjectKeys(name, objects, n) !! PropertyKeys(name, n, objects[n].Keys)
  {
    forall k | k in ObjectKeys(name, objects, n) && k in PropertyKeys(name, n, objects[n].Keys)
      ensures false
    {
      var i, p :| 0 <= i < n && p in objects[i] && k == ObjectKey(name, i, p);
      var q :| q in objects[n].Keys && k == ObjectKey(name, n, q);
      ObjectKeyInjective(name, i, p, n, q);
    }
  }

  lemma {:induction false} ObjectKeysCount<V>(name: string, objects: seq<map<string, V>>, n: nat)
    requires n <= |objects|
    ensures |ObjectKeys(name, objects, n)| == TotalProperties(objects[..n])
  {
    if n > 0 {
      ObjectKeysCount(name, objects, n - 1);
      ObjectKeysSplit(name, objects, n - 1);
      PropertyKeysCount(name, n - 1, objects[n - 1].Keys);
      assert |objects[n - 1].Keys| == |objects[n - 1]|;
      assert objects[..n][..n - 1] == objects[..n - 1];
    }
  }

  lemma AllObjectKeysCount<V>(name: string, objects: seq<map<string, V>>)
    ensures |ObjectKeys(name, objects, |objects|)| == TotalProperties(objects)
  {
    ObjectKeysCount(name, objects, |objects|);
    assert objects[..|objects|] == objects;
  }

  /** A map holding exactly the names `name[i].p`, as the result of
      `makeUniformsForObjectArray` does, has one entry per property of each
      object: no two properties collide. */
  lemma ObjectUniformsCount<V>(name: string, objects: seq<map<string, V>>, m: map<string, V>)
    requires forall i, p :: 0 <= i < |objects| && p in objects[i] ==> ObjectKey(name, i, p) in m
    requires forall k :: k in m ==> exists i, p :: 0 <= i < |objects| && p in objects[i] && k == ObjectKey(name, i, p)
    ensures |m| == TotalProperties(objects)
  {
    assert m.Keys == ObjectKeys(name, objects, |objects|);
    SizeOfKeys(m, ObjectKeys(name, objects, |objects|));
    AllObjectKeysCount(name, objects);
  }

  lemma SizeOfKeys<V>(m: map<string, V>, keys: set<string>)
    requires m.Keys == keys
    ensures |m| == |keys|
  {
    assert |m| == |m.Keys|;
  }

  /** The reduce of `getObjectPropertyAsArray` from the accumulator `memo`:
      `[...memo, value[key]]` for each value in turn. */
  function AppendProperties<T, V>(memo: seq<V>, objects: seq<T>, key: T -> V): seq<V>
    decreases |objects|
  {
    if objects == [] then memo else AppendProperties(memo + [key(objects[0])], objects[1..], key)
  }

  /** The reduce appends one projected value per object, in order, after `memo`. */
  lemma {:induction false} AppendPropertiesSpec<T, V>(memo: seq<V>, objects: seq<T>, key: T -> V)
    ensures |AppendProperties(memo, objects, key)| == |memo| + |objects|
    ensures AppendProperties(memo, objects, key)[..|memo|] == memo
    ensures forall i :: 0 <= i < |objects| ==> AppendProperties(memo, objects, key)[|memo| + i] == key(objects[i])
    decreases |objects|
  {
    if objects != [] {
      var next := memo + [key(objects[0])];
      AppendPropertiesSpec(next, objects[1..], key);
      var r := AppendProperties(memo, objects, key);
      assert r[..|memo|] == r[..|next|][..|memo|];
      forall i | 0 <= i < |objects|
        ensures r[|memo| + i] == key(objects[i])
      {
        if i == 0 {
          assert r[|memo|] == r[..|next|][|memo|];
        } else {
          assert r[|next| + (i - 1)] == key(objects[1..][i - 1]);
        }
      }
    }
  }

  /** `getObjectPropertyAsArray`, the property given by its accessor: one value
      per object, the object's property, in order. */
  function GetObjectPropertyAsArray<T, V>(objects: seq<T>, key: T -> V): (r: seq<V>)
    ensures |r| == |objects|
    ensures forall i :: 0 <= i < |objects| ==> r[i] == key(objects[i])
  {
    AppendPropertiesSpec([], objects, key);
    AppendPropertiesFromEmpty(objects, key);
    AppendProperties([], objects, key)
  }

  lemma AppendPropertiesFromEmpty<T, V>(objects: seq<T>, key: T -> V)
    requires |AppendProperties([], objects, key)| == |objects|
    requires forall i :: 0 <= i < |objects| ==> AppendProperties([], objects, key)[0 + i] == key(objects[i])
    ensures forall i :: 0 <= i < |objects| ==> AppendProperties([], objects, key)[i] == key(objects[i])
  {
    forall i | 0 <= i < |objects|
      ensures AppendProperties([], objects, key)[i] == key(objects[i])
    {
      assert 0 + i == i;
    }
  }

  /** The projection of the `square` property of the objects {n: i, square: i * i}, i = 0..3, is [0, 1, 4, 9]. */
  lemma SquaresExample()
    ensures GetObjectPropertyAsArray([(0, 0), (1, 1), (2, 4), (3, 9)], (o: (int, int)) => o.1) == [0, 1, 4, 9]
  {
  }
}
