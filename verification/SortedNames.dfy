/** Strings in the order of Go's sort.Strings, and sets of names laid out in that order. */
module SortedNames {

  /** Strictly before, comparing character by character. */
  predicate Before(a: string, b: string)
  {
    b != "" && (a == "" || a[0] < b[0] || (a[0] == b[0] && Before(a[1..], b[1..])))
  }

  predicate Ascending(names: seq<string>)
  {
    forall i, j :: 0 <= i < j < |names| ==> Before(names[i], names[j])
  }

  predicate Distinct(names: seq<string>)
  {
    forall i, j :: 0 <= i < j < |names| ==> names[i] != names[j]
  }

  function Names(names: seq<string>): set<string>
  {
    set i | 0 <= i < |names| :: names[i]
  }

  /** The strings agree below position k, and the first one has the smaller character there. */
  predicate SmallerAt(a: string, b: string, k: int)
  {
    0 <= k < |a| && k < |b| && a[..k] == b[..k] && a[k] < b[k]
  }

  lemma SmallerAtIsLocal(a: string, b: string, k: int)
    requires a != "" && b != ""
    ensures SmallerAt(a, b, 0) <==> a[0] < b[0]
    ensures k > 0 ==> (SmallerAt(a, b, k) <==> a[0] == b[0] && SmallerAt(a[1..], b[1..], k - 1))
  {
    if 0 < k < |a| && k < |b| {
      assert a[..k] == [a[0]] + a[1..][..k - 1];
      assert b[..k] == [b[0]] + b[1..][..k - 1];
      assert a[..k][0] == a[0] && b[..k][0] == b[0];
      assert a[..k][1..] == a[1..][..k - 1] && b[..k][1..] == b[1..][..k - 1];
    }
  }

  /** The order by positions: a proper prefix comes first, otherwise the first different character
      decides. */
  lemma {:induction false} BeforeByPosition(a: string, b: string)
    ensures Before(a, b) <==> a < b || exists k :: SmallerAt(a, b, k)
  {
    if a != "" && b != "" {
      assert a == [a[0]] + a[1..] && b == [b[0]] + b[1..];
      SmallerAtIsLocal(a, b, 0);
      if k :| SmallerAt(a, b, k) { SmallerAtIsLocal(a, b, k); }
      if a[0] == b[0] {
        BeforeByPosition(a[1..], b[1..]);
        if k :| SmallerAt(a[1..], b[1..], k) {
          SmallerAtIsLocal(a, b, k + 1);
          assert SmallerAt(a, b, k + 1);
        }
      }
    }
  }

  lemma {:induction false} BeforeIsTotal(a: string, b: string)
    requires a != b
    ensures Before(a, b) <==> !Before(b, a)
  {
    if a != "" && b != "" && a[0] == b[0] {
      assert a[1..] != b[1..] by {
        assert a == [a[0]] + a[1..] && b == [b[0]] + b[1..];
      }
      BeforeIsTotal(a[1..], b[1..]);
    }
  }

  lemma {:induction false} NeverBeforeItself(a: string)
    ensures !Before(a, a)
  {
    if a != "" { NeverBeforeItself(a[1..]); }
  }

  lemma {:induction false} BeforeIsTransitive(a: string, b: string, c: string)
    requires Before(a, b) && Before(b, c)
    ensures Before(a, c)
  {
    if a != "" && a[0] == b[0] && b[0] == c[0] {
      BeforeIsTransitive(a[1..], b[1..], c[1..]);
    }
  }

  lemma NamesOfCons(name: string, rest: seq<string>)
    ensures Names([name] + rest) == {name} + Names(rest)
  {
    var r := [name] + rest;
    assert r[0] == name;
    assert forall i :: 0 <= i < |rest| ==> rest[i] == r[i + 1];
    assert forall i :: 0 < i < |r| ==> r[i] == rest[i - 1];
  }

  /** A name before the first one goes in front. */
  lemma NewFirst(name: string, names: seq<string>)
    requires Ascending(names) && (names == [] || Before(name, names[0]))
    ensures Ascending([name] + names)
  {
    var r := [name] + names;
    forall i, j | 0 <= i < j < |r| ensures Before(r[i], r[j]) {
      if i == 0 && j > 1 { BeforeIsTransitive(name, names[0], names[j - 1]); }
    }
  }

  /** The first name stays first when a later one is inserted behind it. */
  lemma FirstStaysFirst(name: string, names: seq<string>, rest: seq<string>)
    requires Ascending(names) && names != [] && Before(names[0], name)
    requires Ascending(rest) && Names(rest) == Names(names[1..]) + {name}
    ensures Ascending([names[0]] + rest)
  {
    if rest != [] {
      assert rest[0] in Names(rest);
      if rest[0] != name {
        var j :| 0 <= j < |names[1..]| && names[1..][j] == rest[0];
        assert Before(names[0], names[j + 1]);
      }
    }
    NewFirst(names[0], rest);
  }

  function Insert(name: string, names: seq<string>): (r: seq<string>)
    requires Ascending(names) && name !in names
    ensures Ascending(r) && Names(r) == Names(names) + {name}
    ensures multiset(r) == multiset(names) + multiset{name}
  {
    NamesOfCons(name, names);
    if names == [] || Before(name, names[0]) then
      NewFirst(name, names);
      [name] + names
    else
      BeforeIsTotal(name, names[0]);
      var rest := Insert(name, names[1..]);
      assert names == [names[0]] + names[1..];
      FirstStaysFirst(name, names, rest);
      NamesOfCons(names[0], rest);
      NamesOfCons(names[0], names[1..]);
      [names[0]] + rest
  }

  /** What sorting a list of distinct names gives. */
  function Sorted(names: seq<string>): (r: seq<string>)
    requires Distinct(names)
    ensures Ascending(r) && Names(r) == Names(names)
    ensures multiset(r) == multiset(names)
  {
    if names == [] then []
    else
      var rest := Sorted(names[1..]);
      assert names == [names[0]] + names[1..];
      NamesOfCons(names[0], names[1..]);
      assert names[0] !in names[1..];
      assert names[0] !in multiset(rest);
      Insert(names[0], rest)
  }

  lemma MemberIsName(name: string, names: seq<string>)
    ensures name in names <==> name in Names(names)
  {
  }

  /** The names of a set in ascending order. */
  ghost function InOrder(names: set<string>): (r: seq<string>)
    ensures Ascending(r) && Names(r) == names
  {
    if names == {} then []
    else
      var name :| name in names;
      var rest := InOrder(names - {name});
      assert name !in Names(rest);
      MemberIsName(name, rest);
      Insert(name, rest)
  }

  lemma NamesOfTail(a: seq<string>)
    requires Ascending(a) && a != []
    ensures Names(a[1..]) == Names(a) - {a[0]}
  {
    assert a == [a[0]] + a[1..];
    NamesOfCons(a[0], a[1..]);
    forall i | 0 <= i < |a[1..]| ensures a[1..][i] != a[0] {
      assert Before(a[0], a[i + 1]);
      NeverBeforeItself(a[0]);
    }
  }

  lemma NonEmptyHasNames(names: seq<string>)
    ensures names != [] ==> Names(names) != {}
  {
    if names != [] { assert names[0] in Names(names); }
  }

  /** A set of names has one ascending layout only. */
  lemma {:induction false} AscendingIsUnique(a: seq<string>, b: seq<string>)
    requires Ascending(a) && Ascending(b) && Names(a) == Names(b)
    ensures a == b
  {
    if a == [] {
      NonEmptyHasNames(b);
    } else {
      assert a[0] in Names(b);
      assert b != [];
      assert b[0] in Names(a);
      var i :| 0 <= i < |b| && b[i] == a[0];
      var j :| 0 <= j < |a| && a[j] == b[0];
      if i > 0 && j > 0 {
        BeforeIsTransitive(a[0], a[j], b[i]);
        NeverBeforeItself(a[0]);
      }
      assert a[0] == b[0];
      NamesOfTail(a);
      NamesOfTail(b);
      AscendingIsUnique(a[1..], b[1..]);
      assert a == [a[0]] + a[1..] && b == [b[0]] + b[1..];
    }
  }

  lemma NamesOfAppend(names: seq<string>, name: string)
    ensures Names(names + [name]) == Names(names) + {name}
  {
    var more := names + [name];
    assert more[|names|] == name;
    assert forall i :: 0 <= i < |names| ==> names[i] == more[i];
  }

  lemma DistinctFront(names: seq<string>, name: string)
    requires Distinct(names + [name])
    ensures Distinct(names) && name !in Names(names)
  {
    var more := names + [name];
    assert forall i :: 0 <= i < |names| ==> more[i] == names[i];
    assert more[|names|] == name;
  }

  /** The keys of a map in whatever order they come. */
  method CollectKeys(keys: set<string>) returns (names: seq<string>)
    ensures Distinct(names) && Names(names) == keys
  {
    names := [];
    var rest := keys;
    while rest != {}
      invariant rest <= keys
      invariant forall x :: x in names <==> x in keys && x !in rest
      invariant Distinct(names)
      decreases |rest|
    {
      var name :| name in rest;
      names := names + [name];
      rest := rest - {name};
    }
    forall x ensures x in Names(names) <==> x in keys {
      MemberIsName(x, names);
    }
  }

  /** Collecting the keys and sorting them. */
  method SortedKeys(keys: set<string>) returns (r: seq<string>)
    ensures r == InOrder(keys)
  {
    var names := CollectKeys(keys);
    r := Sorted(names);
    AscendingIsUnique(r, InOrder(keys));
  }
}
