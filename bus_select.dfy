/** The bus-selection page: the configured bus names in ascending order and a cursor. */
module BusSelectPage {
  import opened Strings
  import opened Config

  /** Strictly ascending in the byte order of the names, hence free of duplicates. */
  predicate StrictlySorted(s: seq<string>)
  {
    forall i, j :: 0 <= i < j < |s| ==> LexLt(s[i], s[j])
  }

  function Elems(s: seq<string>): set<string>
  {
    set x | x in s
  }

  /** Places a new name after every smaller one. */
  function InsertSorted(s: seq<string>, k: string): (r: seq<string>)
  {
    if s == [] then [k]
    else if LexLt(s[|s| - 1], k) then s + [k]
    else InsertSorted(s[..|s| - 1], k) + [s[|s| - 1]]
  }

  lemma {:induction false} InsertSortedProps(s: seq<string>, k: string)
    requires StrictlySorted(s) && k !in s
    ensures StrictlySorted(InsertSorted(s, k))
    ensures Elems(InsertSorted(s, k)) == Elems(s) + {k}
    ensures |InsertSorted(s, k)| == |s| + 1
  {
    if s != [] && !LexLt(s[|s| - 1], k) {
      var init, last := s[..|s| - 1], s[|s| - 1];
      assert s == init + [last];
      InsertSortedProps(init, k);
      var r := InsertSorted(init, k);
      LexLtTotal(k, last);
      forall i | 0 <= i < |r| ensures LexLt(r[i], last) {
        assert r[i] in Elems(r);
        if r[i] != k {
          var j :| 0 <= j < |init| && init[j] == r[i];
          assert s[j] == init[j];
        }
      }
      SortedSnoc(r, last);
      assert InsertSorted(s, k) == r + [last];
    } else if s != [] {
      var last := s[|s| - 1];
      forall i | 0 <= i < |s| ensures LexLt(s[i], k) {
        if i < |s| - 1 { LexLtTransitive(s[i], last, k); }
      }
      SortedSnoc(s, k);
    }
  }

  /** A name above every name of an ascending list extends it. */
  lemma SortedSnoc(s: seq<string>, x: string)
    requires StrictlySorted(s) && forall i :: 0 <= i < |s| ==> LexLt(s[i], x)
    ensures StrictlySorted(s + [x]) && Elems(s + [x]) == Elems(s) + {x}
  {
    forall i, j | 0 <= i < j < |s| + 1 ensures LexLt((s + [x])[i], (s + [x])[j]) {
      if j == |s| { assert (s + [x])[j] == x; }
    }
  }

  /** The names of a set in ascending order. */
  ghost function SortedFrom(keys: set<string>): (s: seq<string>)
    ensures StrictlySorted(s) && Elems(s) == keys && |s| == |keys|
    decreases keys
  {
    if keys == {} then []
    else
      var k :| k in keys;
      var rest := SortedFrom(keys - {k});
      InsertSortedProps(rest, k);
      InsertSorted(rest, k)
  }

  /** `buses.keys().sorted()`: the key set of the configuration map in ascending order. */
  method SortedKeys(configs: map<string, LeoConfig>) returns (names: seq<string>)
    ensures StrictlySorted(names)
    ensures Elems(names) == configs.Keys
    ensures |names| == |configs|
    ensures names == SortedFrom(configs.Keys)
  {
    names := [];
    var todo := configs.Keys;
    while todo != {}
      invariant todo <= configs.Keys
      invariant StrictlySorted(names)
      invariant Elems(names) == configs.Keys - todo
      invariant |names| + |todo| == |configs|
      decreases todo
    {
      var k :| k in todo;
      assert k !in Elems(names);
      InsertSortedProps(names, k);
      names := InsertSorted(names, k);
      todo := todo - {k};
    }
    SortedUnique(names, SortedFrom(configs.Keys));
  }

  /** Two ascending lists of the same names are the same list: the order of the configuration map does not matter. */
  lemma {:induction false} SortedUnique(a: seq<string>, b: seq<string>)
    requires StrictlySorted(a) && StrictlySorted(b)
    requires Elems(a) == Elems(b)
    ensures a == b
    decreases |a|
  {
    if a != [] { assert a[0] in Elems(a); }
    if b != [] { assert b[0] in Elems(b); }
    if a != [] && b != [] {
      var la, lb := a[|a| - 1], b[|b| - 1];
      assert la in Elems(b);
      assert lb in Elems(a);
      if la != lb {
        var i :| 0 <= i < |b| && b[i] == la;
        var j :| 0 <= j < |a| && a[j] == lb;
        if LexLt(la, lb) {
          LexLtAsymmetric(la, lb);
          LexLtIrreflexive(lb);
        } else {
          LexLtTotal(la, lb);
          LexLtAsymmetric(lb, la);
          LexLtIrreflexive(la);
        }
        assert false;
      }
      var ia, ib := a[..|a| - 1], b[..|b| - 1];
      forall x ensures x in ia <==> x in ib {
        if x in ia {
          var i :| 0 <= i < |ia| && ia[i] == x;
          assert LexLt(a[i], la);
          assert x in Elems(b);
          var j :| 0 <= j < |b| && b[j] == x;
          if j == |b| - 1 { LexLtIrreflexive(la); }
          assert ib[j] == x;
        }
        if x in ib {
          var i :| 0 <= i < |ib| && ib[i] == x;
          assert LexLt(b[i], lb);
          assert x in Elems(a);
          var j :| 0 <= j < |a| && a[j] == x;
          if j == |a| - 1 { LexLtIrreflexive(lb); }
          assert ia[j] == x;
        }
      }
      assert Elems(ia) == Elems(ib);
      SortedUnique(ia, ib);
      assert a == ia + [la] && b == ib + [lb];
    }
  }

  /** The page's state: the names, the selected entry and the scroll offset. */
  class BusSelectState {
    var buses: seq<string>
    var busSelectedIndex: nat
    var verticalScroll: nat

    /** `BusSelectState::new`: every configured bus, ascending, with the first selected and nothing scrolled. */
    constructor (configs: map<string, LeoConfig>)
      ensures StrictlySorted(buses) && Elems(buses) == configs.Keys && |buses| == |configs|
      ensures buses == SortedFrom(configs.Keys)
      ensures busSelectedIndex == 0 && verticalScroll == 0
    {
      var names := SortedKeys(configs);
      buses := names;
      busSelectedIndex := 0;
      verticalScroll := 0;
    }
  }
}
