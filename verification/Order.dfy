/** The bytewise order Go gives strings, and the one sorted list a set of names has. */
module Order {

  predicate Less(a: string, b: string) {
    if b == [] then false
    else if a == [] then true
    else a[0] < b[0] || (a[0] == b[0] && Less(a[1..], b[1..]))
  }

  lemma Irreflexive(a: string)
    ensures !Less(a, a)
  {
  }

  lemma Transitive(a: string, b: string, c: string)
    requires Less(a, b) && Less(b, c)
    ensures Less(a, c)
  {
  }

  lemma Total(a: string, b: string)
    ensures a == b || Less(a, b) || Less(b, a)
  {
    if a != [] && b != [] && a[0] == b[0] {
      Total(a[1..], b[1..]);
      assert a == [a[0]] + a[1..] && b == [b[0]] + b[1..];
    }
  }

  predicate Least(m: string, names: set<string>) {
    m in names && forall n :: n in names ==> n == m || Less(m, n)
  }

  lemma LeastExists(names: set<string>) returns (m: string)
    requires names != {}
    ensures Least(m, names)
  {
    m :| m in names;
    if names != {m} {
      var rest := LeastExists(names - {m});
      Total(m, rest);
      if Less(rest, m) {
        m := rest;
      } else {
        forall n | n in names ensures n == m || Less(m, n) {
          if n != m && n != rest {
            Transitive(m, rest, n);
          }
        }
      }
    }
  }

  lemma LeastIsUnique(a: string, b: string, names: set<string>)
    requires Least(a, names) && Least(b, names)
    ensures a == b
  {
    if a != b {
      Transitive(a, b, a);
      Irreflexive(a);
    }
  }

  ghost predicate Sorted(names: seq<string>) {
    forall i, j :: 0 <= i < j < |names| ==> Less(names[i], names[j])
  }

  /** The one increasing list of a set of names. */
  ghost function Listed(names: set<string>): (list: seq<string>)
    ensures forall n :: n in list <==> n in names
    ensures Sorted(list)
    ensures |list| == |names|
  {
    if names == {} then []
    else
      assert exists m :: Least(m, names) by { var m := LeastExists(names); }
      var m :| Least(m, names);
      [m] + Listed(names - {m})
  }

  lemma HeadIsLeast(list: seq<string>, names: set<string>)
    requires Sorted(list) && list != [] && forall n :: n in list <==> n in names
    ensures Least(list[0], names)
  {
    forall n | n in names ensures n == list[0] || Less(list[0], n) {
      var k :| 0 <= k < |list| && list[k] == n;
    }
  }

  lemma TailNamesTheRest(list: seq<string>, names: set<string>)
    requires Sorted(list) && list != [] && forall n :: n in list <==> n in names
    ensures forall n :: n in list[1..] <==> n in names - {list[0]}
    ensures Sorted(list[1..])
  {
    Irreflexive(list[0]);
    forall k | 0 <= k < |list[1..]| ensures list[1..][k] in names - {list[0]} {
      assert list[1..][k] == list[k + 1] && list[k + 1] in list;
    }
    forall n | n in names - {list[0]} ensures n in list[1..] {
      var k :| 0 <= k < |list| && list[k] == n;
      assert list[1..][k - 1] == n;
    }
  }

  /** A sorted list is the list of its own elements, so two of them never differ. */
  lemma {:induction false} SortedIsListed(list: seq<string>, names: set<string>)
    requires Sorted(list)
    requires forall n :: n in list <==> n in names
    ensures list == Listed(names)
    decreases |list|
  {
    if list == [] {
      assert forall n :: n in names ==> n in list;
      assert names == {};
    } else {
      HeadIsLeast(list, names);
      TailNamesTheRest(list, names);
      SortedIsListed(list[1..], names - {list[0]});
      ListedOpens(names, list[0]);
      assert list == [list[0]] + list[1..];
    }
  }

  lemma ListedOpens(names: set<string>, m: string)
    requires Least(m, names)
    ensures Listed(names) == [m] + Listed(names - {m})
  {
    forall n | Least(n, names) ensures n == m {
      LeastIsUnique(n, m, names);
    }
  }
}
