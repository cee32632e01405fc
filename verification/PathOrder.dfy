/** Paths in the order Python sorts them, and lists of records kept strictly sorted by path. */
module PathOrder {
  /** Strict lexicographic order by code point. */
  predicate Less(a: string, b: string) {
    if b == [] then false
    else if a == [] then true
    else a[0] < b[0] || (a[0] == b[0] && Less(a[1..], b[1..]))
  }

  /** Alike up to some point, where the first ends or has the smaller character. */
  ghost predicate DiffersAt(a: string, b: string, i: nat) {
    i <= |a| && i < |b| && a[..i] == b[..i] && (i < |a| ==> a[i] < b[i])
  }

  lemma {:induction false} LessIff(a: string, b: string)
    ensures Less(a, b) <==> exists i: nat :: DiffersAt(a, b, i)
  {
    if a != [] && b != [] && a[0] == b[0] {
      LessIff(a[1..], b[1..]);
      if i: nat :| DiffersAt(a[1..], b[1..], i) {
        assert a[..i + 1] == [a[0]] + a[1..][..i] && b[..i + 1] == [b[0]] + b[1..][..i];
        assert DiffersAt(a, b, i + 1);
      }
      if i: nat :| DiffersAt(a, b, i) {
        assert i > 0;
        assert a[1..][..i - 1] == a[..i][1..] && b[1..][..i - 1] == b[..i][1..];
        assert DiffersAt(a[1..], b[1..], i - 1);
      }
    } else if b != [] && (a == [] || a[0] < b[0]) {
      assert DiffersAt(a, b, 0);
    } else {
      forall i: nat ensures !DiffersAt(a, b, i) {
        if i > 0 && i <= |a| && i < |b| { assert a[..i][0] == a[0] && b[..i][0] == b[0]; }
      }
    }
  }

  lemma {:induction false} LessIsStrict(a: string)
    ensures !Less(a, a)
  {
    if a != [] { LessIsStrict(a[1..]); }
  }

  lemma {:induction false} LessIsTransitive(a: string, b: string, c: string)
    requires Less(a, b) && Less(b, c)
    ensures Less(a, c)
  {
    if a != [] && a[0] == b[0] == c[0] { LessIsTransitive(a[1..], b[1..], c[1..]); }
  }

  lemma {:induction false} LessIsTotal(a: string, b: string)
    ensures Less(a, b) || a == b || Less(b, a)
  {
    if a != [] && b != [] && a[0] == b[0] {
      LessIsTotal(a[1..], b[1..]);
      assert a == [a[0]] + a[1..] && b == [b[0]] + b[1..];
    }
  }

  datatype Keyed<T> = Keyed(path: string, value: T)

  ghost predicate Strict<T>(s: seq<Keyed<T>>) {
    forall i, j | 0 <= i < j < |s| :: Less(s[i].path, s[j].path)
  }

  /** One place in the list, found by path. */
  function Insert<T>(x: Keyed<T>, s: seq<Keyed<T>>): seq<Keyed<T>> {
    if s == [] || !Less(s[0].path, x.path) then [x] + s else [s[0]] + Insert(x, s[1..])
  }

  /** The stable sort by path. */
  function Sort<T>(s: seq<Keyed<T>>): seq<Keyed<T>> {
    if s == [] then [] else Insert(s[0], Sort(s[1..]))
  }

  lemma {:induction false} InsertKeepsContents<T>(x: Keyed<T>, s: seq<Keyed<T>>)
    ensures multiset(Insert(x, s)) == multiset(s) + multiset{x}
  {
    if s == [] || !Less(s[0].path, x.path) {
    } else {
      InsertKeepsContents(x, s[1..]);
      assert s == [s[0]] + s[1..];
    }
  }

  lemma {:induction false} SortPermutes<T>(s: seq<Keyed<T>>)
    ensures multiset(Sort(s)) == multiset(s)
  {
    if s != [] {
      SortPermutes(s[1..]);
      InsertKeepsContents(s[0], Sort(s[1..]));
      assert s == [s[0]] + s[1..];
    }
  }

  lemma {:induction false} InsertKeepsStrict<T>(x: Keyed<T>, s: seq<Keyed<T>>)
    requires Strict(s) && forall i | 0 <= i < |s| :: s[i].path != x.path
    ensures Strict(Insert(x, s))
  {
    if s == [] {
    } else if Less(s[0].path, x.path) {
      var t := Insert(x, s[1..]);
      InsertKeepsStrict(x, s[1..]);
      InsertKeepsContents(x, s[1..]);
      forall i | 0 <= i < |t| ensures Less(s[0].path, t[i].path) {
        assert t[i] in multiset(t);
        assert t[i] == x || t[i] in s[1..];
      }
    } else {
      LessIsTotal(s[0].path, x.path);
      forall i | 0 < i < |s| ensures Less(x.path, s[i].path) {
        LessIsTransitive(x.path, s[0].path, s[i].path);
      }
    }
  }

  ghost predicate Distinct<T>(s: seq<Keyed<T>>) {
    forall i, j | 0 <= i < j < |s| :: s[i].path != s[j].path
  }

  /** With distinct paths the sort leaves them strictly rising. */
  lemma {:induction false} SortIsStrict<T>(s: seq<Keyed<T>>)
    requires Distinct(s)
    ensures Strict(Sort(s))
  {
    if s != [] {
      var rest := Sort(s[1..]);
      SortIsStrict(s[1..]);
      SortPermutes(s[1..]);
      forall i | 0 <= i < |rest| ensures rest[i].path != s[0].path {
        assert rest[i] in multiset(rest);
        assert rest[i] in s[1..];
      }
      InsertKeepsStrict(s[0], rest);
    }
  }

  lemma StrictIsDistinct<T>(s: seq<Keyed<T>>)
    requires Strict(s)
    ensures Distinct(s)
  {
    forall i, j | 0 <= i < j < |s| ensures s[i].path != s[j].path {
      LessIsStrict(s[i].path);
    }
  }

  /** A strictly sorted list is determined by its elements. */
  lemma {:induction false} StrictIsUnique<T>(a: seq<Keyed<T>>, b: seq<Keyed<T>>)
    requires Strict(a) && Strict(b) && forall x :: x in a <==> x in b
    ensures a == b
  {
    HasMember(a, b);
    if a != [] {
      assert a[0] in b;
      SameHead(a, b);
      forall x ensures x in a[1..] <==> x in b[1..] {
        TailMembers(a, x);
        TailMembers(b, x);
      }
      StrictIsUnique(a[1..], b[1..]);
    }
  }

  lemma HasMember<T>(a: seq<Keyed<T>>, b: seq<Keyed<T>>)
    requires forall x :: x in b ==> x in a
    ensures b != [] ==> a != []
  {
    if b != [] { assert b[0] in a; }
  }

  lemma SameHead<T>(a: seq<Keyed<T>>, b: seq<Keyed<T>>)
    requires Strict(a) && Strict(b) && a != [] && b != [] && a[0] in b && b[0] in a
    ensures a[0] == b[0]
  {
    if a[0] != b[0] {
      var i :| 0 <= i < |b| && b[i] == a[0];
      var j :| 0 <= j < |a| && a[j] == b[0];
      LessIsTransitive(a[0].path, b[0].path, a[0].path);
      LessIsStrict(a[0].path);
    }
  }

  lemma TailMembers<T>(s: seq<Keyed<T>>, x: Keyed<T>)
    requires Strict(s) && s != []
    ensures x in s[1..] <==> x in s && x != s[0]
  {
    StrictIsDistinct(s);
    if x in s && x != s[0] {
      var i :| 0 <= i < |s| && s[i] == x;
      assert s[1..][i - 1] == x;
    }
  }
}
