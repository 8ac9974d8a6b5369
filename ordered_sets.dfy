/** Insertion-ordered collections without repetition: the behaviour of a
    JavaScript `Set` (and of an object's own keys) as `Array.from` or
    `for…in` exposes it.  `add` of a present member and `delete` of an absent
    one change nothing; deletion keeps the order of the others. */
module OrderedSets {

  predicate Distinct<T(==)>(s: seq<T>) {
    forall i, j :: 0 <= i < j < |s| ==> s[i] != s[j]
  }

  /** `set.add(x)`. */
  function Include<T(==)>(s: seq<T>, x: T): (r: seq<T>)
    ensures x in r
    ensures Distinct(s) ==> Distinct(r)
    ensures x in s ==> r == s
    ensures x !in s ==> r == s + [x]
  {
    if x in s then s else s + [x]
  }

  /** `set.delete(x)`. */
  function Exclude<T(==)>(s: seq<T>, x: T): (r: seq<T>)
    ensures |r| <= |s|
  {
    if s == [] then []
    else if s[0] == x then Exclude(s[1..], x)
    else [s[0]] + Exclude(s[1..], x)
  }

  lemma {:induction false} DistinctTail<T>(s: seq<T>)
    requires Distinct(s) && s != []
    ensures Distinct(s[1..]) && s[0] !in s[1..]
  {
    forall i, j | 0 <= i < j < |s[1..]|
      ensures s[1..][i] != s[1..][j]
    {
      assert s[1..][i] == s[i + 1] && s[1..][j] == s[j + 1];
    }
    forall j | 0 <= j < |s[1..]|
      ensures s[1..][j] != s[0]
    {
      assert s[1..][j] == s[j + 1];
    }
  }

  /** Deletion keeps exactly the other members. */
  lemma {:induction false} ExcludeMembers<T>(s: seq<T>, x: T)
    ensures forall y :: y in Exclude(s, x) <==> y in s && y != x
  {
    if s != [] {
      ExcludeMembers(s[1..], x);
      assert forall y :: y in s <==> y == s[0] || y in s[1..];
    }
  }

  /** A member left after deletion was a member before. */
  lemma ExcludeMemberFrom<T>(s: seq<T>, x: T, y: T)
    requires y in Exclude(s, x)
    ensures y in s && y != x
  {
    ExcludeMembers(s, x);
  }

  /** Deleting an absent member changes nothing. */
  lemma {:induction false} ExcludeAbsent<T>(s: seq<T>, x: T)
    requires x !in s
    ensures Exclude(s, x) == s
  {
    if s != [] {
      ExcludeAbsent(s[1..], x);
    }
  }

  /** Deletion keeps the members distinct. */
  lemma {:induction false} DistinctExclude<T>(s: seq<T>, x: T)
    requires Distinct(s)
    ensures Distinct(Exclude(s, x))
  {
    if s != [] {
      DistinctTail(s);
      DistinctExclude(s[1..], x);
      ExcludeMembers(s[1..], x);
      var r := Exclude(s[1..], x);
      if s[0] != x {
        assert s[0] !in r;
        forall i, j | 0 <= i < j < |[s[0]] + r|
          ensures ([s[0]] + r)[i] != ([s[0]] + r)[j]
        {
          if i == 0 {
            assert ([s[0]] + r)[j] == r[j - 1];
          } else {
            assert ([s[0]] + r)[i] == r[i - 1] && ([s[0]] + r)[j] == r[j - 1];
          }
        }
      }
    }
  }

  /** Deletion keeps the order of the others: deleting from a concatenation
      deletes from each part and keeps the parts in order. */
  lemma {:induction false} ExcludeAppend<T>(s: seq<T>, t: seq<T>, x: T)
    ensures Exclude(s + t, x) == Exclude(s, x) + Exclude(t, x)
  {
    if s == [] {
      assert s + t == t;
    } else {
      assert (s + t)[0] == s[0] && (s + t)[1..] == s[1..] + t;
      ExcludeAppend(s[1..], t, x);
    }
  }

  /** … so walking the sequence from the front, each member other than x
      is kept, in its place after the ones before it. */
  lemma ExcludeSnoc<T>(s: seq<T>, y: T, x: T)
    ensures Exclude(s + [y], x) == Exclude(s, x) + (if y == x then [] else [y])
  {
    ExcludeAppend(s, [y], x);
    assert Exclude([y], x) == (if y == x then [] else [y] + Exclude([y][1..], x));
  }

  /** Deleting another member leaves the first one in front. */
  lemma ExcludeKeepsHead<T>(s: seq<T>, x: T)
    requires s != [] && s[0] != x
    ensures Exclude(s, x) != [] && Exclude(s, x)[0] == s[0]
  {
  }

  /** Adding a new member and deleting it again restores the collection. */
  lemma {:induction false} ExcludeUndoesInclude<T>(s: seq<T>, x: T)
    requires x !in s
    ensures Exclude(Include(s, x), x) == s
  {
    if s == [] {
      assert Exclude([x], x) == Exclude([x][1..], x);
    } else {
      var t := s + [x];
      assert t[0] == s[0] && t[1..] == s[1..] + [x];
      ExcludeUndoesInclude(s[1..], x);
      assert Exclude(t, x) == [s[0]] + Exclude(t[1..], x);
      assert [s[0]] + s[1..] == s;
    }
  }
}
