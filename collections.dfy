/** Generic helpers shared by the comment store and the validators: an optional
    value, the filter behind every ORM query, and the single-row `get`. */
module Collections {

  /** A value that may be absent (Python's `None`). */
  datatype Option<+T> = None | Some(value: T)

  /** The rows of `s` that satisfy `p`, in their original order (`FilterAppend`). */
  function Filter<T(!new)>(s: seq<T>, p: T -> bool): (r: seq<T>)
    ensures |r| <= |s|
    ensures forall x :: x in r <==> x in s && p(x)
    ensures forall x :: multiset(r)[x] == if p(x) then multiset(s)[x] else 0
  {
    if s == [] then []
    else
      var rest := Filter(s[1..], p);
      assert s == [s[0]] + s[1..];
      if p(s[0]) then [s[0]] + rest else rest
  }

  lemma AppendAssociative<T>(a: seq<T>, b: seq<T>, c: seq<T>)
    ensures a + (b + c) == (a + b) + c
  {
  }

  /** Filtering a sequence is filtering its first row, then the rest. */
  lemma FilterCons<T(!new)>(x: T, s: seq<T>, p: T -> bool)
    ensures Filter([x] + s, p) == (if p(x) then [x] else []) + Filter(s, p)
  {
    assert ([x] + s)[1..] == s;
  }

  /** Filtering keeps the order of the rows: filtering a concatenation is
      concatenating the filtered parts. */
  lemma {:induction false} FilterAppend<T(!new)>(s: seq<T>, t: seq<T>, p: T -> bool)
    ensures Filter(s + t, p) == Filter(s, p) + Filter(t, p)
  {
    if s == [] {
      assert s + t == t;
    } else {
      var x, rest := s[0], s[1..];
      var head := if p(x) then [x] else [];
      assert s == [x] + rest;
      assert s + t == [x] + (rest + t);
      FilterCons(x, rest + t, p);
      FilterCons(x, rest, p);
      FilterAppend(rest, t, p);
      calc {
        Filter(s + t, p);
        Filter([x] + (rest + t), p);
        head + Filter(rest + t, p);
        head + (Filter(rest, p) + Filter(t, p));
        { AppendAssociative(head, Filter(rest, p), Filter(t, p)); }
        (head + Filter(rest, p)) + Filter(t, p);
        Filter([x] + rest, p) + Filter(t, p);
      }
    }
  }

  /** Two sequences whose rows agree position by position on `p` keep the same
      number of rows. */
  lemma {:induction false} FilterSameLength<T(!new)>(a: seq<T>, b: seq<T>, p: T -> bool)
    requires |a| == |b|
    requires forall i :: 0 <= i < |a| ==> p(a[i]) == p(b[i])
    ensures |Filter(a, p)| == |Filter(b, p)|
  {
    if a != [] {
      assert forall i :: 0 <= i < |a[1..]| ==> p(a[1..][i]) == p(b[1..][i]) by {
        forall i | 0 <= i < |a[1..]| ensures p(a[1..][i]) == p(b[1..][i]) {
          assert a[1..][i] == a[i + 1] && b[1..][i] == b[i + 1];
        }
      }
      FilterSameLength(a[1..], b[1..], p);
    }
  }

  /** Outcome of a single-row lookup: no row, exactly one row, or several rows. */
  datatype Lookup<T> = DoesNotExist | Found(value: T) | MultipleObjectsReturned

  /** The ORM's `objects.get(...)`: the one row satisfying `p`, if there is exactly one. */
  function Get<T(!new)>(s: seq<T>, p: T -> bool): (r: Lookup<T>)
    ensures r.DoesNotExist? <==> forall x :: x in s ==> !p(x)
    ensures r.Found? ==> r.value in s && p(r.value) && |Filter(s, p)| == 1
    ensures r.Found? ==> forall x :: x in s && p(x) ==> x == r.value
    ensures r.MultipleObjectsReturned? <==> |Filter(s, p)| > 1
  {
    var m := Filter(s, p);
    if |m| == 0 then DoesNotExist
    else if |m| == 1 then
      assert m[0] in m;
      Found(m[0])
    else MultipleObjectsReturned
  }

  /** When no two rows both satisfy `p`, filtering keeps at most one row, so a
      `get` cannot report several. */
  lemma {:induction false} FilterAtMostOne<T(!new)>(s: seq<T>, p: T -> bool)
    requires forall i, j :: 0 <= i < j < |s| ==> !(p(s[i]) && p(s[j]))
    ensures |Filter(s, p)| <= 1
  {
    if s != [] {
      var t := s[1..];
      assert forall i, j :: 0 <= i < j < |t| ==> !(p(t[i]) && p(t[j])) by {
        forall i, j | 0 <= i < j < |t| ensures !(p(t[i]) && p(t[j])) {
          assert t[i] == s[i + 1] && t[j] == s[j + 1];
        }
      }
      FilterAtMostOne(t, p);
      if p(s[0]) {
        forall x | x in t ensures !p(x) {
          var j :| 0 <= j < |t| && t[j] == x;
          assert s[j + 1] == x;
        }
        if Filter(t, p) != [] {
          assert Filter(t, p)[0] in Filter(t, p);
        }
      }
    }
  }
}
