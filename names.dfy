/**
  Entity names. Stimuli and areas compare and order by name only, with
  std::string's operator<: character by character, a proper prefix first.
  That order decides the iteration order of every map keyed by an entity
  and the tie-break of read_assembly.
 */
module Names {

  /** std::string's operator< */
  predicate NameLess(a: string, b: string)
  {
    if a == [] then b != []
    else if b == [] then false
    else a[0] < b[0] || (a[0] == b[0] && NameLess(a[1..], b[1..]))
  }

  lemma {:induction false} NameLessIrreflexive(a: string)
    ensures !NameLess(a, a)
  {
    if a != [] {
      NameLessIrreflexive(a[1..]);
    }
  }

  lemma {:induction false} NameLessAsymmetric(a: string, b: string)
    requires NameLess(a, b)
    ensures !NameLess(b, a)
  {
    if a != [] && b != [] && a[0] == b[0] {
      NameLessAsymmetric(a[1..], b[1..]);
    }
  }

  lemma {:induction false} NameLessTransitive(a: string, b: string, c: string)
    requires NameLess(a, b) && NameLess(b, c)
    ensures NameLess(a, c)
  {
    if a != [] && b != [] && c != [] && a[0] == b[0] && b[0] == c[0] {
      NameLessTransitive(a[1..], b[1..], c[1..]);
    }
  }

  /** Two distinct names are always ordered one way or the other. */
  lemma {:induction false} NameLessTotal(a: string, b: string)
    requires a != b
    ensures NameLess(a, b) || NameLess(b, a)
  {
    if a != [] && b != [] && a[0] == b[0] {
      assert a == [a[0]] + a[1..] && b == [b[0]] + b[1..];
      NameLessTotal(a[1..], b[1..]);
    }
  }

  /** Strictly ascending by name: what std::sort then std::unique leave. */
  predicate NamesAscending(s: seq<string>)
  {
    forall i, j :: 0 <= i < j < |s| ==> NameLess(s[i], s[j])
  }

  /** Add x to an ascending name list, keeping it ascending and free of repeats. */
  function Insert(s: seq<string>, x: string): seq<string>
    decreases |s|
  {
    if s == [] then [x]
    else if x == s[0] then s
    else if NameLess(x, s[0]) then [x] + s
    else [s[0]] + Insert(s[1..], x)
  }

  lemma {:induction false} InsertAscending(s: seq<string>, x: string)
    requires NamesAscending(s)
    ensures NamesAscending(Insert(s, x))
    ensures forall y :: y in Insert(s, x) <==> y in s || y == x
    decreases |s|
  {
    if s == [] {
    } else if x == s[0] {
    } else if NameLess(x, s[0]) {
      var r := [x] + s;
      forall i, j | 0 <= i < j < |r|
        ensures NameLess(r[i], r[j])
      {
        if i == 0 && j > 1 {
          NameLessTransitive(x, s[0], s[j - 1]);
        }
      }
    } else {
      var tail := s[1..];
      assert NamesAscending(tail) by {
        forall i, j | 0 <= i < j < |tail|
          ensures NameLess(tail[i], tail[j])
        {
          assert tail[i] == s[i + 1] && tail[j] == s[j + 1];
        }
      }
      InsertAscending(tail, x);
      NameLessTotal(x, s[0]);
      var rest := Insert(tail, x);
      var r := [s[0]] + rest;
      forall i, j | 0 <= i < j < |r|
        ensures NameLess(r[i], r[j])
      {
        if i == 0 {
          assert r[j] in rest;
          assert r[j] in tail || r[j] == x;
          if r[j] in tail {
            var m :| 0 <= m < |tail| && tail[m] == r[j];
            assert s[m + 1] == r[j];
          }
        } else {
          assert r[i] == rest[i - 1] && r[j] == rest[j - 1];
        }
      }
      assert Insert(s, x) == r;
    }
  }
}

