/** Formation records as the Python program holds them: dictionaries shared by
    reference between the fetched snapshot and every list built from it. A list
    comprehension that keeps some of them is modelled by KeepWhere. */
module Records {
  import opened Json

  /** One formation dictionary. Only the distance stage writes to it. */
  class Formation {
    var fields: Record
  }

  /** The records behind a list of formations, read in the current heap. */
  function Fields(fs: seq<Formation>): (rs: seq<Record>)
    reads fs
    ensures |rs| == |fs|
    ensures forall i :: 0 <= i < |fs| ==> rs[i] == fs[i].fields
  {
    seq(|fs|, i requires 0 <= i < |fs| reads fs => fs[i].fields)
  }

  /** `[f for f in fs if p(f)]`, where `rs[i]` is the record held by `fs[i]`. */
  function KeepWhere(fs: seq<Formation>, rs: seq<Record>, p: Record -> bool): (kept: seq<Formation>)
    requires |rs| == |fs|
    ensures |kept| <= |fs|
    ensures forall f :: f in kept ==> f in fs
  {
    if fs == [] then []
    else (if p(rs[0]) then [fs[0]] else []) + KeepWhere(fs[1..], rs[1..], p)
  }

  /** `a` is `b` with some elements left out, the others in their original order. */
  predicate IsSubsequence<T(==)>(a: seq<T>, b: seq<T>)
    decreases |b|
  {
    if a == [] then true
    else if b == [] then false
    else if a[0] == b[0] then IsSubsequence(a[1..], b[1..])
    else IsSubsequence(a, b[1..])
  }

  lemma {:induction false} SubsequenceOfTail<T>(a: seq<T>, b: seq<T>)
    requires b != [] && IsSubsequence(a, b[1..])
    ensures IsSubsequence(a, b)
    decreases |b|, |a|
  {
    if a != [] && a[0] == b[0] {
      SubsequenceDropHead(a, b[1..]);
    }
  }

  lemma {:induction false} SubsequenceDropHead<T>(a: seq<T>, b: seq<T>)
    requires a != [] && IsSubsequence(a, b)
    ensures IsSubsequence(a[1..], b)
    decreases |b|, |a|
  {
    if a[0] == b[0] {
      if a[1..] != [] {
        SubsequenceOfTail(a[1..], b);
      }
    } else {
      SubsequenceDropHead(a, b[1..]);
      SubsequenceOfTail(a[1..], b);
    }
  }

  /** Every list is a subsequence of itself. */
  lemma {:induction false} SubsequenceReflexive<T>(a: seq<T>)
    ensures IsSubsequence(a, a)
    decreases |a|
  {
    if a != [] {
      SubsequenceReflexive(a[1..]);
    }
  }

  /** A subsequence of a subsequence of `c` is a subsequence of `c`. */
  lemma {:induction false} SubsequenceTransitive<T>(a: seq<T>, b: seq<T>, c: seq<T>)
    requires IsSubsequence(a, b) && IsSubsequence(b, c)
    ensures IsSubsequence(a, c)
    decreases |c|
  {
    if a != [] {
      if b[0] == c[0] {
        if a[0] == b[0] {
          SubsequenceTransitive(a[1..], b[1..], c[1..]);
        } else {
          SubsequenceTransitive(a, b[1..], c[1..]);
          SubsequenceOfTail(a, c);
        }
      } else {
        SubsequenceTransitive(a, b, c[1..]);
        SubsequenceOfTail(a, c);
      }
    }
  }

  /** Keeping some records never reorders them. */
  lemma {:induction false} KeepWhereIsSubsequence(fs: seq<Formation>, rs: seq<Record>, p: Record -> bool)
    requires |rs| == |fs|
    ensures IsSubsequence(KeepWhere(fs, rs, p), fs)
    decreases |fs|
  {
    if fs != [] {
      KeepWhereIsSubsequence(fs[1..], rs[1..], p);
      var rest := KeepWhere(fs[1..], rs[1..], p);
      if p(rs[0]) {
        assert KeepWhere(fs, rs, p) == [fs[0]] + rest;
        assert ([fs[0]] + rest)[1..] == rest;
      } else {
        assert KeepWhere(fs, rs, p) == rest;
        SubsequenceOfTail(rest, fs);
      }
    }
  }

  /** A formation is kept exactly when one of its positions satisfies `p`. */
  lemma {:induction false} KeepWhereMembership(fs: seq<Formation>, rs: seq<Record>, p: Record -> bool, f: Formation)
    requires |rs| == |fs|
    ensures f in KeepWhere(fs, rs, p) <==> exists i :: 0 <= i < |fs| && fs[i] == f && p(rs[i])
    decreases |fs|
  {
    if fs != [] {
      KeepWhereMembership(fs[1..], rs[1..], p, f);
      if exists i :: 0 <= i < |fs| - 1 && fs[1..][i] == f && p(rs[1..][i]) {
        var i :| 0 <= i < |fs| - 1 && fs[1..][i] == f && p(rs[1..][i]);
        assert fs[i + 1] == f && p(rs[i + 1]);
      }
      if i :| 0 <= i < |fs| && fs[i] == f && p(rs[i]) {
        if i > 0 {
          assert fs[1..][i - 1] == f && p(rs[1..][i - 1]);
        }
      }
    }
  }

  /** Formations whose every occurrence carries `r` are kept as often as they
      occur when `p(r)` holds, and not at all otherwise: equal records are
      never merged. */
  lemma {:induction false} KeepWhereMultiplicity(fs: seq<Formation>, rs: seq<Record>, p: Record -> bool, f: Formation, r: Record)
    requires |rs| == |fs|
    requires forall i :: 0 <= i < |fs| && fs[i] == f ==> rs[i] == r
    ensures multiset(KeepWhere(fs, rs, p))[f] == if p(r) then multiset(fs)[f] else 0
    decreases |fs|
  {
    if fs != [] {
      assert forall i :: 0 <= i < |fs| - 1 && fs[1..][i] == f ==> rs[1..][i] == r by {
        forall i | 0 <= i < |fs| - 1 && fs[1..][i] == f
          ensures rs[1..][i] == r
        {
          assert fs[i + 1] == f;
        }
      }
      KeepWhereMultiplicity(fs[1..], rs[1..], p, f, r);
      assert fs == [fs[0]] + fs[1..];
      assert multiset(fs) == multiset([fs[0]]) + multiset(fs[1..]);
    }
  }

  /** When every record satisfies `p`, nothing is dropped. */
  lemma {:induction false} KeepWhereAll(fs: seq<Formation>, rs: seq<Record>, p: Record -> bool)
    requires |rs| == |fs|
    requires forall i :: 0 <= i < |rs| ==> p(rs[i])
    ensures KeepWhere(fs, rs, p) == fs
    decreases |fs|
  {
    if fs != [] {
      KeepWhereAll(fs[1..], rs[1..], p);
      assert fs == [fs[0]] + fs[1..];
    }
  }

  /** Nothing is kept exactly when no record satisfies `p`. */
  lemma {:induction false} KeepWhereNone(fs: seq<Formation>, rs: seq<Record>, p: Record -> bool)
    requires |rs| == |fs|
    ensures KeepWhere(fs, rs, p) == [] <==> forall i :: 0 <= i < |rs| ==> !p(rs[i])
    decreases |fs|
  {
    if fs != [] {
      KeepWhereNone(fs[1..], rs[1..], p);
      if forall i :: 0 <= i < |rs| - 1 ==> !p(rs[1..][i]) {
        forall i | 1 <= i < |rs| ensures !p(rs[i]) {
          assert rs[i] == rs[1..][i - 1];
        }
      }
    }
  }

  /** Extending the input by one record extends the kept list by that record
      exactly when it satisfies `p`; this is how a loop builds the list. */
  lemma {:induction false} KeepWhereSnoc(fs: seq<Formation>, rs: seq<Record>, p: Record -> bool, f: Formation, r: Record)
    requires |rs| == |fs|
    ensures KeepWhere(fs + [f], rs + [r], p) == KeepWhere(fs, rs, p) + (if p(r) then [f] else [])
    decreases |fs|
  {
    if fs != [] {
      assert (fs + [f])[1..] == fs[1..] + [f];
      assert (rs + [r])[1..] == rs[1..] + [r];
      KeepWhereSnoc(fs[1..], rs[1..], p, f, r);
    }
  }
}
