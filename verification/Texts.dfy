/** Results, string cutting and the sorted name order shared by every module. */
module Texts {
  datatype Option<+T> = None | Some(value: T)

  datatype Result<+T, +E> = Ok(value: T) | Err(error: E)

  predicate HasPrefix(s: string, prefix: string) {
    prefix <= s
  }

  // strings.TrimRight(s, cut)
  function TrimRight(s: string, cut: set<char>): (r: string)
    ensures r <= s
    ensures r == [] || r[|r| - 1] !in cut
    ensures forall i | |r| <= i < |s| :: s[i] in cut
  {
    if s == [] || s[|s| - 1] !in cut then s else TrimRight(s[..|s| - 1], cut)
  }

  // strings.TrimLeft(s, cut)
  function TrimLeft(s: string, cut: set<char>): (r: string)
    ensures |r| <= |s| && r == s[|s| - |r|..]
    ensures r == [] || r[0] !in cut
    ensures forall i | 0 <= i < |s| - |r| :: s[i] in cut
  {
    if s == [] || s[0] !in cut then s else TrimLeft(s[1..], cut)
  }

  // The two halves around the first occurrence of sep, as strings.Cut returns them.
  function Cut(s: string, sep: char): (r: Option<(string, string)>)
    ensures r.None? <==> sep !in s
    ensures r.Some? ==> sep !in r.value.0 && s == r.value.0 + [sep] + r.value.1
  {
    if s == [] then None
    else if s[0] == sep then Some(([], s[1..]))
    else
      match Cut(s[1..], sep)
      case None => None
      case Some(halves) => Some(([s[0]] + halves.0, halves.1))
  }

  // A split at the first separator is the only one whose left half is free of it.
  lemma {:induction false} CutUnique(s: string, sep: char, left: string, right: string)
    requires s == left + [sep] + right && sep !in left
    ensures Cut(s, sep) == Some((left, right))
  {
    var halves := Cut(s, sep).value;
    assert s[|left|] == sep && s[|halves.0|] == sep;
    assert forall i | 0 <= i < |left| :: s[i] == left[i] && left[i] != sep;
    assert forall i | 0 <= i < |halves.0| :: s[i] == halves.0[i] && halves.0[i] != sep;
    assert left == s[..|left|] && right == s[|left| + 1..];
    assert halves.0 == s[..|left|] && halves.1 == s[|left| + 1..];
  }

  // Byte order on strings, the order sort.Strings uses.
  predicate Less(a: string, b: string) {
    b != [] && (a == [] || a[0] < b[0] || (a[0] == b[0] && Less(a[1..], b[1..])))
  }

  lemma LessTotal(a: string, b: string)
    ensures Less(a, b) || a == b || Less(b, a)
    ensures !(Less(a, b) && Less(b, a))
    ensures !Less(a, a)
  {}

  lemma LessTransitive(a: string, b: string, c: string)
    requires Less(a, b) && Less(b, c)
    ensures Less(a, c)
  {}

  ghost predicate Ascending(names: seq<string>) {
    forall i, j | 0 <= i < j < |names| :: Less(names[i], names[j])
  }

  ghost predicate Lists(names: seq<string>, s: set<string>) {
    Ascending(names) && forall x :: x in names <==> x in s
  }

  // A set of names has one ascending listing, so sorting erases the order in
  // which a map handed its keys over.
  lemma {:induction false} ListingUnique(p: seq<string>, q: seq<string>, s: set<string>)
    requires Lists(p, s) && Lists(q, s)
    ensures p == q
    decreases |p|
  {
    assert p == [] <==> s == {} by {
      assert p != [] ==> p[0] in p;
    }
    assert q == [] <==> s == {} by {
      assert q != [] ==> q[0] in q;
    }
    if p != [] {
      assert p[0] == q[0] by {
        assert p[0] in q && q[0] in p;
        var i :| 0 <= i < |q| && q[i] == p[0];
        var j :| 0 <= j < |p| && p[j] == q[0];
        LessTotal(p[0], q[0]);
      }
      var rest := s - {p[0]};
      ListingTail(p, s);
      ListingTail(q, s);
      ListingUnique(p[1..], q[1..], rest);
      assert p == [p[0]] + p[1..] && q == [q[0]] + q[1..];
    }
  }

  lemma ListingTail(p: seq<string>, s: set<string>)
    requires Lists(p, s) && p != []
    ensures Lists(p[1..], s - {p[0]})
  {
    LessTotal(p[0], p[0]);
    forall x
      ensures x in p[1..] <==> x in s - {p[0]}
    {
      assert x in p <==> x == p[0] || x in p[1..];
      if x in p[1..] {
        var i :| 0 <= i < |p[1..]| && p[1..][i] == x;
        assert Less(p[0], p[i + 1]);
      }
    }
  }

  lemma {:induction false} ListingSize(names: seq<string>, s: set<string>)
    requires Lists(names, s)
    ensures |names| == |s|
    decreases |names|
  {
    if names == [] {
      assert s == {};
    } else {
      ListingTail(names, s);
      ListingSize(names[1..], s - {names[0]});
      assert names[0] in s;
    }
  }

  // sort.Strings on a duplicate-free slice, one insertion at a time.
  function Insert(x: string, names: seq<string>): (r: seq<string>)
    requires Ascending(names) && x !in names
    ensures Ascending(r)
    ensures forall y :: y in r <==> y == x || y in names
  {
    if names == [] then [x]
    else if Less(x, names[0]) then
      assert forall j | 0 <= j < |names| :: Less(x, names[j]) by {
        forall j | 0 < j < |names|
          ensures Less(x, names[j])
        {
          LessTransitive(x, names[0], names[j]);
        }
      }
      [x] + names
    else
      LessTotal(x, names[0]);
      assert names == [names[0]] + names[1..];
      var rest := Insert(x, names[1..]);
      assert forall j | 0 <= j < |rest| :: Less(names[0], rest[j]) by {
        forall j | 0 <= j < |rest|
          ensures Less(names[0], rest[j])
        {
          assert rest[j] == x || rest[j] in names[1..];
        }
      }
      [names[0]] + rest
  }

  function Sort(names: seq<string>): (r: seq<string>)
    requires forall i, j | 0 <= i < j < |names| :: names[i] != names[j]
    ensures Lists(r, set x | x in names)
  {
    if names == [] then []
    else
      assert names[0] !in names[1..];
      assert forall x :: x in names <==> x == names[0] || x in names[1..];
      Insert(names[0], Sort(names[1..]))
  }

  lemma {:induction false} ListingExists(s: set<string>) returns (names: seq<string>)
    ensures Lists(names, s)
    decreases |s|
  {
    if s == {} {
      names := [];
    } else {
      var x :| x in s;
      var rest := ListingExists(s - {x});
      names := Insert(x, rest);
    }
  }

  // The names of a set in ascending order.
  ghost function SortedNames(s: set<string>): (names: seq<string>)
    ensures Lists(names, s)
  {
    assert exists names :: Lists(names, s) by {
      var names := ListingExists(s);
    }
    var names :| Lists(names, s);
    names
  }

  // Ranging over a map hands its keys over in any order; sorting the slice they
  // were collected in gives the one ascending listing.
  method SortedKeys(keys: set<string>) returns (names: seq<string>)
    ensures names == SortedNames(keys)
  {
    var todo, found := keys, [];
    while todo != {}
      invariant todo <= keys
      invariant forall x :: x in found <==> x in keys && x !in todo
      invariant forall i, j | 0 <= i < j < |found| :: found[i] != found[j]
      decreases |todo|
    {
      var key :| key in todo;
      todo, found := todo - {key}, found + [key];
    }
    names := Sort(found);
    assert (set x | x in found) == keys;
    ListingUnique(names, SortedNames(keys), keys);
  }

  lemma SortedNamesDistinct(names: seq<string>)
    requires Ascending(names)
    ensures forall i, j | 0 <= i < j < |names| :: names[i] != names[j]
  {
    forall i, j | 0 <= i < j < |names|
      ensures names[i] != names[j]
    {
      LessTotal(names[i], names[j]);
    }
  }
}
