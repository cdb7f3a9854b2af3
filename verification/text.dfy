/** Substring search and splitting, as the standard library's `find` and `split_once`. */
module Text {
  import opened Wrappers

  predicate Occurs(s: string, pat: string, i: nat) {
    i + |pat| <= |s| && s[i..i + |pat|] == pat
  }

  /** The first occurrence of `pat`. */
  function Find(s: string, pat: string): (r: Option<nat>)
    ensures r.Some? ==> Occurs(s, pat, r.value) && forall j: nat :: j < r.value ==> !Occurs(s, pat, j)
    ensures r.None? ==> forall j: nat :: !Occurs(s, pat, j)
  {
    FindFrom(s, pat, 0)
  }

  function FindFrom(s: string, pat: string, from: nat): (r: Option<nat>)
    requires forall j: nat :: j < from ==> !Occurs(s, pat, j)
    ensures r.Some? ==> Occurs(s, pat, r.value) && forall j: nat :: j < r.value ==> !Occurs(s, pat, j)
    ensures r.None? ==> forall j: nat :: !Occurs(s, pat, j)
    decreases |s| - from
  {
    if from + |pat| > |s| then None
    else if s[from..from + |pat|] == pat then Some(from)
    else FindFrom(s, pat, from + 1)
  }

  /** The first occurrence is where the search says, whoever found it. */
  lemma FirstIsFind(s: string, pat: string, i: nat)
    requires Occurs(s, pat, i) && forall j: nat :: j < i ==> !Occurs(s, pat, j)
    ensures Find(s, pat) == Some(i)
  {
  }

  lemma CutAt(s: string, pat: string, i: nat)
    requires Occurs(s, pat, i)
    ensures s == s[..i] + pat + s[i + |pat|..]
  {
  }

  /** Nothing occurs in a prefix that does not occur in the whole. */
  lemma FreePrefix(s: string, pat: string, i: nat)
    requires i <= |s| && forall j: nat :: j < i ==> !Occurs(s, pat, j)
    requires pat != ""
    ensures Find(s[..i], pat).None?
  {
    forall j: nat
      ensures !Occurs(s[..i], pat, j)
    {
      if j + |pat| <= i {
        PrefixOccurs(s, pat, i, j);
      }
    }
  }

  lemma PrefixOccurs(s: string, pat: string, i: nat, j: nat)
    requires i <= |s| && j + |pat| <= i
    ensures Occurs(s[..i], pat, j) <==> Occurs(s, pat, j)
  {
    assert s[j..j + |pat|] == s[..i][j..j + |pat|];
  }

  lemma Assoc(a: string, b: string, c: string, d: string)
    ensures a + b + c + d == a + (b + c + d)
  {
  }

  function SplitOnce(s: string, pat: string): (r: Option<(string, string)>)
    ensures r.Some? ==> s == r.value.0 + pat + r.value.1 && forall j: nat :: j < |r.value.0| ==> !Occurs(s, pat, j)
    ensures r.None? ==> forall j: nat :: !Occurs(s, pat, j)
  {
    match Find(s, pat)
    case None => None
    case Some(i) => Some((s[..i], s[i + |pat|..]))
  }

  /** A one-character pattern occurs where the character is. */
  lemma OccursOne(s: string, c: char, i: nat)
    ensures Occurs(s, [c], i) <==> i < |s| && s[i] == c
  {
    if i < |s| {
      assert s[i..i + 1] == [s[i]];
    }
  }

  lemma NoneWithout(s: string, c: char)
    ensures Find(s, [c]).None? <==> c !in s
  {
    forall i: nat
      ensures Occurs(s, [c], i) <==> i < |s| && s[i] == c
    {
      OccursOne(s, c, i);
    }
    if c in s {
      var i :| 0 <= i < |s| && s[i] == c;
      assert Occurs(s, [c], i);
    }
  }

  /** Splitting at a character finds the boundary exactly when the left part is free of it. */
  lemma SplitAtChar(a: string, c: char, b: string)
    ensures SplitOnce(a + [c] + b, [c]) == Some((a, b)) <==> c !in a
  {
    var s := a + [c] + b;
    OccursOne(s, c, |a|);
    if c !in a {
      forall j: nat | j < |a|
        ensures !Occurs(s, [c], j)
      {
        OccursOne(s, c, j);
      }
      FirstIsFind(s, [c], |a|);
    } else {
      var j :| 0 <= j < |a| && a[j] == c;
      OccursOne(s, c, j);
    }
  }

  lemma SplitsIff(s: string, c: char)
    ensures SplitOnce(s, [c]).Some? <==> c in s
  {
    NoneWithout(s, c);
  }
}
