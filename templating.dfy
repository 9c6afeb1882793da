/** Placeholder substitution. Both phases of templating replace every occurrence of a
    literal placeholder, scanning left to right and resuming after each match:
    at build time JavaScript's `String.prototype.replace` with a global regular
    expression, at run time `sed -i 's|PLACEHOLDER|value|g'` on the written file. */
module Templating {
  import opened Strings

  // Build-time placeholders, replaced in TypeScript before the script is rendered.
  const JenkinsfileContent: string := "__JENKINSFILE_CONTENT__"
  const NewUsername: string := "__NEW_USERNAME__"

  // Runtime placeholders, replaced by `sed` on the CI node.
  const GithubToken: string := "__GITHUB_TOKEN__"
  const GithubCredentialsId: string := "__GITHUB_CREDENTIALS_ID__"
  const CentralRepoUrl: string := "__CENTRAL_SERVER_GITHUB_REPO_URL__"
  const VenueRepoUrl: string := "__VENUE_SERVER_GITHUB_REPO_URL__"
  const NewPassword: string := "__NEW_PASSWORD__"

  const BuildTimePlaceholders: seq<string> := [JenkinsfileContent, NewUsername]
  const RuntimePlaceholders: seq<string> :=
    [GithubToken, GithubCredentialsId, CentralRepoUrl, VenueRepoUrl, NewPassword]

  /** Index of the leftmost occurrence of `p` in `s`, or -1 when there is none; what the
      index means is stated by `IndexOfSpec`. */
  function IndexOf(s: string, p: string): (k: int)
    requires |p| > 0
    ensures k == -1 || 0 <= k <= |s| - |p|
    decreases |s|
  {
    if |s| < |p| then -1
    else if s[..|p|] == p then 0
    else
      var k := IndexOf(s[1..], p);
      if k < 0 then -1 else k + 1
  }

  /** A non-negative index is an occurrence. */
  lemma {:induction false} IndexOfFound(s: string, p: string)
    requires |p| > 0
    ensures IndexOf(s, p) == -1 || OccursAt(s, p, IndexOf(s, p))
    decreases |s|
  {
    if |s| >= |p| && s[..|p|] != p {
      IndexOfFound(s[1..], p);
      var k := IndexOf(s[1..], p);
      if k >= 0 {
        OccursInSuffix(s, 1, p, k + 1);
      }
    }
  }

  /** The index is an occurrence and no occurrence comes before it; -1 means there is
      no occurrence at all. */
  lemma {:induction false} IndexOfSpec(s: string, p: string)
    requires |p| > 0
    ensures var k := IndexOf(s, p);
      && (k == -1 || OccursAt(s, p, k))
      && (forall j: nat :: (k == -1 || j < k) ==> !OccursAt(s, p, j))
      && (k == -1 <==> !Contains(s, p))
    decreases |s|
  {
    if |s| >= |p| && s[..|p|] != p {
      OccursInTail(s, p);
      IndexOfSpec(s[1..], p);
    }
  }

  /** Replaces every occurrence of `p` in `s` by `r`, leftmost first, never rescanning the
      inserted text. */
  function ReplaceAll(s: string, p: string, r: string): string
    requires |p| > 0
    decreases |s|
  {
    var k := IndexOf(s, p);
    if k < 0 then s else s[..k] + (r + ReplaceAll(s[k + |p|..], p, r))
  }

  /** A text without the placeholder is returned unchanged. */
  lemma ReplaceAbsent(s: string, p: string, r: string)
    requires |p| > 0 && !Contains(s, p)
    ensures ReplaceAll(s, p, r) == s
  {
    IndexOfSpec(s, p);
  }

  /** When the replacement contains no placeholder and neither its first nor its last
      character occurs in the placeholder, no occurrence is left after the replacement:
      none survives from the input, none is inside an inserted copy, and none can be
      formed across the edge of an inserted copy. */
  lemma {:induction false} ReplaceLeavesNone(s: string, p: string, r: string)
    requires |p| > 0 && r != [] && !Contains(r, p)
    requires r[0] !in p && r[|r| - 1] !in p
    ensures !Contains(ReplaceAll(s, p, r), p)
    decreases |s|
  {
    var k := IndexOf(s, p);
    if k < 0 {
      IndexOfSpec(s, p);
      ReplaceAbsent(s, p, r);
    } else {
      var before, rest := s[..k], s[k + |p|..];
      var after := ReplaceAll(rest, p, r);
      ReplaceStep(s, p, r);
      BeforeFirstFree(s, p);
      ReplaceLeavesNone(rest, p, r);
      JoinFree(r, after, p);
      assert (r + after)[0] == r[0];
      JoinFree(before, r + after, p);
    }
  }

  /** One step of the replacement: the text before the first occurrence, the
      replacement, then the replacement applied to what follows the occurrence. */
  lemma ReplaceStep(s: string, p: string, r: string)
    requires |p| > 0 && IndexOf(s, p) >= 0
    ensures var k := IndexOf(s, p);
      ReplaceAll(s, p, r) == s[..k] + (r + ReplaceAll(s[k + |p|..], p, r))
  {
  }

  /** The text before the first occurrence holds no occurrence. */
  lemma BeforeFirstFree(s: string, p: string)
    requires |p| > 0 && IndexOf(s, p) >= 0
    ensures !Contains(s[..IndexOf(s, p)], p)
  {
    IndexOfSpec(s, p);
    var k := IndexOf(s, p);
    forall i: nat | i <= k ensures !OccursAt(s[..k], p, i) {
      if i + |p| <= k {
        OccursInPrefix(s, k, p, i);
      }
    }
  }

  /** Two texts free of `p` joined at a character that `p` does not contain are free of `p`. */
  lemma JoinFree(a: string, b: string, p: string)
    requires |p| > 0 && !Contains(a, p) && !Contains(b, p)
    requires a == [] || b == [] || a[|a| - 1] !in p || b[0] !in p
    ensures !Contains(a + b, p)
  {
    forall i: nat | i <= |a + b| ensures !OccursAt(a + b, p, i) {
      if OccursAt(a + b, p, i) {
        OccursInConcat(a, b, p, i);
      }
    }
  }

  /** If the input contains the placeholder, the output contains the replacement. */
  lemma ReplaceInserts(s: string, p: string, r: string)
    requires |p| > 0 && Contains(s, p)
    ensures Contains(ReplaceAll(s, p, r), r)
  {
    IndexOfSpec(s, p);
    ReplaceStep(s, p, r);
    var k := IndexOf(s, p);
    var t := s[..k] + (r + ReplaceAll(s[k + |p|..], p, r));
    assert t[k..k + |r|] == r;
    assert OccursAt(t, r, k);
  }

  /** Non-overlap of `q` at `i` with every `p` carries over to a suffix that holds it. */
  lemma NoOverlapInSuffix(s: string, p: string, q: string, i: nat, m: nat)
    requires m <= i && m <= |s|
    requires forall j: nat :: OccursAt(s, p, j) ==> j + |p| <= i || i + |q| <= j
    ensures forall j: nat :: OccursAt(s[m..], p, j) ==> j + |p| <= i - m || i - m + |q| <= j
  {
    forall j: nat | OccursAt(s[m..], p, j) ensures j + |p| <= i - m || i - m + |q| <= j {
      OccursInSuffix(s, m, p, m + j);
    }
  }

  /** An occurrence of another text `q` that no occurrence of `p` overlaps is still in
      the output. */
  lemma {:induction false} ReplaceKeeps(s: string, p: string, r: string, q: string, i: nat)
    requires |p| > 0 && OccursAt(s, q, i)
    requires forall j: nat :: OccursAt(s, p, j) ==> j + |p| <= i || i + |q| <= j
    ensures Contains(ReplaceAll(s, p, r), q)
    decreases |s|, 1
  {
    IndexOfFound(s, p);
    var k := IndexOf(s, p);
    if k < 0 {
      assert ReplaceAll(s, p, r) == s;
      assert OccursAt(ReplaceAll(s, p, r), q, i);
    } else if i + |q| <= k {
      var before, tail := s[..k], ReplaceAll(s[k + |p|..], p, r);
      ReplaceStep(s, p, r);
      OccursInPrefix(s, k, q, i);
      OccursExtend(before, r + tail, q, i);
    } else {
      ReplaceKeepsPast(s, p, r, q, i, k);
    }
  }

  /** The case of `ReplaceKeeps` where the first occurrence of `p` ends before `q`. */
  lemma {:induction false} ReplaceKeepsPast(s: string, p: string, r: string, q: string, i: nat, k: nat)
    requires |p| > 0 && OccursAt(s, q, i) && k == IndexOf(s, p) && OccursAt(s, p, k)
    requires forall j: nat :: OccursAt(s, p, j) ==> j + |p| <= i || i + |q| <= j
    requires k < i + |q|
    ensures Contains(ReplaceAll(s, p, r), q)
    decreases |s|, 0
  {
    var m := k + |p|;
    var before, rest := s[..k], s[m..];
    var tail := ReplaceAll(rest, p, r);
    ReplaceStep(s, p, r);
    OccursInSuffix(s, m, q, i);
    NoOverlapInSuffix(s, p, q, i, m);
    ReplaceKeeps(rest, p, r, q, i - m);
    var w: nat :| w <= |tail| && OccursAt(tail, q, w);
    OccursShift(r, tail, q, w);
    OccursShift(before, r + tail, q, |r| + w);
  }

  lemma SharedChar(s: string, q: string, i: nat, p: string, j: nat, m: nat)
    requires OccursAt(s, q, i) && OccursAt(s, p, j)
    requires i <= m < i + |q| && j <= m < j + |p|
    ensures q[m - i] in p
  {
    assert q[m - i] == s[m] == p[m - j];
  }

  /** A text that shares no character with the placeholder survives the replacement. */
  lemma ReplaceKeepsForeign(s: string, p: string, r: string, q: string)
    requires |p| > 0 && q != [] && CharsDisjoint(q, p) && Contains(s, q)
    ensures Contains(ReplaceAll(s, p, r), q)
  {
    var i: nat :| i <= |s| && OccursAt(s, q, i);
    forall j: nat | OccursAt(s, p, j) ensures j + |p| <= i || i + |q| <= j {
      if i < j + |p| && j < i + |q| {
        // the overlap puts the character at `m` in both `q` and `p`
        SharedChar(s, q, i, p, j, if i <= j then j else i);
      }
    }
    ReplaceKeeps(s, p, r, q, i);
  }

  /** An occurrence of another text `q` that does not contain the placeholder, delimited
      on each side by a character the placeholder does not contain (or by an end of the
      text), is still in the output. */
  lemma ReplaceKeepsDelimited(s: string, p: string, r: string, q: string, i: nat)
    requires |p| > 0 && OccursAt(s, q, i) && !Contains(q, p)
    requires i == 0 || s[i - 1] !in p
    requires i + |q| == |s| || s[i + |q|] !in p
    ensures Contains(ReplaceAll(s, p, r), q)
  {
    forall j: nat | OccursAt(s, p, j) ensures j + |p| <= i || i + |q| <= j {
      CharOfOccurrence(s, p, j, i - 1);
      CharOfOccurrence(s, p, j, i + |q|);
      OccursInside(s, q, i, p, j);
    }
    ReplaceKeeps(s, p, r, q, i);
  }

  /** A character that neither the text nor the replacement contains is absent from the
      output too. */
  lemma {:induction false} ReplaceKeepsCharAbsent(s: string, p: string, r: string, c: char)
    requires |p| > 0 && c !in s && c !in r
    ensures c !in ReplaceAll(s, p, r)
    decreases |s|
  {
    var k := IndexOf(s, p);
    if k < 0 {
      assert ReplaceAll(s, p, r) == s;
    } else {
      var before, rest := s[..k], s[k + |p|..];
      SliceLacks(s, c, 0, k);
      SliceLacks(s, c, k + |p|, |s|);
      assert s[0..k] == before && s[k + |p|..|s|] == rest;
      ReplaceKeepsCharAbsent(rest, p, r, c);
      ReplaceStep(s, p, r);
      assert c !in r + ReplaceAll(rest, p, r);
    }
  }
}
