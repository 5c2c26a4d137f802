/** workspace::RecentProjectsModel: the most recently opened projects, newest first,
    at most five of them. Paths are compared by their text. */
module RecentProjects {
  import opened Seqs

  /** The list is trimmed below this many entries before a new path is prepended. */
  const MaxRecent: nat := 5

  /** The index of the first entry equal to `p`. */
  function FirstIndex(s: seq<string>, p: string): (i: nat)
    requires p in s
    ensures i < |s| && s[i] == p && p !in s[..i]
  {
    if s[0] == p then 0
    else
      assert s[1..] == s[1..];
      var i := FirstIndex(s[1..], p);
      assert s[..i + 1] == [s[0]] + s[1..][..i];
      i + 1
  }

  /** Any occurrence with no earlier one is the first index. */
  lemma FirstIndexIsFirst(s: seq<string>, p: string, i: nat)
    requires i < |s| && s[i] == p && p !in s[..i]
    ensures FirstIndex(s, p) == i
  {
    var k := FirstIndex(s, p);
    assert forall j :: 0 <= j < i ==> s[..i][j] == s[j];
    assert forall j :: 0 <= j < k ==> s[..k][j] == s[j];
  }

  /** How many entries survive the trimming loop: entries are dropped from the end
      while there are MaxRecent or more. */
  function KeptCount(n: nat): (k: nat)
    ensures k < MaxRecent && k <= n
    ensures n < MaxRecent ==> k == n
  {
    if n >= MaxRecent then MaxRecent - 1 else n
  }

  /** setLastRecentProject on the list: a path already first changes nothing; a path
      further down is moved to the front (QList::move); a new path is prepended after
      the list was trimmed. */
  function MadeRecent(s: seq<string>, p: string): seq<string>
  {
    if p in s then
      var i := FirstIndex(s, p);
      if i == 0 then s else [p] + s[..i] + s[i + 1..]
    else [p] + s[..KeptCount(|s|)]
  }

  /** The new entry is always first. */
  lemma PathComesFirst(s: seq<string>, p: string)
    ensures MadeRecent(s, p) != [] && MadeRecent(s, p)[0] == p
    ensures s != [] && s[0] == p ==> MadeRecent(s, p) == s
  {
  }

  /** A known path is moved to the front and the others keep their relative order:
      the result is the path followed by the list without its first occurrence. */
  lemma MovedToFront(s: seq<string>, p: string)
    requires p in s
    ensures MadeRecent(s, p) == [p] + RemoveOne(s, p)
    ensures |MadeRecent(s, p)| == |s| && multiset(MadeRecent(s, p)) == multiset(s)
  {
    KnownPathCut(s, p);
    MoveToFrontKeepsContents(s, p);
  }

  lemma KnownPathCut(s: seq<string>, p: string)
    requires p in s
    ensures MadeRecent(s, p) == [p] + RemoveOne(s, p)
  {
    var i := FirstIndex(s, p);
    CutAtFirst(s, p, i);
    if i == 0 {
      assert s[..0] + s[1..] == s[1..];
      assert s == [p] + s[1..];
    } else {
      assert [p] + s[..i] + s[i + 1..] == [p] + (s[..i] + s[i + 1..]);
    }
  }

  /** A new path goes in front of the oldest entries, which are dropped until fewer
      than MaxRecent remain. */
  lemma NewPathPrepended(s: seq<string>, p: string)
    requires p !in s
    ensures |MadeRecent(s, p)| == if |s| >= MaxRecent then MaxRecent else |s| + 1
    ensures forall k :: 1 <= k < |MadeRecent(s, p)| ==> MadeRecent(s, p)[k] == s[k - 1]
  {
  }

  /** Every entry afterwards is the new path or was there before. */
  lemma NothingInvented(s: seq<string>, p: string, x: string)
    requires x in MadeRecent(s, p)
    ensures x == p || x in s
  {
    if p in s {
      MovedToFront(s, p);
      assert x in multiset(MadeRecent(s, p));
    }
  }

  /** A list of at most MaxRecent distinct paths stays one. */
  lemma StaysBoundedAndDistinct(s: seq<string>, p: string)
    requires |s| <= MaxRecent && NoDup(s)
    ensures |MadeRecent(s, p)| <= MaxRecent && NoDup(MadeRecent(s, p))
  {
    var r := MadeRecent(s, p);
    if p in s {
      MovedToFront(s, p);
      RemoveOneElements(s, p);
      assert r[1..] == RemoveOne(s, p);
    } else {
      forall i, j | 0 <= i < j < |r| ensures r[i] != r[j] {
        if i > 0 {
          assert r[i] == s[i - 1] && r[j] == s[j - 1];
        } else {
          assert r[j] == s[j - 1];
        }
      }
    }
  }

  /** Making the same path recent twice is the same as once. */
  lemma MadeRecentIdempotent(s: seq<string>, p: string)
    ensures MadeRecent(MadeRecent(s, p), p) == MadeRecent(s, p)
  {
    PathComesFirst(s, p);
    PathComesFirst(MadeRecent(s, p), p);
  }

  class RecentProjectsModel {
    /** mRecentProjects, newest first. */
    var recent: seq<string>
    /** The list as the last save wrote it to the workspace metadata. */
    var saved: seq<string>

    /** The list read at construction; reading the file is not part of this model. */
    constructor (loaded: seq<string>)
      ensures recent == loaded && saved == loaded
    {
      recent := loaded;
      saved := loaded;
    }

    /** save: the list is written out. */
    method Save()
      modifies this`saved
      ensures saved == recent
    {
      saved := recent;
    }

    method SetLastRecentProject(path: string)
      modifies this
      ensures recent == MadeRecent(old(recent), path)
      ensures saved == if old(recent) != [] && old(recent)[0] == path then old(saved) else recent
    {
      for i := 0 to |recent|
        invariant recent == old(recent) && saved == old(saved)
        invariant path !in recent[..i]
      {
        if recent[i] == path {
          assert path in recent;
          FirstIndexIsFirst(recent, path, i);
          if i == 0 {
            return;
          }
          recent := [path] + recent[..i] + recent[i + 1..];
          Save();
          return;
        }
        assert recent[..i + 1] == recent[..i] + [recent[i]];
      }
      assert recent[..|recent|] == recent;
      while |recent| >= MaxRecent
        invariant recent == old(recent)[..|recent|]
        invariant |old(recent)| >= MaxRecent ==> |recent| >= MaxRecent - 1
        invariant |old(recent)| < MaxRecent ==> recent == old(recent)
        invariant saved == old(saved)
        decreases |recent|
      {
        recent := recent[..|recent| - 1];
      }
      recent := [path] + recent;
      Save();
    }

    /** rowCount: the number of entries for the (invalid) root index, none below it. */
    function RowCount(parentIsValid: bool): (n: int)
      reads this
      ensures parentIsValid ==> n == 0
      ensures !parentIsValid ==> n == |recent|
    {
      if parentIsValid then 0 else |recent|
    }
  }
}
