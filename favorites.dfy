/**
 * What `User.removeFav` does to the favourites list. The source walks the
 * list with a forward index and splices each match out in place; since the
 * index still advances after a splice, the story that slides into the
 * vacated slot is never looked at. Each match first awaits a DELETE; a
 * rejected DELETE ends the loop before its splice.
 */
module FavoriteRemoval {
  import opened Stories

  /** The list left behind, the number of DELETE requests issued in all (counting from the
      starting call number), and whether one of them was rejected. */
  datatype Removal = Removal(kept: seq<Story>, deletes: nat, failed: bool)

  function Prepend(p: seq<Story>, r: Removal): Removal {
    r.(kept := p + r.kept)
  }

  /** No two stories with key `storyId` are next to each other in `s`. */
  predicate NoAdjacentMatches(s: seq<Story>, storyId: string)
    decreases |s|
  {
    |s| < 2 || (!(s[0].storyId == storyId && s[1].storyId == storyId) && NoAdjacentMatches(s[1..], storyId))
  }

  /**
   * The loop as written, run over `s` with `k` DELETE requests already issued;
   * request number j succeeds exactly when `deleteOk(j)`.
   */
  function FavRemoval(s: seq<Story>, storyId: string, deleteOk: nat -> bool, k: nat): (r: Removal)
    ensures k <= r.deletes <= k + |s|
    ensures |r.kept| <= |s|
    decreases |s|
  {
    if s == [] then Removal([], k, false)
    else if s[0].storyId != storyId then Prepend([s[0]], FavRemoval(s[1..], storyId, deleteOk, k))
    else if !deleteOk(k) then Removal(s, k + 1, true)
    else if |s| == 1 then Removal([], k + 1, false)
    // the splice moves s[1] into the current slot and the index steps over it
    else Prepend([s[1]], FavRemoval(s[2..], storyId, deleteOk, k + 1))
  }

  /** The loop with the skip repaired: the index only advances past a story it keeps. */
  function FavRemovalFixed(s: seq<Story>, storyId: string, deleteOk: nat -> bool, k: nat): (r: Removal)
    ensures k <= r.deletes <= k + |s|
    ensures |r.kept| <= |s|
    decreases |s|
  {
    if s == [] then Removal([], k, false)
    else if s[0].storyId != storyId then Prepend([s[0]], FavRemovalFixed(s[1..], storyId, deleteOk, k))
    else if !deleteOk(k) then Removal(s, k + 1, true)
    else FavRemovalFixed(s[1..], storyId, deleteOk, k + 1)
  }

  /** The state of the loop at index `i` of `f`, with `k` requests sent: what the whole run will
      produce, split into the part already passed over and the run over the rest. */
  function LoopState(f: seq<Story>, i: nat, storyId: string, deleteOk: nat -> bool, k: nat): Removal
    requires i <= |f| + 1
  {
    if i <= |f| then Prepend(f[..i], FavRemoval(f[i..], storyId, deleteOk, k))
    else Removal(f, k, false)
  }

  /** Before the first iteration the state is the whole run. */
  lemma LoopStart(f: seq<Story>, storyId: string, deleteOk: nat -> bool)
    ensures LoopState(f, 0, storyId, deleteOk, 0) == FavRemoval(f, storyId, deleteOk, 0)
  {
  }

  /** Passing over a story with another key. */
  lemma LoopStepKeep(f: seq<Story>, i: nat, storyId: string, deleteOk: nat -> bool, k: nat)
    requires i < |f| && f[i].storyId != storyId
    ensures LoopState(f, i, storyId, deleteOk, k) == LoopState(f, i + 1, storyId, deleteOk, k)
  {
  }

  /** A match whose DELETE succeeds: splice it out and step over its successor. */
  lemma LoopStepSplice(f: seq<Story>, i: nat, storyId: string, deleteOk: nat -> bool, k: nat)
    requires i < |f| && f[i].storyId == storyId && deleteOk(k)
    ensures LoopState(f, i, storyId, deleteOk, k)
         == LoopState(f[..i] + f[i + 1..], i + 1, storyId, deleteOk, k + 1)
  {
    var g := f[..i] + f[i + 1..];
    if i + 1 < |f| {
      assert f[i..][2..] == f[i + 2..] == g[i + 1..];
      assert g[..i + 1] == f[..i] + [f[i + 1]];
    } else {
      assert g == f[..i];
    }
  }

  /** A match whose DELETE is rejected: the run ends with the list as it stands. */
  lemma LoopStepReject(f: seq<Story>, i: nat, storyId: string, deleteOk: nat -> bool, k: nat)
    requires i < |f| && f[i].storyId == storyId && !deleteOk(k)
    ensures LoopState(f, i, storyId, deleteOk, k) == Removal(f, k + 1, true)
  {
  }

  /** The index has run off the end. */
  lemma LoopDone(f: seq<Story>, i: nat, storyId: string, deleteOk: nat -> bool, k: nat)
    requires |f| <= i <= |f| + 1
    ensures LoopState(f, i, storyId, deleteOk, k) == Removal(f, k, false)
  {
  }

  /** Every story with another key survives, in its original relative order. */
  lemma {:induction false} FavRemovalKeepsOthers(s: seq<Story>, storyId: string, deleteOk: nat -> bool, k: nat)
    ensures WithoutId(FavRemoval(s, storyId, deleteOk, k).kept, storyId) == WithoutId(s, storyId)
  {
    if s == [] {
    } else if s[0].storyId != storyId {
      var rest := FavRemoval(s[1..], storyId, deleteOk, k);
      FavRemovalKeepsOthers(s[1..], storyId, deleteOk, k);
      WithoutIdAppend([s[0]], rest.kept, storyId);
    } else if !deleteOk(k) {
    } else if |s| == 1 {
    } else {
      var rest := FavRemoval(s[2..], storyId, deleteOk, k + 1);
      FavRemovalKeepsOthers(s[2..], storyId, deleteOk, k + 1);
      WithoutIdAppend([s[1]], rest.kept, storyId);
      assert s[1..][1..] == s[2..];
    }
  }

  /** The stories left are the old list with some deleted, in their original order. */
  lemma {:induction false} FavRemovalIsSubsequence(s: seq<Story>, storyId: string, deleteOk: nat -> bool, k: nat)
    ensures IsSubsequence(FavRemoval(s, storyId, deleteOk, k).kept, s)
  {
    if s == [] {
    } else if s[0].storyId != storyId {
      var rest := FavRemoval(s[1..], storyId, deleteOk, k);
      FavRemovalIsSubsequence(s[1..], storyId, deleteOk, k);
      assert ([s[0]] + rest.kept)[1..] == rest.kept;
    } else if !deleteOk(k) {
      SubsequenceRefl(s);
    } else if |s| == 1 {
    } else {
      var rest := FavRemoval(s[2..], storyId, deleteOk, k + 1);
      FavRemovalIsSubsequence(s[2..], storyId, deleteOk, k + 1);
      assert ([s[1]] + rest.kept)[1..] == rest.kept;
      assert s[1..][1..] == s[2..];
      SubsequenceCons([s[1]] + rest.kept, s[0], s[1..]);
      assert [s[0]] + s[1..] == s;
    }
  }

  /** One DELETE is issued per story removed, plus the rejected one if the loop was cut short. */
  lemma {:induction false} FavRemovalCount(s: seq<Story>, storyId: string, deleteOk: nat -> bool, k: nat)
    ensures var r := FavRemoval(s, storyId, deleteOk, k);
      |s| - |r.kept| + (if r.failed then 1 else 0) == r.deletes - k
  {
    if s == [] {
    } else if s[0].storyId != storyId {
      FavRemovalCount(s[1..], storyId, deleteOk, k);
    } else if !deleteOk(k) {
    } else if |s| == 1 {
    } else {
      FavRemovalCount(s[2..], storyId, deleteOk, k + 1);
    }
  }

  /** A list without the key is left as it was, and no request is sent. */
  lemma {:induction false} FavRemovalNoMatch(s: seq<Story>, storyId: string, deleteOk: nat -> bool, k: nat)
    requires !Mentions(s, storyId)
    ensures FavRemoval(s, storyId, deleteOk, k) == Removal(s, k, false)
  {
    if s != [] {
      assert s[0] in s;
      assert !Mentions(s[1..], storyId) by {
        forall x | x in s[1..] ensures x.storyId != storyId {
          assert x in s;
        }
      }
      FavRemovalNoMatch(s[1..], storyId, deleteOk, k);
      assert [s[0]] + s[1..] == s;
    }
  }

  /** When no two matches are adjacent and every DELETE succeeds, every match is removed. */
  lemma {:induction false} FavRemovalIsolated(s: seq<Story>, storyId: string, deleteOk: nat -> bool, k: nat)
    requires NoAdjacentMatches(s, storyId)
    requires forall j :: deleteOk(j)
    ensures var r := FavRemoval(s, storyId, deleteOk, k);
      r.kept == WithoutId(s, storyId) && r.deletes == k + MatchCount(s, storyId) && !r.failed
  {
    if s == [] {
    } else if s[0].storyId != storyId {
      FavRemovalIsolated(s[1..], storyId, deleteOk, k);
    } else if |s| == 1 {
    } else {
      assert s[1..][1..] == s[2..];
      assert NoAdjacentMatches(s[2..], storyId);
      FavRemovalIsolated(s[2..], storyId, deleteOk, k + 1);
    }
  }

  /** At most one match means no two matches are adjacent. */
  lemma {:induction false} SingleMatchIsIsolated(s: seq<Story>, storyId: string)
    requires MatchCount(s, storyId) <= 1
    ensures NoAdjacentMatches(s, storyId)
  {
    if |s| >= 2 {
      assert s[1..][1..] == s[2..];
      if s[0].storyId == storyId {
        assert MatchCount(s[1..], storyId) == 0;
        assert s[1] in s[1..];
      }
      SingleMatchIsIsolated(s[1..], storyId);
    }
  }

  /** `addFav(story)` then `removeFav(story)`, both remote calls succeeding, restores the list
      when the story's key was not already a favourite. */
  lemma {:induction false} FavRoundTrip(s: seq<Story>, story: Story, deleteOk: nat -> bool, k: nat)
    requires !Mentions(s, story.storyId)
    requires deleteOk(k)
    ensures FavRemoval(s + [story], story.storyId, deleteOk, k) == Removal(s, k + 1, false)
  {
    if s != [] {
      assert s[0] in s;
      assert !Mentions(s[1..], story.storyId) by {
        forall x | x in s[1..] ensures x.storyId != story.storyId {
          assert x in s;
        }
      }
      FavRoundTrip(s[1..], story, deleteOk, k);
      assert (s + [story])[1..] == s[1..] + [story];
      assert [s[0]] + s[1..] == s;
    } else {
      assert s + [story] == [story];
    }
  }

  /** The skip: of two adjacent copies of a favourite, the second survives even though
      every DELETE succeeds. */
  lemma AdjacentMatchSurvives(story: Story)
    ensures FavRemoval([story, story], story.storyId, _ => true, 0) == Removal([story], 1, false)
  {
  }

  /** The repaired loop's state at index `i` of `f`, with `k` requests sent. */
  function FixedLoopState(f: seq<Story>, i: nat, storyId: string, deleteOk: nat -> bool, k: nat): Removal
    requires i <= |f|
  {
    Prepend(f[..i], FavRemovalFixed(f[i..], storyId, deleteOk, k))
  }

  lemma FixedLoopStart(f: seq<Story>, storyId: string, deleteOk: nat -> bool)
    ensures FixedLoopState(f, 0, storyId, deleteOk, 0) == FavRemovalFixed(f, storyId, deleteOk, 0)
  {
  }

  lemma FixedStepKeep(f: seq<Story>, i: nat, storyId: string, deleteOk: nat -> bool, k: nat)
    requires i < |f| && f[i].storyId != storyId
    ensures FixedLoopState(f, i, storyId, deleteOk, k) == FixedLoopState(f, i + 1, storyId, deleteOk, k)
  {
  }

  /** A match whose DELETE succeeds: splice it out and look at the same index again. */
  lemma FixedStepSplice(f: seq<Story>, i: nat, storyId: string, deleteOk: nat -> bool, k: nat)
    requires i < |f| && f[i].storyId == storyId && deleteOk(k)
    ensures FixedLoopState(f, i, storyId, deleteOk, k)
         == FixedLoopState(f[..i] + f[i + 1..], i, storyId, deleteOk, k + 1)
  {
  }

  lemma FixedStepReject(f: seq<Story>, i: nat, storyId: string, deleteOk: nat -> bool, k: nat)
    requires i < |f| && f[i].storyId == storyId && !deleteOk(k)
    ensures FixedLoopState(f, i, storyId, deleteOk, k) == Removal(f, k + 1, true)
  {
  }

  lemma FixedLoopDone(f: seq<Story>, storyId: string, deleteOk: nat -> bool, k: nat)
    ensures FixedLoopState(f, |f|, storyId, deleteOk, k) == Removal(f, k, false)
  {
  }

  /** Every story with another key survives the repaired loop, in order. */
  lemma {:induction false} FixedKeepsOthers(s: seq<Story>, storyId: string, deleteOk: nat -> bool, k: nat)
    ensures WithoutId(FavRemovalFixed(s, storyId, deleteOk, k).kept, storyId) == WithoutId(s, storyId)
  {
    if s == [] {
    } else if s[0].storyId != storyId {
      var rest := FavRemovalFixed(s[1..], storyId, deleteOk, k);
      FixedKeepsOthers(s[1..], storyId, deleteOk, k);
      WithoutIdAppend([s[0]], rest.kept, storyId);
    } else if !deleteOk(k) {
    } else {
      FixedKeepsOthers(s[1..], storyId, deleteOk, k + 1);
    }
  }

  /** With every DELETE succeeding, the repaired loop removes every match, one request each. */
  lemma {:induction false} FixedRemovesEveryMatch(s: seq<Story>, storyId: string, deleteOk: nat -> bool, k: nat)
    requires forall j :: deleteOk(j)
    ensures var r := FavRemovalFixed(s, storyId, deleteOk, k);
      r.kept == WithoutId(s, storyId) && r.deletes == k + MatchCount(s, storyId) && !r.failed
  {
    if s != [] {
      FixedRemovesEveryMatch(s[1..], storyId, deleteOk, if s[0].storyId == storyId then k + 1 else k);
    }
  }
}
