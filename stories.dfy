/**
 * Stories and the records they are built from, and the list operations the
 * data model applies to `stories`, `favorites` and `ownStories`.
 */
module Stories {
  import opened Wrappers

  /** A story as the API sends it: a plain object with six fields. */
  datatype StoryRecord = StoryRecord(
    storyId: string, title: string, author: string,
    url: string, username: string, createdAt: string)

  /** A Story instance; `storyId` is its key, assigned by the server. */
  datatype Story = Story(
    storyId: string, title: string, author: string,
    url: string, username: string, createdAt: string)

  /** A user as the API sends it; the server calls the user's own stories `stories`. */
  datatype ApiUser = ApiUser(
    username: string, name: string, createdAt: string,
    favorites: seq<StoryRecord>, stories: seq<StoryRecord>)

  /** The object handed to the User constructor; either list may be undefined. */
  datatype UserRecord = UserRecord(
    username: string, name: string, createdAt: string,
    favorites: Option<seq<StoryRecord>>, ownStories: Option<seq<StoryRecord>>)

  /** The body of a successful signup or login response: the user and a fresh token. */
  datatype AuthResponse = AuthResponse(user: ApiUser, token: string)

  /** The object passed to the User constructor after signup, login or a stored-credential
      login: the profile fields, with the server's `stories` as `ownStories`. */
  function SessionRecord(u: ApiUser): (r: UserRecord)
    ensures r.username == u.username && r.name == u.name && r.createdAt == u.createdAt
    ensures r.favorites == Some(u.favorites) && r.ownStories == Some(u.stories)
  {
    UserRecord(u.username, u.name, u.createdAt, Some(u.favorites), Some(u.stories))
  }

  /** `new Story(record)`: copies the six fields. */
  function FromRecord(d: StoryRecord): Story {
    Story(d.storyId, d.title, d.author, d.url, d.username, d.createdAt)
  }

  /** The plain object a Story instance reads as. */
  function ToRecord(s: Story): StoryRecord {
    StoryRecord(s.storyId, s.title, s.author, s.url, s.username, s.createdAt)
  }

  /** Constructing a Story loses nothing of the record. */
  lemma FromRecordKeepsFields(d: StoryRecord)
    ensures ToRecord(FromRecord(d)) == d
    ensures FromRecord(d).storyId == d.storyId
  {
  }

  /** `records.map((s) => new Story(s))` */
  function FromRecords(ds: seq<StoryRecord>): (r: seq<Story>)
    ensures |r| == |ds|
    ensures forall i :: 0 <= i < |ds| ==> r[i] == FromRecord(ds[i])
  {
    if ds == [] then [] else [FromRecord(ds[0])] + FromRecords(ds[1..])
  }

  /** Mapping back to records gives the input list: same length, order and fields. */
  lemma {:induction false} FromRecordsRoundTrip(ds: seq<StoryRecord>)
    ensures ToRecords(FromRecords(ds)) == ds
  {
    if ds != [] {
      FromRecordsRoundTrip(ds[1..]);
      assert FromRecords(ds)[1..] == FromRecords(ds[1..]);
    }
  }

  function ToRecords(s: seq<Story>): (r: seq<StoryRecord>)
    ensures |r| == |s|
  {
    if s == [] then [] else [ToRecord(s[0])] + ToRecords(s[1..])
  }

  /** Some story in `s` has key `storyId`. */
  predicate Mentions(s: seq<Story>, storyId: string) {
    exists x :: x in s && x.storyId == storyId
  }

  /** `s.filter((story) => !(story.storyId === storyId))` */
  function WithoutId(s: seq<Story>, storyId: string): (r: seq<Story>)
    ensures forall x :: x in r <==> x in s && x.storyId != storyId
    ensures |r| <= |s|
  {
    if s == [] then []
    else if s[0].storyId == storyId then WithoutId(s[1..], storyId)
    else [s[0]] + WithoutId(s[1..], storyId)
  }

  /** How many stories in `s` have key `storyId`. */
  function MatchCount(s: seq<Story>, storyId: string): (n: nat)
    ensures n == 0 <==> !Mentions(s, storyId)
    ensures n <= |s|
  {
    if s == [] then 0
    else (if s[0].storyId == storyId then 1 else 0) + MatchCount(s[1..], storyId)
  }

  /** `a` is `b` with some elements deleted, the rest in their original order. */
  predicate IsSubsequence(a: seq<Story>, b: seq<Story>)
    decreases |b|
  {
    if a == [] then true
    else if b == [] then false
    else (a[0] == b[0] && IsSubsequence(a[1..], b[1..])) || IsSubsequence(a, b[1..])
  }

  /** Filtering drops exactly the matching stories. */
  lemma {:induction false} WithoutIdCount(s: seq<Story>, storyId: string)
    ensures |WithoutId(s, storyId)| + MatchCount(s, storyId) == |s|
  {
    if s != [] {
      WithoutIdCount(s[1..], storyId);
    }
  }

  /** Filtering keeps the surviving stories in their original order. */
  lemma {:induction false} WithoutIdIsSubsequence(s: seq<Story>, storyId: string)
    ensures IsSubsequence(WithoutId(s, storyId), s)
  {
    if s != [] {
      WithoutIdIsSubsequence(s[1..], storyId);
      var r := WithoutId(s, storyId);
      if s[0].storyId != storyId {
        assert r[0] == s[0] && r[1..] == WithoutId(s[1..], storyId);
      }
    }
  }

  /** Filtering out a key that no story has changes nothing. */
  lemma {:induction false} WithoutIdAbsent(s: seq<Story>, storyId: string)
    requires !Mentions(s, storyId)
    ensures WithoutId(s, storyId) == s
  {
    if s != [] {
      assert s[0] in s;
      assert !Mentions(s[1..], storyId) by {
        forall x | x in s[1..] ensures x.storyId != storyId {
          assert x in s;
        }
      }
      WithoutIdAbsent(s[1..], storyId);
      assert s == [s[0]] + s[1..];
    }
  }

  /** Filtering twice by one key is filtering once. */
  lemma WithoutIdIdempotent(s: seq<Story>, storyId: string)
    ensures WithoutId(WithoutId(s, storyId), storyId) == WithoutId(s, storyId)
  {
  }

  /** Filtering distributes over concatenation. */
  lemma {:induction false} WithoutIdAppend(s: seq<Story>, t: seq<Story>, storyId: string)
    ensures WithoutId(s + t, storyId) == WithoutId(s, storyId) + WithoutId(t, storyId)
  {
    if s == [] {
      assert s + t == t;
    } else {
      var st := s + t;
      assert st[0] == s[0] && st[1..] == s[1..] + t;
      WithoutIdAppend(s[1..], t, storyId);
      if s[0].storyId == storyId {
        calc {
          WithoutId(st, storyId);
          WithoutId(s[1..] + t, storyId);
          WithoutId(s[1..], storyId) + WithoutId(t, storyId);
        }
      } else {
        calc {
          WithoutId(st, storyId);
          [s[0]] + WithoutId(s[1..] + t, storyId);
          [s[0]] + (WithoutId(s[1..], storyId) + WithoutId(t, storyId));
          ([s[0]] + WithoutId(s[1..], storyId)) + WithoutId(t, storyId);
        }
      }
    }
  }

  /** Extending `b` at the front keeps every subsequence of it one. */
  lemma SubsequenceCons(a: seq<Story>, y: Story, b: seq<Story>)
    requires IsSubsequence(a, b)
    ensures IsSubsequence(a, [y] + b)
  {
  }

  /** Every list is a subsequence of itself. */
  lemma {:induction false} SubsequenceRefl(s: seq<Story>)
    ensures IsSubsequence(s, s)
  {
    if s != [] {
      SubsequenceRefl(s[1..]);
    }
  }
}
