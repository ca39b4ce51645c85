/**
 * Sequences of calls the page makes on the data model, checked against the
 * contracts of `StoryList` and `User` alone.
 */
module Scenarios {
  import opened Wrappers
  import opened Api
  import opened Stories
  import opened FavoriteRemoval
  import opened Models

  /** A feed of two stories, the first a favourite; deleting it (the delete button's handler)
      empties the favourites and leaves the other story in the feed. */
  method DeleteFavoritedStory(a: Story, b: Story) returns (feed: seq<Story>, favorites: seq<Story>)
    requires a.storyId != b.storyId
    ensures feed == [b] && favorites == []
  {
    var list := new StoryList([a, b]);
    var user := new User(UserRecord("alice", "Alice A", "", None, None), "token");
    var _, _ := user.AddFav(a, true);
    var _, _ := list.RemoveStory(user, a.storyId, true);
    assert [a, b][1..] == [b];
    feed, favorites := list.stories, user.favorites;
  }

  /** Clicking an empty star and then the filled one (both requests succeeding) leaves the
      favourites as they were, when the story was not a favourite before. */
  method StarTwice(before: seq<Story>, story: Story) returns (after: seq<Story>, deletes: nat)
    requires !Mentions(before, story.storyId)
    ensures after == before && deletes == 1
  {
    var user := new User(UserRecord("alice", "Alice A", "", None, None), "token");
    user.favorites := before;
    var _, _ := user.AddFav(story, true);
    var sent, _ := user.RemoveFav(story, _ => true);
    FavRoundTrip(before, story, _ => true, 0);
    after, deletes := user.favorites, |sent|;
  }

  /** A signup the server accepts still rejects when the page declares no global `token`,
      although the response carries one. */
  method SignupDiscardsServerToken(u: ApiUser, token: string) returns (r: Completion<User>)
    ensures r == Rejected(ReferenceError("token"))
  {
    r := User.Signup(Some(AuthResponse(u, token)), None);
  }

  /** The repaired signup gives the session the token the server returned. */
  method SignupFixedKeepsServerToken(u: ApiUser, token: string) returns (loginToken: string)
    ensures loginToken == token
  {
    var r := User.SignupFixed(Some(AuthResponse(u, token)));
    loginToken := r.value.loginToken;
  }
}
