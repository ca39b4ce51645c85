/**
 * The two stateful classes of the front end's data model: the story feed
 * (`StoryList`) and the logged-in `User`. Each awaited request is replaced
 * by its outcome, passed in as a parameter; each method returns the
 * request(s) it sends and how its promise settles.
 */
module Models {
  import opened Wrappers
  import opened Api
  import opened Stories
  import opened FavoriteRemoval

  class User {
    var username: string
    var name: string
    var createdAt: string
    var favorites: seq<Story>
    var ownStories: seq<Story>
    var loginToken: string

    /** This user is the session for server user `u` with token `token`. */
    ghost predicate IsSessionOf(u: ApiUser, token: string)
      reads this
    {
      && username == u.username && name == u.name && createdAt == u.createdAt
      && favorites == FromRecords(u.favorites) && ownStories == FromRecords(u.stories)
      && loginToken == token
    }

    /** Copies the profile, turns each record of either list into a Story
        (a missing list defaults to empty) and keeps the token. */
    constructor (data: UserRecord, token: string)
      ensures username == data.username && name == data.name && createdAt == data.createdAt
      ensures favorites == FromRecords(data.favorites.GetOr([]))
      ensures ownStories == FromRecords(data.ownStories.GetOr([]))
      ensures data.favorites.None? ==> favorites == []
      ensures data.ownStories.None? ==> ownStories == []
      ensures loginToken == token
    {
      username := data.username;
      name := data.name;
      createdAt := data.createdAt;
      favorites := FromRecords(data.favorites.GetOr([]));
      ownStories := FromRecords(data.ownStories.GetOr([]));
      loginToken := token;
    }

    /**
     * Signup as written: after the POST resolves, the User is built with the name
     * `token`, which nothing in the method binds. `globalToken` is what that name
     * resolves to in the page's global scope, if anything.
     */
    static method Signup(response: Option<AuthResponse>, globalToken: Option<string>)
      returns (r: Completion<User>)
      ensures response.None? ==> r == Rejected(RequestFailed)
      ensures response.Some? && globalToken.None? ==> r == Rejected(ReferenceError("token"))
      ensures response.Some? && globalToken.Some? ==>
        r.Resolved? && fresh(r.value) && r.value.IsSessionOf(response.value.user, globalToken.value)
    {
      if response.None? {
        return Rejected(RequestFailed);
      }
      if globalToken.None? {
        return Rejected(ReferenceError("token"));
      }
      var u := new User(SessionRecord(response.value.user), globalToken.value);
      r := Resolved(u);
    }

    /** Signup with the token the server returned, as login does. */
    static method SignupFixed(response: Option<AuthResponse>) returns (r: Completion<User>)
      ensures response.None? ==> r == Rejected(RequestFailed)
      ensures response.Some? ==>
        r.Resolved? && fresh(r.value) && r.value.IsSessionOf(response.value.user, response.value.token)
    {
      if response.None? {
        return Rejected(RequestFailed);
      }
      var u := new User(SessionRecord(response.value.user), response.value.token);
      r := Resolved(u);
    }

    /** Login: on success, the session for the returned user and token. */
    static method Login(response: Option<AuthResponse>) returns (r: Completion<User>)
      ensures response.None? ==> r == Rejected(RequestFailed)
      ensures response.Some? ==>
        r.Resolved? && fresh(r.value) && r.value.IsSessionOf(response.value.user, response.value.token)
    {
      if response.None? {
        return Rejected(RequestFailed);
      }
      var u := new User(SessionRecord(response.value.user), response.value.token);
      r := Resolved(u);
    }

    /** Login with a stored token: any failure yields no user (null) instead of a rejection;
        on success the stored token is kept. */
    static method LoginViaStoredCredentials(token: string, username: string, response: Option<ApiUser>)
      returns (u: User?)
      ensures response.None? ==> u == null
      ensures response.Some? ==> u != null && fresh(u) && u.IsSessionOf(response.value, token)
    {
      if response.None? {
        return null;
      }
      u := new User(SessionRecord(response.value), token);
    }

    /**
     * Empties the favourites, locally only. Its debug line first reads the name
     * `clearAllFavorites`; `debugNameBound` says whether the global scope binds it.
     */
    method ClearAllFavorites(debugNameBound: bool) returns (r: Completion<()>)
      modifies this`favorites
      ensures debugNameBound ==> r == Resolved(()) && favorites == []
      ensures !debugNameBound ==> r == Rejected(ReferenceError("clearAllFavorites")) && favorites == old(favorites)
    {
      if !debugNameBound {
        return Rejected(ReferenceError("clearAllFavorites"));
      }
      favorites := [];
      r := Resolved(());
    }

    /** Appends `story` to the favourites, then POSTs the favourite; the append stays
        whether or not the POST succeeds. */
    method AddFav(story: Story, remoteOk: bool) returns (sent: Request, r: Completion<()>)
      modifies this`favorites
      ensures favorites == old(favorites) + [story]
      ensures sent == FavoriteRequest(Post, username, story.storyId, loginToken)
      ensures r == Settle(remoteOk)
    {
      favorites := favorites + [story];
      sent := FavoriteRequest(Post, username, story.storyId, loginToken);
      r := Settle(remoteOk);
    }

    /** Appends `story` to the user's own stories, then POSTs to the favourites endpoint
        (the same request addFav sends); the append stays whatever the outcome. */
    method AddOwnStory(story: Story, remoteOk: bool) returns (sent: Request, r: Completion<()>)
      modifies this`ownStories
      ensures ownStories == old(ownStories) + [story]
      ensures sent == FavoriteRequest(Post, username, story.storyId, loginToken)
      ensures r == Settle(remoteOk)
    {
      ownStories := ownStories + [story];
      sent := FavoriteRequest(Post, username, story.storyId, loginToken);
      r := Settle(remoteOk);
    }

    /**
     * The in-place removal loop as written: for each index, a match awaits a DELETE
     * and is then spliced out, and the index advances regardless. DELETE number j
     * succeeds exactly when `deleteOk(j)`; a rejected one ends the method.
     */
    method RemoveFav(story: Story, deleteOk: nat -> bool) returns (sent: seq<Request>, r: Completion<()>)
      modifies this`favorites
      ensures var run := FavRemoval(old(favorites), story.storyId, deleteOk, 0);
        && favorites == run.kept && r == Settle(!run.failed)
        && sent == Repeat(FavoriteRequest(Delete, username, story.storyId, loginToken), run.deletes)
    {
      // `userFavs` in the source is the favourites list itself; it is written back on exit
      var favs := favorites;
      ghost var run := FavRemoval(favs, story.storyId, deleteOk, 0);
      LoopStart(favs, story.storyId, deleteOk);
      var request := FavoriteRequest(Delete, username, story.storyId, loginToken);
      var deletes := 0;
      var i := 0;
      while i < |favs|
        invariant i <= |favs| + 1
        invariant run == LoopState(favs, i, story.storyId, deleteOk, deletes)
        decreases |favs| + 1 - i
      {
        if story.storyId == favs[i].storyId {
          if !deleteOk(deletes) {
            LoopStepReject(favs, i, story.storyId, deleteOk, deletes);
            favorites := favs;
            return Repeat(request, deletes + 1), Rejected(RequestFailed);
          }
          LoopStepSplice(favs, i, story.storyId, deleteOk, deletes);
          deletes := deletes + 1;
          favs := favs[..i] + favs[i + 1..];
        } else {
          LoopStepKeep(favs, i, story.storyId, deleteOk, deletes);
        }
        i := i + 1;
      }
      LoopDone(favs, i, story.storyId, deleteOk, deletes);
      favorites := favs;
      sent, r := Repeat(request, deletes), Resolved(());
    }

    /** The removal loop with the skip repaired: after a splice the same index is examined
        again, so every match meets its DELETE. */
    method RemoveFavFixed(story: Story, deleteOk: nat -> bool) returns (sent: seq<Request>, r: Completion<()>)
      modifies this`favorites
      ensures var run := FavRemovalFixed(old(favorites), story.storyId, deleteOk, 0);
        && favorites == run.kept && r == Settle(!run.failed)
        && sent == Repeat(FavoriteRequest(Delete, username, story.storyId, loginToken), run.deletes)
    {
      var favs := favorites;
      ghost var run := FavRemovalFixed(favs, story.storyId, deleteOk, 0);
      FixedLoopStart(favs, story.storyId, deleteOk);
      var request := FavoriteRequest(Delete, username, story.storyId, loginToken);
      var deletes := 0;
      var i := 0;
      while i < |favs|
        invariant i <= |favs|
        invariant run == FixedLoopState(favs, i, story.storyId, deleteOk, deletes)
        decreases |favs| - i
      {
        if story.storyId == favs[i].storyId {
          if !deleteOk(deletes) {
            FixedStepReject(favs, i, story.storyId, deleteOk, deletes);
            favorites := favs;
            return Repeat(request, deletes + 1), Rejected(RequestFailed);
          }
          FixedStepSplice(favs, i, story.storyId, deleteOk, deletes);
          deletes := deletes + 1;
          favs := favs[..i] + favs[i + 1..];
        } else {
          FixedStepKeep(favs, i, story.storyId, deleteOk, deletes);
          i := i + 1;
        }
      }
      FixedLoopDone(favs, story.storyId, deleteOk, deletes);
      favorites := favs;
      sent, r := Repeat(request, deletes), Resolved(());
    }
  }

  class StoryList {
    var stories: seq<Story>

    constructor (stories: seq<Story>)
      ensures this.stories == stories
    {
      this.stories := stories;
    }

    /** Fetches the feed: on success, a new list of the returned records as Stories, in the
        order received. */
    static method GetStories(response: Option<seq<StoryRecord>>) returns (r: Completion<StoryList>)
      ensures response.None? ==> r == Rejected(RequestFailed)
      ensures response.Some? ==> r.Resolved? && fresh(r.value) && r.value.stories == FromRecords(response.value)
    {
      if response.None? {
        return Rejected(RequestFailed);
      }
      var list := new StoryList(FromRecords(response.value));
      r := Resolved(list);
    }

    /**
     * POSTs a new story with the user's token; `created` is the story the server sends
     * back, or None when the POST is rejected. Only after it resolves is the new Story put
     * at the front of the feed and of the user's own stories.
     */
    method AddStory(user: User, fields: StoryFields, created: Option<StoryRecord>)
      returns (sent: Request, r: Completion<Story>)
      modifies this`stories, user`ownStories
      ensures sent == Request(Post, StoriesUrl(), user.loginToken, Some(fields))
      ensures created.None? ==>
        r == Rejected(RequestFailed) && stories == old(stories) && user.ownStories == old(user.ownStories)
      ensures created.Some? ==>
        && r == Resolved(FromRecord(created.value))
        && stories == [r.value] + old(stories)
        && user.ownStories == [r.value] + old(user.ownStories)
    {
      sent := Request(Post, StoriesUrl(), user.loginToken, Some(fields));
      if created.None? {
        return sent, Rejected(RequestFailed);
      }
      var story := FromRecord(created.value);
      stories := [story] + stories;
      user.ownStories := [story] + user.ownStories;
      r := Resolved(story);
    }

    /**
     * DELETEs the story; only after that resolves is every story with key `storyId`
     * filtered out of the feed and of the user's own stories and favourites.
     */
    method RemoveStory(user: User, storyId: string, remoteOk: bool) returns (sent: Request, r: Completion<()>)
      modifies this`stories, user`ownStories, user`favorites
      ensures sent == Request(Delete, StoryUrl(storyId), user.loginToken, None)
      ensures r == Settle(remoteOk)
      ensures remoteOk ==>
        && stories == WithoutId(old(stories), storyId)
        && user.ownStories == WithoutId(old(user.ownStories), storyId)
        && user.favorites == WithoutId(old(user.favorites), storyId)
      ensures !remoteOk ==>
        stories == old(stories) && user.ownStories == old(user.ownStories) && user.favorites == old(user.favorites)
    {
      sent := Request(Delete, StoryUrl(storyId), user.loginToken, None);
      r := Settle(remoteOk);
      if !remoteOk {
        return;
      }
      stories := WithoutId(stories, storyId);
      user.ownStories := WithoutId(user.ownStories, storyId);
      user.favorites := WithoutId(user.favorites, storyId);
    }
  }
}
