/**
 * The favourite test the story markup uses to pick a filled or an empty star:
 * the ids of the user's favourites, searched with `indexOf`.
 */
module StoryMarkup {
  import opened Stories

  /** `favorites.map((a) => a.storyId)` */
  function FavoriteIds(favorites: seq<Story>): (ids: seq<string>)
    ensures |ids| == |favorites|
    ensures forall i :: 0 <= i < |favorites| ==> ids[i] == favorites[i].storyId
  {
    if favorites == [] then [] else [favorites[0].storyId] + FavoriteIds(favorites[1..])
  }

  /** `ids.indexOf(id)`: the first position holding `id`, or -1. */
  function IndexOf(ids: seq<string>, id: string): (r: int)
    ensures -1 <= r < |ids|
    ensures r == -1 <==> id !in ids
    ensures 0 <= r ==> ids[r] == id && id !in ids[..r]
  {
    if ids == [] then -1
    else if ids[0] == id then 0
    else
      var j := IndexOf(ids[1..], id);
      if j == -1 then -1
      else
        assert ids[..j + 1] == [ids[0]] + ids[1..][..j];
        j + 1
  }

  /** The story is drawn as a favourite exactly when some favourite has its key. */
  function IsFavorite(favorites: seq<Story>, story: Story): (b: bool)
    ensures b <==> Mentions(favorites, story.storyId)
  {
    var ids := FavoriteIds(favorites);
    assert Mentions(favorites, story.storyId) ==> story.storyId in ids by {
      if Mentions(favorites, story.storyId) {
        var x :| x in favorites && x.storyId == story.storyId;
        var i :| 0 <= i < |favorites| && favorites[i] == x;
        assert ids[i] == story.storyId;
      }
    }
    IndexOf(ids, story.storyId) != -1
  }

  /** After `addFav(story)` the story is drawn as a favourite. */
  lemma FavoriteAfterAdd(favorites: seq<Story>, story: Story)
    ensures IsFavorite(favorites + [story], story)
  {
  }

  /** After `removeStory` of its key, no story with that key is drawn as a favourite. */
  lemma NotFavoriteAfterRemoveStory(favorites: seq<Story>, story: Story)
    ensures !IsFavorite(WithoutId(favorites, story.storyId), story)
  {
  }
}
