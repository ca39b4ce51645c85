/**
 * The remote Hack-or-Snooze API as the data model sees it: the requests it
 * sends and the way an awaited call settles. The server itself is not
 * modelled; whether a call succeeds is a parameter of each operation.
 */
module Api {
  import opened Wrappers

  /** Root of every endpoint (js/models.js:3). */
  const BaseUrl: string := "https://hack-or-snooze-v3.herokuapp.com"

  datatype Verb = Get | Post | Delete

  /** The story fields a client submits when it creates a story. */
  datatype StoryFields = StoryFields(title: string, author: string, url: string)

  /** One HTTP request: verb, URL, the token carried in its body, and the new story, if any. */
  datatype Request = Request(verb: Verb, url: string, token: string, story: Option<StoryFields>)

  /** Why a promise rejected: the awaited request failed, or an unbound name was read. */
  datatype Failure = RequestFailed | ReferenceError(name: string)

  /** How an async method's promise settles. */
  datatype Completion<+T> = Resolved(value: T) | Rejected(reason: Failure)

  /** The settlement of an async method whose only await is one request. */
  function Settle(remoteOk: bool): (r: Completion<()>)
    ensures r.Resolved? <==> remoteOk
    ensures r.Rejected? ==> r.reason == RequestFailed
  {
    if remoteOk then Resolved(()) else Rejected(RequestFailed)
  }

  /** `${BASE_URL}/stories` */
  function StoriesUrl(): string {
    BaseUrl + "/stories"
  }

  /** `${BASE_URL}/stories/${storyId}` */
  function StoryUrl(storyId: string): string {
    StoriesUrl() + "/" + storyId
  }

  /** `${BASE_URL}/users/${username}/favorites/${storyId}` */
  function FavoriteUrl(username: string, storyId: string): string {
    BaseUrl + "/users/" + username + "/favorites/" + storyId
  }

  /** A request on the favourite record of (`username`, `storyId`), token in the body. */
  function FavoriteRequest(verb: Verb, username: string, storyId: string, token: string): Request {
    Request(verb, FavoriteUrl(username, storyId), token, None)
  }

  /** `n` copies of one request, in the order sent. */
  function Repeat(q: Request, n: nat): (r: seq<Request>)
    ensures |r| == n
    ensures forall p :: p in r ==> p == q
  {
    if n == 0 then [] else Repeat(q, n - 1) + [q]
  }
}
