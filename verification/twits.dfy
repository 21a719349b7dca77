/**
 * One stream message ("twit") as the stream API delivers it, and the
 * extraction of the three fields the scraper reports about it.
 */
module Twits {
  import opened Wrappers

  /** The 'likes' object of a message: its 'total' key may be missing. */
  datatype Likes = Likes(total: Option<int>)

  /** The 'user' object of a message: its 'username' key may be missing. */
  datatype User = User(username: Option<string>)

  /**
   * An element of a stream's 'messages' array, reduced to the keys that
   * parse_twit reads; every other key of the message is ignored.
   * `None` means the key is absent from the dictionary.
   */
  datatype RawTwit = RawTwit(body: Option<string>, likes: Option<Likes>, user: Option<User>)

  /** The `(body, likes, username)` triple parse_twit returns. */
  datatype Twit = Twit(body: string, likes: int, username: string)

  /** Python's KeyError, naming the missing key. */
  datatype KeyError = KeyError(key: string)

  /**
   * parse_twit: reads 'body', then 'likes' (defaulting the count to 0 when the
   * key is absent), then 'user' and its 'username'; the first missing key
   * raises KeyError.
   */
  function ParseTwit(t: RawTwit): (r: Result<Twit, KeyError>)
    ensures r.Success? <==>
      && t.body.Some?
      && (t.likes.Some? ==> t.likes.value.total.Some?)
      && t.user.Some? && t.user.value.username.Some?
    ensures r.Success? ==>
      && r.value.body == t.body.value
      && r.value.username == t.user.value.username.value
      && r.value.likes == (if t.likes.Some? then t.likes.value.total.value else 0)
    ensures t.body.None? ==> r == Failure(KeyError("body"))
    ensures t.body.Some? && t.likes.Some? && t.likes.value.total.None? ==>
      r == Failure(KeyError("total"))
    ensures r.Failure? ==> r.error.key in {"body", "total", "user", "username"}
  {
    match t.body
    case None => Failure(KeyError("body"))
    case Some(body) =>
      if t.likes.Some? && t.likes.value.total.None? then Failure(KeyError("total"))
      else
        var likes := if t.likes.Some? then t.likes.value.total.value else 0;
        match t.user
        case None => Failure(KeyError("user"))
        case Some(user) =>
          match user.username
          case None => Failure(KeyError("username"))
          case Some(name) => Success(Twit(body, likes, name))
  }

  /** The message the stream API would send for a given triple. */
  function Unparse(tw: Twit): (t: RawTwit)
    ensures t.body == Some(tw.body) && t.likes.Some? && t.user.Some?
  {
    RawTwit(Some(tw.body), Some(Likes(Some(tw.likes))), Some(User(Some(tw.username))))
  }

  /** parse_twit recovers every triple from the message that carries it. */
  lemma ParseUnparse(tw: Twit)
    ensures ParseTwit(Unparse(tw)) == Success(tw)
  {
  }

  /** A message without a 'likes' key parses with a like count of 0. */
  lemma ParseWithoutLikes(body: string, name: string)
    ensures ParseTwit(RawTwit(Some(body), None, Some(User(Some(name))))) == Success(Twit(body, 0, name))
  {
  }
}
