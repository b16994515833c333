/** Records exchanged with the chat service, taken as already decoded from JSON. */
module Types {

  datatype Option<T> = None | Some(value: T)

  /** The two kinds of chat; the kind names the first segment of the search path
      ("channels/<id>/messages/search" or "guilds/<id>/messages/search"). */
  datatype ChatKind = Channel | Guild

  /** A chat after tagging: its id and its kind. */
  datatype Chat = Chat(id: string, kind: ChatKind)

  /** Query parameters of a search request. */
  type Params = map<string, string>

  const AuthorId: string := "author_id"
  const MaxId: string := "max_id"

  /** Status codes the core tells apart. */
  const TooManyRequests: int := 429
  const NotFound: int := 404

  /** One entry of a search page; `hasHit` says whether the entry carries a "hit" key. */
  datatype Entry = Entry(id: string, channelId: string, hasHit: bool)

  /** A search body: `total_results` and the nested `messages` batches. */
  datatype SearchBody = SearchBody(totalResults: int, messages: seq<seq<Entry>>)

  /** One reply of the service: its status code, the `retry_after` (milliseconds)
      that a 429 body carries, and the decoded body. */
  datatype Response<B> = Response(status: int, retryAfterMs: int, body: B)

  type SearchReply = Response<SearchBody>

  /** A delete reply; its body is never read. */
  type DeleteReply = Response<()>

  /** What the worker puts on the queue for one hit: `{id, channel}`. */
  datatype QueueItem = QueueItem(id: string, channel: string)

  /** A search request: the variable parts of its path and its query parameters. */
  datatype SearchRequest = SearchRequest(kind: ChatKind, chatId: string, params: Params)
}
