/** The chat list the run works through: direct-message channels first, then guilds,
    each tagged with its kind. */
module Chats {
  import opened Types

  /** `[{**chat, "kind": kind} for chat in chats]`, keeping only the id the core reads. */
  function Tag(ids: seq<string>, kind: ChatKind): (r: seq<Chat>)
    ensures |r| == |ids|
    ensures forall i :: 0 <= i < |ids| ==> r[i] == Chat(ids[i], kind)
  {
    if ids == [] then [] else [Chat(ids[0], kind)] + Tag(ids[1..], kind)
  }

  /** `channels + guilds` after tagging. */
  function AllChats(channels: seq<string>, guilds: seq<string>): (r: seq<Chat>)
    ensures |r| == |channels| + |guilds|
    ensures forall i :: 0 <= i < |channels| ==> r[i] == Chat(channels[i], Channel)
    ensures forall i :: 0 <= i < |guilds| ==> r[|channels| + i] == Chat(guilds[i], Guild)
  {
    Tag(channels, Channel) + Tag(guilds, Guild)
  }
}
