/** The coroutines of the script as step-by-step code over one object that holds the
    session's scripted replies, what was sent, the suspensions taken, the message queue
    and the progress bar. Each coroutine is proved to do exactly what its function in
    `Model` says, so every property proved there holds of it. */
module Tasks {
  import opened Types
  import opened StringOrder
  import opened SearchPage
  import opened Chats
  import opened Model

  class Pipeline {
    var searchReplies: seq<SearchReply>
    var deleteReplies: seq<DeleteReply>
    var searchLog: seq<SearchRequest>
    var deleteLog: seq<QueueItem>
    var sleeps: seq<int>
    var queue: seq<QueueItem>
    var unfinished: nat
    var expected: int
    var progress: nat

    /** The fields as one value of the model. */
    ghost function State(): World
      reads this
    {
      World(searchReplies, deleteReplies, searchLog, deleteLog, sleeps, queue, unfinished,
            expected, progress)
    }

    /** A session whose service will answer searches and deletes with the given replies,
        an empty queue and a bar at zero. */
    constructor (searchReplies: seq<SearchReply>, deleteReplies: seq<DeleteReply>)
      ensures State() == World(searchReplies, deleteReplies, [], [], [], [], 0, 0, 0)
    {
      this.searchReplies := searchReplies;
      this.deleteReplies := deleteReplies;
      searchLog, deleteLog, sleeps, queue := [], [], [], [];
      unfinished, expected, progress := 0, 0, 0;
    }

    /** `session.get` of a search: the request is sent and the service's next reply, if
        it has one, comes back. */
    method HttpGet(req: SearchRequest) returns (reply: Option<SearchReply>)
      modifies this`searchLog, this`searchReplies
      ensures searchLog == old(searchLog) + [req]
      ensures old(searchReplies) == [] ==> reply.None? && searchReplies == []
      ensures old(searchReplies) != [] ==>
                reply == Some(old(searchReplies)[0]) && searchReplies == old(searchReplies)[1..]
    {
      searchLog := searchLog + [req];
      if searchReplies == [] {
        reply := None;
      } else {
        reply := Some(searchReplies[0]);
        searchReplies := searchReplies[1..];
      }
    }

    /** `session.delete` of a message. */
    method HttpDelete(item: QueueItem) returns (reply: Option<DeleteReply>)
      modifies this`deleteLog, this`deleteReplies
      ensures deleteLog == old(deleteLog) + [item]
      ensures old(deleteReplies) == [] ==> reply.None? && deleteReplies == []
      ensures old(deleteReplies) != [] ==>
                reply == Some(old(deleteReplies)[0]) && deleteReplies == old(deleteReplies)[1..]
    {
      deleteLog := deleteLog + [item];
      if deleteReplies == [] {
        reply := None;
      } else {
        reply := Some(deleteReplies[0]);
        deleteReplies := deleteReplies[1..];
      }
    }

    /** `asyncio.sleep(retry_after / 1000)`: the suspension is recorded by its duration
        in milliseconds. */
    method Sleep(retryAfterMs: int)
      modifies this`sleeps
      ensures sleeps == old(sleeps) + [retryAfterMs]
    {
      sleeps := sleeps + [retryAfterMs];
    }

    /** `queue.put` on the unbounded queue. */
    method Put(item: QueueItem)
      modifies this`queue, this`unfinished
      ensures queue == old(queue) + [item] && unfinished == old(unfinished) + 1
    {
      queue := queue + [item];
      unfinished := unfinished + 1;
    }

    /** `queue.get` on a non-empty queue. */
    method Take() returns (item: QueueItem)
      requires queue != []
      modifies this`queue
      ensures item == old(queue)[0] && queue == old(queue)[1..]
    {
      item := queue[0];
      queue := queue[1..];
    }

    /** `queue.task_done`, which the queue refuses when every item put is already done. */
    method TaskDone()
      requires unfinished > 0
      modifies this`unfinished
      ensures unfinished == old(unfinished) - 1
    {
      unfinished := unfinished - 1;
    }

    /** `pbar.update(1)` */
    method UpdateBar()
      modifies this`progress
      ensures progress == old(progress) + 1
    {
      progress := progress + 1;
    }

    /** `for msg in messages: await queue.put(...)`: the records go on the queue in order. */
    method PutAll(items: seq<QueueItem>)
      modifies this`queue, this`unfinished
      ensures State() == Enqueue(old(State()), items)
    {
      for i := 0 to |items|
        invariant State() == Enqueue(old(State()), items[..i])
      {
        Put(items[i]);
        assert items[..i + 1] == items[..i] + [items[i]];
      }
      assert items[..|items|] == items;
    }

    /** `search_messages`: the author is forced into the parameters, and the request is
        sent again after each 429 once its retry_after has passed. */
    method SearchMessages(chat: Chat, userId: string, params: Params) returns (body: Option<SearchBody>)
      modifies this`searchReplies, this`searchLog, this`sleeps
      ensures Searched(State(), body)
                == Search(old(State()), SearchRequest(chat.kind, chat.id, WithAuthor(params, userId)))
    {
      var req := SearchRequest(chat.kind, chat.id, WithAuthor(params, userId));
      while true
        invariant Search(State(), req) == Search(old(State()), req)
        decreases |searchReplies|
      {
        ghost var w := State();
        var resp := HttpGet(req);
        if resp.None? {
          return None;
        }
        if resp.value.status == TooManyRequests {
          Sleep(resp.value.retryAfterMs);
          assert Search(w, req) == Search(State(), req);
          continue;
        }
        return Some(resp.value.body);
      }
    }

    /** `search_messages_worker`: from empty parameters, search, stop on a zero total,
        put a record of every hit on the queue, move `max_id` to the least hit id and
        search again. */
    method SearchMessagesWorker(chat: Chat, userId: string) returns (end: WorkerEnd)
      modifies this`searchReplies, this`searchLog, this`sleeps, this`queue, this`unfinished
      ensures Worked(State(), end) == Worker(old(State()), chat, userId, map[])
    {
      var params: Params := map[];
      while true
        invariant Worker(State(), chat, userId, params) == Worker(old(State()), chat, userId, map[])
        decreases |searchReplies|
      {
        ghost var w, p := State(), params;
        var result := SearchMessages(chat, userId, params);
        if result.None? {
          return NoReply;
        }
        if result.value.totalResults == 0 {
          return Finished;
        }
        var messages := Hits(Flatten(result.value.messages));
        var items := ToItems(messages);
        PutAll(items);
        if messages == [] {
          return EmptyPage;
        }
        var ids := Ids(messages);
        params := params[MaxId := MinStr(ids)];
        assert Page(p, result.value) == Next(items, params);
        assert Worker(w, chat, userId, p) == Worker(State(), chat, userId, params);
      }
    }

    /** `delete_message`: the delete is sent again after each 429 once its retry_after has
        passed; a 404 leaves the bar alone and any other status moves it by one.
        `answered` is false only when the service has no reply left. */
    method DeleteMessage(item: QueueItem) returns (answered: bool)
      modifies this`deleteReplies, this`deleteLog, this`sleeps, this`progress
      ensures Deleted(State(), answered) == Delete(old(State()), item)
    {
      while true
        invariant Delete(State(), item) == Delete(old(State()), item)
        decreases |deleteReplies|
      {
        ghost var w := State();
        var resp := HttpDelete(item);
        if resp.None? {
          return false;
        }
        if resp.value.status == TooManyRequests {
          Sleep(resp.value.retryAfterMs);
          assert Delete(w, item) == Delete(State(), item);
          continue;
        }
        if resp.value.status == NotFound {
          return true;
        }
        UpdateBar();
        return true;
      }
    }

    /** One pass of `delete_message_consumer`'s loop: `queue.get`, `delete_message`,
        `queue.task_done`; the pass stops after the delete when the service has no reply
        left. */
    method ServeOne() returns (answered: bool)
      requires queue != [] && |queue| <= unfinished
      modifies this`queue, this`unfinished, this`deleteReplies, this`deleteLog, this`sleeps,
               this`progress
      ensures var d := Delete(old(State()).(queue := old(queue)[1..]), old(queue)[0]);
              && answered == d.answered
              && State() == if answered then d.world.(unfinished := d.world.unfinished - 1) else d.world
    {
      var message := Take();
      answered := DeleteMessage(message);
      if answered {
        TaskDone();
      }
    }

    /** `delete_message_consumer`: take the head of the queue, delete it, mark it done,
        until the queue is empty (the point where `queue.join` returns and the consumer
        is cancelled). `done` is false only when the service has no reply left. */
    method DeleteMessageConsumer() returns (done: bool)
      requires |queue| <= unfinished
      modifies this`queue, this`unfinished, this`deleteReplies, this`deleteLog, this`sleeps,
               this`progress
      ensures Drained(State(), done) == Consume(old(State()))
    {
      while true
        invariant |queue| <= unfinished
        invariant Consume(State()) == Consume(old(State()))
        decreases |queue|
      {
        if queue == [] {
          return true;
        }
        ghost var w := State();
        var answered := ServeOne();
        if !answered {
          assert Consume(w) == Drained(State(), false);
          return false;
        }
        assert Consume(w) == Consume(State());
      }
    }

    /** The first loop of `main`: each chat's first search, its `total_results` added up;
        `None` when the service has no reply left. */
    method SearchTotals(chats: seq<Chat>, userId: string) returns (total: Option<int>)
      modifies this`searchReplies, this`searchLog, this`sleeps
      ensures Discovered(State(), total) == Discover(old(State()), chats, userId, 0)
    {
      var totalMessages := 0;
      for i := 0 to |chats|
        invariant Discover(State(), chats[i..], userId, totalMessages)
                    == Discover(old(State()), chats, userId, 0)
      {
        ghost var w, acc := State(), totalMessages;
        var result := SearchMessages(chats[i], userId, map[]);
        if result.None? {
          assert Discover(w, chats[i..], userId, acc) == Discovered(State(), None);
          return None;
        }
        totalMessages := totalMessages + result.value.totalResults;
        assert chats[i..][1..] == chats[i + 1..];
        assert Discover(w, chats[i..], userId, acc)
                 == Discover(State(), chats[i + 1..], userId, totalMessages);
      }
      return Some(totalMessages);
    }

    /** `asyncio.gather` of one producer per chat, in chat order; a producer that raises
        does not stop the others, and the outcome is the worst of theirs. */
    method RunProducers(chats: seq<Chat>, userId: string) returns (end: WorkerEnd)
      modifies this`searchReplies, this`searchLog, this`sleeps, this`queue, this`unfinished
      ensures Worked(State(), end) == Produce(old(State()), chats, userId)
    {
      end := Finished;
      for i := 0 to |chats|
        invariant var r := Produce(State(), chats[i..], userId);
                  Worked(r.world, Worse(end, r.end)) == Produce(old(State()), chats, userId)
      {
        var e := SearchMessagesWorker(chats[i], userId);
        assert chats[i..][1..] == chats[i + 1..];
        end := Worse(end, e);
      }
    }

    /** `main` after the token check and the three profile requests: tag the chats, add
        up their totals, stop on zero, otherwise set up the bar and the queue, run a
        producer for every chat and drain the queue; a producer's `min` failure surfaces
        as `Crashed` once the queue is drained. */
    method Nuke(channels: seq<string>, guilds: seq<string>, userId: string) returns (end: RunEnd)
      modifies this
      ensures Ran(State(), end) == Run(old(State()), channels, guilds, userId)
    {
      var chats := AllChats(channels, guilds);
      var total := SearchTotals(chats, userId);
      if total.None? {
        return Stalled;
      }
      if total.value == 0 {
        return NothingToDo;
      }
      expected, progress := total.value, 0;
      queue, unfinished := [], 0;
      var produced := RunProducers(chats, userId);
      if produced == NoReply {
        return Stalled;
      }
      var done := DeleteMessageConsumer();
      end := if !done then Stalled else if produced == EmptyPage then Crashed else Completed;
    }
  }
}
