/** The run as functions over one value: the replies the service still has to give,
    the requests sent to it, the suspensions taken, the message queue and the progress
    bar. Producers run one after another into the shared queue, every one of them even when
    one raises, then the consumer drains it. */
module Model {
  import opened Types
  import opened StringOrder
  import opened SearchPage
  import opened Chats

  datatype World = World(
    searchReplies: seq<SearchReply>,  // replies the service gives to the next searches, in order
    deleteReplies: seq<DeleteReply>,  // replies the service gives to the next deletes, in order
    searchLog: seq<SearchRequest>,    // every search request sent
    deleteLog: seq<QueueItem>,        // every delete request sent
    sleeps: seq<int>,                 // the retry_after (ms) of every suspension taken
    queue: seq<QueueItem>,            // the asyncio.Queue's items, head first
    unfinished: nat,                  // items put and not yet marked done
    expected: int,                    // the progress bar's total
    progress: nat)                    // the progress bar's count

  lemma HeadTail<T>(s: seq<T>)
    requires s != []
    ensures s == [s[0]] + s[1..]
  {
  }

  lemma AppendAssoc<T>(a: seq<T>, b: seq<T>, c: seq<T>)
    ensures a + b + c == a + (b + c)
  {
  }

  function Repeat<T>(x: T, n: nat): seq<T>
  {
    seq(n, _ => x)
  }

  function Delays<B>(replies: seq<Response<B>>): seq<int>
  {
    seq(|replies|, i requires 0 <= i < |replies| => replies[i].retryAfterMs)
  }

  lemma RepeatCons<T>(x: T, n: nat)
    ensures [x] + Repeat(x, n) == Repeat(x, n + 1)
  {
    assert forall i :: 0 <= i < n + 1 ==> ([x] + Repeat(x, n))[i] == x;
  }

  /** The delays of the first k replies after peeling off the head. */
  lemma DelaysCons<B>(replies: seq<Response<B>>, k: nat)
    requires 0 < k <= |replies|
    ensures [replies[0].retryAfterMs] + Delays(replies[1..][..k - 1]) == Delays(replies[..k])
  {
    assert replies[1..][..k - 1] == replies[1..k];
  }

  /** One more 429 in front of a retry run: one more copy of the request and one more
      delay at the front. */
  lemma RetryStep<T, B>(log: seq<T>, x: T, sleeps: seq<int>, replies: seq<Response<B>>,
                        logEnd: seq<T>, sleepsEnd: seq<int>)
    requires replies != [] && replies[0].status == TooManyRequests
    requires logEnd == log + [x] + Repeat(x, Throttled(replies[1..]) + 1)
    requires sleepsEnd == sleeps + [replies[0].retryAfterMs]
                          + Delays(replies[1..][..Throttled(replies[1..])])
    ensures logEnd == log + Repeat(x, Throttled(replies) + 1)
    ensures sleepsEnd == sleeps + Delays(replies[..Throttled(replies)])
  {
    var k := Throttled(replies);
    assert Throttled(replies[1..]) == k - 1;
    RepeatCons(x, k);
    DelaysCons(replies, k);
    AppendAssoc(log, [x], Repeat(x, k));
    AppendAssoc(sleeps, [replies[0].retryAfterMs], Delays(replies[1..][..k - 1]));
  }

  /** The number of 429 replies at the head of `replies`. */
  function Throttled<B>(replies: seq<Response<B>>): (k: nat)
    ensures k <= |replies|
    ensures forall j :: 0 <= j < k ==> replies[j].status == TooManyRequests
    ensures k < |replies| ==> replies[k].status != TooManyRequests
  {
    if replies == [] || replies[0].status != TooManyRequests then 0
    else 1 + Throttled(replies[1..])
  }

  /** The bodies of the replies that were not 429, in order. */
  function Answered<B>(replies: seq<Response<B>>): seq<B>
  {
    if replies == [] then []
    else (if replies[0].status == TooManyRequests then [] else [replies[0].body]) + Answered(replies[1..])
  }

  /** The requests whose reply was not 429, in order, pairing the i-th request with the
      i-th reply. */
  function Settled<T, B>(reqs: seq<T>, replies: seq<Response<B>>): seq<T>
    requires |reqs| == |replies|
  {
    if reqs == [] then []
    else (if replies[0].status == TooManyRequests then [] else [reqs[0]]) + Settled(reqs[1..], replies[1..])
  }

  /** The number of delete replies that move the progress bar: neither 429 nor 404. */
  function Progressed(replies: seq<DeleteReply>): nat
  {
    if replies == [] then 0
    else (if replies[0].status in {TooManyRequests, NotFound} then 0 else 1) + Progressed(replies[1..])
  }

  /** The head of `before` that was used up when only `after` is left. */
  function Used<B>(before: seq<B>, after: seq<B>): seq<B>
  {
    if |after| <= |before| then before[..|before| - |after|] else before
  }

  // ---------------------------------------------------------------- search_messages

  datatype Searched = Searched(world: World, body: Option<SearchBody>)

  /** `search_messages`: send `req` until a reply other than 429 comes, suspending for
      each 429's retry_after; `None` when the service has no reply left. */
  function Search(w: World, req: SearchRequest): (r: Searched)
    ensures r.world == w.(searchReplies := r.world.searchReplies, searchLog := r.world.searchLog,
                          sleeps := r.world.sleeps)
    ensures |r.world.searchReplies| <= |w.searchReplies|
    ensures r.body.Some? ==> |r.world.searchReplies| < |w.searchReplies|
    ensures |w.searchLog| < |r.world.searchLog| && r.world.searchLog[..|w.searchLog|] == w.searchLog
    decreases |w.searchReplies|
  {
    if w.searchReplies == [] then Searched(w.(searchLog := w.searchLog + [req]), None)
    else
      var reply := w.searchReplies[0];
      if reply.status == TooManyRequests then
        Search(w.(searchLog := w.searchLog + [req], searchReplies := w.searchReplies[1..],
                  sleeps := w.sleeps + [reply.retryAfterMs]), req)
      else
        Searched(w.(searchLog := w.searchLog + [req], searchReplies := w.searchReplies[1..]), Some(reply.body))
  }

  /** k 429 replies then another: k + 1 identical requests and k suspensions of the
      declared durations. */
  lemma {:induction false} SearchRetries(w: World, req: SearchRequest)
    decreases |w.searchReplies|
    ensures var k := Throttled(w.searchReplies);
            var s := Search(w, req);
            && s.world.searchLog == w.searchLog + Repeat(req, k + 1)
            && s.world.sleeps == w.sleeps + Delays(w.searchReplies[..k])
  {
    var replies := w.searchReplies;
    if replies != [] && replies[0].status == TooManyRequests {
      var reply := replies[0];
      var w2 := w.(searchLog := w.searchLog + [req], searchReplies := replies[1..],
                   sleeps := w.sleeps + [reply.retryAfterMs]);
      assert Search(w, req) == Search(w2, req);
      SearchRetries(w2, req);
      var r := Search(w2, req).world;
      RetryStep(w.searchLog, req, w.sleeps, replies, r.searchLog, r.sleeps);
    } else {
      assert Delays(replies[..0]) == [];
    }
  }

  /** The search gets the body of the first reply that is not 429 and uses up the replies
      up to it; with only 429s left, it gets no body and uses them all. */
  lemma {:induction false} SearchAnswer(w: World, req: SearchRequest)
    decreases |w.searchReplies|
    ensures var k := Throttled(w.searchReplies);
            var s := Search(w, req);
            && (k < |w.searchReplies| ==>
                  s.body == Some(w.searchReplies[k].body) && s.world.searchReplies == w.searchReplies[k + 1..])
            && (k == |w.searchReplies| ==> s.body == None && s.world.searchReplies == [])
  {
    var replies := w.searchReplies;
    if replies != [] && replies[0].status == TooManyRequests {
      var w2 := w.(searchLog := w.searchLog + [req], searchReplies := replies[1..],
                   sleeps := w.sleeps + [replies[0].retryAfterMs]);
      SearchAnswer(w2, req);
      var k := Throttled(replies);
      assert Throttled(replies[1..]) == k - 1;
      if k < |replies| {
        assert replies[1..][k - 1] == replies[k];
        assert replies[1..][k..] == replies[k + 1..];
      }
    }
  }

  /** Peeling off the head of the replies a request used up. */
  lemma UsedHead<B>(all: seq<B>, rest: seq<B>)
    requires |rest| < |all|
    ensures Used(all, rest) == [all[0]] + Used(all[1..], rest)
    ensures Used(all, rest)[1..] == Used(all[1..], rest)
  {
    assert all[1..][..|all| - 1 - |rest|] == all[1..|all| - |rest|];
  }

  /** The replies one search uses up are a head of the replies it found. */
  lemma {:induction false} SearchUsesHead(w: World, req: SearchRequest)
    decreases |w.searchReplies|
    ensures var s := Search(w, req);
            w.searchReplies == Used(w.searchReplies, s.world.searchReplies) + s.world.searchReplies
  {
    var replies := w.searchReplies;
    var s := Search(w, req);
    if replies != [] && replies[0].status == TooManyRequests {
      var w2 := w.(searchLog := w.searchLog + [req], searchReplies := replies[1..],
                   sleeps := w.sleeps + [replies[0].retryAfterMs]);
      assert s == Search(w2, req);
      SearchUsesHead(w2, req);
      UsedHead(replies, s.world.searchReplies);
    }
  }

  /** The replies one search uses up are 429s and, when it gets a body, that one reply. */
  lemma {:induction false} SearchUses(w: World, req: SearchRequest)
    decreases |w.searchReplies|
    ensures var s := Search(w, req);
            && w.searchReplies == Used(w.searchReplies, s.world.searchReplies) + s.world.searchReplies
            && Answered(Used(w.searchReplies, s.world.searchReplies)) == (if s.body.Some? then [s.body.value] else [])
  {
    SearchUsesHead(w, req);
    var replies := w.searchReplies;
    var s := Search(w, req);
    if replies != [] && replies[0].status == TooManyRequests {
      var w2 := w.(searchLog := w.searchLog + [req], searchReplies := replies[1..],
                   sleeps := w.sleeps + [replies[0].retryAfterMs]);
      assert s == Search(w2, req);
      SearchUses(w2, req);
      UsedHead(replies, s.world.searchReplies);
    } else if replies != [] {
      assert Used(replies, s.world.searchReplies) == [replies[0]];
    }
  }

  /** When a search gets a body, the only request the service settles is `req`: its
      requests pair one to one with the replies it used up, and all but the last got 429. */
  lemma {:induction false} SearchSettles(w: World, req: SearchRequest)
    decreases |w.searchReplies|
    ensures var s := Search(w, req);
            s.body.Some? ==>
              var used := Used(w.searchReplies, s.world.searchReplies);
              && |s.world.searchLog| == |w.searchLog| + |used|
              && Settled(s.world.searchLog[|w.searchLog|..], used) == [req]
  {
    var replies := w.searchReplies;
    var s := Search(w, req);
    if replies != [] && replies[0].status == TooManyRequests {
      var w2 := w.(searchLog := w.searchLog + [req], searchReplies := replies[1..],
                   sleeps := w.sleeps + [replies[0].retryAfterMs]);
      assert s == Search(w2, req);
      SearchSettles(w2, req);
      if s.body.Some? {
        UsedHead(replies, s.world.searchReplies);
        var delta := s.world.searchLog[|w.searchLog|..];
        assert delta[1..] == s.world.searchLog[|w2.searchLog|..];
      }
    } else if replies != [] {
      assert Used(replies, s.world.searchReplies) == [replies[0]];
      assert s.world.searchLog[|w.searchLog|..] == [req];
    }
  }

  // ---------------------------------------------------------------- search_messages_worker

  datatype WorkerEnd =
    | Finished   // a page with total_results == 0
    | EmptyPage  // a non-empty page without hits: `min` of an empty list raises
    | NoReply    // the service ran out of replies

  datatype Worked = Worked(world: World, end: WorkerEnd)

  /** `queue.put` of each item, in order. */
  function Enqueue(w: World, items: seq<QueueItem>): World
  {
    w.(queue := w.queue + items, unfinished := w.unfinished + |items|)
  }

  /** `search_messages_worker` from the worker parameters `params` on: search, stop on a
      zero total, enqueue the hits, move the cursor, repeat. */
  function Worker(w: World, chat: Chat, userId: string, params: Params): (r: Worked)
    ensures r.world == w.(searchReplies := r.world.searchReplies, searchLog := r.world.searchLog,
                          sleeps := r.world.sleeps, queue := r.world.queue,
                          unfinished := r.world.unfinished)
    ensures |r.world.searchReplies| <= |w.searchReplies|
    ensures w.searchLog < r.world.searchLog
    ensures w.queue <= r.world.queue
    ensures r.world.unfinished - |r.world.queue| == w.unfinished - |w.queue|
    decreases |w.searchReplies|
  {
    var s := Search(w, SearchRequest(chat.kind, chat.id, WithAuthor(params, userId)));
    if s.body.None? then Worked(s.world, NoReply)
    else
      var step := Page(params, s.body.value);
      if step.Stop? then Worked(s.world, Finished)
      else if step.NoHits? then Worked(s.world, EmptyPage)
      else
        Worker(Enqueue(s.world, step.items), chat, userId, step.params)
  }

  /** A first page with `total_results == 0` ends the worker at once: nothing is put on
      the queue and no further search is sent. */
  lemma WorkerStopsOnZero(w: World, chat: Chat, userId: string, params: Params)
    requires var s := Search(w, SearchRequest(chat.kind, chat.id, WithAuthor(params, userId)));
             s.body.Some? && s.body.value.totalResults == 0
    ensures var s := Search(w, SearchRequest(chat.kind, chat.id, WithAuthor(params, userId)));
            var r := Worker(w, chat, userId, params);
            && r.end == Finished
            && r.world.queue == w.queue && r.world.unfinished == w.unfinished
            && r.world.searchLog == s.world.searchLog
  {
  }

  /** A first page with a non-zero total and no hit ends the worker with the `min`
      failure, not as a finished scan; nothing is put on the queue. */
  lemma WorkerFailsOnEmptyPage(w: World, chat: Chat, userId: string, params: Params)
    requires var s := Search(w, SearchRequest(chat.kind, chat.id, WithAuthor(params, userId)));
             && s.body.Some? && s.body.value.totalResults != 0
             && forall e :: e in Flatten(s.body.value.messages) ==> !e.hasHit
    ensures var r := Worker(w, chat, userId, params);
            r.end == EmptyPage && r.world.queue == w.queue && r.world.unfinished == w.unfinished
  {
    var s := Search(w, SearchRequest(chat.kind, chat.id, WithAuthor(params, userId)));
    PageSteps(params, s.body.value);
  }

  /** Search requests all for `chat` on behalf of `userId`. */
  predicate AllForChat(qs: seq<SearchRequest>, chat: Chat, userId: string)
  {
    forall q :: q in qs ==> q.kind == chat.kind && q.chatId == chat.id && AuthorId in q.params && q.params[AuthorId] == userId
  }

  /** Every request one search sends is `req`. */
  lemma {:induction false} SearchSendsOnly(w: World, req: SearchRequest)
    ensures var s := Search(w, req);
            && s.world.searchLog[|w.searchLog|] == req
            && forall q :: q in s.world.searchLog[|w.searchLog|..] ==> q == req
    decreases |w.searchReplies|
  {
    var s := Search(w, req);
    var w1 := w.(searchLog := w.searchLog + [req]);
    if w.searchReplies != [] && w.searchReplies[0].status == TooManyRequests {
      var w2 := w1.(searchReplies := w.searchReplies[1..], sleeps := w.sleeps + [w.searchReplies[0].retryAfterMs]);
      assert s == Search(w2, req);
      SearchSendsOnly(w2, req);
      assert s.world.searchLog[|w.searchLog|..] == [req] + s.world.searchLog[|w2.searchLog|..];
    } else {
      assert s.world.searchLog == w1.searchLog;
    }
  }

  /** The requests one search of a worker sends are all the same request for its chat. */
  lemma SearchForChat(w: World, chat: Chat, userId: string, params: Params)
    ensures var req := SearchRequest(chat.kind, chat.id, WithAuthor(params, userId));
            var s := Search(w, req);
            && s.world.searchLog[|w.searchLog|] == req
            && AllForChat(s.world.searchLog[|w.searchLog|..], chat, userId)
  {
    var req := SearchRequest(chat.kind, chat.id, WithAuthor(params, userId));
    SearchSendsOnly(w, req);
  }

  /** A log that extends `prefix` with requests for the chat keeps every request from
      position `a` on for the chat. */
  lemma AllForChatJoin(log: seq<SearchRequest>, prefix: seq<SearchRequest>, a: nat, chat: Chat, userId: string)
    requires a < |prefix| && prefix <= log
    requires AllForChat(prefix[a..], chat, userId) && AllForChat(log[|prefix|..], chat, userId)
    ensures log[a] == prefix[a]
    ensures AllForChat(log[a..], chat, userId)
  {
    assert log[a..] == prefix[a..] + log[|prefix|..];
  }

  /** Every request a worker sends is for its own chat and carries `author_id` equal to
      the user's id; the first is the search with the worker's starting parameters. */
  lemma {:induction false} WorkerRequests(w: World, chat: Chat, userId: string, params: Params)
    ensures var r := Worker(w, chat, userId, params);
            && r.world.searchLog[|w.searchLog|] == SearchRequest(chat.kind, chat.id, WithAuthor(params, userId))
            && AllForChat(r.world.searchLog[|w.searchLog|..], chat, userId)
    decreases |w.searchReplies|
  {
    var req := SearchRequest(chat.kind, chat.id, WithAuthor(params, userId));
    var s := Search(w, req);
    SearchForChat(w, chat, userId, params);
    var r := Worker(w, chat, userId, params);
    if s.body.Some? && Page(params, s.body.value).Next? {
      var step := Page(params, s.body.value);
      var w2 := Enqueue(s.world, step.items);
      assert r == Worker(w2, chat, userId, step.params);
      WorkerRequests(w2, chat, userId, step.params);
      AllForChatJoin(r.world.searchLog, s.world.searchLog, |w.searchLog|, chat, userId);
    } else {
      assert r.world == s.world;
    }
  }

  /** After a page with hits, the worker's next request is for the same chat, carries
      `author_id` equal to the user's id and `max_id` equal to the least hit id of that
      page in string order. */
  lemma WorkerNextCursor(w: World, chat: Chat, userId: string, params: Params)
    requires var s := Search(w, SearchRequest(chat.kind, chat.id, WithAuthor(params, userId)));
             s.body.Some? && Page(params, s.body.value).Next?
    ensures var s := Search(w, SearchRequest(chat.kind, chat.id, WithAuthor(params, userId)));
            var r := Worker(w, chat, userId, params);
            var hits := Hits(Flatten(s.body.value.messages));
            && |s.world.searchLog| < |r.world.searchLog|
            && var q := r.world.searchLog[|s.world.searchLog|];
               && q.kind == chat.kind && q.chatId == chat.id
               && AuthorId in q.params && q.params[AuthorId] == userId
               && MaxId in q.params && q.params[MaxId] == MinStr(Ids(hits))
  {
    var s := Search(w, SearchRequest(chat.kind, chat.id, WithAuthor(params, userId)));
    var step := Page(params, s.body.value);
    var w2 := Enqueue(s.world, step.items);
    WorkerRequests(w2, chat, userId, step.params);
    assert MaxId != AuthorId;
  }

  /** The records one answered page contributes: none for a zero total, else its hits'. */
  function PageOut(body: SearchBody): seq<QueueItem>
  {
    if body.totalResults == 0 then [] else ToItems(Hits(Flatten(body.messages)))
  }

  /** The records of the answered pages, page after page. */
  function PageItems(bodies: seq<SearchBody>): seq<QueueItem>
  {
    if bodies == [] then [] else PageOut(bodies[0]) + PageItems(bodies[1..])
  }

  lemma {:induction false} AnsweredAppend<B>(a: seq<Response<B>>, b: seq<Response<B>>)
    ensures Answered(a + b) == Answered(a) + Answered(b)
  {
    if a == [] {
      assert a + b == b;
    } else {
      assert (a + b)[1..] == a[1..] + b;
      AnsweredAppend(a[1..], b);
    }
  }

  lemma {:induction false} SettledAppend<T, B>(x: seq<T>, a: seq<Response<B>>, y: seq<T>, b: seq<Response<B>>)
    requires |x| == |a| && |y| == |b|
    ensures Settled(x + y, a + b) == Settled(x, a) + Settled(y, b)
  {
    if x == [] {
      assert x + y == y && a + b == b;
    } else {
      assert (x + y)[1..] == x[1..] + y && (a + b)[1..] == a[1..] + b;
      SettledAppend(x[1..], a[1..], y, b);
    }
  }

  lemma {:induction false} ProgressedAppend(a: seq<DeleteReply>, b: seq<DeleteReply>)
    ensures Progressed(a + b) == Progressed(a) + Progressed(b)
  {
    if a == [] {
      assert a + b == b;
    } else {
      assert (a + b)[1..] == a[1..] + b;
      ProgressedAppend(a[1..], b);
    }
  }

  /** Splitting off the replies one search used up. */
  lemma UsedAppend<B>(all: seq<B>, mid: seq<B>, rest: seq<B>)
    requires |rest| <= |mid| <= |all|
    requires all == Used(all, mid) + mid && mid == Used(mid, rest) + rest
    ensures all == Used(all, rest) + rest
    ensures Used(all, rest) == Used(all, mid) + Used(mid, rest)
  {
  }

  /** The records of a page answered first, ahead of those of the pages after it. */
  lemma PageItemsAfter(used1: seq<SearchReply>, used2: seq<SearchReply>, body: SearchBody)
    requires Answered(used1) == [body]
    ensures PageItems(Answered(used1 + used2)) == PageOut(body) + PageItems(Answered(used2))
  {
    AnsweredAppend(used1, used2);
    var later := Answered(used2);
    assert ([body] + later)[1..] == later;
  }

  /** One answered page followed by the rest of a worker's run, on the queue alone. */
  lemma QueueAfterPage(used1: seq<SearchReply>, used2: seq<SearchReply>,
                       q: seq<QueueItem>, qr: seq<QueueItem>, body: SearchBody)
    requires Answered(used1) == [body]
    requires qr == q + PageOut(body) + PageItems(Answered(used2))
    ensures qr == q + PageItems(Answered(used1 + used2))
  {
    PageItemsAfter(used1, used2, body);
    AppendAssoc(q, PageOut(body), PageItems(Answered(used2)));
  }

  /** A worker enqueues exactly the hit records of the pages it is answered with, in
      order, and nothing else. */
  lemma {:induction false} WorkerEnqueuesHits(w: World, chat: Chat, userId: string, params: Params)
    ensures var r := Worker(w, chat, userId, params);
            var used := Used(w.searchReplies, r.world.searchReplies);
            && w.searchReplies == used + r.world.searchReplies
            && r.world.queue == w.queue + PageItems(Answered(used))
    decreases |w.searchReplies|
  {
    var req := SearchRequest(chat.kind, chat.id, WithAuthor(params, userId));
    var s := Search(w, req);
    SearchUses(w, req);
    var r := Worker(w, chat, userId, params);
    if s.body.Some? && Page(params, s.body.value).Next? {
      var body := s.body.value;
      var step := Page(params, body);
      var w2 := Enqueue(s.world, step.items);
      assert r == Worker(w2, chat, userId, step.params);
      WorkerEnqueuesHits(w2, chat, userId, step.params);
      assert step.items == PageOut(body);
      assert r.world.queue == w.queue + PageOut(body) + PageItems(Answered(Used(w2.searchReplies, r.world.searchReplies)));
      var used1 := Used(w.searchReplies, s.world.searchReplies);
      var used2 := Used(s.world.searchReplies, r.world.searchReplies);
      UsedAppend(w.searchReplies, s.world.searchReplies, r.world.searchReplies);
      QueueAfterPage(used1, used2, w.queue, r.world.queue, body);
    } else {
      assert r.world == s.world;
      if s.body.Some? {
        assert PageOut(s.body.value) == [];
        assert PageItems([s.body.value]) == PageOut(s.body.value) + PageItems([]);
      }
    }
  }

  // ---------------------------------------------------------------- delete_message

  datatype Deleted = Deleted(world: World, answered: bool)

  /** `delete_message`: send the delete until a reply other than 429 comes, suspending
      for each 429; a 404 leaves the bar alone, any other status moves it by one. */
  function Delete(w: World, item: QueueItem): (r: Deleted)
    ensures r.world == w.(deleteReplies := r.world.deleteReplies, deleteLog := r.world.deleteLog,
                          sleeps := r.world.sleeps, progress := r.world.progress)
    ensures |r.world.deleteReplies| <= |w.deleteReplies|
    ensures w.progress <= r.world.progress <= w.progress + 1
    ensures |w.deleteLog| < |r.world.deleteLog| && r.world.deleteLog[..|w.deleteLog|] == w.deleteLog
    decreases |w.deleteReplies|
  {
    if w.deleteReplies == [] then Deleted(w.(deleteLog := w.deleteLog + [item]), false)
    else
      var reply := w.deleteReplies[0];
      if reply.status == TooManyRequests then
        Delete(w.(deleteLog := w.deleteLog + [item], deleteReplies := w.deleteReplies[1..],
                  sleeps := w.sleeps + [reply.retryAfterMs]), item)
      else if reply.status == NotFound then
        Deleted(w.(deleteLog := w.deleteLog + [item], deleteReplies := w.deleteReplies[1..]), true)
      else
        Deleted(w.(deleteLog := w.deleteLog + [item], deleteReplies := w.deleteReplies[1..],
                   progress := w.progress + 1), true)
  }

  /** k 429 replies then another: k + 1 deletes of the same message and k suspensions
      of the declared durations. */
  lemma {:induction false} DeleteRetries(w: World, item: QueueItem)
    decreases |w.deleteReplies|
    ensures var k := Throttled(w.deleteReplies);
            var d := Delete(w, item);
            && d.world.deleteLog == w.deleteLog + Repeat(item, k + 1)
            && d.world.sleeps == w.sleeps + Delays(w.deleteReplies[..k])
  {
    var replies := w.deleteReplies;
    if replies != [] && replies[0].status == TooManyRequests {
      var reply := replies[0];
      var w2 := w.(deleteLog := w.deleteLog + [item], deleteReplies := replies[1..],
                   sleeps := w.sleeps + [reply.retryAfterMs]);
      assert Delete(w, item) == Delete(w2, item);
      DeleteRetries(w2, item);
      var r := Delete(w2, item).world;
      RetryStep(w.deleteLog, item, w.sleeps, replies, r.deleteLog, r.sleeps);
    } else {
      assert Delays(replies[..0]) == [];
    }
  }

  /** After the 429s, a 404 leaves the bar alone and any other status moves it by exactly
      one; with only 429s left, the delete gets no answer and the bar does not move. */
  lemma {:induction false} DeleteAnswer(w: World, item: QueueItem)
    decreases |w.deleteReplies|
    ensures var k := Throttled(w.deleteReplies);
            var d := Delete(w, item);
            && (d.answered <==> k < |w.deleteReplies|)
            && (k < |w.deleteReplies| ==>
                  && d.world.deleteReplies == w.deleteReplies[k + 1..]
                  && d.world.progress == w.progress + (if w.deleteReplies[k].status == NotFound then 0 else 1))
            && (k == |w.deleteReplies| ==> d.world.deleteReplies == [] && d.world.progress == w.progress)
  {
    var replies := w.deleteReplies;
    if replies != [] && replies[0].status == TooManyRequests {
      var w2 := w.(deleteLog := w.deleteLog + [item], deleteReplies := replies[1..],
                   sleeps := w.sleeps + [replies[0].retryAfterMs]);
      DeleteAnswer(w2, item);
      var k := Throttled(replies);
      assert Throttled(replies[1..]) == k - 1;
      if k < |replies| {
        assert replies[1..][k - 1] == replies[k];
        assert replies[1..][k..] == replies[k + 1..];
      }
    }
  }

  /** The replies one delete uses up are a head of the replies it found. */
  lemma {:induction false} DeleteUsesHead(w: World, item: QueueItem)
    decreases |w.deleteReplies|
    ensures var d := Delete(w, item);
            w.deleteReplies == Used(w.deleteReplies, d.world.deleteReplies) + d.world.deleteReplies
  {
    var replies := w.deleteReplies;
    var d := Delete(w, item);
    if replies != [] && replies[0].status == TooManyRequests {
      var w2 := w.(deleteLog := w.deleteLog + [item], deleteReplies := replies[1..],
                   sleeps := w.sleeps + [replies[0].retryAfterMs]);
      assert d == Delete(w2, item);
      DeleteUsesHead(w2, item);
      UsedHead(replies, d.world.deleteReplies);
    }
  }

  /** The replies one delete uses up move the bar by exactly the number of them that are
      neither 429 nor 404. */
  lemma {:induction false} DeleteUses(w: World, item: QueueItem)
    decreases |w.deleteReplies|
    ensures var d := Delete(w, item);
            && w.deleteReplies == Used(w.deleteReplies, d.world.deleteReplies) + d.world.deleteReplies
            && d.world.progress == w.progress + Progressed(Used(w.deleteReplies, d.world.deleteReplies))
  {
    DeleteUsesHead(w, item);
    var replies := w.deleteReplies;
    var d := Delete(w, item);
    if replies != [] && replies[0].status == TooManyRequests {
      var w2 := w.(deleteLog := w.deleteLog + [item], deleteReplies := replies[1..],
                   sleeps := w.sleeps + [replies[0].retryAfterMs]);
      assert d == Delete(w2, item);
      DeleteUses(w2, item);
      UsedHead(replies, d.world.deleteReplies);
    } else if replies != [] {
      assert Used(replies, d.world.deleteReplies) == [replies[0]];
    }
  }

  /** An answered delete is settled for `item` alone. */
  lemma {:induction false} DeleteSettles(w: World, item: QueueItem)
    decreases |w.deleteReplies|
    ensures var d := Delete(w, item);
            d.answered ==>
              var used := Used(w.deleteReplies, d.world.deleteReplies);
              && |d.world.deleteLog| == |w.deleteLog| + |used|
              && Settled(d.world.deleteLog[|w.deleteLog|..], used) == [item]
  {
    var replies := w.deleteReplies;
    var d := Delete(w, item);
    if replies != [] && replies[0].status == TooManyRequests {
      var w2 := w.(deleteLog := w.deleteLog + [item], deleteReplies := replies[1..],
                   sleeps := w.sleeps + [replies[0].retryAfterMs]);
      assert d == Delete(w2, item);
      DeleteSettles(w2, item);
      if d.answered {
        UsedHead(replies, d.world.deleteReplies);
        var delta := d.world.deleteLog[|w.deleteLog|..];
        assert delta[1..] == d.world.deleteLog[|w2.deleteLog|..];
      }
    } else if replies != [] {
      assert Used(replies, d.world.deleteReplies) == [replies[0]];
      assert d.world.deleteLog[|w.deleteLog|..] == [item];
    }
  }

  /** Deleting a message a second time when the service answers 404 adds nothing: over
      both deletes the bar moves at most once. */
  lemma DeleteAgainNotFound(w: World, item: QueueItem)
    requires Delete(w, item).answered
    requires var w1 := Delete(w, item).world;
             var k := Throttled(w1.deleteReplies);
             k < |w1.deleteReplies| && w1.deleteReplies[k].status == NotFound
    ensures var w1 := Delete(w, item).world;
            var w2 := Delete(w1, item).world;
            w2.progress == w1.progress && w2.progress <= w.progress + 1
  {
    DeleteAnswer(Delete(w, item).world, item);
  }

  /** A delete answered 429 (retry after two seconds) and then 204: one suspension of
      2000 ms, two identical delete requests and one step of the bar. */
  lemma DeleteRetriedOnce(w: World, item: QueueItem)
    requires w.deleteReplies == [Response(TooManyRequests, 2000, ()), Response(204, 0, ())]
    ensures var d := Delete(w, item);
            && d.answered
            && d.world.sleeps == w.sleeps + [2000]
            && d.world.deleteLog == w.deleteLog + [item, item]
            && d.world.progress == w.progress + 1
            && d.world.deleteReplies == []
  {
    DeleteRetries(w, item);
    DeleteAnswer(w, item);
    assert Throttled(w.deleteReplies) == 1;
    assert Repeat(item, 2) == [item, item];
    assert Delays(w.deleteReplies[..1]) == [2000];
  }

  // ---------------------------------------------------------------- delete_message_consumer

  datatype Drained = Drained(world: World, done: bool)

  /** `delete_message_consumer` until the queue is empty: take the head, delete it, mark
      it done; stops early when a delete gets no reply. */
  function Consume(w: World): (r: Drained)
    requires |w.queue| <= w.unfinished
    ensures r.world == w.(queue := r.world.queue, unfinished := r.world.unfinished,
                          deleteReplies := r.world.deleteReplies, deleteLog := r.world.deleteLog,
                          sleeps := r.world.sleeps, progress := r.world.progress)
    ensures |r.world.queue| <= r.world.unfinished
    ensures r.done ==> r.world.queue == [] && r.world.unfinished == w.unfinished - |w.queue|
    ensures |r.world.deleteReplies| <= |w.deleteReplies|
    ensures |w.deleteLog| <= |r.world.deleteLog| && r.world.deleteLog[..|w.deleteLog|] == w.deleteLog
    decreases |w.queue|
  {
    if w.queue == [] then Drained(w, true)
    else
      var d := Delete(w.(queue := w.queue[1..]), w.queue[0]);
      if !d.answered then Drained(d.world, false)
      else Consume(d.world.(unfinished := d.world.unfinished - 1))
  }

  lemma {:induction false} ProgressedAtMostSettled(reqs: seq<QueueItem>, replies: seq<DeleteReply>)
    requires |reqs| == |replies|
    ensures Progressed(replies) <= |Settled(reqs, replies)|
  {
    if reqs != [] {
      ProgressedAtMostSettled(reqs[1..], replies[1..]);
    }
  }

  /** Pairing two stretches of one log with the two stretches of replies they used up. */
  lemma SettledSplit<T, B>(log: seq<T>, a: nat, m: nat, used1: seq<Response<B>>, used2: seq<Response<B>>)
    requires a <= m <= |log|
    requires m == a + |used1| && |log| == m + |used2|
    ensures |log| == a + |used1 + used2|
    ensures Settled(log[a..], used1 + used2) == Settled(log[a..m], used1) + Settled(log[m..], used2)
  {
    assert log[a..] == log[a..m] + log[m..];
    SettledAppend(log[a..m], used1, log[m..], used2);
  }

  /** A request settled on the first stretch of replies, then `later` on the rest. */
  lemma SettledStep<T, B>(all: seq<Response<B>>, mid: seq<Response<B>>, rest: seq<Response<B>>,
                          log: seq<T>, a: nat, m: nat, first: T, later: seq<T>)
    requires |rest| <= |mid| <= |all|
    requires all == Used(all, mid) + mid && mid == Used(mid, rest) + rest
    requires a <= m <= |log| && m == a + |Used(all, mid)| && |log| == m + |Used(mid, rest)|
    requires Settled(log[..m][a..], Used(all, mid)) == [first]
    requires Settled(log[m..], Used(mid, rest)) == later
    ensures |log| == a + |Used(all, rest)|
    ensures Settled(log[a..], Used(all, rest)) == [first] + later
  {
    UsedAppend(all, mid, rest);
    assert log[..m][a..] == log[a..m];
    SettledSplit(log, a, m, Used(all, mid), Used(mid, rest));
  }

  /** The replies the consumer uses up move the bar once for each that is neither 429
      nor 404. */
  lemma {:induction false} ConsumeUses(w: World)
    requires |w.queue| <= w.unfinished
    ensures var c := Consume(w);
            var used := Used(w.deleteReplies, c.world.deleteReplies);
            && w.deleteReplies == used + c.world.deleteReplies
            && c.world.progress == w.progress + Progressed(used)
    decreases |w.queue|
  {
    var c := Consume(w);
    if w.queue == [] {
      assert Used(w.deleteReplies, c.world.deleteReplies) == [];
    } else {
      var item := w.queue[0];
      var w1 := w.(queue := w.queue[1..]);
      var d := Delete(w1, item);
      DeleteUses(w1, item);
      if d.answered {
        var w3 := d.world.(unfinished := d.world.unfinished - 1);
        assert c == Consume(w3);
        ConsumeUses(w3);
        UsedAppend(w.deleteReplies, w3.deleteReplies, c.world.deleteReplies);
        ProgressedAppend(Used(w.deleteReplies, w3.deleteReplies), Used(w3.deleteReplies, c.world.deleteReplies));
      } else {
        assert c.world == d.world;
      }
    }
  }

  /** Draining the whole queue settles its items in FIFO order, one at a time: the delete
      requests the service answers with something other than 429 are exactly the queued
      items, in queue order. */
  lemma {:induction false} ConsumeSettles(w: World)
    requires |w.queue| <= w.unfinished
    ensures var c := Consume(w);
            c.done ==>
              var used := Used(w.deleteReplies, c.world.deleteReplies);
              && |c.world.deleteLog| == |w.deleteLog| + |used|
              && Settled(c.world.deleteLog[|w.deleteLog|..], used) == w.queue
    decreases |w.queue|
  {
    var c := Consume(w);
    if w.queue == [] {
      assert Used(w.deleteReplies, c.world.deleteReplies) == [];
    } else {
      var item := w.queue[0];
      var w1 := w.(queue := w.queue[1..]);
      var d := Delete(w1, item);
      DeleteSettles(w1, item);
      if d.answered && c.done {
        var w3 := d.world.(unfinished := d.world.unfinished - 1);
        assert c == Consume(w3);
        DeleteUses(w1, item);
        ConsumeSettles(w3);
        ConsumeUses(w3);
        SettledStep(w.deleteReplies, w3.deleteReplies, c.world.deleteReplies,
                    c.world.deleteLog, |w.deleteLog|, |w3.deleteLog|, item, w3.queue);
        assert w3.queue == w.queue[1..];
        HeadTail(w.queue);
      }
    }
  }

  /** A drained queue moves the bar at most once per item. */
  lemma ConsumeProgress(w: World)
    requires |w.queue| <= w.unfinished
    ensures var c := Consume(w);
            c.done ==> c.world.progress <= w.progress + |w.queue|
  {
    var c := Consume(w);
    ConsumeUses(w);
    ConsumeSettles(w);
    if c.done {
      var used := Used(w.deleteReplies, c.world.deleteReplies);
      ProgressedAtMostSettled(c.world.deleteLog[|w.deleteLog|..], used);
    }
  }

  // ---------------------------------------------------------------- main

  /** The first search a producer sends for `chat`: no parameters but the author. */
  function FirstSearch(chat: Chat, userId: string): SearchRequest
  {
    SearchRequest(chat.kind, chat.id, WithAuthor(map[], userId))
  }

  function InitialRequests(chats: seq<Chat>, userId: string): seq<SearchRequest>
  {
    if chats == [] then []
    else [FirstSearch(chats[0], userId)] + InitialRequests(chats[1..], userId)
  }

  function SumTotals(bodies: seq<SearchBody>): int
  {
    if bodies == [] then 0 else bodies[0].totalResults + SumTotals(bodies[1..])
  }

  datatype Discovered = Discovered(world: World, total: Option<int>)

  /** The totals of a page answered first, ahead of those of the pages after it. */
  lemma TotalsAfter(used1: seq<SearchReply>, used2: seq<SearchReply>, body: SearchBody)
    requires Answered(used1) == [body]
    ensures |Answered(used1 + used2)| == 1 + |Answered(used2)|
    ensures SumTotals(Answered(used1 + used2)) == body.totalResults + SumTotals(Answered(used2))
  {
    AnsweredAppend(used1, used2);
    var later := Answered(used2);
    assert ([body] + later)[1..] == later;
  }

  /** The counting loop of `main`: one search per chat, adding up `total_results`
      onto `acc`; `None` when a search gets no reply. */
  function Discover(w: World, chats: seq<Chat>, userId: string, acc: int): (r: Discovered)
    ensures r.world == w.(searchReplies := r.world.searchReplies, searchLog := r.world.searchLog,
                          sleeps := r.world.sleeps)
    ensures |r.world.searchReplies| <= |w.searchReplies|
    ensures |w.searchLog| <= |r.world.searchLog| && r.world.searchLog[..|w.searchLog|] == w.searchLog
    decreases chats
  {
    if chats == [] then Discovered(w, Some(acc))
    else
      var s := Search(w, FirstSearch(chats[0], userId));
      if s.body.None? then Discovered(s.world, None)
      else Discover(s.world, chats[1..], userId, acc + s.body.value.totalResults)
  }

  /** When every chat gets an answer, the total is `acc` plus the sum of `total_results`
      over the one answered reply per chat, and the requests the service settles are the
      chats' first searches, one per chat, in chat order. */
  lemma {:induction false} DiscoverSums(w: World, chats: seq<Chat>, userId: string, acc: int)
    ensures var r := Discover(w, chats, userId, acc);
            var used := Used(w.searchReplies, r.world.searchReplies);
            && w.searchReplies == used + r.world.searchReplies
            && (r.total.Some? ==>
                  && |Answered(used)| == |chats|
                  && r.total.value == acc + SumTotals(Answered(used))
                  && |r.world.searchLog| == |w.searchLog| + |used|
                  && Settled(r.world.searchLog[|w.searchLog|..], used) == InitialRequests(chats, userId))
    decreases chats
  {
    var r := Discover(w, chats, userId, acc);
    if chats == [] {
      assert Used(w.searchReplies, w.searchReplies) == [];
    } else {
      var req := FirstSearch(chats[0], userId);
      var s := Search(w, req);
      SearchUses(w, req);
      if s.body.None? {
        assert r.world == s.world;
      } else {
        var acc2 := acc + s.body.value.totalResults;
        assert r == Discover(s.world, chats[1..], userId, acc2);
        DiscoverSums(s.world, chats[1..], userId, acc2);
        var used1 := Used(w.searchReplies, s.world.searchReplies);
        var used2 := Used(s.world.searchReplies, r.world.searchReplies);
        UsedAppend(w.searchReplies, s.world.searchReplies, r.world.searchReplies);
        TotalsAfter(used1, used2, s.body.value);
        if r.total.Some? {
          SearchSettles(w, req);
          SettledStep(w.searchReplies, s.world.searchReplies, r.world.searchReplies,
                      r.world.searchLog, |w.searchLog|, |s.world.searchLog|, req,
                      InitialRequests(chats[1..], userId));
        }
      }
    }
  }

  /** The outcome `asyncio.gather` reports for two groups of producers: the service
      running out of replies outweighs the `min` failure, which outweighs finishing. */
  function Worse(a: WorkerEnd, b: WorkerEnd): WorkerEnd
  {
    if a == NoReply || b == NoReply then NoReply
    else if a == EmptyPage || b == EmptyPage then EmptyPage
    else Finished
  }

  /** The producers of `main`, one per chat, run one after another into the shared queue.
      A producer that raises does not stop the others (`asyncio.gather` does not cancel
      them), so every chat's producer runs; the outcome is the worst of theirs. */
  function Produce(w: World, chats: seq<Chat>, userId: string): (r: Worked)
    ensures r.world == w.(searchReplies := r.world.searchReplies, searchLog := r.world.searchLog,
                          sleeps := r.world.sleeps, queue := r.world.queue,
                          unfinished := r.world.unfinished)
    ensures |r.world.searchReplies| <= |w.searchReplies|
    ensures w.searchLog <= r.world.searchLog
    ensures w.queue <= r.world.queue
    ensures r.world.unfinished - |r.world.queue| == w.unfinished - |w.queue|
    decreases chats
  {
    if chats == [] then Worked(w, Finished)
    else
      var p := Worker(w, chats[0], userId, map[]);
      var rest := Produce(p.world, chats[1..], userId);
      Worked(rest.world, Worse(p.end, rest.end))
  }

  lemma {:induction false} PageItemsAppend(a: seq<SearchBody>, b: seq<SearchBody>)
    ensures PageItems(a + b) == PageItems(a) + PageItems(b)
  {
    if a == [] {
      assert a + b == b;
    } else {
      assert (a + b)[1..] == a[1..] + b;
      PageItemsAppend(a[1..], b);
    }
  }

  /** The producers together append exactly the hit records of the pages they are
      answered with, chat after chat and page after page, and nothing else. */
  lemma {:induction false} ProduceEnqueuesHits(w: World, chats: seq<Chat>, userId: string)
    ensures var r := Produce(w, chats, userId);
            var used := Used(w.searchReplies, r.world.searchReplies);
            && w.searchReplies == used + r.world.searchReplies
            && r.world.queue == w.queue + PageItems(Answered(used))
    decreases chats
  {
    var r := Produce(w, chats, userId);
    if chats == [] {
      assert Used(w.searchReplies, w.searchReplies) == [];
    } else {
      var p := Worker(w, chats[0], userId, map[]);
      assert r.world == Produce(p.world, chats[1..], userId).world;
      WorkerEnqueuesHits(w, chats[0], userId, map[]);
      ProduceEnqueuesHits(p.world, chats[1..], userId);
      var used1 := Used(w.searchReplies, p.world.searchReplies);
      var used2 := Used(p.world.searchReplies, r.world.searchReplies);
      UsedAppend(w.searchReplies, p.world.searchReplies, r.world.searchReplies);
      AnsweredAppend(used1, used2);
      PageItemsAppend(Answered(used1), Answered(used2));
      AppendAssoc(w.queue, PageItems(Answered(used1)), PageItems(Answered(used2)));
    }
  }

  /** Every chat of `chats` had its first search sent somewhere in `log`. */
  predicate StartedAll(log: seq<SearchRequest>, chats: seq<Chat>, userId: string)
  {
    forall c :: c in chats ==> FirstSearch(c, userId) in log
  }

  /** The first producer's opening search, followed by the others' opening searches
      later in the log, covers every chat. */
  lemma StartedJoin(log: seq<SearchRequest>, mid: seq<SearchRequest>, a: nat, chats: seq<Chat>,
                    userId: string)
    requires chats != [] && a < |mid| && mid <= log
    requires mid[a] == FirstSearch(chats[0], userId)
    requires StartedAll(log[|mid|..], chats[1..], userId)
    ensures StartedAll(log[a..], chats, userId)
  {
    forall c | c in chats
      ensures FirstSearch(c, userId) in log[a..]
    {
      var req := FirstSearch(c, userId);
      if c == chats[0] {
        assert log[a..][0] == req;
      } else {
        assert c in chats[1..];
        var j :| 0 <= j < |log[|mid|..]| && log[|mid|..][j] == req;
        assert log[a..][j + |mid| - a] == req;
      }
    }
  }

  /** Each chat, whatever its discovered total and whatever the other producers did,
      had a producer: its first search is in the log. */
  lemma {:induction false} ProduceStartsEveryChat(w: World, chats: seq<Chat>, userId: string)
    ensures var p := Produce(w, chats, userId);
            StartedAll(p.world.searchLog[|w.searchLog|..], chats, userId)
    decreases chats
  {
    var p := Produce(w, chats, userId);
    if chats != [] {
      var q := Worker(w, chats[0], userId, map[]);
      assert p.world == Produce(q.world, chats[1..], userId).world;
      WorkerRequests(w, chats[0], userId, map[]);
      ProduceStartsEveryChat(q.world, chats[1..], userId);
      StartedJoin(p.world.searchLog, q.world.searchLog, |w.searchLog|, chats, userId);
    }
  }

  datatype RunEnd =
    | NothingToDo  // the discovery total was zero
    | Completed    // every producer finished and the queue was drained
    | Crashed      // a producer raised on a page without hits; the queue was drained before `main` raised
    | Stalled      // the service ran out of replies

  datatype Ran = Ran(world: World, end: RunEnd)

  /** `main` after the token check: tag the chats, add up their totals, stop on zero,
      otherwise start the progress bar and the queue, run a producer for every chat and
      drain the queue; a producer's `min` failure is raised once the queue is drained. */
  function Run(w: World, channels: seq<string>, guilds: seq<string>, userId: string): (r: Ran)
    ensures r.end == NothingToDo ==>
              r.world.deleteLog == w.deleteLog && r.world.queue == w.queue && r.world.progress == w.progress
    ensures r.end == Completed || r.end == Crashed ==>
              r.world.queue == [] && r.world.unfinished == 0 && r.world.expected != 0
  {
    var chats := AllChats(channels, guilds);
    var d := Discover(w, chats, userId, 0);
    match d.total
    case None => Ran(d.world, Stalled)
    case Some(total) =>
      if total == 0 then Ran(d.world, NothingToDo)
      else
        var started := d.world.(expected := total, progress := 0, queue := [], unfinished := 0);
        var p := Produce(started, chats, userId);
        if p.end == NoReply then Ran(p.world, Stalled)
        else
          var c := Consume(p.world);
          Ran(c.world, if !c.done then Stalled else if p.end == EmptyPage then Crashed else Completed)
  }

  /** A zero discovery total ends the run before anything is deleted. A run that drains
      the queue, completed or crashed, has the bar's total set to the discovery total,
      every item marked done, and a producer started for every chat after discovery. */
  lemma RunOutcomes(w: World, channels: seq<string>, guilds: seq<string>, userId: string)
    ensures var r := Run(w, channels, guilds, userId);
            var chats := AllChats(channels, guilds);
            var d := Discover(w, chats, userId, 0);
            && (r.end == NothingToDo <==> d.total == Some(0))
            && (r.end == NothingToDo ==>
                  r.world.deleteLog == w.deleteLog && r.world.deleteReplies == w.deleteReplies
                  && r.world.progress == w.progress && r.world.queue == w.queue)
            && (r.end == Completed || r.end == Crashed ==>
                  && d.total.Some? && r.world.expected == d.total.value
                  && r.world.queue == [] && r.world.unfinished == 0
                  && StartedAll(r.world.searchLog[|d.world.searchLog|..], chats, userId))
  {
    var chats := AllChats(channels, guilds);
    var d := Discover(w, chats, userId, 0);
    if d.total.Some? && d.total.value != 0 {
      var started := d.world.(expected := d.total.value, progress := 0, queue := [], unfinished := 0);
      ProduceStartsEveryChat(started, chats, userId);
    }
  }

  /** The producers' state when the run gets past discovery with a non-zero total. It
      repeats the first half of `Run` (discovery, then a fresh bar and queue) only so that
      the lemmas below can name the state the consumer starts from. */
  function Produced(w: World, channels: seq<string>, guilds: seq<string>, userId: string): Worked
  {
    var chats := AllChats(channels, guilds);
    var d := Discover(w, chats, userId, 0);
    var total := if d.total.Some? then d.total.value else 0;
    Produce(d.world.(expected := total, progress := 0, queue := [], unfinished := 0), chats, userId)
  }

  /** A run that drains the queue deletes exactly the hit records of every page the
      producers were answered with, in that order, one message at a time: the deletes the
      service answers with something other than 429 are those records and nothing else. */
  lemma RunDeletesEveryHit(w: World, channels: seq<string>, guilds: seq<string>, userId: string)
    ensures var r := Run(w, channels, guilds, userId);
            var d := Discover(w, AllChats(channels, guilds), userId, 0);
            var p := Produced(w, channels, guilds, userId);
            var produced := Used(d.world.searchReplies, p.world.searchReplies);
            var deletes := Used(w.deleteReplies, r.world.deleteReplies);
            r.end == Completed || r.end == Crashed ==>
              && |r.world.deleteLog| == |w.deleteLog| + |deletes|
              && Settled(r.world.deleteLog[|w.deleteLog|..], deletes) == PageItems(Answered(produced))
  {
    var r := Run(w, channels, guilds, userId);
    var chats := AllChats(channels, guilds);
    var d := Discover(w, chats, userId, 0);
    if r.end == Completed || r.end == Crashed {
      var started := d.world.(expected := d.total.value, progress := 0, queue := [], unfinished := 0);
      var p := Produce(started, chats, userId);
      assert p == Produced(w, channels, guilds, userId);
      ProduceEnqueuesHits(started, chats, userId);
      ConsumeSettles(p.world);
    }
  }

  /** A run that drains the queue moves the bar at most once per record the producers put
      on the queue; 404 replies and repeated records are why it can stay below. */
  lemma RunProgressBound(w: World, channels: seq<string>, guilds: seq<string>, userId: string)
    ensures var r := Run(w, channels, guilds, userId);
            r.end == Completed || r.end == Crashed ==>
              r.world.progress <= |Produced(w, channels, guilds, userId).world.queue|
  {
    var r := Run(w, channels, guilds, userId);
    var chats := AllChats(channels, guilds);
    var d := Discover(w, chats, userId, 0);
    if r.end == Completed || r.end == Crashed {
      var started := d.world.(expected := d.total.value, progress := 0, queue := [], unfinished := 0);
      var p := Produce(started, chats, userId);
      assert p == Produced(w, channels, guilds, userId);
      ConsumeProgress(p.world);
    }
  }

  // ---------------------------------------------------------------- a producer that raises

  const NoHitReply: SearchReply := Response(200, 0, SearchBody(1, [[Entry("1", "a", false)]]))
  const HitReply: SearchReply := Response(200, 0, SearchBody(1, [[Entry("7", "b", true)]]))
  const LastReply: SearchReply := Response(200, 0, SearchBody(0, []))

  /** A search whose first reply is not 429 is answered by it at once. */
  lemma SearchAtOnce(w: World, req: SearchRequest)
    requires w.searchReplies != [] && w.searchReplies[0].status != TooManyRequests
    ensures Search(w, req)
              == Searched(w.(searchLog := w.searchLog + [req], searchReplies := w.searchReplies[1..]),
                          Some(w.searchReplies[0].body))
  {
  }

  /** Discovery over chats "a" and "b" answered by one page each: total 2. */
  lemma ScenarioDiscover(w: World)
    requires w.searchReplies == [NoHitReply, HitReply, NoHitReply, HitReply, LastReply]
    ensures var d := Discover(w, [Chat("a", Channel), Chat("b", Channel)], "u", 0);
            && d.total == Some(2)
            && d.world == w.(searchReplies := [NoHitReply, HitReply, LastReply],
                             searchLog := w.searchLog + [FirstSearch(Chat("a", Channel), "u"),
                                                         FirstSearch(Chat("b", Channel), "u")])
  {
    var chats := [Chat("a", Channel), Chat("b", Channel)];
    var qa, qb := FirstSearch(chats[0], "u"), FirstSearch(chats[1], "u");
    SearchAtOnce(w, qa);
    var w1 := w.(searchLog := w.searchLog + [qa], searchReplies := w.searchReplies[1..]);
    assert Discover(w, chats, "u", 0) == Discover(w1, chats[1..], "u", 1);
    SearchAtOnce(w1, qb);
    var w2 := w1.(searchLog := w1.searchLog + [qb], searchReplies := w1.searchReplies[1..]);
    assert chats[1..][1..] == [];
    assert Discover(w1, chats[1..], "u", 1) == Discover(w2, [], "u", 2);
    assert w2.searchReplies == [NoHitReply, HitReply, LastReply];
    assert w2.searchLog == w.searchLog + [qa, qb];
  }

  /** The producer of "a" sees a page without hits and raises, having queued nothing. */
  lemma ScenarioProducerA(v: World)
    requires v.searchReplies == [NoHitReply, HitReply, LastReply]
    ensures var p := Worker(v, Chat("a", Channel), "u", map[]);
            && p.end == EmptyPage
            && p.world == v.(searchReplies := [HitReply, LastReply],
                             searchLog := v.searchLog + [FirstSearch(Chat("a", Channel), "u")])
  {
    var s := Search(v, FirstSearch(Chat("a", Channel), "u"));
    assert s.body == Some(NoHitReply.body);
    assert Flatten(NoHitReply.body.messages) == [Entry("1", "a", false)];
    assert Hits([Entry("1", "a", false)]) == [];
  }

  /** The producer of "b" queues its one hit, searches again below it and finishes. */
  lemma ScenarioProducerB(v: World)
    requires v.searchReplies == [HitReply, LastReply]
    ensures var p := Worker(v, Chat("b", Channel), "u", map[]);
            && p.end == Finished
            && p.world.queue == v.queue + [QueueItem("7", "b")]
            && p.world.unfinished == v.unfinished + 1
            && p.world.searchReplies == []
            && |p.world.searchLog| == |v.searchLog| + 2
  {
    var s := Search(v, FirstSearch(Chat("b", Channel), "u"));
    assert s.body == Some(HitReply.body);
    assert Flatten(HitReply.body.messages) == [Entry("7", "b", true)];
    assert Hits([Entry("7", "b", true)]) == [Entry("7", "b", true)];
    var step := Page(map[], HitReply.body);
    assert step.items == [QueueItem("7", "b")];
    var v2 := Enqueue(s.world, step.items);
    var s2 := Search(v2, SearchRequest(Channel, "b", WithAuthor(step.params, "u")));
    assert s2.body == Some(LastReply.body);
  }

  /** The consumer deletes the one queued record; 204 moves the bar. */
  lemma ScenarioConsume(v: World)
    requires v.queue == [QueueItem("7", "b")] && v.unfinished == 1
    requires v.deleteReplies == [Response(204, 0, ())] && v.deleteLog == [] && v.progress == 0
    ensures var c := Consume(v);
            c.done && c.world.progress == 1 && c.world.deleteLog == [QueueItem("7", "b")]
  {
    var d := Delete(v.(queue := []), QueueItem("7", "b"));
    assert d.answered && d.world.progress == 1;
  }

  /** Both producers run: "a" raises, "b" queues "7" and finishes. */
  lemma ScenarioProduce(v: World)
    requires v.searchReplies == [NoHitReply, HitReply, LastReply] && v.queue == [] && v.unfinished == 0
    ensures var p := Produce(v, [Chat("a", Channel), Chat("b", Channel)], "u");
            && p.end == EmptyPage
            && p.world.queue == [QueueItem("7", "b")] && p.world.unfinished == 1
            && p.world.deleteReplies == v.deleteReplies && p.world.deleteLog == v.deleteLog
            && p.world.progress == v.progress && |p.world.searchLog| == |v.searchLog| + 3
  {
    var chats := [Chat("a", Channel), Chat("b", Channel)];
    ScenarioProducerA(v);
    var pa := Worker(v, chats[0], "u", map[]);
    ScenarioProducerB(pa.world);
    var pb := Worker(pa.world, chats[1], "u", map[]);
    assert chats[1..][0] == chats[1] && chats[1..][1..] == [];
    assert Produce(pb.world, [], "u") == Worked(pb.world, Finished);
    var rest := Produce(pa.world, chats[1..], "u");
    assert rest == Worked(pb.world, Worse(pb.end, Finished));
  }

  /** Chat "a" answers with a page that has no hit, chat "b" with one hit, "7", then an
      empty page. The producer of "a" raises, yet "b"'s producer still runs, "7" is
      deleted and the bar moves once before the run ends with the failure. */
  lemma CrashAfterOtherChatsDrain(w: World)
    requires w.searchReplies == [NoHitReply, HitReply, NoHitReply, HitReply, LastReply]
    requires w.deleteReplies == [Response(204, 0, ())] && w.deleteLog == [] && w.searchLog == []
    ensures var r := Run(w, ["a", "b"], [], "u");
            && r.end == Crashed
            && r.world.deleteLog == [QueueItem("7", "b")]
            && r.world.progress == 1
            && |r.world.searchLog| == 5
  {
    var chats := AllChats(["a", "b"], []);
    assert chats == [Chat("a", Channel), Chat("b", Channel)];
    ScenarioDiscover(w);
    var d := Discover(w, chats, "u", 0);
    var started := d.world.(expected := 2, progress := 0, queue := [], unfinished := 0);
    ScenarioProduce(started);
    var p := Produce(started, chats, "u");
    ScenarioConsume(p.world);
    var c := Consume(p.world);
    assert Run(w, ["a", "b"], [], "u") == Ran(c.world, Crashed);
  }
}
