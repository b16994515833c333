# nuke: the search, enqueue and delete kernel in Dafny

`nuke` is a single-file Python script (`main.py`) that deletes all of a user's own
messages on Discord. For each chat (direct-message channels first, then guilds) it pages
through the search endpoint. It puts every hit on a shared `asyncio.Queue`, and one
consumer deletes the queued messages one at a time. A tqdm progress bar counts the
deletes answered with a status other than 429 and 404. Every search and delete request is
re-issued after a `429 Too Many Requests` reply (section 4 of RFC 6585), once the
reply's `retry_after` has passed; the three profile requests of `main` are sent once.

The model replaces the remote service with two scripted reply sequences, one for
searches and one for deletes. Each reply is a status code, a `retry_after` in
milliseconds and an already-decoded body. Every request sent and every suspension taken
is recorded, so the contracts can talk about what was sent and in which order.

Files:

- `types.dfy` (`Types`): the records: chat kinds, tagged chats, search entries and
  bodies, replies, queue records and search requests.
- `chats.dfy` (`Chats`): the kind-tagging of the chat list (`channels + guilds`).
- `string_order.dfy` (`StringOrder`): Python's `str` ordering and the `min` the
  paginator takes. It also shows how that order relates to the decimal value of an id.
- `search_page.dfy` (`SearchPage`): the pure part of one page. This covers the
  parameter merge, the flattening, the hit filter, the queue records and the next
  cursor.
- `model.dfy` (`Model`): the run as recursive functions over one `World` value.
  `Search`, `Worker`, `Delete`, `Consume`, `Discover`, `Produce` and `Run` correspond to
  the script's coroutines, and the lemmas about them carry the properties.
- `tasks.dfy` (`Tasks`): the coroutines as `while` loops in methods of a class
  `Pipeline`. Its fields are the session's replies, the logs, the queue and the bar.
  Each coroutine method's `ensures` says that its new state and result are exactly what
  its `Model` function computes from the old state; the primitive methods (`HttpGet`,
  `HttpDelete`, `Sleep`, `Put`, `Take`, `TaskDone`, `UpdateBar`) state their one change
  directly. So every lemma about the functions holds
  of the methods too.

Behaviours of `main.py` the model keeps:

- **Cursor order.** The next `max_id` is `min(sorted(ids, key=int))`
  (main.py:75). That is the least id in string order, because the numeric sort changes
  nothing that `min` sees. It is the numeric minimum only when all ids have the same
  number of digits (`CursorIsNumericMinimum`). With ids `"9"` and `"10"`, the cursor is
  `"10"` (`CursorNotNumericMinimum`).
- **Source of the cursor.** The cursor comes from the hit entries only, not from every
  entry of the page.
- **Page with no hits.** A page with a non-zero `total_results` and no hit does not end
  the scan. `min` of an empty list raises `ValueError`, and the model's outcome for that
  is `EmptyPage` for the producer and `Crashed` for the run.
- **A producer that raises.** `asyncio.gather` (main.py:179) does not cancel the other
  producers, so they still run. When no request is answered 429, the consumer also
  drains what they queued before `main` raises (`CrashAfterOtherChatsDrain`).
- **Message type.** Only the `"hit"` key decides what is queued; the entry's message
  type is never looked at.
- **Zero-result chats.** A producer is started for every chat, including chats whose
  discovered total was zero (main.py:170-174).
- **404 on delete.** It ends the deletion without moving the bar.
- **Other non-429 statuses.** Any other status moves the bar by one, including 403
  and 500. None of them ends the run.
- **Queue and retries.** The queue is unbounded. A reply without an expected field is
  not retried.

## Model

| member | source | states |
|---|---|---|
| `Chats.Tag` | main.py:132-140 | every chat of a list is kept, in order, and tagged with the one kind |
| `Chats.AllChats` | main.py:132-142 | the chat list is the channels tagged `Channel` followed by the guilds tagged `Guild`, nothing dropped |
| `StringOrder.MinStr` | main.py:75 | the cursor is one of the ids, and no id is below it in Python string order |
| `StringOrder.MinStrPermutation` | main.py:75 | the least string does not depend on list order, so `sorted(ids, key=int)` before `min` has no effect |
| `StringOrder.CursorIsNumericMinimum` | main.py:74-75 | when every id is a decimal of one width, the string minimum is also the numeric minimum |
| `StringOrder.CursorNotNumericMinimum` | main.py:75 | with ids `"9"` and `"10"` the cursor is `"10"`, which is numerically larger than `"9"` |
| `StringOrder.SameWidthOrder` | main.py:75 | for digit strings of one width, string order and numeric order agree in both directions |
| `SearchPage.WithAuthor` | main.py:29 | the search parameters are the caller's with `author_id` set to the user's id, overriding any value the caller gave; all other keys are kept |
| `SearchPage.FlattenMembers` | main.py:64 | an entry is in the flattened page exactly when it is in one of the nested batches |
| `SearchPage.FlattenAppend` | main.py:64 | flattening keeps batch order: the entries of earlier batches come first |
| `SearchPage.HitsMembers` | main.py:64 | the filter keeps exactly the entries that carry a hit, and no more entries than there were |
| `SearchPage.HitsAppend` | main.py:64 | the filter keeps the entries' order |
| `SearchPage.ItemsAreHits` | main.py:64-71 | every queued record is `{id, channel}` of a hit entry, and every hit entry yields a queued record |
| `SearchPage.CursorOfHits` | main.py:74-75 | the cursor is the id of one of the queued records, and no queued id is below it in string order |
| `SearchPage.Page` | main.py:56-78 | one pass of the worker loop stops exactly when `total_results` is zero; when it goes on, it queues at least one record and the next parameters are the old ones with `max_id` added and every other key unchanged |
| `SearchPage.PageSteps` | main.py:56-78 | a zero total stops the worker; a non-zero total with no hit is the `min` failure; otherwise exactly the hits are queued, and the next parameters are the old ones with `max_id` set to the least hit id in string order, every other key unchanged |
| `Model.Search` | main.py:19-43 | a search changes only the search replies, the search log and the suspensions; it sends at least one request; getting a body uses up a reply |
| `Model.SearchRetries` | main.py:32-41 | k 429 replies before another reply give k+1 identical requests and k suspensions of the declared durations, in order |
| `Model.SearchAnswer` | main.py:32-43 | the search returns the body of the first reply that is not 429 and uses the replies up to it; with only 429s left it returns nothing |
| `Model.SearchSendsOnly` | main.py:29-36 | every request a search sends is the same path and parameters |
| `Model.SearchUses` | main.py:32-43 | the replies a search uses are a head of the script, and only the last of them, when a body comes back, is not 429 |
| `Model.SearchSettles` | main.py:32-43 | when a body comes back, the requests pair one to one with the replies used, and the only one not answered 429 is the request itself |
| `Model.Worker` | main.py:46-78 | a worker changes only the search side, the suspensions and the queue; it only appends to the queue and keeps the count of unfinished items in step with it |
| `Model.WorkerRequests` | main.py:29-55 | a worker's first request uses empty worker parameters plus the author; every request it sends is for its own chat with `author_id` equal to the user's id |
| `Model.WorkerEnqueuesHits` | main.py:54-78 | a worker appends exactly the hit records of the pages it is answered with, page after page and in flattened order, and nothing else |
| `Model.WorkerNextCursor` | main.py:74-78 | after a page with hits, the next request the worker sends is for its chat, has `author_id` equal to the user's id and `max_id` equal to the least hit id of that page in string order |
| `Model.WorkerStopsOnZero` | main.py:59-61 | a page with `total_results == 0` finishes the worker with nothing queued and no further request |
| `Model.WorkerFailsOnEmptyPage` | main.py:64-75 | a page with a non-zero total and no hit ends the worker with the `min` failure and nothing queued |
| `Model.Delete` | main.py:81-102 | a delete changes only the delete side, the suspensions and the bar, and it moves the bar by at most one |
| `Model.DeleteRetries` | main.py:89-96 | k 429 replies before another reply give k+1 deletes of the same message and k suspensions of the declared durations |
| `Model.DeleteAnswer` | main.py:89-102 | after the 429s, a 404 leaves the bar unchanged and any other status moves it by exactly one; the delete is answered exactly when a reply other than 429 comes |
| `Model.DeleteUses` | main.py:93-102 | the bar moves by the number of used replies that are neither 429 nor 404 |
| `Model.DeleteSettles` | main.py:89-102 | an answered delete is settled for its own message alone |
| `Model.DeleteAgainNotFound` | main.py:98-99 | deleting a message again when the service answers 404 adds nothing to the bar, so over both deletes it moves at most once |
| `Model.DeleteRetriedOnce` | main.py:89-102 | 429 with retry_after 2000 and then 204 give one 2000 ms suspension, two identical deletes and one step of the bar |
| `Model.Consume` | main.py:105-113 | a drained queue is empty and every taken item is marked done; the consumer changes only the delete side, the suspensions, the queue and the bar |
| `Model.ConsumeUses` | main.py:110-113 | the bar moves once for each used delete reply that is neither 429 nor 404 |
| `Model.ConsumeSettles` | main.py:110-113 | draining the queue settles its items one at a time in FIFO order: the deletes not answered 429 are exactly the queued items, in queue order |
| `Model.ConsumeProgress` | main.py:110-113 | draining the queue moves the bar at most once per queued item |
| `Model.Discover` | main.py:145-160 | the counting loop changes only the search side and the suspensions |
| `Model.DiscoverSums` | main.py:145-160 | when every chat is answered, the total is the sum of `total_results` over one answered first search per chat, and those searches are the chats' first searches in chat order |
| `Model.Produce` | main.py:170-179 | the producers, all of them even when one raises, change only the search side, the suspensions and the queue; they only append to the queue and keep the unfinished count in step with it |
| `Model.ProduceEnqueuesHits` | main.py:54-78 | the producers together append exactly the hit records of the pages they are answered with, chat after chat and page after page, and nothing else |
| `Model.ProduceStartsEveryChat` | main.py:170-174 | every chat had its producer start with its first search, including chats whose discovered total was zero and chats after one whose producer raised |
| `Model.Run` | main.py:132-181 | a run with nothing to do deletes and queues nothing and leaves the bar; a run that completes or crashes has drained the queue, marked every item done, and had a non-zero discovery total |
| `Model.RunOutcomes` | main.py:132-181 | the run ends with nothing to do exactly when the discovery total is zero, and then nothing is deleted or queued; a run that completes or crashes set the bar's total to the discovery total, drained the queue with every item done, and started a producer for every chat |
| `Model.RunDeletesEveryHit` | main.py:166-181 | a run that completes or crashes settles, one at a time and in queue order, exactly the hit records of every page the producers were answered with |
| `Model.RunProgressBound` | main.py:166-181 | a run that completes or crashes moves the bar at most once per record the producers queued |
| `Model.CrashAfterOtherChatsDrain` | main.py:170-181 | when chat "a" gets a page without hits and chat "b" one hit, "b" is still searched twice, its hit is deleted and the bar moves once before the run ends `Crashed` |
| `Tasks.Pipeline.HttpGet` | main.py:33-36 | a search request is logged and the next scripted reply, if any, is consumed and returned |
| `Tasks.Pipeline.HttpDelete` | main.py:90-91 | a delete request is logged and the next scripted reply, if any, is consumed and returned |
| `Tasks.Pipeline.Sleep` | main.py:39-40 | a suspension is recorded by its declared duration |
| `Tasks.Pipeline.Put` | main.py:68-71 | `queue.put` appends the record and adds one unfinished item |
| `Tasks.Pipeline.Take` | main.py:111 | `queue.get` returns the head of the queue and removes it |
| `Tasks.Pipeline.TaskDone` | main.py:113 | `queue.task_done` takes one unfinished item off the count |
| `Tasks.Pipeline.UpdateBar` | main.py:101 | `pbar.update(1)` moves the bar by one |
| `Tasks.Pipeline.PutAll` | main.py:67-71 | the records go on the queue in order |
| `Tasks.Pipeline.SearchMessages` | main.py:19-43 | the retry loop ends in the state and body `Model.Search` gives |
| `Tasks.Pipeline.SearchMessagesWorker` | main.py:46-78 | the worker loop, started from empty parameters, ends in the state and outcome `Model.Worker` gives |
| `Tasks.Pipeline.DeleteMessage` | main.py:81-102 | the delete loop ends in the state `Model.Delete` gives |
| `Tasks.Pipeline.ServeOne` | main.py:110-113 | one consumer pass takes the head, deletes it, and marks it done when the delete was answered |
| `Tasks.Pipeline.DeleteMessageConsumer` | main.py:105-113 | the consumer loop ends in the state `Model.Consume` gives |
| `Tasks.Pipeline.SearchTotals` | main.py:145-160 | the counting loop ends in the state and total `Model.Discover` gives |
| `Tasks.Pipeline.RunProducers` | main.py:170-179 | every producer runs, even after one raises, and they end in the state and outcome `Model.Produce` gives |
| `Tasks.Pipeline.Nuke` | main.py:132-181 | `main` after the token check ends in the state and outcome `Model.Run` gives, draining the queue before a producer's failure surfaces |

## Left out

- The token, the session headers and the identity check (main.py:117-128) are left
  out. So are the requests for the guild and channel lists (main.py:129-130). These are
  environment and network I/O. The chat ids and the user's id are parameters of `Run`.
  These three requests are sent once, with no 429 retry, so a 429 body there would be
  taken as the user or a chat list; the model starts from well-formed lists.
- URLs and HTTP are replaced by `SearchRequest` values and scripted replies. When the
  script runs out, the outcome is `NoReply` or `Stalled`. That outcome is only the
  model's way to end the script's `while True` loops on a finite input; the service the
  script talks to always answers.
- `asyncio.sleep(retry_after / 1000)` becomes a recorded suspension of `retry_after`
  milliseconds. No time passes and no division into seconds happens.
- Concurrency is not modelled: `asyncio.create_task`, `asyncio.gather`, the consumer
  running beside the producers, and `consumer.cancel()`. The producers run one after
  another in chat order, every one of them, then the consumer drains the queue. When no
  request is answered 429, that is the script's order too. `requests` is synchronous and
  `put` on the unbounded queue never waits, so each producer runs to its end in one step.
  The consumer task is created after every producer (main.py:176), so it first runs after
  all of them, and `main` waits at `gather` and `join` (main.py:179-180). A 429 makes a
  producer sleep (main.py:40), and the next producers send their searches and put their
  records in the meantime. That interleaves chats in the search log, the queue and so the
  order of deletes, and it changes which scripted search reply answers which chat. The
  model's order is then not the script's.
- `Tasks.Pipeline.Nuke` and `Model.Run`: when some request is answered 429, a
  producer's `ValueError` can surface before the other producers end and before the
  queue is drained; the model always runs every producer and drains first.
- `retry_after` is a JSON number that may be fractional; the model keeps it as an
  `int` of milliseconds.
- The recipient-name formatting, all `print` output and the tqdm rendering are left out
  (main.py:144-157, 163, 169). Only the bar's total and count are kept.
- JSON decoding is left out, and so are the `KeyError`s on missing fields. Bodies are
  typed records, and a search entry keeps only its id, its channel id and whether it
  has a `"hit"` key.
- An exception inside `delete_message` is left out. In the script it would end the
  consumer task and leave `queue.join()` waiting forever.
- `Model.Worker`: the `sorted(ids, key=int)` before `min` is not computed, and neither
  is the `ValueError` it raises on a non-decimal id. `StringOrder.MinStrPermutation`
  shows that the sort cannot change the result of `min`.
