/** The pure part of one search page: the request parameters, the hit filter over the
    flattened batches, the queue records, and the next cursor. */
module SearchPage {
  import opened Types
  import opened StringOrder

  /** `{**params, "author_id": user_id}`: the caller's parameters with the author forced
      to the user, whatever the caller passed for it; every other key is kept. */
  function WithAuthor(params: Params, userId: string): (r: Params)
    ensures r.Keys == params.Keys + {AuthorId}
    ensures r[AuthorId] == userId
    ensures forall k :: k in params && k != AuthorId ==> r[k] == params[k]
  {
    params[AuthorId := userId]
  }

  /** `chain(*messages)`: the batches laid end to end. */
  function Flatten(batches: seq<seq<Entry>>): seq<Entry>
  {
    if batches == [] then [] else batches[0] + Flatten(batches[1..])
  }

  /** An entry is in the flattened page exactly when it is in one of its batches. */
  lemma {:induction false} FlattenMembers(batches: seq<seq<Entry>>)
    ensures forall i, e :: 0 <= i < |batches| && e in batches[i] ==> e in Flatten(batches)
    ensures forall e :: e in Flatten(batches) ==> exists i :: 0 <= i < |batches| && e in batches[i]
  {
    if batches != [] {
      var rest := Flatten(batches[1..]);
      FlattenMembers(batches[1..]);
      forall e | e in rest
        ensures exists i :: 1 <= i < |batches| && e in batches[i]
      {
        var j :| 0 <= j < |batches[1..]| && e in batches[1..][j];
        assert e in batches[j + 1];
      }
      forall i, e | 1 <= i < |batches| && e in batches[i]
        ensures e in rest
      {
        assert batches[1..][i - 1] == batches[i];
      }
    }
  }

  lemma {:induction false} FlattenAppend(a: seq<seq<Entry>>, b: seq<seq<Entry>>)
    ensures Flatten(a + b) == Flatten(a) + Flatten(b)
  {
    if a == [] {
      assert a + b == b;
    } else {
      assert (a + b)[1..] == a[1..] + b;
      FlattenAppend(a[1..], b);
    }
  }

  /** `[msg for msg in ... if "hit" in msg]`: the entries that carry a hit, in order. */
  function Hits(entries: seq<Entry>): seq<Entry>
  {
    if entries == [] then []
    else (if entries[0].hasHit then [entries[0]] else []) + Hits(entries[1..])
  }

  /** The hits are at most the entries, and exactly those of them that carry a hit. */
  lemma {:induction false} HitsMembers(entries: seq<Entry>)
    ensures |Hits(entries)| <= |entries|
    ensures forall e :: e in Hits(entries) <==> e in entries && e.hasHit
  {
    if entries != [] {
      HitsMembers(entries[1..]);
      assert forall e :: e in entries <==> e == entries[0] || e in entries[1..];
    }
  }

  lemma {:induction false} HitsAppend(a: seq<Entry>, b: seq<Entry>)
    ensures Hits(a + b) == Hits(a) + Hits(b)
  {
    if a == [] {
      assert a + b == b;
    } else {
      assert (a + b)[1..] == a[1..] + b;
      HitsAppend(a[1..], b);
    }
  }

  /** `{"id": msg["id"], "channel": msg["channel_id"]}` */
  function ToItem(e: Entry): QueueItem
  {
    QueueItem(e.id, e.channelId)
  }

  function ToItems(entries: seq<Entry>): seq<QueueItem>
  {
    seq(|entries|, i requires 0 <= i < |entries| => ToItem(entries[i]))
  }

  /** `[msg["id"] for msg in messages]` */
  function Ids(entries: seq<Entry>): seq<string>
  {
    seq(|entries|, i requires 0 <= i < |entries| => entries[i].id)
  }

  /** The queue records made from the hits of `flat` are exactly the records of its
      hit entries. */
  lemma ItemsAreHits(flat: seq<Entry>)
    ensures forall x :: x in ToItems(Hits(flat)) ==>
      exists e :: e in flat && e.hasHit && x == ToItem(e)
    ensures forall e :: e in flat && e.hasHit ==> ToItem(e) in ToItems(Hits(flat))
  {
    var hits := Hits(flat);
    var items := ToItems(hits);
    HitsMembers(flat);
    forall x | x in items
      ensures exists e :: e in flat && e.hasHit && x == ToItem(e)
    {
      var i :| 0 <= i < |items| && items[i] == x;
      assert hits[i] in hits;
    }
    forall e | e in flat && e.hasHit
      ensures ToItem(e) in items
    {
      var i :| 0 <= i < |hits| && hits[i] == e;
      assert items[i] == ToItem(e);
    }
  }

  /** The cursor taken from a non-empty list of hits is the id of one of their records
      and no record's id is below it in string order. */
  lemma CursorOfHits(hits: seq<Entry>)
    requires |hits| > 0
    ensures exists x :: x in ToItems(hits) && x.id == MinStr(Ids(hits))
    ensures forall x :: x in ToItems(hits) ==> StrLe(MinStr(Ids(hits)), x.id)
  {
    var items, ids := ToItems(hits), Ids(hits);
    var cursor := MinStr(ids);
    var j :| 0 <= j < |ids| && ids[j] == cursor;
    assert items[j] in items && items[j].id == cursor;
    forall x | x in items
      ensures StrLe(cursor, x.id)
    {
      var i :| 0 <= i < |items| && items[i] == x;
      assert ids[i] in ids;
    }
  }

  /** What the worker does with one answered page. */
  datatype Step =
    | Stop                                       // total_results == 0: the worker returns
    | NoHits                                     // no hit on a non-empty page: `min` of an empty list raises
    | Next(items: seq<QueueItem>, params: Params) // enqueue `items`, search again with `params`

  /** One pass of the worker's loop body over an answered page, given the worker's own
      parameters (which never hold `author_id`; the search adds it). */
  function Page(params: Params, body: SearchBody): (r: Step)
    ensures r.Stop? <==> body.totalResults == 0
    ensures r.Next? ==> |r.items| > 0 && r.params.Keys == params.Keys + {MaxId}
    ensures r.Next? ==> forall k :: k in params && k != MaxId ==> r.params[k] == params[k]
  {
    if body.totalResults == 0 then Stop
    else
      var hits := Hits(Flatten(body.messages));
      if hits == [] then NoHits
      else Next(ToItems(hits), params[MaxId := MinStr(Ids(hits))])
  }

  /** A zero total stops the worker; a non-zero total without hits is the `min` failure;
      otherwise exactly the hit entries are enqueued, and the next parameters are the
      old ones with `max_id` set to the least enqueued id in string order. */
  lemma PageSteps(params: Params, body: SearchBody)
    ensures var r := Page(params, body);
      && (r.Stop? <==> body.totalResults == 0)
      && (r.NoHits? <==>
            body.totalResults != 0 && forall e :: e in Flatten(body.messages) ==> !e.hasHit)
      && (r.Next? ==>
            && |r.items| > 0
            && (forall x :: x in r.items ==>
                  exists e :: e in Flatten(body.messages) && e.hasHit && x == ToItem(e))
            && (forall e :: e in Flatten(body.messages) && e.hasHit ==> ToItem(e) in r.items))
      && (r.Next? ==>
            && r.params.Keys == params.Keys + {MaxId}
            && (forall k :: k in params && k != MaxId ==> r.params[k] == params[k])
            && (exists x :: x in r.items && x.id == r.params[MaxId])
            && (forall x :: x in r.items ==> StrLe(r.params[MaxId], x.id)))
  {
    if body.totalResults != 0 {
      var flat := Flatten(body.messages);
      var hits := Hits(flat);
      HitsMembers(flat);
      ItemsAreHits(flat);
      if hits != [] {
        CursorOfHits(hits);
      }
    }
  }
}
