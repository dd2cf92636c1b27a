/** The per-user product-claim queue. `Site` holds the WordPress state both
    halves share: the transient store (where the queue lives, one key per
    user, with an expiry time), the post-meta store (where each widget
    instance keeps its write-once assignment) and the clock. The producer is
    `Ajax_Handler::store_product_reference` behind `create_product`; the
    consumer is `My_Custom_Widget::get_user_product_id` with its two
    post-meta helpers. */
module ClaimQueue {
  import opened Php
  import opened CustomWidget
  import AjaxHandler

  /** WordPress's `DAY_IN_SECONDS`: the lifetime both halves give the queue. */
  const DayInSeconds: nat := 86400

  /** A transient's value: a PHP list of product IDs, or any other PHP value. */
  datatype Stored = IdList(ids: seq<int>) | OtherValue

  datatype Transient = Transient(value: Stored, expiresAt: int)

  /** `get_transient`: `false` once the timeout is in the past. */
  function ReadTransient(store: map<string, Transient>, now: int, key: string): (v: Option<Stored>)
    ensures v.Some? <==> key in store && now <= store[key].expiresAt
    ensures v.Some? ==> v.value == store[key].value
  {
    if key in store && now <= store[key].expiresAt then Some(store[key].value) else None
  }

  /** A user's queue as both halves read it: a missing, expired or non-list
      value is the empty queue. */
  function QueueIn(store: map<string, Transient>, now: int, userId: nat): (q: seq<int>)
    ensures ReadTransient(store, now, QueueKey(userId)).Some?
            && ReadTransient(store, now, QueueKey(userId)).value.IdList? ==>
              q == store[QueueKey(userId)].value.ids
    ensures q != [] ==> QueueKey(userId) in store && now <= store[QueueKey(userId)].expiresAt
                        && store[QueueKey(userId)].value == IdList(q)
  {
    match ReadTransient(store, now, QueueKey(userId))
    case Some(IdList(ids)) => ids
    case _ => []
  }

  /** The producer writes exactly the key the consumer reads. */
  lemma ProducerKeyIsConsumerKey(userId: nat)
    ensures AjaxHandler.ProducerQueueKey(userId) == QueueKey(userId)
  {
  }

  /** Writing one user's queue leaves every other user's queue as it was. */
  lemma QueuesAreIsolated(store: map<string, Transient>, now: int, writer: nat, t: Transient, u: nat)
    requires u != writer
    ensures QueueIn(store[QueueKey(writer) := t], now, u) == QueueIn(store, now, u)
  {
    if QueueKey(u) == QueueKey(writer) {
      QueueKeyInjective(u, writer);
    }
  }

  class Site {
    var transients: map<string, Transient>
    var postMeta: map<(nat, string), int>
    var now: int

    constructor (start: int)
      ensures transients == map[] && postMeta == map[] && now == start
    {
      transients := map[];
      postMeta := map[];
      now := start;
    }

    /** The queue `userId` would read now. */
    function PendingQueue(userId: nat): (q: seq<int>)
      reads this
      ensures q != [] ==> QueueKey(userId) in transients && now <= transients[QueueKey(userId)].expiresAt
                          && transients[QueueKey(userId)].value == IdList(q)
    {
      QueueIn(transients, now, userId)
    }

    /** `set_transient($key, $value, DAY_IN_SECONDS)`. `ok` is the store's
        answer: a failed write leaves the store as it was. Neither caller
        looks at the answer. */
    method SetTransient(key: string, value: Stored, ok: bool)
      modifies this
      ensures transients == if ok then old(transients)[key := Transient(value, old(now) + DayInSeconds)]
                            else old(transients)
      ensures postMeta == old(postMeta) && now == old(now)
    {
      if ok {
        transients := transients[key := Transient(value, now + DayInSeconds)];
      }
    }

    /** Time passes; entries whose expiry falls behind `now` vanish from reads. */
    method AdvanceClock(seconds: nat)
      modifies this
      ensures now == old(now) + seconds
      ensures transients == old(transients) && postMeta == old(postMeta)
    {
      now := now + seconds;
    }

    /** `store_product_reference`: append the new ID at the tail of the
        user's queue (a missing or non-list queue counts as empty) and
        restart its one-day lifetime. When the write fails (`transientOk`
        false) the product is never queued. */
    method StoreProductReference(userId: nat, productId: int, transientOk: bool)
      modifies this
      ensures transients == if transientOk
                            then old(transients)[QueueKey(userId) :=
                                   Transient(IdList(old(PendingQueue(userId)) + [productId]), old(now) + DayInSeconds)]
                            else old(transients)
      ensures postMeta == old(postMeta) && now == old(now)
      ensures PendingQueue(userId) == if transientOk then old(PendingQueue(userId)) + [productId]
                                      else old(PendingQueue(userId))
      ensures forall u: nat :: u != userId ==> PendingQueue(u) == old(PendingQueue(u))
    {
      var key := AjaxHandler.ProducerQueueKey(userId);
      ProducerKeyIsConsumerKey(userId);
      var current := ReadTransient(transients, now, key);
      var queue: seq<int>;
      if current.Some? && current.value.IdList? {
        queue := current.value.ids;
      } else {
        queue := [];
      }
      queue := queue + [productId];
      SetTransient(key, IdList(queue), transientOk);
      forall u: nat | u != userId
        ensures PendingQueue(u) == old(PendingQueue(u))
      {
        QueuesAreIsolated(old(transients), now, userId, Transient(IdList(queue), now + DayInSeconds), u);
      }
    }

    /** `get_product_from_db`: the widget's assignment on the post, or `false`
        when there is no post or the stored value is missing or 0. */
    function GetProductFromDb(postId: nat, widgetId: string): (id: Option<int>)
      reads this
      ensures id.Some? <==> postId != 0 && (postId, MetaKey(widgetId)) in postMeta
                            && postMeta[(postId, MetaKey(widgetId))] != 0
      ensures id.Some? ==> id.value == postMeta[(postId, MetaKey(widgetId))]
    {
      var key := (postId, MetaKey(widgetId));
      if postId == 0 || key !in postMeta || postMeta[key] == 0 then None else Some(postMeta[key])
    }

    /** `save_product_to_db`: nothing is written without a post. `dbOk` is the
        database's answer; `saved` is `update_post_meta`'s result, which is
        false also when the value was already there. */
    method SaveProductToDb(postId: nat, widgetId: string, productId: int, dbOk: bool) returns (saved: bool)
      modifies this
      ensures postId == 0 || !dbOk ==> postMeta == old(postMeta) && !saved
      ensures postId != 0 && dbOk ==> postMeta == old(postMeta)[(postId, MetaKey(widgetId)) := productId]
      ensures postId != 0 && dbOk ==>
                (saved <==> !((postId, MetaKey(widgetId)) in old(postMeta)
                              && old(postMeta)[(postId, MetaKey(widgetId))] == productId))
      ensures transients == old(transients) && now == old(now)
    {
      if postId == 0 {
        return false;
      }
      var key := (postId, MetaKey(widgetId));
      if !dbOk {
        return false;
      }
      saved := !(key in postMeta && postMeta[key] == productId);
      postMeta := postMeta[key := productId];
    }

    /** What one run of `get_user_product_id` does, from the state before it
        to the state after it, given its result `claim`. */
    twostate predicate ClaimStep(postId: nat, widgetId: string, userId: nat, transientOk: bool, dbOk: bool,
                                 new claim: Option<int>)
      reads this
    {
      // An assignment wins and nothing is touched.
      && (old(GetProductFromDb(postId, widgetId)).Some? ==>
            claim == old(GetProductFromDb(postId, widgetId))
            && transients == old(transients) && postMeta == old(postMeta))
      // No assignment and nothing queued: `false`, nothing touched.
      && (old(GetProductFromDb(postId, widgetId)).None? && old(PendingQueue(userId)) == [] ==>
            claim == None && transients == old(transients) && postMeta == old(postMeta))
      // Otherwise the old head is claimed and saved, and the old tail is
      // written back. When that write fails the head stays queued, so it can
      // be claimed again.
      && (old(GetProductFromDb(postId, widgetId)).None? && old(PendingQueue(userId)) != [] ==>
            && claim == Some(old(PendingQueue(userId))[0])
            && transients == (if transientOk
                              then old(transients)[QueueKey(userId) :=
                                     Transient(IdList(old(PendingQueue(userId))[1..]), old(now) + DayInSeconds)]
                              else old(transients))
            && PendingQueue(userId) == (if transientOk then old(PendingQueue(userId))[1..]
                                        else old(PendingQueue(userId)))
            && postMeta == (if postId != 0 && dbOk
                            then old(postMeta)[(postId, MetaKey(widgetId)) := claim.value]
                            else old(postMeta)))
      // A claim made on a real post sticks: the next call returns it again.
      && (postId != 0 && dbOk && claim.Some? && claim.value != 0 ==>
            GetProductFromDb(postId, widgetId) == claim)
      // Assignments are write-once.
      && (forall k :: k in old(postMeta) && old(postMeta)[k] != 0 ==>
            k in postMeta && postMeta[k] == old(postMeta)[k])
      && (forall u: nat :: u != userId ==> PendingQueue(u) == old(PendingQueue(u)))
      && now == old(now)
    }

    /** `get_user_product_id`: return the widget's assignment if it has one;
        otherwise pop the head of the user's queue, write the tail back,
        try to save the head as the assignment and return it. The results of
        both writes are ignored. */
    method GetUserProductId(postId: nat, widgetId: string, userId: nat, transientOk: bool, dbOk: bool)
      returns (claim: Option<int>)
      modifies this
      ensures ClaimStep(postId, widgetId, userId, transientOk, dbOk, claim)
    {
      var assignment := GetProductFromDb(postId, widgetId);
      if assignment.Some? {
        return assignment;
      }
      var key := QueueKey(userId);
      var stored := ReadTransient(transients, now, key);
      if stored.None? || !stored.value.IdList? || |stored.value.ids| == 0 {
        return None;
      }
      var queue := stored.value.ids;
      var head := queue[0];
      queue := queue[1..];
      SetTransient(key, IdList(queue), transientOk);
      var _ := SaveProductToDb(postId, widgetId, head, dbOk);
      claim := Some(head);
      forall u: nat | u != userId
        ensures PendingQueue(u) == old(PendingQueue(u))
      {
        QueuesAreIsolated(old(transients), now, userId, Transient(IdList(queue), now + DayInSeconds), u);
      }
    }

    /** `render`: resolve the widget's product, then show it or the empty state. */
    method Render(postId: nat, widgetId: string, userId: nat, transientOk: bool, dbOk: bool,
                  wooActive: bool, catalog: set<int>)
      returns (view: View)
      modifies this
      ensures exists claim :: ClaimStep(postId, widgetId, userId, transientOk, dbOk, claim)
                              && view == RenderProductWrapper(claim, wooActive, catalog)
      ensures old(GetProductFromDb(postId, widgetId)).Some? ==>
                view == RenderProductWrapper(old(GetProductFromDb(postId, widgetId)), wooActive, catalog)
      ensures old(GetProductFromDb(postId, widgetId)).None? && old(PendingQueue(userId)) == [] ==>
                view == EmptyState
      ensures old(GetProductFromDb(postId, widgetId)).None? && old(PendingQueue(userId)) != [] ==>
                view == RenderProductWrapper(Some(old(PendingQueue(userId))[0]), wooActive, catalog)
    {
      var claim := GetUserProductId(postId, widgetId, userId, transientOk, dbOk);
      view := RenderProductWrapper(claim, wooActive, catalog);
    }

    /** `create_product`: run the guard chain and, only when the product was
        created, append its ID to the acting user's queue. */
    method CreateProduct(userId: nat, request: AjaxHandler.Request, host: AjaxHandler.Host, transientOk: bool)
      returns (response: AjaxHandler.AjaxResponse)
      modifies this
      ensures response == AjaxHandler.AjaxResponseFor(AjaxHandler.CreateProductResult(request, host))
      ensures AjaxHandler.CreateProductResult(request, host).Failure? ==> transients == old(transients)
      ensures AjaxHandler.CreateProductResult(request, host).Success? ==>
                var id := AjaxHandler.CreateProductResult(request, host).value.productId;
                && transients == (if transientOk
                                  then old(transients)[QueueKey(userId) :=
                                         Transient(IdList(old(PendingQueue(userId)) + [id]), old(now) + DayInSeconds)]
                                  else old(transients))
                && PendingQueue(userId) == (if transientOk then old(PendingQueue(userId)) + [id]
                                            else old(PendingQueue(userId)))
      ensures forall u: nat :: u != userId ==> PendingQueue(u) == old(PendingQueue(u))
      ensures postMeta == old(postMeta) && now == old(now)
    {
      var result := AjaxHandler.CreateProductResult(request, host);
      if result.Success? {
        StoreProductReference(userId, result.value.productId, transientOk);
      }
      response := AjaxHandler.AjaxResponseFor(result);
    }
  }
}
