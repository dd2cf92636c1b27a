/** Client runs of the claim queue on a fresh site, stating what a sequence of
    creations and renders yields: claims come out in creation order, a claim
    on a real post is returned again on every later render, renders without a
    post drain the queue, and an unclaimed queue disappears after a day. */
module ClaimScenarios {
  import opened Php
  import opened CustomWidget
  import opened ClaimQueue
  import AjaxHandler

  function Min(a: nat, b: nat): nat { if a <= b then a else b }

  /** One user creates `productIds`, then one widget instance per product
      renders for the first time: instance `i` claims product `i`. */
  method ClaimInCreationOrder(userId: nat, postId: nat, widgetIds: seq<string>, productIds: seq<int>, start: int)
    returns (claims: seq<Option<int>>, remaining: seq<int>)
    requires |widgetIds| == |productIds|
    requires forall i, j :: 0 <= i < j < |widgetIds| ==> widgetIds[i] != widgetIds[j]
    ensures |claims| == |productIds|
    ensures forall i :: 0 <= i < |claims| ==> claims[i] == Some(productIds[i])
    ensures remaining == []
  {
    var site := new Site(start);
    var k := 0;
    while k < |productIds|
      invariant 0 <= k <= |productIds|
      invariant site.PendingQueue(userId) == productIds[..k]
      invariant site.postMeta == map[]
    {
      site.StoreProductReference(userId, productIds[k], true);
      assert productIds[..k + 1] == productIds[..k] + [productIds[k]];
      k := k + 1;
    }
    assert productIds[..k] == productIds;
    claims := [];
    var i := 0;
    while i < |widgetIds|
      invariant 0 <= i <= |widgetIds|
      invariant |claims| == i
      invariant forall j :: 0 <= j < i ==> claims[j] == Some(productIds[j])
      invariant site.PendingQueue(userId) == productIds[i..]
      invariant forall j :: i <= j < |widgetIds| ==> site.GetProductFromDb(postId, widgetIds[j]) == None
    {
      var c := site.GetUserProductId(postId, widgetIds[i], userId, true, true);
      claims := claims + [c];
      i := i + 1;
    }
    remaining := site.PendingQueue(userId);
  }

  /** The same widget instance on a real post renders `rounds` times: every
      render returns the first product, and only the first render takes it
      from the queue. */
  method RenderRepeatedly(userId: nat, postId: nat, widgetId: string, productIds: seq<int>, rounds: nat, start: int)
    returns (claims: seq<Option<int>>, remaining: seq<int>)
    requires postId != 0
    requires productIds != [] && productIds[0] != 0
    requires rounds >= 1
    ensures |claims| == rounds
    ensures forall i :: 0 <= i < rounds ==> claims[i] == Some(productIds[0])
    ensures remaining == productIds[1..]
  {
    var site := new Site(start);
    var k := 0;
    while k < |productIds|
      invariant 0 <= k <= |productIds|
      invariant site.PendingQueue(userId) == productIds[..k]
      invariant site.postMeta == map[]
    {
      site.StoreProductReference(userId, productIds[k], true);
      assert productIds[..k + 1] == productIds[..k] + [productIds[k]];
      k := k + 1;
    }
    assert productIds[..k] == productIds;
    var first := site.GetUserProductId(postId, widgetId, userId, true, true);
    claims := [first];
    var i := 1;
    while i < rounds
      invariant 1 <= i <= rounds
      invariant |claims| == i
      invariant forall j :: 0 <= j < i ==> claims[j] == Some(productIds[0])
      invariant site.GetProductFromDb(postId, widgetId) == Some(productIds[0])
      invariant site.PendingQueue(userId) == productIds[1..]
    {
      var c := site.GetUserProductId(postId, widgetId, userId, true, true);
      claims := claims + [c];
      i := i + 1;
    }
    remaining := site.PendingQueue(userId);
  }

  /** The same widget renders `rounds` times where there is no post (post ID
      0): nothing is ever saved, so every render takes another product until
      the queue is empty. */
  method RenderWithoutPost(userId: nat, widgetId: string, productIds: seq<int>, rounds: nat, start: int)
    returns (claims: seq<Option<int>>, remaining: seq<int>)
    ensures |claims| == rounds
    ensures forall i :: 0 <= i < rounds ==> claims[i] == if i < |productIds| then Some(productIds[i]) else None
    ensures remaining == productIds[Min(rounds, |productIds|)..]
  {
    var site := new Site(start);
    var k := 0;
    while k < |productIds|
      invariant 0 <= k <= |productIds|
      invariant site.PendingQueue(userId) == productIds[..k]
      invariant site.postMeta == map[]
    {
      site.StoreProductReference(userId, productIds[k], true);
      assert productIds[..k + 1] == productIds[..k] + [productIds[k]];
      k := k + 1;
    }
    assert productIds[..k] == productIds;
    claims := [];
    var i := 0;
    while i < rounds
      invariant 0 <= i <= rounds
      invariant |claims| == i
      invariant forall j :: 0 <= j < i ==> claims[j] == if j < |productIds| then Some(productIds[j]) else None
      invariant site.PendingQueue(userId) == productIds[Min(i, |productIds|)..]
      invariant site.postMeta == map[]
    {
      var c := site.GetUserProductId(0, widgetId, userId, true, true);
      claims := claims + [c];
      i := i + 1;
    }
    remaining := site.PendingQueue(userId);
  }

  /** A claim of product ID 0 is saved but reads back as "no assignment", so
      the next render of the same widget takes the next product. */
  method ZeroClaimDoesNotStick(userId: nat, postId: nat, widgetId: string, next: int, start: int)
    returns (first: Option<int>, second: Option<int>)
    requires postId != 0
    ensures first == Some(0) && second == Some(next)
  {
    var site := new Site(start);
    site.StoreProductReference(userId, 0, true);
    site.StoreProductReference(userId, next, true);
    first := site.GetUserProductId(postId, widgetId, userId, true, true);
    second := site.GetUserProductId(postId, widgetId, userId, true, true);
  }

  /** A product is created, then `wait` seconds later a widget renders for
      the first time: it gets the product only within the one-day lifetime. */
  method ClaimAfterWaiting(userId: nat, postId: nat, widgetId: string, productId: int, wait: nat, start: int)
    returns (claim: Option<int>)
    ensures claim == if wait <= DayInSeconds then Some(productId) else None
  {
    var site := new Site(start);
    site.StoreProductReference(userId, productId, true);
    site.AdvanceClock(wait);
    claim := site.GetUserProductId(postId, widgetId, userId, true, true);
  }

  /** User 1 creates product 501; widget w1 on post 10 renders twice and
      gets 501 both times; widget w2 on post 20 then finds the queue drained. */
  method CreateThenRenderTwice() returns (first: Option<int>, again: Option<int>, other: Option<int>)
    ensures first == Some(501) && again == Some(501) && other == None
  {
    var site := new Site(0);
    site.StoreProductReference(1, 501, true);
    first := site.GetUserProductId(10, "w1", 1, true, true);
    again := site.GetUserProductId(10, "w1", 1, true, true);
    other := site.GetUserProductId(20, "w2", 1, true, true);
  }

  /** A product created through the AJAX handler can still be claimed a full
      day later: the creation restarts the queue's lifetime. */
  method CreateThenClaimADayLater(userId: nat, postId: nat, widgetId: string,
                                  request: AjaxHandler.Request, host: AjaxHandler.Host, start: int)
    returns (claim: Option<int>)
    requires AjaxHandler.CreateProductResult(request, host).Success?
    ensures claim == Some(AjaxHandler.CreateProductResult(request, host).value.productId)
  {
    var site := new Site(start);
    var _ := site.CreateProduct(userId, request, host, true);
    site.AdvanceClock(DayInSeconds);
    claim := site.GetUserProductId(postId, widgetId, userId, true, true);
  }

  /** When writing the shortened queue back fails, the claimed product stays
      at the head: a second widget on another post claims the same product. */
  method FailedQueueWriteRepeatsClaim() returns (first: Option<int>, second: Option<int>)
    ensures first == Some(501) && second == Some(501)
  {
    var site := new Site(0);
    site.StoreProductReference(1, 501, true);
    first := site.GetUserProductId(10, "w1", 1, false, true);
    second := site.GetUserProductId(20, "w2", 1, true, true);
  }
}
