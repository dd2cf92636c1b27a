/** The stateless parts of the widget `My_Custom_Widget`: the storage keys it
    derives and the branch structure of its render wrapper. The stateful
    lookup and claim live in module ClaimQueue. */
module CustomWidget {
  import opened Php

  /** `My_Custom_Widget::TRANSIENT_PREFIX`. */
  const TransientPrefix: string := "my_custom_widget_product_queue_"

  /** The post-meta key prefix of a widget's write-once product assignment. */
  const MetaKeyPrefix: string := "_widget_product_"

  /** The transient key of a user's product queue. */
  function QueueKey(userId: nat): (key: string)
    ensures |TransientPrefix| < |key| && key[..|TransientPrefix|] == TransientPrefix
    ensures key[|TransientPrefix|..] == Decimal(userId)
  {
    TransientPrefix + Decimal(userId)
  }

  /** Two users never share a queue. */
  lemma QueueKeyInjective(u: nat, v: nat)
    requires QueueKey(u) == QueueKey(v)
    ensures u == v
  {
    assert Decimal(u) == QueueKey(u)[|TransientPrefix|..];
    DecimalInjective(u, v);
  }

  /** The post-meta key of a widget instance's assignment. */
  function MetaKey(widgetId: string): (key: string)
    ensures |key| == |MetaKeyPrefix| + |widgetId|
    ensures key[..|MetaKeyPrefix|] == MetaKeyPrefix && key[|MetaKeyPrefix|..] == widgetId
  {
    MetaKeyPrefix + widgetId
  }

  /** Two widget instances on one post never share an assignment. */
  lemma MetaKeyInjective(a: string, b: string)
    requires MetaKey(a) == MetaKey(b)
    ensures a == b
  {
  }

  /** What the widget's wrapper shows. */
  datatype View = EmptyState | ProductDisplay(productId: int)

  /** `render_product_wrapper`: `claim` is the `int|false` the widget resolved;
      `wooActive` says whether `wc_get_product` exists and `catalog` holds
      the IDs it finds a product for. */
  function RenderProductWrapper(claim: Option<int>, wooActive: bool, catalog: set<int>): (v: View)
    ensures v.ProductDisplay? <==> claim.Some? && claim.value != 0 && wooActive && claim.value in catalog
    ensures v.ProductDisplay? ==> v.productId == claim.value
  {
    if claim.None? || claim.value == 0 then EmptyState
    else if wooActive && claim.value in catalog then ProductDisplay(claim.value)
    else EmptyState
  }
}
