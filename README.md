# My Elementor Widget: the product-claim queue, in Dafny

This project models the core of the WordPress plugin "My Elementor Widget".
The plugin lets an editor create a WooCommerce product from a popup. It then
lets each instance of its Elementor widget claim one of the products that user
created.

The core is a per-user product-claim queue with two halves that share one key:

- **Producer.** `Ajax_Handler::create_product` runs a guard chain: nonce, then
  capability, then form validation, then creation through an internal REST
  request. Only if every step succeeds does `store_product_reference` append
  the new product ID to the user's queue. The queue lives in the transient
  `my_custom_widget_product_queue_<user id>`, and each write gives it a
  lifetime of one day.
- **Consumer.** `My_Custom_Widget::get_user_product_id` runs when a widget
  renders. It first reads the widget's write-once assignment, the post meta
  `_widget_product_<widget id>` on the current post. If that is missing or 0,
  it pops the head of the queue, writes the shorter queue back, tries to save
  the popped ID as the assignment, and returns it.

Two small pure string functions are modelled as well: the class autoloader
(class name to `includes/class-*.php`) and `Assets::get_asset_url`.

Modules: one shared module of PHP semantics, one per source component, and one of client runs:

- `Php` (`php.dfy`): `Option` for PHP's `false`, `Result` for thrown
  exceptions, PHP's `empty()` on strings ("" and "0"), and the decimal text of
  an integer, which is proved injective.
- `CustomWidget` (`custom_widget.dfy`): the queue and meta keys, and the
  branches of `render_product_wrapper`.
- `AjaxHandler` (`ajax_handler.dfy`): the pure guard chain of
  `create_product` as a `Result` chain. Also form validation, the REST payload
  (a specification function plus the in-place method that builds it), and the
  reading of the REST response. WordPress and WooCommerce calls are opaque
  fields of `Host`.
- `ClaimQueue` (`claim_queue.dfy`): class `Site` holds the shared WordPress
  state. That is the transient store (key to list of IDs plus expiry), the
  post-meta store ((post ID, meta key) to value) and an explicit clock `now`.
  The producer and consumer are methods of `Site`.
- `ClaimScenarios` (`claim_scenarios.dfy`): client methods that run `Site` from
  a fresh state. They show what a sequence of creations and renders yields:
  FIFO order, idempotent re-renders, draining without a post, a zero ID that
  does not stick, expiry, a claim a day after creation, a repeated claim after
  a failed queue write, and an end-to-end run.
- `Autoloader` (`autoloader.dfy`) and `Assets` (`assets.dfy`): the two string
  functions.

Three behaviours of the code are worth knowing:

- With no current post (post ID 0), the code still pops an entry and returns
  it, but saves nothing, so every render takes another product.
- The results of `set_transient` and `update_post_meta` are ignored. When
  writing the shortened queue back fails, the claimed product stays at the
  head and can be claimed again. When the producer's write fails, the created
  product is never queued.
- The code reads the queue and then writes it back with no atomicity. The
  model runs requests one at a time (see "Left out").

## Model

| member | source | states |
|---|---|---|
| `Php.Decimal` | wp-content/plugins/my-elementor-widget/widgets/my-custom-widget.php:105 | the user ID as concatenated into the key is a non-empty string of decimal digits, one digit exactly for IDs below 10 |
| `Php.DecimalInjective` | wp-content/plugins/my-elementor-widget/widgets/my-custom-widget.php:105 | different user IDs give different decimal texts |
| `CustomWidget.QueueKey` | wp-content/plugins/my-elementor-widget/widgets/my-custom-widget.php:29 | a queue key is `TRANSIENT_PREFIX` followed by the user ID's decimal text |
| `CustomWidget.QueueKeyInjective` | wp-content/plugins/my-elementor-widget/widgets/my-custom-widget.php:104-105 | two users never share a queue key |
| `CustomWidget.MetaKey` | wp-content/plugins/my-elementor-widget/widgets/my-custom-widget.php:140 | the assignment key is `_widget_product_` followed by the widget ID |
| `CustomWidget.MetaKeyInjective` | wp-content/plugins/my-elementor-widget/widgets/my-custom-widget.php:158 | two widget instances on one post never share an assignment key |
| `CustomWidget.RenderProductWrapper` | wp-content/plugins/my-elementor-widget/widgets/my-custom-widget.php:169-199 | the product is shown iff the ID is truthy, WooCommerce is loaded and the product is found; otherwise the empty state |
| `ClaimQueue.ReadTransient` | wp-content/plugins/my-elementor-widget/widgets/my-custom-widget.php:106 | a transient reads as its value while `now` has not passed its expiry, and as `false` otherwise |
| `ClaimQueue.QueueIn` | wp-content/plugins/my-elementor-widget/widgets/my-custom-widget.php:106-111 | a user's queue is the stored list while it is live; a missing, expired or non-list value reads as empty; a non-empty queue is always a live stored list under the user's key |
| `ClaimQueue.ProducerKeyIsConsumerKey` | wp-content/plugins/my-elementor-widget/includes/class-ajax-handler.php:216 | the producer's literal key equals the consumer's `TRANSIENT_PREFIX` key for every user |
| `ClaimQueue.QueuesAreIsolated` | wp-content/plugins/my-elementor-widget/includes/class-ajax-handler.php:215-216 | writing one user's queue leaves every other user's queue unchanged |
| `ClaimQueue.Site.PendingQueue` | wp-content/plugins/my-elementor-widget/includes/class-ajax-handler.php:219-222 | the queue the user would read now; when non-empty it is the live list stored under the user's key |
| `ClaimQueue.Site.SetTransient` | wp-content/plugins/my-elementor-widget/widgets/my-custom-widget.php:117 | a successful write stores the value and resets its expiry to `now + DAY_IN_SECONDS`; a failed one changes nothing; post meta and the clock are unchanged |
| `ClaimQueue.Site.StoreProductReference` | wp-content/plugins/my-elementor-widget/includes/class-ajax-handler.php:214-229 | the user's queue becomes the old queue plus the new ID at the tail, where a missing, expired or non-list value counts as empty; the expiry resets to one day; if the write fails nothing changes; other users' queues and all post meta are unchanged |
| `ClaimQueue.Site.GetProductFromDb` | wp-content/plugins/my-elementor-widget/widgets/my-custom-widget.php:149-162 | an assignment is returned iff the post ID is nonzero and the meta value is present and nonzero; post ID 0 always reads `false` |
| `ClaimQueue.Site.SaveProductToDb` | wp-content/plugins/my-elementor-widget/widgets/my-custom-widget.php:131-142 | with post ID 0 or a failed write nothing changes; otherwise the meta key holds the ID; the result is false when the value was already stored |
| `ClaimQueue.Site.GetUserProductId` | wp-content/plugins/my-elementor-widget/widgets/my-custom-widget.php:95-123 | covers three cases. An existing assignment is returned and nothing changes. With no assignment and an empty queue the result is `false` and nothing changes. Otherwise the old head is returned; the stored queue is exactly the old tail with a fresh one-day expiry, or unchanged if that write fails; and the head is saved only when there is a post and the meta write succeeds. A claim on a real post sticks for the next call. Truthy assignments are never overwritten. Other users' queues are untouched |
| `ClaimQueue.Site.Render` | wp-content/plugins/my-elementor-widget/widgets/my-custom-widget.php:81-84 | the view is the wrapper's view of the claim `get_user_product_id` makes, with the same new state: the assignment if there is one, the empty state if the queue is empty, and otherwise the old queue head, with the queue and post meta updated as for `GetUserProductId` |
| `ClaimQueue.Site.CreateProduct` | wp-content/plugins/my-elementor-widget/includes/class-ajax-handler.php:48-80 | the JSON answer follows the guard chain's result; the transients change only on success, and then the user's queue holds the new ID at its tail with a fresh one-day expiry (unless the write fails); post meta and other users' queues are unchanged |
| `ClaimScenarios.ClaimInCreationOrder` | wp-content/plugins/my-elementor-widget/widgets/my-custom-widget.php:113-122 | after N creations, N distinct widgets rendering in turn claim the N products in creation order and drain the queue |
| `ClaimScenarios.RenderRepeatedly` | wp-content/plugins/my-elementor-widget/widgets/my-custom-widget.php:97-101 | a widget on a real post returns its first claim on every later render, and only the first render consumes an entry |
| `ClaimScenarios.RenderWithoutPost` | wp-content/plugins/my-elementor-widget/widgets/my-custom-widget.php:131-137 | without a post each render of the same widget takes the next entry: N renders drain min(N, queue length) entries and then return `false` |
| `ClaimScenarios.ZeroClaimDoesNotStick` | wp-content/plugins/my-elementor-widget/widgets/my-custom-widget.php:161 | a saved ID 0 reads as "no assignment", so the next render claims the next entry |
| `ClaimScenarios.ClaimAfterWaiting` | wp-content/plugins/my-elementor-widget/widgets/my-custom-widget.php:106-111 | a first render after waiting gets the product iff the wait is at most one day |
| `ClaimScenarios.CreateThenRenderTwice` | wp-content/plugins/my-elementor-widget/widgets/my-custom-widget.php:95-123 | after one creation, a widget gets the product twice (the second time from its assignment), and another widget then gets `false` |
| `ClaimScenarios.CreateThenClaimADayLater` | wp-content/plugins/my-elementor-widget/includes/class-ajax-handler.php:228 | a product created through the handler can still be claimed exactly one day later |
| `ClaimScenarios.FailedQueueWriteRepeatsClaim` | wp-content/plugins/my-elementor-widget/widgets/my-custom-widget.php:116-122 | when the queue write-back fails, two widgets on different posts both claim the same product |
| `AjaxHandler.Message` | wp-content/plugins/my-elementor-widget/includes/class-ajax-handler.php:89-194 | a REST error's own message is passed through; every other error has a fixed non-empty text (lines 90, 103, 131, 137, 184, 193) |
| `AjaxHandler.FixedMessagesDistinct` | wp-content/plugins/my-elementor-widget/includes/class-ajax-handler.php:128-140 | distinct errors with fixed texts have distinct messages, so the answer tells the failing step |
| `AjaxHandler.ValidatedProductData` | wp-content/plugins/my-elementor-widget/includes/class-ajax-handler.php:114-146 | validation succeeds iff the sanitised name is not empty (in PHP's sense, so "0" is rejected) and the price is positive; an empty name is reported before a bad price; missing fields read as "" and 0 |
| `AjaxHandler.ApiPayload` | wp-content/plugins/my-elementor-widget/includes/class-ajax-handler.php:157-169 | the payload always has type `simple`, status `publish`, visibility `visible`, `manage_stock` false and the name and price; it has `description` iff the description is not empty |
| `AjaxHandler.BuildApiData` | wp-content/plugins/my-elementor-widget/includes/class-ajax-handler.php:157-169 | building the payload by conditional insertion gives exactly `ApiPayload` |
| `AjaxHandler.CreateWooCommerceProduct` | wp-content/plugins/my-elementor-widget/includes/class-ajax-handler.php:155-204 | an error response becomes an error carrying its message, if any. A response with a missing or 0 `id` becomes "ID is missing". Success happens iff the response has a nonzero `id`, and then carries that ID with the response's fields and edit link |
| `AjaxHandler.CreateProductResult` | wp-content/plugins/my-elementor-widget/includes/class-ajax-handler.php:49-79 | nonce, then capability, then validation, then creation. The first failure decides the error: once both guards pass, a validation failure is the result, and after a successful validation the result is exactly that of creation. Validation errors arise only after both guards passed, and REST errors only after validation passed. Success holds iff every step succeeds |
| `AjaxHandler.DispatchNotReachedOnEarlyFailure` | wp-content/plugins/my-elementor-widget/includes/class-ajax-handler.php:49-60 | when a guard or validation fails, the result does not depend on what the REST server would answer |
| `AjaxHandler.AjaxResponseFor` | wp-content/plugins/my-elementor-widget/includes/class-ajax-handler.php:66-78 | a failure becomes a JSON error with that step's message; a success becomes a JSON success with the created product's fields |
| `Autoloader.Hyphenate` | wp-content/plugins/my-elementor-widget/my-elementor-widget.php:47 | every `_` becomes `-`, every other character is kept, and the length is unchanged |
| `Autoloader.ToLower` | wp-content/plugins/my-elementor-widget/my-elementor-widget.php:47 | every character is lower-cased (ASCII), length unchanged |
| `Autoloader.Autoload` | wp-content/plugins/my-elementor-widget/my-elementor-widget.php:34-56 | a name without the `My_Elementor_Widget\` prefix is left alone. Otherwise the candidate path is the base path, then `includes/`, then the file name of the rest, and it is loaded iff that file exists |
| `Autoloader.FileNameShape` | wp-content/plugins/my-elementor-widget/my-elementor-widget.php:47 | the file name is `class-`, then the lower-cased hyphenated relative name, then `.php`. It is 10 characters longer than the relative name and contains no `_` |
| `Autoloader.AjaxHandlerFileName` | wp-content/plugins/my-elementor-widget/my-elementor-widget.php:47 | `Ajax_Handler` maps to `class-ajax-handler.php` |
| `Autoloader.PluginClassPath` | wp-content/plugins/my-elementor-widget/my-elementor-widget.php:50-55 | a class of the namespace resolves to `includes/` plus its file name, and is loaded exactly when that file exists |
| `Autoloader.CustomWidgetFileName` | wp-content/plugins/my-elementor-widget/my-elementor-widget.php:47 | `My_Custom_Widget` maps to `class-my-custom-widget.php` |
| `Autoloader.CustomWidgetNotAutoloaded` | wp-content/plugins/my-elementor-widget/my-elementor-widget.php:50-55 | whenever `includes/class-my-custom-widget.php` does not exist (the widget lives under `widgets/`), the autoloader reports the widget class not found |
| `Assets.TrimLeadingSlashes` | wp-content/plugins/my-elementor-widget/includes/class-assets.php:126 | the result never starts with `/`, and the path is some number of `/` followed by the result. So only leading slashes go, and inner and trailing ones stay |
| `Assets.GetAssetUrl` | wp-content/plugins/my-elementor-widget/includes/class-assets.php:125-127 | the URL is the base URL followed by the path without its leading slashes |
| `Assets.TrimIgnoresAddedSlashes` | wp-content/plugins/my-elementor-widget/includes/class-assets.php:126 | adding leading slashes to a path does not change the trimmed result |
| `Assets.TrimKeepsUnslashedPath` | wp-content/plugins/my-elementor-widget/includes/class-assets.php:126 | a path that does not start with `/` is appended unchanged |
| `Assets.TrimIdempotent` | wp-content/plugins/my-elementor-widget/includes/class-assets.php:126 | trimming twice equals trimming once |
| `Assets.AssetUrlIgnoresLeadingSlashes` | wp-content/plugins/my-elementor-widget/includes/class-assets.php:125-127 | `"/x"`, `"//x"` and `"x"` give the same URL |
| `Assets.InnerAndTrailingSlashesKept` | wp-content/plugins/my-elementor-widget/includes/class-assets.php:126 | `//css/a/` gives the base URL followed by `css/a/` |

## Left out

- Concurrency. Two requests can both read the queue and both claim its head,
  because the code reads and then writes without atomicity. The model runs
  requests one after another and claims nothing about duplicate claims under
  concurrency.
- Expired transients. WordPress deletes an expired transient when it is read.
  The model leaves it in the map, and every read treats it as absent. With a
  clock that never goes back, nothing can tell the two apart. A persistent
  object cache, whose expiry rules differ, is not modelled.
- Post meta values are integers, because the plugin only writes IDs. Other
  strings a third party might store there are not modelled.
- The outcomes of `update_post_meta` and `set_transient` are inputs, `dbOk`
  and `transientOk`. Database and cache internals are not modelled.
- The render helpers after the wrapper's branch are not modelled:
  `render_empty_state` (its editor and front-end texts), `render_product_display`,
  the title, price and description helpers, and escaping. They only print HTML.
- `floatval` and the `(string)` cast of the price are opaque functions over
  `real`. Floating-point rounding, NaN and infinities are not modelled.
- `wp_unslash`, the `sanitize_*` functions, the REST server's dispatch and
  `admin_url` are opaque function fields of `AjaxHandler.Host`.
  `check_ajax_referer` and `current_user_can` are boolean inputs. `__()` is the
  identity.
- `wp_send_json_*` ends the request. The model only returns the JSON value.
- `Autoloader.ToLower`: lower-cases ASCII letters only, as PHP 8.2 and later
  do. Locale-dependent lower-casing in older PHP versions is not modelled.
- The autoloader's `require_once` is modelled as the outcome `Loaded(path)`.
  Executing the file is out of scope.
- The editor script (`assets/js/editor.js`) is UI code and is not modelled.
  Neither are the plugin bootstrap and hook registration (`class-plugin.php`),
  the admin notices (`class-admin.php`), or the enqueue and localize methods of
  `class-assets.php`.
