/** The pure half of `Ajax_Handler`: the guard chain of `create_product`
    (nonce, capability, validation, creation), the validation of the posted
    form, the REST payload and the reading of the REST response. The queue
    write that follows a successful creation is `Site.StoreProductReference`
    in module ClaimQueue. WordPress and WooCommerce functions the handler
    calls are opaque: they are the fields of `Host`. */
module AjaxHandler {
  import opened Php

  /** The transient key prefix written literally in `store_product_reference`. */
  const ProducerQueuePrefix: string := "my_custom_widget_product_queue_"

  /** The key `store_product_reference` writes for a user. */
  function ProducerQueueKey(userId: nat): string {
    ProducerQueuePrefix + Decimal(userId)
  }

  /** A value in the REST request body. */
  datatype ApiValue = Text(text: string) | Flag(flag: bool)

  type ApiData = map<string, ApiValue>

  /** What an internal REST dispatch can answer: an error response (with or
      without a `message`) or the created product's data (with or without an `id`). */
  datatype RestResponse =
    | RestError(message: Option<string>)
    | RestData(id: Option<nat>, name: string, price: string, permalink: string)

  /** The WordPress and WooCommerce functions the handler calls, left opaque. */
  datatype Host = Host(
    unslash: string -> string,            // wp_unslash
    sanitizeText: string -> string,       // sanitize_text_field
    sanitizeTextarea: string -> string,   // sanitize_textarea_field
    floatval: string -> real,             // floatval
    priceText: real -> string,            // (string) cast of a float
    dispatch: ApiData -> RestResponse,    // rest_get_server()->dispatch on POST /wc/v3/products
    adminUrl: string -> string)           // admin_url

  /** One AJAX request: the outcome of `check_ajax_referer`, of
      `current_user_can('edit_products')`, and the `$_POST` fields. */
  datatype Request = Request(nonceValid: bool, canEditProducts: bool, post: map<string, string>)

  datatype ProductData = ProductData(name: string, price: real, description: string)

  datatype CreatedProduct = CreatedProduct(
    productId: nat, productName: string, productPrice: string, productUrl: string, editUrl: string)

  /** The exceptions `create_product` catches, one per failing step. */
  datatype ProductError =
    | SecurityCheckFailed
    | PermissionDenied
    | NameRequired
    | PriceNotPositive
    | RestFailed(message: Option<string>)
    | IdMissing

  /** The message each exception carries (translation with `__()` is the identity here). */
  function Message(e: ProductError): (m: string)
    ensures e.RestFailed? && e.message.Some? ==> m == e.message.value
    ensures !(e.RestFailed? && e.message.Some?) ==> |m| > 0
  {
    match e
    case SecurityCheckFailed => "Security check failed. Please refresh the page and try again."
    case PermissionDenied => "You do not have permission to create products."
    case NameRequired => "Product name is required."
    case PriceNotPositive => "Product price must be greater than 0."
    case RestFailed(Some(text)) => text
    case RestFailed(None) => "Failed to create product. Please try again."
    case IdMissing => "Product was created but ID is missing. Please check WooCommerce."
  }

  /** The fixed texts tell the failing steps apart. */
  lemma FixedMessagesDistinct(e1: ProductError, e2: ProductError)
    requires !(e1.RestFailed? && e1.message.Some?) && !(e2.RestFailed? && e2.message.Some?)
    requires e1 != e2
    ensures Message(e1) != Message(e2)
  {
  }

  /** A posted text field after unslashing and sanitising; "" when absent. */
  function PostedText(post: map<string, string>, field: string, unslash: string -> string,
                      sanitize: string -> string): string
  {
    if field in post then sanitize(unslash(post[field])) else ""
  }

  /** The posted price; 0 when absent. */
  function PostedPrice(post: map<string, string>, floatval: string -> real): real {
    if "product_price" in post then floatval(post["product_price"]) else 0.0
  }

  /** `get_validated_product_data`: the name is checked before the price. */
  function ValidatedProductData(post: map<string, string>, host: Host): (r: Result<ProductData, ProductError>)
    ensures var name := PostedText(post, "product_name", host.unslash, host.sanitizeText);
            var price := PostedPrice(post, host.floatval);
            && (r.Success? <==> !EmptyString(name) && price > 0.0)
            && (EmptyString(name) ==> r == Failure(NameRequired))
            && (!EmptyString(name) && price <= 0.0 ==> r == Failure(PriceNotPositive))
            && (r.Success? ==> r.value == ProductData(name, price,
                  PostedText(post, "product_description", host.unslash, host.sanitizeTextarea)))
  {
    var name := PostedText(post, "product_name", host.unslash, host.sanitizeText);
    var price := PostedPrice(post, host.floatval);
    var description := PostedText(post, "product_description", host.unslash, host.sanitizeTextarea);
    if EmptyString(name) then Failure(NameRequired)
    else if price <= 0.0 then Failure(PriceNotPositive)
    else Success(ProductData(name, price, description))
  }

  /** The keys every payload carries. */
  const FixedPayloadKeys: set<string> :=
    {"name", "type", "regular_price", "status", "catalog_visibility", "manage_stock"}

  /** The body `create_woocommerce_product` sends to `/wc/v3/products`. */
  function ApiPayload(data: ProductData, priceText: real -> string): (api: ApiData)
    ensures api.Keys == FixedPayloadKeys + (if EmptyString(data.description) then {} else {"description"})
    ensures api["type"] == Text("simple") && api["status"] == Text("publish")
    ensures api["catalog_visibility"] == Text("visible") && api["manage_stock"] == Flag(false)
    ensures api["name"] == Text(data.name) && api["regular_price"] == Text(priceText(data.price))
    ensures "description" in api ==> api["description"] == Text(data.description)
  {
    var base := map[
      "name" := Text(data.name),
      "type" := Text("simple"),
      "regular_price" := Text(priceText(data.price)),
      "status" := Text("publish"),
      "catalog_visibility" := Text("visible"),
      "manage_stock" := Flag(false)];
    if EmptyString(data.description) then base else base["description" := Text(data.description)]
  }

  /** The in-place form of `ApiPayload`, built as the source builds it: the
      fixed fields first, the description inserted into the array afterwards
      when it is not empty. */
  method BuildApiData(data: ProductData, priceText: real -> string) returns (api: ApiData)
    ensures api == ApiPayload(data, priceText)
  {
    api := map[
      "name" := Text(data.name),
      "type" := Text("simple"),
      "regular_price" := Text(priceText(data.price)),
      "status" := Text("publish"),
      "catalog_visibility" := Text("visible"),
      "manage_stock" := Flag(false)];
    if !EmptyString(data.description) {
      api := api["description" := Text(data.description)];
    }
  }

  /** The edit link passed to `admin_url` for a created product. */
  function EditPath(id: nat): string {
    "post.php?post=" + Decimal(id) + "&action=edit"
  }

  /** `create_woocommerce_product`: dispatch the payload, then turn an error
      response or a response without a truthy `id` into an exception. */
  function CreateWooCommerceProduct(data: ProductData, host: Host): (r: Result<CreatedProduct, ProductError>)
    ensures var response := host.dispatch(ApiPayload(data, host.priceText));
            && (response.RestError? ==> r == Failure(RestFailed(response.message)))
            && (response.RestData? && (response.id == None || response.id == Some(0)) ==> r == Failure(IdMissing))
            && (r.Success? <==> response.RestData? && response.id.Some? && response.id.value != 0)
            && (r.Success? ==> r.value.productId == response.id.value
                               && r.value.productName == response.name
                               && r.value.productPrice == response.price
                               && r.value.productUrl == response.permalink
                               && r.value.editUrl == host.adminUrl(EditPath(response.id.value)))
  {
    match host.dispatch(ApiPayload(data, host.priceText))
    case RestError(message) => Failure(RestFailed(message))
    case RestData(id, name, price, permalink) =>
      if id.None? || id.value == 0 then Failure(IdMissing)
      else Success(CreatedProduct(id.value, name, price, permalink, host.adminUrl(EditPath(id.value))))
  }

  /** `create_product` up to the queue write: nonce, then capability, then
      validation, then creation. The first failing step decides the error and
      no later step runs. */
  function CreateProductResult(request: Request, host: Host): (r: Result<CreatedProduct, ProductError>)
    ensures !request.nonceValid ==> r == Failure(SecurityCheckFailed)
    ensures request.nonceValid && !request.canEditProducts ==> r == Failure(PermissionDenied)
    ensures r.Failure? && (r.error == NameRequired || r.error == PriceNotPositive) ==>
              request.nonceValid && request.canEditProducts
              && ValidatedProductData(request.post, host) == Failure(r.error)
    ensures r.Failure? && (r.error.RestFailed? || r.error == IdMissing) ==>
              request.nonceValid && request.canEditProducts
              && ValidatedProductData(request.post, host).Success?
    ensures r.Success? <==>
              request.nonceValid && request.canEditProducts
              && ValidatedProductData(request.post, host).Success?
              && CreateWooCommerceProduct(ValidatedProductData(request.post, host).value, host).Success?
    ensures r.Success? ==> r == CreateWooCommerceProduct(ValidatedProductData(request.post, host).value, host)
    ensures request.nonceValid && request.canEditProducts && ValidatedProductData(request.post, host).Failure? ==>
              r == Failure(ValidatedProductData(request.post, host).error)
    ensures request.nonceValid && request.canEditProducts && ValidatedProductData(request.post, host).Success? ==>
              r == CreateWooCommerceProduct(ValidatedProductData(request.post, host).value, host)
  {
    if !request.nonceValid then Failure(SecurityCheckFailed)
    else if !request.canEditProducts then Failure(PermissionDenied)
    else
      var data :- ValidatedProductData(request.post, host);
      CreateWooCommerceProduct(data, host)
  }

  /** When a guard or the validation fails, the REST server is never asked:
      the outcome is the same whatever it would have answered. */
  lemma DispatchNotReachedOnEarlyFailure(request: Request, host: Host, other: ApiData -> RestResponse)
    requires !request.nonceValid || !request.canEditProducts
             || ValidatedProductData(request.post, host).Failure?
    ensures CreateProductResult(request, host.(dispatch := other)) == CreateProductResult(request, host)
  {
  }

  /** The JSON the handler sends. */
  datatype AjaxResponse =
    | JsonSuccess(message: string, productId: nat, productName: string, productPrice: string,
                  productUrl: string, editUrl: string)
    | JsonError(message: string)

  /** `wp_send_json_success` with the created product, or `wp_send_json_error`
      with the caught exception's message. */
  function AjaxResponseFor(r: Result<CreatedProduct, ProductError>): (response: AjaxResponse)
    ensures response.JsonError? <==> r.Failure?
    ensures r.Failure? ==> response.message == Message(r.error)
    ensures r.Success? ==> response == JsonSuccess("Product created successfully!", r.value.productId,
                             r.value.productName, r.value.productPrice, r.value.productUrl, r.value.editUrl)
  {
    match r
    case Failure(e) => JsonError(Message(e))
    case Success(p) =>
      JsonSuccess("Product created successfully!", p.productId, p.productName, p.productPrice,
                  p.productUrl, p.editUrl)
  }
}
