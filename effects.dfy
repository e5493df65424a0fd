/**
 * What a page handler asks of the world outside the model: calls into the
 * cart manager (whose source is not part of this model), toast notifications
 * and navigation. A handler returns the list of effects it performs, in order.
 */
module Effects {
  import opened Catalog

  datatype ToastKind = Success | Error

  datatype Effect =
    | ShowToast(message: string, kind: ToastKind)
    | AddToCart(product: Product)
    | ClearCart
    | Navigate(path: string)
}
