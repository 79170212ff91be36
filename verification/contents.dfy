/** A content binding: one dashboard widget fed by one endpoint. */
module Contents {
  import opened Endpoints

  /** The widget kind, `"number"` or `"table"`. */
  datatype ContentType = Number | Table

  /** `{type, title, endpoint, resourceId}` as written in a page configuration. */
  datatype Content = Content(
    kind: ContentType,
    title: string,
    endpoint: EndpointIdentifier,
    resourceId: string)
}
