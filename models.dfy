/** The record types shared by every layer (shared/models/Article.kt). */
module Models {

  /** Kotlin's nullable `T?`. */
  datatype Option<+T> = None | Some(value: T)

  /** A help article. The cache and the repository treat it as an opaque payload keyed by `id`. */
  datatype Article = Article(
    id: string,
    title: string,
    summary: string,
    content: string,
    updatedAt: string,
    category: string)

  /** The structured error body the backend may send with an HTTP failure. */
  datatype ErrorResponse = ErrorResponse(errorCode: string, errorTitle: string, errorMessage: string)
}
