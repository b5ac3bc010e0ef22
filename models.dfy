/** The canonical record the worker stores in the search index. */
module Models {
  /** NewsDocument; the timestamp is in nanoseconds since Go's zero time. */
  datatype NewsDocument = NewsDocument(
    id: string,
    title: string,
    text: string,
    timestamp: int,
    keywords: seq<string>,
    source: string,
    urls: seq<string>)
}
