/** The feed entity of the EssentialFeed module, as the cache writer receives it.
    Identifiers and URLs are produced by platform calls (UUID generation, URL
    parsing) outside this model, so both are opaque values here. */
module EssentialFeed {

  /** An item identifier; its bits are opaque to the cache writer. */
  datatype Uuid = Uuid(bits: nat)

  /** An absolute URL, carried as text without interpretation. */
  datatype Url = Url(text: string)

  /** One entry of the feed: a pure value with no behaviour. */
  datatype FeedItem = FeedItem(id: Uuid, description: string, location: string, imageURL: Url)
}
