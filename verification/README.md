# EssentialFeed local cache writer, in Dafny

This project models the cache-invalidation trigger of the EssentialFeed feed
cache. A `LocalFeedLoader` is built over a `FeedStore` it refers to but does not
own. Each `save` of a list of feed items asks that store to delete the cached
feed exactly once. The items play no part in this. The store's one observable
piece of state is the number of deletions it has been asked for, held in the
field `deletecCacheCount` (the spelling is the source's).

- `feed_item.dfy`, module `EssentialFeed`: the `FeedItem` value (identifier,
  description, location, image URL). Identifiers and URLs are opaque wrappers.
- `cache_feed.dfy`, module `FeedCache`:
  - the two classes, whose methods update the store's counter in place;
  - `DeletionsAfter`, the count a store reaches after a run of saves, with lemmas
    about it;
  - `SaveAll`, a caller that saves a run of batches through one loader, proved
    against `DeletionsAfter`;
  - three scenario methods for the behaviour the use-case tests assert. Each
    builds a fresh store and loader.

## Model

| member | source | states |
|---|---|---|
| FeedCache.FeedStore.constructor | EssentialFeed/EssentialFeedTests/FeedCache/CacheFeedUseCase.swift:24-25 | a new store starts with zero deletion requests |
| FeedCache.FeedStore.DeleteCacheFeed | EssentialFeed/EssentialFeedTests/FeedCache/CacheFeedUseCase.swift:27-29 | the deletion count goes up by exactly one; the store has no other state, and nothing outside it changes |
| FeedCache.LocalFeedLoader.constructor | EssentialFeed/EssentialFeedTests/FeedCache/CacheFeedUseCase.swift:14-17 | the loader keeps the exact store it is given (a constant reference) and leaves that store's deletion count unchanged |
| FeedCache.LocalFeedLoader.Save | EssentialFeed/EssentialFeedTests/FeedCache/CacheFeedUseCase.swift:19-21 | for any item list, the empty one included, the store's count becomes its old value plus one; only the store may change, so the items and the loader do not |
| FeedCache.DeletionsAfter | EssentialFeed/EssentialFeedTests/FeedCache/CacheFeedUseCase.swift:19-21 | the count reached after a run of saves is never below the starting count |
| FeedCache.DeletionsAfterCountsSaves | EssentialFeed/EssentialFeedTests/FeedCache/CacheFeedUseCase.swift:19-21 | k saves raise the count by exactly k, whatever the batches hold |
| FeedCache.DeletionsAfterAppend | EssentialFeed/EssentialFeedTests/FeedCache/CacheFeedUseCase.swift:19-21 | saving run a and then run b ends where saving a + b in one go does |
| FeedCache.SameDeletionsIffSameSaves | EssentialFeed/EssentialFeedTests/FeedCache/CacheFeedUseCase.swift:19-21 | two runs from the same count end at the same count if and only if they hold equally many saves, so the items saved never change the result |
| FeedCache.MoreSavesMoreDeletions | EssentialFeed/EssentialFeedTests/FeedCache/CacheFeedUseCase.swift:19-21 | further saves add exactly their number to the count, so any non-empty run of saves strictly raises it |
| FeedCache.SaveAll | EssentialFeed/EssentialFeedTests/FeedCache/CacheFeedUseCase.swift:19-29 | saving batches one after another through one loader leaves the store at the count given by `DeletionsAfter` |
| FeedCache.InitDoesNotDeleteCache | EssentialFeed/EssentialFeedTests/FeedCache/CacheFeedUseCase.swift:34-39 | a loader built over a fresh store causes zero deletions |
| FeedCache.SaveRequestsCacheDeletion | EssentialFeed/EssentialFeedTests/FeedCache/CacheFeedUseCase.swift:41-48 | one save through a loader over a fresh store causes exactly one deletion, for any item list (the use-case test passes two items) |
| FeedCache.SavesRequestOneDeletionEach | EssentialFeed/EssentialFeedTests/FeedCache/CacheFeedUseCase.swift:41-48 | k saves through a loader over a fresh store cause exactly k deletions |

## Left out

- FeedCache.FeedStore.DeleteCacheFeed: does not model the trap that Swift's `+= 1` raises on an `Int` overflow at 2^63 - 1. The counter is an unbounded `nat`, and no run of saves a caller could make reaches that bound.
- Generating identifiers (`UUID()`) and parsing URLs (`URL(string:)`) are platform calls. Identifiers and URLs are opaque values here, and the scenario methods take their items as parameters.
- The XCTest scaffolding is not modelled: the test class, `XCTAssertEqual` and the item and URL helpers. The assertions of the two tests are the ensures clauses of `InitDoesNotDeleteCache` and `SaveRequestsCacheDeletion`.
- The source never inserts the saved items after the deletion. Deletion never fails and has no error path. The model adds neither.
- The HTTP GET client (`URLSessionHttpClient` and its session and task abstraction) is not part of this model. It is network I/O with asynchronous callbacks, separate from the cache writer.
