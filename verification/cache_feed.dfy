/** The local cache writer of the feed-cache use case: a loader that, on every
    save, asks the store it was built with to delete the cached feed, and a
    store whose only observable state is how many deletions it was asked for. */
module FeedCache {
  import opened EssentialFeed

  /** The store capability. The field keeps the spelling the source gives it. */
  class FeedStore {
    var deletecCacheCount: nat

    /** A new store has not been asked for any deletion. */
    constructor ()
      ensures deletecCacheCount == 0
    {
      deletecCacheCount := 0;
    }

    /** Records one more deletion request, and changes nothing else. */
    method DeleteCacheFeed()
      modifies this
      ensures deletecCacheCount == old(deletecCacheCount) + 1
    {
      deletecCacheCount := deletecCacheCount + 1;
    }
  }

  /** The cache writer. It refers to, but does not own, the store it was given;
      the reference is fixed for the loader's lifetime. */
  class LocalFeedLoader {
    const store: FeedStore

    /** Keeps the exact store it is given and does not touch it. */
    constructor (store: FeedStore)
      ensures this.store == store
      ensures store.deletecCacheCount == old(store.deletecCacheCount)
    {
      this.store := store;
    }

    /** Requests exactly one deletion from the store, whatever the items (the
        empty list included); the items and the loader itself are left as they
        were, and nothing but the store's counter changes. */
    method Save(items: seq<FeedItem>)
      modifies store
      ensures store.deletecCacheCount == old(store.deletecCacheCount) + 1
    {
      store.DeleteCacheFeed();
    }
  }

  /** The deletion count a store reaches from `start` when one loader over it
      saves each batch of `batches` in turn: every save contributes one
      deletion. The count never goes down. */
  function DeletionsAfter(start: nat, batches: seq<seq<FeedItem>>): (r: nat)
    ensures r >= start
  {
    if batches == [] then start
    else DeletionsAfter(start, batches[..|batches| - 1]) + 1
  }

  /** k saves raise the count by exactly k. */
  lemma {:induction false} DeletionsAfterCountsSaves(start: nat, batches: seq<seq<FeedItem>>)
    ensures DeletionsAfter(start, batches) == start + |batches|
  {
    if batches != [] {
      DeletionsAfterCountsSaves(start, batches[..|batches| - 1]);
    }
  }

  /** Saves compose: running `a` then `b` is the same as running `a + b`. */
  lemma DeletionsAfterAppend(start: nat, a: seq<seq<FeedItem>>, b: seq<seq<FeedItem>>)
    ensures DeletionsAfter(start, a + b) == DeletionsAfter(DeletionsAfter(start, a), b)
  {
    DeletionsAfterCountsSaves(start, a + b);
    DeletionsAfterCountsSaves(start, a);
    DeletionsAfterCountsSaves(DeletionsAfter(start, a), b);
  }

  /** Deletions grow one-to-one with saves: two runs from the same count end at
      the same count exactly when they hold equally many saves, so the items in
      them never matter. */
  lemma {:induction false} SameDeletionsIffSameSaves(start: nat, a: seq<seq<FeedItem>>, b: seq<seq<FeedItem>>)
    ensures DeletionsAfter(start, a) == DeletionsAfter(start, b) <==> |a| == |b|
  {
    DeletionsAfterCountsSaves(start, a);
    DeletionsAfterCountsSaves(start, b);
  }

  /** Each further save strictly raises the count: deletions are monotone in
      the run of saves. */
  lemma MoreSavesMoreDeletions(start: nat, a: seq<seq<FeedItem>>, b: seq<seq<FeedItem>>)
    ensures DeletionsAfter(start, a) + |b| == DeletionsAfter(start, a + b)
    ensures b != [] ==> DeletionsAfter(start, a) < DeletionsAfter(start, a + b)
  {
    DeletionsAfterAppend(start, a, b);
    DeletionsAfterCountsSaves(DeletionsAfter(start, a), b);
  }

  /** A caller that saves each batch in turn through one loader: the store ends
      at the count that `DeletionsAfter` gives. */
  method SaveAll(loader: LocalFeedLoader, batches: seq<seq<FeedItem>>)
    modifies loader.store
    ensures loader.store.deletecCacheCount
         == DeletionsAfter(old(loader.store.deletecCacheCount), batches)
  {
    for i := 0 to |batches|
      invariant loader.store.deletecCacheCount
             == DeletionsAfter(old(loader.store.deletecCacheCount), batches[..i])
    {
      loader.Save(batches[i]);
      assert batches[..i + 1][..i] == batches[..i];
    }
    assert batches[..|batches|] == batches;
  }

  /** Building a loader over a fresh store causes no deletion. */
  method InitDoesNotDeleteCache() returns (deletions: nat)
    ensures deletions == 0
  {
    var store := new FeedStore();
    var _ := new LocalFeedLoader(store);
    deletions := store.deletecCacheCount;
  }

  /** One save through a loader over a fresh store causes exactly one
      deletion, for any list of items. */
  method SaveRequestsCacheDeletion(items: seq<FeedItem>) returns (deletions: nat)
    ensures deletions == 1
  {
    var store := new FeedStore();
    var loader := new LocalFeedLoader(store);
    loader.Save(items);
    deletions := store.deletecCacheCount;
  }

  /** A run of saves through a loader over a fresh store causes exactly one
      deletion per save. */
  method SavesRequestOneDeletionEach(batches: seq<seq<FeedItem>>) returns (deletions: nat)
    ensures deletions == |batches|
  {
    var store := new FeedStore();
    var loader := new LocalFeedLoader(store);
    SaveAll(loader, batches);
    deletions := store.deletecCacheCount;
    DeletionsAfterCountsSaves(0, batches);
  }
}
