/** The deduplicator of one portal scan: an in-memory set of content hashes
    that only grows, consulted before the committed store of tenders, which
    it only reads. */
module Dedup {
  import opened Wrappers
  import opened Models
  import opened Records

  datatype Deduplicator = Deduplicator(cache: set<Hash>)

  /** A fresh deduplicator starts with an empty cache. */
  function NewDeduplicator(): (r: Deduplicator)
    ensures r.cache == {}
  {
    Deduplicator({})
  }

  /** A stored row of the portal carries the hash. */
  predicate HashStored(store: seq<Licitacion>, portalId: nat, h: Hash) {
    exists i :: 0 <= i < |store| && store[i].portalId == portalId && store[i].contentHash == h
  }

  /** A stored row of the portal carries the external id. */
  predicate ExternalIdStored(store: seq<Licitacion>, portalId: nat, e: string) {
    exists i :: 0 <= i < |store| && store[i].portalId == portalId && store[i].externalId == Some(e)
  }

  /** `select ... where portal_id = p and content_hash = h limit 1` finds a row. */
  function QueryHash(store: seq<Licitacion>, portalId: nat, h: Hash): (r: bool)
    ensures r <==> HashStored(store, portalId, h)
    decreases |store|
  {
    if store == [] then false
    else
      var last := store[|store| - 1];
      var init := store[..|store| - 1];
      assert forall i :: 0 <= i < |init| ==> init[i] == store[i];
      (last.portalId == portalId && last.contentHash == h) || QueryHash(init, portalId, h)
  }

  /** `select ... where portal_id = p and external_id = e limit 1` finds a row. */
  function QueryExternalId(store: seq<Licitacion>, portalId: nat, e: string): (r: bool)
    ensures r <==> ExternalIdStored(store, portalId, e)
    decreases |store|
  {
    if store == [] then false
    else
      var last := store[|store| - 1];
      var init := store[..|store| - 1];
      assert forall i :: 0 <= i < |init| ==> init[i] == store[i];
      (last.portalId == portalId && last.externalId == Some(e)) || QueryExternalId(init, portalId, e)
  }

  /** `preload_cache(portal_id)`: every stored hash of the portal joins the cache. */
  function PreloadCache(dd: Deduplicator, store: seq<Licitacion>, portalId: nat): (r: Deduplicator)
    ensures dd.cache <= r.cache
    ensures forall i :: 0 <= i < |store| && store[i].portalId == portalId ==> store[i].contentHash in r.cache
    ensures forall h :: h in r.cache ==> h in dd.cache || HashStored(store, portalId, h)
  {
    Deduplicator(dd.cache + HashesOf(store, portalId))
  }

  /** Python truthiness of the optional external id: present and non-empty. */
  predicate HasExternalId(d: LicitacionData) {
    d.externalId.Some? && d.externalId.value != ""
  }

  /** Whether the record is a duplicate, and the deduplicator afterwards. */
  datatype Verdict = Verdict(duplicate: bool, next: Deduplicator)

  /** `is_duplicate(data, portal_id)`: the cache first, then the store by
      hash, then, for a record with an external id, the store by that id. */
  function IsDuplicate(dd: Deduplicator, store: seq<Licitacion>, d: LicitacionData, portalId: nat,
                       h: string -> Hash): (r: Verdict)
    ensures r.duplicate <==>
      || ContentHash(d, h) in dd.cache
      || HashStored(store, portalId, ContentHash(d, h))
      || (HasExternalId(d) && ExternalIdStored(store, portalId, d.externalId.value))
    ensures r.duplicate ==> r.next.cache == dd.cache + {ContentHash(d, h)}
    ensures !r.duplicate ==> r.next == dd
  {
    CheckHash(dd, store, ContentHash(d, h), d.externalId, portalId)
  }

  /** The decision of `is_duplicate` once the record's hash `ch` is computed. */
  function CheckHash(dd: Deduplicator, store: seq<Licitacion>, ch: Hash, externalId: Option<string>,
                     portalId: nat): (r: Verdict)
    ensures r.duplicate <==>
      || ch in dd.cache
      || HashStored(store, portalId, ch)
      || (externalId.Some? && externalId.value != "" && ExternalIdStored(store, portalId, externalId.value))
    ensures r.duplicate ==> r.next.cache == dd.cache + {ch}
    ensures !r.duplicate ==> r.next == dd
  {
    if ch in dd.cache then Verdict(true, dd)
    else
      var byHash := QueryHash(store, portalId, ch);
      var found := if !byHash && externalId.Some? && externalId.value != "" then
                     QueryExternalId(store, portalId, externalId.value) else byHash;
      if found then Verdict(true, Deduplicator(dd.cache + {ch}))
      else Verdict(false, dd)
  }

  /** `mark_seen(data)`: the record's hash joins the cache. */
  function MarkSeen(dd: Deduplicator, d: LicitacionData, h: string -> Hash): (r: Deduplicator)
    ensures ContentHash(d, h) in r.cache
    ensures dd.cache <= r.cache && r.cache - dd.cache <= {ContentHash(d, h)}
  {
    MarkHash(dd, ContentHash(d, h))
  }

  /** `mark_seen` once the record's hash `ch` is computed. */
  function MarkHash(dd: Deduplicator, ch: Hash): (r: Deduplicator)
    ensures ch in r.cache
    ensures dd.cache <= r.cache && r.cache - dd.cache <= {ch}
  {
    Deduplicator(dd.cache + {ch})
  }

  /** A cached hash answers "duplicate" whatever the store holds, and
      leaves the deduplicator as it was. */
  lemma CachedIgnoresStore(dd: Deduplicator, s1: seq<Licitacion>, s2: seq<Licitacion>,
                           d: LicitacionData, portalId: nat, h: string -> Hash)
    requires ContentHash(d, h) in dd.cache
    ensures IsDuplicate(dd, s1, d, portalId, h) == IsDuplicate(dd, s2, d, portalId, h) == Verdict(true, dd)
  {
  }

  /** Without an external id the store is consulted by hash only. */
  lemma NoExternalIdChecksHashOnly(dd: Deduplicator, store: seq<Licitacion>, d: LicitacionData,
                                   portalId: nat, h: string -> Hash)
    requires d.externalId == None || d.externalId == Some("")
    ensures IsDuplicate(dd, store, d, portalId, h).duplicate <==>
      ContentHash(d, h) in dd.cache || HashStored(store, portalId, ContentHash(d, h))
  {
  }

  /** After `mark_seen(d)`, any record with the same hash is a duplicate. */
  lemma MarkSeenThenDuplicate(dd: Deduplicator, store: seq<Licitacion>, d: LicitacionData,
                              d2: LicitacionData, portalId: nat, h: string -> Hash)
    requires ContentHash(d2, h) == ContentHash(d, h)
    ensures IsDuplicate(MarkSeen(dd, d, h), store, d2, portalId, h).duplicate
  {
  }

  /** After preloading a portal, a record whose hash is stored for it is a duplicate. */
  lemma PreloadedHashIsDuplicate(dd: Deduplicator, store: seq<Licitacion>, d: LicitacionData,
                                 portalId: nat, h: string -> Hash, i: nat)
    requires i < |store| && store[i].portalId == portalId && store[i].contentHash == ContentHash(d, h)
    ensures IsDuplicate(PreloadCache(dd, store, portalId), [], d, portalId, h) == Verdict(true, PreloadCache(dd, store, portalId))
  {
  }

  /** The operations a scan applies to its deduplicator. */
  datatype Step =
    | Preload(portalId: nat)
    | Check(d: LicitacionData, checkPortal: nat)
    | Mark(md: LicitacionData)

  function Apply(dd: Deduplicator, store: seq<Licitacion>, s: Step, h: string -> Hash): Deduplicator {
    match s
    case Preload(p) => PreloadCache(dd, store, p)
    case Check(d, p) => IsDuplicate(dd, store, d, p, h).next
    case Mark(d) => MarkSeen(dd, d, h)
  }

  function ApplyAll(dd: Deduplicator, store: seq<Licitacion>, steps: seq<Step>, h: string -> Hash): Deduplicator
    decreases |steps|
  {
    if steps == [] then dd else ApplyAll(Apply(dd, store, steps[0], h), store, steps[1..], h)
  }

  /** The cache never shrinks, whatever sequence of operations runs. */
  lemma {:induction false} CacheNeverShrinks(dd: Deduplicator, store: seq<Licitacion>, steps: seq<Step>,
                                             h: string -> Hash)
    ensures dd.cache <= ApplyAll(dd, store, steps, h).cache
    decreases |steps|
  {
    if steps != [] {
      CacheNeverShrinks(Apply(dd, store, steps[0], h), store, steps[1..], h);
    }
  }
}
