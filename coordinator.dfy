/** The refresh cycle: the room list, one status per room, the feedback batch and the
    favourites cache merged into one snapshot, with each secondary fetch allowed to fail. */
module Coordinator {
  import opened Wrappers
  import opened Json
  import opened Api

  /** `response.get("result")` on an accepted response (always an object). */
  function ResultOf(resp: Value): Value {
    if resp.Dict? then Lookup(resp.entries, "result").GetOr(Null) else Null
  }

  /** `[str(k) for k in rooms.keys()] if isinstance(rooms, dict) else []`: the object's member
      names, each once, in the object's order; no ids at all when the room list is not an object. */
  function RoomIds(rooms: Value): (r: seq<string>)
    ensures Distinct(r)
    ensures forall k :: k in r <==> rooms.Dict? && HasKey(rooms.entries, k)
    ensures rooms.Dict? ==> r == Keys(rooms.entries)
  {
    if rooms.Dict? then Keys(rooms.entries) else []
  }

  /** `_one(rid)`: `d.get("result") or d` when the status call succeeded, `{}` when it raised. */
  function StatusEntry(outcome: Outcome<Value>): (r: Value)
    ensures outcome.Err? ==> r == EmptyDict
    ensures outcome.Ok? && outcome.value.Dict? && Truthy(ResultOf(outcome.value)) ==> r == ResultOf(outcome.value)
    ensures outcome.Ok? && outcome.value.Dict? && !Truthy(ResultOf(outcome.value)) ==> r == outcome.value
  {
    match outcome
    case Err(_) => EmptyDict
    case Ok(d) =>
      match Get(d, "result", Null)
      case Ok(res) => Or(res, d)
      case Err(_) => EmptyDict
  }

  function StatusRequest(client: Client, rid: string): Request {
    client.GetRequest("room_player_status", [("room", Some(Text(rid)))])
  }

  /** `{rid: data for rid, data in results}`, the per-room fetches joined in room order. */
  function RoomStatus(client: Client, fetch: Fetch, rids: seq<string>): seq<(string, Value)> {
    seq(|rids|, i requires 0 <= i < |rids| => (rids[i], StatusEntry(client.RoomPlayerStatus(fetch, Text(rids[i])))))
  }

  /** `room_status` has one entry per room id, in the room list's order, and each is that room's own
      fetch result: a room whose fetch failed is present with `{}`. */
  lemma RoomStatusEntries(client: Client, fetch: Fetch, rids: seq<string>)
    requires Distinct(rids)
    ensures Keys(RoomStatus(client, fetch, rids)) == rids
    ensures forall i :: 0 <= i < |rids| ==>
      Lookup(RoomStatus(client, fetch, rids), rids[i]) == Some(StatusEntry(client.RoomPlayerStatus(fetch, Text(rids[i]))))
  {
    var rs := RoomStatus(client, fetch, rids);
    assert DistinctKeys(rs);
    KeysOfDistinct(rs);
    assert Keys(rs) == rids;
    forall i | 0 <= i < |rids|
      ensures Lookup(rs, rids[i]) == Some(StatusEntry(client.RoomPlayerStatus(fetch, Text(rids[i]))))
    {
      LookupLast(rs, i);
    }
  }

  /** One room's failing status call degrades that room alone: if a second transport differs from
      the first only in that room's call failing (in transport or in the envelope check), the room maps to `{}` and every other room
      keeps the entry it had. */
  lemma StatusIsolation(client: Client, fetch: Fetch, faulty: Fetch, rids: seq<string>, bad: string)
    requires Distinct(rids) && bad in rids
    requires client.RoomPlayerStatus(faulty, Text(bad)).Err?
    requires forall i :: 0 <= i < |rids| && rids[i] != bad ==>
      faulty(StatusRequest(client, rids[i])) == fetch(StatusRequest(client, rids[i]))
    ensures Keys(RoomStatus(client, faulty, rids)) == rids
    ensures Lookup(RoomStatus(client, faulty, rids), bad) == Some(EmptyDict)
    ensures forall i :: 0 <= i < |rids| && rids[i] != bad ==>
      Lookup(RoomStatus(client, faulty, rids), rids[i]) == Lookup(RoomStatus(client, fetch, rids), rids[i])
  {
    RoomStatusEntries(client, fetch, rids);
    RoomStatusEntries(client, faulty, rids);
    var j :| 0 <= j < |rids| && rids[j] == bad;
  }

  /** The feedback the snapshot carries: `fb.get("result") or {}` on success, `{}` on any failure. */
  function FeedbackValue(outcome: Outcome<Value>): (r: Value)
    ensures outcome.Err? ==> r == EmptyDict
    ensures outcome.Ok? && outcome.value.Dict? ==> r == Or(ResultOf(outcome.value), EmptyDict)
  {
    match outcome
    case Err(_) => EmptyDict
    case Ok(fb) =>
      match Get(fb, "result", Null)
      case Ok(res) => Or(res, EmptyDict)
      case Err(_) => EmptyDict
  }

  /** The favourites cache: the last list fetched (None until a fetch succeeds) and when it was fetched. */
  datatype Cache = Cache(value: Option<Value>, last: real)

  /** What the cache can hold: `result or {}` once filled, and the initial time stamp while empty. */
  predicate CacheInvariant(c: Cache) {
    (c.value.None? ==> c.last == 0.0) &&
    (c.value.Some? ==> Truthy(c.value.value) || c.value.value == EmptyDict)
  }

  /** The cache is refreshed when it is empty or strictly older than the TTL. */
  predicate Stale(c: Cache, now: real, ttl: real) {
    c.value.None? || now - c.last > ttl
  }

  /** The cache after a favourites fetch with this outcome at `now`: a success replaces value and
      time stamp, a failure leaves both as they were. */
  function AfterFetch(c: Cache, outcome: Outcome<Value>, now: real): (r: Cache)
    ensures outcome.Err? ==> r == c
    ensures outcome.Ok? ==> r == Cache(Some(Or(ResultOf(outcome.value), EmptyDict)), now)
  {
    match outcome
    case Err(_) => c
    case Ok(resp) => Cache(Some(Or(ResultOf(resp), EmptyDict)), now)
  }

  /** The snapshot object, with its four members in this order. */
  function Snapshot(rooms: Value, roomStatus: seq<(string, Value)>, feedback: Value, favorites: Value): Value {
    Dict([("rooms", rooms), ("room_status", Dict(roomStatus)), ("feedback", feedback), ("favorites", favorites)])
  }

  /** One cycle's result: the snapshot (or the error that failed the cycle), the cache after it, and
      the requests sent, in order. */
  datatype Cycle = Cycle(snapshot: Outcome<Value>, cache: Cache, sent: seq<Request>)

  function RoomsRequest(client: Client): Request {
    client.GetRequest("listrooms", [])
  }

  function FavoritesRequest(client: Client): Request {
    client.GetRequest("listFavorites", [])
  }

  function RoomParams(rids: seq<string>): seq<Param> {
    seq(|rids|, i requires 0 <= i < |rids| => Text(rids[i]))
  }

  function StatusRequests(client: Client, rids: seq<string>): seq<Request> {
    seq(|rids|, i requires 0 <= i < |rids| => StatusRequest(client, rids[i]))
  }

  /** `_async_update_data` as a function of the cache before the cycle, the transport and the clock. */
  function RefreshCycle(client: Client, fetch: Fetch, ttl: real, c: Cache, now: real): Cycle {
    match client.Accept("listrooms", fetch(RoomsRequest(client)))
    case Err(e) => Cycle(Err(e), c, [RoomsRequest(client)])
    case Ok(resp) =>
      var rooms := Or(ResultOf(resp), EmptyDict);
      var rids := RoomIds(rooms);
      var feedback := FeedbackValue(client.GetRoomFeedback(fetch, RoomParams(rids)));
      var refresh := Stale(c, now, ttl);
      var c' := if refresh then AfterFetch(c, client.ListFavorites(fetch), now) else c;
      var sent := [RoomsRequest(client)] + StatusRequests(client, rids) +
                  [client.FeedbackRequest(RoomParams(rids))] + (if refresh then [FavoritesRequest(client)] else []);
      Cycle(Ok(Snapshot(rooms, RoomStatus(client, fetch, rids), feedback, Or(c'.value.GetOr(Null), EmptyDict))), c', sent)
  }

  /** Without a room list there is no snapshot: the cycle fails with the room list's error, sends
      nothing else and leaves the cache alone. */
  lemma CycleNeedsRoomList(client: Client, fetch: Fetch, ttl: real, c: Cache, now: real)
    requires client.ListRooms(fetch).Err?
    ensures RefreshCycle(client, fetch, ttl, c, now) == Cycle(Err(client.ListRooms(fetch).error), c, [RoomsRequest(client)])
  {
  }

  /** With a room list the cycle always completes, whatever the other fetches do. Its snapshot has
      exactly the members rooms, room_status, feedback and favorites; room_status has one entry
      per room id; feedback is `result or {}` or `{}`; favourites is never None but the cache after
      the cycle, or `{}` while it is empty. */
  lemma SnapshotShape(client: Client, fetch: Fetch, ttl: real, c: Cache, now: real)
    requires client.ListRooms(fetch).Ok?
    ensures var cy := RefreshCycle(client, fetch, ttl, c, now);
      var rooms := Or(ResultOf(client.ListRooms(fetch).value), EmptyDict);
      var rids := RoomIds(rooms);
      && cy.snapshot.Ok? && cy.snapshot.value.Dict?
      && Keys(cy.snapshot.value.entries) == ["rooms", "room_status", "feedback", "favorites"]
      && Lookup(cy.snapshot.value.entries, "rooms") == Some(rooms)
      && Lookup(cy.snapshot.value.entries, "room_status") == Some(Dict(RoomStatus(client, fetch, rids)))
      && Keys(RoomStatus(client, fetch, rids)) == rids
      && Lookup(cy.snapshot.value.entries, "feedback") == Some(FeedbackValue(client.GetRoomFeedback(fetch, RoomParams(rids))))
      && Lookup(cy.snapshot.value.entries, "favorites") == Some(Or(cy.cache.value.GetOr(Null), EmptyDict))
      && Lookup(cy.snapshot.value.entries, "favorites") != Some(Null)
  {
    var cy := RefreshCycle(client, fetch, ttl, c, now);
    var e := cy.snapshot.value.entries;
    var rooms := Or(ResultOf(client.ListRooms(fetch).value), EmptyDict);
    RoomStatusEntries(client, fetch, RoomIds(rooms));
    assert DistinctKeys(e);
    ItemsOfDistinct(e);
    KeysOfDistinct(e);
    LookupLast(e, 0);
    LookupLast(e, 1);
    LookupLast(e, 2);
    LookupLast(e, 3);
  }

  /** A filled cache is served as it is: under the cache invariant `favorites or {}` changes
      nothing, so the snapshot's favourites are exactly the cache after the cycle. */
  lemma FilledCacheServed(client: Client, fetch: Fetch, ttl: real, c: Cache, now: real)
    requires CacheInvariant(c)
    requires client.ListRooms(fetch).Ok?
    ensures var cy := RefreshCycle(client, fetch, ttl, c, now);
      cy.cache.value.Some? ==> Lookup(cy.snapshot.value.entries, "favorites") == Some(cy.cache.value.value)
  {
    SnapshotShape(client, fetch, ttl, c, now);
    CycleKeepsCacheInvariant(client, fetch, ttl, c, now);
  }

  /** Requests to different endpoints are different requests. */
  lemma DistinctEndpoints(client: Client, p: string, q: string, kp: seq<(string, Option<Param>)>, r: Request)
    requires p != q
    requires client.PathOf(r.url) == Some(q)
    ensures client.GetRequest(p, kp) != r
  {
    client.UrlRoundTrip(p);
  }

  /** Within the TTL of a filled cache nothing is fetched: the favourites request is not sent and
      the cache, value and time stamp, stays as it was. */
  lemma FreshCacheNotFetched(client: Client, fetch: Fetch, ttl: real, c: Cache, now: real)
    requires client.ListRooms(fetch).Ok?
    requires !Stale(c, now, ttl)
    ensures RefreshCycle(client, fetch, ttl, c, now).cache == c
    ensures FavoritesRequest(client) !in RefreshCycle(client, fetch, ttl, c, now).sent
  {
    var cy := RefreshCycle(client, fetch, ttl, c, now);
    var rooms := Or(ResultOf(client.ListRooms(fetch).value), EmptyDict);
    var rids := RoomIds(rooms);
    client.UrlRoundTrip("listrooms");
    client.UrlRoundTrip("room_player_status");
    client.UrlRoundTrip("get_room_feedback");
    client.UrlRoundTrip("listFavorites");
    forall i | 0 <= i < |cy.sent| ensures cy.sent[i] != FavoritesRequest(client) {
      if i == 0 {
        DistinctEndpoints(client, "listFavorites", "listrooms", [], cy.sent[i]);
      } else if i <= |rids| {
        assert cy.sent[i] == StatusRequest(client, rids[i - 1]);
        DistinctEndpoints(client, "listFavorites", "room_player_status", [], cy.sent[i]);
      } else {
        DistinctEndpoints(client, "listFavorites", "get_room_feedback", [], cy.sent[i]);
      }
    }
  }

  /** An empty or expired cache is fetched as the cycle's last request. A success stores
      `result or {}` with the cycle's time; a failure keeps value and time stamp, and the snapshot
      carries the previous favourites (or `{}` if there were none). */
  lemma StaleCacheFetched(client: Client, fetch: Fetch, ttl: real, c: Cache, now: real)
    requires client.ListRooms(fetch).Ok?
    requires Stale(c, now, ttl)
    ensures var cy := RefreshCycle(client, fetch, ttl, c, now);
      && |cy.sent| > 0 && cy.sent[|cy.sent| - 1] == FavoritesRequest(client)
      && (client.ListFavorites(fetch).Ok? ==>
            cy.cache == Cache(Some(Or(ResultOf(client.ListFavorites(fetch).value), EmptyDict)), now))
      && (client.ListFavorites(fetch).Err? ==> cy.cache == c)
      && (client.ListFavorites(fetch).Err? ==>
            Lookup(cy.snapshot.value.entries, "favorites") == Some(Or(c.value.GetOr(Null), EmptyDict)))
  {
    SnapshotShape(client, fetch, ttl, c, now);
  }

  /** Every cycle keeps the cache invariant. */
  lemma CycleKeepsCacheInvariant(client: Client, fetch: Fetch, ttl: real, c: Cache, now: real)
    requires CacheInvariant(c)
    ensures CacheInvariant(RefreshCycle(client, fetch, ttl, c, now).cache)
  {
  }

  /** Two cycles: after a cycle that fetched favourites successfully at time t, a cycle no more
      than the TTL later does not fetch them again and serves exactly the list fetched at t. */
  lemma CachedWithinTtl(client: Client, f1: Fetch, f2: Fetch, ttl: real, c: Cache, t: real, now: real)
    requires client.ListRooms(f1).Ok? && client.ListRooms(f2).Ok?
    requires Stale(c, t, ttl) && client.ListFavorites(f1).Ok?
    requires now - t <= ttl
    ensures var c1 := RefreshCycle(client, f1, ttl, c, t).cache;
      var cy := RefreshCycle(client, f2, ttl, c1, now);
      && FavoritesRequest(client) !in cy.sent
      && cy.cache == c1
      && Lookup(cy.snapshot.value.entries, "favorites") == Some(Or(ResultOf(client.ListFavorites(f1).value), EmptyDict))
  {
    StaleCacheFetched(client, f1, ttl, c, t);
    var c1 := RefreshCycle(client, f1, ttl, c, t).cache;
    FreshCacheNotFetched(client, f2, ttl, c1, now);
    SnapshotShape(client, f2, ttl, c1, now);
  }

  /** The coordinator's own state: the favourites cache. The client and the TTL
      (`FAV_REFRESH_SECONDS`) are fixed at construction. */
  class VeoovibesCoordinator {
    const client: Client
    const favRefreshSeconds: real
    var favoritesCache: Option<Value>
    var favoritesLast: real

    function CacheState(): Cache
      reads this
    {
      Cache(favoritesCache, favoritesLast)
    }

    ghost predicate Valid()
      reads this
    {
      CacheInvariant(CacheState())
    }

    constructor (client: Client, favRefreshSeconds: real)
      ensures this.client == client && this.favRefreshSeconds == favRefreshSeconds
      ensures favoritesCache == None && favoritesLast == 0.0
      ensures Valid()
    {
      this.client := client;
      this.favRefreshSeconds := favRefreshSeconds;
      favoritesCache := None;
      favoritesLast := 0.0;
    }

    /** `_async_update_data` at time `now`, with `fetch` answering every request it sends. */
    method UpdateData(fetch: Fetch, now: real) returns (snapshot: Outcome<Value>, sent: seq<Request>)
      requires Valid()
      modifies this`favoritesCache, this`favoritesLast
      ensures Valid()
      ensures var cy := RefreshCycle(client, fetch, favRefreshSeconds, old(CacheState()), now);
        snapshot == cy.snapshot && sent == cy.sent && CacheState() == cy.cache
      ensures snapshot.Ok? && favoritesCache.Some? ==>
        Lookup(snapshot.value.entries, "favorites") == Some(favoritesCache.value)
    {
      var roomsReq := RoomsRequest(client);
      sent := [roomsReq];
      var roomsResp := client.Accept("listrooms", fetch(roomsReq));
      if roomsResp.Err? {
        snapshot := Err(roomsResp.error);
        return;
      }
      var rooms := Or(ResultOf(roomsResp.value), EmptyDict);
      var rids := RoomIds(rooms);

      var roomStatus := RoomStatus(client, fetch, rids);
      sent := sent + StatusRequests(client, rids);

      var query := client.FeedbackQuery(RoomParams(rids));
      var feedbackReq := Request(client.Url("get_room_feedback"), query);
      sent := sent + [feedbackReq];
      var feedback := FeedbackValue(client.Accept("get_room_feedback", fetch(feedbackReq)));

      var favorites := favoritesCache;
      if favorites.None? || now - favoritesLast > favRefreshSeconds {
        sent := sent + [FavoritesRequest(client)];
        var favResp := client.Accept("listFavorites", fetch(FavoritesRequest(client)));
        if favResp.Ok? {
          favorites := Some(Or(ResultOf(favResp.value), EmptyDict));
          favoritesCache := favorites;
          favoritesLast := now;
        }
      }
      snapshot := Ok(Snapshot(rooms, roomStatus, feedback, Or(favorites.GetOr(Null), EmptyDict)));
      FilledCacheServed(client, fetch, favRefreshSeconds, old(CacheState()), now);
    }
  }
}
