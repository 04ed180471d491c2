# veoovibes integration — a Dafny model

This project models the veoovibes Home Assistant integration, which exposes each room of a
veoovibes multi-room audio server as a media player. It covers three pieces:

- **Vendor API client** (`api.dfy`, module `Api`):
  - how every GET request is built: the `http://<host>/api/v1/<path>` address, the query with
    the API key first and `None`-valued arguments dropped, and the repeated `room[]` parameters
    of the feedback call;
  - which endpoint and arguments each room control sends;
  - the envelope rule: a response counts as a success only when its `status` is `"succeeded"`.
- **Refresh cycle** (`coordinator.dfy`, module `Coordinator`):
  - the snapshot assembled from the room list, one status per room, the feedback batch and the
    favourites;
  - the degrade rules: a failed room status becomes `{}` for that room alone, and failed
    feedback becomes `{}`;
  - the TTL cache of the favourites list, held by the class `VeoovibesCoordinator`. Its method
    `UpdateData` is proved equal to the pure cycle `RefreshCycle`.
- **Per-room view** (`media_player.dfy`, module `MediaPlayer`):
  - properties derived from the latest snapshot: availability, the PLAYING/IDLE decision,
    title, artist and album, volume, and the cache-busted artwork URL;
  - the commands a room sends;
  - the favourites browse tree.

Two further modules support these.

- **`Json`** (`json.dfy`) stands for the decoded JSON payloads.
  - A `Dict` is the list of its members in insertion order. This gives Python's dict behaviour:
    keys in first-insertion order, and a lookup returns the last value stored.
  - It also defines the Python operations the source applies to payload values: `.get`,
    truthiness and `or`, iteration, `str()`, `.strip()`, `.lower()`, `int()` and `float()`.
  - A Python exception (`AttributeError` from `.get` on a non-dict, a `TypeError` from
    iterating a number, and so on) is an `Err` of `Outcome`.
- **`Sorting`** (`sorting.dfy`) models Python's stable `list.sort(key=...)` on string keys. It
  proves that the sort orders by key, permutes its input and keeps equal keys in order.

### Boundaries

- **Transport.** HTTP and JSON decoding are a parameter `fetch: Request -> Outcome<Value>`.
- **Clock.** The coordinator's clock is a parameter `now`.
- **SHA-1.** It is a parameter `digest: string -> string`. The eight-character key is that
  digest's first eight characters.
- **`const.py` values.** `FAV_REFRESH_SECONDS` (the coordinator's `favRefreshSeconds`) and
  `CTX_FAVORITE` (the view's `ctx`) come from `const.py`, which is not part of this model, so
  both are parameters.

### Behaviour of the code worth knowing

The model follows the code in each of these cases.

- **Volume rounding.** Sending a volume of `volume * 100` uses Python's `round`, which rounds half to even
  (`RoundHalfEven`), not half up: 0.125 is sent as 12.
- **Artwork cache key.** The key is a hash of `"title|artist|album"`. These fields are
  joined without escaping, so different metadata can produce the same key.
  `MediaPlayer.MetaKeyCollision` gives two example triples. What is guaranteed is the converse:
  equal metadata gives an equal picture URL (`MediaPlayer.PictureStable`).
- **Non-object feedback entries.** `_fb_text` reads `roomid` from every `playertext` entry. A
  non-object entry anywhere in the list makes the property that reads it raise, not just the
  entry of the room itself.

## Model

| member | source | states |
|---|---|---|
| Api.Client.UrlRoundTrip | custom_components/veoovibes/api.py:19-20 | Every request address is `http://`, then the host, then `/api/v1/`, then the path, and the path can be read back from the address. |
| Api.PresentHasKey | custom_components/veoovibes/api.py:23 | An argument name survives the `None` filter exactly when some argument of that name has a value. |
| Api.PresentDistinct | custom_components/veoovibes/api.py:23 | Dropping `None`-valued arguments keeps distinct argument names distinct. |
| Api.Client.QueryStartsWithKey | custom_components/veoovibes/api.py:23 | `api_key` is always the first query parameter. |
| Api.Client.QueryNames | custom_components/veoovibes/api.py:22-23 | A name is sent if and only if it is `api_key` or some argument of that name has a value. |
| Api.Client.QueryOfDistinct | custom_components/veoovibes/api.py:22-23 | With distinct argument names, none of them `api_key`, the query is exactly the API key followed by the valued arguments in order, rendered as text. |
| Api.Client.Accept | custom_components/veoovibes/api.py:25-30 | A response is returned, unchanged, if and only if the request went through and the body is an object whose `status` is `"succeeded"`. Any other object gives an error naming the path and the body. A non-object raises `AttributeError`. A transport failure passes through. |
| Api.Client.FeedbackQuery | custom_components/veoovibes/api.py:39-42 | The feedback loop builds the API key followed by one `("room[]", str(r))` pair per room id, in input order. |
| Api.Client.ControlRequestShape | custom_components/veoovibes/api.py:55-77 | Each control goes to its own fixed endpoint and sends the API key and the room. The volume set adds `vol` and the favourite adds `favId`; the other controls add nothing. |
| Api.Client.SendControl | custom_components/veoovibes/api.py:25-30 | A control succeeds if and only if the vendor's answer to its request is an object whose `status` is `"succeeded"`. A refusal is an error naming the control's endpoint and the answer, a non-object answer raises `AttributeError`, and a transport failure passes through unchanged. |
| Coordinator.RoomIds | custom_components/veoovibes/coordinator.py:26-27 | The room ids are the room object's keys in order, each once. A non-object gives none. |
| Coordinator.StatusEntry | custom_components/veoovibes/coordinator.py:30-36 | A room's status is `result` when it is truthy, else the whole response. A failed fetch gives `{}`. |
| Coordinator.RoomStatusEntries | custom_components/veoovibes/coordinator.py:38-39 | `room_status` has exactly one entry per room id, in room order, and each maps to that room's own status entry. |
| Coordinator.StatusIsolation | custom_components/veoovibes/coordinator.py:30-39 | A failing status call for one room, whether a transport failure or a refused envelope, maps that room to `{}` and leaves every other room's entry as it would have been. |
| Coordinator.FeedbackValue | custom_components/veoovibes/coordinator.py:41-46 | Feedback is `result or {}` on success and `{}` on any failure. |
| Coordinator.AfterFetch | custom_components/veoovibes/coordinator.py:51-57 | A successful favourites fetch stores `result or {}` with the current time. A failed fetch leaves value and time stamp unchanged. |
| Coordinator.CycleNeedsRoomList | custom_components/veoovibes/coordinator.py:25 | When the room list cannot be fetched, the cycle fails with that error, sends nothing else and leaves the cache untouched. |
| Coordinator.SnapshotShape | custom_components/veoovibes/coordinator.py:24-59 | With a room list, the cycle always produces a snapshot. Its keys are exactly rooms, room_status, feedback and favorites, in that order. room_status has one entry per room id. favorites is the cache, or `{}`, and never null. |
| Coordinator.FreshCacheNotFetched | custom_components/veoovibes/coordinator.py:48-50 | Within the TTL of a filled cache, the favourites request is not sent and the cache is unchanged. |
| Coordinator.StaleCacheFetched | custom_components/veoovibes/coordinator.py:48-59 | An empty or expired cache is fetched as the cycle's last request. Success stores `result or {}` at the current time. Failure keeps the cache, and the snapshot carries the old list, or `{}`. |
| Coordinator.CycleKeepsCacheInvariant | custom_components/veoovibes/coordinator.py:48-57 | Every cycle preserves the cache invariant: an empty cache has time stamp 0, and a filled cache holds `result or {}`. |
| Coordinator.CachedWithinTtl | custom_components/veoovibes/coordinator.py:48-59 | After a successful favourites fetch at time t, a cycle no more than the TTL later does not fetch again and serves exactly the list fetched at t. |
| Coordinator.VeoovibesCoordinator.constructor | custom_components/veoovibes/coordinator.py:20-22 | The cache starts empty with time stamp 0. |
| Coordinator.VeoovibesCoordinator.UpdateData | custom_components/veoovibes/coordinator.py:24-59 | The imperative update returns the snapshot and the requests of `RefreshCycle` for the cache before the call, stores the cycle's cache, and keeps the cache invariant. The snapshot serves a filled cache exactly as stored. |
| Coordinator.FilledCacheServed | custom_components/veoovibes/coordinator.py:53-59 | Under the cache invariant, a filled cache after the cycle is exactly the snapshot's favourites: `favorites or {}` changes nothing. |
| Json.StripSpec | custom_components/veoovibes/media_player.py:133-134 | `strip()` returns an infix obtained by removing only white space. The result is empty exactly when the input is blank, and never begins or ends with white space. |
| Json.ParseIntRoundTrip | custom_components/veoovibes/api.py:68 | An integer written in decimal parses back to itself. |
| Sorting.SortByKeySpec | custom_components/veoovibes/media_player.py:270 | The key-sort is ordered by key, is a permutation of its input, and keeps the elements of each key in input order. |
| MediaPlayer.NewRoom | custom_components/veoovibes/media_player.py:57-64 | The room is named by `name`, else `api_room_name`, else `Room <id>`, so the name is never empty. The friendly name is `veoovibes – <name>` and the unique id is `veoovibes_room_<id>`. A non-object room description raises. |
| MediaPlayer.LastMatch | custom_components/veoovibes/media_player.py:85-90 | The chosen entry is one of the room's entries, and no entry of the room follows it. None means the room has no entry. |
| MediaPlayer.FeedbackText | custom_components/veoovibes/media_player.py:85-90 | The dict-building loop yields the room's last `playertext` entry, or `{}` when there is none. |
| MediaPlayer.FirstVolAt | custom_components/veoovibes/media_player.py:92-100 | The first `roomvolume` entry of the room decides the volume, `int(roomvol)` or None when that fails. Later entries are not consulted. |
| MediaPlayer.FirstVolNone | custom_components/veoovibes/media_player.py:92-100 | Without an entry for the room, the feedback volume is None. |
| MediaPlayer.FeedbackVolume | custom_components/veoovibes/media_player.py:92-100 | The loop with early return computes exactly the first-entry rule above. |
| MediaPlayer.AvailableDefault | custom_components/veoovibes/media_player.py:111-114 | A room missing from the list, or without `is_available`, is available. Otherwise availability is the truthiness of the flag. |
| MediaPlayer.StatePrecedence | custom_components/veoovibes/media_player.py:102-130 | A playing status code or a truthy `is_playing` gives PLAYING whatever the feedback holds, even unreadable feedback. Failing that, paused gives IDLE whatever the feedback holds. Failing that, non-blank feedback text gives PLAYING (a stopped room included) and none gives IDLE. |
| MediaPlayer.Clean | custom_components/veoovibes/media_player.py:132-135 | Returns a string if and only if the input is a string that is not blank. The result is an infix of the input obtained by removing only white space, and is non-empty without surrounding white space. |
| MediaPlayer.CleanIdempotent | custom_components/veoovibes/media_player.py:132-135 | Cleaning a cleaned string changes nothing. |
| MediaPlayer.FirstClean | custom_components/veoovibes/media_player.py:141 | The fallback chain returns the first candidate that cleans to a string, or None when none does. |
| MediaPlayer.MetadataChains | custom_components/veoovibes/media_player.py:137-153 | Title is the first usable of feedback roomtext, status title and feedback roomtitle. Artist is the first of status artist and feedback roomartist. Album is the first of status album and feedback roomalbum. |
| MediaPlayer.CacheUrlShape | custom_components/veoovibes/media_player.py:176-177 | The picture URL is the cover URL, then `&` if it already contains `?` (else `?`), then `cache=` and the key. It therefore always has a query. |
| MediaPlayer.PictureShape | custom_components/veoovibes/media_player.py:159-177 | There is no picture without a cover. Otherwise the picture is the cover URL with the metadata's cache key, which has eight characters when the digest is full length. |
| MediaPlayer.NoCoverNoPicture | custom_components/veoovibes/media_player.py:172-175 | Without a cover there is no picture, whatever the metadata holds, including metadata that cannot be read. |
| MediaPlayer.PictureStable | custom_components/veoovibes/media_player.py:164-177 | Two snapshots that give the room the same cover, title, artist and album give the same picture URL. |
| MediaPlayer.MetaKeyCollision | custom_components/veoovibes/media_player.py:165-168 | Two different metadata triples join to the same text and therefore share a cache key. |
| MediaPlayer.VolumeLevel | custom_components/veoovibes/media_player.py:179-188 | The volume level is None or lies in [0, 1]. |
| MediaPlayer.VolumeSources | custom_components/veoovibes/media_player.py:179-188 | Any `current_volume` other than None is used, and feedback is not read; a value that `float()` rejects gives None, and a status volume of 57 gives 0.57. Without it, the feedback volume is used. With neither, the result is None, not 0. |
| MediaPlayer.Clamp01 | custom_components/veoovibes/media_player.py:186 | The clamp lands in [0, 1] and leaves values already in range unchanged. |
| MediaPlayer.RoundHalfEven | custom_components/veoovibes/media_player.py:216 | The result is within one half of the input, and a tie goes to the even integer. |
| MediaPlayer.VolumePercent | custom_components/veoovibes/media_player.py:215-216 | The volume sent is always an integer in [0, 100]. It equals the rounded percentage when that is in range, and is clamped otherwise. |
| MediaPlayer.SetVolumeRequest | custom_components/veoovibes/media_player.py:215-217 | Setting the volume sends the API key, the room and a `vol` that parses back to the clamped percentage, to `room_vol_set`. |
| MediaPlayer.PlayMedia | custom_components/veoovibes/media_player.py:291-295 | Play-media acts exactly for the favourite content type, and then plays the given favourite. |
| MediaPlayer.Leaf | custom_components/veoovibes/media_player.py:254-268 | Each leaf is playable and not expandable. Its id is `favId` or the key, its title is `name` or the id, and its thumbnail is `image`. Its class is MUSIC iff the lower-cased type is playlist, spotify or applemusic, else CHANNEL. A non-object favourite or a non-string type raises. |
| MediaPlayer.BrowseRoot | custom_components/veoovibes/media_player.py:227-247 | The root ignores the snapshot, is an expandable directory, and has exactly one child, the favourites folder with the favourite content type. |
| MediaPlayer.BrowseFallback | custom_components/veoovibes/media_player.py:281-289 | Any other content type gives the root without children. |
| MediaPlayer.LeavesSpec | custom_components/veoovibes/media_player.py:254-268 | Leaves are produced exactly when every favourite yields one. There is one leaf per favourite, in the favourites' order, and each is playable, not expandable and has no children. |
| MediaPlayer.SortedChildren | custom_components/veoovibes/media_player.py:270 | The sorted children are the collected leaves: the same length, every leaf present, and nothing else. They are ordered by lower-cased title, leaves of equal key keep their order, and the keyed multiset is unchanged. |
| MediaPlayer.BrowseFavorites | custom_components/veoovibes/media_player.py:249-279 | The favourites listing succeeds only when the favourites are an object. It is then the favourites folder holding the key-sorted leaves of its items. |
| MediaPlayer.BrowseFavoritesListed | custom_components/veoovibes/media_player.py:249-279 | An object of favourites is always listed with one child per favourite, provided each favourite is an object whose type and title fallbacks are strings. |
| MediaPlayer.CollectLeaves | custom_components/veoovibes/media_player.py:252-268 | The append loop builds exactly the leaves of the favourites, or stops at the first one that raises. |
| MediaPlayer.BrowseMedia | custom_components/veoovibes/media_player.py:225-289 | The imperative browse handler computes exactly `Browse`. |

## Left out

- The aiohttp session, `raise_for_status`, JSON decoding and the 10-second timeout. These are I/O; the `fetch` parameter stands for all of them.
- The percent-encoding of URL paths and query values by yarl and aiohttp, and yarl's normalisation of the host (lower-casing, IDNA encoding) in `URL.build`. Requests are modelled as the raw host and path plus a list of text pairs.
- `asyncio.gather` in the refresh cycle. Status fetches are taken in room order, which matches the order `gather` returns its results in.
- `time.time()`. The clock is the parameter `now`.
- Logging. The `except` branches that only log are modelled by their effect on the data.
- The constants in `const.py`: `FAV_REFRESH_SECONDS`, `CTX_FAVORITE`, `DOMAIN` and `DEFAULT_SCAN_INTERVAL`. `const.py` is not part of this model. The first two are parameters; the scan interval belongs to the host's scheduler.
- `hashlib.sha1` and the UTF-8 `ignore` encoding in `_meta_hash`. SHA-1 is taken as an abstract function of the joined text.
- Floating point. Volumes are exact reals. The clamp bounds, the rounding rule and the [0, 100] range are stated exactly; float rounding error is not modelled.
- Unicode case mapping and white space. `.lower()` maps ASCII letters only, and `.strip()` removes ASCII white space and the separators U+001C–U+001F.
- `int()` and `float()`: digit-group underscores, exponents and `inf`/`nan` are not modelled, and `float()` accepts plain decimals only. `int()` of a JSON float is also not modelled, because payloads are modelled without floats.
- `str()` of a list or an object. It is only a placeholder text. The source compares it with a room id, which a real room id would not match.
- `device_info`, `async_setup_entry`, the `play_favorite` service registration, `media_content_type` and the supported-features mask. These are static declarations or host-platform wiring.
- The `async_request_refresh` call after each command. It belongs to the host's update scheduler.
- `config_flow.py` and `__init__.py`: the UI configuration flow and the config-entry lifecycle.
- MediaPlayer.VolumeLevel: stated as the bound in [0, 1] plus the source cases in `VolumeSources`; a non-numeric `current_volume` that `float()` rejects gives None, as in the source, but `float()` itself is modelled only for integers and plain decimal strings.
