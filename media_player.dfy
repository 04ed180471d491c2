/** One room's media-player entity: every property derived afresh from the coordinator's latest
    snapshot, the commands it sends, and its two-level favourites browse tree. */
module MediaPlayer {
  import opened Wrappers
  import opened Json
  import opened Api
  import opened Sorting

  datatype MediaState = Playing | Idle

  /** The entity's fixed attributes, set when it is created from the room list. */
  datatype Room = Room(roomId: string, roomName: Value, friendly: string, uniqueId: string)

  /** `__init__`: the room is named by its `name`, else its `api_room_name`, else "Room <id>";
      the room info must be an object. */
  function NewRoom(roomId: string, roomInfo: Value): (r: Outcome<Room>)
    ensures r.Ok? <==> roomInfo.Dict?
    ensures r.Ok? ==> r.value.roomId == roomId && Truthy(r.value.roomName)
    ensures r.Ok? ==> r.value.friendly == "veoovibes \U{2013} " + StrOf(r.value.roomName)
    ensures r.Ok? ==> r.value.uniqueId == "veoovibes_room_" + roomId
    ensures r.Ok? && Truthy(Field(roomInfo, "name")) ==> r.value.roomName == Field(roomInfo, "name")
    ensures r.Ok? && !Truthy(Field(roomInfo, "name")) && Truthy(Field(roomInfo, "api_room_name")) ==>
      r.value.roomName == Field(roomInfo, "api_room_name")
    ensures r.Ok? && !Truthy(Field(roomInfo, "name")) && !Truthy(Field(roomInfo, "api_room_name")) ==>
      r.value.roomName == Str("Room " + roomId)
  {
    if !roomInfo.Dict? then Err(AttributeError)
    else
      var roomName := Or(Field(roomInfo, "name"), Or(Field(roomInfo, "api_room_name"), Str("Room " + roomId)));
      Ok(Room(roomId, roomName, "veoovibes \U{2013} " + StrOf(roomName), "veoovibes_room_" + roomId))
  }

  /** `t.get(k)` on a value already known to be an object. */
  function Field(t: Value, k: string): Value {
    if t.Dict? then Lookup(t.entries, k).GetOr(Null) else Null
  }

  // ---------- Reading the snapshot ----------

  /** `_rooms()`: `data.get("rooms", {}) or {}`. */
  function RoomsOf(data: Value): Outcome<Value> {
    var rooms :- Get(data, "rooms", EmptyDict);
    Ok(Or(rooms, EmptyDict))
  }

  /** `_rp()`: this room's status, `{}` when the snapshot has none. */
  function Rp(data: Value, roomId: string): Outcome<Value> {
    var rs :- Get(data, "room_status", EmptyDict);
    Get(Or(rs, EmptyDict), roomId, EmptyDict)
  }

  /** The entries of one feedback list: `for e in fb.get(name, []) or []`, with `fb` the snapshot's
      `feedback or {}`. */
  function FeedbackEntries(data: Value, name: string): Outcome<seq<Value>> {
    var fb :- Get(data, "feedback", EmptyDict);
    var raw :- Get(Or(fb, EmptyDict), name, List([]));
    Iter(Or(raw, List([])))
  }

  /** A feedback entry belongs to the room when `str(e.get("roomid"))` is its id. */
  predicate Matches(e: Value, roomId: string) {
    e.Dict? && StrOf(Field(e, "roomid")) == roomId
  }

  /** The last entry of the room, if any. */
  function LastMatch(es: seq<Value>, roomId: string): (r: Option<Value>)
    ensures r.Some? ==> exists i :: 0 <= i < |es| && es[i] == r.value && Matches(es[i], roomId) &&
                                   forall j :: i < j < |es| ==> !Matches(es[j], roomId)
    ensures r.None? ==> forall i :: 0 <= i < |es| ==> !Matches(es[i], roomId)
  {
    if |es| == 0 then None
    else if Matches(es[|es| - 1], roomId) then Some(es[|es| - 1])
    else
      var r := LastMatch(es[..|es| - 1], roomId);
      assert forall i :: 0 <= i < |es| - 1 ==> es[..|es| - 1][i] == es[i];
      r
  }

  /** `_fb_text()`: the room's last `playertext` entry, `{}` when there is none. Every entry must be
      an object, since each one's `roomid` is read. */
  function FbText(data: Value, roomId: string): (r: Outcome<Value>)
    ensures r.Ok? ==> r.value.Dict?
  {
    var es :- FeedbackEntries(data, "playertext");
    if forall i :: 0 <= i < |es| ==> es[i].Dict? then Ok(LastMatch(es, roomId).GetOr(EmptyDict))
    else Err(AttributeError)
  }

  /** `_fb_text()` as written: a dict keyed by `str(roomid)` filled entry by entry, then read. */
  method FeedbackText(data: Value, roomId: string) returns (r: Outcome<Value>)
    ensures r == FbText(data, roomId)
  {
    var es := FeedbackEntries(data, "playertext");
    if es.Err? {
      return Err(es.error);
    }
    var entries := es.value;
    var ptext: seq<(string, Value)> := [];
    for i := 0 to |entries|
      invariant forall j :: 0 <= j < i ==> entries[j].Dict?
      invariant Lookup(ptext, roomId) == LastMatch(entries[..i], roomId)
    {
      var e := entries[i];
      if !e.Dict? {
        return Err(AttributeError);
      }
      ptext := ptext + [(StrOf(Field(e, "roomid")), e)];
      assert entries[..i + 1][..i] == entries[..i];
    }
    assert entries[..|entries|] == entries;
    return Ok(Lookup(ptext, roomId).GetOr(EmptyDict));
  }

  /** The volume of the first `roomvolume` entry of the room: `int(e.get("roomvol"))`, None when
      that conversion raises. Entries before it must be objects; entries after it are not read. */
  function FirstVol(es: seq<Value>, roomId: string): Outcome<Option<int>> {
    if |es| == 0 then Ok(None)
    else if !es[0].Dict? then Err(AttributeError)
    else if Matches(es[0], roomId) then Ok(PyInt(Field(es[0], "roomvol")))
    else FirstVol(es[1..], roomId)
  }

  /** `_fb_vol()`. */
  function FbVol(data: Value, roomId: string): Outcome<Option<int>> {
    var es :- FeedbackEntries(data, "roomvolume");
    FirstVol(es, roomId)
  }

  /** The first entry of the room decides: whatever follows it is never consulted. */
  lemma {:induction false} FirstVolAt(es: seq<Value>, roomId: string, k: nat)
    requires k < |es| && Matches(es[k], roomId)
    requires forall j :: 0 <= j < k ==> es[j].Dict? && !Matches(es[j], roomId)
    ensures FirstVol(es, roomId) == Ok(PyInt(Field(es[k], "roomvol")))
  {
    if k > 0 {
      assert forall j :: 0 <= j < k - 1 ==> es[1..][j] == es[j + 1];
      FirstVolAt(es[1..], roomId, k - 1);
    }
  }

  /** Without an entry of the room, and with every entry an object, there is no feedback volume. */
  lemma {:induction false} FirstVolNone(es: seq<Value>, roomId: string)
    requires forall j :: 0 <= j < |es| ==> es[j].Dict? && !Matches(es[j], roomId)
    ensures FirstVol(es, roomId) == Ok(None)
  {
    if |es| > 0 {
      assert forall j :: 0 <= j < |es| - 1 ==> es[1..][j] == es[j + 1];
      FirstVolNone(es[1..], roomId);
    }
  }

  /** `_fb_vol()` as written: a loop that returns at the first entry of the room. */
  method FeedbackVolume(data: Value, roomId: string) returns (r: Outcome<Option<int>>)
    ensures r == FbVol(data, roomId)
  {
    var es := FeedbackEntries(data, "roomvolume");
    if es.Err? {
      return Err(es.error);
    }
    var entries := es.value;
    for i := 0 to |entries|
      invariant FirstVol(entries, roomId) == FirstVol(entries[i..], roomId)
    {
      var e := entries[i];
      assert entries[i..][1..] == entries[i + 1..];
      if !e.Dict? {
        return Err(AttributeError);
      }
      if StrOf(Field(e, "roomid")) == roomId {
        return Ok(PyInt(Field(e, "roomvol")));
      }
    }
    return Ok(None);
  }

  /** A string that is not white space throughout. */
  predicate NonBlank(v: Value) {
    v.Str? && |Strip(v.s)| > 0
  }

  const FeedbackTextFields: seq<string> := ["roomtext", "roomtitle", "roomartist", "roomalbum"]

  /** `_fb_is_playing()`: some text field of the room's feedback entry is a non-blank string. */
  function FbIsPlaying(data: Value, roomId: string): Outcome<bool> {
    var t :- FbText(data, roomId);
    Ok(exists k :: k in FeedbackTextFields && NonBlank(Field(t, k)))
  }

  // ---------- Availability and state ----------

  /** `available`: `bool(room.get("is_available", True))`, the room's entry taken as `{}` when absent. */
  function Available(data: Value, roomId: string): Outcome<bool> {
    var rooms :- RoomsOf(data);
    var r :- Get(rooms, roomId, Null);
    var flag :- Get(Or(r, EmptyDict), "is_available", Bool(true));
    Ok(Truthy(flag))
  }

  /** A room is reported unavailable only when its entry has a falsy `is_available`; a room
      missing from the list, or without the flag, is available. */
  lemma AvailableDefault(data: Value, roomId: string)
    requires data.Dict? && RoomsOf(data).Ok? && RoomsOf(data).value.Dict?
    ensures var r := Field(RoomsOf(data).value, roomId);
      (!Truthy(r) ==> Available(data, roomId) == Ok(true)) &&
      (r.Dict? && Truthy(r) ==> Available(data, roomId) == Ok(Truthy(Lookup(r.entries, "is_available").GetOr(Bool(true)))))
  {
  }

  /** `(p.get("status_code") or "").lower()`; raises when the code is a truthy non-string. */
  function StatusCode(p: Value): Outcome<string> {
    var c :- Get(p, "status_code", Null);
    var code := Or(c, Str(""));
    if code.Str? then Ok(Lower(code.s)) else Err(AttributeError)
  }

  /** `str(p.get("is_playing", "0")).lower() in ("1", "true", "yes")`. */
  predicate PlayingFlag(p: Value) {
    p.Dict? && Lower(StrOf(Lookup(p.entries, "is_playing").GetOr(Str("0")))) in ["1", "true", "yes"]
  }

  /** `state` given the room's status and the (lazily consulted) feedback verdict. */
  function StateFrom(p: Value, fbPlaying: Outcome<bool>): Outcome<MediaState> {
    var code :- StatusCode(p);
    if code == "playing" || PlayingFlag(p) then Ok(Playing)
    else if code in ["paused", "pause"] then Ok(Idle)
    else
      var fb :- fbPlaying;
      if fb then Ok(Playing)
      else if code in ["stopped", "stop"] then Ok(Idle)
      else Ok(Idle)
  }

  /** `state`. */
  function State(data: Value, roomId: string): Outcome<MediaState> {
    var p :- Rp(data, roomId);
    StateFrom(p, FbIsPlaying(data, roomId))
  }

  /** The precedence of `state`: a playing code or a truthy `is_playing` gives PLAYING whatever the
      feedback says (even feedback that cannot be read); otherwise a paused code gives IDLE whatever
      the feedback says; otherwise non-blank feedback text gives PLAYING, "stopped" included, and
      anything else gives IDLE. */
  lemma StatePrecedence(data: Value, roomId: string)
    requires Rp(data, roomId).Ok? && StatusCode(Rp(data, roomId).value).Ok?
    ensures var p := Rp(data, roomId).value;
      var code := StatusCode(p).value;
      var direct := code == "playing" || PlayingFlag(p);
      var paused := code == "paused" || code == "pause";
      && (direct ==> State(data, roomId) == Ok(Playing))
      && (!direct && paused ==> State(data, roomId) == Ok(Idle))
      && (!direct && !paused && FbIsPlaying(data, roomId) == Ok(true) ==> State(data, roomId) == Ok(Playing))
      && (!direct && !paused && FbIsPlaying(data, roomId) == Ok(false) ==> State(data, roomId) == Ok(Idle))
      && (!direct && !paused && FbIsPlaying(data, roomId).Err? ==> State(data, roomId).Err?)
  {
  }

  // ---------- Now-playing metadata ----------

  /** `_clean(s)`: a string stripped of surrounding white space; None for a non-string or a blank
      string. What it returns is never blank and neither starts nor ends with white space. */
  function Clean(v: Value): (r: Option<string>)
    ensures r.Some? <==> v.Str? && !Blank(v.s)
    ensures r.Some? ==> |r.value| > 0 && !IsSpace(r.value[0]) && !IsSpace(r.value[|r.value| - 1])
    ensures r.Some? ==> exists a, b :: 0 <= a <= b <= |v.s| && r.value == v.s[a..b] && Blank(v.s[..a]) && Blank(v.s[b..])
  {
    if v.Str? then StripSpec(v.s); (if |Strip(v.s)| > 0 then Some(Strip(v.s)) else None) else None
  }

  /** Cleaning a cleaned string changes nothing. */
  lemma CleanIdempotent(v: Value)
    requires Clean(v).Some?
    ensures Clean(Str(Clean(v).value)) == Clean(v)
  {
    StripIdempotent(v.s);
  }

  /** The reference for the fallback chains: the first of the candidates that cleans to a string. */
  function FirstClean(vs: seq<Value>): (r: Option<string>)
    ensures r.Some? ==> exists i :: 0 <= i < |vs| && Clean(vs[i]) == r && forall j :: 0 <= j < i ==> Clean(vs[j]).None?
    ensures r.None? ==> forall i :: 0 <= i < |vs| ==> Clean(vs[i]).None?
  {
    if |vs| == 0 then None
    else if Clean(vs[0]).Some? then Clean(vs[0])
    else
      var r := FirstClean(vs[1..]);
      assert forall i :: 1 <= i < |vs| ==> vs[1..][i - 1] == vs[i];
      r
  }

  lemma FirstCleanOfTwo(a: Value, b: Value)
    ensures FirstClean([a, b]) == Clean(a).OrElse(Clean(b))
  {
    assert [a, b][1..] == [b];
    assert [b][1..] == [];
  }

  lemma FirstCleanOfThree(a: Value, b: Value, c: Value)
    ensures FirstClean([a, b, c]) == Clean(a).OrElse(Clean(b).OrElse(Clean(c)))
  {
    assert [a, b, c][1..] == [b, c];
    FirstCleanOfTwo(b, c);
  }

  /** `media_title`: `_clean(fb.roomtext) or _clean(p.title) or _clean(fb.roomtitle)`; `p.get` is
      not reached when the feedback text already decides. */
  function Title(data: Value, roomId: string): Outcome<Option<string>> {
    var p :- Rp(data, roomId);
    var fb :- FbText(data, roomId);
    var fromText := Clean(Field(fb, "roomtext"));
    if fromText.Some? then Ok(fromText)
    else
      var title :- Get(p, "title", Null);
      Ok(Clean(title).OrElse(Clean(Field(fb, "roomtitle"))))
  }

  /** `media_artist`: `_clean(p.artist) or _clean(fb.roomartist)`. */
  function Artist(data: Value, roomId: string): Outcome<Option<string>> {
    var p :- Rp(data, roomId);
    var fb :- FbText(data, roomId);
    var artist :- Get(p, "artist", Null);
    Ok(Clean(artist).OrElse(Clean(Field(fb, "roomartist"))))
  }

  /** `media_album_name`: `_clean(p.album) or _clean(fb.roomalbum)`. */
  function Album(data: Value, roomId: string): Outcome<Option<string>> {
    var p :- Rp(data, roomId);
    var fb :- FbText(data, roomId);
    var album :- Get(p, "album", Null);
    Ok(Clean(album).OrElse(Clean(Field(fb, "roomalbum"))))
  }

  /** Title, artist and album are the first usable candidate of their chain: the title prefers the
      feedback text, then the status title, then the feedback title; artist and album prefer the
      status over the feedback. */
  lemma MetadataChains(data: Value, roomId: string)
    requires Rp(data, roomId).Ok? && Rp(data, roomId).value.Dict? && FbText(data, roomId).Ok?
    ensures var p := Rp(data, roomId).value;
      var fb := FbText(data, roomId).value;
      && Title(data, roomId) == Ok(FirstClean([Field(fb, "roomtext"), Field(p, "title"), Field(fb, "roomtitle")]))
      && Artist(data, roomId) == Ok(FirstClean([Field(p, "artist"), Field(fb, "roomartist")]))
      && Album(data, roomId) == Ok(FirstClean([Field(p, "album"), Field(fb, "roomalbum")]))
  {
    var p := Rp(data, roomId).value;
    var fb := FbText(data, roomId).value;
    FirstCleanOfThree(Field(fb, "roomtext"), Field(p, "title"), Field(fb, "roomtitle"));
    FirstCleanOfTwo(Field(p, "artist"), Field(fb, "roomartist"));
    FirstCleanOfTwo(Field(p, "album"), Field(fb, "roomalbum"));
  }

  // ---------- Artwork ----------

  /** `_cover()`: the status's cleaned `cover`. */
  function Cover(data: Value, roomId: string): Outcome<Option<string>> {
    var p :- Rp(data, roomId);
    var c :- Get(p, "cover", Null);
    Ok(Clean(c))
  }

  /** The text `_meta_hash` digests: title, artist and album (each "" when absent) joined by "|". */
  function MetaKey(title: Option<string>, artist: Option<string>, album: Option<string>): string {
    title.GetOr("") + "|" + artist.GetOr("") + "|" + album.GetOr("")
  }

  /** `_meta_hash()`: the first eight characters of the hex digest of the metadata text. The
      digest (SHA-1 of the UTF-8 bytes) is a parameter. */
  function MetaHash(data: Value, roomId: string, digest: string -> string): Outcome<string> {
    var t :- Title(data, roomId);
    var a :- Artist(data, roomId);
    var b :- Album(data, roomId);
    var h := digest(MetaKey(t, a, b));
    Ok(if |h| <= 8 then h else h[..8])
  }

  /** The cover URL with the cache parameter appended. */
  function CacheUrl(u: string, h: string): string {
    u + (if '?' in u then "&" else "?") + "cache=" + h
  }

  /** The URL is kept, followed by "&" when it already has a query and "?" when it has not, then
      "cache=" and the key; the result therefore always has a query. */
  lemma CacheUrlShape(u: string, h: string)
    ensures var r := CacheUrl(u, h);
      && |r| == |u| + 7 + |h|
      && r[..|u|] == u && r[|u| + 7..] == h
      && r[|u|] == (if '?' in u then '&' else '?')
      && r[|u| + 1..|u| + 7] == "cache="
      && '?' in r
  {
    var sep := if '?' in u then "&" else "?";
    var r := CacheUrl(u, h);
    assert r == u + (sep + "cache=" + h);
    assert r[..|u|] == u;
    assert r[|u| + 1..|u| + 7] == "cache=";
    assert r[|u| + 7..] == h;
    if '?' in u {
      var i :| 0 <= i < |u| && u[i] == '?';
      assert r[i] == '?';
    } else {
      assert r[|u|] == '?';
    }
  }

  /** `entity_picture`: None without a cover, else the cover URL with the metadata's cache key. */
  function EntityPicture(data: Value, roomId: string, digest: string -> string): Outcome<Option<string>> {
    var url :- Cover(data, roomId);
    if url.None? then Ok(None)
    else
      var h :- MetaHash(data, roomId, digest);
      Ok(Some(CacheUrl(url.value, h)))
  }

  /** There is a picture exactly when there is a cover (and the metadata can be read); it is the
      cover URL with the cache key, which has eight characters when the digest is full length. */
  lemma PictureShape(data: Value, roomId: string, digest: string -> string)
    requires Cover(data, roomId).Ok? && MetaHash(data, roomId, digest).Ok?
    ensures Cover(data, roomId).value.None? ==> EntityPicture(data, roomId, digest) == Ok(None)
    ensures Cover(data, roomId).value.Some? ==>
      EntityPicture(data, roomId, digest) == Ok(Some(CacheUrl(Cover(data, roomId).value.value, MetaHash(data, roomId, digest).value)))
    ensures (forall s :: |digest(s)| >= 8) ==> |MetaHash(data, roomId, digest).value| == 8
  {
  }

  /** Without a cover there is no picture, and the metadata is then not read at all: even a
      snapshot whose metadata cannot be read gives None. */
  lemma NoCoverNoPicture(data: Value, roomId: string, digest: string -> string)
    requires Cover(data, roomId) == Ok(None)
    ensures EntityPicture(data, roomId, digest) == Ok(None)
  {
  }

  /** The cache key depends on nothing but the displayed metadata: two snapshots that give a room
      the same cover, title, artist and album give it the same picture URL. */
  lemma PictureStable(d1: Value, d2: Value, roomId: string, digest: string -> string)
    requires Cover(d1, roomId) == Cover(d2, roomId)
    requires Title(d1, roomId) == Title(d2, roomId)
    requires Artist(d1, roomId) == Artist(d2, roomId)
    requires Album(d1, roomId) == Album(d2, roomId)
    ensures EntityPicture(d1, roomId, digest) == EntityPicture(d2, roomId, digest)
  {
  }

  /** The joined text does not keep the three fields apart: a title containing "|" collides with
      a different split of the same text, so such a change leaves the cache key unchanged. */
  lemma MetaKeyCollision()
    ensures var none: Option<string> := None;
      && (Some("a|b"), Some("c"), none) != (Some("a"), Some("b|c"), none)
      && MetaKey(Some("a|b"), Some("c"), none) == MetaKey(Some("a"), Some("b|c"), none)
  {
    var none: Option<string> := None;
    var x := MetaKey(Some("a|b"), Some("c"), none);
    var y := MetaKey(Some("a"), Some("b|c"), none);
    assert x == "a|b" + "|" + "c" + "|" + "";
    assert y == "a" + "|" + "b|c" + "|" + "";
    assert |x| == |y| == 6;
    assert forall i :: 0 <= i < 6 ==> x[i] == y[i];
  }

  // ---------- Volume ----------

  /** `max(0.0, min(1.0, x))`. */
  function Clamp01(x: real): (r: real)
    ensures 0.0 <= r <= 1.0
    ensures 0.0 <= x <= 1.0 ==> r == x
    ensures x < 0.0 ==> r == 0.0
    ensures x > 1.0 ==> r == 1.0
  {
    if x > 1.0 then 1.0 else if x < 0.0 then 0.0 else x
  }

  /** `volume_level`: the status's `current_volume` when it is not None, else the feedback volume,
      as a fraction clamped to [0, 1]; None when neither is known or `float()` fails. */
  function VolumeLevel(data: Value, roomId: string): (r: Outcome<Option<real>>)
    ensures r.Ok? && r.value.Some? ==> 0.0 <= r.value.value <= 1.0
  {
    var p :- Rp(data, roomId);
    var vol :- Get(p, "current_volume", Null);
    var v :- if vol != Null then Ok(vol) else (var fv :- FbVol(data, roomId); Ok(if fv.Some? then Int(fv.value) else Null));
    if v == Null then Ok(None)
    else match PyFloat(v)
      case Some(x) => Ok(Some(Clamp01(x / 100.0)))
      case None => Ok(None)
  }

  /** Where the volume comes from: any `current_volume` other than None wins and the feedback is
      then not read (a value `float()` rejects gives None); without it the feedback volume is used; with neither the volume is unknown (None),
      never 0. A status volume of 57 reads as 0.57. */
  lemma VolumeSources(data: Value, roomId: string)
    requires Rp(data, roomId).Ok? && Rp(data, roomId).value.Dict?
    ensures var cur := Field(Rp(data, roomId).value, "current_volume");
      && (cur.Int? ==> VolumeLevel(data, roomId) == Ok(Some(Clamp01(cur.i as real / 100.0))))
      && (cur == Int(57) ==> VolumeLevel(data, roomId) == Ok(Some(0.57)))
      && (cur != Null ==>
            VolumeLevel(data, roomId) == Ok(if PyFloat(cur).Some? then Some(Clamp01(PyFloat(cur).value / 100.0)) else None))
      && (cur == Null && FbVol(data, roomId).Ok? && FbVol(data, roomId).value.Some? ==>
            VolumeLevel(data, roomId) == Ok(Some(Clamp01(FbVol(data, roomId).value.value as real / 100.0))))
      && (cur == Null && FbVol(data, roomId) == Ok(None) ==> VolumeLevel(data, roomId) == Ok(None))
      && (cur == Null && FbVol(data, roomId).Err? ==> VolumeLevel(data, roomId).Err?)
  {
  }

  /** Python's `round(x)`: the nearest integer, ties to the even one. */
  function RoundHalfEven(x: real): (r: int)
    ensures r as real - 0.5 <= x <= r as real + 0.5
    ensures (x == r as real - 0.5 || x == r as real + 0.5) ==> r % 2 == 0
  {
    var f := x.Floor;
    var d := x - f as real;
    if d < 0.5 then f
    else if d > 0.5 then f + 1
    else if f % 2 == 0 then f
    else f + 1
  }

  /** The volume `async_set_volume_level` sends: `max(0, min(100, int(round(volume * 100))))`,
      always an integer percentage in [0, 100]. */
  function VolumePercent(volume: real): (r: int)
    ensures 0 <= r <= 100
    ensures 0 <= RoundHalfEven(volume * 100.0) <= 100 ==> r == RoundHalfEven(volume * 100.0)
    ensures RoundHalfEven(volume * 100.0) < 0 ==> r == 0
    ensures RoundHalfEven(volume * 100.0) > 100 ==> r == 100
  {
    var n := RoundHalfEven(volume * 100.0);
    if n > 100 then 100 else if n < 0 then 0 else n
  }

  // ---------- Commands ----------

  /** The entity's commands. */
  datatype Command =
    | MediaPlay
    | MediaStop
    | MediaNextTrack
    | MediaPreviousTrack
    | VolumeUp
    | VolumeDown
    | SetVolumeLevel(volume: real)
    | PlayFavoriteCommand(favId: string)

  /** Each command's API control. */
  function CommandControl(c: Command): Control {
    match c
    case MediaPlay => RoomPlay
    case MediaStop => RoomStop
    case MediaNextTrack => RoomNext
    case MediaPreviousTrack => RoomPrev
    case VolumeUp => RoomVolUp
    case VolumeDown => RoomVolDown
    case SetVolumeLevel(v) => RoomVolSet(VolumePercent(v))
    case PlayFavoriteCommand(f) => PlayFavorite(f)
  }

  /** The request a command of this room sends. */
  function CommandRequest(client: Client, room: Room, c: Command): Request {
    client.ControlRequest(Text(room.roomId), CommandControl(c))
  }

  /** Setting the volume sends the room and an integer percentage in [0, 100] to `room_vol_set`,
      written so that the vendor reads the same integer back. */
  lemma SetVolumeRequest(client: Client, room: Room, volume: real)
    ensures var req := CommandRequest(client, room, SetVolumeLevel(volume));
      && client.PathOf(req.url) == Some("room_vol_set")
      && |req.query| == 3
      && req.query[..2] == [("api_key", client.apiKey), ("room", room.roomId)]
      && req.query[2].0 == "vol"
      && ParseInt(req.query[2].1) == Some(VolumePercent(volume))
      && 0 <= VolumePercent(volume) <= 100
  {
    client.ControlRequestShape(Text(room.roomId), RoomVolSet(VolumePercent(volume)));
    ParseIntRoundTrip(VolumePercent(volume));
  }

  /** `async_play_media`: only a favourite is played; any other media type does nothing. */
  function PlayMedia(ctx: string, mediaType: string, mediaId: string): (r: Option<Command>)
    ensures r.Some? <==> mediaType == ctx
    ensures r.Some? ==> r.value == PlayFavoriteCommand(mediaId)
  {
    if mediaType == ctx then Some(PlayFavoriteCommand(mediaId)) else None
  }

  // ---------- Browsing the favourites ----------

  datatype MediaClass = Directory | Music | Channel

  /** One node of the browse tree. `children` is None where the source builds the node without a list. */
  datatype BrowseNode = BrowseNode(
    title: Value,
    mediaClass: MediaClass,
    contentId: Value,
    contentType: string,
    canPlay: bool,
    canExpand: bool,
    children: Option<seq<BrowseNode>>,
    thumbnail: Value)

  const MusicTypes: seq<string> := ["playlist", "spotify", "applemusic"]

  function RootNode(friendly: string, children: Option<seq<BrowseNode>>): BrowseNode {
    BrowseNode(Str(friendly), Directory, Str("library"), "library", false, true, children, Null)
  }

  function FolderNode(ctx: string, children: Option<seq<BrowseNode>>): BrowseNode {
    BrowseNode(Str("Favoriten"), Directory, Str("favorites"), ctx, false, true, children, Null)
  }

  /** One favourite's leaf: id `favId or key`, title `name or id`, thumbnail `image`, class MUSIC
      exactly for the playlist, Spotify and Apple Music types; playable and not expandable. */
  function Leaf(k: string, v: Value, ctx: string): (r: Outcome<BrowseNode>)
    ensures r.Ok? <==> v.Dict? && Or(Field(v, "type"), Str("")).Str?
    ensures r.Ok? ==> r.value.canPlay && !r.value.canExpand && r.value.children.None? && r.value.contentType == ctx
    ensures r.Ok? ==> r.value.contentId == (if Truthy(Field(v, "favId")) then Field(v, "favId") else Str(k))
    ensures r.Ok? ==> r.value.title == (if Truthy(Field(v, "name")) then Field(v, "name") else r.value.contentId)
    ensures r.Ok? ==> r.value.thumbnail == Field(v, "image")
    ensures r.Ok? ==> (r.value.mediaClass == Music <==> Lower(Or(Field(v, "type"), Str("")).s) in MusicTypes)
    ensures r.Ok? ==> r.value.mediaClass != Directory
  {
    if !v.Dict? then Err(AttributeError)
    else
      var id := Or(Field(v, "favId"), Str(k));
      var t := Or(Field(v, "type"), Str(""));
      if !t.Str? then Err(AttributeError)
      else
        var cls := if Lower(t.s) in MusicTypes then Music else Channel;
        Ok(BrowseNode(Or(Field(v, "name"), id), cls, id, ctx, true, false, None, Field(v, "image")))
  }

  /** The sort key `(x.title or "").lower()`, defined where it does not raise. */
  predicate HasSortKey(n: BrowseNode) {
    Or(n.title, Str("")).Str?
  }

  function SortKey(n: BrowseNode): string {
    var t := Or(n.title, Str(""));
    if t.Str? then Lower(t.s) else ""
  }

  function Keyed(nodes: seq<BrowseNode>): seq<(string, BrowseNode)> {
    seq(|nodes|, i requires 0 <= i < |nodes| => (SortKey(nodes[i]), nodes[i]))
  }

  function Nodes(s: seq<(string, BrowseNode)>): seq<BrowseNode> {
    seq(|s|, i requires 0 <= i < |s| => s[i].1)
  }

  /** `favs`: the snapshot's `favorites or {}`, or `{}` when there is no snapshot. */
  function FavoritesOf(data: Value): Outcome<Value> {
    if !Truthy(data) then Ok(EmptyDict)
    else
      var f :- Get(data, "favorites", Null);
      Ok(Or(f, EmptyDict))
  }

  /** The leaves of the favourites in their order, or the error the first bad one raises. */
  function Leaves(items: seq<(string, Value)>, ctx: string): Outcome<seq<BrowseNode>> {
    if |items| == 0 then Ok([])
    else
      var first :- Leaf(items[0].0, items[0].1, ctx);
      var rest :- Leaves(items[1..], ctx);
      Ok([first] + rest)
  }

  /** The favourites folder with its leaves sorted by title, ignoring case. */
  function FavoritesList(data: Value, ctx: string): Outcome<BrowseNode> {
    var favs :- FavoritesOf(data);
    if !favs.Dict? then Err(AttributeError)
    else
      var leaves :- Leaves(Items(favs.entries), ctx);
      if forall i :: 0 <= i < |leaves| ==> HasSortKey(leaves[i]) then
        Ok(FolderNode(ctx, Some(Nodes(SortByKey(Keyed(leaves))))))
      else Err(AttributeError)
  }

  /** `async_browse_media`: the root (no content type), the favourites (the favourite type), or
      the root without children (anything else). */
  function Browse(data: Value, friendly: string, ctx: string, mediaType: Option<string>): Outcome<BrowseNode> {
    if mediaType.None? then Ok(RootNode(friendly, Some([FolderNode(ctx, None)])))
    else if mediaType.value == ctx then FavoritesList(data, ctx)
    else Ok(RootNode(friendly, None))
  }

  /** Browsing the room's root reads nothing from the snapshot and offers exactly one child, the
      expandable favourites folder of the favourite content type. */
  lemma BrowseRoot(data: Value, friendly: string, ctx: string)
    ensures Browse(data, friendly, ctx, None).Ok?
    ensures var n := Browse(data, friendly, ctx, None).value;
      && n.title == Str(friendly) && n.mediaClass == Directory && !n.canPlay && n.canExpand
      && n.children.Some? && |n.children.value| == 1
      && var f := n.children.value[0];
         f.title == Str("Favoriten") && f.contentType == ctx && f.mediaClass == Directory && f.canExpand && !f.canPlay
    ensures forall d :: Browse(d, friendly, ctx, None) == Browse(data, friendly, ctx, None)
  {
  }

  /** Any other content type gives the bare root, again without reading the snapshot. */
  lemma BrowseFallback(data: Value, friendly: string, ctx: string, t: string)
    requires t != ctx
    ensures Browse(data, friendly, ctx, Some(t)).Ok?
    ensures var n := Browse(data, friendly, ctx, Some(t)).value;
      n.title == Str(friendly) && n.contentType == "library" && n.mediaClass == Directory && n.children.None?
    ensures forall d :: Browse(d, friendly, ctx, Some(t)) == Browse(data, friendly, ctx, Some(t))
  {
  }

  /** The leaves are produced exactly when every favourite yields one, one per favourite and in
      the favourites' order. */
  lemma {:induction false} LeavesSpec(items: seq<(string, Value)>, ctx: string)
    ensures Leaves(items, ctx).Ok? <==> forall i :: 0 <= i < |items| ==> Leaf(items[i].0, items[i].1, ctx).Ok?
    ensures Leaves(items, ctx).Ok? ==> |Leaves(items, ctx).value| == |items|
    ensures Leaves(items, ctx).Ok? ==>
      forall i :: 0 <= i < |items| ==> Leaf(items[i].0, items[i].1, ctx) == Ok(Leaves(items, ctx).value[i])
    ensures Leaves(items, ctx).Ok? ==> forall n :: n in Leaves(items, ctx).value ==>
      n.canPlay && !n.canExpand && n.contentType == ctx && n.children.None?
    decreases |items|
  {
    if |items| > 0 {
      LeavesSpec(items[1..], ctx);
      assert forall i :: 1 <= i < |items| ==> items[1..][i - 1] == items[i];
    }
  }

  /** Sorting the keyed leaves keeps each node paired with its own key and invents no node. */
  lemma SortKeepsKeys(nodes: seq<BrowseNode>)
    ensures var s := SortByKey(Keyed(nodes));
      && |s| == |nodes|
      && (forall i :: 0 <= i < |s| ==> s[i].0 == SortKey(s[i].1) && s[i].1 in nodes)
      && (forall i :: 0 <= i < |nodes| ==> Keyed(nodes)[i] in s)
      && Keyed(Nodes(s)) == s
  {
    var k := Keyed(nodes);
    SortByKeySpec(k);
    var s := SortByKey(k);
    assert |s| == |multiset(s)| == |multiset(k)| == |k|;
    forall i | 0 <= i < |s| ensures s[i].0 == SortKey(s[i].1) && s[i].1 in nodes {
      assert s[i] in multiset(k);
      var j :| 0 <= j < |k| && k[j] == s[i];
      assert s[i].1 == nodes[j];
    }
    forall i | 0 <= i < |nodes| ensures k[i] in s {
      assert k[i] in multiset(s);
    }
  }

  /** The sorted children: the same nodes, each exactly as often as it was collected, in
      non-decreasing key order, nodes of equal key in their collected order. */
  lemma SortedChildren(leaves: seq<BrowseNode>)
    ensures var cs := Nodes(SortByKey(Keyed(leaves)));
      && |cs| == |leaves|
      && (forall i :: 0 <= i < |leaves| ==> exists j :: 0 <= j < |cs| && cs[j] == leaves[i])
      && (forall j :: 0 <= j < |cs| ==> cs[j] in leaves)
      && (forall i, j :: 0 <= i < j < |cs| ==> StrLe(SortKey(cs[i]), SortKey(cs[j])))
      && multiset(Keyed(cs)) == multiset(Keyed(leaves))
      && (forall k :: WithKey(Keyed(cs), k) == WithKey(Keyed(leaves), k))
  {
    var s := SortByKey(Keyed(leaves));
    SortByKeySpec(Keyed(leaves));
    SortKeepsKeys(leaves);
    var cs := Nodes(s);
    forall i | 0 <= i < |leaves| ensures exists j :: 0 <= j < |cs| && cs[j] == leaves[i] {
      assert Keyed(leaves)[i] in s;
      var j :| 0 <= j < |s| && s[j] == Keyed(leaves)[i];
      assert cs[j] == leaves[i];
    }
    forall j | 0 <= j < |cs| ensures cs[j] in leaves {
      assert cs[j] == s[j].1;
    }
    forall i, j | 0 <= i < j < |cs| ensures StrLe(SortKey(cs[i]), SortKey(cs[j])) {
      assert StrLe(s[i].0, s[j].0);
    }
  }

  /** Browsing the favourites succeeds only on an object of favourites, and gives the favourites
      folder holding the sorted children of its items. */
  lemma BrowseFavorites(data: Value, friendly: string, ctx: string)
    requires Browse(data, friendly, ctx, Some(ctx)).Ok?
    ensures FavoritesOf(data).Ok? && FavoritesOf(data).value.Dict?
    ensures var items := Items(FavoritesOf(data).value.entries);
      && Leaves(items, ctx).Ok?
      && Browse(data, friendly, ctx, Some(ctx)).value ==
         FolderNode(ctx, Some(Nodes(SortByKey(Keyed(Leaves(items, ctx).value)))))
  {
  }

  /** A favourite the listing can show: an object whose `type or ""` is a string and whose title
      `name or favId or key`, then `or ""`, is a string. */
  predicate ListableFavorite(k: string, v: Value) {
    && v.Dict?
    && Or(Field(v, "type"), Str("")).Str?
    && Or(Or(Field(v, "name"), Or(Field(v, "favId"), Str(k))), Str("")).Str?
  }

  /** Conversely, an object of favourites each of which can be shown is always listed, with one
      child per favourite. */
  lemma BrowseFavoritesListed(data: Value, friendly: string, ctx: string)
    requires FavoritesOf(data).Ok? && FavoritesOf(data).value.Dict?
    requires var items := Items(FavoritesOf(data).value.entries);
      forall i :: 0 <= i < |items| ==> ListableFavorite(items[i].0, items[i].1)
    ensures Browse(data, friendly, ctx, Some(ctx)).Ok?
    ensures var n := Browse(data, friendly, ctx, Some(ctx)).value;
      n.children.Some? && |n.children.value| == |Items(FavoritesOf(data).value.entries)|
  {
    var items := Items(FavoritesOf(data).value.entries);
    LeavesSpec(items, ctx);
    var leaves := Leaves(items, ctx).value;
    forall j | 0 <= j < |leaves| ensures HasSortKey(leaves[j]) {
      assert Leaf(items[j].0, items[j].1, ctx) == Ok(leaves[j]);
    }
    SortedChildren(leaves);
  }

  /** The leaves collected so far in front of those still to come. */
  function Prepend(done: seq<BrowseNode>, rest: Outcome<seq<BrowseNode>>): Outcome<seq<BrowseNode>> {
    if rest.Ok? then Ok(done + rest.value) else rest
  }

  /** The loop of `async_browse_media`: one leaf appended per favourite, in the favourites' order. */
  method CollectLeaves(items: seq<(string, Value)>, ctx: string) returns (r: Outcome<seq<BrowseNode>>)
    ensures r == Leaves(items, ctx)
  {
    var children: seq<BrowseNode> := [];
    assert items[0..] == items;
    assert Leaves(items, ctx).Ok? ==> [] + Leaves(items, ctx).value == Leaves(items, ctx).value;
    for i := 0 to |items|
      invariant Leaves(items, ctx) == Prepend(children, Leaves(items[i..], ctx))
    {
      var child := Leaf(items[i].0, items[i].1, ctx);
      assert items[i..][1..] == items[i + 1..];
      if child.Err? {
        return Err(child.error);
      }
      var rest := Leaves(items[i + 1..], ctx);
      if rest.Ok? {
        assert (children + [child.value]) + rest.value == children + ([child.value] + rest.value);
      }
      children := children + [child.value];
    }
    assert items[|items|..] == [];
    assert children + [] == children;
    return Ok(children);
  }

  /** `async_browse_media` as written: the leaves collected, then sorted by their key. */
  method BrowseMedia(data: Value, friendly: string, ctx: string, mediaType: Option<string>) returns (r: Outcome<BrowseNode>)
    ensures r == Browse(data, friendly, ctx, mediaType)
  {
    if mediaType.None? {
      var root := RootNode(friendly, Some([]));
      root := root.(children := Some(root.children.value + [FolderNode(ctx, None)]));
      assert [] + [FolderNode(ctx, None)] == [FolderNode(ctx, None)];
      return Ok(root);
    }
    if mediaType.value == ctx {
      var f := FavoritesOf(data);
      if f.Err? {
        return Err(f.error);
      }
      var favs := f.value;
      if !favs.Dict? {
        return Err(AttributeError);
      }
      var leaves := CollectLeaves(Items(favs.entries), ctx);
      if leaves.Err? {
        return Err(leaves.error);
      }
      var children := leaves.value;
      if exists i :: 0 <= i < |children| && !HasSortKey(children[i]) {
        return Err(AttributeError);
      }
      var sorted := SortByKey(Keyed(children));
      return Ok(FolderNode(ctx, Some(Nodes(sorted))));
    }
    return Ok(RootNode(friendly, None));
  }
}
