/** The vendor API client: how each operation's GET request is built, and which responses
    count as a success. The HTTP exchange itself is a parameter (`Fetch`). */
module Api {
  import opened Wrappers
  import opened Json

  /** A query value as the client is handed it: room and favourite ids are strings, volumes integers. */
  datatype Param = Text(s: string) | Number(n: int)

  /** The text a parameter value is sent as. */
  function ParamText(p: Param): string {
    match p
    case Text(s) => s
    case Number(n) => IntToString(n)
  }

  /** One GET request: its URL and its query parameters in the order they are sent. */
  datatype Request = Request(url: string, query: seq<(string, string)>)

  /** Sending a request and decoding its body: the JSON document, or a transport error
      (connection failure, HTTP error status, unreadable body). */
  type Fetch = Request -> Outcome<Value>

  /** The keyword arguments of `_get` whose value is not None, in order. */
  function Present(kwargs: seq<(string, Option<Param>)>): seq<(string, Param)> {
    if |kwargs| == 0 then []
    else
      (if kwargs[0].1.Some? then [(kwargs[0].0, kwargs[0].1.value)] else []) + Present(kwargs[1..])
  }

  /** A name survives the None filter exactly when some argument of that name has a value. */
  lemma {:induction false} PresentHasKey(kwargs: seq<(string, Option<Param>)>, k: string)
    ensures HasKey(Present(kwargs), k) <==> exists j :: 0 <= j < |kwargs| && kwargs[j].0 == k && kwargs[j].1.Some?
  {
    if |kwargs| > 0 {
      var head := if kwargs[0].1.Some? then [(kwargs[0].0, kwargs[0].1.value)] else [];
      var rest := kwargs[1..];
      PresentHasKey(rest, k);
      assert Present(kwargs) == head + Present(rest);
      if HasKey(Present(kwargs), k) {
        var i :| 0 <= i < |Present(kwargs)| && Present(kwargs)[i].0 == k;
        if i >= |head| {
          assert Present(rest)[i - |head|].0 == k;
          var j :| 0 <= j < |rest| && rest[j].0 == k && rest[j].1.Some?;
          assert kwargs[j + 1] == rest[j];
        } else {
          assert kwargs[0].0 == k && kwargs[0].1.Some?;
        }
      }
      if exists j :: 0 <= j < |kwargs| && kwargs[j].0 == k && kwargs[j].1.Some? {
        var j :| 0 <= j < |kwargs| && kwargs[j].0 == k && kwargs[j].1.Some?;
        if j == 0 {
          assert Present(kwargs)[0].0 == k;
        } else {
          assert rest[j - 1] == kwargs[j];
          var i :| 0 <= i < |Present(rest)| && Present(rest)[i].0 == k;
          assert Present(kwargs)[i + |head|] == Present(rest)[i];
        }
      }
    }
  }

  /** The keyword arguments with values, rendered as they are sent. */
  function SentArgs(kwargs: seq<(string, Option<Param>)>): seq<(string, string)> {
    var p := Present(kwargs);
    seq(|p|, i requires 0 <= i < |p| => (p[i].0, ParamText(p[i].1)))
  }

  /** The names of a query, in order. */
  function Names(q: seq<(string, string)>): seq<string> {
    seq(|q|, i requires 0 <= i < |q| => q[i].0)
  }

  /** The first member inserted into a dict is its first key. */
  lemma {:induction false} KeysHead<V>(e: seq<(string, V)>)
    requires |e| > 0
    ensures |Keys(e)| > 0 && Keys(e)[0] == e[0].0
  {
    if |e| > 1 {
      var p := e[..|e| - 1];
      KeysHead(p);
      assert p[0] == e[0];
    }
  }

  /** The parameters of a control whose room is the only argument, and the extra one of the others. */
  datatype Control =
    | RoomPlay
    | RoomStop
    | RoomNext
    | RoomPrev
    | RoomVolSet(vol: int)
    | RoomVolUp
    | RoomVolDown
    | PlayFavorite(favId: string)

  /** The endpoint each control is sent to. */
  function Endpoint(c: Control): string {
    match c
    case RoomPlay => "room_play"
    case RoomStop => "room_stop"
    case RoomNext => "room_next"
    case RoomPrev => "room_prev"
    case RoomVolSet(_) => "room_vol_set"
    case RoomVolUp => "room_vol_up"
    case RoomVolDown => "room_vol_down"
    case PlayFavorite(_) => "playfavorite"
  }

  /** The keyword arguments each control passes to `_get`. */
  function ControlArgs(room: Param, c: Control): seq<(string, Option<Param>)> {
    [("room", Some(room))] +
    match c
    case RoomVolSet(v) => [("vol", Some(Number(v)))]
    case PlayFavorite(f) => [("favId", Some(Text(f)))]
    case _ => []
  }

  /** The query pairs a control sends besides the API key and the room. */
  function ControlExtra(c: Control): seq<(string, string)> {
    match c
    case RoomVolSet(v) => [("vol", IntToString(v))]
    case PlayFavorite(f) => [("favId", f)]
    case _ => []
  }

  /** The API client: the device's host name and the static API key. */
  datatype Client = Client(host: string, apiKey: string) {

    function Base(): string {
      "http://" + host + "/api/v1/"
    }

    /** `_url`: the endpoint's address under the fixed API base. */
    function Url(path: string): string {
      Base() + path
    }

    /** The endpoint an address of this client names, if it names one. */
    function PathOf(url: string): Option<string> {
      if |Base()| <= |url| && url[..|Base()|] == Base() then Some(url[|Base()|..]) else None
    }

    /** Every request address is `http://<host>/api/v1/<path>`, and the path can be read back. */
    lemma UrlRoundTrip(path: string)
      ensures Url(path)[..7] == "http://"
      ensures Url(path)[7..7 + |host|] == host
      ensures Url(path)[7 + |host|..|Base()|] == "/api/v1/"
      ensures PathOf(Url(path)) == Some(path)
    {
      assert Url(path)[..|Base()|] == Base();
      assert Url(path)[|Base()|..] == path;
    }

    /** `_get`'s parameters: `{"api_key": key, **{k: v for k, v in params.items() if v is not None}}`,
        each value rendered as text. */
    function Query(kwargs: seq<(string, Option<Param>)>): seq<(string, string)> {
      var items := Items([("api_key", Text(apiKey))] + Present(kwargs));
      seq(|items|, i requires 0 <= i < |items| => (items[i].0, ParamText(items[i].1)))
    }

    /** The API key is always the first parameter sent. */
    lemma QueryStartsWithKey(kwargs: seq<(string, Option<Param>)>)
      ensures |Query(kwargs)| > 0 && Query(kwargs)[0].0 == "api_key"
    {
      KeysHead([("api_key", Text(apiKey))] + Present(kwargs));
    }

    /** A name is sent exactly when it is the API key or some argument of that name has a value:
        None-valued arguments are dropped. */
    lemma QueryNames(kwargs: seq<(string, Option<Param>)>, k: string)
      ensures k in Names(Query(kwargs)) <==>
        k == "api_key" || exists j :: 0 <= j < |kwargs| && kwargs[j].0 == k && kwargs[j].1.Some?
    {
      var merged := [("api_key", Text(apiKey))] + Present(kwargs);
      assert Names(Query(kwargs)) == Keys(merged);
      PresentHasKey(kwargs, k);
      if HasKey(Present(kwargs), k) {
        var i :| 0 <= i < |Present(kwargs)| && Present(kwargs)[i].0 == k;
        assert merged[i + 1] == Present(kwargs)[i];
      }
      if HasKey(merged, k) && k != "api_key" {
        var i :| 0 <= i < |merged| && merged[i].0 == k;
        assert Present(kwargs)[i - 1] == merged[i];
      }
      assert merged[0].0 == "api_key";
    }

    /** With keyword arguments of distinct names none of which is `api_key` (every caller's case),
        the query is the key followed by the valued arguments in their order. */
    lemma QueryOfDistinct(kwargs: seq<(string, Option<Param>)>)
      requires DistinctKeys(kwargs)
      requires forall j :: 0 <= j < |kwargs| ==> kwargs[j].0 != "api_key"
      ensures Query(kwargs) == [("api_key", apiKey)] + SentArgs(kwargs)
    {
      var merged := [("api_key", Text(apiKey))] + Present(kwargs);
      PresentDistinct(kwargs);
      PresentHasKey(kwargs, "api_key");
      assert DistinctKeys(merged) by {
        forall i, j | 0 <= i < j < |merged| ensures merged[i].0 != merged[j].0 {
          if i == 0 {
            assert merged[j] == Present(kwargs)[j - 1];
          } else {
            assert merged[i] == Present(kwargs)[i - 1] && merged[j] == Present(kwargs)[j - 1];
          }
        }
      }
      ItemsOfDistinct(merged);
    }

    /** `_get(path, **kwargs)`: the request it sends. */
    function GetRequest(path: string, kwargs: seq<(string, Option<Param>)>): Request {
      Request(Url(path), Query(kwargs))
    }

    /** `get_room_feedback`'s parameters: the API key, then one `room[]` pair per room id in order. */
    function FeedbackParams(roomIds: seq<Param>): seq<(string, string)> {
      [("api_key", apiKey)] + seq(|roomIds|, i requires 0 <= i < |roomIds| => ("room[]", ParamText(roomIds[i])))
    }

    function FeedbackRequest(roomIds: seq<Param>): Request {
      Request(Url("get_room_feedback"), FeedbackParams(roomIds))
    }

    /** The request of each control: its endpoint, the API key, the room and the control's own argument. */
    function ControlRequest(room: Param, c: Control): Request {
      GetRequest(Endpoint(c), ControlArgs(room, c))
    }

    /** Each control goes to its own endpoint and sends the API key, the room and, for
        `room_vol_set` and `playfavorite`, the volume or the favourite id. */
    lemma ControlRequestShape(room: Param, c: Control)
      ensures PathOf(ControlRequest(room, c).url) == Some(Endpoint(c))
      ensures ControlRequest(room, c).query == [("api_key", apiKey), ("room", ParamText(room))] + ControlExtra(c)
    {
      UrlRoundTrip(Endpoint(c));
      var kw := ControlArgs(room, c);
      QueryOfDistinct(kw);
      var rest := kw[1..];
      assert Present(kw) == [("room", room)] + Present(rest);
      if |rest| == 1 {
        assert Present(rest) == [(rest[0].0, rest[0].1.value)] + Present(rest[1..]);
        assert rest[1..] == [];
      } else {
        assert rest == [];
      }
    }

    /** `_get`: the response is returned only when the request went through and the body is an
        object whose `status` is the string "succeeded"; an object with any other status raises
        an error naming the endpoint, and a body that is not an object fails on `.get`. */
    function Accept(path: string, body: Outcome<Value>): (r: Outcome<Value>)
      ensures r.Ok? <==> body.Ok? && body.value.Dict? && Lookup(body.value.entries, "status") == Some(Str("succeeded"))
      ensures r.Ok? ==> r.value == body.value
      ensures body.Ok? && body.value.Dict? && r.Err? ==> r.error == ApiFailed(path, body.value)
      ensures body.Ok? && !body.value.Dict? ==> r == Err(AttributeError)
      ensures body.Err? ==> r == body
    {
      match body
      case Err(e) => Err(e)
      case Ok(data) =>
        if !data.Dict? then Err(AttributeError)
        else if Lookup(data.entries, "status") == Some(Str("succeeded")) then Ok(data)
        else Err(ApiFailed(path, data))
    }

    /** `_get(path, **kwargs)` sent through `fetch`. */
    function Call(fetch: Fetch, path: string, kwargs: seq<(string, Option<Param>)>): Outcome<Value> {
      Accept(path, fetch(GetRequest(path, kwargs)))
    }

    function ListRooms(fetch: Fetch): Outcome<Value> {
      Call(fetch, "listrooms", [])
    }

    function RoomPlayerStatus(fetch: Fetch, room: Param): Outcome<Value> {
      Call(fetch, "room_player_status", [("room", Some(room))])
    }

    function ListFavorites(fetch: Fetch): Outcome<Value> {
      Call(fetch, "listFavorites", [])
    }

    /** `get_room_feedback` sent through `fetch`; it applies the same envelope check. */
    function GetRoomFeedback(fetch: Fetch, roomIds: seq<Param>): Outcome<Value> {
      Accept("get_room_feedback", fetch(FeedbackRequest(roomIds)))
    }

    /** A control is confirmed exactly when the vendor answered with an object whose status is
        "succeeded"; the response body is discarded. A refusal names the control's endpoint and the
        answer, a non-object answer raises, and a transport failure passes through. */
    function SendControl(fetch: Fetch, room: Param, c: Control): (r: Outcome<()>)
      ensures var resp := fetch(ControlRequest(room, c));
        r.Ok? <==> resp.Ok? && resp.value.Dict? && Lookup(resp.value.entries, "status") == Some(Str("succeeded"))
      ensures var resp := fetch(ControlRequest(room, c));
        resp.Err? ==> r == Err(resp.error)
      ensures var resp := fetch(ControlRequest(room, c));
        resp.Ok? && resp.value.Dict? && r.Err? ==> r.error == ApiFailed(Endpoint(c), resp.value)
      ensures var resp := fetch(ControlRequest(room, c));
        resp.Ok? && !resp.value.Dict? ==> r == Err(AttributeError)
    {
      var _ :- Accept(Endpoint(c), fetch(ControlRequest(room, c)));
      Ok(())
    }

    /** The loop of `get_room_feedback` that builds its parameter list. */
    method FeedbackQuery(roomIds: seq<Param>) returns (params: seq<(string, string)>)
      ensures |params| == |roomIds| + 1 && params[0] == ("api_key", apiKey)
      ensures forall i :: 0 <= i < |roomIds| ==> params[i + 1] == ("room[]", ParamText(roomIds[i]))
      ensures params == FeedbackParams(roomIds)
    {
      params := [("api_key", apiKey)];
      for n := 0 to |roomIds|
        invariant |params| == n + 1 && params[0] == ("api_key", apiKey)
        invariant forall i :: 0 <= i < n ==> params[i + 1] == ("room[]", ParamText(roomIds[i]))
      {
        params := params + [("room[]", ParamText(roomIds[n]))];
      }
    }
  }

  /** Dropping None-valued arguments keeps distinct names distinct. */
  lemma {:induction false} PresentDistinct(kwargs: seq<(string, Option<Param>)>)
    requires DistinctKeys(kwargs)
    ensures DistinctKeys(Present(kwargs))
  {
    if |kwargs| > 0 {
      var rest := kwargs[1..];
      assert DistinctKeys(rest) by {
        forall i, j | 0 <= i < j < |rest| ensures rest[i].0 != rest[j].0 {
          assert rest[i] == kwargs[i + 1] && rest[j] == kwargs[j + 1];
        }
      }
      PresentDistinct(rest);
      if kwargs[0].1.Some? {
        PresentHasKey(rest, kwargs[0].0);
        forall j | 0 <= j < |rest| ensures rest[j].0 != kwargs[0].0 {
          assert rest[j] == kwargs[j + 1];
        }
        var p := Present(kwargs);
        assert p == [(kwargs[0].0, kwargs[0].1.value)] + Present(rest);
        forall i, j | 0 <= i < j < |p| ensures p[i].0 != p[j].0 {
          if i == 0 {
            assert p[j] == Present(rest)[j - 1];
          } else {
            assert p[i] == Present(rest)[i - 1] && p[j] == Present(rest)[j - 1];
          }
        }
      }
    }
  }
}
