/** Click records as stored in the hub's history (server.py, `click_history`).

    A record is the dictionary `{client_id, data, source}`. The payload `data` is
    whatever JSON the client sent; the hub never looks inside it, so it is a type
    parameter here. */
module Clicks {

  /** The `client_id` field: a connection's identity for WebSocket clicks, or
      the fixed label "http_poster" for clicks posted over HTTP. */
  datatype ClientId = Socket(conn: nat) | Label(name: string)

  /** The `source` field, an enumeration serialised as "websocket" or "http". */
  datatype Source = WebSocket | Http {
    function Tag(): (s: string)
      ensures s in {"websocket", "http"}
      ensures (s == "websocket") <==> WebSocket?
    {
      match this
      case WebSocket => "websocket"
      case Http => "http"
    }
  }

  /** The label every HTTP-posted click carries as its `client_id`. */
  const HttpPoster: ClientId := Label("http_poster")

  datatype Click<D> = Click(clientId: ClientId, data: D, source: Source)

  /** The record built for a click that arrived on connection `conn`. */
  function WsClick<D>(conn: nat, data: D): (r: Click<D>)
    ensures r.clientId == Socket(conn) && r.clientId.conn == conn
    ensures r.source.Tag() == "websocket"
    ensures r.data == data
  {
    Click(Socket(conn), data, WebSocket)
  }

  /** The record built for a click posted over HTTP. */
  function HttpClick<D>(data: D): (r: Click<D>)
    ensures r.clientId.Label? && r.clientId.name == "http_poster"
    ensures r.source.Tag() == "http"
    ensures r.data == data
  {
    Click(HttpPoster, data, Http)
  }

  /** The only two shapes the hub ever stores: a WebSocket click names its
      connection, an HTTP click names the poster label. */
  predicate WellFormed<D>(c: Click<D>) {
    match c.source
    case WebSocket => c.clientId.Socket?
    case Http => c.clientId == HttpPoster
  }

  /** Every record either endpoint builds is well formed, and the two paths
      can be told apart by their `source` tag alone. */
  lemma BuiltClicksWellFormed<D>(conn: nat, data: D)
    ensures WellFormed(WsClick(conn, data)) && WellFormed(HttpClick(data))
    ensures WsClick(conn, data) != HttpClick(data)
  {
  }
}
