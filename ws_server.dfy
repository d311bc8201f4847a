/**
 * The subscription registry of the news WebSocket server
 * (web_scrapper/websocket/ws_server.py).
 *
 * The server keeps three module-level tables: `client_portfolios`, which
 * maps each ticker to the set of client ids subscribed to it;
 * `ticker_symbol_set`, the queue of tickers the scraper works through;
 * and `clients_address`, the connected clients by id.  Clients add and
 * remove tickers by message, and a closing connection is removed from
 * every ticker.  A ticker's set is never left empty: its last subscriber
 * leaving takes the ticker out of both the table and the queue.
 */
module Subscriptions {
  import opened Py

  /** `client_portfolios`: ticker to subscribed client ids. */
  type Portfolios = map<string, set<string>>

  /** The clients subscribed to a ticker; none when it has no entry. */
  function Subscribers(p: Portfolios, t: string): set<string> {
    if t in p then p[t] else {}
  }

  /** The registry's invariant: the scrape queue is exactly the table's
      tickers, every ticker is upper case, and no set is empty. */
  predicate Consistent(p: Portfolios, queue: set<string>) {
    && p.Keys == queue
    && forall t :: t in p ==> p[t] != {} && Upper(t) == t
  }

  // ---------------------------------------------------------------------
  // The table operations
  // ---------------------------------------------------------------------

  /** `add_ticker_subscriber` on the table, for an upper-cased ticker: join
      the existing set, or start a new one. */
  function Subscribe(p: Portfolios, t: string, c: string): (r: Portfolios)
    ensures r.Keys == p.Keys + {t}
  {
    if t in p then p[t := p[t] + {c}] else p[t := {c}]
  }

  /** `remove_ticker_subscriber` on the table, for a ticker it holds: drop
      the client, and the ticker with it once no subscriber is left. */
  function Unsubscribe(p: Portfolios, t: string, c: string): (r: Portfolios)
    requires t in p
    ensures r.Keys == if p[t] - {c} == {} then p.Keys - {t} else p.Keys
  {
    if p[t] - {c} == {} then p - {t} else p[t := p[t] - {c}]
  }

  /** The table after `on_close` has worked through the tickers in `done`:
      the client is gone from their sets, and those left empty are gone. */
  function Disconnected(p: Portfolios, c: string, done: set<string>): Portfolios {
    map t | t in p && (t !in done || p[t] - {c} != {}) :: if t in done then p[t] - {c} else p[t]
  }

  /** Subscribing adds exactly that client to exactly that ticker. */
  lemma SubscribeSubscribers(p: Portfolios, t: string, c: string, u: string)
    ensures Subscribers(Subscribe(p, t, c), u) == Subscribers(p, u) + (if u == t then {c} else {})
  {
  }

  /** Unsubscribing takes exactly that client from exactly that ticker. */
  lemma UnsubscribeSubscribers(p: Portfolios, t: string, c: string, u: string)
    requires t in p
    ensures Subscribers(Unsubscribe(p, t, c), u) == Subscribers(p, u) - (if u == t then {c} else {})
  {
  }

  /** After `on_close` the client follows no ticker, and every other
      client's subscriptions are as they were. */
  lemma DisconnectedSubscribers(p: Portfolios, c: string, u: string)
    ensures Subscribers(Disconnected(p, c, p.Keys), u) == Subscribers(p, u) - {c}
  {
    if u in p && p[u] - {c} == {} {
      assert u !in Disconnected(p, c, p.Keys);
    }
  }

  /** Subscribing to an upper-case ticker keeps the invariant, with the
      ticker added to the queue. */
  lemma SubscribeConsistent(p: Portfolios, queue: set<string>, t: string, c: string)
    requires Consistent(p, queue) && Upper(t) == t
    ensures Consistent(Subscribe(p, t, c), queue + {t})
  {
  }

  /** Unsubscribing keeps the invariant, with the ticker leaving the queue
      when it leaves the table. */
  lemma UnsubscribeConsistent(p: Portfolios, queue: set<string>, t: string, c: string)
    requires Consistent(p, queue) && t in p
    ensures Consistent(Unsubscribe(p, t, c), if p[t] - {c} == {} then queue - {t} else queue)
  {
  }

  /** A client that was not subscribed and leaves again restores the table. */
  lemma UnsubscribeUndoesSubscribe(p: Portfolios, queue: set<string>, t: string, c: string)
    requires Consistent(p, queue) && c !in Subscribers(p, t)
    ensures Unsubscribe(Subscribe(p, t, c), t, c) == p
  {
    var q := Subscribe(p, t, c);
    if t in p {
      assert q[t] - {c} == p[t];
    } else {
      assert q - {t} == p;
    }
  }

  /** Subscribing twice is subscribing once. */
  lemma SubscribeIdempotent(p: Portfolios, t: string, c: string)
    ensures Subscribe(Subscribe(p, t, c), t, c) == Subscribe(p, t, c)
  {
    var q := Subscribe(p, t, c);
    assert q[t] + {c} == q[t];
  }

  /** One more ticker of `on_close`'s loop, with `pending` the tickers
      still to visit. */
  lemma DisconnectStep(p: Portfolios, c: string, pending: set<string>, t: string)
    requires t in pending && pending <= p.Keys
    ensures t in Disconnected(p, c, p.Keys - pending)
    ensures Unsubscribe(Disconnected(p, c, p.Keys - pending), t, c) == Disconnected(p, c, p.Keys - (pending - {t}))
  {
    var done := p.Keys - pending;
    assert p.Keys - (pending - {t}) == done + {t};
    var d := Disconnected(p, c, done);
    var e := Disconnected(p, c, done + {t});
    assert d[t] == p[t];
    var u := Unsubscribe(d, t, c);
    assert u.Keys == e.Keys;
    forall k | k in u
      ensures u[k] == e[k]
    {
    }
  }

  /** Every ticker of a consistent table is upper case. */
  lemma UpperKey(p: Portfolios, queue: set<string>, t: string)
    requires Consistent(p, queue) && t in p
    ensures Upper(t) == t
  {
  }

  /** `on_close` keeps the invariant. */
  lemma DisconnectedConsistent(p: Portfolios, queue: set<string>, c: string, done: set<string>)
    requires Consistent(p, queue)
    ensures Consistent(Disconnected(p, c, done), Disconnected(p, c, done).Keys)
  {
  }

  // ---------------------------------------------------------------------
  // Replies to client messages
  // ---------------------------------------------------------------------

  datatype Status = Success | Failure

  /** The `{action, status, value}` reply written back to the client. */
  datatype Reply = Reply(action: string, status: Status, value: string)

  /** The reply `on_message` writes for a stripped value, where `known`
      tells whether the table held the upper-cased value before.  A blank
      value fails under 'add_ticker' whatever was asked; adding always
      succeeds, since the KeyError raised for a new ticker is answered with
      Success; removing fails for a ticker nobody follows; any other action
      gets no reply. */
  function MessageReply(action: string, value: string, known: bool): (r: Option<Reply>)
    ensures r.Some? <==> value == "" || action == "add_ticker" || action == "remove_ticker"
    ensures r.Some? ==> r.value.value == value
    ensures r.Some? && r.value.status == Failure <==> value == "" || (action == "remove_ticker" && !known)
    ensures r.Some? && value != "" ==> r.value.action == action
    ensures value == "" ==> r == Some(Reply("add_ticker", Failure, ""))
  {
    if value == "" then Some(Reply("add_ticker", Failure, value))
    else if action == "add_ticker" then Some(Reply("add_ticker", Success, value))
    else if action == "remove_ticker" then Some(Reply("remove_ticker", if known then Success else Failure, value))
    else None
  }

  // ---------------------------------------------------------------------
  // The server's tables
  // ---------------------------------------------------------------------

  class Registry {
    /** `client_portfolios` */
    var portfolios: Portfolios
    /** `ticker_symbol_set`, the scrape queue */
    var queue: set<string>
    /** The ids of `clients_address`; the handler objects are left out. */
    var clients: set<string>

    predicate Valid()
      reads this
    {
      Consistent(portfolios, queue)
    }

    constructor ()
      ensures Valid() && portfolios == map[] && queue == {} && clients == {}
    {
      portfolios, queue, clients := map[], {}, {};
    }

    /** The registration in `open`. */
    method Open(client: string)
      modifies this`clients
      ensures clients == old(clients) + {client}
    {
      clients := clients + {client};
    }

    /** `add_ticker_subscriber`: join the upper-cased ticker's set; a new
        ticker gets a singleton set, is queued for scraping, and the call
        raises KeyError. */
    method AddTickerSubscriber(ticker: string, client: string) returns (r: Result<()>)
      modifies this`portfolios, this`queue
      ensures portfolios == Subscribe(old(portfolios), Upper(ticker), client)
      ensures Upper(ticker) in old(portfolios) ==> r == Ok(()) && queue == old(queue)
      ensures Upper(ticker) !in old(portfolios) ==> r == Raise(KeyError) && queue == old(queue) + {Upper(ticker)}
      ensures old(Valid()) ==> Valid()
    {
      var t := Upper(ticker);
      UpperIdempotent(ticker);
      if t in portfolios {
        portfolios := portfolios[t := portfolios[t] + {client}];
        r := Ok(());
      } else {
        portfolios := portfolios[t := {client}];
        queue := queue + {t};
        r := Raise(KeyError);
      }
    }

    /** `remove_ticker_subscriber`: drop the client from the upper-cased
        ticker's set, and the ticker from table and queue once the set is
        empty.  Every KeyError inside, for a ticker missing from the table
        or from the queue, is raised again as KeyError. */
    method RemoveTickerSubscriber(ticker: string, client: string) returns (r: Result<()>)
      modifies this`portfolios, this`queue
      ensures Upper(ticker) !in old(portfolios) ==>
        r == Raise(KeyError) && portfolios == old(portfolios) && queue == old(queue)
      ensures Upper(ticker) in old(portfolios) ==>
        portfolios == Unsubscribe(old(portfolios), Upper(ticker), client)
      ensures Upper(ticker) in portfolios ==> r == Ok(()) && queue == old(queue)
      ensures Upper(ticker) in old(portfolios) && Upper(ticker) !in portfolios ==>
        if Upper(ticker) in old(queue) then r == Ok(()) && queue == old(queue) - {Upper(ticker)}
        else r == Raise(KeyError) && queue == old(queue)
      ensures old(Valid()) ==> Valid()
    {
      var t := Upper(ticker);
      if t !in portfolios {
        return Raise(KeyError);
      }
      ghost var p0 := portfolios;
      var subscribers := portfolios[t];
      if client in subscribers {
        subscribers := subscribers - {client};
        portfolios := portfolios[t := subscribers];
      }
      if portfolios[t] == {} {
        portfolios := portfolios - {t};
        if t !in queue {
          return Raise(KeyError);
        }
        queue := queue - {t};
      }
      if client !in p0[t] {
        assert p0[t] - {client} == p0[t];
      }
      r := Ok(());
    }

    /** `on_close`: remove the client from every ticker, from a copy of the
        table's tickers, and forget its address. */
    method OnClose(client: string)
      requires Valid()
      modifies this
      ensures Valid()
      ensures portfolios == Disconnected(old(portfolios), client, old(portfolios).Keys)
      ensures clients == old(clients) - {client}
    {
      ghost var p0 := portfolios;
      var pending := portfolios.Keys;
      while pending != {}
        invariant pending <= p0.Keys
        invariant portfolios == Disconnected(p0, client, p0.Keys - pending)
        invariant queue == portfolios.Keys
        invariant clients == old(clients)
        decreases |pending|
      {
        var t :| t in pending;
        DisconnectStep(p0, client, pending, t);
        UpperKey(p0, old(queue), t);
        var r := RemoveTickerSubscriber(t, client);
        pending := pending - {t};
      }
      assert p0.Keys - pending == p0.Keys;
      DisconnectedConsistent(p0, old(queue), client, p0.Keys);
      clients := clients - {client};
    }

    /** `on_message` for a parsed `{action, value}` request from `client`:
        the value is stripped, a blank one is refused, and the action is
        applied to the upper-cased ticker. */
    method OnMessage(client: string, action: string, value: string) returns (reply: Option<Reply>)
      requires Valid()
      modifies this`portfolios, this`queue
      ensures Valid()
      ensures reply == MessageReply(action, Strip(value), Upper(Strip(value)) in old(portfolios))
      ensures Strip(value) == "" || (action != "add_ticker" && action != "remove_ticker") ==>
        portfolios == old(portfolios) && queue == old(queue)
      ensures Strip(value) != "" && action == "add_ticker" ==>
        portfolios == Subscribe(old(portfolios), Upper(Strip(value)), client)
      ensures Strip(value) != "" && action == "remove_ticker" ==>
        portfolios == if Upper(Strip(value)) in old(portfolios)
                      then Unsubscribe(old(portfolios), Upper(Strip(value)), client)
                      else old(portfolios)
    {
      var v := Strip(value);
      if v == "" {
        return Some(Reply("add_ticker", Failure, v));
      }
      reply := None;
      if action == "add_ticker" {
        var r := AddTickerSubscriber(v, client);
        reply := Some(Reply("add_ticker", Success, v));
      }
      if action == "remove_ticker" {
        var r := RemoveTickerSubscriber(v, client);
        reply := Some(Reply("remove_ticker", if r.Ok? then Success else Failure, v));
      }
    }
  }
}
