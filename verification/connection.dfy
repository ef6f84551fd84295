/**
 * The session's request registry: a session hands out request tokens from
 * a counter, registers a response channel under each token, and can be
 * marked broken or locked by a running changefeed. `Connection` is a handle
 * on one token; dropping it unregisters that token.
 *
 * Atomics and locks become plain fields; the network stream and the
 * requests themselves are not modelled (a request's outcome is a
 * parameter).
 */
module Sessions {
  import opened Wrappers
  import opened Json
  import opened Reql

  const U64_MODULUS: int := 0x1_0000_0000_0000_0000
  const U64_MAX: int := U64_MODULUS - 1

  type U64 = n: int | 0 <= n < U64_MODULUS

  /** The driver errors this part of the session raises. */
  datatype DriverError = ConnectionBroken | ConnectionLocked | RequestFailed

  datatype Result<T> = Ok(value: T) | Err(error: DriverError)

  /** The query kinds the registry sends itself. */
  datatype QueryType = Stop

  /** A request payload: its kind and optional query term. */
  datatype Payload = Payload(queryType: QueryType, query: Option<Command>)

  /**
   * The argument of a STOP request: none when waiting for noreply writes,
   * otherwise the literal `{"noreply": false}`.
   */
  function StopArgument(noreplyWait: bool): (a: Option<Command>)
    ensures a.None? <==> noreplyWait
    ensures a.Some? ==> Serialise(a.value) == JObj([Field("noreply", JBool(false))])
  {
    if noreplyWait then None
    else
      var v := JObj([Field("noreply", JBool(false))]);
      assert EncodeDatum(v) == v;
      Some(FromJson(v))
  }

  /** One response channel; the sending and the receiving end are the same object here. */
  class Channel {
    constructor()
    {
    }
  }

  /** `InnerSession`: the state shared by a session and all its connections. */
  class InnerSession {
    var db: string
    var channels: map<U64, Channel>
    var token: U64
    var broken: bool
    var changeFeed: bool
    /** The tokens handed out so far, in order. */
    ghost var issued: seq<U64>

    /**
     * While the session is not broken, tokens were handed out in strictly
     * increasing order and all lie below the counter; every registered
     * channel sits under a token that was handed out.
     */
    ghost predicate Valid()
      reads this
    {
      && (forall k :: k in channels ==> k in issued)
      && (!broken ==>
            && (forall i, j :: 0 <= i < j < |issued| ==> issued[i] < issued[j])
            && (forall i :: 0 <= i < |issued| ==> issued[i] < token))
    }

    constructor(db: string)
      ensures Valid()
      ensures this.db == db && channels == map[] && token == 0
      ensures !broken && !changeFeed && issued == []
    {
      this.db := db;
      channels := map[];
      token := 0;
      broken := false;
      changeFeed := false;
      issued := [];
    }

    /**
     * `token`: hands out the counter and advances it by one, wrapping at
     * 2^64; handing out `u64::MAX` marks the session broken. While the
     * session is not broken the token is new.
     */
    method Token() returns (t: U64)
      requires Valid()
      modifies this
      ensures Valid()
      ensures t == old(token)
      ensures token == (old(token) + 1) % U64_MODULUS
      ensures broken == (old(broken) || t == U64_MAX)
      ensures !old(broken) ==> t !in old(issued)
      ensures issued == old(issued) + [t]
      ensures db == old(db) && channels == old(channels) && changeFeed == old(changeFeed)
    {
      t := token;
      token := (token + 1) % U64_MODULUS;
      issued := issued + [t];
      if t == U64_MAX {
        MarkBroken();
      }
    }

    /** `mark_broken`. */
    method MarkBroken()
      modifies this
      ensures broken
      ensures db == old(db) && channels == old(channels) && token == old(token)
      ensures changeFeed == old(changeFeed) && issued == old(issued)
    {
      broken := true;
    }

    /** `broken`: fails with ConnectionBroken exactly when the session is broken. */
    function Broken(): (r: Result<()>)
      reads this
      ensures r.Err? <==> broken
      ensures r.Err? ==> r.error == ConnectionBroken
    {
      if broken then Err(ConnectionBroken) else Ok(())
    }

    /** `mark_change_feed`. */
    method MarkChangeFeed()
      modifies this
      ensures changeFeed
      ensures db == old(db) && channels == old(channels) && token == old(token)
      ensures broken == old(broken) && issued == old(issued)
    {
      changeFeed := true;
    }

    /** `unmark_change_feed`. */
    method UnmarkChangeFeed()
      modifies this
      ensures !changeFeed
      ensures db == old(db) && channels == old(channels) && token == old(token)
      ensures broken == old(broken) && issued == old(issued)
    {
      changeFeed := false;
    }

    /** `is_change_feed`: true exactly when `change_feed` would refuse a connection. */
    function IsChangeFeed(): (r: bool)
      reads this
      ensures r <==> ChangeFeed().Err?
    {
      changeFeed
    }

    /** `change_feed`: fails with ConnectionLocked exactly while a changefeed runs. */
    function ChangeFeed(): (r: Result<()>)
      reads this
      ensures r.Err? <==> changeFeed
      ensures r.Err? ==> r.error == ConnectionLocked
    {
      if changeFeed then Err(ConnectionLocked) else Ok(())
    }
  }

  /** `Session`: a handle on the shared state; clones share `inner`. */
  class Session {
    const inner: InnerSession

    constructor(inner: InnerSession)
      ensures this.inner == inner
    {
      this.inner := inner;
    }

    /**
     * `connection`: refuses a broken session, then a session locked by a
     * changefeed, changing nothing; otherwise takes a new token, registers
     * a fresh channel under it and nothing else, and returns an open
     * connection on that token.
     */
    method Connection() returns (r: Result<Connection>)
      requires inner.Valid()
      modifies inner
      ensures inner.Valid()
      ensures old(inner.broken) ==> r == Err(ConnectionBroken) && unchanged(inner)
      ensures !old(inner.broken) && old(inner.changeFeed) ==> r == Err(ConnectionLocked) && unchanged(inner)
      ensures !old(inner.broken) && !old(inner.changeFeed) ==>
        && r.Ok? && fresh(r.value) && fresh(r.value.rx)
        && r.value.session == this && !r.value.closed
        && r.value.token == old(inner.token) && r.value.token !in old(inner.issued)
        && r.value.token !in old(inner.channels)
        && inner.channels == old(inner.channels)[r.value.token := r.value.rx]
        && inner.issued == old(inner.issued) + [r.value.token]
        && inner.token == (old(inner.token) + 1) % U64_MODULUS
        && inner.broken == (r.value.token == U64_MAX)
        && inner.db == old(inner.db) && !inner.changeFeed
    {
      var b := inner.Broken();
      if b.Err? {
        return Err(b.error);
      }
      var l := inner.ChangeFeed();
      if l.Err? {
        return Err(l.error);
      }
      var token := inner.Token();
      var rx := new Channel();
      inner.channels := inner.channels[token := rx];
      var conn := new Connection(this, rx, token);
      r := Ok(conn);
    }

    /**
     * Two connections taken in turn hold increasing tokens, and both of their
     * channels stay registered side by side.
     */
    method TwoConnections() returns (r1: Result<Connection>, r2: Result<Connection>)
      requires inner.Valid()
      modifies inner
      ensures inner.Valid()
      ensures r1.Ok? && r2.Ok? ==>
        && r1.value.token < r2.value.token
        && inner.channels == old(inner.channels)[r1.value.token := r1.value.rx][r2.value.token := r2.value.rx]
        && r1.value.token in inner.channels && inner.channels[r1.value.token] == r1.value.rx
    {
      r1 := Connection();
      r2 := Connection();
      if r1.Ok? && r2.Ok? {
        assert r1.value.token in inner.issued[..|inner.issued| - 1];
      }
    }

    /** `use_`: replaces the default database and nothing else. */
    method Use(dbName: string)
      modifies inner
      ensures inner.db == dbName
      ensures inner.channels == old(inner.channels) && inner.token == old(inner.token)
      ensures inner.broken == old(inner.broken) && inner.changeFeed == old(inner.changeFeed)
      ensures inner.issued == old(inner.issued)
    {
      inner.db := dbName;
    }

    /** `is_broken`: true exactly when `broken` would refuse a connection. */
    function IsBroken(): (r: bool)
      reads inner
      ensures r <==> inner.Broken().Err?
    {
      inner.broken
    }

    /**
     * `close`: takes a temporary connection, closes it and drops it. The
     * temporary connection is refused while a changefeed runs, so this
     * never sends a STOP: it fails with ConnectionLocked instead. On
     * success the counter has moved and the temporary token is logged as
     * issued (handing out `u64::MAX` breaks the session); the channel
     * registered for that token is gone again.
     */
    method Close(noreplyWait: bool, requestOk: bool) returns (r: Result<()>, sent: Option<Payload>)
      requires inner.Valid()
      modifies inner
      ensures inner.Valid()
      ensures sent == None
      ensures old(inner.broken) ==> r == Err(ConnectionBroken) && unchanged(inner)
      ensures !old(inner.broken) && old(inner.changeFeed) ==> r == Err(ConnectionLocked) && unchanged(inner)
      ensures !old(inner.broken) && !old(inner.changeFeed) ==>
        && r == Ok(())
        && inner.channels == old(inner.channels)
        && inner.token == (old(inner.token) + 1) % U64_MODULUS
        && inner.broken == (old(inner.token) == U64_MAX)
        && inner.issued == old(inner.issued) + [old(inner.token)]
        && inner.db == old(inner.db) && !inner.changeFeed
    {
      var c := Connection();
      if c.Err? {
        return Err(c.error), None;
      }
      var conn := c.value;
      r, sent := conn.Close(noreplyWait, requestOk);
      conn.Drop();
      assert inner.channels == old(inner.channels)[conn.token := conn.rx] - {conn.token};
    }
  }

  /** `Connection`: one request token of a session and its receiving end. */
  class Connection {
    const session: Session
    const rx: Channel
    const token: U64
    var closed: bool

    constructor(session: Session, rx: Channel, token: U64)
      ensures this.session == session && this.rx == rx && this.token == token
      ensures !closed
    {
      this.session := session;
      this.rx := rx;
      this.token := token;
      closed := false;
    }

    /**
     * `close`: on a session without a changefeed, nothing happens. Otherwise
     * the connection is marked closed and a STOP is sent, with no argument
     * when waiting for noreply writes and `{"noreply": false}` otherwise;
     * the changefeed lock is lifted only if that request succeeds.
     */
    method Close(noreplyWait: bool, requestOk: bool) returns (r: Result<()>, sent: Option<Payload>)
      modifies this, session.inner
      ensures !old(session.inner.changeFeed) ==>
        r == Ok(()) && sent == None && closed == old(closed) && unchanged(session.inner)
      ensures old(session.inner.changeFeed) ==>
        && closed
        && sent == Some(Payload(Stop, StopArgument(noreplyWait)))
        && (requestOk ==> r == Ok(()) && !session.inner.changeFeed)
        && (!requestOk ==> r == Err(RequestFailed) && session.inner.changeFeed)
      ensures session.inner.channels == old(session.inner.channels) && session.inner.db == old(session.inner.db)
      ensures session.inner.token == old(session.inner.token) && session.inner.broken == old(session.inner.broken)
      ensures session.inner.issued == old(session.inner.issued)
    {
      if !session.inner.IsChangeFeed() {
        return Ok(()), None;
      }
      SetClosed(true);
      sent := Some(Payload(Stop, StopArgument(noreplyWait)));
      if !requestOk {
        return Err(RequestFailed), sent;
      }
      session.inner.UnmarkChangeFeed();
      r := Ok(());
    }

    /** `closed`: whether `close` has marked this connection closed. */
    function Closed(): (r: bool)
      reads this
      ensures r <==> closed
    {
      closed
    }

    /** `set_closed`. */
    method SetClosed(closed: bool)
      modifies this
      ensures this.closed == closed
    {
      this.closed := closed;
    }

    /**
     * `drop`: unregisters this connection's own token, leaving every other
     * channel in place, and lifts the changefeed lock whichever connection
     * set it.
     */
    method Drop()
      requires session.inner.Valid()
      modifies session.inner
      ensures session.inner.Valid()
      ensures session.inner.channels == old(session.inner.channels) - {token}
      ensures !session.inner.changeFeed
      ensures session.inner.db == old(session.inner.db) && session.inner.token == old(session.inner.token)
      ensures session.inner.broken == old(session.inner.broken) && session.inner.issued == old(session.inner.issued)
    {
      session.inner.channels := session.inner.channels - {token};
      if session.inner.IsChangeFeed() {
        session.inner.UnmarkChangeFeed();
      }
    }
  }
}
