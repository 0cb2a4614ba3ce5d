/**
 * Dialer.Dial (smtp.go) as a function of the dialer's configuration and the
 * script of the connection attempt: the error it returns, the events it
 * causes in order, and the value d.Auth holds afterwards. Dial runs four
 * stages; a stage that fails ends the dial.
 */
module DialModel {
  import opened Wrappers
  import opened Smtp

  datatype Stage = Stage(err: Option<Error>, events: seq<Event>)

  datatype DialOutcome = DialOutcome(err: Option<Error>, events: seq<Event>, auth: Option<SmtpAuth>)

  /** Events of a mail transaction or of ending a session. */
  predicate IsTransactionEvent(e: Event)
  {
    e.MailFrom? || e.RcptTo? || e.DataCmd? || e.BodyWritten? || e.DataClosed? || e.QuitCmd?
  }

  predicate IsTransportEvent(e: Event)
  {
    e.DialDirect? || e.DialSocks5? || e.TlsWrap? || e.DeadlineSet? || e.DeadlineCleared? || e.ConnClosed? || e.ClientGreeted? || e.ClientClosed?
  }

  predicate IsSecureEvent(e: Event)
  {
    e.Helo? || e == ExtensionQuery("STARTTLS") || e.StartTlsCmd? || e.ClientClosed?
  }

  predicate IsAuthEvent(e: Event)
  {
    e == ExtensionQuery("AUTH") || e.AuthCmd? || e.ClientClosed?
  }

  function Last(s: seq<Event>): Event
    requires |s| > 0
  {
    s[|s| - 1]
  }

  /** Whether Dial runs mechanism negotiation at all (it still needs AUTH to be advertised). */
  predicate Negotiates(cfg: DialerConfig)
  {
    cfg.auth.None? && cfg.username != ""
  }

  /** Whether the transport stage hands over a connection. */
  predicate Reachable(cfg: DialerConfig, a: Script)
  {
    (cfg.socks5Proxy == "" || a.proxySetup.None?) && a.transport.Connected?
  }

  /** The transport: proxy setup, the dial, and the nil-connection guard. */
  function OpenSpec(cfg: DialerConfig, a: Script): (o: Stage)
    ensures o.err.None? <==> Reachable(cfg, a)
  {
    if cfg.socks5Proxy != "" && a.proxySetup.Some? then Stage(a.proxySetup, [])
    else Stage(TransportError(cfg.socks5Proxy, a.transport), [DialEvent(cfg)])
  }

  /**
   * On an open connection: the optional implicit-TLS wrap, the handshake
   * deadline, client construction (which reads the greeting) and clearing
   * the deadline.
   */
  function HandshakeSpec(cfg: DialerConfig, a: Script): (o: Stage)
  {
    var armed := (if cfg.ssl then [TlsWrap(cfg.Tls())] else []) + [DeadlineSet(HANDSHAKE_TIMEOUT_SECONDS)];
    if a.setDeadline.Some? then
      Stage(a.setDeadline, armed + [ConnClosed])
    else
      var greeted := armed + [ClientGreeted(cfg.host)];
      if a.greeting.Some? then
        Stage(a.greeting, greeted + [ConnClosed])
      else
        var cleared := greeted + [DeadlineCleared];
        if a.clearDeadline.Some? then Stage(a.clearDeadline, cleared + [ClientClosed])
        else Stage(None, cleared)
  }

  /** HELO with the local name when one is set, then opportunistic STARTTLS unless SSL. */
  function SecureSpec(cfg: DialerConfig, a: Script): (o: Stage)
  {
    var helloed := if cfg.localName != "" then [Helo(cfg.localName)] else [];
    if cfg.localName != "" && a.hello.Some? then
      Stage(a.hello, helloed)
    else
      var upgrade := !cfg.ssl && "STARTTLS" in a.extensions;
      var secured := helloed
        + (if !cfg.ssl then [ExtensionQuery("STARTTLS")] else [])
        + (if upgrade then [StartTlsCmd(cfg.Tls())] else []);
      if upgrade && a.startTls.Some? then Stage(a.startTls, secured + [ClientClosed])
      else Stage(None, secured)
  }

  /** Mechanism negotiation (cached in the result's auth) and the AUTH command. */
  function AuthenticateSpec(cfg: DialerConfig, a: Script): (o: DialOutcome)
  {
    var queried := if Negotiates(cfg) then [ExtensionQuery("AUTH")] else [];
    var auth :=
      if Negotiates(cfg) && "AUTH" in a.extensions
      then Some(NegotiateAuth(a.extensions["AUTH"], cfg.username, cfg.password, cfg.host))
      else cfg.auth;
    if auth.None? then
      DialOutcome(None, queried, auth)
    else
      var authed := queried + [AuthCmd(auth.value)];
      if a.auth.Some? then DialOutcome(a.auth, authed + [ClientClosed], auth)
      else DialOutcome(None, authed, auth)
  }

  /** The handshake fails exactly on one of its three steps; before the client exists a failure closes the connection, afterwards the client. */
  lemma HandshakeOutcome(cfg: DialerConfig, a: Script)
    ensures var o := HandshakeSpec(cfg, a);
      && (o.err.None? <==> a.setDeadline.None? && a.greeting.None? && a.clearDeadline.None?)
      && (o.err.Some? ==>
            |o.events| > 0 && Last(o.events) == (if a.setDeadline.Some? || a.greeting.Some? then ConnClosed else ClientClosed))
  {
  }

  /** HELO and STARTTLS are the only failures; a HELO failure closes nothing, a STARTTLS failure closes the client. */
  lemma SecureOutcome(cfg: DialerConfig, a: Script)
    ensures var o := SecureSpec(cfg, a);
      && (o.err.None? <==>
            (cfg.localName == "" || a.hello.None?) && (cfg.ssl || "STARTTLS" !in a.extensions || a.startTls.None?))
      && (cfg.localName != "" && a.hello.Some? ==> o.err == a.hello && o.events == [Helo(cfg.localName)])
      && (o.err.Some? && (cfg.localName == "" || a.hello.None?) ==>
            o.err == a.startTls && |o.events| > 0 && Last(o.events) == ClientClosed)
  {
  }

  /** A preset Auth stays; a new one comes only from negotiation; AUTH fails only when issued, and then closes the client. */
  lemma AuthenticateOutcome(cfg: DialerConfig, a: Script)
    ensures var o := AuthenticateSpec(cfg, a);
      && (cfg.auth.Some? ==> o.auth == cfg.auth)
      && (o.auth != cfg.auth ==> Negotiates(cfg) && "AUTH" in a.extensions)
      && (o.err.Some? <==> o.auth.Some? && a.auth.Some?)
      && (o.err.Some? ==> o.err == a.auth && |o.events| > 0 && Last(o.events) == ClientClosed)
  {
  }

  function DialSpec(cfg: DialerConfig, a: Script): (o: DialOutcome)
    ensures o.err.None? ==> Reachable(cfg, a)
    // Auth changes only by negotiation, and a preset Auth is never replaced.
    ensures o.auth != cfg.auth ==> Negotiates(cfg) && "AUTH" in a.extensions
    ensures cfg.auth.Some? ==> o.auth == cfg.auth
    // Without a connection nothing beyond the dial happens.
    ensures !Reachable(cfg, a) ==> o.err.Some? && |o.events| <= 1 && o.auth == cfg.auth
  {
    var c := OpenSpec(cfg, a);
    if c.err.Some? then DialOutcome(c.err, c.events, cfg.auth)
    else
      var h := HandshakeSpec(cfg, a);
      if h.err.Some? then DialOutcome(h.err, c.events + h.events, cfg.auth)
      else
        var s := SecureSpec(cfg, a);
        if s.err.Some? then DialOutcome(s.err, c.events + h.events + s.events, cfg.auth)
        else
          var t := AuthenticateSpec(cfg, a);
          DialOutcome(t.err, c.events + h.events + s.events + t.events, t.auth)
  }

  /** The security and authentication stages cause only their own kinds of event, and a dial never touches a mail transaction. */
  lemma EventKinds(cfg: DialerConfig, a: Script)
    ensures forall e :: e in SecureSpec(cfg, a).events ==> IsSecureEvent(e)
    ensures forall e :: e in AuthenticateSpec(cfg, a).events ==> IsAuthEvent(e)
    ensures forall e :: e in DialSpec(cfg, a).events ==> !IsTransactionEvent(e)
  {
    TransportEventKinds(cfg, a);
    forall e | e in DialSpec(cfg, a).events
      ensures !IsTransactionEvent(e)
    {
      InDial(cfg, a, e);
    }
  }

  /** The transport and handshake stages cause only transport events. */
  lemma TransportEventKinds(cfg: DialerConfig, a: Script)
    ensures forall e :: e in OpenSpec(cfg, a).events ==> IsTransportEvent(e)
    ensures forall e :: e in HandshakeSpec(cfg, a).events ==> IsTransportEvent(e)
  {
  }

  /** An event of a dial comes from one of the stages that ran. */
  lemma InDial(cfg: DialerConfig, a: Script, e: Event)
    ensures var c, h, s := OpenSpec(cfg, a), HandshakeSpec(cfg, a), SecureSpec(cfg, a);
      e in DialSpec(cfg, a).events <==>
        || e in c.events
        || (c.err.None? && e in h.events)
        || (c.err.None? && h.err.None? && e in s.events)
        || (c.err.None? && h.err.None? && s.err.None? && e in AuthenticateSpec(cfg, a).events)
  {
  }

  /** When the first three stages succeed, the dial ends as authentication does. */
  lemma ReachesAuthentication(cfg: DialerConfig, a: Script)
    requires OpenSpec(cfg, a).err.None? && HandshakeSpec(cfg, a).err.None? && SecureSpec(cfg, a).err.None?
    ensures var o, t := DialSpec(cfg, a), AuthenticateSpec(cfg, a);
      && o.err == t.err && o.auth == t.auth
      && o.events == (OpenSpec(cfg, a).events + HandshakeSpec(cfg, a).events + SecureSpec(cfg, a).events) + t.events
  {
  }

  /** A dial that reaches the connection begins with the dial event and the handshake's events. */
  lemma DialPrefix(cfg: DialerConfig, a: Script)
    requires Reachable(cfg, a)
    ensures var o, h := DialSpec(cfg, a), HandshakeSpec(cfg, a);
      |o.events| >= 1 + |h.events| && o.events[..1 + |h.events|] == [DialEvent(cfg)] + h.events
  {
    var o, h := DialSpec(cfg, a), HandshakeSpec(cfg, a);
    var rest := o.events[1 + |h.events|..];
    assert o.events == ([DialEvent(cfg)] + h.events) + rest;
  }

  /** The events up to and including arming the handshake deadline on a connection. */
  function Armed(cfg: DialerConfig): seq<Event>
  {
    [DialEvent(cfg)] + (if cfg.ssl then [TlsWrap(cfg.Tls())] else []) + [DeadlineSet(HANDSHAKE_TIMEOUT_SECONDS)]
  }

  /** A proxy that cannot be set up: its error, and nothing dialed. */
  lemma ProxySetupFailure(cfg: DialerConfig, a: Script)
    requires cfg.socks5Proxy != "" && a.proxySetup.Some?
    ensures var o := DialSpec(cfg, a);
      o.err == a.proxySetup && o.events == [] && o.auth == cfg.auth
  {
  }

  /**
   * A failed dial returns the dial error unmodified, a nil connection returns
   * exactly "dial failed: connection is nil"; either way no client is built
   * and no command is issued.
   */
  lemma TransportFailure(cfg: DialerConfig, a: Script)
    requires cfg.socks5Proxy == "" || a.proxySetup.None?
    requires !a.transport.Connected?
    ensures var o := DialSpec(cfg, a);
      && o.err == (if a.transport.Refused? then Some(a.transport.err) else Some(NIL_CONNECTION))
      && o.events == [DialEvent(cfg)]
      && o.auth == cfg.auth
  {
  }

  /** A failure to arm the deadline closes the raw connection. */
  lemma DeadlineFailureClosesConnection(cfg: DialerConfig, a: Script)
    requires Reachable(cfg, a) && a.setDeadline.Some?
    ensures var o := DialSpec(cfg, a);
      o.err == a.setDeadline && o.events == Armed(cfg) + [ConnClosed] && o.auth == cfg.auth
  {
  }

  /** A failure to construct the client (read the greeting) closes the raw connection. */
  lemma GreetingFailureClosesConnection(cfg: DialerConfig, a: Script)
    requires Reachable(cfg, a) && a.setDeadline.None? && a.greeting.Some?
    ensures var o := DialSpec(cfg, a);
      o.err == a.greeting && o.events == Armed(cfg) + [ClientGreeted(cfg.host), ConnClosed] && o.auth == cfg.auth
  {
  }

  /** A failure to clear the deadline closes the client. */
  lemma ClearDeadlineFailureClosesClient(cfg: DialerConfig, a: Script)
    requires Reachable(cfg, a) && a.setDeadline.None? && a.greeting.None? && a.clearDeadline.Some?
    ensures var o := DialSpec(cfg, a);
      && o.err == a.clearDeadline
      && o.events == Armed(cfg) + [ClientGreeted(cfg.host), DeadlineCleared, ClientClosed]
      && o.auth == cfg.auth
  {
  }

  /** A HELO failure returns its error and closes nothing. */
  lemma HelloFailureClosesNothing(cfg: DialerConfig, a: Script)
    requires Reachable(cfg, a) && a.setDeadline.None? && a.greeting.None? && a.clearDeadline.None?
    requires cfg.localName != "" && a.hello.Some?
    ensures var o := DialSpec(cfg, a);
      && o.err == a.hello
      && o.events == Armed(cfg) + [ClientGreeted(cfg.host), DeadlineCleared, Helo(cfg.localName)]
      && o.auth == cfg.auth
  {
  }

  /** With implicit TLS the connection is wrapped right after dialing and STARTTLS is never queried or issued. */
  lemma ImplicitTlsSkipsStartTls(cfg: DialerConfig, a: Script)
    requires cfg.ssl
    ensures var o := DialSpec(cfg, a);
      && ExtensionQuery("STARTTLS") !in o.events
      && (forall e :: e in o.events ==> !e.StartTlsCmd?)
      && (Reachable(cfg, a) ==> o.events[..2] == [DialEvent(cfg), TlsWrap(cfg.Tls())])
  {
    var o := DialSpec(cfg, a);
    EventKinds(cfg, a);
    TransportEventKinds(cfg, a);
    InDial(cfg, a, ExtensionQuery("STARTTLS"));
    forall e | e in o.events
      ensures !e.StartTlsCmd?
    {
      InDial(cfg, a, e);
    }
    if Reachable(cfg, a) {
      DialPrefix(cfg, a);
      var h := HandshakeSpec(cfg, a);
      assert h.events[0] == TlsWrap(cfg.Tls());
      assert o.events[..2] == ([DialEvent(cfg)] + h.events)[..2];
    }
  }

  /** Without implicit TLS, STARTTLS goes out exactly when the query was made and the extension is advertised. */
  lemma StartTlsWhenAdvertised(cfg: DialerConfig, a: Script)
    ensures var o := DialSpec(cfg, a);
      && (StartTlsCmd(cfg.Tls()) in o.events <==>
            !cfg.ssl && ExtensionQuery("STARTTLS") in o.events && "STARTTLS" in a.extensions)
      && (forall e :: e in o.events && e.StartTlsCmd? ==> e == StartTlsCmd(cfg.Tls()))
  {
    EventKinds(cfg, a);
    TransportEventKinds(cfg, a);
    InDial(cfg, a, StartTlsCmd(cfg.Tls()));
    InDial(cfg, a, ExtensionQuery("STARTTLS"));
    forall e | e in DialSpec(cfg, a).events && e.StartTlsCmd?
      ensures e == StartTlsCmd(cfg.Tls())
    {
      InDial(cfg, a, e);
    }
  }

  /**
   * Without SSL, a dial that gets past the handshake and HELO asks for
   * STARTTLS, and issues it when the server advertises it.
   */
  lemma StartTlsQueriedWithoutSsl(cfg: DialerConfig, a: Script)
    requires Reachable(cfg, a) && a.setDeadline.None? && a.greeting.None? && a.clearDeadline.None?
    requires cfg.localName == "" || a.hello.None?
    requires !cfg.ssl
    ensures var o := DialSpec(cfg, a);
      && ExtensionQuery("STARTTLS") in o.events
      && ("STARTTLS" in a.extensions ==> StartTlsCmd(cfg.Tls()) in o.events)
  {
    InDial(cfg, a, ExtensionQuery("STARTTLS"));
    InDial(cfg, a, StartTlsCmd(cfg.Tls()));
  }

  /** A failed STARTTLS closes the client and returns its error. */
  lemma StartTlsFailureClosesClient(cfg: DialerConfig, a: Script)
    requires Reachable(cfg, a) && a.setDeadline.None? && a.greeting.None? && a.clearDeadline.None?
    requires cfg.localName == "" || a.hello.None?
    requires !cfg.ssl && "STARTTLS" in a.extensions && a.startTls.Some?
    ensures var o := DialSpec(cfg, a);
      && StartTlsCmd(cfg.Tls()) in o.events
      && o.err == a.startTls && Last(o.events) == ClientClosed && o.auth == cfg.auth
  {
    var c, h, st := OpenSpec(cfg, a), HandshakeSpec(cfg, a), SecureSpec(cfg, a);
    assert st.err == a.startTls && Last(st.events) == ClientClosed && StartTlsCmd(cfg.Tls()) in st.events;
    assert DialSpec(cfg, a).events == (c.events + h.events) + st.events;
  }

  /**
   * Negotiation runs only without a pre-supplied Auth and with a username; its
   * choice is cached in d.Auth; a pre-supplied Auth is never replaced.
   */
  lemma AuthIsNegotiatedOnce(cfg: DialerConfig, a: Script)
    ensures var o := DialSpec(cfg, a);
      && (cfg.auth.Some? ==> o.auth == cfg.auth)
      && (ExtensionQuery("AUTH") in o.events ==> Negotiates(cfg))
      && (ExtensionQuery("AUTH") in o.events && "AUTH" in a.extensions ==>
            o.auth == Some(NegotiateAuth(a.extensions["AUTH"], cfg.username, cfg.password, cfg.host)))
      && (o.auth != cfg.auth ==> ExtensionQuery("AUTH") in o.events && "AUTH" in a.extensions)
      && (OpenSpec(cfg, a).err.None? && HandshakeSpec(cfg, a).err.None? && SecureSpec(cfg, a).err.None? && Negotiates(cfg) ==>
            ExtensionQuery("AUTH") in o.events)
  {
    var c, h, st := OpenSpec(cfg, a), HandshakeSpec(cfg, a), SecureSpec(cfg, a);
    EventKinds(cfg, a);
    TransportEventKinds(cfg, a);
    InDial(cfg, a, ExtensionQuery("AUTH"));
    if c.err.None? && h.err.None? && st.err.None? {
      ReachesAuthentication(cfg, a);
    }
  }

  /** AUTH uses the cached strategy; its failure closes the client (the strategy stays cached). */
  lemma AuthFailureClosesClient(cfg: DialerConfig, a: Script)
    ensures var o := DialSpec(cfg, a);
      && (forall s :: AuthCmd(s) in o.events ==> o.auth == Some(s))
      && ((exists s :: AuthCmd(s) in o.events) && a.auth.Some? ==>
            o.err == a.auth && Last(o.events) == ClientClosed)
  {
    var o, c, h, st := DialSpec(cfg, a), OpenSpec(cfg, a), HandshakeSpec(cfg, a), SecureSpec(cfg, a);
    EventKinds(cfg, a);
    TransportEventKinds(cfg, a);
    forall s | AuthCmd(s) in o.events
      ensures o.auth == Some(s)
    {
      InDial(cfg, a, AuthCmd(s));
      ReachesAuthentication(cfg, a);
    }
    if (exists s :: AuthCmd(s) in o.events) && a.auth.Some? {
      var s :| AuthCmd(s) in o.events;
      InDial(cfg, a, AuthCmd(s));
      ReachesAuthentication(cfg, a);
    }
  }

  lemma HandshakeSucceeds(cfg: DialerConfig, a: Script)
    requires HandshakeSpec(cfg, a).err.None?
    ensures [DialEvent(cfg)] + HandshakeSpec(cfg, a).events == Armed(cfg) + [ClientGreeted(cfg.host), DeadlineCleared]
    ensures ClientClosed !in HandshakeSpec(cfg, a).events && ConnClosed !in HandshakeSpec(cfg, a).events
  {
  }

  /**
   * A successful dial got a connection and holds the negotiated strategy when
   * negotiation ran and AUTH was advertised, the pre-supplied one otherwise.
   * Its whole trace is the handshake, the optional HELO, the STARTTLS query
   * and upgrade unless SSL, the AUTH query when negotiating, and the AUTH
   * command when there is a strategy.
   */
  lemma DialSuccess(cfg: DialerConfig, a: Script)
    requires DialSpec(cfg, a).err.None?
    ensures Reachable(cfg, a)
    ensures var o := DialSpec(cfg, a);
      o.auth ==
        if Negotiates(cfg) && "AUTH" in a.extensions
        then Some(NegotiateAuth(a.extensions["AUTH"], cfg.username, cfg.password, cfg.host))
        else cfg.auth
    ensures var o := DialSpec(cfg, a);
      o.events ==
        Armed(cfg) + [ClientGreeted(cfg.host), DeadlineCleared]
        + (if cfg.localName != "" then [Helo(cfg.localName)] else [])
        + (if !cfg.ssl then [ExtensionQuery("STARTTLS")] + (if "STARTTLS" in a.extensions then [StartTlsCmd(cfg.Tls())] else []) else [])
        + (if Negotiates(cfg) then [ExtensionQuery("AUTH")] else [])
        + (if o.auth.Some? then [AuthCmd(o.auth.value)] else [])
  {
    assert OpenSpec(cfg, a) == Stage(None, [DialEvent(cfg)]);
    assert HandshakeSpec(cfg, a).err.None? && SecureSpec(cfg, a).err.None?;
    ReachesAuthentication(cfg, a);
    StagesTrace(cfg, a);
  }

  /** A successful dial closes neither the connection nor the client. */
  lemma SuccessClosesNothing(cfg: DialerConfig, a: Script)
    requires DialSpec(cfg, a).err.None?
    ensures ClientClosed !in DialSpec(cfg, a).events && ConnClosed !in DialSpec(cfg, a).events
  {
    assert OpenSpec(cfg, a).err.None? && HandshakeSpec(cfg, a).err.None? && SecureSpec(cfg, a).err.None?;
    ReachesAuthentication(cfg, a);
    HandshakeSucceeds(cfg, a);
    InDial(cfg, a, ClientClosed);
    InDial(cfg, a, ConnClosed);
  }

  /** A successful dial issued AUTH, with the strategy it holds, exactly when it holds one. */
  lemma SuccessAuthenticates(cfg: DialerConfig, a: Script)
    requires DialSpec(cfg, a).err.None?
    ensures var o := DialSpec(cfg, a);
      && (o.auth.Some? ==> AuthCmd(o.auth.value) in o.events)
      && (o.auth.None? ==> forall s :: AuthCmd(s) !in o.events)
  {
    var o := DialSpec(cfg, a);
    assert OpenSpec(cfg, a).err.None? && HandshakeSpec(cfg, a).err.None? && SecureSpec(cfg, a).err.None?;
    ReachesAuthentication(cfg, a);
    EventKinds(cfg, a);
    TransportEventKinds(cfg, a);
    forall s | AuthCmd(s) in o.events
      ensures o.auth == Some(s)
    {
      InDial(cfg, a, AuthCmd(s));
    }
    if o.auth.Some? {
      InDial(cfg, a, AuthCmd(o.auth.value));
    }
  }

  lemma SecureSucceeds(cfg: DialerConfig, a: Script)
    requires SecureSpec(cfg, a).err.None?
    ensures SecureSpec(cfg, a).events ==
      (if cfg.localName != "" then [Helo(cfg.localName)] else [])
      + (if !cfg.ssl then [ExtensionQuery("STARTTLS")] + (if "STARTTLS" in a.extensions then [StartTlsCmd(cfg.Tls())] else []) else [])
  {
  }

  lemma AuthenticateSucceeds(cfg: DialerConfig, a: Script)
    requires AuthenticateSpec(cfg, a).err.None?
    ensures var t := AuthenticateSpec(cfg, a);
      && t.auth ==
        (if Negotiates(cfg) && "AUTH" in a.extensions
         then Some(NegotiateAuth(a.extensions["AUTH"], cfg.username, cfg.password, cfg.host))
         else cfg.auth)
      && t.events ==
        (if Negotiates(cfg) then [ExtensionQuery("AUTH")] else [])
        + (if t.auth.Some? then [AuthCmd(t.auth.value)] else [])
  {
  }

  /** The events of the four stages of a successful dial, laid end to end. */
  lemma StagesTrace(cfg: DialerConfig, a: Script)
    requires HandshakeSpec(cfg, a).err.None? && SecureSpec(cfg, a).err.None? && AuthenticateSpec(cfg, a).err.None?
    ensures var t := AuthenticateSpec(cfg, a);
      ([DialEvent(cfg)] + HandshakeSpec(cfg, a).events + SecureSpec(cfg, a).events) + t.events ==
        Armed(cfg) + [ClientGreeted(cfg.host), DeadlineCleared]
        + (if cfg.localName != "" then [Helo(cfg.localName)] else [])
        + (if !cfg.ssl then [ExtensionQuery("STARTTLS")] + (if "STARTTLS" in a.extensions then [StartTlsCmd(cfg.Tls())] else []) else [])
        + (if Negotiates(cfg) then [ExtensionQuery("AUTH")] else [])
        + (if t.auth.Some? then [AuthCmd(t.auth.value)] else [])
  {
    var t := AuthenticateSpec(cfg, a);
    HandshakeSucceeds(cfg, a);
    SecureSucceeds(cfg, a);
    AuthenticateSucceeds(cfg, a);
    var helo := if cfg.localName != "" then [Helo(cfg.localName)] else [];
    var tls := if !cfg.ssl then [ExtensionQuery("STARTTLS")] + (if "STARTTLS" in a.extensions then [StartTlsCmd(cfg.Tls())] else []) else [];
    var query := if Negotiates(cfg) then [ExtensionQuery("AUTH")] else [];
    var cmd := if t.auth.Some? then [AuthCmd(t.auth.value)] else [];
    var greeted := Armed(cfg) + [ClientGreeted(cfg.host), DeadlineCleared];
    assert ([DialEvent(cfg)] + HandshakeSpec(cfg, a).events + SecureSpec(cfg, a).events) + t.events
      == (greeted + (helo + tls)) + (query + cmd);
    AppendAssoc(greeted, helo, tls);
    AppendAssoc(greeted + helo + tls, query, cmd);
  }

  lemma AppendAssoc(a: seq<Event>, b: seq<Event>, c: seq<Event>)
    ensures (a + b) + c == a + (b + c)
  {
  }
}
