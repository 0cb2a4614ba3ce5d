/**
 * The data model of gomail's SMTP dialer (smtp.go): Go errors, the dialer's
 * configuration, authentication strategies, the events a session produces,
 * and the scripted behaviour of one connection that the test double plays
 * back. Also the small pure pieces of smtp.go: NewDialer's defaults,
 * tlsConfig, addr, mechanism selection and the transport-error rule.
 */
module Smtp {
  import opened Wrappers
  import opened Text

  /** A Go error value. `Eof` is the sentinel io.EOF, compared by identity. */
  datatype Error = Eof | Failure(message: string)

  const NIL_CONNECTION: Error := Failure("dial failed: connection is nil")
  /** What every dial answers once the scripted network has no attempts left. */
  const CONNECTION_REFUSED: Error := Failure("connection refused")
  const IMPLICIT_TLS_PORT := 465
  const CONNECT_TIMEOUT_SECONDS := 10
  const HANDSHAKE_TIMEOUT_SECONDS := 5

  /** The part of a *tls.Config the dialer sets or relies on. */
  datatype TlsConfig = TlsConfig(serverName: string, insecureSkipVerify: bool)

  /** smtp.Auth, kept as a tag with the credentials it was built from. */
  datatype SmtpAuth =
    | CramMd5(username: string, secret: string)
    | Login(username: string, password: string, host: string)
    | Plain(identity: string, username: string, password: string, host: string)
    | Custom(name: string)   // a strategy the caller supplied

  /** Every field of the Go Dialer struct. */
  datatype DialerConfig = DialerConfig(
    host: string,
    port: int,
    username: string,
    password: string,
    auth: Option<SmtpAuth>,
    ssl: bool,
    tlsConfig: Option<TlsConfig>,
    localName: string,
    skipUsernameCheck: bool,
    socks5Proxy: string)
  {
    /** Dialer.tlsConfig: the caller's configuration, else one that verifies Host. */
    function Tls(): (c: TlsConfig)
      ensures tlsConfig.Some? ==> c == tlsConfig.value
      ensures tlsConfig.None? ==> c.serverName == host && !c.insecureSkipVerify
    {
      match tlsConfig
      case Some(config) => config
      case None => TlsConfig(host, false)
    }

    function Address(): string
    {
      Addr(host, port)
    }
  }

  /** NewDialer: the four arguments, SSL on exactly for port 465, every other field zero. */
  function NewDialerConfig(host: string, port: int, username: string, password: string): (c: DialerConfig)
    ensures c.host == host && c.port == port && c.username == username && c.password == password
    ensures c.ssl <==> port == IMPLICIT_TLS_PORT
    ensures c.auth.None? && c.tlsConfig.None? && c.localName == ""
    ensures !c.skipUsernameCheck && c.socks5Proxy == ""
  {
    DialerConfig(host, port, username, password, None, port == IMPLICIT_TLS_PORT, None, "", false, "")
  }

  /** addr: fmt.Sprintf("%s:%d", host, port). */
  function Addr(host: string, port: int): string
  {
    host + ":" + FormatInt(port)
  }

  datatype HostPort = HostPort(host: string, port: int)

  /** Splits an address at its last ':' and parses the port; the inverse of Addr. */
  function SplitAddr(address: string): Option<HostPort>
  {
    var k := LastIndex(address, ':');
    if k < 0 then None
    else match ParseInt(address[k + 1..])
      case None => None
      case Some(port) => Some(HostPort(address[..k], port))
  }

  /** Addr loses nothing: the host (even one holding ':') and the port come back out. */
  lemma AddrRoundTrip(host: string, port: int)
    ensures SplitAddr(Addr(host, port)) == Some(HostPort(host, port))
  {
    var a := Addr(host, port);
    FormatIntHasNoColon(port);
    assert a[|host|] == ':';
    assert forall j :: |host| < j < |a| ==> a[j] == FormatInt(port)[j - |host| - 1];
    var k := LastIndex(a, ':');
    assert k == |host|;
    assert a[..k] == host;
    assert a[k + 1..] == FormatInt(port);
    FormatIntRoundTrip(port);
  }

  /** Two dialers dial the same address only when host and port agree. */
  lemma AddrInjective(h1: string, p1: int, h2: string, p2: int)
    requires Addr(h1, p1) == Addr(h2, p2)
    ensures h1 == h2 && p1 == p2
  {
    AddrRoundTrip(h1, p1);
    AddrRoundTrip(h2, p2);
  }

  /**
   * The mechanism Dial picks from the AUTH extension's parameter string:
   * CRAM-MD5 if mentioned, else LOGIN if LOGIN is mentioned and PLAIN is not,
   * else PLAIN. Every test is a substring test.
   */
  function NegotiateAuth(advertised: string, username: string, password: string, host: string): (a: SmtpAuth)
    ensures !a.Custom? && a.username == username
    ensures Contains(advertised, "CRAM-MD5") <==> a.CramMd5?
    ensures a.CramMd5? ==> a.secret == password
    ensures a.Login? ==> Contains(advertised, "LOGIN") && !Contains(advertised, "PLAIN")
    ensures !Contains(advertised, "CRAM-MD5") && Contains(advertised, "LOGIN") && !Contains(advertised, "PLAIN") ==>
      a == Login(username, password, host)
    ensures Contains(advertised, "PLAIN") && !a.CramMd5? ==> a.Plain?
    ensures !Contains(advertised, "CRAM-MD5") && !Contains(advertised, "LOGIN") ==> a.Plain?
    ensures a.Login? || a.Plain? ==> a.password == password && a.host == host
    ensures a.Plain? ==> a.identity == ""
  {
    if Contains(advertised, "CRAM-MD5") then CramMd5(username, password)
    else if Contains(advertised, "LOGIN") && !Contains(advertised, "PLAIN") then Login(username, password, host)
    else Plain("", username, password, host)
  }

  /** CRAM-MD5 wins whatever else the server lists. */
  lemma CramMd5Wins(others: string, username: string, password: string, host: string)
    ensures NegotiateAuth(others + " CRAM-MD5", username, password, host) == CramMd5(username, password)
  {
    ContainsSuffix(others + " ", "CRAM-MD5");
    assert others + " CRAM-MD5" == (others + " ") + "CRAM-MD5";
  }

  /** A server listing both LOGIN and PLAIN gets PLAIN. */
  lemma PlainBeatsLogin(u: string, p: string, h: string)
    ensures NegotiateAuth("LOGIN PLAIN", u, p, h) == Plain("", u, p, h)
  {
    AbsentFirstChar("LOGIN PLAIN", "CRAM-MD5");
    ContainsSuffix("LOGIN ", "PLAIN");
    assert "LOGIN " + "PLAIN" == "LOGIN PLAIN";
  }

  /** A server listing only LOGIN gets LOGIN. */
  lemma LoginAlone(u: string, p: string, h: string)
    ensures NegotiateAuth("LOGIN", u, p, h) == Login(u, p, h)
  {
    AbsentFirstChar("LOGIN", "CRAM-MD5");
    AbsentFirstChar("LOGIN", "PLAIN");
    assert OccursAt("LOGIN", "LOGIN", 0);
  }

  /** A server listing no known mechanism still gets PLAIN. */
  lemma UnknownMechanismFallsBackToPlain(u: string, p: string, h: string)
    ensures NegotiateAuth("XOAUTH2", u, p, h) == Plain("", u, p, h)
  {
    AbsentFirstChar("XOAUTH2", "CRAM-MD5");
    AbsentFirstChar("XOAUTH2", "LOGIN");
  }

  /** What the transport answers to one dial. */
  datatype Transport =
    | Refused(err: Error)   // (nil, err)
    | NoConnection         // (nil, nil): a dialer that breaks its contract
    | Connected            // (conn, nil)

  /**
   * The scripted behaviour of one connection attempt: for each step of Dial and
   * each client verb, the error it returns (None is Go's nil). RCPT answers
   * depend on the recipient; EXTENSION answers come from the advertised map.
   */
  datatype Script = Script(
    proxySetup: Option<Error>,
    transport: Transport,
    setDeadline: Option<Error>,
    greeting: Option<Error>,
    clearDeadline: Option<Error>,
    hello: Option<Error>,
    extensions: map<string, string>,
    startTls: Option<Error>,
    auth: Option<Error>,
    mail: Option<Error>,
    refused: map<string, Error>,
    data: Option<Error>,
    write: Option<Error>,
    commit: Option<Error>,
    quit: Option<Error>,
    close: Option<Error>)

  /** The attempt a scripted network has run out of: every dial is refused. */
  const EXHAUSTED: Script := Script(None, Refused(CONNECTION_REFUSED), None, None, None, None,
                                    map[], None, None, None, map[], None, None, None, None, None)

  /** The script for dial number `dials`. */
  function NextScript(attempts: seq<Script>, dials: nat): (a: Script)
    ensures dials >= |attempts| ==> a.transport.Refused?
  {
    if dials < |attempts| then attempts[dials] else EXHAUSTED
  }

  /** One observable step of a session, in the order it happens. */
  datatype Event =
    | DialDirect(address: string, timeoutSeconds: nat)
    | DialSocks5(proxy: string, address: string)
    | TlsWrap(config: TlsConfig)
    | DeadlineSet(seconds: nat)
    | DeadlineCleared
    | ConnClosed
    | ClientGreeted(host: string)
    | Helo(name: string)
    | ExtensionQuery(name: string)
    | StartTlsCmd(config: TlsConfig)
    | AuthCmd(strategy: SmtpAuth)
    | MailFrom(from: string)
    | RcptTo(to: string)
    | DataCmd
    | BodyWritten(body: string)
    | DataClosed
    | QuitCmd
    | ClientClosed

  /** The dial event Dial logs: through the SOCKS5 proxy when one is set, else direct with a timeout. */
  function DialEvent(cfg: DialerConfig): Event
  {
    if cfg.socks5Proxy != "" then DialSocks5(cfg.socks5Proxy, cfg.Address())
    else DialDirect(cfg.Address(), CONNECT_TIMEOUT_SECONDS)
  }

  /**
   * The transport stage of Dial as written: the SOCKS5 branch declares a new
   * `err` with `:=`, so its dial error is assigned to that inner variable and
   * the check after the branch sees the outer, nil one; the nil connection
   * guard then reports a different error.
   */
  function TransportErrorAsWritten(proxy: string, t: Transport): (e: Option<Error>)
    ensures e.None? <==> t.Connected?
    ensures t.NoConnection? ==> e == Some(NIL_CONNECTION)
    ensures proxy == "" && t.Refused? ==> e == Some(t.err)
    // Behind a proxy the dial error never reaches the caller.
    ensures proxy != "" && t.Refused? ==> e == Some(NIL_CONNECTION)
  {
    match t
    case Refused(err) => if proxy != "" then Some(NIL_CONNECTION) else Some(err)
    case NoConnection => Some(NIL_CONNECTION)
    case Connected => None
  }

  /** The transport stage as intended: a dial error comes back unmodified on both paths. */
  function TransportError(proxy: string, t: Transport): (e: Option<Error>)
    ensures t.Refused? ==> e == Some(t.err)
    ensures t.NoConnection? ==> e == Some(NIL_CONNECTION)
    ensures e.None? <==> t.Connected?
  {
    match t
    case Refused(err) => Some(err)
    case NoConnection => Some(NIL_CONNECTION)
    case Connected => None
  }

  /** A refused SOCKS5 dial is reported as a nil connection, hiding the real error. */
  lemma ProxyDialErrorMasked()
    ensures var refused := Refused(CONNECTION_REFUSED);
      && TransportErrorAsWritten("127.0.0.1:9999", refused) == Some(NIL_CONNECTION)
      && TransportError("127.0.0.1:9999", refused) == Some(CONNECTION_REFUSED)
      && CONNECTION_REFUSED != NIL_CONNECTION
  {
  }

  /** Apart from that one case the two rules agree. */
  lemma TransportRulesAgreeElsewhere(proxy: string, t: Transport)
    requires proxy == "" || !t.Refused?
    ensures TransportErrorAsWritten(proxy, t) == TransportError(proxy, t)
  {
  }
}
