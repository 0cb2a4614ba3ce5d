/**
 * The smtpClient interface (smtp.go) and the transport primitives Dial uses
 * (the netDialTimeout, tlsClient and smtpNewClient hooks and the SOCKS5
 * dialer), played back from a script. Every call appends what it did to the
 * network's ghost trace; the answers come from the Script of the current
 * connection attempt.
 */
module Scripted {
  import opened Wrappers
  import opened Smtp

  /** The network: the scripted attempts, how many have been used, and the trace. */
  class Network {
    const attempts: seq<Script>
    var dials: nat
    ghost var trace: seq<Event>

    constructor (attempts: seq<Script>)
      ensures this.attempts == attempts && dials == 0 && trace == []
    {
      this.attempts := attempts;
      dials := 0;
      trace := [];
    }

    /** The script the next dial will play. */
    function Upcoming(): Script
      reads this`dials
    {
      NextScript(attempts, dials)
    }

    /** Starts a connection attempt: hands out its script. */
    method Take() returns (a: Script)
      modifies this`dials
      ensures a == old(Upcoming()) && dials == old(dials) + 1
    {
      a := NextScript(attempts, dials);
      dials := dials + 1;
    }
  }

  /** A net.Conn, possibly wrapped in TLS. */
  class Conn {
    const net: Network
    const script: Script
    const tls: bool

    constructor (net: Network, script: Script, tls: bool)
      ensures this.net == net && this.script == script && this.tls == tls
    {
      this.net := net;
      this.script := script;
      this.tls := tls;
    }

    method SetDeadline(seconds: nat) returns (err: Option<Error>)
      modifies net`trace
      ensures err == script.setDeadline
      ensures net.trace == old(net.trace) + [DeadlineSet(seconds)]
    {
      err := script.setDeadline;
      net.trace := net.trace + [DeadlineSet(seconds)];
    }

    /** SetDeadline(time.Time{}): removes the deadline. */
    method ClearDeadline() returns (err: Option<Error>)
      modifies net`trace
      ensures err == script.clearDeadline
      ensures net.trace == old(net.trace) + [DeadlineCleared]
    {
      err := script.clearDeadline;
      net.trace := net.trace + [DeadlineCleared];
    }

    method Close()
      modifies net`trace
      ensures net.trace == old(net.trace) + [ConnClosed]
    {
      net.trace := net.trace + [ConnClosed];
    }
  }

  /** The transport answer as a Go (conn, err) pair. */
  method Connection(net: Network, a: Script) returns (conn: Conn?, err: Option<Error>)
    ensures a.transport.Refused? ==> conn == null && err == Some(a.transport.err)
    ensures a.transport.NoConnection? ==> conn == null && err.None?
    ensures a.transport.Connected? ==> conn != null && fresh(conn) && err.None?
    ensures conn != null ==> conn.net == net && conn.script == a && !conn.tls
  {
    match a.transport
    case Refused(e) =>
      conn, err := null, Some(e);
    case NoConnection =>
      conn, err := null, None;
    case Connected =>
      conn := new Conn(net, a, false);
      err := None;
  }

  /** netDialTimeout("tcp", address, timeout). */
  method DialTimeout(net: Network, a: Script, address: string, timeoutSeconds: nat)
    returns (conn: Conn?, err: Option<Error>)
    modifies net`trace
    ensures net.trace == old(net.trace) + [DialDirect(address, timeoutSeconds)]
    ensures a.transport.Refused? ==> conn == null && err == Some(a.transport.err)
    ensures a.transport.NoConnection? ==> conn == null && err.None?
    ensures a.transport.Connected? ==> conn != null && fresh(conn) && err.None?
    ensures conn != null ==> conn.net == net && conn.script == a && !conn.tls
  {
    net.trace := net.trace + [DialDirect(address, timeoutSeconds)];
    conn, err := Connection(net, a);
  }

  /** The SOCKS5 dialer's Dial("tcp", address) through `proxy`. */
  method ProxyDial(net: Network, a: Script, proxy: string, address: string)
    returns (conn: Conn?, err: Option<Error>)
    modifies net`trace
    ensures net.trace == old(net.trace) + [Smtp.DialSocks5(proxy, address)]
    ensures a.transport.Refused? ==> conn == null && err == Some(a.transport.err)
    ensures a.transport.NoConnection? ==> conn == null && err.None?
    ensures a.transport.Connected? ==> conn != null && fresh(conn) && err.None?
    ensures conn != null ==> conn.net == net && conn.script == a && !conn.tls
  {
    net.trace := net.trace + [Smtp.DialSocks5(proxy, address)];
    conn, err := Connection(net, a);
  }

  /** tlsClient(conn, config): the handshake itself happens on first use. */
  method TlsClient(conn: Conn, config: TlsConfig) returns (wrapped: Conn)
    modifies conn.net`trace
    ensures fresh(wrapped) && wrapped.tls
    ensures wrapped.net == conn.net && wrapped.script == conn.script
    ensures conn.net.trace == old(conn.net.trace) + [TlsWrap(config)]
  {
    conn.net.trace := conn.net.trace + [TlsWrap(config)];
    wrapped := new Conn(conn.net, conn.script, true);
  }

  /** smtpNewClient(conn, host): builds the client, reading the server's greeting. */
  method NewClient(conn: Conn, host: string) returns (c: Client?, err: Option<Error>)
    modifies conn.net`trace
    ensures conn.net.trace == old(conn.net.trace) + [ClientGreeted(host)]
    ensures err == conn.script.greeting
    ensures c == null <==> err.Some?
    ensures c != null ==> fresh(c) && c.net == conn.net && c.script == conn.script
  {
    conn.net.trace := conn.net.trace + [ClientGreeted(host)];
    err := conn.script.greeting;
    if err.Some? {
      c := null;
    } else {
      c := new Client(conn.net, conn.script);
    }
  }

  /** The io.WriteCloser that Data returns. */
  class Sink {
    const net: Network
    const script: Script

    constructor (net: Network, script: Script)
      ensures this.net == net && this.script == script
    {
      this.net := net;
      this.script := script;
    }

    /** msg.WriteTo(w): the serialized message goes into the sink. */
    method Write(body: string) returns (err: Option<Error>)
      modifies net`trace
      ensures err == script.write
      ensures net.trace == old(net.trace) + [BodyWritten(body)]
    {
      err := script.write;
      net.trace := net.trace + [BodyWritten(body)];
    }

    /** Ends the DATA section, committing the message. */
    method Close() returns (err: Option<Error>)
      modifies net`trace
      ensures err == script.commit
      ensures net.trace == old(net.trace) + [DataClosed]
    {
      err := script.commit;
      net.trace := net.trace + [DataClosed];
    }
  }

  /** The smtpClient interface: each verb answers from the script and is logged. */
  class Client {
    const net: Network
    const script: Script

    constructor (net: Network, script: Script)
      ensures this.net == net && this.script == script
    {
      this.net := net;
      this.script := script;
    }

    method Hello(localName: string) returns (err: Option<Error>)
      modifies net`trace
      ensures err == script.hello
      ensures net.trace == old(net.trace) + [Helo(localName)]
    {
      err := script.hello;
      net.trace := net.trace + [Helo(localName)];
    }

    /** Whether the server advertised `name`, and the extension's parameter string. */
    method Extension(name: string) returns (ok: bool, param: string)
      modifies net`trace
      ensures ok <==> name in script.extensions
      ensures ok ==> param == script.extensions[name]
      ensures net.trace == old(net.trace) + [ExtensionQuery(name)]
    {
      ok := name in script.extensions;
      param := if ok then script.extensions[name] else "";
      net.trace := net.trace + [ExtensionQuery(name)];
    }

    method StartTls(config: TlsConfig) returns (err: Option<Error>)
      modifies net`trace
      ensures err == script.startTls
      ensures net.trace == old(net.trace) + [StartTlsCmd(config)]
    {
      err := script.startTls;
      net.trace := net.trace + [StartTlsCmd(config)];
    }

    method Auth(strategy: SmtpAuth) returns (err: Option<Error>)
      modifies net`trace
      ensures err == script.auth
      ensures net.trace == old(net.trace) + [AuthCmd(strategy)]
    {
      err := script.auth;
      net.trace := net.trace + [AuthCmd(strategy)];
    }

    method Mail(from: string) returns (err: Option<Error>)
      modifies net`trace
      ensures err == script.mail
      ensures net.trace == old(net.trace) + [MailFrom(from)]
    {
      err := script.mail;
      net.trace := net.trace + [MailFrom(from)];
    }

    method Rcpt(to: string) returns (err: Option<Error>)
      modifies net`trace
      ensures err == (if to in script.refused then Some(script.refused[to]) else None)
      ensures net.trace == old(net.trace) + [RcptTo(to)]
    {
      err := if to in script.refused then Some(script.refused[to]) else None;
      net.trace := net.trace + [RcptTo(to)];
    }

    method Data() returns (w: Sink?, err: Option<Error>)
      modifies net`trace
      ensures err == script.data
      ensures w == null <==> err.Some?
      ensures w != null ==> fresh(w) && w.net == net && w.script == script
      ensures net.trace == old(net.trace) + [DataCmd]
    {
      err := script.data;
      net.trace := net.trace + [DataCmd];
      if err.Some? {
        w := null;
      } else {
        w := new Sink(net, script);
      }
    }

    method Quit() returns (err: Option<Error>)
      modifies net`trace
      ensures err == script.quit
      ensures net.trace == old(net.trace) + [QuitCmd]
    {
      err := script.quit;
      net.trace := net.trace + [QuitCmd];
    }

    method Close() returns (err: Option<Error>)
      modifies net`trace
      ensures err == script.close
      ensures net.trace == old(net.trace) + [ClientClosed]
    {
      err := script.close;
      net.trace := net.trace + [ClientClosed];
    }
  }
}
