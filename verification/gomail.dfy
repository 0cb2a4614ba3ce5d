/**
 * The Dialer and the session it returns (smtpSender), as in smtp.go. Dial
 * and Send are proved to behave as DialModel.DialSpec and
 * SendModel.SendSpec say, on the scripted network.
 */
module Gomail {
  import opened Wrappers
  import opened Smtp
  import opened DialModel
  import opened SendModel
  import opened Scripted

  class Dialer {
    var host: string
    var port: int
    var username: string
    var password: string
    var auth: Option<SmtpAuth>
    var ssl: bool
    var tlsConfig: Option<TlsConfig>
    var localName: string
    var skipUsernameCheck: bool
    var socks5Proxy: string

    function Config(): DialerConfig
      reads this
    {
      DialerConfig(host, port, username, password, auth, ssl, tlsConfig, localName, skipUsernameCheck, socks5Proxy)
    }

    /** NewDialer. */
    constructor (host: string, port: int, username: string, password: string)
      ensures Config() == NewDialerConfig(host, port, username, password)
    {
      this.host := host;
      this.port := port;
      this.username := username;
      this.password := password;
      auth := None;
      ssl := port == IMPLICIT_TLS_PORT;
      tlsConfig := None;
      localName := "";
      skipUsernameCheck := false;
      socks5Proxy := "";
    }

    method SetSocks5Proxy(proxy: string)
      modifies this`socks5Proxy
      ensures Config() == old(Config()).(socks5Proxy := proxy)
    {
      socks5Proxy := proxy;
    }

    /**
     * Dials the next connection attempt of `net`, secures and authenticates
     * it, and on success returns a sender holding the client and this dialer.
     */
    method Dial(net: Network) returns (s: Sender?, err: Option<Error>)
      modifies this`auth, net
      ensures var o := DialSpec(old(Config()), old(net.Upcoming()));
        && err == o.err
        && Config() == old(Config()).(auth := o.auth)
        && net.trace == old(net.trace) + o.events
        && net.dials == old(net.dials) + 1
      ensures s == null <==> err.Some?
      ensures s != null ==>
        fresh(s) && s.d == this && s.client.net == net && s.client.script == old(net.Upcoming())
    {
      ghost var cfg, trace0 := Config(), net.trace;
      var a := net.Take();
      var conn: Conn?;
      conn, err := Open(net, a);
      ghost var c := OpenSpec(cfg, a);
      if err.Some? {
        return null, err;
      }
      var client: Client?;
      client, err := Handshake(conn);
      ghost var h := HandshakeSpec(cfg, a);
      AppendAssoc(trace0, c.events, h.events);
      if err.Some? {
        return null, err;
      }
      err := Secure(client);
      ghost var st := SecureSpec(cfg, a);
      AppendAssoc(trace0, c.events + h.events, st.events);
      if err.Some? {
        return null, err;
      }
      err := Authenticate(client);
      ghost var t := AuthenticateSpec(cfg, a);
      AppendAssoc(trace0, c.events + h.events + st.events, t.events);
      if err.Some? {
        return null, err;
      }
      s := new Sender(client, this);
    }

    /**
     * The transport, through the SOCKS5 proxy when one is set, with the
     * connect timeout otherwise; a nil connection is an error.
     */
    method Open(net: Network, a: Script) returns (conn: Conn?, err: Option<Error>)
      modifies net`trace
      ensures var st := OpenSpec(Config(), a);
        err == st.err && net.trace == old(net.trace) + st.events
      ensures conn == null <==> err.Some?
      ensures conn != null ==> fresh(conn) && conn.net == net && conn.script == a && !conn.tls
    {
      var address := Addr(host, port);
      if socks5Proxy != "" {
        if a.proxySetup.Some? {
          return null, a.proxySetup;
        }
        conn, err := ProxyDial(net, a, socks5Proxy, address);
      } else {
        conn, err := DialTimeout(net, a, address, CONNECT_TIMEOUT_SECONDS);
      }
      if err.Some? {
        return null, err;
      }
      if conn == null {
        return null, Some(NIL_CONNECTION);
      }
    }

    /**
     * The optional implicit-TLS wrap, the handshake deadline, the client and
     * clearing the deadline; each failure releases what was opened so far.
     */
    method Handshake(conn: Conn) returns (client: Client?, err: Option<Error>)
      modifies conn.net`trace
      ensures var st := HandshakeSpec(Config(), conn.script);
        err == st.err && conn.net.trace == old(conn.net.trace) + st.events
      ensures client == null <==> err.Some?
      ensures client != null ==> fresh(client) && client.net == conn.net && client.script == conn.script
    {
      var c := conn;
      if ssl {
        c := TlsClient(c, Config().Tls());
      }
      err := c.SetDeadline(HANDSHAKE_TIMEOUT_SECONDS);
      if err.Some? {
        c.Close();
        return null, err;
      }
      client, err := NewClient(c, host);
      if err.Some? {
        c.Close();
        return null, err;
      }
      err := c.ClearDeadline();
      if err.Some? {
        var _ := client.Close();
        return null, err;
      }
    }

    /** HELO when a local name is set; opportunistic STARTTLS unless SSL. */
    method Secure(client: Client) returns (err: Option<Error>)
      modifies client.net`trace
      ensures var st := SecureSpec(Config(), client.script);
        err == st.err && client.net.trace == old(client.net.trace) + st.events
    {
      if localName != "" {
        err := client.Hello(localName);
        if err.Some? {
          return;
        }
      }
      if !ssl {
        var ok, _ := client.Extension("STARTTLS");
        if ok {
          err := client.StartTls(Config().Tls());
          if err.Some? {
            var _ := client.Close();
            return;
          }
        }
      }
      err := None;
    }

    /** Negotiates a mechanism into d.Auth when none is set, then authenticates with it. */
    method Authenticate(client: Client) returns (err: Option<Error>)
      modifies this`auth, client.net`trace
      ensures var o := AuthenticateSpec(old(Config()), client.script);
        && err == o.err && auth == o.auth
        && client.net.trace == old(client.net.trace) + o.events
    {
      if auth.None? && username != "" {
        var ok, auths := client.Extension("AUTH");
        if ok {
          auth := Some(NegotiateAuth(auths, username, password, host));
        }
      }
      if auth.Some? {
        err := client.Auth(auth.value);
        if err.Some? {
          var _ := client.Close();
          return;
        }
      }
      err := None;
    }
  }

  /** smtpSender: an authenticated client and the dialer that made it. */
  class Sender {
    var client: Client
    var d: Dialer

    constructor (client: Client, d: Dialer)
      ensures this.client == client && this.d == d
    {
      this.client := client;
      this.d := d;
    }

    /**
     * One mail transaction: MAIL, then the rest on this connection, or a
     * redial when MAIL fails with io.EOF.
     */
    method Send(from: string, to: seq<string>, body: string) returns (err: Option<Error>)
      modifies this, d`auth, client.net
      ensures var o := SendSpec(old(d.Config()), old(client.script), client.net.attempts, old(client.net.dials),
                                from, to, body);
        && err == o.err
        && d == old(d) && d.Config() == old(d.Config()).(auth := o.auth)
        && client.net == old(client.net)
        && client.net.trace == old(client.net.trace) + o.events
        && client.net.dials == o.dials
        && client.script == o.client
      decreases Remaining(client.net.attempts, client.net.dials), 1
    {
      ghost var net, trace0 := client.net, client.net.trace;
      ghost var cfg, script, dials := d.Config(), client.script, net.dials;
      err := client.Mail(from);
      if err.None? {
        err := Transact(to, body);
        AppendAssoc(trace0, [MailFrom(from)], TransactionSpec(script, to, body).events);
      } else if err == Some(Eof) {
        // Probably an idle timeout on the server: reconnect and try again.
        err := Redial(from, to, body);
        AppendAssoc(trace0, [MailFrom(from)], RedialSpec(cfg, script, net.attempts, dials, from, to, body).events);
      }
    }

    /**
     * MAIL has just failed with io.EOF: dial again; on success take over the
     * new session and send on it, otherwise return the EOF.
     */
    method Redial(from: string, to: seq<string>, body: string) returns (err: Option<Error>)
      modifies this, d`auth, client.net
      ensures var o := RedialSpec(old(d.Config()), old(client.script), client.net.attempts, old(client.net.dials),
                                  from, to, body);
        && err == o.err
        && d == old(d) && d.Config() == old(d.Config()).(auth := o.auth)
        && client.net == old(client.net)
        && client.net.trace == old(client.net.trace) + o.events
        && client.net.dials == o.dials
        && client.script == o.client
      decreases Remaining(client.net.attempts, client.net.dials), 0
    {
      var net: Network := client.net;
      ghost var cfg, dials, trace0 := d.Config(), net.dials, net.trace;
      ghost var next := net.Upcoming();
      ghost var o := DialSpec(cfg, next);
      var sc, derr := d.Dial(net);
      if derr.Some? {
        return Some(Eof);
      }
      assert Reachable(cfg, next);
      client, d := sc.client, sc.d;
      err := Send(from, to, body);
      ghost var retry := SendSpec(cfg.(auth := o.auth), next, net.attempts, dials + 1, from, to, body);
      AppendAssoc(trace0, o.events, retry.events);
    }

    /** The recipients, DATA, the body and the commit, after MAIL was accepted. */
    method Transact(to: seq<string>, body: string) returns (err: Option<Error>)
      modifies client.net`trace
      ensures var t := TransactionSpec(client.script, to, body);
        err == t.err && client.net.trace == old(client.net.trace) + t.events
    {
      var net: Network := client.net;
      ghost var trace0 := net.trace;
      var i := 0;
      while i < |to|
        invariant 0 <= i <= |to|
        invariant forall j :: 0 <= j < i ==> to[j] !in client.script.refused
        invariant net.trace == trace0 + RcptEvents(to[..i])
        modifies net`trace
      {
        err := client.Rcpt(to[i]);
        assert to[..i + 1] == to[..i] + [to[i]];
        if err.Some? {
          assert FirstRefused(client.script.refused, to) == i;
          return;
        }
        i := i + 1;
      }
      assert to[..i] == to;
      var w: Sink?;
      w, err := client.Data();
      if err.Some? {
        return;
      }
      err := w.Write(body);
      if err.Some? {
        var _ := w.Close();
        return;
      }
      err := w.Close();
    }

    /** Ends the session with QUIT and returns its result. */
    method Close() returns (err: Option<Error>)
      modifies client.net`trace
      ensures err == client.script.quit
      ensures client.net.trace == old(client.net.trace) + [QuitCmd]
    {
      err := client.Quit();
    }
  }
}
