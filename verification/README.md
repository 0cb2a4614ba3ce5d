# gomail SMTP dialer and sender, modelled in Dafny

This project models the SMTP half of gomail (`smtp.go`): the `Dialer` that
connects, secures and authenticates a session, and the `smtpSender` that
runs mail transactions on it.

- **The dialer.** `NewDialer` sets SSL exactly for port 465.
  `SetSocks5Proxy` routes the dial through a SOCKS5 proxy.
- **`Dial`** runs four stages, and a failing stage ends the dial:
  - **transport:** a direct dial with a 10-second timeout, or a dial through the proxy, with the nil-connection guard;
  - **handshake:** the optional implicit-TLS wrap, the 5-second handshake deadline, client construction, and clearing the deadline;
  - **security:** HELO with the local name, then opportunistic STARTTLS;
  - **authentication:** mechanism negotiation, cached in `Dialer.Auth`, then AUTH.
  A failure releases what had been opened so far. The exception is a failed HELO, which returns without closing the client (smtp.go:119-123).
- **`Send`** issues MAIL, one RCPT per recipient, DATA, the body write and the commit.
  When MAIL fails with `io.EOF`, the sender dials again, takes over the new session and starts over.

How it is built:

- The `smtpClient` interface and the transport hooks (`netDialTimeout`, `tlsClient`, `smtpNewClient`, the SOCKS5 dialer) are played by a scripted test double (`Scripted`).
- A `Network` object holds a finite sequence of connection attempts. Each attempt is a `Script` of what every step answers.
- Every call appends an `Event` to a ghost trace.
- `Gomail.Dialer` and `Gomail.Sender` are classes whose methods update the dialer's `Auth`, the sender's session and the network.
- Each method is proved equal to a pure specification: `DialModel.DialSpec` for `Dial` and `SendModel.SendSpec` for `Send`. Both specifications give the error, the event trace and the state left behind.
- The lemmas in `DialModel`, `SendModel` and `Smtp` state the source's promises about those specifications: cleanup on each failure path, STARTTLS and AUTH rules, the redial on `io.EOF`, and `addr` being invertible.

Files:

- `wrappers.dfy`: `Option`.
- `text.dfy`: `strings.Contains` and `%d` formatting.
- `smtp.dfy`: the data model, `NewDialer`, `tlsConfig`, `addr`, mechanism choice and the transport-error rule.
- `dial_model.dfy`, `send_model.dfy`: the specifications and their lemmas.
- `scripted.dfy`: the test double.
- `gomail.dfy`: the classes.

The model follows the code, also where the code and its surrounding documentation disagree (below). It departs from the code in one place: the proxy-dial error under "## Findings", where `Dial` is modelled with the corrected rule (see "## Left out").

- A failed HELO (smtp.go:119-123) returns without closing the client. `DialModel.HelloFailureClosesNothing` states this.
- A second `io.EOF` after a successful redial causes another redial, not an error (smtp.go:189-201). `SendModel.SecondEofRedialsAgain` states this.

## Model

| member | source | states |
|---|---|---|
| Smtp.NewDialerConfig | smtp.go:52-60 | NewDialer keeps host, port, username and password; SSL is on exactly when the port is 465; every other field is zero |
| Gomail.Dialer.constructor | smtp.go:52-60 | a new Dialer's configuration is the NewDialer configuration |
| Gomail.Dialer.SetSocks5Proxy | smtp.go:71-73 | only the proxy address changes |
| Smtp.DialerConfig.Tls | smtp.go:161-166 | the caller's TLS configuration when set; otherwise one that verifies the server name Host |
| Smtp.AddrRoundTrip | smtp.go:168-170 | "host:port" splits back at its last ':' into the same host (even one containing ':') and port |
| Smtp.AddrInjective | smtp.go:168-170 | two dialers dial the same address only when host and port agree |
| Text.FormatIntRoundTrip | smtp.go:169 | the %d rendering of the port parses back to the port, negatives included |
| Text.Contains | smtp.go:136-139 | the substring test is true exactly when the needle occurs at some index |
| Smtp.NegotiateAuth | smtp.go:134-149 | CRAM-MD5 exactly when advertised; otherwise LOGIN exactly when LOGIN is listed and PLAIN is not; PLAIN otherwise; strategies carry the dialer's credentials and host |
| Smtp.CramMd5Wins | smtp.go:136-137 | a list ending in " CRAM-MD5" gets CRAM-MD5, whatever precedes it (the general rule is NegotiateAuth's contract) |
| Smtp.PlainBeatsLogin | smtp.go:138-146 | example: the list "LOGIN PLAIN" gets PLAIN, not LOGIN |
| Smtp.LoginAlone | smtp.go:138-144 | example: the list "LOGIN" gets LOGIN with the dialer's credentials and host |
| Smtp.UnknownMechanismFallsBackToPlain | smtp.go:145-146 | example: the list "XOAUTH2", which names no known mechanism, still gets PLAIN |
| Smtp.TransportError | smtp.go:81-95 | the transport's error is returned unmodified; a nil connection without error gives "dial failed: connection is nil"; no error exactly for a connection |
| Smtp.TransportErrorAsWritten | smtp.go:81-95 | as written: no error exactly for a connection; without a proxy a dial error comes back unmodified; behind a proxy a refused dial, like a nil connection, is reported as "dial failed: connection is nil" |
| Smtp.ProxyDialErrorMasked | smtp.go:82-94 | as written, a refused SOCKS5 dial is reported as a nil connection instead of its own error |
| Smtp.TransportRulesAgreeElsewhere | smtp.go:81-95 | without a proxy, or without a dial error, the written and the intended rules agree |
| DialModel.OpenSpec | smtp.go:81-95 | the transport stage hands over a connection exactly when the proxy set-up did not fail and the dial produced a connection |
| DialModel.DialSpec | smtp.go:77-159 | a successful dial got a connection; without a connection at most the dial event happens and an error is returned; Auth changes only by negotiation (no preset Auth, a username, AUTH advertised), and a preset Auth is never replaced |
| DialModel.EventKinds | smtp.go:77-159 | the security stage causes only HELO, the STARTTLS query and command, and the client's close; authentication only the AUTH query, AUTH and the close; a dial never issues MAIL, RCPT, DATA or QUIT |
| DialModel.TransportEventKinds | smtp.go:81-117 | the transport and handshake stages only dial, wrap, set deadlines, build the client and close |
| DialModel.InDial | smtp.go:77-159 | every event of a dial comes from a stage that was reached, and every event of a reached stage is in the dial |
| DialModel.DialPrefix | smtp.go:81-117 | a dial that gets a connection starts with the dial event followed by the handshake's events |
| DialModel.ProxySetupFailure | smtp.go:81-85 | a proxy that cannot be set up returns its error and dials nothing |
| DialModel.TransportFailure | smtp.go:86-95 | a dial error is returned as is (on the proxy path this is the corrected rule); a nil connection returns "dial failed: connection is nil"; nothing else happens |
| DialModel.DeadlineFailureClosesConnection | smtp.go:101-105 | a failure to arm the 5-second deadline closes the raw connection |
| DialModel.GreetingFailureClosesConnection | smtp.go:107-111 | a failure to build the client closes the raw connection |
| DialModel.ClearDeadlineFailureClosesClient | smtp.go:113-117 | a failure to clear the deadline closes the client |
| DialModel.HelloFailureClosesNothing | smtp.go:119-123 | a HELO failure returns its error and closes nothing |
| DialModel.HandshakeOutcome | smtp.go:97-117 | the handshake fails exactly when arming the deadline, reading the greeting or clearing the deadline fails; before the client exists a failure ends by closing the connection, afterwards by closing the client |
| DialModel.SecureOutcome | smtp.go:119-132 | the security stage fails exactly on a failed HELO (when a local name is set) or a failed STARTTLS (without SSL, when advertised); a failed HELO returns its error after HELO alone, a failed STARTTLS returns its error and ends by closing the client |
| DialModel.AuthenticateOutcome | smtp.go:134-156 | a preset Auth is kept; a new one only comes from negotiation with AUTH advertised; AUTH fails exactly when a strategy is held and the server rejects it, and then returns that error and ends by closing the client |
| DialModel.HandshakeSucceeds | smtp.go:97-117 | a successful handshake is the dial, the optional TLS wrap, the deadline, the greeting and the cleared deadline, and closes nothing |
| DialModel.ImplicitTlsSkipsStartTls | smtp.go:97-99 | with SSL the connection is wrapped right after the dial, and STARTTLS is neither queried nor issued |
| DialModel.StartTlsWhenAdvertised | smtp.go:125-132 | STARTTLS goes out, with the dialer's TLS configuration, exactly when SSL is off, the query was made and the server advertises it |
| DialModel.StartTlsQueriedWithoutSsl | smtp.go:125-132 | without SSL, a dial past the handshake and HELO asks for STARTTLS, and issues it when the server advertises it |
| DialModel.StartTlsFailureClosesClient | smtp.go:125-130 | when the dial reaches STARTTLS without SSL and the server advertises it, STARTTLS is issued, and its failure closes the client and returns its error |
| DialModel.AuthIsNegotiatedOnce | smtp.go:134-149 | negotiation (the AUTH query) runs if and only if the dial gets that far without a preset Auth and with a username; its choice is cached in Auth; a preset Auth is never replaced |
| DialModel.AuthFailureClosesClient | smtp.go:151-156 | AUTH uses the cached strategy; its failure closes the client and returns its error |
| DialModel.SuccessClosesNothing | smtp.go:97-158 | a successful dial closes neither the connection nor the client |
| DialModel.SuccessAuthenticates | smtp.go:151-158 | a successful dial issued AUTH with the strategy it holds, and no AUTH at all when it holds none |
| DialModel.DialSuccess | smtp.go:77-158 | a successful dial got a connection; Auth is the negotiated strategy when negotiation ran and AUTH was advertised, the preset one otherwise; its whole trace is the handshake, HELO when a local name is set, the STARTTLS query and (when advertised) STARTTLS unless SSL, the AUTH query when negotiating, and AUTH exactly when it holds a strategy |
| Gomail.Dialer.Dial | smtp.go:77-159 | the returned error, the new Auth and the events equal DialSpec of the dialer and the next attempt; one attempt is consumed; a sender sharing this dialer is returned exactly on success |
| Gomail.Dialer.Open | smtp.go:81-95 | the error and events equal OpenSpec's; a fresh plain connection is returned exactly on success |
| Gomail.Dialer.Handshake | smtp.go:97-117 | the error and events equal HandshakeSpec's; a fresh client is returned exactly on success |
| Gomail.Dialer.Secure | smtp.go:119-132 | the error and events equal SecureSpec's |
| Gomail.Dialer.Authenticate | smtp.go:134-156 | the error, the new Auth and the events equal AuthenticateSpec's |
| SendModel.FirstRefused | smtp.go:204-208 | the index of the first refused recipient: all earlier ones are accepted |
| SendModel.Recipients | smtp.go:204-208 | one RCPT per recipient in order, stopping at and returning the first refusal |
| SendModel.TransactionSpec | smtp.go:204-220 | DATA is opened exactly when every recipient was accepted; the first refusal is returned; a failed DATA is returned with nothing written; a failed write returns the write error after closing; otherwise the message is committed and the commit's result is returned |
| SendModel.TransactionHasNoMail | smtp.go:204-220 | the transaction after MAIL issues no further MAIL |
| SendModel.SendSpec | smtp.go:189-202 | Send always starts with MAIL from the sender and never gives back dial attempts |
| SendModel.RedialSpec | smtp.go:191-199 | the redial after io.EOF consumes at least one attempt |
| SendModel.SendSteps | smtp.go:189-202 | a non-EOF MAIL error is returned at once; io.EOF is followed by exactly one Dial, whose failure returns the EOF; an accepted MAIL runs the transaction on the same session; after a successful redial the sender holds the retried Send's session and Send returns the retried Send's result, error, Auth and attempts |
| SendModel.RedialTakesOverSession | smtp.go:189-197 | after io.EOF and a successful redial whose MAIL does not meet io.EOF again, the sender holds the new session, Auth is the redial's, one attempt was used, and the error is the new MAIL's or else the transaction's; the trace is MAIL, the dial, MAIL again and the transaction |
| SendModel.SuccessEndsWithFullTransaction | smtp.go:189-220 | a successful Send ends with MAIL, every RCPT, DATA, the body and the commit, on a session that accepted all of them |
| SendModel.OneDialPerRetry | smtp.go:189-202 | every MAIL after the first is preceded by exactly one dial; all MAILs carry the same sender; retries are bounded by the attempts left |
| SendModel.RedialRecovers | smtp.go:191-197 | a dropped session is recovered by one redial, and the retried transaction runs on the new session |
| SendModel.SecondEofRedialsAgain | smtp.go:193-197 | an io.EOF on the retried MAIL triggers another redial |
| Gomail.Sender.constructor | smtp.go:184-187 | a sender holds the client and the dialer it was built from |
| Gomail.Sender.Send | smtp.go:189-202 | the error, the events, the new Auth, the attempts used and the session held afterwards equal SendSpec's |
| Gomail.Sender.Redial | smtp.go:191-201 | the same, equal to RedialSpec's |
| Gomail.Sender.Transact | smtp.go:204-220 | the error and events equal TransactionSpec's |
| Gomail.Sender.Close | smtp.go:223-225 | QUIT is sent and its result returned |
| Scripted.DialTimeout | smtp.go:229 | the direct dial is logged with its address and timeout and answers as the attempt says |
| Scripted.ProxyDial | smtp.go:86 | the dial through the proxy is logged and answers as the attempt says |
| Scripted.TlsClient | smtp.go:230 | wrapping yields a fresh TLS connection to the same attempt |
| Scripted.NewClient | smtp.go:231-233 | client construction reads the greeting; a client exactly when it succeeds |
| Scripted.Conn.SetDeadline | smtp.go:102 | arming the deadline is logged and answers as scripted |
| Scripted.Conn.ClearDeadline | smtp.go:114 | clearing the deadline is logged and answers as scripted |
| Scripted.Conn.Close | smtp.go:103 | closing the raw connection is logged |
| Scripted.Client.Hello | smtp.go:237 | HELO is logged and answers as scripted |
| Scripted.Client.Extension | smtp.go:238 | true exactly for an advertised extension, with its parameter string |
| Scripted.Client.StartTls | smtp.go:239 | STARTTLS is logged with its configuration and answers as scripted |
| Scripted.Client.Auth | smtp.go:240 | AUTH is logged with its strategy and answers as scripted |
| Scripted.Client.Mail | smtp.go:241 | MAIL is logged and answers as scripted |
| Scripted.Client.Rcpt | smtp.go:242 | RCPT is refused exactly for the recipients the session refuses |
| Scripted.Client.Data | smtp.go:243 | DATA yields a writer exactly when it succeeds |
| Scripted.Client.Quit | smtp.go:244 | QUIT is logged and answers as scripted |
| Scripted.Client.Close | smtp.go:245 | closing the client is logged and answers as scripted |
| Scripted.Sink.Write | smtp.go:215 | the body is written into the DATA writer |
| Scripted.Sink.Close | smtp.go:216-220 | closing the DATA writer commits the message and returns the commit's result |

## Left out

- Smtp.Addr: carries no contract of its own; what `addr` promises (the address splits back into the same host and port) is stated by Smtp.AddrRoundTrip and Smtp.AddrInjective.
- Scripted.Client: a session's answers are fixed per command (its script is a constant), so repeated calls on one session answer alike. A single Send is not affected, because SendSpec takes the session's script for that call. Not modelled: an io.EOF on MAIL in a later Send over a session whose earlier MAIL succeeded, and different answers to a recipient repeated within one transaction.
- DialModel.OpenSpec: on the proxy path it returns the SOCKS5 dial's own error. This is the corrected rule (Smtp.TransportError), not the code as written, which reports "dial failed: connection is nil" (see "## Findings"). The as-written rule is Smtp.TransportErrorAsWritten.
- DialModel.DialSpec: inherits the corrected proxy-error rule from OpenSpec.
- DialModel.TransportFailure: states the corrected proxy-error rule. As written, a refused SOCKS5 dial yields "dial failed: connection is nil" (Smtp.ProxyDialErrorMasked).
- Gomail.Dialer.Open: checks the error ProxyDial returns; the code as written checks the outer, shadowed `err` instead.
- Gomail.Dialer.Dial: proved equal to DialSpec, so it carries the corrected proxy-error rule.
- Real sockets, TLS handshakes, the SOCKS5 protocol, deadlines and clocks. They are scripted answers: each connection attempt is a `Script` of what every step returns.
- The `net/smtp` client internals (the command syntax, reply codes, the CRAM-MD5/LOGIN/PLAIN exchanges). `smtpClient` is played by `Scripted.Client`, and `loginAuth` is a tag carrying its credentials.
- The Extension answers are fixed per session. The real client re-reads the server's extensions after STARTTLS.
- A transport that returns a connection together with an error: a `Transport` is either an error, no connection, or a connection. With a proxy, the code as written would carry on with such a connection.
- The type assertion at smtp.go:195 always succeeds, because Dial only returns `*smtpSender`.
- The message itself (`io.WriterTo`) is an opaque body string. Message, MIME encoding, the package-level `Send` and `DialAndSend` are not part of this model.
- `NewPlainDialer` (smtp.go:66-68) only calls `NewDialer`.
- `SkipUsernameCheck` is carried in the configuration, but smtp.go does not read it.
- Gomail.Sender.Send: the redial recursion is bounded by the finite list of scripted attempts. Once it is used up, every dial is refused, so an endless sequence of dropped sessions is not modelled.
- Aliasing of the `smtpSender` value that `*c = *s` overwrites: the model updates the sender's two fields in place.

## Findings

| source | as written | input that shows it | evidently intended | confidence | as-written member | corrected member |
|---|---|---|---|---|---|---|
| smtp.go:82-91 | `dialSocksProxy, err :=` declares a new `err` inside the proxy branch. The SOCKS5 dial's error is assigned to that inner variable, the check at line 90 reads the outer, nil one, and the nil-connection guard answers instead | proxy "127.0.0.1:9999" whose dial is refused with "connection refused": Dial returns "dial failed: connection is nil" | the dial error is returned unmodified, as on the direct path (smtp_proxy_test.go:99-107 expects this there) | high; not executed | Smtp.ProxyDialErrorMasked | Smtp.TransportError |
