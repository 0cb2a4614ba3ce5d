/**
 * smtpSender.Send (smtp.go) as a function: MAIL, one RCPT per recipient,
 * DATA, the body write and the commit, with a redial and a fresh attempt
 * when MAIL fails with io.EOF. The connection attempts the network will
 * answer are a finite script; a redial consumes one.
 */
module SendModel {
  import opened Wrappers
  import opened Smtp
  import opened DialModel

  /** The index of the first refused recipient, or |to| when none is. */
  function FirstRefused(refused: map<string, Error>, to: seq<string>): (k: nat)
    ensures k <= |to|
    ensures forall j :: 0 <= j < k ==> to[j] !in refused
    ensures k < |to| ==> to[k] in refused
  {
    if |to| == 0 then 0
    else if to[0] in refused then 0
    else 1 + FirstRefused(refused, to[1..])
  }

  function RcptEvents(to: seq<string>): (r: seq<Event>)
    ensures |r| == |to|
    ensures forall i :: 0 <= i < |to| ==> r[i] == RcptTo(to[i])
  {
    seq(|to|, i requires 0 <= i < |to| => RcptTo(to[i]))
  }

  /** The RCPT loop: one RCPT per recipient in order, stopping at the first refusal. */
  function Recipients(refused: map<string, Error>, to: seq<string>): (r: Stage)
    ensures var k := FirstRefused(refused, to);
      && (k < |to| ==> r.err == Some(refused[to[k]]) && r.events == RcptEvents(to[..k + 1]))
      && (k == |to| ==> r.err.None? && r.events == RcptEvents(to))
  {
    if |to| == 0 then Stage(None, [])
    else if to[0] in refused then
      assert RcptEvents(to[..1]) == [RcptTo(to[0])];
      Stage(Some(refused[to[0]]), [RcptTo(to[0])])
    else
      var rest := Recipients(refused, to[1..]);
      var k := FirstRefused(refused, to[1..]);
      assert FirstRefused(refused, to) == k + 1;
      assert k < |to| - 1 ==> to[1..][k] == to[k + 1] && [RcptTo(to[0])] + RcptEvents(to[1..][..k + 1]) == RcptEvents(to[..k + 2]);
      assert [RcptTo(to[0])] + RcptEvents(to[1..]) == RcptEvents(to);
      Stage(rest.err, [RcptTo(to[0])] + rest.events)
  }

  /** Everything after an accepted MAIL: the recipients, then DATA, the body and the commit. */
  function TransactionSpec(a: Script, to: seq<string>, body: string): (t: Stage)
    // DATA is opened exactly when every recipient was accepted.
    ensures DataCmd in t.events <==> FirstRefused(a.refused, to) == |to|
    // The first refusal is returned and ends the transaction.
    ensures var k := FirstRefused(a.refused, to);
      k < |to| ==> t.err == Some(a.refused[to[k]]) && t.events == RcptEvents(to[..k + 1])
    // A failed write closes the sink and returns the write error, not the close error.
    ensures FirstRefused(a.refused, to) == |to| && a.data.None? && a.write.Some? ==>
      t.err == a.write && t.events == RcptEvents(to) + [DataCmd, BodyWritten(body), DataClosed]
    // A failed DATA is returned, and nothing is written.
    ensures FirstRefused(a.refused, to) == |to| && a.data.Some? ==>
      t.err == a.data && t.events == RcptEvents(to) + [DataCmd]
    // After a successful write the message is committed and the result is the commit's.
    ensures FirstRefused(a.refused, to) == |to| && a.data.None? && a.write.None? ==>
      t.err == a.commit && t.events == RcptEvents(to) + [DataCmd, BodyWritten(body), DataClosed]
    ensures t.err.None? ==> t.events == RcptEvents(to) + [DataCmd, BodyWritten(body), DataClosed]
  {
    var r := Recipients(a.refused, to);
    if r.err.Some? then r
    else if a.data.Some? then Stage(a.data, r.events + [DataCmd])
    else if a.write.Some? then Stage(a.write, r.events + [DataCmd, BodyWritten(body), DataClosed])
    else Stage(a.commit, r.events + [DataCmd, BodyWritten(body), DataClosed])
  }

  /** A transaction after MAIL issues no further MAIL. */
  lemma TransactionHasNoMail(a: Script, to: seq<string>, body: string)
    ensures forall e :: e in TransactionSpec(a, to, body).events ==> !e.MailFrom?
  {
  }

  /** The result of Send: the error, the events, and the state left behind. */
  datatype SendOutcome = SendOutcome(
    err: Option<Error>,
    events: seq<Event>,
    client: Script,         // the connection the sender holds afterwards
    auth: Option<SmtpAuth>, // d.Auth afterwards
    dials: nat)             // dial attempts consumed so far

  function Remaining(attempts: seq<Script>, dials: nat): nat
  {
    if dials < |attempts| then |attempts| - dials else 0
  }

  /** Send: MAIL, then the transaction on this connection, or the redial on io.EOF. */
  function SendSpec(cfg: DialerConfig, client: Script, attempts: seq<Script>, dials: nat,
                    from: string, to: seq<string>, body: string): (o: SendOutcome)
    ensures |o.events| > 0 && o.events[0] == MailFrom(from)
    ensures o.dials >= dials
    decreases Remaining(attempts, dials), 1
  {
    match client.mail
    case None =>
      var t := TransactionSpec(client, to, body);
      SendOutcome(t.err, [MailFrom(from)] + t.events, client, cfg.auth, dials)
    case Some(err) =>
      if err != Eof then
        SendOutcome(client.mail, [MailFrom(from)], client, cfg.auth, dials)
      else
        var r := RedialSpec(cfg, client, attempts, dials, from, to, body);
        SendOutcome(r.err, [MailFrom(from)] + r.events, r.client, r.auth, r.dials)
  }

  /**
   * After io.EOF from MAIL: one Dial on the next attempt; if it fails the EOF
   * is returned, otherwise the sender takes over the new session and Send
   * starts over on it.
   */
  function RedialSpec(cfg: DialerConfig, client: Script, attempts: seq<Script>, dials: nat,
                      from: string, to: seq<string>, body: string): (o: SendOutcome)
    ensures o.dials >= dials + 1
    decreases Remaining(attempts, dials), 0
  {
    var next := NextScript(attempts, dials);
    var d := DialSpec(cfg, next);
    if d.err.Some? then
      SendOutcome(Some(Eof), d.events, client, d.auth, dials + 1)
    else
      var retry := SendSpec(cfg.(auth := d.auth), next, attempts, dials + 1, from, to, body);
      SendOutcome(retry.err, d.events + retry.events, retry.client, retry.auth, retry.dials)
  }

  /**
   * One level of Send: a MAIL failure other than io.EOF is returned at once
   * with no redial; io.EOF is followed by exactly one Dial, whose failure
   * returns the EOF; an accepted MAIL runs the transaction on this connection.
   */
  lemma SendSteps(cfg: DialerConfig, client: Script, attempts: seq<Script>, dials: nat,
                  from: string, to: seq<string>, body: string)
    ensures var o := SendSpec(cfg, client, attempts, dials, from, to, body);
      && (client.mail.Some? && client.mail != Some(Eof) ==>
            o == SendOutcome(client.mail, [MailFrom(from)], client, cfg.auth, dials))
      && (client.mail == Some(Eof) ==>
            var d := DialSpec(cfg, NextScript(attempts, dials));
            && |o.events| >= 1 + |d.events| && o.events[..1 + |d.events|] == [MailFrom(from)] + d.events
            && o.dials >= dials + 1
            && (d.err.Some? ==> o == SendOutcome(Some(Eof), [MailFrom(from)] + d.events, client, d.auth, dials + 1))
            && (d.err.None? ==>
                  var retry := SendSpec(cfg.(auth := d.auth), NextScript(attempts, dials), attempts, dials + 1, from, to, body);
                  o == SendOutcome(retry.err, [MailFrom(from)] + d.events + retry.events, retry.client, retry.auth, retry.dials)))
      && (client.mail.None? ==>
            var t := TransactionSpec(client, to, body);
            o == SendOutcome(t.err, [MailFrom(from)] + t.events, client, cfg.auth, dials))
  {
    if client.mail == Some(Eof) {
      var d := DialSpec(cfg, NextScript(attempts, dials));
      var r := RedialSpec(cfg, client, attempts, dials, from, to, body);
      if d.err.None? {
        var retry := SendSpec(cfg.(auth := d.auth), NextScript(attempts, dials), attempts, dials + 1, from, to, body);
        assert [MailFrom(from)] + r.events == ([MailFrom(from)] + d.events) + retry.events;
      }
    }
  }

  /**
   * After a successful redial the sender holds the new session and Send
   * returns the retried Send's result: MAIL's own error, or the transaction's.
   */
  lemma RedialTakesOverSession(cfg: DialerConfig, client: Script, attempts: seq<Script>, dials: nat,
                               from: string, to: seq<string>, body: string)
    requires client.mail == Some(Eof)
    requires var next := NextScript(attempts, dials); DialSpec(cfg, next).err.None? && next.mail != Some(Eof)
    ensures var next := NextScript(attempts, dials);
      var d, o := DialSpec(cfg, next), SendSpec(cfg, client, attempts, dials, from, to, body);
      var t := TransactionSpec(next, to, body);
      && o.client == next && o.dials == dials + 1 && o.auth == d.auth
      && o.err == (if next.mail.Some? then next.mail else t.err)
      && o.events == [MailFrom(from)] + d.events + [MailFrom(from)] + (if next.mail.Some? then [] else t.events)
  {
    var next := NextScript(attempts, dials);
    var d := DialSpec(cfg, next);
    SendSteps(cfg, client, attempts, dials, from, to, body);
    SendSteps(cfg.(auth := d.auth), next, attempts, dials + 1, from, to, body);
    var retry := SendSpec(cfg.(auth := d.auth), next, attempts, dials + 1, from, to, body);
    var rest := if next.mail.Some? then [] else TransactionSpec(next, to, body).events;
    assert retry.events == [MailFrom(from)] + rest;
    AppendAssoc([MailFrom(from)] + d.events, [MailFrom(from)], rest);
  }

  /** A successful Send ends with the whole transaction, accepted, on the connection it holds. */
  lemma {:induction false} SuccessEndsWithFullTransaction(
    cfg: DialerConfig, client: Script, attempts: seq<Script>, dials: nat,
    from: string, to: seq<string>, body: string)
    requires SendSpec(cfg, client, attempts, dials, from, to, body).err.None?
    ensures var o := SendSpec(cfg, client, attempts, dials, from, to, body);
      var tail := [MailFrom(from)] + RcptEvents(to) + [DataCmd, BodyWritten(body), DataClosed];
      && |tail| <= |o.events|
      && o.events[|o.events| - |tail|..] == tail
      && o.client.mail.None? && FirstRefused(o.client.refused, to) == |to|
      && o.client.data.None? && o.client.write.None? && o.client.commit.None?
    decreases Remaining(attempts, dials)
  {
    var o := SendSpec(cfg, client, attempts, dials, from, to, body);
    var tail := [MailFrom(from)] + RcptEvents(to) + [DataCmd, BodyWritten(body), DataClosed];
    if client.mail.None? {
      assert o.events == tail;
    } else {
      var next := NextScript(attempts, dials);
      var d := DialSpec(cfg, next);
      var r := RedialSpec(cfg, client, attempts, dials, from, to, body);
      assert client.mail == Some(Eof) && o.events == [MailFrom(from)] + r.events && o.client == r.client;
      assert d.err.None?;
      var cfg' := cfg.(auth := d.auth);
      SuccessEndsWithFullTransaction(cfg', next, attempts, dials + 1, from, to, body);
      var retry := SendSpec(cfg', next, attempts, dials + 1, from, to, body);
      assert r.events == d.events + retry.events && r.client == retry.client;
      AppendAssoc([MailFrom(from)], d.events, retry.events);
    }
  }

  /** The number of MAIL commands in a trace. */
  function MailCount(events: seq<Event>): nat
  {
    if |events| == 0 then 0
    else (if events[0].MailFrom? then 1 else 0) + MailCount(events[1..])
  }

  lemma {:induction false} MailCountAppend(a: seq<Event>, b: seq<Event>)
    ensures MailCount(a + b) == MailCount(a) + MailCount(b)
    decreases |a|
  {
    if |a| == 0 {
      assert a + b == b;
    } else {
      assert (a + b)[1..] == a[1..] + b;
      MailCountAppend(a[1..], b);
    }
  }

  lemma {:induction false} NoMailNoCount(events: seq<Event>)
    requires forall e :: e in events ==> !e.MailFrom?
    ensures MailCount(events) == 0
    decreases |events|
  {
    if |events| > 0 {
      assert events[0] in events;
      NoMailNoCount(events[1..]);
    }
  }

  /**
   * Every MAIL after the first is a retry that consumed exactly one dial, and
   * at most one more dial may have failed at the end; so the number of MAIL
   * commands is bounded by the attempts the network has left.
   */
  lemma {:induction false} OneDialPerRetry(
    cfg: DialerConfig, client: Script, attempts: seq<Script>, dials: nat,
    from: string, to: seq<string>, body: string)
    ensures var o := SendSpec(cfg, client, attempts, dials, from, to, body);
      && MailCount(o.events) - 1 <= o.dials - dials <= MailCount(o.events)
      && MailCount(o.events) <= Remaining(attempts, dials) + 1
      && forall e :: e in o.events && e.MailFrom? ==> e == MailFrom(from)
    decreases Remaining(attempts, dials)
  {
    var o := SendSpec(cfg, client, attempts, dials, from, to, body);
    if client.mail.None? {
      TransactionHasNoMail(client, to, body);
      OneMailThen(from, TransactionSpec(client, to, body).events);
    } else if client.mail != Some(Eof) {
      assert MailCount(o.events) == 1;
    } else {
      var next := NextScript(attempts, dials);
      var d := DialSpec(cfg, next);
      var r := RedialSpec(cfg, client, attempts, dials, from, to, body);
      assert o.events == [MailFrom(from)] + r.events && o.dials == r.dials;
      EventKinds(cfg, next);
      OneMailThen(from, d.events);
      if d.err.None? {
        var cfg' := cfg.(auth := d.auth);
        OneDialPerRetry(cfg', next, attempts, dials + 1, from, to, body);
        var retry := SendSpec(cfg', next, attempts, dials + 1, from, to, body);
        assert r.events == d.events + retry.events;
        MailCountAppend([MailFrom(from)] + d.events, retry.events);
        AppendAssoc([MailFrom(from)], d.events, retry.events);
      }
    }
  }

  /** MAIL followed by events without MAIL: one MAIL, carrying `from`. */
  lemma OneMailThen(from: string, rest: seq<Event>)
    requires forall e :: e in rest ==> !e.MailFrom?
    ensures MailCount([MailFrom(from)] + rest) == 1
    ensures forall e :: e in [MailFrom(from)] + rest && e.MailFrom? ==> e == MailFrom(from)
  {
    NoMailNoCount(rest);
    MailCountAppend([MailFrom(from)], rest);
  }

  /** A dropped connection is recovered: one redial, and the retried transaction succeeds. */
  lemma RedialRecovers(cfg: DialerConfig, client: Script, attempts: seq<Script>, dials: nat,
                       from: string, to: seq<string>, body: string)
    requires client.mail == Some(Eof)
    requires var next := NextScript(attempts, dials);
      && DialSpec(cfg, next).err.None?
      && next.mail.None?
      && TransactionSpec(next, to, body).err.None?
    ensures var o := SendSpec(cfg, client, attempts, dials, from, to, body);
      o.err.None? && o.dials == dials + 1 && o.client == NextScript(attempts, dials)
  {
    var next := NextScript(attempts, dials);
    var d := DialSpec(cfg, next);
    var retry := SendSpec(cfg.(auth := d.auth), next, attempts, dials + 1, from, to, body);
    assert retry.err.None? && retry.dials == dials + 1 && retry.client == next;
    assert RedialSpec(cfg, client, attempts, dials, from, to, body).client == next;
  }

  /** A second io.EOF on the retried MAIL triggers yet another redial: the retry is not capped at one. */
  lemma SecondEofRedialsAgain(cfg: DialerConfig, client: Script, attempts: seq<Script>, dials: nat,
                              from: string, to: seq<string>, body: string)
    requires client.mail == Some(Eof)
    requires var next := NextScript(attempts, dials);
      DialSpec(cfg, next).err.None? && next.mail == Some(Eof)
    ensures SendSpec(cfg, client, attempts, dials, from, to, body).dials >= dials + 2
  {
    var next := NextScript(attempts, dials);
    var d := DialSpec(cfg, next);
    var retry := SendSpec(cfg.(auth := d.auth), next, attempts, dials + 1, from, to, body);
    assert retry.dials == RedialSpec(cfg.(auth := d.auth), next, attempts, dials + 1, from, to, body).dials;
    assert RedialSpec(cfg, client, attempts, dials, from, to, body).dials == retry.dials;
  }
}
