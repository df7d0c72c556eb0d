/** The delivery hook `dosend`: in relay mode the host's SMTP send does the work; in web mode the raw
    message goes to the provider's `messages/send-raw` endpoint and the first recipient's status decides
    the outcome, with a purge of the reject list and a resend after a soft bounce. */
module Dispatch {
  import opened Php
  import opened Host
  import Transport

  /** The timeout, in seconds, of the `messages/send-raw` call; the plugin's other calls use the
      default of `do_call`. */
  const SendTimeout := 120

  /** One recipient's entry in the provider's answer to `messages/send-raw`; a missing reason reads as "". */
  datatype Recipient = Recipient(status: string, rejectReason: string)

  /** The provider's answers for one send attempt: the reply to `messages/send-raw`, and the `deleted`
      flag (set and truthy) of the reply to the `rejects/delete` that a soft bounce triggers. */
  datatype Round = Round(reply: Reply<seq<Recipient>>, deleted: bool)

  /** The parts of the mail object that the web path reads. */
  datatype Message = Message(fromEmail: string, fromName: string, to: seq<string>, headers: map<string, string>)

  /** What the web path reads besides the message: the subaccount setting, the subscriber store's
      hash-to-address lookup, and whether the send runs under cron (the `async` flag). */
  datatype Context = Context(subaccount: Value, emails: map<string, string>, doingCron: bool)

  /** How one provider reply is judged: a failure with its message, an accepted send, or a soft bounce
      of a campaign mail that is worth purging from the reject list. */
  datatype Verdict = Fail(message: string) | Accept | Purge

  /** The outcome of `dosend`, with the calls it made; Unfinished when the scripted rounds ran out
      while the code was about to send again. */
  datatype Delivery = Delivered(sent: bool, error: Option<string>, calls: seq<Event>) | Unfinished(calls: seq<Event>)

  /** A header of the mail object; a missing one reads as "". */
  function Header(headers: map<string, string>, name: string): string
  {
    if name in headers then headers[name] else ""
  }

  /** The mail carries both Mailster correlation headers with truthy values. */
  predicate Correlated(headers: map<string, string>)
  {
    Truthy(Str(Header(headers, "X-Mailster-Campaign"))) && Truthy(Str(Header(headers, "X-Mailster")))
  }

  /** `$response[0]`: only the first recipient is inspected; an empty answer reads as empty fields. */
  function First(recipients: seq<Recipient>): Recipient
  {
    if recipients == [] then Recipient("", "") else recipients[0]
  }

  predicate Accepted(r: Recipient)
  {
    r.status == "sent" || r.status == "queued"
  }

  /** The error text for a rejection: "[status] reason". */
  function Rejection(r: Recipient): string
  {
    "[" + r.status + "] " + r.rejectReason
  }

  /** The judgement of one reply (lines 188-233 without the resend): a transport error fails with its
      message; "sent" or "queued" is accepted; any other status fails with "[status] reason", except a
      soft bounce of a correlated mail, which is purged. The status "rejected" is never tested itself. */
  function Classify(reply: Reply<seq<Recipient>>, correlated: bool): (v: Verdict)
    ensures reply.Failure? ==> v == Fail(reply.error.message)
    ensures v.Accept? <==> reply.Success? && Accepted(First(reply.value))
    ensures v.Purge? <==> reply.Success? && !Accepted(First(reply.value)) &&
                          First(reply.value).rejectReason == "soft-bounce" && correlated
    ensures reply.Success? && v.Fail? ==> v.message == Rejection(First(reply.value))
  {
    match reply
    case Failure(e) => Fail(e.message)
    case Success(recipients) =>
      var r := First(recipients);
      if Accepted(r) then Accept
      else if r.rejectReason == "soft-bounce" && correlated then Purge
      else Fail(Rejection(r))
  }

  /** The address purged after a soft bounce: the subscriber found by the `X-Mailster` hash, "" if none. */
  function PurgeEmail(m: Message, c: Context): string
  {
    var hash := Header(m.headers, "X-Mailster");
    if hash in c.emails then c.emails[hash] else ""
  }

  function Prefixed(calls: seq<Event>, d: Delivery): Delivery
  {
    match d
    case Delivered(sent, error, cs) => Delivered(sent, error, calls + cs)
    case Unfinished(cs) => Unfinished(calls + cs)
  }

  /** The web path of `dosend` over a script of provider answers, one round per send attempt. A purge
      that reports `deleted` sends the same message again; nothing bounds how often (line 216). */
  function Deliver(m: Message, c: Context, script: seq<Round>): (d: Delivery)
    ensures script == [] ==> d == Unfinished([])
    ensures script != [] ==> d.calls != [] && d.calls[0] == SendRaw(m.fromEmail, m.fromName, m.to, c.doingCron, SendTimeout)
    ensures d.Delivered? ==> (d.sent <==> d.error.None?)
    ensures |d.calls| <= 2 * |script|
    decreases |script|
  {
    if script == [] then Unfinished([])
    else
      var send := SendRaw(m.fromEmail, m.fromName, m.to, c.doingCron, SendTimeout);
      match Classify(script[0].reply, Correlated(m.headers))
      case Fail(msg) => Delivered(false, Some(msg), [send])
      case Accept => Delivered(true, None, [send])
      case Purge =>
        var purge := RejectsDelete(PurgeEmail(m, c), c.subaccount, script[0].deleted);
        if script[0].deleted then Prefixed([send, purge], Deliver(m, c, script[1..]))
        else Delivered(true, None, [send, purge])
  }

  function Sends(calls: seq<Event>): nat
  {
    if calls == [] then 0 else (if calls[0].SendRaw? then 1 else 0) + Sends(calls[1..])
  }

  function ConfirmedPurges(calls: seq<Event>): nat
  {
    if calls == [] then 0
    else (if calls[0].RejectsDelete? && calls[0].deleted then 1 else 0) + ConfirmedPurges(calls[1..])
  }

  lemma {:induction false} CountsAppend(a: seq<Event>, b: seq<Event>)
    ensures Sends(a + b) == Sends(a) + Sends(b)
    ensures ConfirmedPurges(a + b) == ConfirmedPurges(a) + ConfirmedPurges(b)
  {
    if a != [] {
      assert (a + b)[1..] == a[1..] + b;
      CountsAppend(a[1..], b);
    } else {
      assert a + b == b;
    }
  }

  /** The first attempt decides the outcome unless it is a soft bounce whose purge reports `deleted`:
      a transport error or a rejection fails with its message, "sent"/"queued" succeeds without a
      retry, and a purge that deletes nothing still counts as sent. */
  lemma FirstAttempt(m: Message, c: Context, script: seq<Round>)
    requires script != []
    ensures var v := Classify(script[0].reply, Correlated(m.headers));
      var d := Deliver(m, c, script);
      var send := SendRaw(m.fromEmail, m.fromName, m.to, c.doingCron, SendTimeout);
      (v.Fail? ==> d == Delivered(false, Some(v.message), [send])) &&
      (v.Accept? ==> d == Delivered(true, None, [send])) &&
      (v.Purge? && !script[0].deleted ==>
         d == Delivered(true, None, [send, RejectsDelete(PurgeEmail(m, c), c.subaccount, false)]))
  {
  }

  /** A round that does not resend ends the delivery with one send, possibly followed by a purge
      that reported nothing deleted. */
  lemma FinalRound(m: Message, c: Context, script: seq<Round>)
    requires script != []
    requires !(Classify(script[0].reply, Correlated(m.headers)).Purge? && script[0].deleted)
    ensures var calls := Deliver(m, c, script).calls;
      Deliver(m, c, script).Delivered? && 1 <= |calls| <= 2 &&
      calls[0] == SendRaw(m.fromEmail, m.fromName, m.to, c.doingCron, SendTimeout) &&
      (|calls| == 2 ==> calls[1].RejectsDelete? && !calls[1].deleted) &&
      Sends(calls) == 1 && ConfirmedPurges(calls) == 0
  {
    var calls := Deliver(m, c, script).calls;
    var send := SendRaw(m.fromEmail, m.fromName, m.to, c.doingCron, SendTimeout);
    if Classify(script[0].reply, Correlated(m.headers)).Purge? {
      var purge := RejectsDelete(PurgeEmail(m, c), c.subaccount, false);
      assert calls == [send, purge];
      assert calls[1..] == [purge] && calls[1..][1..] == [];
      assert Sends(calls[1..]) == 0 && ConfirmedPurges(calls[1..]) == 0;
    } else {
      assert calls == [send];
      assert calls[1..] == [];
    }
  }

  /** Every send after the first comes straight after a purge that reported `deleted`. */
  lemma {:induction false} ResendOnlyAfterDeletion(m: Message, c: Context, script: seq<Round>)
    ensures var calls := Deliver(m, c, script).calls;
      (calls != [] ==> calls[0].SendRaw?) &&
      (forall j :: 0 < j < |calls| && calls[j].SendRaw? ==> calls[j - 1].RejectsDelete? && calls[j - 1].deleted)
  {
    if script != [] && Classify(script[0].reply, Correlated(m.headers)).Purge? && script[0].deleted {
      var send := SendRaw(m.fromEmail, m.fromName, m.to, c.doingCron, SendTimeout);
      var purge := RejectsDelete(PurgeEmail(m, c), c.subaccount, true);
      var rest := Deliver(m, c, script[1..]).calls;
      ResendOnlyAfterDeletion(m, c, script[1..]);
      var calls := [send, purge] + rest;
      assert Deliver(m, c, script).calls == calls;
      forall j | 0 < j < |calls| && calls[j].SendRaw?
        ensures calls[j - 1].RejectsDelete? && calls[j - 1].deleted
      {
        if j > 2 {
          assert calls[j] == rest[j - 2] && calls[j - 1] == rest[j - 3];
        }
      }
    } else if script != [] {
      FinalRound(m, c, script);
    }
  }

  /** A finished delivery made exactly one send more than it had confirmed purges; an unfinished one
      as many sends as confirmed purges. */
  lemma {:induction false} SendsCountPurges(m: Message, c: Context, script: seq<Round>)
    ensures Deliver(m, c, script).Delivered? ==>
      Sends(Deliver(m, c, script).calls) == ConfirmedPurges(Deliver(m, c, script).calls) + 1
    ensures Deliver(m, c, script).Unfinished? ==>
      Sends(Deliver(m, c, script).calls) == ConfirmedPurges(Deliver(m, c, script).calls)
  {
    if script != [] && Classify(script[0].reply, Correlated(m.headers)).Purge? && script[0].deleted {
      var send := SendRaw(m.fromEmail, m.fromName, m.to, c.doingCron, SendTimeout);
      var purge := RejectsDelete(PurgeEmail(m, c), c.subaccount, true);
      SendsCountPurges(m, c, script[1..]);
      CountsAppend([send, purge], Deliver(m, c, script[1..]).calls);
      assert [send, purge][1..] == [purge] && [purge][1..] == [];
    } else if script != [] {
      FinalRound(m, c, script);
    }
  }

  /** The as-written resend has no depth bound: while every attempt soft-bounces and every purge reports
      `deleted`, each round sends and purges again and no finite script lets the delivery finish. */
  lemma {:induction false} SoftBounceLoopsWhilePurged(m: Message, c: Context, script: seq<Round>)
    requires Correlated(m.headers)
    requires forall i :: 0 <= i < |script| ==>
      script[i].deleted && script[i].reply.Success? && |script[i].reply.value| > 0 &&
      !Accepted(script[i].reply.value[0]) && script[i].reply.value[0].rejectReason == "soft-bounce"
    ensures Deliver(m, c, script).Unfinished?
    ensures Sends(Deliver(m, c, script).calls) == |script|
    ensures |Deliver(m, c, script).calls| == 2 * |script|
  {
    if script != [] {
      SoftBounceLoopsWhilePurged(m, c, script[1..]);
      var send := SendRaw(m.fromEmail, m.fromName, m.to, c.doingCron, SendTimeout);
      var purge := RejectsDelete(PurgeEmail(m, c), c.subaccount, true);
      CountsAppend([send, purge], Deliver(m, c, script[1..]).calls);
    }
  }

  /** A failure for the status "rejected" reports "[rejected] reason", which starts with the marker that
      `subscriber_errors` registers, whatever list it extends. */
  lemma RejectedFailureCarriesMarker(reply: Reply<seq<Recipient>>, correlated: bool, errors: seq<string>)
    requires reply.Success? && First(reply.value).status == "rejected"
    requires First(reply.value).rejectReason != "soft-bounce" || !correlated
    ensures Classify(reply, correlated).Fail?
    ensures var marker := Transport.SubscriberErrors(errors)[|errors|];
      |marker| <= |Classify(reply, correlated).message| &&
      Classify(reply, correlated).message[..|marker|] == marker
  {
  }

  function MessageOf(mail: MailObject): Message
    reads mail
  {
    Message(mail.fromEmail, mail.fromName, mail.to, mail.headers)
  }

  /** One send attempt of the web path: the raw send, then the judgement of the first recipient and,
      for a soft bounce of a correlated mail, the purge. It reports whether the code sends again. */
  method Attempt(site: Site, mail: MailObject, c: Context, round: Round) returns (resend: bool)
    modifies mail`sent, mail`lastError, site`log
    ensures var v := Classify(round.reply, Correlated(mail.headers));
      var send := SendRaw(mail.fromEmail, mail.fromName, mail.to, c.doingCron, SendTimeout);
      resend == (v.Purge? && round.deleted) &&
      site.log == old(site.log) + [send] +
                  (if v.Purge? then [RejectsDelete(PurgeEmail(MessageOf(mail), c), c.subaccount, round.deleted)] else []) &&
      (v.Fail? ==> !mail.sent && mail.lastError == Some(v.message)) &&
      (v.Accept? || (v.Purge? && !round.deleted) ==> mail.sent && mail.lastError == old(mail.lastError)) &&
      (resend ==> mail.sent == old(mail.sent) && mail.lastError == old(mail.lastError))
  {
    site.log := site.log + [SendRaw(mail.fromEmail, mail.fromName, mail.to, c.doingCron, SendTimeout)];
    resend := false;
    if round.reply.Failure? {
      mail.lastError := Some(round.reply.error.message);
      mail.sent := false;
    } else {
      var response := First(round.reply.value);
      if response.status == "sent" || response.status == "queued" {
        mail.sent := true;
      } else if response.rejectReason == "soft-bounce" {
        var hash := Header(mail.headers, "X-Mailster");
        var campaign := Header(mail.headers, "X-Mailster-Campaign");
        if Truthy(Str(campaign)) && Truthy(Str(hash)) {
          var email := if hash in c.emails then c.emails[hash] else "";
          site.log := site.log + [RejectsDelete(email, c.subaccount, round.deleted)];
          if round.deleted {
            resend := true;
          } else {
            mail.sent := true;
          }
        } else {
          mail.lastError := Some(Rejection(response));
          mail.sent := false;
        }
      } else {
        mail.lastError := Some(Rejection(response));
        mail.sent := false;
      }
    }
  }

  /** `dosend`. In relay mode the host's SMTP send (`relaySent`) decides and no provider call is made.
      In web mode the mail object's `sent` flag and error follow `Deliver`, and its calls are logged;
      a purge that reports `deleted` calls `dosend` again. */
  method DoSend(site: Site, mail: MailObject, emails: map<string, string>, doingCron: bool,
                script: seq<Round>, relaySent: bool) returns (finished: bool)
    modifies mail`sent, mail`lastError, site`log
    decreases |script|
    ensures Transport.SmtpMode(site.settings) ==>
      finished && mail.sent == relaySent && mail.lastError == old(mail.lastError) && site.log == old(site.log)
    ensures !Transport.SmtpMode(site.settings) ==>
      var d := Deliver(MessageOf(mail), Context(Lookup(site.settings, SubaccountSetting, Null), emails, doingCron), script);
      site.log == old(site.log) + d.calls && finished == d.Delivered? &&
      (d.Delivered? ==> mail.sent == d.sent && mail.lastError == (if d.error.Some? then d.error else old(mail.lastError))) &&
      (d.Unfinished? ==> mail.sent == old(mail.sent) && mail.lastError == old(mail.lastError))
  {
    if Transport.SmtpMode(site.settings) {
      mail.sent := relaySent;
      return true;
    }
    if script == [] {
      return false;
    }
    var c := Context(Lookup(site.settings, SubaccountSetting, Null), emails, doingCron);
    var resend := Attempt(site, mail, c, script[0]);
    if resend {
      ghost var before := site.log;
      finished := DoSend(site, mail, emails, doingCron, script[1..], relaySent);
      assert site.log == old(site.log) + (Deliver(MessageOf(mail), c, script).calls) by {
        assert before == old(site.log) + [SendRaw(mail.fromEmail, mail.fromName, mail.to, doingCron, SendTimeout),
                                          RejectsDelete(PurgeEmail(MessageOf(mail), c), c.subaccount, true)];
      }
    } else {
      finished := true;
    }
  }
}
