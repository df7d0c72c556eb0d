/** The WordPress and Mailster state the plugin reads and writes: the settings store, the transient
    (expiring key) store, the admin notices, a record of the provider calls and of the subscriber-store
    mutations (`unsubscribe`, `bounce`; lookups are not recorded), and the mail object that Mailster hands to the delivery hooks. */
module Host {
  import opened Php

  /** The plugin's identifier, used as the prefix of its settings. */
  const Id := "mandrill"

  const ApiSetting := "mandrill_api"
  const PortSetting := "mandrill_port"
  const UsernameSetting := "mandrill_username"
  const ApiKeySetting := "mandrill_apikey"
  const TrackSetting := "mandrill_track"
  const SubaccountSetting := "mandrill_subaccount"
  const BacklogSetting := "mandrill_backlog"
  const CeilingSetting := "mandrill_send_at_once"
  const VerifiedSetting := "mandrill_verified"
  const AutoUpdateSetting := "mandrill_autoupdate"

  /** The id of the admin notice that reports a backlog at the provider. */
  const BacklogNotice := "mandrill_backlog"

  /** A WordPress error object: an error code and its message. */
  datatype WpError = WpError(code: string, message: string)

  /** What a provider call returns to its caller: a WordPress error or the decoded body. */
  datatype Reply<+T> = Failure(error: WpError) | Success(value: T)

  /** A transient: its value and, unless it never expires, the last second at which it is alive. */
  datatype Transient = Transient(value: Value, expires: Option<int>)

  predicate Alive(t: Transient, now: int)
  {
    t.expires.None? || now <= t.expires.value
  }

  /** WordPress's `get_transient`: the stored value while it is alive, false otherwise. */
  function GetTransient(ts: map<string, Transient>, key: string, now: int): Value
  {
    if key in ts && Alive(ts[key], now) then ts[key].value else Bool(false)
  }

  /** WordPress's `set_transient(key, v, ttl)` at time `now`; a ttl of 0 means the value never expires. */
  function SetTransient(ts: map<string, Transient>, key: string, v: Value, ttl: int, now: int): map<string, Transient>
  {
    ts[key := Transient(v, if ttl == 0 then None else Some(now + ttl))]
  }

  /** `update_option('_transient_' + key, v)`: replaces the value of a transient and keeps its expiry. */
  function OverwriteTransient(ts: map<string, Transient>, key: string, v: Value): map<string, Transient>
  {
    ts[key := Transient(v, if key in ts then ts[key].expires else None)]
  }

  /** A transient reads back as written for `ttl` seconds and as false afterwards; other keys are untouched. */
  lemma TransientLease(ts: map<string, Transient>, key: string, v: Value, ttl: int, now: int, t: int)
    ensures ttl == 0 || now <= t <= now + ttl ==> GetTransient(SetTransient(ts, key, v, ttl, now), key, t) == v
    ensures ttl != 0 && t > now + ttl ==> GetTransient(SetTransient(ts, key, v, ttl, now), key, t) == Bool(false)
    ensures forall k :: k != key ==> GetTransient(SetTransient(ts, key, v, ttl, now), k, t) == GetTransient(ts, k, t)
  {
  }

  /** Raising (`mailster_notice`) or removing (`mailster_remove_notice`) an admin notice. */
  function SetNotice(notices: set<string>, id: string, raised: bool): (r: set<string>)
    ensures id in r <==> raised
    ensures forall n :: n != id ==> (n in r <==> n in notices)
  {
    if raised then notices + {id} else notices - {id}
  }

  /** One call the plugin makes to the provider's API, or one mutation (`unsubscribe`, `bounce`) of
      Mailster's subscriber store; lookups in the store are not recorded. A `Bounce` or `RejectsDelete`
      entry carries the flag that the code branches on, and a `SendRaw` entry the timeout it is made with
      (every other call uses `do_call`'s default of 5 seconds, which is not recorded); the answers of the other calls are parameters
      of the operations that make them. */
  datatype Event =
    | RejectsList(subaccount: Value)
    | RejectsDelete(email: string, subaccount: Value, deleted: bool)
    | SendRaw(fromEmail: string, fromName: string, to: seq<string>, async: bool, timeout: int)
    | UsersInfo(key: Value)
    | SubaccountsInfo(key: Value, id: Value)
    | SubaccountsList
    | Unsubscribe(subscriber: nat)
    | Bounce(subscriber: nat, campaign: nat, hard: bool, recorded: bool)

  /** The host state: Mailster's settings, the transients, the admin notices, and the provider calls and
      subscriber-store mutations made so far. */
  class Site {
    var settings: map<string, Value>
    var transients: map<string, Transient>
    var notices: set<string>
    var log: seq<Event>

    constructor (settings: map<string, Value>)
      ensures this.settings == settings
      ensures transients == map[] && notices == {} && log == []
    {
      this.settings := settings;
      transients := map[];
      notices := {};
      log := [];
    }
  }

  /** The fields of the host's mailer (PHPMailer) that the plugin sets. */
  class Mailer {
    var mailer: string
    var smtpSecure: bool
    var host: string
    var port: Value
    var smtpAuth: bool
    var username: Value
    var password: Value
    var smtpKeepAlive: bool
    var customHeaders: seq<(string, Value)>

    constructor ()
      ensures mailer == "mail" && customHeaders == []
    {
      mailer := "mail";
      customHeaders := [];
    }
  }

  /** Mailster's mail object: its mailer, its signing flag, the message's addressing and headers,
      and the outcome fields the delivery hook sets. */
  class MailObject {
    var mailer: Mailer
    var dkim: bool
    var fromEmail: string
    var fromName: string
    var to: seq<string>
    var headers: map<string, string>
    var sent: bool
    var lastError: Option<string>

    constructor (mailer: Mailer, fromEmail: string, fromName: string, to: seq<string>, headers: map<string, string>)
      ensures this.mailer == mailer && this.fromEmail == fromEmail && this.fromName == fromName
      ensures this.to == to && this.headers == headers
      ensures !sent && lastError == None
    {
      this.mailer := mailer;
      this.fromEmail := fromEmail;
      this.fromName := fromName;
      this.to := to;
      this.headers := headers;
      sent := false;
      lastError := None;
    }
  }
}
