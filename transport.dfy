/** Transport configuration: the `initsend` and `presend` hooks that prepare Mailster's mailer for the
    provider, and the two filters that register the delivery method and its subscriber error marker. */
module Transport {
  import opened Php
  import opened Host

  const SmtpHost := "smtp.mandrillapp.com"
  const DefaultPort := 25
  const ImplicitTlsPort := 465

  /** The `[rejected]` marker that Mailster matches against a failed send's error to blame the subscriber. */
  const RejectedMarker := "[rejected]"

  /** The relay mode is chosen when the `mandrill_api` setting equals "smtp" (PHP loose comparison). */
  predicate SmtpMode(settings: map<string, Value>)
  {
    EqualsWord(Lookup(settings, ApiSetting, Null), "smtp")
  }

  /** The port setting as `initsend` reads it: the stored value, 25 when unset. */
  function Port(settings: map<string, Value>): Value
  {
    Lookup(settings, PortSetting, Int(DefaultPort))
  }

  /** `initsend`: in relay mode the mailer is pointed at the provider's SMTP host with the stored port,
      implicit TLS exactly for port 465, authentication with the stored username and the API key as
      password, and keep-alive; in web mode only DKIM signing is switched off. Outside cron runs the
      backlog notice is raised when a backlog is stored and removed otherwise. */
  method InitSend(site: Site, mail: MailObject, doingCron: bool)
    modifies mail`dkim, mail.mailer, site`notices
    ensures SmtpMode(site.settings) ==>
      var m := mail.mailer;
      m.mailer == "smtp" && m.host == SmtpHost && m.port == Port(site.settings) &&
      (m.smtpSecure <==> EqualsInt(Port(site.settings), ImplicitTlsPort)) &&
      m.smtpAuth && m.smtpKeepAlive &&
      m.username == Lookup(site.settings, UsernameSetting, Null) &&
      m.password == Lookup(site.settings, ApiKeySetting, Null) &&
      m.customHeaders == old(m.customHeaders) && mail.dkim == old(mail.dkim)
    ensures !SmtpMode(site.settings) ==> !mail.dkim && unchanged(mail.mailer)
    ensures site.notices == SetNotice(old(site.notices), BacklogNotice,
                                      !doingCron && Truthy(Lookup(site.settings, BacklogSetting, Null)))
  {
    if SmtpMode(site.settings) {
      var port := Port(site.settings);
      mail.mailer.mailer := "smtp";
      mail.mailer.smtpSecure := EqualsInt(port, ImplicitTlsPort);
      mail.mailer.host := SmtpHost;
      mail.mailer.port := port;
      mail.mailer.smtpAuth := true;
      mail.mailer.username := Lookup(site.settings, UsernameSetting, Null);
      mail.mailer.password := Lookup(site.settings, ApiKeySetting, Null);
      mail.mailer.smtpKeepAlive := true;
    } else {
      mail.dkim := false;
    }
    site.notices := SetNotice(site.notices, BacklogNotice,
                              !doingCron && Truthy(Lookup(site.settings, BacklogSetting, Null)));
  }

  /** Implicit TLS follows PHP's `$port == 465`: the integer or the numeric string, not other ports. */
  lemma ImplicitTlsOnlyOn465()
    ensures EqualsInt(Int(465), ImplicitTlsPort) && EqualsInt(Str("465"), ImplicitTlsPort)
    ensures !EqualsInt(Int(DefaultPort), ImplicitTlsPort) && !EqualsInt(Str("587"), ImplicitTlsPort)
    ensures !EqualsInt(Port(map[]), ImplicitTlsPort) && Port(map[]) == Int(DefaultPort)
  {
    NumericStringValue("465");
    assert "465"[..2] == "46" && "46"[..1] == "4" && "4"[..0] == "";
    NumericStringValue("587");
  }

  /** The provider headers that `presend` adds: `X-MC-Track` and then `X-MC-Subaccount`, each only when
      its setting is truthy, carrying the setting's value. */
  function TrackingHeaders(settings: map<string, Value>): (hs: seq<(string, Value)>)
    ensures |hs| <= 2
    ensures forall h :: h in hs ==> Truthy(h.1)
    ensures (exists h :: h in hs && h.0 == "X-MC-Track") <==> Truthy(Lookup(settings, TrackSetting, Null))
    ensures (exists h :: h in hs && h.0 == "X-MC-Subaccount") <==> Truthy(Lookup(settings, SubaccountSetting, Null))
    ensures forall h :: h in hs && h.0 == "X-MC-Track" ==> h.1 == Lookup(settings, TrackSetting, Null)
    ensures forall h :: h in hs && h.0 == "X-MC-Subaccount" ==> h.1 == Lookup(settings, SubaccountSetting, Null)
    ensures |hs| == 2 ==> hs[0].0 == "X-MC-Track" && hs[1].0 == "X-MC-Subaccount"
  {
    var track := Lookup(settings, TrackSetting, Null);
    var subaccount := Lookup(settings, SubaccountSetting, Null);
    (if Truthy(track) then [("X-MC-Track", track)] else []) +
    (if Truthy(subaccount) then [("X-MC-Subaccount", subaccount)] else [])
  }

  /** Settings of "0" or "", like missing or false ones, add no header, as PHP treats all of them as false. */
  lemma FalsyStringsAddNoHeader(settings: map<string, Value>)
    requires Lookup(settings, TrackSetting, Null) in {Str("0"), Str(""), Null, Bool(false)}
    requires Lookup(settings, SubaccountSetting, Null) in {Str("0"), Str(""), Null, Bool(false)}
    ensures TrackingHeaders(settings) == []
  {
  }

  /** `presend`: appends the provider headers to the mailer's custom headers. Mailster's own
      `pre_send` preparation, which runs first, is not part of this model. */
  method PreSend(site: Site, mail: MailObject)
    modifies mail.mailer`customHeaders
    ensures mail.mailer.customHeaders == old(mail.mailer.customHeaders) + TrackingHeaders(site.settings)
  {
    var track := Lookup(site.settings, TrackSetting, Null);
    if Truthy(track) {
      mail.mailer.customHeaders := mail.mailer.customHeaders + [("X-MC-Track", track)];
    }
    var subaccount := Lookup(site.settings, SubaccountSetting, Null);
    if Truthy(subaccount) {
      mail.mailer.customHeaders := mail.mailer.customHeaders + [("X-MC-Subaccount", subaccount)];
    }
  }

  /** `subscriber_errors`: the error list with the `[rejected]` marker appended after the existing entries. */
  function SubscriberErrors(errors: seq<string>): (r: seq<string>)
    ensures |r| == |errors| + 1 && r[..|errors|] == errors
    ensures RejectedMarker in r && r[|errors|] == RejectedMarker
  {
    errors + [RejectedMarker]
  }

  /** `delivery_method`: registers the plugin under its id with the label "Mandrill", leaving every other
      registered method as it was. */
  function DeliveryMethods(methods: map<string, string>): (r: map<string, string>)
    ensures r.Keys == methods.Keys + {Id}
    ensures r[Id] == "Mandrill"
    ensures forall k :: k in methods && k != Id ==> r[k] == methods[k]
  {
    methods[Id := "Mandrill"]
  }
}
