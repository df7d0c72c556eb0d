/** Sending quota: `getquota` merges the account's and the subaccount's quota records into a limits
    record, `update_limits` turns the limits into Mailster's throttle settings, the backlog notice and
    the send-period transients, and the autoupdate part of `verify_options` does the same on the
    settings form being saved. */
module Quota {
  import opened Php
  import opened Host

  const SendLimit := "send_limit"
  const SendPeriod := "send_period"
  const SendDelay := "send_delay"
  const SendAtOnceSetting := "send_at_once"
  const IntervalSetting := "interval"
  const DeliveryMethodSetting := "deliverymethod"
  /** The ceiling `update_limits` uses when the plugin's own send-at-once setting is unset. */
  const DefaultCeiling := 100
  const MinutesPerDay := 1440
  const PeriodTimeout := "_mailster_send_period_timeout"
  const PeriodCounter := "_mailster_send_period"

  /** The fields `getquota` reads from the `users/info` answer. */
  datatype UserInfo = UserInfo(hourlyQuota: int, backlog: int, sentAllTime: int)

  /** The fields `getquota` reads from the `subaccounts/info` answer. */
  datatype SubaccountInfo = SubaccountInfo(hourlyQuota: int, sentHourly: int)

  /** The limits record that `getquota` returns. */
  datatype Limits = Limits(daily: int, hourly: int, sent: int, sentTotal: int, backlog: int)

  /** The quota merge of `getquota`: an error of either call is the result; without a subaccount the
      account's hourly quota is used for a day of sending; with one, the hourly limit is the smaller of
      the two quotas, the sent count is the subaccount's, and the daily limit is the subaccount's
      hourly quota times 24 even where the account's own quota is smaller. */
  function QuotaOf(user: Reply<UserInfo>, subaccount: Value, sub: Reply<SubaccountInfo>): (r: Reply<Limits>)
    ensures user.Failure? ==> r == Failure(user.error)
    ensures user.Success? && Truthy(subaccount) && sub.Failure? ==> r == Failure(sub.error)
    ensures r.Success? <==> user.Success? && (!Truthy(subaccount) || sub.Success?)
    ensures user.Success? && !Truthy(subaccount) ==>
      r == Success(Limits(24 * user.value.hourlyQuota, user.value.hourlyQuota, 0, user.value.sentAllTime, user.value.backlog))
    ensures user.Success? && Truthy(subaccount) && sub.Success? ==>
      r.value.hourly <= user.value.hourlyQuota && r.value.hourly <= sub.value.hourlyQuota &&
      (r.value.hourly == user.value.hourlyQuota || r.value.hourly == sub.value.hourlyQuota) &&
      r.value.daily == 24 * sub.value.hourlyQuota && r.value.sent == sub.value.sentHourly
    ensures r.Success? ==> r.value.sentTotal == user.value.sentAllTime && r.value.backlog == user.value.backlog
  {
    match user
    case Failure(e) => Failure(e)
    case Success(u) =>
      var limits := Limits(u.hourlyQuota * 24, u.hourlyQuota, 0, u.sentAllTime, u.backlog);
      if !Truthy(subaccount) then Success(limits)
      else
        match sub
        case Failure(e) => Failure(e)
        case Success(s) =>
          Success(limits.(hourly := Min(limits.hourly, s.hourlyQuota), sent := s.sentHourly, daily := s.hourlyQuota * 24))
  }

  /** The daily limit is 24 hourly limits exactly when no subaccount is used or the subaccount's quota
      does not exceed the account's; a subaccount with the larger quota yields a daily limit above what
      the hourly limit allows in a day. */
  lemma DailyMatchesHourly(u: UserInfo, subaccount: Value, s: SubaccountInfo)
    ensures var r := QuotaOf(Success(u), subaccount, Success(s));
      r.value.daily == 24 * r.value.hourly <==> !Truthy(subaccount) || s.hourlyQuota <= u.hourlyQuota
  {
  }

  /** How many mails fit in one cron interval of `interval` minutes at `daily` mails a day:
      `floor(daily / (1440 / interval))`, computed exactly. */
  function PerInterval(daily: int, interval: int): int
    requires interval != 0
  {
    daily * interval / MinutesPerDay
  }

  /** The exact integer form agrees with the floor of the real-valued quotient. */
  lemma PerIntervalIsFloor(daily: int, interval: int)
    requires interval != 0
    ensures PerInterval(daily, interval) == (daily as real / (MinutesPerDay as real / interval as real)).Floor
  {
    var x := daily * interval;
    var q, r := x / MinutesPerDay, x % MinutesPerDay;
    assert x == MinutesPerDay * q + r && 0 <= r < MinutesPerDay;
    calc {
      daily as real / (MinutesPerDay as real / interval as real);
      x as real / MinutesPerDay as real;
      q as real + r as real / MinutesPerDay as real;
    }
    assert 0.0 <= r as real / MinutesPerDay as real < 1.0;
  }

  /** `send_at_once`: the interval's share of the daily limit, at least 1, and never above the ceiling. */
  function SendAtOnce(ceiling: int, daily: int, interval: int): (n: int)
    requires interval != 0
    ensures n <= ceiling
    ensures ceiling >= 1 ==> n >= 1
    ensures 1 <= PerInterval(daily, interval) <= ceiling ==> n == PerInterval(daily, interval)
    ensures n == ceiling || n == 1 || n == PerInterval(daily, interval)
    ensures PerInterval(daily, interval) > ceiling ==> n == ceiling
    ensures PerInterval(daily, interval) < 1 <= ceiling ==> n == 1
  {
    Min(ceiling, Max(1, PerInterval(daily, interval)))
  }

  /** A larger daily limit never gives a smaller batch. */
  lemma SendAtOnceMonotone(ceiling: int, d1: int, d2: int, interval: int)
    requires interval > 0 && d1 <= d2
    ensures SendAtOnce(ceiling, d1, interval) <= SendAtOnce(ceiling, d2, interval)
  {
    assert d1 * interval <= d2 * interval by {
      assert (d2 - d1) * interval >= 0;
    }
  }

  /** The settings that a throttle update writes. */
  const ThrottleKeys := {SendLimit, SendPeriod, SendDelay, SendAtOnceSetting, BacklogSetting}

  /** The throttle update on a settings map: the hourly limit per one-hour period, no delay, the
      interval's batch under the ceiling, and the backlog; every other setting is kept. */
  function Throttle(m: map<string, Value>, l: Limits, ceiling: int, interval: int): (r: map<string, Value>)
    requires interval != 0
    ensures r.Keys == m.Keys + ThrottleKeys
    ensures forall k :: k in m && k !in ThrottleKeys ==> r[k] == m[k]
    ensures r[SendLimit] == Int(l.hourly) && r[SendPeriod] == Int(1) && r[SendDelay] == Int(0)
    ensures r[BacklogSetting] == Int(l.backlog)
    ensures r[SendAtOnceSetting].Int? && r[SendAtOnceSetting].i <= ceiling
    ensures ceiling >= 1 ==> r[SendAtOnceSetting].i >= 1
    ensures r[SendAtOnceSetting] == Int(SendAtOnce(ceiling, l.daily, interval))
  {
    m[SendLimit := Int(l.hourly)]
     [SendPeriod := Int(1)]
     [SendDelay := Int(0)]
     [SendAtOnceSetting := Int(SendAtOnce(ceiling, daily := l.daily, interval := interval))]
     [BacklogSetting := Int(l.backlog)]
  }

  /** The send-period bookkeeping of `update_limits`: a period of `period` hours is started when none is
      running, it is then marked as used when something was sent, and the sent count is stored. */
  function PeriodTransients(ts: map<string, Transient>, period: int, sent: int, now: int): (r: map<string, Transient>)
    ensures r.Keys == ts.Keys + {PeriodTimeout, PeriodCounter}
    ensures r[PeriodTimeout].value == Bool(sent > 0) && r[PeriodCounter].value == Int(sent)
    ensures forall k :: k in ts && k != PeriodTimeout && k != PeriodCounter ==> r[k] == ts[k]
  {
    var started := if Truthy(GetTransient(ts, PeriodTimeout, now)) then ts
                   else SetTransient(ts, PeriodTimeout, Bool(true), period * 3600, now);
    OverwriteTransient(OverwriteTransient(started, PeriodTimeout, Bool(sent > 0)), PeriodCounter, Int(sent))
  }

  /** A running period keeps its expiry and an ended one is restarted for `period` hours; the period
      flag then reads whether anything was sent, and the counter reads the sent count unless an expired
      counter transient is still stored, whose expiry the overwrite keeps. No other transient changes. */
  lemma PeriodBookkeeping(ts: map<string, Transient>, period: int, sent: int, now: int)
    requires period >= 0
    ensures var r := PeriodTransients(ts, period, sent, now);
      (Truthy(GetTransient(ts, PeriodTimeout, now)) ==> r[PeriodTimeout].expires == ts[PeriodTimeout].expires) &&
      (!Truthy(GetTransient(ts, PeriodTimeout, now)) ==>
         r[PeriodTimeout].expires == if period == 0 then None else Some(now + period * 3600)) &&
      GetTransient(r, PeriodTimeout, now) == Bool(sent > 0) &&
      GetTransient(r, PeriodCounter, now) ==
        (if PeriodCounter in ts && !Alive(ts[PeriodCounter], now) then Bool(false) else Int(sent)) &&
      forall k :: k != PeriodTimeout && k != PeriodCounter ==> GetTransient(r, k, now) == GetTransient(ts, k, now)
  {
  }

  /** The five `mailster_update_option` calls of `update_limits`, in order. */
  method WriteThrottle(site: Site, limits: Limits)
    requires ToInt(Lookup(site.settings, IntervalSetting, Null)) != 0
    modifies site`settings
    ensures site.settings == Throttle(old(site.settings), limits,
                                      ToInt(Lookup(old(site.settings), CeilingSetting, Int(DefaultCeiling))),
                                      ToInt(Lookup(old(site.settings), IntervalSetting, Null)))
  {
    var ceiling := ToInt(Lookup(site.settings, CeilingSetting, Int(DefaultCeiling)));
    var interval := ToInt(Lookup(site.settings, IntervalSetting, Null));
    site.settings := site.settings[SendLimit := Int(limits.hourly)];
    site.settings := site.settings[SendPeriod := Int(1)];
    site.settings := site.settings[SendDelay := Int(0)];
    site.settings := site.settings[SendAtOnceSetting := Int(SendAtOnce(ceiling, limits.daily, interval))];
    site.settings := site.settings[BacklogSetting := Int(limits.backlog)];
  }

  /** `update_limits(limits, update)`: with `update`, the throttle settings are written, with the
      plugin's send-at-once setting (100 when unset) as ceiling and Mailster's cron interval; the backlog
      notice is raised exactly when there is a backlog; then the send-period transients are updated,
      with the period length read after the settings were written. */
  method UpdateLimits(site: Site, limits: Limits, update: bool, now: int)
    requires update ==> ToInt(Lookup(site.settings, IntervalSetting, Null)) != 0
    modifies site`settings, site`notices, site`transients
    ensures site.settings ==
      if update then Throttle(old(site.settings), limits,
                              ToInt(Lookup(old(site.settings), CeilingSetting, Int(DefaultCeiling))),
                              ToInt(Lookup(old(site.settings), IntervalSetting, Null)))
      else old(site.settings)
    ensures site.notices == SetNotice(old(site.notices), BacklogNotice, limits.backlog != 0)
    ensures site.transients ==
      PeriodTransients(old(site.transients), ToInt(Lookup(site.settings, SendPeriod, Null)), limits.sent, now)
  {
    if update {
      WriteThrottle(site, limits);
    }
    site.notices := SetNotice(site.notices, BacklogNotice, limits.backlog != 0);
    var period := ToInt(Lookup(site.settings, SendPeriod, Null));
    if !Truthy(GetTransient(site.transients, PeriodTimeout, now)) {
      site.transients := SetTransient(site.transients, PeriodTimeout, Bool(true), period * 3600, now);
    }
    site.transients := OverwriteTransient(site.transients, PeriodTimeout, Bool(limits.sent > 0));
    site.transients := OverwriteTransient(site.transients, PeriodCounter, Int(limits.sent));
  }

  /** After a throttle update the period is one hour, so a period that was not running is started for
      exactly 3600 seconds. */
  lemma UpdatedPeriodIsOneHour(m: map<string, Value>, l: Limits, ceiling: int, interval: int,
                               ts: map<string, Transient>, now: int)
    requires interval != 0
    requires !Truthy(GetTransient(ts, PeriodTimeout, now))
    ensures PeriodTransients(ts, ToInt(Lookup(Throttle(m, l, ceiling, interval), SendPeriod, Null)), l.sent, now)[PeriodTimeout].expires
            == Some(now + 3600)
  {
  }

  /** The API key `getquota` uses: the given one, the stored setting when none is given. */
  function KeyUsed(settings: map<string, Value>, apiKey: Value): Value
  {
    if apiKey != Null then apiKey else Lookup(settings, ApiKeySetting, Null)
  }

  /** The subaccount `getquota` uses: the given one, the stored setting when none is given. */
  function SubaccountUsed(settings: map<string, Value>, subaccount: Value): Value
  {
    if subaccount != Null then subaccount else Lookup(settings, SubaccountSetting, Null)
  }

  /** The calls `getquota` makes: `users/info`, then `subaccounts/info` only when it succeeded and a
      subaccount is used. */
  function QuotaCalls(key: Value, subaccount: Value, user: Reply<UserInfo>): seq<Event>
  {
    [UsersInfo(key)] + (if user.Success? && Truthy(subaccount) then [SubaccountsInfo(key, subaccount)] else [])
  }

  /** `getquota(save, apikey, subaccount)`, given the provider's answers to its two calls: it returns the
      merged limits or the first error, and writes the limits through `update_limits` only when asked to
      and only on success. */
  method GetQuota(site: Site, save: bool, apiKey: Value, subaccount: Value, now: int,
                  user: Reply<UserInfo>, sub: Reply<SubaccountInfo>) returns (r: Reply<Limits>)
    requires save && QuotaOf(user, SubaccountUsed(site.settings, subaccount), sub).Success? ==>
      ToInt(Lookup(site.settings, IntervalSetting, Null)) != 0
    modifies site`settings, site`notices, site`transients, site`log
    ensures r == QuotaOf(user, SubaccountUsed(old(site.settings), subaccount), sub)
    ensures site.log == old(site.log) +
      QuotaCalls(KeyUsed(old(site.settings), apiKey), SubaccountUsed(old(site.settings), subaccount), user)
    ensures !(save && r.Success?) ==>
      site.settings == old(site.settings) && site.notices == old(site.notices) && site.transients == old(site.transients)
    ensures save && r.Success? ==>
      site.settings == Throttle(old(site.settings), r.value,
                                ToInt(Lookup(old(site.settings), CeilingSetting, Int(DefaultCeiling))),
                                ToInt(Lookup(old(site.settings), IntervalSetting, Null))) &&
      site.notices == SetNotice(old(site.notices), BacklogNotice, r.value.backlog != 0) &&
      site.transients == PeriodTransients(old(site.transients), 1, r.value.sent, now)
  {
    var key := KeyUsed(site.settings, apiKey);
    var used := SubaccountUsed(site.settings, subaccount);
    site.log := site.log + [UsersInfo(key)];
    if user.Failure? {
      return Failure(user.error);
    }
    var limits := Limits(user.value.hourlyQuota * 24, user.value.hourlyQuota, 0, user.value.sentAllTime, user.value.backlog);
    if Truthy(used) {
      site.log := site.log + [SubaccountsInfo(key, used)];
      if sub.Failure? {
        return Failure(sub.error);
      }
      limits := limits.(hourly := Min(limits.hourly, sub.value.hourlyQuota));
      limits := limits.(sent := sub.value.sentHourly);
      limits := limits.(daily := sub.value.hourlyQuota * 24);
    }
    if save {
      UpdateLimits(site, limits, true, now);
    }
    r := Success(limits);
  }

  /** The options `verify_options` returns when the delivery method is this plugin and a username and
      API key are given, for the limits `getquota` returned: the verified flag tells whether the quota
      could be read, and with autoupdate on the throttle settings are taken from the limits, with the
      form's own send-at-once setting as ceiling and the form's interval. */
  function VerifiedOptions(options: map<string, Value>, limits: Reply<Limits>): (r: map<string, Value>)
    requires limits.Success? && Truthy(Lookup(options, AutoUpdateSetting, Null)) ==>
      ToInt(Lookup(options, IntervalSetting, Null)) != 0
    ensures r.Keys == options.Keys + {VerifiedSetting} +
      (if limits.Success? && Truthy(Lookup(options, AutoUpdateSetting, Null)) then ThrottleKeys else {})
    ensures r[VerifiedSetting] == Bool(limits.Success?)
    ensures limits.Failure? || !Truthy(Lookup(options, AutoUpdateSetting, Null)) ==>
      r == options[VerifiedSetting := Bool(limits.Success?)]
    ensures forall k :: k in options && k != VerifiedSetting && k !in ThrottleKeys ==> r[k] == options[k]
    ensures limits.Success? && Truthy(Lookup(options, AutoUpdateSetting, Null)) ==>
      r[SendLimit] == Int(limits.value.hourly) && r[SendPeriod] == Int(1) && r[SendDelay] == Int(0) &&
      r[BacklogSetting] == Int(limits.value.backlog) &&
      r[SendAtOnceSetting].Int? && r[SendAtOnceSetting].i <= ToInt(Lookup(options, CeilingSetting, Null))
    ensures limits.Success? && Truthy(Lookup(options, AutoUpdateSetting, Null)) ==>
      r[SendAtOnceSetting] == Int(SendAtOnce(ToInt(Lookup(options, CeilingSetting, Null)), limits.value.daily,
                                             ToInt(Lookup(options, IntervalSetting, Null))))
  {
    if limits.Failure? then options[VerifiedSetting := Bool(false)]
    else if Truthy(Lookup(options, AutoUpdateSetting, Null)) then
      Throttle(options[VerifiedSetting := Bool(true)], limits.value,
               ToInt(Lookup(options, CeilingSetting, Null)), ToInt(Lookup(options, IntervalSetting, Null)))
    else options[VerifiedSetting := Bool(true)]
  }

  /** The credentials check applies when the delivery method is this plugin and both a username and an
      API key are given. */
  predicate ChecksCredentials(options: map<string, Value>)
  {
    EqualsWord(Lookup(options, DeliveryMethodSetting, Null), Id) &&
    Truthy(Lookup(options, UsernameSetting, Null)) && Truthy(Lookup(options, ApiKeySetting, Null))
  }

  /** The part of `verify_options` that reads the provider: it checks the credentials of the form being
      saved (with no subaccount key in the form, the stored one is used), sets the verified flag, and with
      autoupdate on applies the limits to the form and updates the notice and period transients. */
  method VerifyOptions(site: Site, options: map<string, Value>, now: int,
                       user: Reply<UserInfo>, sub: Reply<SubaccountInfo>) returns (r: map<string, Value>)
    requires ChecksCredentials(options) && Truthy(Lookup(options, AutoUpdateSetting, Null)) &&
             QuotaOf(user, SubaccountUsed(site.settings, Lookup(options, SubaccountSetting, Null)), sub).Success? ==>
      ToInt(Lookup(options, IntervalSetting, Null)) != 0
    modifies site`settings, site`notices, site`transients, site`log
    ensures site.settings == old(site.settings)
    ensures !ChecksCredentials(options) ==>
      r == options && site.log == old(site.log) &&
      site.notices == old(site.notices) && site.transients == old(site.transients)
    ensures ChecksCredentials(options) ==>
      var limits := QuotaOf(user, SubaccountUsed(old(site.settings), Lookup(options, SubaccountSetting, Null)), sub);
      r == VerifiedOptions(options, limits) &&
      site.log == old(site.log) + QuotaCalls(Lookup(options, ApiKeySetting, Null),
                                             SubaccountUsed(old(site.settings), Lookup(options, SubaccountSetting, Null)), user) &&
      (limits.Success? && Truthy(Lookup(options, AutoUpdateSetting, Null)) ==>
         site.notices == SetNotice(old(site.notices), BacklogNotice, limits.value.backlog != 0) &&
         site.transients == PeriodTransients(old(site.transients), ToInt(Lookup(old(site.settings), SendPeriod, Null)),
                                             limits.value.sent, now)) &&
      (limits.Failure? || !Truthy(Lookup(options, AutoUpdateSetting, Null)) ==>
         site.notices == old(site.notices) && site.transients == old(site.transients))
  {
    r := options;
    if ChecksCredentials(options) {
      var limits := GetQuota(site, false, Lookup(options, ApiKeySetting, Null), Lookup(options, SubaccountSetting, Null),
                             now, user, sub);
      if limits.Failure? {
        r := r[VerifiedSetting := Bool(false)];
      } else {
        r := r[VerifiedSetting := Bool(true)];
        if Truthy(Lookup(options, AutoUpdateSetting, Null)) {
          UpdateLimits(site, limits.value, false, now);
          var ceiling := ToInt(Lookup(options, CeilingSetting, Null));
          var interval := ToInt(Lookup(options, IntervalSetting, Null));
          r := r[SendLimit := Int(limits.value.hourly)];
          r := r[SendPeriod := Int(1)];
          r := r[SendDelay := Int(0)];
          r := r[SendAtOnceSetting := Int(SendAtOnce(ceiling, limits.value.daily, interval))];
          r := r[BacklogSetting := Int(limits.value.backlog)];
        }
      }
    }
  }
}
