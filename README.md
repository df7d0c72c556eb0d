# Mailster Mandrill, modelled in Dafny

A model of the decision logic of the `MailsterMandrill` class in `mailster-mandrill.php`. This class is the
WordPress plugin that lets the Mailster newsletter plugin deliver through Mandrill. The model covers the
following parts:

- the mailer hooks: `initsend`, `presend`, `dosend`, `subscriber_errors` and `delivery_method`;
- the API client `do_call` and the cached subaccount list `get_subaccounts`;
- the bounce reconciler `check_bounces`;
- the quota merge `getquota` and the throttle update `update_limits`;
- the autoupdate part of `verify_options`.

The model has these modules:

- `Php` (php.dfy): PHP values, truthiness, integer conversion, loose `==` against an integer or a
  word, and `mailster_option` as a lookup with a fallback.
- `Host` (host.dfy): the host's state.
  - A `Site` class holds the settings, the transients with their expiry, the admin notices, and a log of
    the provider calls and of the subscriber-store mutations `unsubscribe` and `bounce`. Lookups in the
    store are not logged. A `Bounce` or `RejectsDelete` entry records the flag the code branches on.
  - The `Mailer` and `MailObject` classes hold the mail object's fields that the hooks set.
- `Client` (client.dfy): how `do_call` builds its request and maps the HTTP reply to a result, and the
  one-hour subaccount cache.
- `Transport` (transport.dfy): `initsend`, `presend` and the two filters.
- `Dispatch` (dispatch.dfy): `dosend`. The web path is specified by the function `Deliver`, which runs
  over a script of provider answers with one round per send attempt. The method `DoSend` is proved
  against that function.
- `Bounces` (bounces.dfy): `check_bounces`.
  - The answers of the subscriber store and the provider are parameters. Entry k of the slice and
    campaign i of its subscriber index the answers of `bounce()` and `rejects/delete`.
  - Functions state the calls made for each entry (`EntryEvents`) and for a whole run (`RunEvents`).
  - The loop methods `MatchCampaigns`, `ProcessEntry` and `ProcessList` are proved against those
    functions.
  - `CheckBounces` applies the lock and the fetch to a `Site`.
- `Quota` (quota.dfy): `getquota`, `update_limits` and the autoupdate branch of `verify_options`.
  - `floor(daily / (1440 / interval))` is computed exactly as `daily * interval / 1440`.
  - `PerIntervalIsFloor` proves that this equals the floor of the real-valued quotient.

The model follows the code as written in three places where it may be misread:

- With a subaccount, `getquota` takes the daily limit from the subaccount's hourly quota times 24, even
  when the account's own quota, and so the hourly limit, is smaller (line 420). `DailyMatchesHourly`
  states exactly when the daily limit is 24 hourly limits.
- The soft-bounce resend in `dosend` calls `dosend` again with no bound on the depth (line 216).
  `SoftBounceLoopsWhilePurged` shows that the delivery never finishes while every attempt
  soft-bounces and every purge reports `deleted`.
- The `$count++` for unknown addresses in `check_bounces` (line 321) runs after the slice has been
  taken, so it never enlarges the slice. `ProcessList` keeps the counter and `OnlyFirstHundred` shows
  that only the first 100 entries matter.

## Model

| member | source | states |
|---|---|---|
| Php.NumericStringValue | mailster-mandrill.php:89-92 | a string of decimal digits is numeric and converts to the number it spells, so a port typed as text compares like the integer |
| Host.TransientLease | mailster-mandrill.php:250-255 | a transient reads back as written for its time to live (forever when the ttl is 0), reads as false after it expires, and leaves other keys unchanged |
| Host.SetNotice | mailster-mandrill.php:106-108 | raising or removing a notice makes its id present exactly when raised and leaves every other notice unchanged |
| Client.PrepareCall | mailster-mandrill.php:345-356 | the request goes to the endpoint URL for the path, with the timeout given and no SSL verification; a boolean data argument becomes `bodyonly` with no fields; the caller's fields are sent with `key` added only when it is missing |
| Client.Interpret | mailster-mandrill.php:358-379 | a transport error passes through; a non-200 status becomes an error with the body's `name` as code and its `message`, and with neither when the `name` is PHP-empty (missing, "", "0", 0, false or an empty array), as `WP_Error` stores nothing for an empty code; on 200 the result is the body when `bodyonly` is set and the wrapped code, headers and body otherwise |
| Client.DoCall | mailster-mandrill.php:343-381 | the request goes to the endpoint URL for the path with the timeout given and no SSL verification; the result is an error exactly when the transport failed or the status is not 200, the bare body exactly on a 200 with `bodyonly` in effect (the boolean argument when one is given), and otherwise carries the reply's body |
| Client.FlagIsBodyOnly | mailster-mandrill.php:346-349 | a boolean second argument is the same call as no fields with that boolean as `bodyonly` |
| Client.BodyOnlyProjectsWrapped | mailster-mandrill.php:371-379 | the body-only and the wrapped result carry the same body, and errors do not depend on `bodyonly` |
| Client.CallerKeyWins | mailster-mandrill.php:350 | a `key` that the caller supplies is sent unchanged |
| Client.GetSubaccounts | mailster-mandrill.php:661-674 | a truthy cached list is returned without a call; otherwise `subaccounts/list` is called, a success is cached for 3600 seconds and returned, and an error gives an empty list with nothing cached |
| Client.SubaccountsCachedForAnHour | mailster-mandrill.php:663-666 | within the hour after a successful non-empty fetch, a second call makes no provider call and returns the same list |
| Transport.InitSend | mailster-mandrill.php:85-110 | in SMTP mode the mailer uses `smtp.mandrillapp.com` on the stored port (25 by default), with implicit TLS exactly when the port equals 465, authentication with the username and the API key as password, and keep-alive, while DKIM is untouched; in any other mode only DKIM is switched off; outside cron the backlog notice is raised exactly when a backlog is stored |
| Transport.ImplicitTlsOnlyOn465 | mailster-mandrill.php:92 | the integer 465 and the string "465" select implicit TLS, while 25, "587" and an unset port do not |
| Transport.TrackingHeaders | mailster-mandrill.php:145-150 | `X-MC-Track` is present exactly when the track setting is truthy, and `X-MC-Subaccount` exactly when the subaccount setting is; each carries its setting's value, in that order |
| Transport.FalsyStringsAddNoHeader | mailster-mandrill.php:145-150 | with each of the tracking and subaccount settings "0", "", missing or false, no header is added |
| Transport.PreSend | mailster-mandrill.php:139-152 | the mailer's custom headers become the old ones followed by the provider headers |
| Transport.SubscriberErrors | mailster-mandrill.php:122-125 | the error list keeps its entries and gains the `[rejected]` marker at its end |
| Transport.DeliveryMethods | mailster-mandrill.php:440-443 | the method `mandrill` is registered with the label "Mandrill" and every other method is kept |
| Dispatch.Classify | mailster-mandrill.php:188-233 | a transport error fails with its message; the first recipient's status "sent" or "queued" is accepted; a soft bounce of a mail carrying both Mailster headers is purged; anything else fails with "[status] reason" |
| Dispatch.Deliver | mailster-mandrill.php:178-233 | without provider answers the delivery is unfinished with no calls; otherwise the first call is the send of the mail, with its 120-second timeout; a finished delivery reports `sent` exactly when it carries no error; each round makes at most two calls |
| Dispatch.FirstAttempt | mailster-mandrill.php:188-222 | a failed attempt gives `sent=false` and the error; an accepted one gives `sent=true`; a purge that does not report `deleted` gives `sent=true`; each after exactly the calls made |
| Dispatch.FinalRound | mailster-mandrill.php:188-229 | an attempt that does not resend ends the delivery after one send, followed at most by one purge that reported nothing deleted |
| Dispatch.ResendOnlyAfterDeletion | mailster-mandrill.php:209-216 | the first call is a send, and every later send comes straight after a purge that reported `deleted` |
| Dispatch.SendsCountPurges | mailster-mandrill.php:209-220 | a finished delivery sends exactly once more than it has confirmed purges; an unfinished one sends exactly as often |
| Dispatch.SoftBounceLoopsWhilePurged | mailster-mandrill.php:199-216 | while every attempt soft-bounces and every purge reports `deleted`, each round sends and purges once and the delivery never finishes |
| Dispatch.RejectedFailureCarriesMarker | mailster-mandrill.php:226-229 | a failure for the status "rejected" reports a message that starts with the marker registered by `subscriber_errors` |
| Dispatch.Attempt | mailster-mandrill.php:176-233 | one attempt logs the send, with its 120-second timeout, and, for a purge, the delete of the subscriber found by its hash; it sets `sent` and the error as `Classify` judges; it asks for a resend exactly when the purge reported `deleted`, and then leaves `sent` and the error alone |
| Dispatch.DoSend | mailster-mandrill.php:164-237 | in SMTP mode the host's own send decides and no provider call is made; in web mode the mail's `sent` flag, its error and the logged calls are those of `Deliver` |
| Bounces.LockTtl | mailster-mandrill.php:255 | the lock lives `bounce_check` minutes, which is 300 seconds when the setting is unset |
| Bounces.VisitedBounds | mailster-mandrill.php:291-295 | the campaign loop visits at most 10 campaigns, all within a day of the reject; it stops exactly at the first campaign that is too old or at index 10 |
| Bounces.OrphanEntry | mailster-mandrill.php:315-321 | an entry with no local subscriber gets exactly one `rejects/delete` and no subscriber mutation |
| Bounces.ComplaintEntry | mailster-mandrill.php:282-286 | a "spam" or "unsub" entry gets one unsubscribe followed by one `rejects/delete` |
| Bounces.OtherReasonEntry | mailster-mandrill.php:282-313 | an entry with any other non-bounce reason gets exactly one `rejects/delete` and no mutation |
| Bounces.MatchingCalls | mailster-mandrill.php:289-304 | `bounce` is called once per visited campaign, in the order returned, with the hard flag exactly for "hard-bounce"; there is one delete per bounce that reports true, always for the entry's address; the loop does not stop on a successful delete |
| Bounces.ResetIsLastDelete | mailster-mandrill.php:296-313 | `$reseted` after the loop is true exactly when the loop's last delete reported `deleted` |
| Bounces.ResetAfterIff | mailster-mandrill.php:296-304 | `$reseted` is true exactly when some bounce reported true, its delete reported `deleted`, and no later bounce reported true |
| Bounces.BounceEntry | mailster-mandrill.php:287-313 | a bounce entry gets the loop's calls followed by a generic delete exactly when the last in-loop delete did not report `deleted` or there was none |
| Bounces.EntryPurged | mailster-mandrill.php:275-321 | every processed entry gets at least one `rejects/delete`, all for its own address and the configured subaccount |
| Bounces.EntryEvents | mailster-mandrill.php:275-322 | an entry always makes a call; an entry whose email has no subscriber, or whose reason is not a soft or hard bounce (complaints included), ends with the generic `rejects/delete` and makes exactly one delete; an entry without a subscriber changes no subscriber |
| Bounces.Processed | mailster-mandrill.php:273-322 | the first n entries make at least n calls |
| Bounces.RunEvents | mailster-mandrill.php:269-323 | a run makes at least one call per entry of its first 100, and an empty list makes none |
| Bounces.ProcessedInOrder | mailster-mandrill.php:273 | entries are handled in list order, each one completely before the next |
| Bounces.ProcessedPrefix | mailster-mandrill.php:273 | the calls for the first n entries depend only on those entries |
| Bounces.OnlyFirstHundred | mailster-mandrill.php:271-273 | a run equals the run over the list's first 100 entries, and entries beyond the hundredth change nothing |
| Bounces.EveryEntryPurged | mailster-mandrill.php:273-321 | a run makes at least as many `rejects/delete` calls as the entries it processes |
| Bounces.MatchCampaigns | mailster-mandrill.php:289-304 | the campaign loop makes exactly the calls of `Matching` over the visited campaigns and leaves `$reseted` as `ResetAfter` |
| Bounces.ProcessEntry | mailster-mandrill.php:275-322 | one entry's handling makes exactly the calls of `EntryEvents` |
| Bounces.ProcessList | mailster-mandrill.php:269-324 | the entry loop over `array_slice(list, 0, 100)` makes exactly the calls of `RunEvents`, despite the `$count++` |
| Bounces.CheckBounces | mailster-mandrill.php:248-326 | while the lock is alive it returns false with no call and no change; otherwise it sets the lock for `bounce_check` minutes, calls `rejects/list` for the configured subaccount, stops with false on an error, and otherwise makes the run's calls and returns null |
| Bounces.SecondRunWithinLock | mailster-mandrill.php:250-255 | a second run within the lock's lifetime returns false and adds no call to those of the first run |
| Quota.QuotaOf | mailster-mandrill.php:397-421 | an error of either call is returned unchanged; without a subaccount, hourly = q, daily = 24·q and sent = 0; with one, hourly = min(q, sq), daily = 24·sq and sent is the subaccount's hourly count; backlog and sent_total always come from the account |
| Quota.DailyMatchesHourly | mailster-mandrill.php:414-421 | daily = 24·hourly exactly when no subaccount is used or the subaccount's quota does not exceed the account's |
| Quota.PerIntervalIsFloor | mailster-mandrill.php:690 | the exact integer share `daily*interval/1440` equals `floor(daily/(1440/interval))` over the reals |
| Quota.SendAtOnce | mailster-mandrill.php:690 | `send_at_once` never exceeds the ceiling, is at least 1 when the ceiling is, and equals the interval's share when that lies between 1 and the ceiling |
| Quota.SendAtOnceMonotone | mailster-mandrill.php:690 | a larger daily limit never gives a smaller batch |
| Quota.Throttle | mailster-mandrill.php:686-692 | the update writes `send_limit` = hourly, `send_period` = 1, `send_delay` = 0, `send_at_once` = `SendAtOnce` of the ceiling, the daily limit and the interval (so within the ceiling and at least 1 when the ceiling is), and the backlog, and keeps every other setting |
| Quota.WriteThrottle | mailster-mandrill.php:687-691 | the five option writes leave the settings as `Throttle` of the old settings, with the plugin's ceiling (100 by default) and Mailster's interval |
| Quota.PeriodTransients | mailster-mandrill.php:697-701 | the period flag and the counter are both stored, the flag reads whether anything was sent and the counter holds the sent count; other transients are unchanged |
| Quota.PeriodBookkeeping | mailster-mandrill.php:697-701 | a running send period keeps its expiry and an ended one is restarted for `send_period` hours; the period flag then reads whether anything was sent; the counter reads the sent count unless an expired counter is still stored; other transients are unchanged |
| Quota.UpdateLimits | mailster-mandrill.php:685-702 | with `update`, the throttle is written with the plugin's ceiling (100 by default) and Mailster's interval; the backlog notice is raised exactly when there is a backlog; the period transients are updated with the period read after the writes |
| Quota.UpdatedPeriodIsOneHour | mailster-mandrill.php:688-698 | after a throttle update, a send period that was not running starts for exactly 3600 seconds |
| Quota.GetQuota | mailster-mandrill.php:395-428 | it calls `users/info`, and then `subaccounts/info` only on success and only with a subaccount, using the given key and subaccount or the stored ones; it returns `QuotaOf`; it writes the limits only when `save` is set and both calls succeed |
| Quota.VerifiedOptions | mailster-mandrill.php:605-620 | the verified flag records exactly whether the quota could be read; on an error or without autoupdate nothing else changes; with autoupdate the hourly limit, a one-hour period, no delay and the backlog are taken from the limits, send-at-once is `SendAtOnce` of the form's own setting, the daily limit and the form's interval, and settings outside the throttle are unchanged |
| Quota.VerifyOptions | mailster-mandrill.php:596-624 | the credentials are checked only when the delivery method is `mandrill` and a username and API key are given; the options become `VerifiedOptions` of the quota result; with autoupdate, the notice and the period transients are updated and the stored settings are left alone |

## Left out

- Network and JSON: `wp_remote_post`, `json_decode` and the provider's service are parameters.
  - HTTP replies are given as decoded `Json`.
  - Answers that the code reads become `Reply` values, round scripts or answer sets.
- `dosend` MIME handling is out of scope: `PreSend`, `GetSentMIMEMessage`, the raw message, and the request fields that are always null (`ip_pool`, `return_path_domain`).
  - Mailster's own `pre_send` and `do_send` are not part of this model.
  - In SMTP mode, the result of the host's send is the parameter `relaySent`.
- Dispatch.Deliver: when a `deleted` purge triggers a resend, no fixed number of provider answers lets the model finish. A script that runs out gives `Unfinished`, which is where the PHP code would recurse further.
- Dispatch.DoSend: `set_error` is modelled as storing the last message. Its other effects inside Mailster are not modelled. In SMTP mode the host's own send is taken to leave the mail's error as it was.
- The SMTP reachability probe of `verify_options` uses `fsockopen`, which is socket I/O, so it is left out.
- Scheduling is left out: cron scheduling and unscheduling in `verify_options`, `activate`, `deactivate` and `init` register WordPress hooks and events.
- The settings UI is left out: `deliverytab`, `section_tab_bounce` and `notice` are admin screens.
- Notice and error text are left out. Notices are modelled by their id being raised or removed.
- Quota.PerInterval: floating-point rounding of `1440/interval` and of the quotient is replaced by exact arithmetic. A non-zero interval is required because PHP throws on a division by zero.
- Quota.SendAtOnce: PHP's `min` over a stored string returns that string, but the model stores the integer it compares as.
- Quota.VerifyOptions: with the form's send-at-once setting missing, PHP's `min` returns null. The model stores `Int(0)`.
- Php.ToInt: numeric strings are decimal digits with an optional leading '-'. PHP's exponent, decimal-point and leading-whitespace forms are not modelled.
- Php.ToInt: in PHP 8, `*` and `/` on a non-numeric string or an array (mailster-mandrill.php:255, 690, 698) throw a TypeError; the model continues with the string's leading digits (0 when there are none) and with 0 or 1 for an array. PHP's `min` compares its arguments without converting them; the model compares the converted integers.
- Bounces.CheckBounces: runs are modelled one after another. The lock is a check (line 250) followed by a separate set (line 255), so two overlapping cron requests can both pass the check and both process the list; that race is not captured.
- Bounces.RejectEntry: `strtotime(created_at)` is given as the integer `createdAt`. The model does not parse dates.
- Host.Event: a call's request fields other than those recorded are not modelled, including the raw message and the API key of a `rejects/delete`. Only `SendRaw` records its timeout (120 seconds); every other call uses `do_call`'s default of 5 seconds, which its event does not record.
- Client.Interpret: a non-string `name` that is not PHP-empty (a non-zero number, `true`, an object) becomes the code as is in PHP; the model's codes are strings and such a name reads as "".
- Transport.DeliveryMethods: the map models which methods are registered and their labels. The order of PHP's array is not modelled.
- Transient storage is modelled as a map from key to value and expiry. WordPress's option rows and object cache are not modelled.
