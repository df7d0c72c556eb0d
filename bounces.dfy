/** The bounce reconciler `check_bounces`: guarded by a lock transient, it fetches the provider's reject
    list and, for each of its first 100 entries in order, applies the entry to the local subscriber
    (unsubscribe, or a soft/hard bounce matched against recently sent campaigns) and purges the entry
    from the provider's list. */
module Bounces {
  import opened Php
  import opened Host

  const LockKey := "mailster_check_bounces_lock"
  const BounceCheckSetting := "bounce_check"
  const DefaultBounceCheck := 5
  const SliceSize := 100
  const MaxCampaigns := 10
  /** The matching window, `60 * 1440` seconds. */
  const Day := 86400

  /** One entry of the provider's reject list; `createdAt` is `strtotime(created_at)`. */
  datatype RejectEntry = RejectEntry(email: string, reason: string, createdAt: int)

  /** One campaign that Mailster sent to a subscriber, with the time it was sent. */
  datatype SentCampaign = SentCampaign(campaignId: nat, timestamp: int)

  /** The subscriber store and the provider's answers during one run. Entry k is the k-th entry of the
      slice, campaign i the i-th campaign returned for that entry's subscriber. */
  datatype Answers = Answers(
    subscribers: map<string, nat>,           // get_by_mail: address to subscriber ID
    campaigns: map<nat, seq<SentCampaign>>,  // get_sent_campaigns, in the order returned
    bounced: set<(nat, nat)>,                // (k, i): bounce() reports true for campaign i of entry k
    loopDeleted: set<(nat, nat)>,            // (k, i): the rejects/delete after that bounce reports deleted
    finalDeleted: set<nat>)                  // k: the generic rejects/delete of entry k reports deleted

  function Campaigns(a: Answers, id: nat): seq<SentCampaign>
  {
    if id in a.campaigns then a.campaigns[id] else []
  }

  /** The lock's time to live: the `bounce_check` setting (5 when unset) in minutes. */
  function LockTtl(settings: map<string, Value>): (ttl: int)
    ensures BounceCheckSetting !in settings ==> ttl == 300
  {
    ToInt(Lookup(settings, BounceCheckSetting, Int(DefaultBounceCheck))) * 60
  }

  function Subaccount(settings: map<string, Value>): Value
  {
    Lookup(settings, SubaccountSetting, Null)
  }

  predicate IsComplaint(reason: string)
  {
    reason == "spam" || reason == "unsub"
  }

  predicate IsBounce(reason: string)
  {
    reason == "soft-bounce" || reason == "hard-bounce"
  }

  /** A campaign sent more than a day before the reject entry was created. */
  predicate OutOfWindow(e: RejectEntry, c: SentCampaign)
  {
    c.timestamp - e.createdAt + Day < 0
  }

  /** The campaign loop breaks at position i: the campaign is too old, or ten have been examined. */
  predicate StopsAt(e: RejectEntry, cs: seq<SentCampaign>, i: nat)
    requires i < |cs|
  {
    OutOfWindow(e, cs[i]) || i >= MaxCampaigns
  }

  function VisitFrom(e: RejectEntry, cs: seq<SentCampaign>, i: nat): (n: nat)
    requires i <= |cs|
    ensures i <= n <= |cs|
    decreases |cs| - i
  {
    if i == |cs| || StopsAt(e, cs, i) then i else VisitFrom(e, cs, i + 1)
  }

  /** How many campaigns the loop visits: those before the first break. */
  function Visited(e: RejectEntry, cs: seq<SentCampaign>): (n: nat)
    ensures n <= |cs|
  {
    VisitFrom(e, cs, 0)
  }

  lemma {:induction false} VisitFromBounds(e: RejectEntry, cs: seq<SentCampaign>, i: nat)
    requires i <= |cs| && i <= MaxCampaigns
    ensures var n := VisitFrom(e, cs, i);
      i <= n <= |cs| && n <= MaxCampaigns &&
      (forall j :: i <= j < n ==> !OutOfWindow(e, cs[j])) &&
      (n < |cs| ==> OutOfWindow(e, cs[n]) || n == MaxCampaigns)
    decreases |cs| - i
  {
    if i < |cs| && !StopsAt(e, cs, i) {
      VisitFromBounds(e, cs, i + 1);
    }
  }

  /** The campaign loop visits at most ten campaigns, all within a day of the entry, and stops exactly
      at the first campaign that is too old or at the tenth. */
  lemma VisitedBounds(e: RejectEntry, cs: seq<SentCampaign>)
    ensures var n := Visited(e, cs);
      n <= |cs| && n <= MaxCampaigns &&
      (forall j :: 0 <= j < n ==> !OutOfWindow(e, cs[j])) &&
      (n < |cs| ==> OutOfWindow(e, cs[n]) || n == MaxCampaigns)
  {
    VisitFromBounds(e, cs, 0);
  }

  /** The calls for campaign i of entry k: `bounce(id, campaign, hard)` and, when it reports true,
      one `rejects/delete` of the entry's address. */
  function CampaignEvents(k: nat, e: RejectEntry, id: nat, c: SentCampaign, i: nat, sub: Value, a: Answers): seq<Event>
  {
    var recorded := (k, i) in a.bounced;
    [Bounce(id, c.campaignId, e.reason == "hard-bounce", recorded)] +
    (if recorded then [RejectsDelete(e.email, sub, (k, i) in a.loopDeleted)] else [])
  }

  /** The calls of the campaign loop over its first n campaigns. */
  function Matching(k: nat, e: RejectEntry, id: nat, cs: seq<SentCampaign>, n: nat, sub: Value, a: Answers): seq<Event>
    requires n <= |cs|
  {
    if n == 0 then []
    else Matching(k, e, id, cs, n - 1, sub, a) + CampaignEvents(k, e, id, cs[n - 1], n - 1, sub, a)
  }

  /** `$reseted` after n campaigns: the answer of the last delete issued, false when none was. */
  function ResetAfter(k: nat, n: nat, a: Answers): bool
  {
    if n == 0 then false
    else if (k, n - 1) in a.bounced then (k, n - 1) in a.loopDeleted
    else ResetAfter(k, n - 1, a)
  }

  /** The calls for entry k of the slice (lines 275-322). */
  function EntryEvents(k: nat, e: RejectEntry, sub: Value, a: Answers): (r: seq<Event>)
    ensures r != []
    ensures e.email !in a.subscribers || !IsBounce(e.reason) ==>
      r[|r| - 1] == RejectsDelete(e.email, sub, k in a.finalDeleted) && Deletes(r) == 1
    ensures e.email !in a.subscribers ==> Mutations(r) == 0
  {
    var purge := RejectsDelete(e.email, sub, k in a.finalDeleted);
    if e.email !in a.subscribers then [purge]
    else
      var id := a.subscribers[e.email];
      if IsComplaint(e.reason) then
        assert [Unsubscribe(id), purge][1..] == [purge] && [purge][1..] == [];
        assert Deletes([purge]) == 1;
        [Unsubscribe(id), purge]
      else if IsBounce(e.reason) then
        var cs := Campaigns(a, id);
        var n := Visited(e, cs);
        Matching(k, e, id, cs, n, sub, a) + (if ResetAfter(k, n, a) then [] else [purge])
      else [purge]
  }

  /** The calls for the first n entries of the list, in list order. */
  function Processed(list: seq<RejectEntry>, n: nat, sub: Value, a: Answers): (r: seq<Event>)
    requires n <= |list|
    ensures |r| >= n
  {
    if n == 0 then [] else Processed(list, n - 1, sub, a) + EntryEvents(n - 1, list[n - 1], sub, a)
  }

  /** The calls for a fetched reject list: its first 100 entries, in order. */
  function RunEvents(list: seq<RejectEntry>, sub: Value, a: Answers): (r: seq<Event>)
    ensures |r| >= Min(|list|, SliceSize)
    ensures list == [] ==> r == []
  {
    Processed(list, Min(|list|, SliceSize), sub, a)
  }

  // Views of a call log.

  function Deletes(events: seq<Event>): nat
  {
    if events == [] then 0 else (if events[0].RejectsDelete? then 1 else 0) + Deletes(events[1..])
  }

  function Mutations(events: seq<Event>): nat
  {
    if events == [] then 0
    else (if events[0].Unsubscribe? || events[0].Bounce? then 1 else 0) + Mutations(events[1..])
  }

  function RecordedBounces(events: seq<Event>): nat
  {
    if events == [] then 0
    else (if events[0].Bounce? && events[0].recorded then 1 else 0) + RecordedBounces(events[1..])
  }

  /** The (subscriber, campaign, hard) arguments of the `bounce` calls, in order. */
  function BounceCalls(events: seq<Event>): seq<(nat, nat, bool)>
  {
    if events == [] then []
    else (if events[0].Bounce? then [(events[0].subscriber, events[0].campaign, events[0].hard)] else [])
         + BounceCalls(events[1..])
  }

  /** The `bounce` calls expected for a run of campaigns: one per campaign, in the order given. */
  function CampaignCalls(id: nat, cs: seq<SentCampaign>, hard: bool): seq<(nat, nat, bool)>
  {
    if cs == [] then [] else CampaignCalls(id, cs[..|cs| - 1], hard) + [(id, cs[|cs| - 1].campaignId, hard)]
  }

  /** The last `rejects/delete` of a log reported `deleted`. */
  predicate LastDeleteConfirmed(events: seq<Event>)
  {
    if events == [] then false
    else if events[|events| - 1].RejectsDelete? then events[|events| - 1].deleted
    else LastDeleteConfirmed(events[..|events| - 1])
  }

  /** Every `rejects/delete` in the log is for this address and subaccount. */
  predicate DeletesOnly(events: seq<Event>, email: string, sub: Value)
  {
    forall j :: 0 <= j < |events| && events[j].RejectsDelete? ==>
      events[j].email == email && events[j].subaccount == sub
  }

  lemma {:induction false} DeletesAppend(x: seq<Event>, y: seq<Event>)
    ensures Deletes(x + y) == Deletes(x) + Deletes(y)
  {
    if x == [] {
      assert x + y == y;
    } else {
      assert (x + y)[1..] == x[1..] + y;
      DeletesAppend(x[1..], y);
    }
  }

  lemma {:induction false} MutationsAppend(x: seq<Event>, y: seq<Event>)
    ensures Mutations(x + y) == Mutations(x) + Mutations(y)
  {
    if x == [] {
      assert x + y == y;
    } else {
      assert (x + y)[1..] == x[1..] + y;
      MutationsAppend(x[1..], y);
    }
  }

  lemma {:induction false} RecordedAppend(x: seq<Event>, y: seq<Event>)
    ensures RecordedBounces(x + y) == RecordedBounces(x) + RecordedBounces(y)
  {
    if x == [] {
      assert x + y == y;
    } else {
      assert (x + y)[1..] == x[1..] + y;
      RecordedAppend(x[1..], y);
    }
  }

  lemma {:induction false} BounceCallsAppend(x: seq<Event>, y: seq<Event>)
    ensures BounceCalls(x + y) == BounceCalls(x) + BounceCalls(y)
  {
    if x == [] {
      assert x + y == y;
    } else {
      var head := if x[0].Bounce? then [(x[0].subscriber, x[0].campaign, x[0].hard)] else [];
      assert (x + y)[0] == x[0];
      assert (x + y)[1..] == x[1..] + y;
      BounceCallsAppend(x[1..], y);
      calc {
        BounceCalls(x + y);
        head + BounceCalls(x[1..] + y);
        head + (BounceCalls(x[1..]) + BounceCalls(y));
        (head + BounceCalls(x[1..])) + BounceCalls(y);
      }
    }
  }

  lemma CountsAppend(x: seq<Event>, y: seq<Event>)
    ensures Deletes(x + y) == Deletes(x) + Deletes(y)
    ensures Mutations(x + y) == Mutations(x) + Mutations(y)
    ensures RecordedBounces(x + y) == RecordedBounces(x) + RecordedBounces(y)
    ensures BounceCalls(x + y) == BounceCalls(x) + BounceCalls(y)
  {
    DeletesAppend(x, y);
    MutationsAppend(x, y);
    RecordedAppend(x, y);
    BounceCallsAppend(x, y);
  }

  lemma {:induction false} LastDeleteAppend(x: seq<Event>, y: seq<Event>)
    ensures LastDeleteConfirmed(x + y) ==
      if Deletes(y) > 0 then LastDeleteConfirmed(y) else LastDeleteConfirmed(x)
    decreases |y|
  {
    if y == [] {
      assert x + y == x;
    } else {
      var y' := y[..|y| - 1];
      assert (x + y)[..|x + y| - 1] == x + y';
      assert y == y' + [y[|y| - 1]];
      CountsAppend(y', [y[|y| - 1]]);
      LastDeleteAppend(x, y');
      if !y[|y| - 1].RejectsDelete? {
        LastDeleteAppend([], y');
        assert [] + y' == y';
      }
    }
  }

  // Properties of one entry.

  /** An entry without a local subscriber gets exactly one `rejects/delete` and no subscriber mutation. */
  lemma OrphanEntry(k: nat, e: RejectEntry, sub: Value, a: Answers)
    requires e.email !in a.subscribers
    ensures EntryEvents(k, e, sub, a) == [RejectsDelete(e.email, sub, k in a.finalDeleted)]
    ensures Deletes(EntryEvents(k, e, sub, a)) == 1 && Mutations(EntryEvents(k, e, sub, a)) == 0
  {
  }

  /** A "spam" or "unsub" entry of a known subscriber gets one unsubscribe followed by one delete. */
  lemma ComplaintEntry(k: nat, e: RejectEntry, sub: Value, a: Answers)
    requires e.email in a.subscribers && IsComplaint(e.reason)
    ensures EntryEvents(k, e, sub, a) ==
      [Unsubscribe(a.subscribers[e.email]), RejectsDelete(e.email, sub, k in a.finalDeleted)]
  {
  }

  /** An entry of a known subscriber with any other non-bounce reason gets one delete and no mutation. */
  lemma OtherReasonEntry(k: nat, e: RejectEntry, sub: Value, a: Answers)
    requires e.email in a.subscribers && !IsComplaint(e.reason) && !IsBounce(e.reason)
    ensures EntryEvents(k, e, sub, a) == [RejectsDelete(e.email, sub, k in a.finalDeleted)]
    ensures Deletes(EntryEvents(k, e, sub, a)) == 1 && Mutations(EntryEvents(k, e, sub, a)) == 0
  {
  }

  /** The campaign loop calls `bounce` once per visited campaign, in the order returned, with the
      hard flag set exactly for "hard-bounce"; it deletes once per bounce that reports true, always for
      the entry's own address; and how far it goes does not depend on any answer. */
  lemma {:induction false} MatchingCalls(k: nat, e: RejectEntry, id: nat, cs: seq<SentCampaign>, n: nat, sub: Value, a: Answers)
    requires n <= |cs|
    ensures BounceCalls(Matching(k, e, id, cs, n, sub, a)) == CampaignCalls(id, cs[..n], e.reason == "hard-bounce")
    ensures Deletes(Matching(k, e, id, cs, n, sub, a)) == RecordedBounces(Matching(k, e, id, cs, n, sub, a))
    ensures Mutations(Matching(k, e, id, cs, n, sub, a)) == n
    ensures DeletesOnly(Matching(k, e, id, cs, n, sub, a), e.email, sub)
  {
    if n > 0 {
      var prev := Matching(k, e, id, cs, n - 1, sub, a);
      var step := CampaignEvents(k, e, id, cs[n - 1], n - 1, sub, a);
      MatchingCalls(k, e, id, cs, n - 1, sub, a);
      CountsAppend(prev, step);
      assert cs[..n][..n - 1] == cs[..n - 1];
      var events := prev + step;
      forall j | 0 <= j < |events| && events[j].RejectsDelete?
        ensures events[j].email == e.email && events[j].subaccount == sub
      {
        if j >= |prev| {
          assert events[j] == step[j - |prev|];
        }
      }
      CampaignCounts(k, e, id, cs[n - 1], n - 1, sub, a);
    }
  }

  lemma CampaignCounts(k: nat, e: RejectEntry, id: nat, c: SentCampaign, i: nat, sub: Value, a: Answers)
    ensures var step := CampaignEvents(k, e, id, c, i, sub, a);
      BounceCalls(step) == [(id, c.campaignId, e.reason == "hard-bounce")] &&
      Mutations(step) == 1 &&
      Deletes(step) == RecordedBounces(step) == (if (k, i) in a.bounced then 1 else 0)
  {
    var step := CampaignEvents(k, e, id, c, i, sub, a);
    var bounce := Bounce(id, c.campaignId, e.reason == "hard-bounce", (k, i) in a.bounced);
    if (k, i) in a.bounced {
      var delete := RejectsDelete(e.email, sub, (k, i) in a.loopDeleted);
      assert step == [bounce, delete];
      assert step[1..] == [delete] && step[1..][1..] == [];
      assert Deletes(step[1..]) == 1 && Mutations(step[1..]) == 0;
      assert RecordedBounces(step[1..]) == 0 && BounceCalls(step[1..]) == [];
    } else {
      assert step == [bounce] && step[1..] == [];
    }
  }

  /** `$reseted` is true after the loop exactly when its last delete reported `deleted`. */
  lemma {:induction false} ResetIsLastDelete(k: nat, e: RejectEntry, id: nat, cs: seq<SentCampaign>, n: nat, sub: Value, a: Answers)
    requires n <= |cs|
    ensures ResetAfter(k, n, a) == LastDeleteConfirmed(Matching(k, e, id, cs, n, sub, a))
  {
    if n > 0 {
      var prev := Matching(k, e, id, cs, n - 1, sub, a);
      var step := CampaignEvents(k, e, id, cs[n - 1], n - 1, sub, a);
      ResetIsLastDelete(k, e, id, cs, n - 1, sub, a);
      LastDeleteAppend(prev, step);
      if (k, n - 1) in a.bounced {
        assert step[1..][1..] == [];
        assert step[..|step| - 1] == [step[0]];
      } else {
        assert step[1..] == [];
      }
    }
  }

  /** `$reseted` in terms of the answers: some campaign's bounce reported true and its delete reported
      `deleted`, and no later bounce reported true. */
  lemma {:induction false} ResetAfterIff(k: nat, n: nat, a: Answers)
    ensures ResetAfter(k, n, a) <==>
      exists i :: 0 <= i < n && (k, i) in a.bounced && (k, i) in a.loopDeleted &&
                  forall j :: i < j < n ==> (k, j) !in a.bounced
  {
    if n > 0 {
      ResetAfterIff(k, n - 1, a);
      if (k, n - 1) in a.bounced {
        if (k, n - 1) in a.loopDeleted {
          assert forall j :: n - 1 < j < n ==> (k, j) !in a.bounced;
        } else {
          forall i | 0 <= i < n - 1 && (k, i) in a.bounced && (k, i) in a.loopDeleted
            ensures exists j :: i < j < n && (k, j) in a.bounced
          {
            assert i < n - 1 < n;
          }
        }
      }
    }
  }

  /** A soft- or hard-bounce entry of a known subscriber gets the campaign loop's calls, followed by a
      generic delete exactly when the loop's last delete did not report `deleted` or there was none. */
  lemma BounceEntry(k: nat, e: RejectEntry, sub: Value, a: Answers)
    requires e.email in a.subscribers && IsBounce(e.reason)
    ensures var id := a.subscribers[e.email];
      var cs := Campaigns(a, id);
      var loop := Matching(k, e, id, cs, Visited(e, cs), sub, a);
      EntryEvents(k, e, sub, a) ==
        loop + (if LastDeleteConfirmed(loop) then [] else [RejectsDelete(e.email, sub, k in a.finalDeleted)])
  {
    var id := a.subscribers[e.email];
    var cs := Campaigns(a, id);
    VisitedBounds(e, cs);
    ResetIsLastDelete(k, e, id, cs, Visited(e, cs), sub, a);
  }

  lemma {:induction false} ConfirmedHasDelete(events: seq<Event>)
    requires LastDeleteConfirmed(events)
    ensures Deletes(events) > 0
  {
    var last := events[|events| - 1];
    assert events == events[..|events| - 1] + [last];
    CountsAppend(events[..|events| - 1], [last]);
    if !last.RejectsDelete? {
      ConfirmedHasDelete(events[..|events| - 1]);
    }
  }

  /** Every entry that is processed gets at least one `rejects/delete`, and every delete it gets is for
      its own address: no entry is left on the provider's list without a purge attempt. */
  lemma EntryPurged(k: nat, e: RejectEntry, sub: Value, a: Answers)
    ensures Deletes(EntryEvents(k, e, sub, a)) >= 1
    ensures DeletesOnly(EntryEvents(k, e, sub, a), e.email, sub)
  {
    var purge := RejectsDelete(e.email, sub, k in a.finalDeleted);
    if e.email in a.subscribers && IsBounce(e.reason) {
      var id := a.subscribers[e.email];
      var cs := Campaigns(a, id);
      var n := Visited(e, cs);
      VisitedBounds(e, cs);
      var loop := Matching(k, e, id, cs, n, sub, a);
      MatchingCalls(k, e, id, cs, n, sub, a);
      BounceEntry(k, e, sub, a);
      if LastDeleteConfirmed(loop) {
        ConfirmedHasDelete(loop);
        assert loop + [] == loop;
      } else {
        CountsAppend(loop, [purge]);
        var events := loop + [purge];
        forall j | 0 <= j < |events| && events[j].RejectsDelete?
          ensures events[j].email == e.email && events[j].subaccount == sub
        {
          if j < |loop| {
            assert events[j] == loop[j];
          }
        }
      }
    }
  }

  // Properties of a whole run.

  /** The calls for the first j entries are a prefix of those for the first n: entries are handled
      strictly in list order, each one completely before the next. */
  lemma {:induction false} ProcessedInOrder(list: seq<RejectEntry>, j: nat, n: nat, sub: Value, a: Answers)
    requires j <= n <= |list|
    ensures Processed(list, j, sub, a) <= Processed(list, n, sub, a)
    decreases n
  {
    if j < n {
      ProcessedInOrder(list, j, n - 1, sub, a);
    }
  }

  /** The calls for the first n entries depend on those entries only. */
  lemma {:induction false} ProcessedPrefix(list: seq<RejectEntry>, other: seq<RejectEntry>, n: nat, sub: Value, a: Answers)
    requires n <= |list| && n <= |other| && list[..n] == other[..n]
    ensures Processed(list, n, sub, a) == Processed(other, n, sub, a)
  {
    if n > 0 {
      assert list[n - 1] == list[..n][n - 1] == other[n - 1];
      assert list[..n - 1] == list[..n][..n - 1];
      assert other[..n - 1] == other[..n][..n - 1];
      ProcessedPrefix(list, other, n - 1, sub, a);
    }
  }

  /** Only the first 100 entries matter: the run over any list equals the run over its first 100 entries,
      and entries appended after the hundredth change nothing. */
  lemma OnlyFirstHundred(list: seq<RejectEntry>, more: seq<RejectEntry>, sub: Value, a: Answers)
    ensures RunEvents(list, sub, a) == RunEvents(list[..Min(|list|, SliceSize)], sub, a)
    ensures |list| >= SliceSize ==> RunEvents(list + more, sub, a) == RunEvents(list, sub, a)
  {
    var n := Min(|list|, SliceSize);
    assert list[..n][..n] == list[..n];
    ProcessedPrefix(list, list[..n], n, sub, a);
    if |list| >= SliceSize {
      assert (list + more)[..SliceSize] == list[..SliceSize];
      ProcessedPrefix(list + more, list, SliceSize, sub, a);
    }
  }

  /** Each processed entry is purged at least once, so a run issues at least as many deletes as it
      processes entries, at most 100. */
  lemma {:induction false} EveryEntryPurged(list: seq<RejectEntry>, n: nat, sub: Value, a: Answers)
    requires n <= |list|
    ensures Deletes(Processed(list, n, sub, a)) >= n
  {
    if n > 0 {
      EveryEntryPurged(list, n - 1, sub, a);
      EntryPurged(n - 1, list[n - 1], sub, a);
      CountsAppend(Processed(list, n - 1, sub, a), EntryEvents(n - 1, list[n - 1], sub, a));
    }
  }

  // The imperative code.

  /** The campaign loop of lines 289-304: visits the campaigns in order, breaking at the first that is
      too old or at index 10; each true `bounce` is followed by a delete whose answer sets `$reseted`. */
  method MatchCampaigns(k: nat, e: RejectEntry, id: nat, cs: seq<SentCampaign>, sub: Value, a: Answers)
    returns (events: seq<Event>, reseted: bool)
    ensures events == Matching(k, e, id, cs, Visited(e, cs), sub, a)
    ensures reseted == ResetAfter(k, Visited(e, cs), a)
  {
    events, reseted := [], false;
    var i := 0;
    while i < |cs|
      invariant i <= |cs|
      invariant VisitFrom(e, cs, i) == Visited(e, cs)
      invariant events == Matching(k, e, id, cs, i, sub, a)
      invariant reseted == ResetAfter(k, i, a)
    {
      if cs[i].timestamp - e.createdAt + 60 * 1440 < 0 || i >= MaxCampaigns {
        break;
      }
      var recorded := (k, i) in a.bounced;
      events := events + [Bounce(id, cs[i].campaignId, e.reason == "hard-bounce", recorded)];
      if recorded {
        var deleted := (k, i) in a.loopDeleted;
        events := events + [RejectsDelete(e.email, sub, deleted)];
        reseted := deleted;
      }
      i := i + 1;
    }
  }

  /** The body of the entry loop (lines 275-322) for entry k of the slice. */
  method ProcessEntry(k: nat, e: RejectEntry, sub: Value, a: Answers) returns (events: seq<Event>)
    ensures events == EntryEvents(k, e, sub, a)
  {
    if e.email in a.subscribers {
      var id := a.subscribers[e.email];
      var reseted := false;
      events := [];
      if e.reason == "spam" || e.reason == "unsub" {
        events := [Unsubscribe(id)];
      } else if e.reason == "soft-bounce" || e.reason == "hard-bounce" {
        events, reseted := MatchCampaigns(k, e, id, Campaigns(a, id), sub, a);
      }
      if !reseted {
        events := events + [RejectsDelete(e.email, sub, k in a.finalDeleted)];
      }
    } else {
      events := [RejectsDelete(e.email, sub, k in a.finalDeleted)];
    }
  }

  /** The entry loop of lines 271-323 over `array_slice(list, 0, 100)`. The `$count++` for unknown
      addresses runs after the slice is taken and so does not enlarge it. */
  method ProcessList(list: seq<RejectEntry>, sub: Value, a: Answers) returns (events: seq<Event>)
    ensures events == RunEvents(list, sub, a)
  {
    var count := SliceSize;
    var slice := list[..Min(|list|, count)];
    events := [];
    var k := 0;
    while k < |slice|
      invariant k <= |slice| == Min(|list|, SliceSize)
      invariant events == Processed(list, k, sub, a)
    {
      assert slice[k] == list[k];
      var entryEvents := ProcessEntry(k, slice[k], sub, a);
      events := events + entryEvents;
      if slice[k].email !in a.subscribers {
        count := count + 1;
      }
      k := k + 1;
    }
  }

  /** `check_bounces`. While the lock transient is alive it returns false and does nothing else.
      Otherwise it sets the lock for `bounce_check` minutes, asks for the reject list, and either stops
      with false on an error or processes the list; every call is appended to the site's log. */
  method CheckBounces(site: Site, now: int, fetched: Reply<seq<RejectEntry>>, a: Answers) returns (result: Value)
    modifies site`transients, site`log
    ensures Truthy(GetTransient(old(site.transients), LockKey, now)) ==>
      result == Bool(false) && site.log == old(site.log) && site.transients == old(site.transients)
    ensures !Truthy(GetTransient(old(site.transients), LockKey, now)) ==>
      site.transients == SetTransient(old(site.transients), LockKey, Bool(true), LockTtl(site.settings), now) &&
      site.log == old(site.log) + [RejectsList(Subaccount(site.settings))] +
                  (if fetched.Success? then RunEvents(fetched.value, Subaccount(site.settings), a) else []) &&
      result == (if fetched.Failure? then Bool(false) else Null)
  {
    if Truthy(GetTransient(site.transients, LockKey, now)) {
      return Bool(false);
    }
    site.transients := SetTransient(site.transients, LockKey, Bool(true), LockTtl(site.settings), now);
    var sub := Subaccount(site.settings);
    site.log := site.log + [RejectsList(sub)];
    if fetched.Failure? {
      return Bool(false);
    }
    result := Null;
    if fetched.value != [] {
      var events := ProcessList(fetched.value, sub, a);
      site.log := site.log + events;
    }
  }

  /** A second run inside the lock's lifetime returns false without fetching the list again. */
  method SecondRunWithinLock(site: Site, now: int, later: int, fetched: Reply<seq<RejectEntry>>, a: Answers,
                             fetchedAgain: Reply<seq<RejectEntry>>, again: Answers)
    returns (first: Value, second: Value)
    requires !Truthy(GetTransient(site.transients, LockKey, now))
    requires now <= later && (LockTtl(site.settings) == 0 || later <= now + LockTtl(site.settings))
    modifies site`transients, site`log
    ensures second == Bool(false)
    ensures site.log == old(site.log) + [RejectsList(Subaccount(site.settings))] +
                        (if fetched.Success? then RunEvents(fetched.value, Subaccount(site.settings), a) else [])
  {
    first := CheckBounces(site, now, fetched, a);
    TransientLease(old(site.transients), LockKey, Bool(true), LockTtl(site.settings), now, later);
    second := CheckBounces(site, later, fetchedAgain, again);
  }
}
