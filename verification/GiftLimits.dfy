/** Daily gift caps. A gift between two accounts of the same identity is recorded
    but spends nothing, and a replay of a gift moved no money. The caps come from
    the environment. */
module GiftLimits {
  import opened Wrappers
  import opened QuotaLedger

  const PENDING_TTL_SECONDS := 180

  datatype Gift = Gift(
    key: string, sender: string, senderAccount: int, recipient: string, recipientAccount: int, amount: int)

  datatype Answer = Answer(ok: bool, reason: string, retryAfter: nat)

  /** The table refuses gifts of nothing and statuses it does not know. */
  datatype Error = IntegrityError

  function GiftPolicy(perDay: nat, perPair: nat): Policy {
    Policy(86400, PENDING_TTL_SECONDS, Some(perDay), perPair, false, [])
  }

  function ToAttempt(x: Gift): Attempt {
    Attempt(x.key, x.sender, x.recipient, 1, x.sender == x.recipient, map[
      "sender_account_id" := Num(x.senderAccount), "recipient_account_id" := Num(x.recipientAccount),
      "amount" := Num(x.amount)])
  }

  function OverDay(day: nat, perDay: nat): string {
    "identity daily cap (" + Decimal(day) + " in 24h, max " + Decimal(perDay) + ")"
  }

  function OverPair(pair: nat, perPair: nat): string {
    "identity pair cap (" + Decimal(pair) + " in 24h, max " + Decimal(perPair) + ")"
  }

  /** Counts against the caps: moved money, or reserved within the last three minutes;
      never within one identity. */
  predicate Counts(r: Row, asked: int) {
    !r.exempt && (r.status == Applied || (r.status == Pending && asked - 180 <= r.created))
  }

  /** What a sender has given in the 24 hours to a moment, to anyone or to these. */
  ghost function GivenWeights(rows: Rows, senders: set<string>, asked: int): map<string, nat> {
    map k | k in rows && rows[k].actor in senders
            && asked - 24 * 3600 <= rows[k].created && Counts(rows[k], asked) :: rows[k].weight
  }

  ghost function Given(rows: Rows, senders: set<string>, asked: int): nat {
    Total(GivenWeights(rows, senders, asked))
  }

  ghost function GivenToWeights(rows: Rows, senders: set<string>, recipients: set<string>, asked: int)
    : map<string, nat>
  {
    map k | k in rows && rows[k].actor in senders && rows[k].target in recipients
            && asked - 24 * 3600 <= rows[k].created && Counts(rows[k], asked) :: rows[k].weight
  }

  ghost function GivenTo(rows: Rows, senders: set<string>, recipients: set<string>, asked: int): nat {
    Total(GivenToWeights(rows, senders, recipients, asked))
  }

  lemma GivenIsUsed(p: Policy, perDay: nat, perPair: nat, rows: Rows, senders: set<string>, recipients: set<string>,
        asked: int)
    requires p == GiftPolicy(perDay, perPair)
    ensures Given(rows, senders, asked) == Used(p, rows, ActorWindow(p, senders, asked), asked)
    ensures GivenTo(rows, senders, recipients, asked) == Used(p, rows, PairWindow(p, senders, recipients, asked), asked)
  {
    assert LiveWeights(p, rows, ActorWindow(p, senders, asked), asked)
        == GivenWeights(rows, senders, asked);
    assert LiveWeights(p, rows, PairWindow(p, senders, recipients, asked), asked)
        == GivenToWeights(rows, senders, recipients, asked);
  }

  /** The key has no row, or one that moved no money. */
  predicate MustFaceCaps(rows: Rows, key: string) {
    key !in rows || rows[key].status == Refused || rows[key].status == Failed || rows[key].status == Deferred
  }

  /** A row of its own for the reservation, with what was asked. */
  ghost predicate Reservation(was: Rows, rows: Rows, x: Gift, now: int) {
    && x.key in rows && rows == was[x.key := rows[x.key]]
    && var row := rows[x.key];
    && row.status == Pending && row.created == now && row.settled == None && row.reason == None
    && row.actor == x.sender && row.target == x.recipient && row.weight == 1
    && (row.exempt <==> x.sender == x.recipient)
    && row.facts.Keys >= {"sender_account_id", "recipient_account_id", "amount"}
    && row.facts["sender_account_id"] == Num(x.senderAccount) && row.facts["amount"] == Num(x.amount)
    && row.facts["recipient_account_id"] == Num(x.recipientAccount)
  }

  ghost predicate Refusal(was: Rows, rows: Rows, x: Gift, reason: string, now: int) {
    && Traced(was, rows, x.key, reason, now)
    && (x.key !in was ==>
          && rows[x.key].actor == x.sender && rows[x.key].target == x.recipient
          && rows[x.key].weight == 1 && rows[x.key].created == now && !rows[x.key].exempt)
  }

  /** What becomes of a request: a key under way or answered passes as it is, and so does
      a gift to oneself; any other meets the daily cap first, then the one of the pair. */
  ghost predicate Resolved(perDay: nat, perPair: nat, was: Rows, rows: Rows, x: Gift, senders: set<string>,
        recipients: set<string>, asked: int, now: int, r: Result<Answer, Error>) {
    var given, givenTo := Given(was, senders, asked), GivenTo(was, senders, recipients, asked);
    if !MustFaceCaps(was, x.key) then r == Ok(Answer(true, "", 0)) && rows == was
    else if x.amount <= 0 then r.Err? && rows == was
    else if x.sender == x.recipient then r == Ok(Answer(true, "", 0)) && Reservation(was, rows, x, now)
    else if given >= perDay then
      && r == Ok(Answer(false, "daily", 86400))
      && Refusal(was, rows, x, "identity daily cap (" + Decimal(given) + " in 24h, max " + Decimal(perDay) + ")", now)
    else if givenTo >= perPair then
      && r == Ok(Answer(false, "pair", 86400))
      && Refusal(was, rows, x, "identity pair cap (" + Decimal(givenTo) + " in 24h, max " + Decimal(perPair) + ")", now)
    else r == Ok(Answer(true, "", 0)) && Reservation(was, rows, x, now)
  }

  lemma PendingIsReservation(was: Rows, x: Gift, now: int)
    ensures Reservation(was, PutPending(was, ToAttempt(x), now), x, now)
  {
  }

  lemma RefusedIsRefusal(was: Rows, x: Gift, reason: string, now: int)
    requires x.sender != x.recipient
    ensures Refusal(was, PutRefused(was, ToAttempt(x), reason, now), x, reason, now)
  {
    RefusalIsTraced(was, ToAttempt(x), reason, now);
    hide Traced;
  }

  /** The answer to an attempt. */
  ghost function AnswerTo(v: Verdict): Answer {
    match v
    case OverActorCap => Answer(false, "daily", 24 * 3600)
    case OverPairCap => Answer(false, "pair", 24 * 3600)
    case _ => Answer(true, "", 0)
  }

  lemma WhatIsDecided(perDay: nat, perPair: nat, was: Rows, x: Gift, senders: set<string>, recipients: set<string>,
        asked: int)
    ensures Decide(GiftPolicy(perDay, perPair), was, ToAttempt(x), senders, recipients, asked) ==
            if !MustFaceCaps(was, x.key) then Known
            else if x.sender == x.recipient then Reserved
            else if Given(was, senders, asked) >= perDay then OverActorCap
            else if GivenTo(was, senders, recipients, asked) >= perPair then OverPairCap
            else Reserved
  {
    GivenIsUsed(GiftPolicy(perDay, perPair), perDay, perPair, was, senders, recipients, asked);
    hide Given, GivenTo, Used, ActorWindow, PairWindow;
  }

  lemma WhatIsReserved(p: Policy, was: Rows, x: Gift, v: Verdict, why: string, now: int)
    ensures var rows := AfterReserve(p, was, v, ToAttempt(x), why, now);
            match v
            case Known => rows == was
            case Reserved => Reservation(was, rows, x, now)
            case _ => x.sender != x.recipient ==> Refusal(was, rows, x, why, now)
  {
    PendingIsReservation(was, x, now);
    if x.sender != x.recipient {
      RefusedIsRefusal(was, x, why, now);
    }
    hide Reservation, Refusal, PutPending, PutRefused;
  }

  lemma StepResolves(perDay: nat, perPair: nat, was: Rows, x: Gift, senders: set<string>, recipients: set<string>,
        asked: int, now: int, why: string)
    requires why == if Given(was, senders, asked) >= perDay then OverDay(Given(was, senders, asked), perDay)
                    else OverPair(GivenTo(was, senders, recipients, asked), perPair)
    ensures var p, a := GiftPolicy(perDay, perPair), ToAttempt(x);
            if InFlight(was, x.key) || x.amount > 0
            then Resolved(perDay, perPair, was,
                          Step(p, was, Reserve(a, senders, recipients, asked, now, why)), x, senders, recipients,
                          asked, now, Ok(AnswerTo(Decide(p, was, a, senders, recipients, asked))))
            else Resolved(perDay, perPair, was, was, x, senders, recipients, asked, now, Err(IntegrityError))
  {
    var p, a := GiftPolicy(perDay, perPair), ToAttempt(x);
    assert InFlight(was, x.key) <==> !MustFaceCaps(was, x.key);
    hide GiftPolicy, ToAttempt, Given, GivenTo, Reservation, Refusal, Decide, AfterReserve, InFlight, MustFaceCaps;
    WhatIsDecided(perDay, perPair, was, x, senders, recipients, asked);
    WhatIsReserved(p, was, x, Decide(p, was, a, senders, recipients, asked), why, now);
  }

  class Events {
    const perDay: nat
    const perPair: nat
    var rows: Rows

    constructor (perDay: nat, perPair: nat)
      ensures rows == map[] && this.perDay == perDay && this.perPair == perPair
    {
      this.perDay, this.perPair := perDay, perPair;
      rows := map[];
    }

    ghost function Why(x: Gift, senders: set<string>, recipients: set<string>, asked: int): string
      reads this
    {
      var p := GiftPolicy(perDay, perPair);
      var day := Used(p, rows, ActorWindow(p, senders, asked), asked);
      if day >= perDay then OverDay(day, perDay)
      else OverPair(Used(p, rows, PairWindow(p, senders, recipients, asked), asked), perPair)
    }

    method CheckAndReserve(x: Gift, senders: set<string>, recipients: set<string>, asked: int, now: int)
      returns (r: Result<Answer, Error>)
      requires x.sender in senders && x.recipient in recipients && asked <= now
      modifies this
      ensures r.Err? <==> !InFlight(old(rows), x.key) && x.amount <= 0
      ensures r.Err? ==> rows == old(rows)
      ensures r.Ok? ==>
                rows == Step(GiftPolicy(perDay, perPair), old(rows),
                             Reserve(ToAttempt(x), senders, recipients, asked, now,
                                     old(Why(x, senders, recipients, asked))))
      ensures r.Ok? ==>
                r.value ==
                AnswerTo(Decide(GiftPolicy(perDay, perPair), old(rows), ToAttempt(x), senders, recipients, asked))
      ensures x.sender == x.recipient && r.Ok? ==> r.value.ok
      ensures Resolved(perDay, perPair, old(rows), rows, x, senders, recipients, asked, now, r)
    {
      GivenIsUsed(GiftPolicy(perDay, perPair), perDay, perPair, rows, senders, recipients, asked);
      StepResolves(perDay, perPair, rows, x, senders, recipients, asked, now, Why(x, senders, recipients, asked));
      hide Resolved, Given, GivenTo, Used, PutPending, PutRefused, ActorWindow, PairWindow;
      if InFlight(rows, x.key) {
        return Ok(Answer(true, "", 0));
      }
      var p, a := GiftPolicy(perDay, perPair), ToAttempt(x);
      if x.amount <= 0 {
        return Err(IntegrityError);
      }
      if x.sender != x.recipient {
        var day := SumLive(p, rows, ActorWindow(p, senders, asked), asked);
        if day >= perDay {
          rows := PutRefused(rows, a, OverDay(day, perDay), now);
          return Ok(Answer(false, "daily", 24 * 3600));
        }
        var pair := SumLive(p, rows, PairWindow(p, senders, recipients, asked), asked);
        if pair >= perPair {
          rows := PutRefused(rows, a, OverPair(pair, perPair), now);
          return Ok(Answer(false, "pair", 24 * 3600));
        }
      }
      rows := PutPending(rows, a, now);
      return Ok(Answer(true, "", 0));
    }

    /** Unlike the other two ledgers an unknown status reaches the table, which
        refuses it when there is a pending row to write it to. */
    method Settle(key: string, status: Option<Status>, reason: string, now: int) returns (r: Result<(), Error>)
      modifies this
      ensures r.Err? <==> status.None? && key in old(rows) && old(rows)[key].status == Pending
      ensures rows == Step(GiftPolicy(perDay, perPair), old(rows), Event.Settle(key, status, reason, map[], now))
      ensures ClosedBy(old(rows), rows, key, status, reason, now)
      ensures key in old(rows) ==> key in rows && rows[key].facts == old(rows)[key].facts
    {
      SettleCloses(GiftPolicy(perDay, perPair), rows, key, status, reason, map[], now);
      hide ClosedBy;
      if key in rows && rows[key].status == Pending {
        if status.None? {
          return Err(IntegrityError);
        }
        rows := rows[key := rows[key].(status := status.value, reason := CutReason(reason), settled := Some(now))];
        assert rows[key].facts + map[] == rows[key].facts;
      }
      return Ok(());
    }
  }

  /** What was given in the 24 hours from a moment on, by a sender and between two. */
  ghost function SentWeights(rows: Rows, sender: string, start: int): map<string, nat> {
    map k | k in rows && rows[k].actor == sender && !rows[k].exempt
            && start <= rows[k].created <= start + 24 * 3600 && rows[k].status == Applied :: rows[k].weight
  }

  ghost function Sent(rows: Rows, sender: string, start: int): nat {
    Total(SentWeights(rows, sender, start))
  }

  ghost function SentToWeights(rows: Rows, sender: string, recipient: string, start: int): map<string, nat> {
    map k | k in rows && rows[k].actor == sender && rows[k].target == recipient && !rows[k].exempt
            && start <= rows[k].created <= start + 24 * 3600 && rows[k].status == Applied :: rows[k].weight
  }

  ghost function SentTo(rows: Rows, sender: string, recipient: string, start: int): nat {
    Total(SentToWeights(rows, sender, recipient, start))
  }

  lemma SentIsSpent(p: Policy, perDay: nat, perPair: nat, rows: Rows, sender: string, recipient: string, start: int)
    requires p == GiftPolicy(perDay, perPair)
    ensures Sent(rows, sender, start) == SpentTotal(p, rows, GroupAt(p, {sender}, start))
    ensures SentTo(rows, sender, recipient, start) == SpentTotal(p, rows, PairAt(p, {sender}, {recipient}, start))
  {
    assert SpentWeights(p, rows, GroupAt(p, {sender}, start))
        == SentWeights(rows, sender, start);
    assert SpentWeights(p, rows, PairAt(p, {sender}, {recipient}, start))
        == SentToWeights(rows, sender, recipient, start);
  }

  /** In no 24 hours of a run are more gifts applied than either cap allows; gifts to
      oneself are not among those counted. */
  lemma DailyCaps(perDay: nat, perPair: nat, events: seq<Event>, sender: string, recipient: string, start: int)
    requires Timed(events) && OwnKeys(events) && Prompt(GiftPolicy(perDay, perPair), events, 180)
    ensures Sent(Run(GiftPolicy(perDay, perPair), events), sender, start) <= perDay
    ensures SentTo(Run(GiftPolicy(perDay, perPair), events), sender, recipient, start) <= perPair
  {
    var p := GiftPolicy(perDay, perPair);
    hide Sent, SentTo, SpentTotal, Run, Timed, OwnKeys, Prompt;
    SentIsSpent(p, perDay, perPair, Run(p, events), sender, recipient, start);
    NeverOverCapAt(p, events, sender, recipient, start);
  }
}
