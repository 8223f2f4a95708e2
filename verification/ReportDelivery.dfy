/** Daily and weekly reports: the windows they cover in Eastern wall time, and the
    claim, acknowledge and reconcile steps by which one edition is delivered once. */
module ReportDelivery {
  import opened Wrappers

  const DAY := 86400
  const DAILY_HOUR := 9 * 3600
  const WEEKLY_HOUR := 18 * 3600

  // ------------------------------------------------------------------- windows

  datatype Period = Daily | Weekly

  /** Wall-clock seconds counted from a Monday at midnight. */
  datatype Window = Window(period: Period, start: int, end: int)

  /** An edition is named by its period and the day its window ends on. */
  datatype EditionId = EditionId(period: Period, date: int)

  function Length(p: Period): int {
    match p
    case Daily => DAY
    case Weekly => 7 * DAY
  }

  function IdOf(w: Window): EditionId {
    EditionId(w.period, w.end / DAY)
  }

  /** The last window that has closed: days end at nine, weeks on Sunday at six. */
  method ReportWindow(p: Period, local: int) returns (w: Window)
    ensures w == Closed(p, local)
  {
    var end;
    var midnight := local / DAY * DAY;
    if p == Daily {
      end := midnight + DAILY_HOUR;
      assert end == Due(p, local / DAY);
      if end > local {
        end := end - DAY;
      }
    } else {
      var weekday := local / DAY % 7;
      end := midnight - (weekday + 1) % 7 * DAY + WEEKLY_HOUR;
      assert end == Due(p, local / DAY);
      if end > local {
        end := end - 7 * DAY;
      }
    }
    w := Window(p, end - Length(p), end);
    EndIsClosed(p, local, end);
  }

  /** The offset of a period's closing times within its grid: nine o'clock, or six
      o'clock on the seventh day. */
  function Phase(p: Period): int {
    match p
    case Daily => DAILY_HOUR
    case Weekly => 6 * DAY + WEEKLY_HOUR
  }

  /** The greatest closing time that is not later than now. */
  function Closed(p: Period, local: int): (w: Window)
    ensures w.end <= local < w.end + Length(p)
    ensures w.period == p && w.end - w.start == Length(p)
  {
    var end := (local - Phase(p)) / Length(p) * Length(p) + Phase(p);
    Window(p, end - Length(p), end)
  }

  predicate IsClosing(p: Period, end: int) {
    (end - Phase(p)) % Length(p) == 0
  }

  /** Nothing else closes between a closing time and the moment. */
  lemma OnlyClosing(p: Period, local: int, end: int)
    requires IsClosing(p, end) && end <= local < end + Length(p)
    ensures Closed(p, local).end == end
  {
    match p {
      case Daily =>
      case Weekly =>
    }
  }

  /** The closing time of the day or week that a moment falls in. */
  function Due(p: Period, day: int): int {
    match p
    case Daily => day * DAY + DAILY_HOUR
    case Weekly => (day - (day % 7 + 1) % 7) * DAY + WEEKLY_HOUR
  }

  lemma WeekCloses(sunday: int)
    requires (sunday - 6) % 7 == 0
    ensures IsClosing(Weekly, sunday * DAY + WEEKLY_HOUR)
  {
    var weeks := (sunday - 6) / 7;
    assert sunday == 7 * weeks + 6;
    assert sunday * DAY + WEEKLY_HOUR - Phase(Weekly) == weeks * Length(Weekly);
  }

  lemma DueCloses(p: Period, local: int)
    ensures IsClosing(p, Due(p, local / DAY))
    ensures Due(p, local / DAY) - Length(p) <= local < Due(p, local / DAY) + Length(p)
  {
    var day := local / DAY;
    assert day * DAY <= local < day * DAY + DAY;
    match p {
      case Daily =>
        assert Due(p, day) - Phase(p) == day * Length(p);
      case Weekly =>
        WeekdayClosing(day);
        WeekCloses(day - (day % 7 + 1) % 7);
    }
  }

  lemma EndIsClosed(p: Period, local: int, end: int)
    requires end == if Due(p, local / DAY) > local then Due(p, local / DAY) - Length(p) else Due(p, local / DAY)
    ensures Closed(p, local) == Window(p, end - Length(p), end)
  {
    DueCloses(p, local);
    hide Due;
    assert IsClosing(p, end);
    OnlyClosing(p, local, end);
  }

  /** The Sunday on or before a day. */
  lemma WeekdayClosing(day: int)
    ensures (day - (day % 7 + 1) % 7 - 6) % 7 == 0
    ensures 0 <= (day % 7 + 1) % 7 <= 6
  {
  }

  /** A window read again at its own end is itself. */
  lemma WindowAtItsEnd(p: Period, local: int)
    ensures Closed(p, Closed(p, local).end) == Closed(p, local)
  {
    ClosedCloses(p, local);
    OnlyClosing(p, Closed(p, local).end, Closed(p, local).end);
  }

  lemma ClosedCloses(p: Period, local: int)
    ensures IsClosing(p, Closed(p, local).end)
  {
  }

  /** Windows tile: each begins where the one before ended. */
  lemma WindowsTile(p: Period, local: int)
    ensures Closed(p, Closed(p, local).start) == Window(p, Closed(p, local).start - Length(p), Closed(p, local).start)
  {
    StartCloses(p, local);
    hide Closed, IsClosing;
    OnlyClosing(p, Closed(p, local).start, Closed(p, local).start);
  }

  lemma ClosingBefore(p: Period, end: int)
    requires IsClosing(p, end)
    ensures IsClosing(p, end - Length(p))
  {
    match p {
      case Daily =>
      case Weekly =>
    }
  }

  lemma StartCloses(p: Period, local: int)
    ensures IsClosing(p, Closed(p, local).start)
  {
    ClosedCloses(p, local);
    ClosingBefore(p, Closed(p, local).end);
    hide Closed, IsClosing;
  }

  /** Two windows of a period are the same or do not overlap. */
  lemma WindowsApart(p: Period, a: int, b: int)
    requires a <= b
    ensures Closed(p, a) == Closed(p, b) || Closed(p, a).end <= Closed(p, b).start
  {
    match p {
      case Daily =>
      case Weekly =>
    }
  }

  /** A day has one closing time of a period at most. */
  lemma OneClosingADay(p: Period, e: int, f: int)
    requires IsClosing(p, e) && IsClosing(p, f) && e / DAY == f / DAY
    ensures e == f
  {
    var j, k := (e - Phase(p)) / Length(p), (f - Phase(p)) / Length(p);
    match p {
      case Daily =>
        assert e == j * DAY + DAILY_HOUR && f == k * DAY + DAILY_HOUR;
        assert e / DAY == j && f / DAY == k;
      case Weekly =>
        assert e == (7 * j + 6) * DAY + WEEKLY_HOUR && f == (7 * k + 6) * DAY + WEEKLY_HOUR;
        assert e / DAY == 7 * j + 6 && f / DAY == 7 * k + 6;
    }
  }

  /** The name of an edition determines its window. */
  lemma IdDeterminesWindow(p: Period, q: Period, a: int, b: int)
    requires IdOf(Closed(p, a)) == IdOf(Closed(q, b))
    ensures Closed(p, a) == Closed(q, b)
  {
    ClosedCloses(p, a);
    ClosedCloses(q, b);
    hide Closed, IsClosing;
    OneClosingADay(p, Closed(p, a).end, Closed(q, b).end);
  }

  // ------------------------------------------------------------------ editions

  datatype State = Draft | Pending | Sent | Uncertain

  /** What one attempt at delivery is known by. */
  datatype Attempt = Attempt(token: string, nonce: string, channel: string, at: int)

  datatype Row = Row(
    window: Window, payload: string, created: int, published: Option<int>, state: State,
    attempt: Option<Attempt>, message: Option<string>)

  type Rows = map<EditionId, Row>

  /** A report as it is handed in: its own claims, its text, and whether its fields
      are those of the schema. */
  datatype Report = Report(id: EditionId, period: Period, date: int, start: int, end: int, wellFormed: bool,
                           payload: string)

  datatype Error =
    | InvalidPayload | InvalidWindow | TooLarge | InvalidChannel | NotPrepared | PreviousUnresolved | ChannelChanged
    | InvalidMessage | IdentityMismatch | MessageChanged

  const MAX_PAYLOAD := 65536

  predicate Outstanding(r: Row) {
    r.state == Pending || r.state == Uncertain
  }

  // ---------------------------------------------------------------- invariants

  /** A row is filed under the name of its window, which is one that closes. */
  predicate Filed(id: EditionId, r: Row) {
    IdOf(r.window) == id && r.window == Closed(id.period, r.window.end)
  }

  /** A draft has not been tried; anything else has been published by one attempt; a
      sent one has its message. */
  predicate Staged(r: Row) {
    && (r.state == Draft <==> r.attempt.None?) && (r.attempt.None? <==> r.published.None?)
    && (r.state == Sent <==> r.message.Some?)
  }

  /** No period has two deliveries under way. */
  ghost predicate OneOutstanding(rows: Rows) {
    forall i, j :: i in rows && j in rows && i.period == j.period && Outstanding(rows[i]) && Outstanding(rows[j]) ==>
      i == j
  }

  ghost predicate RowsOk(rows: Rows) {
    && (forall i :: i in rows ==> Filed(i, rows[i]) && Staged(rows[i]))
    && OneOutstanding(rows)
  }

  /** What no step undoes: the text and window of an edition, the attempt that claimed
      it, its message, and that it was sent. */
  predicate RowKept(a: Row, b: Row) {
    && b.window == a.window && b.payload == a.payload && b.created == a.created
    && (a.published.Some? ==> b.published == a.published) && (a.attempt.Some? ==> b.attempt == a.attempt)
    && (a.message.Some? ==> b.message == a.message) && (a.state == Sent ==> b.state == Sent)
    && (b.state == Draft ==> a.state == Draft)
  }

  ghost predicate Kept(a: Rows, b: Rows) {
    forall i :: i in a ==> i in b && RowKept(a[i], b[i])
  }

  // --------------------------------------------------------------------- store

  /** The window of an edition is free: the name decides it. */
  lemma NameDecidesWindow(rows: Rows, id: EditionId, w: Window)
    requires RowsOk(rows) && IdOf(w) == id && w == Closed(id.period, w.end)
    ensures forall j :: j in rows && rows[j].window.period == w.period && rows[j].window.end == w.end ==> j == id
  {
  }

  /** A draft may be taken up when nothing else of its period is under way. */
  lemma TakeUpKeeps(rows: Rows, id: EditionId, a: Attempt)
    requires RowsOk(rows) && id in rows && rows[id].state == Draft
    requires forall j :: j in rows && j.period == id.period ==> !Outstanding(rows[j])
    ensures var next := rows[id := rows[id].(published := Some(a.at), state := Pending, attempt := Some(a))];
            RowsOk(next) && Kept(rows, next)
  {
    assert Filed(id, rows[id]) && Staged(rows[id]);
    hide Filed;
  }

  lemma FiledFacts(rows: Rows)
    requires RowsOk(rows)
    ensures forall i :: i in rows ==> rows[i].window.period == i.period && Staged(rows[i])
  {
    forall i | i in rows ensures rows[i].window.period == i.period && Staged(rows[i]) {
      assert Filed(i, rows[i]);
    }
  }

  predicate IsNumber(s: string) {
    5 <= |s| <= 24 && forall i :: 0 <= i < |s| ==> '0' <= s[i] <= '9'
  }

  // --------------------------------------------------------------------- steps

  datatype Op =
    | Preparing(report: Report, now: int)
    | Claiming(id: EditionId, attempt: Attempt)
    | Acknowledging(id: EditionId, token: string, channel: string, message: string)
    | Doubting(id: EditionId, token: string)

  function WindowOf(report: Report): Window {
    Window(report.period, report.start, report.end)
  }

  predicate MayPrepare(report: Report) {
    && report.wellFormed && report.id == EditionId(report.period, report.date) && |report.payload| <= MAX_PAYLOAD
    && IdOf(WindowOf(report)) == report.id && WindowOf(report) == Closed(report.period, report.end)
  }

  /** A draft is there to be taken, and nothing of its period is under way. */
  predicate MayAcquire(rows: Rows, id: EditionId, channel: string) {
    && IsNumber(channel) && id in rows && rows[id].state == Draft
    && forall j :: j in rows && j.period == id.period ==> !Outstanding(rows[j])
  }

  predicate IsAttempt(rows: Rows, id: EditionId, token: string) {
    id in rows && rows[id].attempt.Some? && rows[id].attempt.value.token == token
  }

  /** The attempt that was made, on its channel, and no other message than before. */
  predicate MayAcknowledge(rows: Rows, id: EditionId, token: string, channel: string, message: string) {
    && IsNumber(message) && IsAttempt(rows, id, token) && rows[id].attempt.value.channel == channel
    && (rows[id].message.Some? ==> rows[id].message == Some(message))
  }

  function Step(rows: Rows, op: Op): Rows {
    match op
    case Preparing(report, now) =>
      if MayPrepare(report) && report.id !in rows
      then rows[report.id := Row(WindowOf(report), report.payload, now, None, Draft, None, None)] else rows
    case Claiming(id, a) =>
      if MayAcquire(rows, id, a.channel)
      then rows[id := rows[id].(published := Some(a.at), state := Pending, attempt := Some(a))] else rows
    case Acknowledging(id, token, channel, message) =>
      if MayAcknowledge(rows, id, token, channel, message)
      then rows[id := rows[id].(state := Sent, message := Some(message))] else rows
    case Doubting(id, token) =>
      if IsAttempt(rows, id, token) && rows[id].state == Pending then rows[id := rows[id].(state := Uncertain)]
      else rows
  }

  /** Every step keeps the invariant, and undoes nothing. */
  lemma StepKeeps(rows: Rows, op: Op)
    requires RowsOk(rows)
    ensures RowsOk(Step(rows, op)) && Kept(rows, Step(rows, op))
  {
    hide Filed, IsNumber, MayPrepare;
    match op {
      case Preparing(report, now) => PrepareKeeps(rows, report, now);
      case Claiming(id, a) =>
        if MayAcquire(rows, id, a.channel) {
          TakeUpKeeps(rows, id, a);
        }
      case Acknowledging(id, token, channel, message) => CloseKeeps(rows, id, Sent, Some(message));
      case Doubting(id, token) => CloseKeeps(rows, id, Uncertain, None);
    }
  }

  lemma PrepareKeeps(rows: Rows, report: Report, now: int)
    requires RowsOk(rows)
    ensures var next := Step(rows, Preparing(report, now)); RowsOk(next) && Kept(rows, next)
  {
  }

  lemma CloseKeeps(rows: Rows, id: EditionId, state: State, message: Option<string>)
    requires RowsOk(rows) && (state == Sent || state == Uncertain) && (state == Sent <==> message.Some?)
    ensures id in rows && (state == Uncertain ==> rows[id].state == Pending) && rows[id].attempt.Some?
            && (rows[id].message.Some? ==> rows[id].message == message) ==>
              var next := rows[id := rows[id].(state := state, message := message)];
              RowsOk(next) && Kept(rows, next)
  {
    if id in rows {
      assert Filed(id, rows[id]) && Staged(rows[id]);
      hide Filed;
    }
  }

  // --------------------------------------------------------------------- store

  class ReportStore {
    var rows: Rows
    /** Everything the store has been asked, from the first. */
    ghost var ops: seq<Op>

    ghost predicate Valid()
      reads this
    {
      rows == Run(ops)
    }

    constructor ()
      ensures Valid() && rows == map[] && ops == []
    {
      rows, ops := map[], [];
    }

    /** Files an edition unless it, or its window, is there already: what was prepared
        first stays. */
    method Prepare(report: Report, now: int) returns (r: Result<Row, Error>)
      requires Valid()
      modifies this
      ensures Valid() && ops == old(ops) + [Preparing(report, now)] && rows == Step(old(rows), Preparing(report, now))
      ensures r.Ok? <==> MayPrepare(report)
      ensures r.Ok? ==> report.id in rows && r.value == rows[report.id]
      ensures r.Ok? ==>
                && report.wellFormed && |report.payload| <= 65536 && report.id.period == report.period
                && report.id.date == report.date
      ensures rows == if r.Ok? && report.id !in old(rows)
                      then old(rows)[report.id := Row(Window(report.period, report.start, report.end), report.payload,
                                                      now, None, Draft, None, None)]
                      else old(rows)
    {
      RunIsOk(ops);
      RunAppend(ops, Preparing(report, now));
      ops := ops + [Preparing(report, now)];
      hide RowsOk, Run;
      if !report.wellFormed || report.id != EditionId(report.period, report.date) {
        return Err(InvalidPayload);
      }
      var expected := ReportWindow(report.period, report.end);
      if IdOf(expected) != report.id || expected.start != report.start || expected.end != report.end {
        return Err(InvalidWindow);
      }
      if |report.payload| > MAX_PAYLOAD {
        return Err(TooLarge);
      }
      NameDecidesWindow(rows, report.id, expected);
      if report.id !in rows
         && !exists j :: j in rows && rows[j].window.period == report.period && rows[j].window.end == report.end {
        rows := rows[report.id := Row(expected, report.payload, now, None, Draft, None, None)];
      }
      return Ok(rows[report.id]);
    }

    /** The first to ask for a draft gets it, if nothing of its period is under way;
        everyone after who names the same channel sees the attempt that is. */
    method Claim(id: EditionId, channel: string, token: string, nonce: string, now: int)
      returns (r: Result<(Row, bool), Error>)
      requires Valid()
      modifies this
      ensures var op := Claiming(id, Attempt(token, nonce, channel, now));
              Valid() && ops == old(ops) + [op] && rows == Step(old(rows), op)
      ensures r.Ok? ==> id in rows && r.value.0 == rows[id]
      ensures r.Ok? && r.value.1 <==> MayAcquire(old(rows), id, channel)
      ensures r.Ok? && !r.value.1 <==>
                && IsNumber(channel) && id in old(rows) && old(rows)[id].attempt.Some?
                && old(rows)[id].attempt.value.channel == channel
      ensures r.Ok? && r.value.1 <==>
                && 5 <= |channel| <= 24 && (forall i :: 0 <= i < |channel| ==> '0' <= channel[i] <= '9')
                && id in old(rows) && old(rows)[id].state == Draft
                && forall j :: j in old(rows) && j.period == id.period ==> old(rows)[j].state in {Draft, Sent}
      ensures rows == if r.Ok? && r.value.1
                      then old(rows)[id := old(rows)[id].(published := Some(now), state := Pending,
                                                          attempt := Some(Attempt(token, nonce, channel, now)))]
                      else old(rows)
    {
      RunIsOk(ops);
      FiledFacts(rows);
      RunAppend(ops, Claiming(id, Attempt(token, nonce, channel, now)));
      ops := ops + [Claiming(id, Attempt(token, nonce, channel, now))];
      hide RowsOk, Run, IsNumber;
      if !IsNumber(channel) {
        return Err(InvalidChannel);
      }
      if id !in rows {
        return Err(NotPrepared);
      }
      var row := rows[id];
      if row.state == Draft {
        if exists j :: j in rows && rows[j].window.period == row.window.period && Outstanding(rows[j]) && j != id {
          return Err(PreviousUnresolved);
        }
        rows := rows[id := row.(published := Some(now), state := Pending,
                                attempt := Some(Attempt(token, nonce, channel, now)))];
        return Ok((rows[id], true));
      }
      if row.attempt.value.channel != channel {
        return Err(ChannelChanged);
      }
      return Ok((row, false));
    }

    /** The attempt that was made reports the message it became. */
    method Acknowledge(id: EditionId, token: string, channel: string, message: string) returns (r: Result<(), Error>)
      requires Valid()
      modifies this
      ensures var op := Acknowledging(id, token, channel, message);
              Valid() && ops == old(ops) + [op] && rows == Step(old(rows), op)
      ensures r.Ok? <==> MayAcknowledge(old(rows), id, token, channel, message)
      ensures r.Ok? <==>
                && 5 <= |message| <= 24 && (forall i :: 0 <= i < |message| ==> '0' <= message[i] <= '9')
                && id in old(rows) && old(rows)[id].attempt.Some? && old(rows)[id].attempt.value.token == token
                && old(rows)[id].attempt.value.channel == channel
                && (old(rows)[id].state == Sent ==> old(rows)[id].message == Some(message))
      ensures rows == if r.Ok? then old(rows)[id := old(rows)[id].(state := Sent, message := Some(message))]
                      else old(rows)
    {
      RunIsOk(ops);
      FiledFacts(rows);
      RunAppend(ops, Acknowledging(id, token, channel, message));
      ops := ops + [Acknowledging(id, token, channel, message)];
      hide RowsOk, Run, IsNumber;
      if !IsNumber(message) {
        return Err(InvalidMessage);
      }
      if id !in rows || rows[id].attempt.None? || rows[id].attempt.value.token != token
         || rows[id].attempt.value.channel != channel || rows[id].state == Draft {
        return Err(IdentityMismatch);
      }
      if rows[id].message.Some? && rows[id].message != Some(message) {
        return Err(MessageChanged);
      }
      rows := rows[id := rows[id].(state := Sent, message := Some(message))];
      return Ok(());
    }

    /** The attempt cannot tell whether it delivered. A sent edition stays sent. */
    method MarkUncertain(id: EditionId, token: string) returns (r: Result<State, Error>)
      requires Valid()
      modifies this
      ensures Valid() && ops == old(ops) + [Doubting(id, token)] && rows == Step(old(rows), Doubting(id, token))
      ensures r.Ok? <==> IsAttempt(old(rows), id, token)
      ensures r.Ok? ==>
                r.value == (if old(rows)[id].state == Sent then Sent else Uncertain) && rows[id].state == r.value
      ensures r.Ok? <==> id in old(rows) && old(rows)[id].attempt.Some? && old(rows)[id].attempt.value.token == token
      ensures rows == if r.Ok? then old(rows)[id := old(rows)[id].(state := r.value)] else old(rows)
    {
      RunIsOk(ops);
      FiledFacts(rows);
      RunAppend(ops, Doubting(id, token));
      ops := ops + [Doubting(id, token)];
      hide RowsOk, Run;
      if id !in rows || rows[id].attempt.None? || rows[id].attempt.value.token != token || rows[id].state == Draft {
        return Err(IdentityMismatch);
      }
      var was := rows[id].state;
      if was == Pending {
        rows := rows[id := rows[id].(state := Uncertain)];
      }
      return Ok(if was == Sent then Sent else Uncertain);
    }
  }

  // ---------------------------------------------------------------------- runs

  /** What a store holds after everything it has been asked, whoever asked and in
      whatever order. */
  ghost function Run(ops: seq<Op>): Rows {
    if ops == [] then map[] else Step(Run(ops[..|ops| - 1]), ops[|ops| - 1])
  }

  lemma RunAppend(ops: seq<Op>, op: Op)
    ensures Run(ops + [op]) == Step(Run(ops), op)
  {
    assert (ops + [op])[..|ops|] == ops;
  }

  lemma {:induction false} RunIsOk(ops: seq<Op>)
    ensures RowsOk(Run(ops))
  {
    if ops != [] {
      hide RowsOk, Step;
      RunIsOk(ops[..|ops| - 1]);
      StepKeeps(Run(ops[..|ops| - 1]), ops[|ops| - 1]);
    } else {
      assert Run([]) == map[];
    }
  }

  /** At no moment of any run are two deliveries of a period under way. */
  lemma OneDeliveryAtATime(ops: seq<Op>, i: EditionId, j: EditionId)
    requires i in Run(ops) && Run(ops)[i].state in {Pending, Uncertain}
    requires j in Run(ops) && Run(ops)[j].state in {Pending, Uncertain}
    requires i.period == j.period
    ensures i == j
  {
    RunIsOk(ops);
    hide Run;
  }

  /** Text, window, attempt and message are written once. */
  lemma {:induction false} WrittenOnce(ops: seq<Op>, n: nat, id: EditionId)
    requires n <= |ops| && id in Run(ops[..n])
    ensures id in Run(ops) && RowKept(Run(ops[..n])[id], Run(ops)[id])
    ensures var a, b := Run(ops[..n])[id], Run(ops)[id];
            && b.window == a.window && b.payload == a.payload && b.created == a.created
            && (a.attempt.Some? ==> b.attempt == a.attempt && b.published == a.published && b.state != Draft)
            && (a.state == Sent ==> b.state == Sent && b.message == a.message)
    decreases |ops|
  {
    hide Run, Step, RowsOk, RowKept;
    if n < |ops| {
      var before, op := ops[..|ops| - 1], ops[|ops| - 1];
      assert before[..n] == ops[..n] && before + [op] == ops;
      WrittenOnce(before, n, id);
      RunIsOk(before);
      StepKeeps(Run(before), op);
      RunAppend(before, op);
      assert RowKept(Run(before)[id], Run(ops)[id]);
      KeptChain(Run(ops[..n])[id], Run(before)[id], Run(ops)[id]);
    } else {
      assert ops[..n] == ops;
      KeptItself(Run(ops)[id]);
    }
    WhatIsKept(ops, n, id);
  }

  lemma WhatIsKept(ops: seq<Op>, n: nat, id: EditionId)
    requires n <= |ops| && id in Run(ops[..n]) && id in Run(ops) && RowKept(Run(ops[..n])[id], Run(ops)[id])
    ensures var a, b := Run(ops[..n])[id], Run(ops)[id];
            && b.window == a.window && b.payload == a.payload && b.created == a.created
            && (a.attempt.Some? ==> b.attempt == a.attempt && b.published == a.published && b.state != Draft)
            && (a.state == Sent ==> b.state == Sent && b.message == a.message)
  {
    RunIsOk(ops[..n]);
    RunIsOk(ops);
    hide Run;
    assert Staged(Run(ops[..n])[id]) && Staged(Run(ops)[id]);
  }

  lemma KeptChain(a: Row, b: Row, c: Row)
    requires RowKept(a, b) && RowKept(b, c)
    ensures RowKept(a, c)
  {
  }

  lemma KeptItself(a: Row)
    ensures RowKept(a, a)
  {
  }

  /** How often an edition was acquired. */
  ghost function Acquired(ops: seq<Op>, id: EditionId): nat {
    if ops == [] then 0
    else
      var op := ops[|ops| - 1];
      Acquired(ops[..|ops| - 1], id)
      + if op.Claiming? && op.id == id && MayAcquire(Run(ops[..|ops| - 1]), id, op.attempt.channel) then 1 else 0
  }

  /** Exactly one claimer ever acquires an edition. */
  lemma {:induction false} AcquiredOnce(ops: seq<Op>, id: EditionId)
    ensures Acquired(ops, id) <= 1
    ensures Acquired(ops, id) == 1 <==> id in Run(ops) && Run(ops)[id].state != Draft
  {
    if ops != [] {
      var before, op := ops[..|ops| - 1], ops[|ops| - 1];
      AcquiredOnce(before, id);
      RunIsOk(before);
      AcquiredStep(Run(before), op, id);
      hide Step, MayAcquire;
    } else {
      assert Run([]) == map[];
    }
  }

  lemma AcquiredStep(rows: Rows, op: Op, id: EditionId)
    requires RowsOk(rows)
    ensures id in Step(rows, op) && Step(rows, op)[id].state != Draft <==>
            || (id in rows && rows[id].state != Draft)
            || (op.Claiming? && op.id == id && MayAcquire(rows, id, op.attempt.channel))
    ensures op.Claiming? && MayAcquire(rows, id, op.attempt.channel) ==> rows[id].state == Draft
  {
    FiledFacts(rows);
    hide RowsOk, MayPrepare, IsNumber;
  }

  /** What was delivered stays delivered: one message, one text, one attempt. */
  lemma DeliveredForGood(ops: seq<Op>, n: nat, id: EditionId)
    requires n <= |ops| && id in Run(ops[..n]) && Run(ops[..n])[id].state == Sent
    ensures id in Run(ops) && Run(ops)[id] == Run(ops[..n])[id]
  {
    WrittenOnce(ops, n, id);
    RunIsOk(ops[..n]);
    RunIsOk(ops);
    hide Run;
    assert Staged(Run(ops[..n])[id]) && Staged(Run(ops)[id]);
  }
}
