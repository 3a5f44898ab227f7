/** Claiming reminder slots (`send_reminder` in app/control/schedule.py) while the schedule is saved
    (app/api/v1/schedule.py): reads and claims of any number of ticks interleave with the phases of edits, with
    deletions and restarts. */
module Reminders {
  import opened Common
  import opened Schedule

  type Id = nat

  datatype Row = Row(enabled: bool, next: Option<int>, last: Option<int>)

  /** What a tick remembers between its read and its claim. */
  datatype Ticket = Ticket(due: int, now: int)

  /** A save first reads the clock and then loads the row, or finds none. */
  datatype Edit = Clocked(at: int) | Loaded(at: int, row: Option<Row>)

  /** `lastClaimed` is the slot of the latest claim; `claimed` lists the slots of all claims, oldest first. */
  datatype State = State(row: Option<Row>, clock: int, tickets: map<Id, Ticket>, edits: map<Id, Edit>,
                         lastClaimed: Option<int>, claimed: seq<int>)

  datatype Step =
    | Advance(to: int)
    | BeginEdit(e: Id)
    | LoadEdit(e: Id)
    | CommitEdit(e: Id, slot: Option<int>)
    | Delete
    | Read(t: Id, now: int)
    | Claim(t: Id, following: Option<int>)
    | Restart

  predicate Due(row: Option<Row>, now: int) {
    row.Some? && row.value.enabled && row.value.next.Some? && row.value.next.value <= now
  }

  /** An edit computes its slot behind the time it has read, or switches the reminder off and has none. A tick has
      read the clock some time before it reads the row; its claim computes the next slot behind that time, or finds
      that it cannot and disables the reminder. */
  predicate Enabled(s: State, a: Step) {
    match a
    case Advance(to) => s.clock <= to
    case BeginEdit(e) => e !in s.edits
    case LoadEdit(e) => e in s.edits && s.edits[e].Clocked?
    case CommitEdit(e, slot) => e in s.edits && s.edits[e].Loaded? && (slot.Some? ==> slot.value > s.edits[e].at)
    case Delete => true
    case Read(t, now) => t !in s.tickets && now <= s.clock && Due(s.row, now)
    case Claim(t, following) => t in s.tickets && (following.Some? ==> following.value > s.tickets[t].now)
    case Restart => true
  }

  /** The conditional update of a claim matches the row. */
  predicate Matches(row: Option<Row>, due: int) { row.Some? && row.value.enabled && row.value.next == Some(due) }

  /** What a commit leaves: a new row if there was none and still is none; otherwise the columns that differ from what
      was loaded are written into the row that is there now. An insert on an existing row and an update of a deleted
      one fail. */
  function Stored(row: Option<Row>, loaded: Option<Row>, slot: Option<int>): Option<Row> {
    match (row, loaded)
    case (None, None) => Some(Row(slot.Some?, slot, None))
    case (Some(r), Some(l)) =>
      Some(Row(if slot.Some? == l.enabled then r.enabled else slot.Some?,
               if slot == l.next then r.next else slot, r.last))
    case _ => row
  }

  function Next(s: State, a: Step): State
    requires Enabled(s, a)
  {
    match a
    case Advance(to) => s.(clock := to)
    case BeginEdit(e) => s.(edits := s.edits[e := Clocked(s.clock)])
    case LoadEdit(e) => s.(edits := s.edits[e := Loaded(s.edits[e].at, s.row)])
    case CommitEdit(e, slot) => s.(row := Stored(s.row, s.edits[e].row, slot), edits := s.edits - {e})
    case Delete => s.(row := None)
    case Read(t, now) => s.(tickets := s.tickets[t := Ticket(s.row.value.next.value, now)])
    case Claim(t, following) =>
      var ticket := s.tickets[t];
      var rest := s.(tickets := s.tickets - {t});
      if Matches(s.row, ticket.due)
      then rest.(row := Some(Row(following.Some?, following, Some(ticket.now))),
                 lastClaimed := Some(ticket.due), claimed := s.claimed + [ticket.due])
      else rest
    case Restart => s.(tickets := map[], edits := map[])
  }

  ghost predicate EnabledRun(s: State, run: seq<Step>)
    decreases |run|
  {
    run == [] || (Enabled(s, run[0]) && EnabledRun(Next(s, run[0]), run[1..]))
  }

  ghost function Run(s: State, run: seq<Step>): State
    requires EnabledRun(s, run)
    decreases |run|
  {
    if run == [] then s else Run(Next(s, run[0]), run[1..])
  }

  // ------------------------------------------------------------------ claims go forward

  ghost predicate Increasing(slots: seq<int>) { forall i, j :: 0 <= i < j < |slots| ==> slots[i] < slots[j] }

  /** The row is armed with a slot that is not behind the last claim. */
  predicate Rearmed(row: Option<Row>, lastClaimed: Option<int>) {
    && row.Some? && row.value.enabled && row.value.next.Some?
    && lastClaimed.Some? && row.value.next.value <= lastClaimed.value
  }

  /** Tickets hold slots that were due when they were read. */
  ghost predicate Past(s: State) { forall t :: t in s.tickets ==> s.tickets[t].due <= s.tickets[t].now }

  ghost predicate LastIs(s: State) {
    s.lastClaimed == if s.claimed == [] then None else Some(s.claimed[|s.claimed| - 1])
  }

  ghost predicate Inv(s: State) { Past(s) && LastIs(s) && Increasing(s.claimed) && !Rearmed(s.row, s.lastClaimed) }

  /** A save that is about to arm the row with a slot that has been claimed, or with an earlier one. */
  predicate Stale(s: State, a: Step)
    requires Enabled(s, a)
  {
    a.CommitEdit? && Rearmed(Stored(s.row, s.edits[a.e].row, a.slot), s.lastClaimed)
  }

  lemma NextInv(s: State, a: Step)
    requires Inv(s) && Enabled(s, a) && !Stale(s, a)
    ensures Inv(Next(s, a)) && s.claimed <= Next(s, a).claimed
  {}

  ghost predicate NoStaleEdit(s: State, run: seq<Step>)
    requires EnabledRun(s, run)
    decreases |run|
  {
    run == [] || (!Stale(s, run[0]) && NoStaleEdit(Next(s, run[0]), run[1..]))
  }

  /** Without a stale save every slot is claimed at most once, in order, however ticks, saves and restarts
      interleave. */
  lemma {:induction false} ClaimsAdvance(s: State, run: seq<Step>)
    requires Inv(s) && EnabledRun(s, run) && NoStaleEdit(s, run)
    ensures Inv(Run(s, run)) && s.claimed <= Run(s, run).claimed && Increasing(Run(s, run).claimed)
    decreases |run|
  {
    if run != [] {
      NextInv(s, run[0]);
      ClaimsAdvance(Next(s, run[0]), run[1..]);
    }
  }

  // ------------------------------------------------------------------ exactly the stale saves break the order

  lemma OneStep(s: State, run: seq<Step>)
    requires run != [] && Enabled(s, run[0]) && EnabledRun(Next(s, run[0]), run[1..])
    ensures EnabledRun(s, run) && Run(s, run) == Run(Next(s, run[0]), run[1..])
    ensures !Stale(s, run[0]) && NoStaleEdit(Next(s, run[0]), run[1..]) ==> NoStaleEdit(s, run)
  {}

  lemma Fresh(used: set<Id>) returns (t: Id)
    ensures t !in used
  {
    t := 0;
    var seen: set<Id> := {};
    while t in used
      invariant seen <= used && forall u: Id :: u in seen <==> u < t
      decreases |used - seen|
    {
      seen := seen + {t};
      t := t + 1;
    }
  }

  /** A row armed with `slot` is claimed by a tick that comes late enough. */
  lemma ClaimFollows(s: State, slot: int) returns (run: seq<Step>)
    requires Matches(s.row, slot)
    ensures EnabledRun(s, run) && NoStaleEdit(s, run) && Run(s, run).claimed == s.claimed + [slot]
  {
    var t := Fresh(s.tickets.Keys);
    var now := if s.clock < slot then slot else s.clock;
    run := [Advance(now), Read(t, now), Claim(t, None)];
    var s1 := Next(s, run[0]);
    var s2 := Next(s1, run[1]);
    var s3 := Next(s2, run[2]);
    assert EnabledRun(s3, run[3..]) && NoStaleEdit(s3, run[3..]) && Run(s3, run[3..]) == s3;
    OneStep(s2, run[2..]);
    OneStep(s1, run[1..]);
    OneStep(s, run);
  }

  lemma StaleBreaks(s: State, a: Step) returns (run: seq<Step>)
    requires Inv(s) && Enabled(s, a) && Stale(s, a)
    ensures EnabledRun(Next(s, a), run) && NoStaleEdit(Next(s, a), run) && !Increasing(Run(Next(s, a), run).claimed)
  {
    var slot := Next(s, a).row.value.next.value;
    run := ClaimFollows(Next(s, a), slot);
    var after := Run(Next(s, a), run).claimed;
    assert after[|s.claimed| - 1] >= slot == after[|s.claimed|];
  }

  /** Claims stay in order in every continuation without a further stale save, exactly if this step is not one. */
  lemma InOrderIff(s: State, a: Step)
    requires Inv(s) && Enabled(s, a)
    ensures (forall run :: EnabledRun(Next(s, a), run) && NoStaleEdit(Next(s, a), run)
               ==> Increasing(Run(Next(s, a), run).claimed))
       <==> !Stale(s, a)
  {
    if Stale(s, a) {
      var run := StaleBreaks(s, a);
    } else {
      NextInv(s, a);
      forall run | EnabledRun(Next(s, a), run) && NoStaleEdit(Next(s, a), run)
        ensures Increasing(Run(Next(s, a), run).claimed)
      {
        ClaimsAdvance(Next(s, a), run);
      }
    }
  }

  // ------------------------------------------------------------------ which saves are not stale

  /** A save is not stale if nothing was written since it loaded the row, and the last claim was for no later slot
      than the time it has read. */
  lemma PromptEditIsFresh(s: State, a: Step)
    requires Enabled(s, a) && a.CommitEdit? && s.edits[a.e].row == s.row
    requires s.lastClaimed.Some? ==> s.lastClaimed.value <= s.edits[a.e].at
    ensures !Stale(s, a)
  {}

  /** Nor is a save that computes the slot it has loaded, on a row that is switched on: it does not write the slot. A
      claim between the load and the commit of an unchanged schedule is therefore harmless. */
  lemma SameSlotIsFresh(s: State, a: Step)
    requires Inv(s) && Enabled(s, a) && a.CommitEdit? && s.edits[a.e].row.Some? && a.slot == s.edits[a.e].row.value.next
    requires s.row.Some? && s.row.value.enabled
    ensures !Stale(s, a)
  {}

  /** Of two ticks that read the same slot, only the first claim sends a reminder, if no save between them is stale. */
  lemma SecondClaimLoses(s: State, t: Id, following: Option<int>, run: seq<Step>, u: Id, again: Option<int>)
    requires Inv(s) && Enabled(s, Claim(t, following)) && Matches(s.row, s.tickets[t].due)
    requires var m := Next(s, Claim(t, following));
      EnabledRun(m, run) && NoStaleEdit(m, run) && Enabled(Run(m, run), Claim(u, again))
      && Run(m, run).tickets[u].due == s.tickets[t].due
    ensures var n := Run(Next(s, Claim(t, following)), run); Next(n, Claim(u, again)).claimed == n.claimed
  {
    var m := Next(s, Claim(t, following));
    NextInv(s, Claim(t, following));
    ClaimsAdvance(m, run);
    var n := Run(m, run);
    assert n.claimed[|s.claimed|] == m.claimed[|s.claimed|] == s.tickets[t].due;
  }

  // ------------------------------------------------------------------ what a save and a claim leave

  /** If nothing was written since the load, the row is what the request computed; the time of the last claim stays. */
  lemma SavedAlone(s: State, a: Step)
    requires Enabled(s, a) && a.CommitEdit? && s.edits[a.e].row == s.row
    ensures Next(s, a).row == Some(Row(a.slot.Some?, a.slot, if s.row.Some? then s.row.value.last else None))
  {}

  /** Saves that overlap: each column is the one of this save where it changed it, and of the others where it did
      not. */
  lemma SavedTogether(s: State, a: Step)
    requires Enabled(s, a) && a.CommitEdit? && s.row.Some? && s.edits[a.e].row.Some?
    ensures var was, cur, row := s.edits[a.e].row.value, s.row.value, Next(s, a).row;
      && row.Some? && row.value.last == cur.last
      && (a.slot.Some? != was.enabled ==> row.value.enabled == a.slot.Some?)
      && (a.slot.Some? == was.enabled ==> row.value.enabled == cur.enabled)
      && (a.slot != was.next ==> row.value.next == a.slot) && (a.slot == was.next ==> row.value.next == cur.next)
  {}

  predicate Off(row: Option<Row>) { row.None? || !row.value.enabled }

  /** While nobody saves, a reminder that is off, or deleted, stays so and nothing is claimed. */
  lemma {:induction false} OffStaysQuiet(s: State, run: seq<Step>)
    requires Off(s.row) && EnabledRun(s, run) && forall a :: a in run ==> !a.CommitEdit?
    ensures Off(Run(s, run).row) && Run(s, run).claimed == s.claimed
    decreases |run|
  {
    if run != [] {
      assert forall a :: a in run[1..] ==> a in run;
      OffStaysQuiet(Next(s, run[0]), run[1..]);
    }
  }

  /** A claim that matches stores the following slot, or switches the reminder off, and the time of its tick; any other
      changes nothing but the ticket. */
  lemma ClaimLeaves(s: State, a: Step)
    requires Enabled(s, a) && a.Claim?
    ensures var n, ticket := Next(s, a), s.tickets[a.t];
      && n.tickets == s.tickets - {a.t} && n.edits == s.edits && n.clock == s.clock
      && (if s.row.Some? && s.row.value.enabled && s.row.value.next == Some(ticket.due)
          then n.row == Some(Row(a.following.Some?, a.following, Some(ticket.now)))
              && n.claimed == s.claimed + [ticket.due]
          else n.row == s.row && n.claimed == s.claimed)
  {}

  /** The stored time of the last claim is the time of its tick: not before the slot it was for, and not in the
      future. */
  ghost predicate LastIsPast(s: State) {
    && Past(s) && (forall t :: t in s.tickets ==> s.tickets[t].now <= s.clock)
    && (s.row.Some? && s.row.value.last.Some? ==>
          s.lastClaimed.Some? && s.lastClaimed.value <= s.row.value.last.value <= s.clock)
  }

  lemma {:induction false} LastStaysPast(s: State, run: seq<Step>)
    requires LastIsPast(s) && EnabledRun(s, run)
    ensures LastIsPast(Run(s, run))
    decreases |run|
  {
    if run != [] {
      LastStaysPast(Next(s, run[0]), run[1..]);
    }
  }

  // ------------------------------------------------------------------ two runs with a stale save

  const ARMED := State(Some(Row(true, Some(100), None)), 49, map[], map[], None, [])

  /** The slot 100 has been claimed while a save that read the clock at 49 is under way. */
  function Claimed(loaded: Row): State {
    State(Some(Row(true, Some(200), Some(101))), 101, map[], map[0 := Loaded(49, Some(loaded))], Some(100), [100])
  }

  /** A save of the unchanged schedule reads the clock before the slot 100, and loads the row after its claim. */
  lemma ClaimBeforeLoad() returns (run: seq<Step>)
    ensures EnabledRun(ARMED, run) && Run(ARMED, run) == Claimed(Row(true, Some(200), Some(101)))
  {
    run := [BeginEdit(0), Advance(101), Read(1, 101), Claim(1, Some(200)), LoadEdit(0)];
    FiveSteps(ARMED, run);
  }

  /** A save that moves the slot from 100 to 60 reads the clock and the row before both, and commits after the claim. */
  lemma ClaimBeforeCommit() returns (run: seq<Step>)
    ensures EnabledRun(ARMED, run) && Run(ARMED, run) == Claimed(Row(true, Some(100), None))
  {
    run := [BeginEdit(0), LoadEdit(0), Advance(101), Read(1, 101), Claim(1, Some(200))];
    FiveSteps(ARMED, run);
  }

  lemma FiveSteps(s: State, run: seq<Step>)
    requires |run| == 5 && Enabled(s, run[0]) && Enabled(Next(s, run[0]), run[1])
    requires Enabled(Next(Next(s, run[0]), run[1]), run[2])
    requires Enabled(Next(Next(Next(s, run[0]), run[1]), run[2]), run[3])
    requires Enabled(Next(Next(Next(Next(s, run[0]), run[1]), run[2]), run[3]), run[4])
    ensures EnabledRun(s, run)
    ensures Run(s, run) == Next(Next(Next(Next(Next(s, run[0]), run[1]), run[2]), run[3]), run[4])
  {
    var s1 := Next(s, run[0]);
    var s2 := Next(s1, run[1]);
    var s3 := Next(s2, run[2]);
    var s4 := Next(s3, run[3]);
    var s5 := Next(s4, run[4]);
    assert EnabledRun(s5, run[5..]) && Run(s5, run[5..]) == s5;
    OneStep(s4, run[4..]);
    OneStep(s3, run[3..]);
    OneStep(s2, run[2..]);
    OneStep(s1, run[1..]);
    OneStep(s, run);
  }

  ghost predicate Reachable(s: State) { exists run :: EnabledRun(ARMED, run) && Run(ARMED, run) == s }

  /** From a state in which nothing is claimed, saves can be stale: one slot is then claimed twice, or slots are claimed
      out of order. */
  lemma StaleEditRepeats() returns (n: State, twice: seq<Step>, m: State, back: seq<Step>)
    ensures Inv(ARMED) && Reachable(n) && Reachable(m)
    ensures var a := CommitEdit(0, Some(100));
      Enabled(n, a) && Stale(n, a) && EnabledRun(Next(n, a), twice) && Run(Next(n, a), twice).claimed == [100, 100]
    ensures var a := CommitEdit(0, Some(60));
      Enabled(m, a) && Stale(m, a) && EnabledRun(Next(m, a), back) && Run(Next(m, a), back).claimed == [100, 60]
  {
    n, m := Claimed(Row(true, Some(200), Some(101))), Claimed(Row(true, Some(100), None));
    var first := ClaimBeforeLoad();
    var second := ClaimBeforeCommit();
    twice := ClaimFollows(Next(n, CommitEdit(0, Some(100))), 100);
    back := ClaimFollows(Next(m, CommitEdit(0, Some(60))), 60);
  }

  // ------------------------------------------------------------------ the program

  /** The schedule's row and the code that saves it and claims its slots. */
  class Reminder {
    var row: Option<Row>
    var clock: int
    var tickets: map<Id, Ticket>
    var edits: map<Id, Edit>
    var lastClaimed: Option<int>
    ghost var claimed: seq<int>

    ghost function View(): State
      reads this
    {
      State(row, clock, tickets, edits, lastClaimed, claimed)
    }

    /** The read of `send_reminder`: nothing to do, or the slot that is due. */
    method BeginSend(t: Id, now: int) returns (due: bool)
      requires t !in tickets && now <= clock
      modifies this
      ensures due == Due(old(row), now)
      ensures View() == if due then Next(old(View()), Step.Read(t, now)) else old(View())
    {
      due := row.Some? && row.value.enabled && row.value.next.Some? && row.value.next.value <= now;
      if due {
        tickets := tickets[t := Ticket(row.value.next.value, now)];
      }
    }

    /** The next slot and the conditional update; `known` says whether the row's zone could be loaded. */
    method EndSend(t: Id, weekday: int, hour: int, z: Zone, known: bool) returns (sent: bool, following: Option<int>)
      requires t in tickets && Sane(z)
      modifies this
      ensures Enabled(old(View()), Step.Claim(t, following)) && View() == Next(old(View()), Step.Claim(t, following))
      ensures following.Some? <==> known && 0 <= weekday <= 6 && 0 <= hour <= 23
      ensures following.Some? ==> FirstSlot(z, weekday, hour, old(tickets)[t].now, following.value)
      ensures sent == Matches(old(row), old(tickets)[t].due)
    {
      var ticket := tickets[t];
      following := None;
      if known {
        var outcome := ComputeNextReminder(weekday, hour, z, ticket.now);
        if outcome.NextAt? {
          following := Some(outcome.at);
        }
      }
      tickets := tickets - {t};
      sent := row.Some? && row.value.enabled && row.value.next == Some(ticket.due);
      if sent {
        row := Some(Row(following.Some?, following, Some(ticket.now)));
        lastClaimed, claimed := Some(ticket.due), claimed + [ticket.due];
      }
    }

    method BeginSave(e: Id)
      requires e !in edits
      modifies this
      ensures View() == Next(old(View()), Step.BeginEdit(e))
    {
      edits := edits[e := Clocked(clock)];
    }

    method LoadSave(e: Id)
      requires e in edits && edits[e].Clocked?
      modifies this
      ensures View() == Next(old(View()), Step.LoadEdit(e))
    {
      edits := edits[e := Loaded(edits[e].at, row)];
    }

    /** Saving the schedule: the slot is computed from the time the request has read, and what differs from the loaded
        row is written. A save that would insert a second row or update a deleted one fails. */
    method CommitSave(e: Id, enabled: bool, weekday: int, hour: int, z: Zone) returns (ok: bool, slot: Option<int>)
      requires e in edits && edits[e].Loaded? && Sane(z) && 0 <= weekday <= 6 && 0 <= hour <= 23
      modifies this
      ensures Enabled(old(View()), Step.CommitEdit(e, slot)) && View() == Next(old(View()), Step.CommitEdit(e, slot))
      ensures slot.Some? == enabled && (enabled ==> FirstSlot(z, weekday, hour, old(edits)[e].at, slot.value))
      ensures ok <==> old(row).Some? == old(edits)[e].row.Some?
    {
      slot := None;
      if enabled {
        var outcome := ComputeNextReminder(weekday, hour, z, edits[e].at);
        slot := Some(outcome.at);
      }
      var loaded := edits[e].row;
      edits := edits - {e};
      ok := row.Some? == loaded.Some?;
      if !ok {
        return;
      }
      if loaded.None? {
        row := Some(Row(enabled, slot, None));
        return;
      }
      if enabled != loaded.value.enabled {
        row := Some(row.value.(enabled := enabled));
      }
      if slot != loaded.value.next {
        row := Some(row.value.(next := slot));
      }
    }
  }
}
