/** Leadership terms on one replica: the write gate, the renewal loop, and what a candidate observes. */
module Lease {
  import opened Wrappers

  /** Milliseconds of the monotonic clock. */
  type Instant = nat

  const RENEW_DEADLINE: nat := 10_000
  const RENEW_ATTEMPT: nat := 5_000
  const UNRESTRICTED_BUDGET: nat := 30_000
  const LEADER_BUDGET: nat := 5_000

  // ---------------------------------------------------------------- the gate

  datatype Permission = Unrestricted | Follower | Leader(expires: Instant) {
    predicate Live(now: Instant) { Leader? && now < expires }
  }

  function Begun(attempted: Instant): Permission { Leader(attempted + RENEW_DEADLINE) }

  function Renewed(gate: Permission, attempted: Instant, now: Instant): Permission {
    if !gate.Live(now) then Follower
    else if gate.expires < attempted + RENEW_DEADLINE then Leader(attempted + RENEW_DEADLINE)
    else gate
  }

  class WriteGate {
    var state: Permission

    constructor ()
      ensures state == Unrestricted
    {
      state := Unrestricted;
    }

    method Close()
      modifies this
      ensures state == Follower
    {
      state := Follower;
    }

    method Start(attempted: Instant)
      modifies this
      ensures state == Begun(attempted)
    {
      state := Leader(attempted + RENEW_DEADLINE);
    }

    /** A live term lasts at least as long as before and as the attempt allows; any other is over. */
    method Renew(attempted: Instant, now: Instant) returns (kept: bool)
      modifies this
      ensures kept <==> old(state).Live(now)
      ensures state == Renewed(old(state), attempted, now)
      ensures kept ==> state.Live(now) && state.expires >= attempted + RENEW_DEADLINE && state.expires >= old(state).expires
      ensures kept ==> state.expires == attempted + RENEW_DEADLINE || state == old(state)
      ensures !kept ==> forall t :: !state.Live(t)
    {
      match state {
        case Leader(expires) =>
          if now < expires {
            state := Leader(if expires < attempted + RENEW_DEADLINE then attempted + RENEW_DEADLINE else expires);
            return true;
          }
        case _ =>
      }
      state := Follower;
      return false;
    }

    function Remaining(now: Instant): (left: Option<nat>)
      reads this
      ensures left.Some? <==> state.Leader?
      ensures left.Some? ==> (left.value > 0 <==> state.Live(now))
      ensures left.Some? && left.value > 0 ==> now + left.value == state.expires
    {
      match state
      case Leader(expires) => Some(if now < expires then expires - now else 0)
      case _ => None
    }

    /** Every window granted to a leader ends inside its term; an ended term and a follower get none. */
    function Budget(now: Instant): (window: Option<nat>)
      reads this
      ensures window.Some? <==> state.Unrestricted? || state.Live(now)
      ensures window.Some? && state.Leader? ==> 0 < window.value <= LEADER_BUDGET && now + window.value <= state.expires
      ensures window.Some? && state.Unrestricted? ==> window.value == UNRESTRICTED_BUDGET
    {
      match state
      case Unrestricted => Some(UNRESTRICTED_BUDGET)
      case Leader(expires) =>
        if expires <= now then None else Some(if expires - now < LEADER_BUDGET then expires - now else LEADER_BUDGET)
      case Follower => None
    }
  }

  // ---------------------------------------------------------------- holding a term

  /** How late the sleep before an attempt ends, how long the attempt would take, and whether it succeeds. */
  datatype Round = Round(late: nat, took: nat, succeeds: bool)

  function Least(a: nat, b: nat): nat { if a < b then a else b }

  /**
   * Keeps a term renewed over the given rounds. `renewals` are the starts of the attempts that
   * extended it: each began inside the term as it then was. Without a term it is over at once.
   */
  method Hold(gate: WriteGate, retry: nat, rounds: seq<Round>, start: Instant, ghost attempted: Instant)
    returns (over: bool, end: Instant, ghost renewals: seq<Instant>, used: nat)
    requires gate.state.Leader? ==> gate.state == Begun(attempted) && attempted <= start
    modifies gate
    ensures used <= |rounds| && start <= end
    ensures Extends(attempted, renewals)
    ensures !old(gate.state).Leader? ==> over && end == start && renewals == [] && used == 0 && gate.state == Follower
    ensures old(gate.state).Leader? ==>
            var expires := LastStart(attempted, renewals) + RENEW_DEADLINE;
            if over then
              && gate.state == Follower
              && (start < expires ==> expires <= end <= expires + if used == 0 then 0 else rounds[used - 1].late)
              && (expires <= start ==> renewals == [])
            else
              && used == |rounds| && gate.state == Leader(expires)
              && (start < expires ==> LastStart(attempted, renewals) + Failing(rounds, retry) <= end <= expires)
  {
    end, used, renewals := start, 0, [];
    if gate.Remaining(end).None? {
      gate.Close();
      return true, end, renewals, used;
    }
    while used < |rounds|
      invariant used <= |rounds| && start <= end && Extends(attempted, renewals)
      invariant gate.state == Leader(LastStart(attempted, renewals) + RENEW_DEADLINE)
      invariant LastStart(attempted, renewals) <= end
      invariant start < LastStart(attempted, renewals) + RENEW_DEADLINE ==> end <= LastStart(attempted, renewals) + RENEW_DEADLINE
      invariant LastStart(attempted, renewals) + Failing(rounds[..used], retry) <= end
      invariant renewals != [] ==> start < LastStart(attempted, renewals) + RENEW_DEADLINE
    {
      var round := rounds[used];
      assert rounds[..used + 1][..used] == rounds[..used];
      used := used + 1;
      var remaining := gate.Remaining(end).value;
      end := end + Least(retry, remaining) + round.late;
      remaining := gate.Remaining(end).value;
      if remaining == 0 {
        gate.Close();
        return true, end, renewals, used;
      }
      var began := end;
      var limit := Least(remaining, RENEW_ATTEMPT);
      var renewed := round.succeeds && round.took <= limit;
      end := end + Least(round.took, limit);
      if renewed {
        var kept := gate.Renew(began, end);
        if !kept {
          gate.Close();
          return true, end, renewals, used;
        }
        renewals := renewals + [began];
      }
    }
    over := false;
    assert rounds[..used] == rounds;
  }

  /** The retry periods of the last rounds, those since any attempt succeeded. */
  function Failing(rounds: seq<Round>, retry: nat): nat {
    if rounds == [] || rounds[|rounds| - 1].succeeds then 0 else Failing(rounds[..|rounds| - 1], retry) + retry
  }

  function LastStart(attempted: Instant, renewals: seq<Instant>): Instant {
    if renewals == [] then attempted else renewals[|renewals| - 1]
  }

  /** Each renewal started before the term it extends had ended, and no earlier than the one before. */
  ghost predicate Extends(attempted: Instant, renewals: seq<Instant>) {
    forall i | 0 <= i < |renewals| ::
      var before := LastStart(attempted, renewals[..i]);
      before <= renewals[i] < before + RENEW_DEADLINE
  }

  // ---------------------------------------------------------------- observing a holder

  /** The record last seen, and since when. */
  datatype Sight<!R> = Unseen | Seen(record: R, since: Instant)

  function Look<R(==)>(sight: Sight<R>, record: R, now: Instant): Sight<R> {
    if sight.Seen? && sight.record == record then sight else Seen(record, now)
  }

  /** How long the record has stood, as far as this candidate knows. */
  function Stood<R>(sight: Sight<R>, now: Instant): nat {
    if sight.Seen? && sight.since < now then now - sight.since else 0
  }

  /** What was looked at, and when. */
  datatype Glance<!R> = Glance(record: R, at: Instant)

  ghost predicate InOrder<R>(past: seq<Glance<R>>) { forall i, j | 0 <= i < j < |past| :: past[i].at <= past[j].at }

  /** From glance `i` on, always `record`. */
  ghost predicate Unchanged<R>(past: seq<Glance<R>>, i: nat, record: R) {
    i < |past| && forall j | i <= j < |past| :: past[j].record == record
  }

  ghost predicate Remembers<R(!new)>(sight: Sight<R>, past: seq<Glance<R>>) {
    if sight.Unseen? then past == []
    else exists i: nat :: FirstOfRun(past, i, sight.record) && past[i].at == sight.since
  }

  ghost predicate FirstOfRun<R>(past: seq<Glance<R>>, i: nat, record: R) {
    Unchanged(past, i, record) && (i > 0 ==> past[i - 1].record != record)
  }

  lemma LookRemembers<R(!new)>(sight: Sight<R>, past: seq<Glance<R>>, record: R, now: Instant)
    requires Remembers(sight, past)
    ensures Remembers(Look(sight, record, now), past + [Glance(record, now)])
  {
    var after := past + [Glance(record, now)];
    if sight.Seen? && sight.record == record {
      var i: nat :| FirstOfRun(past, i, record) && past[i].at == sight.since;
      assert FirstOfRun(after, i, record);
    } else {
      if sight.Seen? {
        var i: nat :| FirstOfRun(past, i, sight.record) && past[i].at == sight.since;
        assert past[|past| - 1].record == sight.record;
      }
      assert FirstOfRun(after, |past|, record) && after[|past|].at == now;
    }
  }

  /** A record is called expired exactly if some earlier glance shows it has stood for the whole duration. */
  lemma StoodLongEnough<R(!new)>(sight: Sight<R>, past: seq<Glance<R>>, duration: nat, now: Instant)
    requires InOrder(past) && sight.Seen? && Remembers(sight, past) && past[|past| - 1].at == now
    ensures Stood(sight, now) >= duration <==> exists i: nat :: Unchanged(past, i, sight.record) && now - past[i].at >= duration
  {
    var first: nat :| FirstOfRun(past, first, sight.record) && past[first].at == sight.since;
    if i: nat :| Unchanged(past, i, sight.record) && now - past[i].at >= duration {
      assert first <= i;
    }
    if Stood(sight, now) >= duration {
      assert Unchanged(past, first, sight.record);
    }
  }

  class Observation<R(==, !new)> {
    var sight: Sight<R>
    ghost var past: seq<Glance<R>>

    ghost predicate Valid()
      reads this
    {
      Remembers(sight, past) && InOrder(past)
    }

    constructor ()
      ensures Valid() && past == [] && sight == Unseen
    {
      sight, past := Unseen, [];
    }

    /** A foreign record must stand unchanged for its entire duration, measured locally. */
    method Expired(record: R, duration: nat, now: Instant) returns (expired: bool)
      requires Valid() && (past == [] || past[|past| - 1].at <= now)
      modifies this
      ensures Valid() && past == old(past) + [Glance(record, now)] && sight == Look(old(sight), record, now)
      ensures expired <==> exists i: nat :: Unchanged(past, i, record) && now - past[i].at >= duration
    {
      LookRemembers(sight, past, record, now);
      if !(sight.Seen? && sight.record == record) {
        sight := Seen(record, now);
      }
      past := past + [Glance(record, now)];
      StoodLongEnough(sight, past, duration, now);
      expired := Stood(sight, now) >= duration;
    }
  }
}
