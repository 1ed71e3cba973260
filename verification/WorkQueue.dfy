/** The deduplicating work queue: its meaning, and the locked structures that carry it. */
module WorkQueue {
  import opened Wrappers

  type Instant = nat

  // ---------------------------------------------------------------- what the queue means

  /** Ready keys in order, outstanding `Work` guards, keys to rerun, and pending deadlines. */
  datatype Queue<!K> = Queue(ready: seq<K>, guards: multiset<K>, dirty: set<K>, deadline: map<K, Instant>)

  function Empty<K>(): Queue<K> { Queue([], multiset{}, {}, map[]) }

  /** A request for a pass: remembered while the key is worked on, else one ready slot. */
  function Wake<K>(q: Queue<K>, key: K): Queue<K> {
    if key in q.guards then q.(dirty := q.dirty + {key})
    else if key in q.ready then q
    else q.(ready := q.ready + [key])
  }

  function Schedule<K>(q: Queue<K>, key: K, when: Instant): Queue<K> {
    if key in q.deadline && q.deadline[key] <= when then q else q.(deadline := q.deadline[key := when])
  }

  function Cancel<K>(q: Queue<K>, key: K): Queue<K> { q.(deadline := q.deadline - {key}) }

  /** A deadline passes: it is forgotten and becomes a request. */
  function Fire<K>(q: Queue<K>, key: K): Queue<K> { Wake(Cancel(q, key), key) }

  function FireAll<K>(q: Queue<K>, keys: seq<K>): Queue<K> {
    if keys == [] then q else Fire(FireAll(q, keys[..|keys| - 1]), keys[|keys| - 1])
  }

  function Start<K>(q: Queue<K>, at: nat): Queue<K>
    requires at < |q.ready|
  {
    q.(ready := q.ready[..at] + q.ready[at + 1..], guards := q.guards + multiset{q.ready[at]})
  }

  function Finish<K>(q: Queue<K>, key: K): Queue<K> {
    var released := q.(guards := q.guards - multiset{key});
    if key in q.dirty then released.(dirty := q.dirty - {key}, ready := q.ready + [key]) else released
  }

  ghost predicate Distinct<T>(s: seq<T>) { forall i, j | 0 <= i < j < |s| :: s[i] != s[j] }

  /** At most one slot and one guard, never both, and reruns only for keys being worked on. */
  ghost predicate Inv<K(!new)>(q: Queue<K>) {
    && Distinct(q.ready)
    && (forall k | k in q.guards :: q.guards[k] == 1 && k !in q.ready)
    && (forall k | k in q.dirty :: k in q.guards)
  }

  predicate Idle<K(==)>(q: Queue<K>, key: K) { key !in q.ready && key !in q.guards }

  /** A pass is still to come. */
  predicate Owed<K(==)>(q: Queue<K>, key: K) { key in q.ready || key in q.dirty }

  lemma WakeKeepsInv<K(!new)>(q: Queue<K>, key: K)
    requires Inv(q)
    ensures Inv(Wake(q, key)) && Owed(Wake(q, key), key)
  {
  }

  lemma StartKeepsInv<K(!new)>(q: Queue<K>, at: nat)
    requires Inv(q) && at < |q.ready|
    ensures Inv(Start(q, at)) && !Owed(Start(q, at), q.ready[at])
    ensures forall k :: k in Start(q, at).ready <==> k in q.ready && k != q.ready[at]
  {
    var rest := q.ready[..at] + q.ready[at + 1..];
    forall k ensures k in rest <==> k in q.ready && k != q.ready[at] {
      if k in q.ready && k != q.ready[at] {
        var i :| 0 <= i < |q.ready| && q.ready[i] == k;
        assert rest[if i < at then i else i - 1] == k;
      }
    }
  }

  lemma FinishKeepsInv<K(!new)>(q: Queue<K>, key: K)
    requires Inv(q) && key in q.guards
    ensures Inv(Finish(q, key))
    ensures Owed(Finish(q, key), key) <==> Owed(q, key)
    ensures !Owed(q, key) ==> Idle(Finish(q, key), key)
  {
  }

  // ---------------------------------------------------------------- runs

  /** One locked section; a fire and a take are the two halves of `next_selected`. */
  datatype Step<!K> =
    | Add(key: K)
    | AddAt(key: K, when: Instant)
    | CancelDeadline(key: K)
    | FireDue(key: K, now: Instant)
    | Take(key: K, at: nat)
    | Drop(key: K)

  predicate Enabled<K(==)>(q: Queue<K>, s: Step<K>) {
    match s
    case FireDue(key, now) => key in q.deadline && q.deadline[key] <= now
    case Take(key, at) => at < |q.ready| && q.ready[at] == key
    case Drop(key) => key in q.guards
    case _ => true
  }

  function After<K(==)>(q: Queue<K>, s: Step<K>): Queue<K>
    requires Enabled(q, s)
  {
    match s
    case Add(key) => Wake(q, key)
    case AddAt(key, when) => Schedule(q, key, when)
    case CancelDeadline(key) => Cancel(q, key)
    case FireDue(key, _) => Fire(q, key)
    case Take(_, at) => Start(q, at)
    case Drop(key) => Finish(q, key)
  }

  ghost predicate Run<K(!new)>(states: seq<Queue<K>>, steps: seq<Step<K>>) {
    && |states| == |steps| + 1
    && Inv(states[0])
    && forall i | 0 <= i < |steps| :: Enabled(states[i], steps[i]) && states[i + 1] == After(states[i], steps[i])
  }

  predicate Requests<K(==)>(s: Step<K>, key: K) { (s.Add? || s.FireDue?) && s.key == key }

  predicate Starts<K(==)>(s: Step<K>, key: K) { s.Take? && s.key == key }

  predicate Ends<K(==)>(s: Step<K>, key: K) { s.Drop? && s.key == key }

  lemma StepKeepsInv<K(!new)>(q: Queue<K>, s: Step<K>)
    requires Inv(q) && Enabled(q, s)
    ensures Inv(After(q, s))
  {
    match s
    case Add(key) => WakeKeepsInv(q, key);
    case FireDue(key, _) => WakeKeepsInv(Cancel(q, key), key);
    case Take(_, at) => StartKeepsInv(q, at);
    case Drop(key) => FinishKeepsInv(q, key);
    case _ =>
  }

  /** A pass is owed after a step exactly if the step asked for it, or it was owed and did not start. */
  lemma StepOwes<K(!new)>(q: Queue<K>, s: Step<K>, key: K)
    requires Inv(q) && Enabled(q, s)
    ensures Owed(After(q, s), key) <==> Requests(s, key) || (Owed(q, key) && !Starts(s, key))
  {
    match s
    case Take(_, at) => StartKeepsInv(q, at);
    case Drop(k) => FinishKeepsInv(q, k);
    case _ =>
  }

  /** A key is worked on after a step exactly if its pass started, or went on. */
  lemma StepWorks<K(!new)>(q: Queue<K>, s: Step<K>, key: K)
    requires Inv(q) && Enabled(q, s)
    ensures key in After(q, s).guards <==> Starts(s, key) || (key in q.guards && !Ends(s, key))
    ensures Starts(s, key) ==> key !in q.guards
  {
  }

  /** Slots, guards and reruns stay exclusive over every run. */
  lemma {:induction false} RunKeepsInv<K(!new)>(states: seq<Queue<K>>, steps: seq<Step<K>>, n: nat)
    requires Run(states, steps) && n < |states|
    ensures Inv(states[n])
  {
    if n > 0 {
      RunKeepsInv(states, steps, n - 1);
      StepKeepsInv(states[n - 1], steps[n - 1]);
    }
  }

  ghost predicate Unserved<K>(steps: seq<Step<K>>, key: K, i: nat, n: nat)
    requires n <= |steps|
  {
    i < n && Requests(steps[i], key) && forall j | i < j < n :: !Starts(steps[j], key)
  }

  /**
   * No lost and no invented work: a pass is owed exactly while some request has not been
   * followed by a start.
   */
  lemma {:induction false} OwedMeansUnserved<K(!new)>(states: seq<Queue<K>>, steps: seq<Step<K>>, key: K, n: nat)
    requires Run(states, steps) && n < |states| && !Owed(states[0], key)
    ensures Owed(states[n], key) <==> exists i: nat :: Unserved(steps, key, i, n)
  {
    hide After, Inv;
    if n > 0 {
      OwedMeansUnserved(states, steps, key, n - 1);
      RunKeepsInv(states, steps, n - 1);
      StepOwes(states[n - 1], steps[n - 1], key);
      if Owed(states[n], key) {
        if Requests(steps[n - 1], key) {
          assert Unserved(steps, key, n - 1, n);
        } else {
          var i: nat :| Unserved(steps, key, i, n - 1);
          assert Unserved(steps, key, i, n);
        }
      }
      if i: nat :| Unserved(steps, key, i, n) {
        assert i == n - 1 || Unserved(steps, key, i, n - 1);
      }
    }
  }

  /** Every request is followed by a pass started after it before its key can be idle. */
  lemma {:induction false} NoLostWork<K(!new)>(states: seq<Queue<K>>, steps: seq<Step<K>>, key: K, i: nat, n: nat)
    requires Run(states, steps) && !Owed(states[0], key)
    requires i < n < |states| && Requests(steps[i], key) && Idle(states[n], key)
    ensures exists j :: i < j < n && Starts(steps[j], key)
  {
    OwedMeansUnserved(states, steps, key, n);
    RunKeepsInv(states, steps, n);
    assert !Owed(states[n], key);
    assert !Unserved(steps, key, i, n);
  }

  function CountStarts<K(==)>(steps: seq<Step<K>>, key: K): nat {
    if steps == [] then 0
    else CountStarts(steps[..|steps| - 1], key) + if Starts(steps[|steps| - 1], key) then 1 else 0
  }

  function CountRequests<K(==)>(steps: seq<Step<K>>, key: K): nat {
    if steps == [] then 0
    else CountRequests(steps[..|steps| - 1], key) + if Requests(steps[|steps| - 1], key) then 1 else 0
  }

  /** Starts never exceed requests, counting the one that is still owed. */
  lemma {:induction false} StartsAreBought<K(!new)>(states: seq<Queue<K>>, steps: seq<Step<K>>, key: K, n: nat)
    requires Run(states, steps) && n < |states|
    ensures CountStarts(steps[..n], key) + (if Owed(states[n], key) then 1 else 0) <=
            CountRequests(steps[..n], key) + (if Owed(states[0], key) then 1 else 0)
  {
    hide After, Inv;
    if n > 0 {
      StartsAreBought(states, steps, key, n - 1);
      RunKeepsInv(states, steps, n - 1);
      StepOwes(states[n - 1], steps[n - 1], key);
      assert steps[..n][..n - 1] == steps[..n - 1];
    }
  }

  /** While a pass runs no other starts, and it is owed another exactly if one was requested meanwhile. */
  lemma {:induction false} PassGoesOn<K(!new)>(states: seq<Queue<K>>, steps: seq<Step<K>>, key: K, i: nat, n: nat)
    requires Run(states, steps) && i < n < |states| && Starts(steps[i], key)
    requires forall j | i < j < n :: !Ends(steps[j], key)
    ensures key in states[n].guards && forall j | i < j < n :: !Starts(steps[j], key)
    ensures Owed(states[n], key) <==> exists j :: i < j < n && Requests(steps[j], key)
  {
    hide After, Inv;
    RunKeepsInv(states, steps, n - 1);
    StepWorks(states[n - 1], steps[n - 1], key);
    StepOwes(states[n - 1], steps[n - 1], key);
    if n > i + 1 {
      PassGoesOn(states, steps, key, i, n - 1);
    }
  }

  /**
   * Any number of requests during a pass buy exactly one more: after it the key has its one
   * ready slot if anything was requested meanwhile, and is idle otherwise.
   */
  lemma PassBuysOne<K(!new)>(states: seq<Queue<K>>, steps: seq<Step<K>>, key: K, i: nat, n: nat)
    requires Run(states, steps) && i < n < |steps| && Starts(steps[i], key) && Ends(steps[n], key)
    requires forall j | i < j < n :: !Ends(steps[j], key)
    ensures key !in states[n + 1].guards
    ensures key in states[n + 1].ready <==> exists j :: i < j < n && Requests(steps[j], key)
    ensures Distinct(states[n + 1].ready)
  {
    PassGoesOn(states, steps, key, i, n);
    RunKeepsInv(states, steps, n);
    StepOwes(states[n], steps[n], key);
    StepWorks(states[n], steps[n], key);
    RunKeepsInv(states, steps, n + 1);
  }

  /** A deadline asked for at `i` that nothing has fired or cancelled since. */
  ghost predicate Standing<K>(steps: seq<Step<K>>, key: K, i: nat, n: nat)
    requires n <= |steps|
  {
    i < n && Asks(steps[i], key) && forall j | i < j < n :: !Forgets(steps[j], key)
  }

  predicate Forgets<K(==)>(s: Step<K>, key: K) { (s.FireDue? || s.CancelDeadline?) && s.key == key }

  predicate Asks<K(==)>(s: Step<K>, key: K) { s.AddAt? && s.key == key }

  lemma StepTimes<K(!new)>(q: Queue<K>, s: Step<K>, key: K)
    requires Enabled(q, s)
    ensures var after := After(q, s).deadline;
            if Forgets(s, key) then key !in after
            else if Asks(s, key) && !(key in q.deadline && q.deadline[key] <= s.when) then
              key in after && after[key] == s.when
            else if key in q.deadline then key in after && after[key] == q.deadline[key]
            else key !in after
  {
  }

  /** The pending deadline is the least one standing, whatever adds, takes and drops come between. */
  lemma {:induction false} DeadlineIsLeast<K(!new)>(states: seq<Queue<K>>, steps: seq<Step<K>>, key: K, n: nat)
    requires Run(states, steps) && n < |states| && key !in states[0].deadline
    ensures key in states[n].deadline <==> exists i: nat :: Standing(steps, key, i, n)
    ensures key in states[n].deadline ==> exists i: nat :: Standing(steps, key, i, n) && steps[i].when == states[n].deadline[key]
    ensures forall i: nat | Standing(steps, key, i, n) :: states[n].deadline[key] <= steps[i].when
  {
    hide After, Inv;
    if n > 0 {
      DeadlineIsLeast(states, steps, key, n - 1);
      StepTimes(states[n - 1], steps[n - 1], key);
      var s, before, after := steps[n - 1], states[n - 1].deadline, states[n].deadline;
      forall i: nat | Standing(steps, key, i, n) ensures key in after && after[key] <= steps[i].when {
        if i < n - 1 {
          assert Standing(steps, key, i, n - 1);
        }
      }
      if key in after {
        if key in before && before[key] == after[key] {
          var i: nat :| Standing(steps, key, i, n - 1) && steps[i].when == before[key];
          assert Standing(steps, key, i, n);
        } else {
          assert Standing(steps, key, n - 1, n);
        }
      }
    }
  }

  function CountTakes<K>(steps: seq<Step<K>>): nat {
    if steps == [] then 0 else CountTakes(steps[..|steps| - 1]) + if steps[|steps| - 1].Take? then 1 else 0
  }

  /** Every take is of the first ready key, as by plain `next`. */
  ghost predicate Plain<K>(steps: seq<Step<K>>) { forall i | 0 <= i < |steps| && steps[i].Take? :: steps[i].at == 0 }

  /** Nothing overtakes a ready key: others are added behind it, and a take is of the first. */
  lemma StepShifts<K(!new)>(q: Queue<K>, s: Step<K>, p: nat)
    requires Enabled(q, s) && p < |q.ready| && (s.Take? ==> s.at == 0 < p)
    ensures var at := if s.Take? then p - 1 else p;
            at < |After(q, s).ready| && After(q, s).ready[at] == q.ready[p]
  {
  }

  /** Under plain `next`, the key at position `p` waits for exactly `p` takes. */
  lemma {:induction false} FifoWaits<K(!new)>(states: seq<Queue<K>>, steps: seq<Step<K>>, p: nat, n: nat)
    requires Run(states, steps) && Plain(steps) && n < |states| && p < |states[0].ready|
    requires CountTakes(steps[..n]) <= p
    ensures var at := p - CountTakes(steps[..n]); at < |states[n].ready| && states[n].ready[at] == states[0].ready[p]
  {
    hide After, Inv;
    if n > 0 {
      assert steps[..n][..n - 1] == steps[..n - 1];
      FifoWaits(states, steps, p, n - 1);
      StepShifts(states[n - 1], steps[n - 1], p - CountTakes(steps[..n - 1]));
    }
  }

  /** And it is what the take after those serves. */
  lemma FifoServes<K(!new)>(states: seq<Queue<K>>, steps: seq<Step<K>>, p: nat, n: nat)
    requires Run(states, steps) && Plain(steps) && p < |states[0].ready|
    requires n < |steps| && steps[n].Take? && CountTakes(steps[..n]) == p
    ensures Starts(steps[n], states[0].ready[p])
  {
    FifoWaits(states, steps, p, n);
  }

  // ---------------------------------------------------------------- the locked state

  datatype Entry = Entry(queued: bool, processing: bool, dirty: bool, deadline: Option<Instant>)

  const FRESH := Entry(false, false, false, None)

  function EntryOf<K(==)>(q: Queue<K>, key: K): Entry {
    Entry(key in q.ready, key in q.guards, key in q.dirty, if key in q.deadline then Some(q.deadline[key]) else None)
  }

  /** An entry exists exactly while it is needed, and says what the queue says. */
  ghost predicate EntriesAgree<K(!new)>(entries: map<K, Entry>, q: Queue<K>) {
    forall k ::
      && (k in entries <==> !Idle(q, k) || k in q.deadline)
      && (k in entries ==> entries[k] == EntryOf(q, k))
  }

  function Updated<K>(entries: map<K, Entry>, key: K, entry: Entry): map<K, Entry> {
    if entry.queued || entry.processing || entry.deadline.Some? then entries[key := entry] else entries - {key}
  }

  lemma EntryChanges<K(!new)>(entries: map<K, Entry>, q: Queue<K>, r: Queue<K>, key: K)
    requires Inv(q) && EntriesAgree(entries, q) && forall k | k != key :: EntryOf(q, k) == EntryOf(r, k)
    ensures EntriesAgree(Updated(entries, key, EntryOf(r, key)), r)
    ensures EntryOf(q, key) == if key in entries then entries[key] else FRESH
  {
    var after := Updated(entries, key, EntryOf(r, key));
    forall k
      ensures k in after <==> !Idle(r, k) || k in r.deadline
      ensures k in after ==> after[k] == EntryOf(r, k)
    {
      if k != key {
        assert EntryOf(q, k) == EntryOf(r, k);
      }
    }
  }

  lemma FinishChanges<K(!new)>(entries: map<K, Entry>, q: Queue<K>, key: K)
    requires Inv(q) && EntriesAgree(entries, q) && key in q.guards
    ensures key in entries && (entries[key].dirty <==> key in q.dirty)
    ensures var entry := entries[key];
            var after := if entry.dirty then entry.(processing := false, dirty := false, queued := true)
                         else entry.(processing := false);
            EntriesAgree(if !entry.dirty && entry.deadline.None? then entries - {key} else entries[key := after],
                         Finish(q, key))
  {
    assert forall k | k != key :: EntryOf(q, k) == EntryOf(Finish(q, key), k);
    EntryChanges(entries, q, Finish(q, key), key);
    assert EntryOf(Finish(q, key), key) == EntryOf(q, key).(processing := false, dirty := false, queued := key in q.dirty);
  }

  lemma FireChanges<K(!new)>(entries: map<K, Entry>, q: Queue<K>, key: K)
    requires Inv(q) && EntriesAgree(entries, q) && key in q.deadline
    ensures Inv(Fire(q, key))
    ensures key in entries && (entries[key].processing <==> key in q.guards) && (entries[key].queued <==> key in q.ready)
    ensures var entry := entries[key].(deadline := None);
            var after := if entry.processing then entry.(dirty := true) else entry.(queued := true);
            EntriesAgree(entries[key := after], Fire(q, key))
  {
    WakeKeepsInv(Cancel(q, key), key);
    assert forall k | k != key :: EntryOf(q, k) == EntryOf(Fire(q, key), k);
    EntryChanges(entries, q, Fire(q, key), key);
  }

  lemma StartChanges<K(!new)>(entries: map<K, Entry>, q: Queue<K>, at: nat)
    requires Inv(q) && EntriesAgree(entries, q) && at < |q.ready|
    ensures var key := q.ready[at];
            && key in entries
            && EntriesAgree(entries[key := entries[key].(queued := false, processing := true)], Start(q, at))
  {
    var key := q.ready[at];
    StartKeepsInv(q, at);
    assert forall k | k != key :: EntryOf(q, k) == EntryOf(Start(q, at), k);
    EntryChanges(entries, q, Start(q, at), key);
  }

  lemma {:induction false} FireAllAppend<K>(q: Queue<K>, a: seq<K>, b: seq<K>)
    ensures FireAll(q, a + b) == FireAll(FireAll(q, a), b)
  {
    if b == [] {
      assert a + b == a;
    } else {
      assert (a + b)[..|a + b| - 1] == a + b[..|b| - 1];
      FireAllAppend(q, a, b[..|b| - 1]);
    }
  }

  ghost predicate Lists<K(!new)>(order: seq<K>, keys: set<K>) {
    Distinct(order) && forall k :: k in order <==> k in keys
  }

  lemma FireNone<K(!new)>(q: Queue<K>)
    ensures Lists<K>([], {}) && FireAll(q, []) == q
  {
  }

  lemma FireNext<K(!new)>(q: Queue<K>, order: seq<K>, keys: set<K>, key: K)
    requires Lists(order, keys) && key !in keys
    ensures Lists(order + [key], keys + {key})
    ensures FireAll(q, order + [key]) == Fire(FireAll(q, order), key)
    ensures FireAll(q, order + [key]).deadline == FireAll(q, order).deadline - {key}
  {
    assert (order + [key])[..|order|] == order;
  }

  /** The deadline index is the inverse of the deadlines, without empty buckets. */
  ghost predicate IndexAgrees<K(!new)>(index: map<Instant, set<K>>, deadline: map<K, Instant>) {
    && (forall d | d in index :: index[d] != {})
    && (forall d, k :: d in index && k in index[d] <==> k in deadline && deadline[k] == d)
  }

  function WithDeadline<K>(index: map<Instant, set<K>>, key: K, when: Instant): map<Instant, set<K>> {
    index[when := (if when in index then index[when] else {}) + {key}]
  }

  function WithoutDeadline<K>(index: map<Instant, set<K>>, key: K, when: Instant): map<Instant, set<K>> {
    if when !in index then index
    else if index[when] - {key} == {} then index - {when}
    else index[when := index[when] - {key}]
  }

  lemma IndexLearns<K(!new)>(index: map<Instant, set<K>>, deadline: map<K, Instant>, key: K, when: Instant)
    requires IndexAgrees(index, deadline) && key !in deadline
    ensures IndexAgrees(WithDeadline(index, key, when), deadline[key := when])
  {
  }

  lemma IndexForgets<K(!new)>(index: map<Instant, set<K>>, deadline: map<K, Instant>, key: K)
    requires IndexAgrees(index, deadline) && key in deadline
    ensures IndexAgrees(WithoutDeadline(index, key, deadline[key]), deadline - {key})
  {
    var after := WithoutDeadline(index, key, deadline[key]);
    forall d, k ensures d in after && k in after[d] <==> k in deadline && k != key && deadline[k] == d {
      if d == deadline[key] && k != key && d in index && k in index[d] {
        assert k in index[d] - {key};
      }
    }
  }

  lemma IndexPops<K(!new)>(index: map<Instant, set<K>>, deadline: map<K, Instant>, when: Instant)
    requires IndexAgrees(index, deadline) && when in index
    ensures IndexAgrees(index - {when}, deadline - index[when])
  {
    var after := index - {when};
    forall d, k ensures d in after && k in after[d] <==> k in deadline - index[when] && deadline[k] == d {
      assert k in index[when] <==> k in deadline && deadline[k] == when;
    }
  }

  /** The keys a pass of `next_selected` fires: those due, earliest deadline first, in any order at one instant. */
  ghost predicate Due<K(!new)>(fired: seq<K>, deadline: map<K, Instant>, now: Instant) {
    && Distinct(fired)
    && (forall k :: k in fired <==> k in deadline && deadline[k] <= now)
    && forall i, j | 0 <= i < j < |fired| :: deadline[fired[i]] <= deadline[fired[j]]
  }

  /** Some of the due keys have fired, and the rest are due no earlier. */
  ghost predicate DueSoFar<K(!new)>(fired: seq<K>, before: map<K, Instant>, left: map<K, Instant>, now: Instant) {
    && Distinct(fired)
    && (forall k | k in fired :: k in before && before[k] <= now && k !in left)
    && (forall k | k in before :: k in fired || (k in left && left[k] == before[k]))
    && (forall k | k in left :: k in before && left[k] == before[k])
    && (forall i, j | 0 <= i < j < |fired| :: before[fired[i]] <= before[fired[j]])
    && (forall f, k | f in fired && k in left :: before[f] <= left[k])
  }

  lemma BucketKeys<K(!new)>(index: map<Instant, set<K>>, left: map<K, Instant>, when: Instant)
    requires IndexAgrees(index, left) && IsLeast(Some(when), index.Keys)
    ensures forall k | k in index[when] :: k in left && left[k] == when
    ensures forall k | k in left :: when <= left[k] && (left[k] == when ==> k in index[when])
  {
    forall k | k in left ensures when <= left[k] && (left[k] == when ==> k in index[when]) {
      assert left[k] in index && k in index[left[k]];
    }
  }

  lemma BucketIsDue<K(!new)>(index: map<Instant, set<K>>, before: map<K, Instant>, left: map<K, Instant>,
                             fired: seq<K>, when: Instant, now: Instant, order: seq<K>)
    requires DueSoFar(fired, before, left, now) && IndexAgrees(index, left)
    requires IsLeast(Some(when), index.Keys) && when <= now && Lists(order, index[when])
    ensures DueSoFar(fired + order, before, left - index[when], now)
  {
    BucketKeys(index, left, when);
    hide IndexAgrees;
    var all, rest := fired + order, left - index[when];
    assert forall k | k in order :: k in left && before[k] == when;
    assert forall f | f in all :: f in before && before[f] <= when <= now;
    forall i, j | 0 <= i < j < |all| ensures all[i] != all[j] && before[all[i]] <= before[all[j]] {
      if i < |fired| <= j {
        assert all[i] in fired && all[j] in order;
      }
    }
    assert forall k | k in before :: k in all || (k in rest && rest[k] == before[k]);
  }

  lemma AllIsDue<K(!new)>(index: map<Instant, set<K>>, before: map<K, Instant>, left: map<K, Instant>,
                          fired: seq<K>, first: Option<Instant>, now: Instant)
    requires DueSoFar(fired, before, left, now) && IndexAgrees(index, left)
    requires IsLeast(first, index.Keys) && (first.Some? ==> now < first.value)
    ensures Due(fired, before, now) && forall d | d in index :: now < d
  {
    forall k | k in left ensures now < left[k] {
      assert left[k] in index && k in index[left[k]];
    }
  }

  lemma {:induction false} FireAllTimes<K(!new)>(q: Queue<K>, keys: seq<K>, key: K)
    ensures key in FireAll(q, keys).deadline <==> key in q.deadline && key !in keys
    ensures key in FireAll(q, keys).deadline ==> FireAll(q, keys).deadline[key] == q.deadline[key]
  {
    if keys != [] {
      FireAllTimes(q, keys[..|keys| - 1], key);
    }
  }

  /** What a turn fires is a run of fire steps, each enabled when it is taken. */
  lemma FiresAreSteps<K(!new)>(q: Queue<K>, fired: seq<K>, now: Instant, i: nat)
    requires Due(fired, q.deadline, now) && i < |fired|
    ensures Enabled(FireAll(q, fired[..i]), FireDue(fired[i], now))
    ensures FireAll(q, fired[..i + 1]) == After(FireAll(q, fired[..i]), FireDue(fired[i], now))
  {
    FireAllTimes(q, fired[..i], fired[i]);
    assert fired[..i + 1][..i] == fired[..i];
  }

  ghost predicate IsLeast(first: Option<Instant>, of: set<Instant>) {
    if first.None? then of == {} else first.value in of && forall d | d in of :: first.value <= d
  }

  lemma LeastOfNone()
    ensures IsLeast(None, {})
  {
  }

  lemma LeastGrows(first: Option<Instant>, of: set<Instant>, d: Instant)
    requires IsLeast(first, of)
    ensures IsLeast(if first.None? || d < first.value then Some(d) else first, of + {d})
  {
  }

  method Earliest<K>(index: map<Instant, set<K>>) returns (first: Option<Instant>)
    ensures IsLeast(first, index.Keys)
  {
    hide IsLeast;
    first := None;
    assert IsLeast(None, {}) by { LeastOfNone(); }
    var left, seen: set<Instant> := index.Keys, {};
    while left != {}
      invariant seen + left == index.Keys && IsLeast(first, seen)
      decreases |left|
    {
      var d :| d in left;
      LeastGrows(first, seen, d);
      if first.None? || d < first.value {
        first := Some(d);
      }
      left, seen := left - {d}, seen + {d};
    }
  }

  /** With nothing ready, the worker sleeps until the earliest pending deadline, which is still to come. */
  ghost predicate SleepsUntil<K(!new)>(q: Queue<K>, now: Instant, until: Option<Instant>) {
    && (until.None? <==> q.deadline == map[])
    && (until.Some? ==> now < until.value && exists k :: k in q.deadline && q.deadline[k] == until.value)
    && (forall k | k in q.deadline :: until.Some? && until.value <= q.deadline[k])
  }

  lemma SleepsUntilEarliest<K(!new)>(index: map<Instant, set<K>>, q: Queue<K>, now: Instant, until: Option<Instant>)
    requires IndexAgrees(index, q.deadline) && IsLeast(until, index.Keys) && forall d | d in index :: now < d
    ensures SleepsUntil(q, now, until)
  {
    forall k | k in q.deadline ensures until.Some? && until.value <= q.deadline[k] {
      assert q.deadline[k] in index && k in index[q.deadline[k]];
    }
    if until.Some? {
      var k :| k in index[until.value];
      assert k in q.deadline && q.deadline[k] == until.value;
    }
  }

  ghost predicate IsOrder<K(!new)>(le: (K, K) -> bool) {
    && (forall a, b :: le(a, b) || le(b, a))
    && (forall a, b, c :: le(a, b) && le(b, c) ==> le(a, c))
  }

  /** A least key, and the first of those. */
  ghost predicate FirstLeast<K>(keys: seq<K>, at: nat, le: (K, K) -> bool) {
    && at < |keys|
    && (forall i | 0 <= i < |keys| :: le(keys[at], keys[i]))
    && (forall i | 0 <= i < at :: !le(keys[i], keys[at]))
  }

  method Best<K(!new)>(keys: seq<K>, le: (K, K) -> bool) returns (at: nat)
    requires keys != [] && IsOrder(le)
    ensures FirstLeast(keys, at, le)
  {
    at := 0;
    for n := 1 to |keys|
      invariant FirstLeast(keys[..n], at, le)
    {
      if !le(keys[at], keys[n]) {
        at := n;
      }
    }
    assert keys[..|keys|] == keys;
  }

  class State<K(==, !new)> {
    var ready: seq<K>
    var entries: map<K, Entry>
    var deadlines: map<Instant, set<K>>
    ghost var queue: Queue<K>

    ghost predicate Valid()
      reads this
    {
      && ready == queue.ready
      && Inv(queue)
      && EntriesAgree(entries, queue)
      && IndexAgrees(deadlines, queue.deadline)
    }

    constructor ()
      ensures Valid() && queue == Empty()
    {
      ready, entries, deadlines, queue := [], map[], map[], Empty();
    }

    /** `entry(key).or_default()`. */
    function EntryAt(key: K): Entry
      reads this
    {
      if key in entries then entries[key] else FRESH
    }

    method Add(key: K)
      requires Valid()
      modifies this
      ensures Valid() && queue == Wake(old(queue), key)
    {
      var entry := EntryAt(key);
      WakeKeepsInv(queue, key);
      EntryChanges(entries, queue, Wake(queue, key), key);
      if entry.processing {
        entries := entries[key := entry.(dirty := true)];
      } else if !entry.queued {
        entries := entries[key := entry.(queued := true)];
        ready := ready + [key];
      }
      queue := Wake(queue, key);
    }

    method AddAt(key: K, deadline: Instant)
      requires Valid()
      modifies this
      ensures Valid() && queue == Schedule(old(queue), key, deadline)
    {
      var entry := EntryAt(key);
      EntryChanges(entries, queue, Schedule(queue, key, deadline), key);
      var before := entry.deadline;
      if before.Some? && before.value <= deadline {
        return;
      }
      entries := entries[key := entry.(deadline := Some(deadline))];
      if before.Some? {
        IndexForgets(deadlines, queue.deadline, key);
        RemoveDeadline(key, before.value);
      }
      IndexLearns(deadlines, queue.deadline - {key}, key, deadline);
      assert (queue.deadline - {key})[key := deadline] == queue.deadline[key := deadline];
      deadlines := deadlines[deadline := (if deadline in deadlines then deadlines[deadline] else {}) + {key}];
      queue := Schedule(queue, key, deadline);
    }

    method RemoveDeadline(key: K, when: Instant)
      modifies `deadlines
      ensures deadlines == WithoutDeadline(old(deadlines), key, when)
    {
      if when in deadlines {
        deadlines := deadlines[when := deadlines[when] - {key}];
        if deadlines[when] == {} {
          deadlines := deadlines - {when};
        }
      }
    }

    method CancelDeadline(key: K)
      requires Valid()
      modifies this
      ensures Valid() && queue == Cancel(old(queue), key)
    {
      EntryChanges(entries, queue, Cancel(queue, key), key);
      if key in entries {
        var before := entries[key].deadline;
        entries := entries[key := entries[key].(deadline := None)];
        if before.Some? {
          IndexForgets(deadlines, queue.deadline, key);
          RemoveDeadline(key, before.value);
        }
        if !entries[key].queued && !entries[key].processing {
          entries := entries - {key};
        }
      }
      assert key !in queue.deadline ==> queue.deadline - {key} == queue.deadline;
      queue := Cancel(queue, key);
    }

    /** Dropping a guard; the entry is always there. */
    method Done(key: K)
      requires Valid() && key in queue.guards
      modifies this
      ensures Valid() && queue == Finish(old(queue), key)
    {
      hide Inv, EntriesAgree, IndexAgrees, EntryOf;
      FinishKeepsInv(queue, key);
      FinishChanges(entries, queue, key);
      var entry := entries[key];
      if entry.dirty {
        entries := entries[key := entry.(processing := false, dirty := false, queued := true)];
        ready := ready + [key];
      } else if entry.deadline.None? {
        entries := entries - {key};
      } else {
        entries := entries[key := entry.(processing := false)];
      }
      queue := Finish(queue, key);
    }

    /** An elapsed deadline; the entry is always there. */
    method FireKey(key: K)
      requires ready == queue.ready && Inv(queue) && EntriesAgree(entries, queue) && key in queue.deadline
      modifies `ready, `entries, `queue
      ensures ready == queue.ready && Inv(queue) && EntriesAgree(entries, queue)
      ensures queue == Fire(old(queue), key)
    {
      hide Inv, EntriesAgree, EntryOf;
      FireChanges(entries, queue, key);
      var entry := entries[key].(deadline := None);
      if entry.processing {
        entries := entries[key := entry.(dirty := true)];
      } else if !entry.queued {
        entries := entries[key := entry.(queued := true)];
        ready := ready + [key];
      } else {
        entries := entries[key := entry];
      }
      queue := Fire(queue, key);
    }

    /** The keys of one popped bucket, in whatever order it yields them. */
    method FireBucket(due: set<K>) returns (ghost order: seq<K>)
      requires ready == queue.ready && Inv(queue) && EntriesAgree(entries, queue) && due <= queue.deadline.Keys
      modifies `ready, `entries, `queue
      ensures ready == queue.ready && Inv(queue) && EntriesAgree(entries, queue)
      ensures queue == FireAll(old(queue), order) && queue.deadline == old(queue.deadline) - due
      ensures Lists(order, due)
    {
      hide Inv, EntriesAgree, FireAll, Fire, Lists;
      FireNone(queue);
      order := [];
      var left := due;
      ghost var fired: set<K> := {};
      while left != {}
        invariant fired !! left && fired + left == due
        invariant ready == queue.ready && Inv(queue) && EntriesAgree(entries, queue)
        invariant queue == FireAll(old(queue), order) && queue.deadline == old(queue.deadline) - fired
        invariant Lists(order, fired)
        decreases |left|
      {
        var key :| key in left;
        FireKey(key);
        FireNext(old(queue), order, fired, key);
        order, left, fired := order + [key], left - {key}, fired + {key};
      }
    }

    /** Fires everything due, popping the earliest bucket first. */
    method FireElapsed(now: Instant) returns (ghost fired: seq<K>)
      requires Valid()
      modifies this
      ensures Valid() && queue == FireAll(old(queue), fired) && Due(fired, old(queue.deadline), now)
      ensures forall d | d in deadlines :: now < d
    {
      hide Inv, EntriesAgree, FireAll, Due, IndexAgrees;
      FireNone(queue);
      fired := [];
      var first: Option<Instant> := Earliest(deadlines);
      while first.Some? && first.value <= now
        invariant Valid() && IsLeast(first, deadlines.Keys)
        invariant queue == FireAll(old(queue), fired)
        invariant DueSoFar(fired, old(queue.deadline), queue.deadline, now)
        decreases |deadlines|
      {
        var due := deadlines[first.value];
        ghost var index, times := deadlines, queue.deadline;
        BucketKeys(index, times, first.value);
        IndexPops(index, times, first.value);
        deadlines := deadlines - {first.value};
        ghost var order := FireBucket(due);
        BucketIsDue(index, old(queue.deadline), times, fired, first.value, now, order);
        FireAllAppend(old(queue), fired, order);
        fired := fired + order;
        first := Earliest(deadlines);
      }
      AllIsDue(deadlines, old(queue.deadline), queue.deadline, fired, first, now);
    }

    /** Hands out the selected key; the entry is always there. */
    method TakeAt(at: nat) returns (key: K)
      requires Valid() && at < |ready|
      modifies this
      ensures Valid() && key == old(ready[at]) && queue == Start(old(queue), at)
    {
      hide Inv, EntriesAgree, IndexAgrees, EntryOf;
      key := ready[at];
      StartKeepsInv(queue, at);
      StartChanges(entries, queue, at);
      ready := ready[..at] + ready[at + 1..];
      entries := entries[key := entries[key].(queued := false, processing := true)];
      queue := Start(queue, at);
    }

    /**
     * One turn of `next`: fire what is due, then the first ready key, or the instant to sleep until.
     */
    method Next(now: Instant) returns (work: Option<K>, until: Option<Instant>, ghost fired: seq<K>)
      requires Valid()
      modifies this
      ensures Valid() && Due(fired, old(queue.deadline), now)
      ensures var q := FireAll(old(queue), fired);
              if q.ready == [] then work == None && queue == q && SleepsUntil(queue, now, until)
              else work == Some(q.ready[0]) && queue == Start(q, 0)
    {
      hide Inv, EntriesAgree, IndexAgrees, EntryOf, Due;
      fired := FireElapsed(now);
      if ready == [] {
        until := Earliest(deadlines);
        SleepsUntilEarliest(deadlines, queue, now, until);
        return None, until, fired;
      }
      var key := TakeAt(0);
      return Some(key), None, fired;
    }

    /** One turn of `next_by`: as `next`, but the first among the least ready keys. */
    method NextBy(now: Instant, le: (K, K) -> bool)
      returns (work: Option<K>, until: Option<Instant>, ghost fired: seq<K>, ghost at: nat)
      requires Valid() && IsOrder(le)
      modifies this
      ensures Valid() && Due(fired, old(queue.deadline), now)
      ensures var q := FireAll(old(queue), fired);
              if q.ready == [] then work == None && queue == q && SleepsUntil(queue, now, until)
              else FirstLeast(q.ready, at, le) && work == Some(q.ready[at]) && queue == Start(q, at)
    {
      hide Inv, EntriesAgree, IndexAgrees, EntryOf, Due, FirstLeast;
      fired := FireElapsed(now);
      if ready == [] {
        until := Earliest(deadlines);
        SleepsUntilEarliest(deadlines, queue, now, until);
        return None, until, fired, 0;
      }
      var best := Best(ready, le);
      var key := TakeAt(best);
      return Some(key), None, fired, best;
    }
  }
}
