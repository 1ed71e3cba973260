/**
 * Electing a leader through one Lease record: replicas read it, decide by what they observed, and
 * write it by compare-and-swap, while requests and replies are delayed, lost or given up on.
 */
module Election {
  import opened Wrappers
  import opened Lease

  type Identity = string

  const LEASE_DURATION: nat := 15_000

  /** The Lease spec; `stamp` stands for the renew time that makes each written record distinct. */
  datatype Record = Record(holder: Identity, duration: nat, stamp: nat)

  /** What a GET answered: the record and its version, 0 when there is none. */
  datatype Reading = Reading(version: nat, record: Option<Record>)

  /** Where one `try_acquire_or_renew` is: before the GET's answer, with it, or waiting for its write. */
  datatype Phase = Asking | Answered(reading: Reading) | Writing

  datatype Attempt = Attempt(started: Instant, phase: Phase)

  /** `granted` is the latest end of a term this replica was ever given. */
  datatype Replica = Replica(gate: Permission, sight: Sight<Record>, attempt: Option<Attempt>, granted: Instant)

  const FRESH := Replica(Follower, Unseen, None, 0)

  /** A create (`basis` 0) or update on its way to the server. */
  datatype Write = Write(author: Identity, started: Instant, basis: nat)

  /** A success on its way back. */
  datatype Reply = Reply(to: Identity, started: Instant)

  datatype State = State(
    now: Instant,
    version: nat,
    record: Option<Record>,
    written: Instant,   // when the record was last written
    acquired: Instant,  // when its holder last changed
    replicas: map<Identity, Replica>,
    writes: set<Write>,
    replies: set<Reply>)

  const START := State(0, 0, None, 0, 0, map[], {}, {})

  function Of(s: State, r: Identity): Replica { if r in s.replicas then s.replicas[r] else FRESH }

  function With(s: State, r: Identity, replica: Replica): State { s.(replicas := s.replicas[r := replica]) }

  // ---------------------------------------------------------------- one replica

  /** Whether a replica that read `reading` may write; a live foreign record forbids it. */
  predicate MayWrite(r: Identity, reading: Reading, sight: Sight<Record>, now: Instant) {
    match reading.record
    case None => true
    case Some(record) =>
      && 0 < record.duration
      && (record.holder == r || record.holder == "" || Stood(Look(sight, record, now), now) >= record.duration)
  }

  function Sighted(reading: Reading, sight: Sight<Record>, now: Instant): Sight<Record> {
    match reading.record
    case Some(record) => if 0 < record.duration then Look(sight, record, now) else sight
    case None => sight
  }

  /** A success reaches the replica: it begins a term, or extends the one it holds. */
  function Informed(replica: Replica, started: Instant, now: Instant): Replica {
    var gate := if replica.gate.Leader? then Renewed(replica.gate, started, now) else Begun(started);
    replica.(gate := gate, attempt := None,
      granted := if gate.Leader? && replica.granted < gate.expires then gate.expires else replica.granted)
  }

  // ---------------------------------------------------------------- steps

  datatype Step =
    | Tick(to: Instant)
    | Begin(r: Identity)        // an attempt starts
    | Read(r: Identity)         // the server answers its GET
    | Decide(r: Identity)       // the replica acts on the answer
    | GiveUp(r: Identity)       // the attempt fails or times out; its write may still be under way
    | Serve(write: Write)       // the server applies or refuses a write
    | LoseWrite(write: Write)
    | LoseReply(reply: Reply)
    | Hear(reply: Reply)        // a success reaches the attempt that caused it
    | Close(r: Identity)        // a term is over
    | Restart(r: Identity)      // a replica starts afresh

  predicate Enabled(s: State, step: Step) {
    match step
    case Tick(to) => s.now <= to
    case Begin(r) => r != "" && Of(s, r).attempt.None? && (Of(s, r).gate.Leader? ==> Of(s, r).gate.Live(s.now))
    case Read(r) => Of(s, r).attempt.Some? && Of(s, r).attempt.value.phase.Asking?
    case Decide(r) => Of(s, r).attempt.Some? && Of(s, r).attempt.value.phase.Answered?
    case GiveUp(r) => true
    case Serve(write) => write in s.writes
    case LoseWrite(write) => true
    case LoseReply(reply) => true
    case Hear(reply) =>
      reply in s.replies && Of(s, reply.to).attempt == Some(Attempt(reply.started, Writing))
    case Close(r) => true
    case Restart(r) => true
  }

  function Decided(s: State, r: Identity): State
    requires Enabled(s, Decide(r))
  {
    var replica := Of(s, r);
    var reading := replica.attempt.value.phase.reading;
    var sight := Sighted(reading, replica.sight, s.now);
    if MayWrite(r, reading, replica.sight, s.now) then
      With(s, r, replica.(sight := sight, attempt := Some(replica.attempt.value.(phase := Writing))))
        .(writes := s.writes + {Write(r, replica.attempt.value.started, reading.version)})
    else With(s, r, replica.(sight := sight, attempt := None))
  }

  /** Compare-and-swap: a write succeeds only on the version it was based on. */
  function Served(s: State, write: Write): State {
    var taken := s.(writes := s.writes - {write});
    if write.basis != s.version then taken
    else taken.(
      version := s.version + 1,
      record := Some(Record(write.author, LEASE_DURATION, s.version + 1)),
      written := s.now,
      acquired := if s.record.Some? && s.record.value.holder == write.author then s.acquired else s.now,
      replies := s.replies + {Reply(write.author, write.started)})
  }

  function Next(s: State, step: Step): State
    requires Enabled(s, step)
  {
    match step
    case Tick(to) => s.(now := to)
    case Begin(r) => With(s, r, Of(s, r).(attempt := Some(Attempt(s.now, Asking))))
    case Read(r) => With(s, r, Of(s, r).(attempt := Some(Of(s, r).attempt.value.(phase := Answered(Reading(s.version, s.record))))))
    case Decide(r) => Decided(s, r)
    case GiveUp(r) => With(s, r, Of(s, r).(attempt := None))
    case Serve(write) => Served(s, write)
    case LoseWrite(write) => s.(writes := s.writes - {write})
    case LoseReply(reply) => s.(replies := s.replies - {reply})
    case Hear(reply) => With(s, reply.to, Informed(Of(s, reply.to), reply.started, s.now)).(replies := s.replies - {reply})
    case Close(r) => With(s, r, Of(s, r).(gate := Follower, attempt := None))
    case Restart(r) => With(s, r, FRESH.(granted := Of(s, r).granted))
  }

  ghost predicate Behavior(states: seq<State>, steps: seq<Step>) {
    && |states| == |steps| + 1
    && states[0] == START
    && forall i | 0 <= i < |steps| :: Enabled(states[i], steps[i]) && states[i + 1] == Next(states[i], steps[i])
  }

  // ---------------------------------------------------------------- what every step keeps

  predicate Holds(s: State, r: Identity) { s.record.Some? && s.record.value.holder == r }

  /** No success of `r` started after this: its last write if it holds the lease, else long before the takeover. */
  function Bound(s: State, r: Identity): int { if Holds(s, r) then s.written else s.acquired - LEASE_DURATION }

  ghost predicate Recorded(s: State) {
    && s.acquired <= s.written <= s.now
    && (s.record.None? <==> s.version == 0)
    && (s.record.Some? ==> s.record.value.stamp == s.version && s.record.value.duration == LEASE_DURATION && s.record.value.holder != "")
  }

  ghost predicate Bounded(s: State) {
    && (forall r :: Of(s, r).granted == 0 || (s.record.Some? && Of(s, r).granted <= Bound(s, r) + RENEW_DEADLINE))
    && (forall r :: Of(s, r).gate.Leader? ==> Of(s, r).gate.expires <= Of(s, r).granted)
    && (forall reply | reply in s.replies :: s.record.Some? && reply.started <= Bound(s, reply.to))
  }

  /** A write that would take the lease over was decided on a record standing for its whole duration. */
  ghost predicate Justified(s: State) {
    forall w | w in s.writes ::
      && w.author != "" && w.started <= s.now && w.basis <= s.version
      && (w.basis == s.version && s.record.Some? && !Holds(s, w.author) ==> s.written + LEASE_DURATION <= s.now)
  }

  ghost predicate Observed(s: State) {
    forall r :: SightIsTrue(s, Of(s, r).sight) && AttemptIsTrue(s, r, Of(s, r).attempt)
  }

  predicate SightIsTrue(s: State, sight: Sight<Record>) {
    sight.Seen? ==>
      && sight.since <= s.now && sight.record.stamp <= s.version
      && (sight.record.stamp == s.version ==> s.written <= sight.since)
  }

  predicate AttemptIsTrue(s: State, r: Identity, attempt: Option<Attempt>) {
    attempt.Some? ==>
      && r != "" && attempt.value.started <= s.now
      && (attempt.value.phase.Answered? ==> ReadingIsTrue(s, attempt.value.phase.reading))
  }

  predicate ReadingIsTrue(s: State, reading: Reading) {
    && reading.version <= s.version
    && (reading.record.None? <==> reading.version == 0)
    && (reading.record.Some? ==> reading.record.value.stamp == reading.version)
    && (reading.version == s.version ==> reading.record == s.record)
  }

  ghost predicate Good(s: State) { Recorded(s) && Bounded(s) && Justified(s) && Observed(s) }

  lemma ServeKeepsGood(s: State, write: Write)
    requires Good(s) && write in s.writes
    ensures Good(Served(s, write))
  {
    var t := Served(s, write);
    assert forall q :: Of(t, q) == Of(s, q);
    if write.basis == s.version {
      assert forall q :: s.record.Some? ==> Bound(s, q) <= Bound(t, q);
      assert Bounded(t);
    }
  }

  /** What one replica changes about itself. */
  lemma ReplicaKeepsGood(s: State, r: Identity, replica: Replica)
    requires Good(s)
    requires replica.granted == 0 || (s.record.Some? && replica.granted <= Bound(s, r) + RENEW_DEADLINE)
    requires replica.gate.Leader? ==> replica.gate.expires <= replica.granted
    requires SightIsTrue(s, replica.sight) && AttemptIsTrue(s, r, replica.attempt)
    ensures Good(With(s, r, replica))
  {
    var t := With(s, r, replica);
    assert forall q :: Of(t, q) == if q == r then replica else Of(s, q);
    assert forall q :: Bound(t, q) == Bound(s, q);
    assert forall sight :: SightIsTrue(s, sight) ==> SightIsTrue(t, sight);
    assert forall q, attempt :: AttemptIsTrue(s, q, attempt) ==> AttemptIsTrue(t, q, attempt);
  }

  lemma DecideKeepsGood(s: State, r: Identity)
    requires Good(s) && Enabled(s, Decide(r))
    ensures Good(Decided(s, r))
  {
    var replica := Of(s, r);
    var reading := replica.attempt.value.phase.reading;
    assert SightIsTrue(s, replica.sight) && AttemptIsTrue(s, r, replica.attempt);
    var sight := Sighted(reading, replica.sight, s.now);
    var writes := MayWrite(r, reading, replica.sight, s.now);
    var after := replica.(sight := sight, attempt := if writes then Some(replica.attempt.value.(phase := Writing)) else None);
    ReplicaKeepsGood(s, r, after);
    if writes {
      WriteKeepsGood(With(s, r, after), Write(r, replica.attempt.value.started, reading.version));
    }
  }

  lemma WriteKeepsGood(s: State, write: Write)
    requires Good(s) && write.author != "" && write.started <= s.now && write.basis <= s.version
    requires write.basis == s.version && s.record.Some? && !Holds(s, write.author) ==> s.written + LEASE_DURATION <= s.now
    ensures Good(s.(writes := s.writes + {write}))
  {
    var t := s.(writes := s.writes + {write});
    assert forall q :: Of(t, q) == Of(s, q) && Bound(t, q) == Bound(s, q);
  }

  lemma FewerKeepsGood(s: State, t: State)
    requires Good(s) && t.writes <= s.writes && t.replies <= s.replies && s.now <= t.now
    requires t == s.(now := t.now, writes := t.writes, replies := t.replies)
    ensures Good(t)
  {
    assert forall q :: Of(t, q) == Of(s, q) && Bound(t, q) == Bound(s, q);
  }

  lemma HearKeepsGood(s: State, reply: Reply)
    requires Good(s) && Enabled(s, Hear(reply))
    ensures Good(Next(s, Hear(reply)))
  {
    var replica := Of(s, reply.to);
    ReplicaKeepsGood(s, reply.to, Informed(replica, reply.started, s.now));
    var t := With(s, reply.to, Informed(replica, reply.started, s.now));
    FewerKeepsGood(t, t.(replies := t.replies - {reply}));
  }

  lemma StepKeepsGood(s: State, step: Step)
    requires Good(s) && Enabled(s, step)
    ensures Good(Next(s, step))
  {
    match step
    case Serve(write) => ServeKeepsGood(s, write);
    case Decide(r) => DecideKeepsGood(s, r);
    case Hear(reply) => HearKeepsGood(s, reply);
    case Begin(r) => ReplicaKeepsGood(s, r, Of(s, r).(attempt := Some(Attempt(s.now, Asking))));
    case Read(r) =>
      ReplicaKeepsGood(s, r, Of(s, r).(attempt := Some(Of(s, r).attempt.value.(phase := Answered(Reading(s.version, s.record))))));
    case GiveUp(r) => ReplicaKeepsGood(s, r, Of(s, r).(attempt := None));
    case Close(r) => ReplicaKeepsGood(s, r, Of(s, r).(gate := Follower, attempt := None));
    case Restart(r) => ReplicaKeepsGood(s, r, FRESH.(granted := Of(s, r).granted));
    case _ => FewerKeepsGood(s, Next(s, step));
  }

  lemma {:induction false} BehaviorIsGood(states: seq<State>, steps: seq<Step>, n: nat)
    requires Behavior(states, steps) && n < |states|
    ensures Good(states[n])
  {
    if n > 0 {
      BehaviorIsGood(states, steps, n - 1);
      StepKeepsGood(states[n - 1], steps[n - 1]);
    }
  }

  // ---------------------------------------------------------------- exclusion

  /** Only the recorded holder can have a live gate. */
  lemma LiveGateHolds(states: seq<State>, steps: seq<Step>, n: nat, r: Identity)
    requires Behavior(states, steps) && n < |states| && Of(states[n], r).gate.Live(states[n].now)
    ensures Holds(states[n], r)
  {
    BehaviorIsGood(states, steps, n);
  }

  /** Exclusion: in no reachable state do two replicas hold live gates. */
  lemma LeaderExclusion(states: seq<State>, steps: seq<Step>, n: nat, r: Identity, q: Identity)
    requires Behavior(states, steps) && n < |states|
    requires Of(states[n], r).gate.Live(states[n].now) && Of(states[n], q).gate.Live(states[n].now)
    ensures r == q
  {
    LiveGateHolds(states, steps, n, r);
    LiveGateHolds(states, steps, n, q);
  }

  lemma {:induction false} GrantsLast(states: seq<State>, steps: seq<Step>, m: nat, n: nat, r: Identity)
    requires Behavior(states, steps) && m <= n < |states|
    ensures Of(states[m], r).granted <= Of(states[n], r).granted
  {
    if m < n {
      GrantsLast(states, steps, m, n - 1, r);
    }
  }

  /**
   * Windows never overlap: whatever part of its term a leader was granted at one moment is over
   * before another replica's gate is live, at that moment or any later one.
   */
  lemma WindowsAreDisjoint(states: seq<State>, steps: seq<Step>, m: nat, n: nat, r: Identity, q: Identity, window: nat)
    requires Behavior(states, steps) && m <= n < |states| && r != q
    requires Of(states[m], r).gate.Leader? && states[m].now + window <= Of(states[m], r).gate.expires
    requires Of(states[n], q).gate.Live(states[n].now)
    ensures states[m].now + window <= states[n].now
  {
    BehaviorIsGood(states, steps, m);
    BehaviorIsGood(states, steps, n);
    LiveGateHolds(states, steps, n, q);
    GrantsLast(states, steps, m, n, r);
  }

  /** Leadership does arise: a replica that finds no lease creates it and leads until its deadline. */
  lemma FirstLeader(r: Identity) returns (states: seq<State>, steps: seq<Step>)
    requires r != ""
    ensures Behavior(states, steps) && Of(states[|steps|], r).gate == Leader(RENEW_DEADLINE)
  {
    steps := [Begin(r), Read(r), Decide(r), Serve(Write(r, 0, 0)), Hear(Reply(r, 0))];
    var s1 := Next(START, steps[0]);
    var s2 := Next(s1, steps[1]);
    var s3 := Next(s2, steps[2]);
    var s4 := Next(s3, steps[3]);
    assert Of(s4, r).attempt == Some(Attempt(0, Writing)) && Reply(r, 0) in s4.replies;
    var s5 := Next(s4, steps[4]);
    states := [START, s1, s2, s3, s4, s5];
  }

  /** And it moves on: once the holder's record has stood for the lease, another replica's write takes it. */
  lemma TakeoverHappens(s: State, r: Identity, started: Instant)
    requires Good(s) && s.record.Some? && !Holds(s, r) && r != ""
    requires Of(s, r).attempt == Some(Attempt(started, Answered(Reading(s.version, s.record))))
    requires Of(s, r).sight.Seen? && Of(s, r).sight.record == s.record.value && Of(s, r).sight.since + LEASE_DURATION <= s.now
    ensures var t := Served(Decided(s, r), Write(r, started, s.version)); Holds(t, r) && Reply(r, started) in t.replies
    ensures Write(r, started, s.version) in Decided(s, r).writes
  {
  }
}
