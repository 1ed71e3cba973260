/** Compaction coordination: any number of apiservers race on one versioned key. */
module Compactor {
  import opened Wrappers

  // ---------------------------------------------------------------- the store's contract

  /** The store's revision, the coordination key's version, and the revision below which history is cut. */
  datatype Kv = Kv(revision: nat, version: nat, floor: nat)

  datatype Claim = Claim(won: bool, seen: nat, revision: nat)

  /** In one transaction: write the key if its version is still `seen`, else read it. */
  function Claimed(kv: Kv, seen: nat): Kv {
    if kv.version == seen then kv.(version := seen + 1, revision := kv.revision + 1) else kv
  }

  function ClaimOf(kv: Kv, seen: nat): Claim {
    Claim(kv.version == seen, Claimed(kv, seen).version, Claimed(kv, seen).revision)
  }

  /** Cutting history below `target`; a store already cut further, or not that far along, stays as it is. */
  function Cut(kv: Kv, target: nat): Kv {
    if kv.floor < target <= kv.revision then kv.(floor := target) else kv
  }

  class Store {
    var kv: Kv

    method CompactClaim(seen: nat) returns (claim: Claim)
      modifies this
      ensures kv == Claimed(old(kv), seen) && claim == ClaimOf(old(kv), seen)
    {
      if kv.version == seen {
        kv := kv.(version := seen + 1, revision := kv.revision + 1);
        return Claim(true, seen + 1, kv.revision);
      }
      return Claim(false, kv.version, kv.revision);
    }

    method Compact(target: nat)
      modifies this
      ensures kv == Cut(old(kv), target)
    {
      if kv.floor < target <= kv.revision {
        kv := kv.(floor := target);
      }
    }
  }

  // ---------------------------------------------------------------- one round

  /** The key's version last seen, and the store's revision then. */
  datatype Round = Round(seen: nat, revision: nat)

  datatype Failure = Error

  /** The target this round compacts to, once the claim is answered. */
  function TargetOf(last: Round, claim: Claim): Option<nat> {
    if claim.won && last.revision != 0 then Some(last.revision) else None
  }

  /**
   * One round whose store calls may fail before taking effect. A failed claim leaves the state; after
   * a claim it always advances. Nothing is cut but below the revision this apiserver recorded before.
   */
  method RunRound(store: Store, last: Round, claimFails: bool, compactFails: bool)
    returns (next: Round, outcome: Result<Option<nat>, Failure>)
    modifies store
    ensures claimFails ==> next == last && outcome.Err? && store.kv == old(store.kv)
    ensures !claimFails ==> next == Round(store.kv.version, store.kv.revision)
    ensures !claimFails && outcome.Ok? ==> outcome.value == TargetOf(last, ClaimOf(old(store.kv), last.seen))
    ensures outcome.Err? <==> claimFails || (compactFails && TargetOf(last, ClaimOf(old(store.kv), last.seen)).Some?)
    ensures store.kv.floor == old(store.kv.floor) || (outcome == Ok(Some(last.revision)) && store.kv.floor == last.revision)
    ensures old(store.kv.floor) <= store.kv.floor
  {
    if claimFails {
      return last, Err(Error);
    }
    var claim := store.CompactClaim(last.seen);
    next := Round(claim.seen, claim.revision);
    if !claim.won || last.revision == 0 {
      return next, Ok(None);
    }
    if compactFails {
      return next, Err(Error);
    }
    store.Compact(last.revision);
    return next, Ok(Some(last.revision));
  }

  // ---------------------------------------------------------------- every apiserver at once

  type Server = nat

  datatype Request = Request(sender: Server, last: Round)

  datatype Reply = Reply(to: Server, last: Round, claim: Claim, served: nat)

  /** A client's look at the store: a snapshot it may come back to. */
  datatype Look = Look(at: nat, revision: nat)

  /**
   * `rounds` and `waiting` are the servers' memories and claims under way, and `ended` is when each last
   * ended a round; `requests`, `replies` and `cuts` are calls in flight. `revisions[v]` is the revision of
   * the claim that won version `v`, and `targets[v]` the revision its winner compacts to.
   */
  datatype State = State(
    kv: Kv,
    rounds: map<Server, Round>,
    waiting: set<Server>,
    requests: set<Request>,
    replies: set<Reply>,
    cuts: set<nat>,
    revisions: seq<nat>,
    targets: map<nat, nat>,
    interval: nat,
    now: nat,
    ended: map<Server, nat>,
    looks: set<Look>)

  ghost predicate Initial(s: State) {
    s == State(Kv(s.kv.revision, 0, 0), map[], {}, {}, {}, {}, [0], map[], s.interval, s.now, map[], {})
  }

  function Of(s: State, server: Server): Round { if server in s.rounds then s.rounds[server] else Round(0, 0) }

  function Ended(s: State, server: Server): nat { if server in s.ended then s.ended[server] else 0 }

  datatype Step =
    | Tick(elapsed: nat)
    | ClientWrite
    | ClientLook
    | Send(server: Server)
    | Serve(request: Request)
    | Hear(reply: Reply)
    | Fail(server: Server)       // the claim errs, or its reply is given up on; it may still be served
    | LoseRequest(request: Request)
    | LoseReply(reply: Reply)
    | ServeCut(target: nat)
    | LoseCut(target: nat)

  predicate Enabled(s: State, step: Step) {
    match step
    case Send(server) => server !in s.waiting && Ended(s, server) + s.interval <= s.now
    case Serve(request) => request in s.requests
    case Hear(reply) => reply in s.replies && reply.to in s.waiting && Of(s, reply.to) == reply.last
    case ServeCut(target) => target in s.cuts
    case _ => true
  }

  function Served(s: State, request: Request): State {
    var last := request.last;
    var t := s.(
      kv := Claimed(s.kv, last.seen),
      requests := s.requests - {request},
      replies := s.replies + {Reply(request.sender, last, ClaimOf(s.kv, last.seen), s.now)});
    if s.kv.version != last.seen then t
    else t.(
      revisions := s.revisions + [t.kv.revision],
      targets := if last.revision == 0 then s.targets else s.targets[last.seen + 1 := last.revision])
  }

  function Heard(s: State, reply: Reply): State {
    var target := TargetOf(reply.last, reply.claim);
    s.(
      rounds := s.rounds[reply.to := Round(reply.claim.seen, reply.claim.revision)],
      waiting := s.waiting - {reply.to},
      ended := s.ended[reply.to := s.now],
      replies := s.replies - {reply},
      cuts := if target.Some? then s.cuts + {target.value} else s.cuts)
  }

  function Next(s: State, step: Step): State
    requires Enabled(s, step)
  {
    match step
    case Tick(elapsed) => s.(now := s.now + elapsed)
    case ClientLook => s.(looks := s.looks + {Look(s.now, s.kv.revision)})
    case ClientWrite => s.(kv := s.kv.(revision := s.kv.revision + 1))
    case Send(server) => s.(waiting := s.waiting + {server}, requests := s.requests + {Request(server, Of(s, server))})
    case Serve(request) => Served(s, request)
    case Hear(reply) => Heard(s, reply)
    case Fail(server) => s.(waiting := s.waiting - {server}, ended := s.ended[server := s.now])
    case LoseRequest(request) => s.(requests := s.requests - {request})
    case LoseReply(reply) => s.(replies := s.replies - {reply})
    case ServeCut(target) => s.(kv := Cut(s.kv, target), cuts := s.cuts - {target})
    case LoseCut(target) => s.(cuts := s.cuts - {target})
  }

  ghost predicate Behavior(states: seq<State>, steps: seq<Step>) {
    && |states| == |steps| + 1
    && Initial(states[0])
    && forall i | 0 <= i < |steps| :: Enabled(states[i], steps[i]) && states[i + 1] == Next(states[i], steps[i])
  }

  // ---------------------------------------------------------------- what every step keeps

  /** Claims won so far: one revision per version, increasing, each win's target between the two claims before it. */
  ghost predicate Logged(revisions: seq<nat>, targets: map<nat, nat>) {
    && revisions != [] && revisions[0] == 0
    && (forall v | 1 <= v < |revisions| :: revisions[v - 1] < revisions[v])
    && (forall v :: v in targets <==> 2 <= v < |revisions|)
    && (forall v | v in targets :: revisions[v - 1] <= targets[v] < revisions[v])
  }

  /** A memory of version `seen` is of a moment after that version was won and before the next was. */
  ghost predicate Timely(revisions: seq<nat>, now: nat, round: Round) {
    && round.seen < |revisions|
    && (round.seen == 0 ==> round.revision == 0)
    && revisions[round.seen] <= round.revision <= now
    && (round.seen + 1 < |revisions| ==> round.revision < revisions[round.seen + 1])
  }

  ghost predicate IsTarget(targets: map<nat, nat>, n: nat) { exists v :: v in targets && targets[v] == n }

  ghost predicate Remembered(s: State) {
    && (forall server :: Timely(s.revisions, s.kv.revision, Of(s, server)))
    && (forall r | r in s.requests :: Timely(s.revisions, s.kv.revision, r.last))
    && (forall r | r in s.replies :: Timely(s.revisions, s.kv.revision, Round(r.claim.seen, r.claim.revision)))
    && (forall r | r in s.replies :: r.last.seen < r.claim.seen)
    && (forall r | r in s.replies && TargetOf(r.last, r.claim).Some? :: IsTarget(s.targets, r.last.revision))
  }

  ghost predicate Aimed(s: State) {
    && (forall n | n in s.cuts :: IsTarget(s.targets, n))
    && (s.kv.floor == 0 || IsTarget(s.targets, s.kv.floor))
  }

  ghost predicate Good(s: State) {
    && Logged(s.revisions, s.targets) && |s.revisions| == s.kv.version + 1
    && s.revisions[s.kv.version] <= s.kv.revision
    && Remembered(s) && Aimed(s)
  }

  lemma {:induction false} RevisionsIncrease(revisions: seq<nat>, targets: map<nat, nat>, v: nat, w: nat)
    requires Logged(revisions, targets) && v <= w < |revisions|
    ensures revisions[v] <= revisions[w] && (v < w ==> revisions[v] < revisions[w])
  {
    if v < w {
      RevisionsIncrease(revisions, targets, v, w - 1);
    }
  }

  /** A win is logged after everything remembered, and its target is what its claimant remembers. */
  lemma WinIsLogged(revisions: seq<nat>, targets: map<nat, nat>, now: nat, last: Round)
    requires Logged(revisions, targets) && Timely(revisions, now, last) && last.seen + 1 == |revisions|
    ensures last.revision == 0 <==> last.seen == 0
    ensures Logged(revisions + [now + 1], if last.revision == 0 then targets else targets[last.seen + 1 := last.revision])
  {
    RevisionsIncrease(revisions, targets, 0, last.seen);
  }

  lemma TimelyStays(revisions: seq<nat>, now: nat, round: Round)
    requires Timely(revisions, now, round)
    ensures Timely(revisions, now + 1, round) && Timely(revisions + [now + 1], now + 1, round)
  {
  }

  lemma ServeKeepsGood(s: State, request: Request)
    requires Good(s) && request in s.requests
    ensures Good(Served(s, request))
  {
    hide Logged, Timely, IsTarget;
    var t := Served(s, request);
    var last := request.last;
    assert forall server :: Of(t, server) == Of(s, server);
    if s.kv.version == last.seen {
      WinIsLogged(s.revisions, s.targets, s.kv.revision, last);
      forall round | Timely(s.revisions, s.kv.revision, round) ensures Timely(t.revisions, t.kv.revision, round) {
        TimelyStays(s.revisions, s.kv.revision, round);
      }
      WinIsTimely(s.revisions, s.kv.revision, last);
      TargetIsAdded(s, last);
      TargetsStay(s, request);
    } else {
      LossIsTimely(s, last);
    }
  }

  lemma WinIsTimely(revisions: seq<nat>, now: nat, last: Round)
    requires last.seen + 1 == |revisions|
    ensures Timely(revisions + [now + 1], now + 1, Round(last.seen + 1, now + 1))
  {
  }

  lemma LossIsTimely(s: State, last: Round)
    requires Good(s) && Timely(s.revisions, s.kv.revision, last) && last.seen != s.kv.version
    ensures last.seen < s.kv.version && Timely(s.revisions, s.kv.revision, Round(s.kv.version, s.kv.revision))
  {
  }

  lemma TargetIsAdded(s: State, last: Round)
    ensures IsTarget(s.targets[last.seen + 1 := last.revision], last.revision)
  {
    assert s.targets[last.seen + 1 := last.revision][last.seen + 1] == last.revision;
  }

  lemma TargetsStay(s: State, request: Request)
    requires Good(s) && s.kv.version == request.last.seen
    ensures forall n :: IsTarget(s.targets, n) ==> IsTarget(Served(s, request).targets, n)
  {
    var t := Served(s, request);
    assert forall v | v in s.targets :: v in t.targets && t.targets[v] == s.targets[v];
  }

  lemma HearKeepsGood(s: State, reply: Reply)
    requires Good(s) && Enabled(s, Hear(reply))
    ensures Good(Heard(s, reply))
  {
    hide Logged, Timely, IsTarget;
    var t := Heard(s, reply);
    var next := Round(reply.claim.seen, reply.claim.revision);
    assert forall server :: Of(t, server) == if server == reply.to then next else Of(s, server);
  }

  lemma StepKeepsGood(s: State, step: Step)
    requires Good(s) && Enabled(s, step)
    ensures Good(Next(s, step))
  {
    hide Logged, Timely, IsTarget;
    match step
    case Serve(request) => ServeKeepsGood(s, request);
    case Hear(reply) => HearKeepsGood(s, reply);
    case ClientWrite =>
      forall round | Timely(s.revisions, s.kv.revision, round) ensures Timely(s.revisions, s.kv.revision + 1, round) {
        TimelyStays(s.revisions, s.kv.revision, round);
      }
      assert forall server :: Of(Next(s, step), server) == Of(s, server);
    case _ =>
      assert forall server :: Of(Next(s, step), server) == Of(s, server);
  }

  lemma {:induction false} BehaviorIsGood(states: seq<State>, steps: seq<Step>, n: nat)
    requires Behavior(states, steps) && n < |states|
    ensures Good(states[n])
  {
    if n > 0 {
      BehaviorIsGood(states, steps, n - 1);
      StepKeepsGood(states[n - 1], steps[n - 1]);
    }
  }

  // ---------------------------------------------------------------- the protocol's promises

  predicate Wins(s: State, step: Step, version: nat) {
    step.Serve? && s.kv.version == step.request.last.seen && version == s.kv.version + 1
  }

  lemma {:induction false} VersionsGrow(states: seq<State>, steps: seq<Step>, m: nat, n: nat)
    requires Behavior(states, steps) && m <= n < |states|
    ensures states[m].kv.version <= states[n].kv.version && states[m].kv.floor <= states[n].kv.floor
    ensures states[m].revisions <= states[n].revisions
  {
    if m < n {
      VersionsGrow(states, steps, m, n - 1);
    }
  }

  /** Each key version is won at most once, by whichever claim, however late it is served. */
  lemma VersionIsWonOnce(states: seq<State>, steps: seq<Step>, m: nat, n: nat, version: nat)
    requires Behavior(states, steps) && m < |steps| && n < |steps|
    requires Wins(states[m], steps[m], version) && Wins(states[n], steps[n], version)
    ensures m == n
  {
    if m < n {
      VersionsGrow(states, steps, m + 1, n);
    } else if n < m {
      VersionsGrow(states, steps, n + 1, m);
    }
  }

  /** What is compacted after claim `v + 1` is at least claim `v`'s revision and below claim `v + 1`'s. */
  lemma TargetIsBetweenClaims(states: seq<State>, steps: seq<Step>, n: nat, v: nat)
    requires Behavior(states, steps) && n < |states| && 1 <= v < states[n].kv.version
    ensures v + 1 in states[n].targets && |states[n].revisions| == states[n].kv.version + 1
    ensures states[n].revisions[v] <= states[n].targets[v + 1] < states[n].revisions[v + 1]
  {
    BehaviorIsGood(states, steps, n);
  }

  lemma TargetsIncrease(states: seq<State>, steps: seq<Step>, n: nat, v: nat, w: nat)
    requires Behavior(states, steps) && n < |states| && v in states[n].targets && w in states[n].targets && v < w
    ensures states[n].targets[v] < states[n].targets[w]
  {
    BehaviorIsGood(states, steps, n);
    var s := states[n];
    RevisionsIncrease(s.revisions, s.targets, v, w - 1);
  }

  /**
   * Nothing at or above the revision the latest winner had recorded before its win is cut, even by
   * compactions of earlier winners served late.
   */
  lemma WinnersRevisionIsKept(states: seq<State>, steps: seq<Step>, n: nat)
    requires Behavior(states, steps) && n < |states|
    ensures var s := states[n];
            if 2 <= s.kv.version then s.kv.version in s.targets && s.kv.floor <= s.targets[s.kv.version]
            else s.kv.floor == 0
  {
    BehaviorIsGood(states, steps, n);
    var s := states[n];
    if s.kv.floor != 0 {
      var v :| v in s.targets && s.targets[v] == s.kv.floor;
      if v < s.kv.version {
        TargetsIncrease(states, steps, n, v, s.kv.version);
      }
    }
  }

  // ---------------------------------------------------------------- in intervals

  /** Reads later than `at` are of `revision` or later. */
  ghost predicate Dated(s: State, revision: nat, at: nat) {
    at <= s.now && forall r | r in s.looks && r.at > at :: revision <= r.revision
  }

  /** So are all reads of the last interval. */
  ghost predicate Settled(s: State, revision: nat) {
    revision == 0 || exists at: nat :: at + s.interval <= s.now && Dated(s, revision, at)
  }

  ghost predicate RememberedInTime(s: State, server: Server) {
    exists at: nat :: at <= Ended(s, server) <= s.now && Dated(s, Of(s, server).revision, at)
  }

  ghost predicate LooksInTime(s: State) {
    && (forall r | r in s.looks :: r.at <= s.now && r.revision <= s.kv.revision)
    && (forall p, r | p in s.replies && r in s.looks && r.at < p.served :: r.revision <= p.claim.revision)
  }

  ghost predicate InTime(s: State) {
    && LooksInTime(s)
    && (forall server :: RememberedInTime(s, server))
    && (forall r | r in s.requests :: Settled(s, r.last.revision))
    && (forall r | r in s.replies :: Dated(s, r.claim.revision, r.served))
    && (forall r | r in s.replies && TargetOf(r.last, r.claim).Some? :: Settled(s, r.last.revision))
    && (forall n | n in s.cuts :: Settled(s, n))
    && Settled(s, s.kv.floor)
  }

  /** Later, and with reads of the present at most. */
  ghost predicate Later(s: State, t: State) {
    && t.now >= s.now && t.interval == s.interval && t.kv.revision >= s.kv.revision
    && forall r | r in t.looks :: r in s.looks || r == Look(s.now, s.kv.revision)
  }

  lemma DatedStays(s: State, t: State, revision: nat, at: nat)
    requires Dated(s, revision, at) && Later(s, t) && revision <= s.kv.revision
    ensures Dated(t, revision, at)
  {
  }

  lemma SettledStays(s: State, t: State, revision: nat)
    requires Settled(s, revision) && Later(s, t) && revision <= s.kv.revision
    ensures Settled(t, revision)
  {
    if revision != 0 {
      var at: nat :| at + s.interval <= s.now && Dated(s, revision, at);
      DatedStays(s, t, revision, at);
    }
  }

  /** What every memory and every cut under way is of, the store has reached. */
  lemma Reached(s: State)
    requires Good(s)
    ensures forall server :: Of(s, server).revision <= s.kv.revision
    ensures forall r | r in s.requests :: r.last.revision <= s.kv.revision
    ensures forall r | r in s.replies :: r.claim.revision <= s.kv.revision
    ensures forall r | r in s.replies && TargetOf(r.last, r.claim).Some? :: r.last.revision <= s.kv.revision
    ensures (forall n | n in s.cuts :: n <= s.kv.revision) && s.kv.floor <= s.kv.revision
  {
    hide Logged;
    forall n: nat | IsTarget(s.targets, n) ensures n <= s.kv.revision {
      var v :| v in s.targets && s.targets[v] == n;
      TargetIsReached(s, v);
    }
    hide IsTarget;
  }

  lemma TargetIsReached(s: State, v: nat)
    requires Logged(s.revisions, s.targets) && v in s.targets && |s.revisions| == s.kv.version + 1
    requires s.revisions[s.kv.version] <= s.kv.revision
    ensures s.targets[v] <= s.kv.revision
  {
    RevisionsIncrease(s.revisions, s.targets, v, s.kv.version);
  }

  lemma StepIsLater(s: State, step: Step)
    requires Enabled(s, step)
    ensures Later(s, Next(s, step))
  {
  }

  /** What a step leaves as it was stays in time. */
  lemma KeptInTime(s: State, t: State)
    requires Good(s) && InTime(s) && Later(s, t)
    ensures forall r | r in s.requests :: Settled(t, r.last.revision)
    ensures forall r | r in s.replies :: Dated(t, r.claim.revision, r.served)
    ensures forall r | r in s.replies && TargetOf(r.last, r.claim).Some? :: Settled(t, r.last.revision)
    ensures (forall n | n in s.cuts :: Settled(t, n)) && Settled(t, s.kv.floor)
  {
    Reached(s);
    hide Good, Settled, Dated, Later;
    forall r | r in s.requests ensures Settled(t, r.last.revision) {
      SettledStays(s, t, r.last.revision);
    }
    forall r | r in s.replies ensures Dated(t, r.claim.revision, r.served) {
      DatedStays(s, t, r.claim.revision, r.served);
    }
    forall r | r in s.replies && TargetOf(r.last, r.claim).Some? ensures Settled(t, r.last.revision) {
      SettledStays(s, t, r.last.revision);
    }
    forall n | n in s.cuts ensures Settled(t, n) {
      SettledStays(s, t, n);
    }
    SettledStays(s, t, s.kv.floor);
  }

  /** A server's memory stays in time unless it hears something. */
  lemma MemoryStaysInTime(s: State, t: State, server: Server)
    requires Good(s) && RememberedInTime(s, server) && Later(s, t)
    requires Of(t, server) == Of(s, server) && Ended(s, server) <= Ended(t, server) <= t.now
    ensures RememberedInTime(t, server)
  {
    Reached(s);
    hide Good;
    var at: nat :| at <= Ended(s, server) <= s.now && Dated(s, Of(s, server).revision, at);
    DatedStays(s, t, Of(s, server).revision, at);
  }

  lemma ServeLooks(s: State, request: Request)
    requires LooksInTime(s)
    ensures var t := Served(s, request); LooksInTime(t) && Dated(t, t.kv.revision, s.now)
  {
  }

  lemma StepEnds(s: State, t: State, server: Server)
    requires RememberedInTime(s, server) && t.rounds == s.rounds && t.ended == s.ended && t.now == s.now
    ensures Of(t, server) == Of(s, server) && Ended(s, server) <= Ended(t, server) <= t.now
  {
  }

  lemma ServeInTime(s: State, request: Request)
    requires Good(s) && InTime(s) && request in s.requests
    ensures InTime(Served(s, request))
  {
    hide Good, Settled, RememberedInTime, Dated, LooksInTime, Later;
    var t := Served(s, request);
    StepIsLater(s, Serve(request));
    KeptInTime(s, t);
    ServeLooks(s, request);
    forall server ensures RememberedInTime(t, server) {
      StepEnds(s, t, server);
      MemoryStaysInTime(s, t, server);
    }
    assert t.kv.floor == s.kv.floor && t.cuts == s.cuts && t.requests <= s.requests;
  }

  lemma HearInTime(s: State, reply: Reply)
    requires Good(s) && InTime(s) && Enabled(s, Hear(reply))
    ensures InTime(Heard(s, reply))
  {
    var t := Heard(s, reply);
    StepIsLater(s, Hear(reply));
    KeptInTime(s, t);
    forall server ensures RememberedInTime(t, server) {
      if server == reply.to {
        assert reply.served <= Ended(t, server) <= t.now && Dated(t, Of(t, server).revision, reply.served);
      } else {
        MemoryStaysInTime(s, t, server);
      }
    }
    hide Good, Settled, RememberedInTime, Dated;
    assert t.kv == s.kv && t.looks == s.looks && t.now == s.now && t.requests == s.requests && t.replies <= s.replies;
  }

  lemma SendInTime(s: State, server: Server)
    requires Good(s) && InTime(s) && Enabled(s, Send(server))
    ensures InTime(Next(s, Send(server)))
  {
    var t := Next(s, Send(server));
    StepIsLater(s, Send(server));
    KeptInTime(s, t);
    forall other ensures RememberedInTime(t, other) {
      MemoryStaysInTime(s, t, other);
    }
    assert Settled(t, Of(s, server).revision) by {
      assert RememberedInTime(s, server);
      var at: nat :| at <= Ended(s, server) <= s.now && Dated(s, Of(s, server).revision, at);
      assert Dated(t, Of(s, server).revision, at);
    }
    hide Good, Settled, RememberedInTime, Dated;
  }

  /** The steps that neither claim nor hear. */
  lemma OtherInTime(s: State, step: Step)
    requires Good(s) && InTime(s) && Enabled(s, step) && !step.Serve? && !step.Hear? && !step.Send?
    ensures InTime(Next(s, step))
  {
    var t := Next(s, step);
    StepIsLater(s, step);
    KeptInTime(s, t);
    forall server ensures RememberedInTime(t, server) {
      MemoryStaysInTime(s, t, server);
    }
    hide Good, Settled, RememberedInTime, Dated;
    assert LooksInTime(t);
    assert t.requests <= s.requests && t.replies <= s.replies && t.cuts <= s.cuts;
    assert t.kv.floor == s.kv.floor || t.kv.floor in s.cuts;
  }

  lemma {:induction false} BehaviorIsInTime(states: seq<State>, steps: seq<Step>, n: nat)
    requires Behavior(states, steps) && n < |states|
    ensures Good(states[n]) && InTime(states[n])
  {
    BehaviorIsGood(states, steps, n);
    if n == 0 {
      StartsInTime(states[0]);
    } else {
      BehaviorIsInTime(states, steps, n - 1);
      BehaviorIsGood(states, steps, n - 1);
      hide Good, InTime;
      var s, step := states[n - 1], steps[n - 1];
      match step {
        case Serve(request) => ServeInTime(s, request);
        case Hear(reply) => HearInTime(s, reply);
        case Send(server) => SendInTime(s, server);
        case _ => OtherInTime(s, step);
      }
    }
  }

  lemma StartsInTime(s: State)
    requires Initial(s)
    ensures InTime(s)
  {
    forall server ensures RememberedInTime(s, server) {
      assert Ended(s, server) <= s.now && Dated(s, Of(s, server).revision, 0);
    }
  }

  /** What was read less than an interval ago is not cut. */
  lemma YoungSnapshotsStay(states: seq<State>, steps: seq<Step>, n: nat, look: Look)
    requires Behavior(states, steps) && n < |states| && look in states[n].looks
    requires states[n].now < look.at + states[n].interval
    ensures states[n].kv.floor <= look.revision
  {
    BehaviorIsInTime(states, steps, n);
    hide Good;
  }

  lemma StepTimely(s: State, step: Step, round: Round)
    requires Enabled(s, step) && Timely(s.revisions, s.kv.revision, round)
    ensures Timely(Next(s, step).revisions, Next(s, step).kv.revision, round)
  {
    TimelyStays(s.revisions, s.kv.revision, round);
    hide Timely;
  }

  lemma {:induction false} TimelyForever(states: seq<State>, steps: seq<Step>, m: nat, n: nat, round: Round)
    requires Behavior(states, steps) && m <= n < |states| && Timely(states[m].revisions, states[m].kv.revision, round)
    ensures Timely(states[n].revisions, states[n].kv.revision, round)
  {
    if m < n {
      TimelyForever(states, steps, m, n - 1, round);
      StepTimely(states[n - 1], steps[n - 1], round);
    }
  }

  lemma StepMemory(s: State, step: Step, server: Server)
    requires Good(s) && Enabled(s, step)
    ensures Of(s, server).seen <= Of(Next(s, step), server).seen
  {
    hide Logged, Timely, IsTarget;
  }

  /** A server's memory never goes back, and every round it hears of moves it on. */
  lemma {:induction false} MemoryGrows(states: seq<State>, steps: seq<Step>, m: nat, n: nat, server: Server)
    requires Behavior(states, steps) && m <= n < |states|
    ensures Of(states[m], server).seen <= Of(states[n], server).seen
  {
    if m < n {
      MemoryGrows(states, steps, m, n - 1, server);
      BehaviorIsGood(states, steps, n - 1);
      StepMemory(states[n - 1], steps[n - 1], server);
    }
  }

  lemma HearMovesOn(states: seq<State>, steps: seq<Step>, m: nat, reply: Reply)
    requires Behavior(states, steps) && m < |steps| && steps[m] == Hear(reply)
    ensures Of(states[m], reply.to).seen < Of(states[m + 1], reply.to).seen
    ensures Of(states[m + 1], reply.to) == Round(reply.claim.seen, reply.claim.revision)
  {
    BehaviorIsGood(states, steps, m);
    hide Logged, Timely, IsTarget;
  }

  lemma {:induction false} OldLooksAreOld(states: seq<State>, steps: seq<Step>, m: nat, n: nat, look: Look)
    requires Behavior(states, steps) && m <= n < |states| && look in states[n].looks && look.at < states[m].now
    ensures states[m].now <= states[n].now && look in states[m].looks
  {
    TimePasses(states, steps, m, n);
    if m < n {
      TimePasses(states, steps, m, n - 1);
      OldLooksAreOld(states, steps, m, n - 1, look);
    }
  }

  lemma {:induction false} TimePasses(states: seq<State>, steps: seq<Step>, m: nat, n: nat)
    requires Behavior(states, steps) && m <= n < |states|
    ensures states[m].now <= states[n].now
  {
    if m < n {
      TimePasses(states, steps, m, n - 1);
    }
  }

  /**
   * Three rounds of one server, so two intervals: what was read before the first was answered is gone
   * once the latest winner's compaction is served.
   */
  lemma OldSnapshotsGo(states: seq<State>, steps: seq<Step>, i: nat, j: nat, k: nat, n: nat, first: Reply, look: Look)
    requires Behavior(states, steps) && i < j < k < n < |states|
    requires steps[i] == Hear(first) && steps[j].Hear? && steps[k].Hear? && steps[j].reply.to == steps[k].reply.to == first.to
    requires look in states[n].looks && look.at < first.served
    ensures var s := states[n];
            && s.kv.version in s.targets
            && (s.targets[s.kv.version] <= s.kv.floor ==> look.revision < s.kv.floor)
  {
    var s, server := states[n], first.to;
    BehaviorIsInTime(states, steps, i);
    OldLooksAreOld(states, steps, i, n, look);
    assert look.revision <= first.claim.revision;
    HearMovesOn(states, steps, i, first);
    MemoryGrows(states, steps, i + 1, j, server);
    HearMovesOn(states, steps, j, steps[j].reply);
    MemoryGrows(states, steps, j + 1, k, server);
    HearMovesOn(states, steps, k, steps[k].reply);
    MemoryGrows(states, steps, k + 1, n, server);
    BehaviorIsGood(states, steps, i + 1);
    var round := Of(states[i + 1], server);
    TimelyForever(states, steps, i + 1, n, round);
    BehaviorIsGood(states, steps, n);
    assert round.seen + 2 <= s.kv.version;
    RevisionsIncrease(s.revisions, s.targets, round.seen + 1, s.kv.version - 1);
  }

  /** Consecutive rounds of one server are an interval apart. */
  lemma RoundsAreSpaced(states: seq<State>, steps: seq<Step>, m: nat, n: nat, server: Server)
    requires Behavior(states, steps) && m < n < |steps| && steps[n] == Send(server)
    requires (steps[m].Hear? && steps[m].reply.to == server) || steps[m] == Fail(server)
    ensures states[m].now + states[m].interval <= states[n].now
  {
    EndedGrows(states, steps, m + 1, n, server);
  }

  lemma {:induction false} EndedGrows(states: seq<State>, steps: seq<Step>, m: nat, n: nat, server: Server)
    requires Behavior(states, steps) && m <= n < |states|
    ensures states[n].interval == states[m].interval
    ensures Ended(states[m], server) <= states[m].now ==> Ended(states[m], server) <= Ended(states[n], server) <= states[n].now
  {
    if m < n {
      EndedGrows(states, steps, m, n - 1, server);
    }
  }

  // ---------------------------------------------------------------- in claims

  /** A revision read since the last win stays readable, and so does the winner's own. */
  lemma SinceLastWinStays(states: seq<State>, steps: seq<Step>, n: nat, revision: nat)
    requires Behavior(states, steps) && n < |states| && 1 <= states[n].kv.version
    requires |states[n].revisions| == states[n].kv.version + 1 && states[n].revisions[states[n].kv.version] <= revision
    ensures states[n].kv.floor < revision
  {
    BehaviorIsGood(states, steps, n);
    WinnersRevisionIsKept(states, steps, n);
    RevisionsIncrease(states[n].revisions, states[n].targets, 0, states[n].kv.version);
  }

  /** Once claim `v + 1`'s compaction is served, everything older than claim `v` is gone for good. */
  lemma BeforeClaimIsGone(states: seq<State>, steps: seq<Step>, m: nat, n: nat, v: nat)
    requires Behavior(states, steps) && m < n < |states| && v + 1 in states[m].targets
    requires steps[m] == ServeCut(states[m].targets[v + 1])
    ensures v < |states[m].revisions| && states[m].revisions[v] <= states[n].kv.floor
  {
    BehaviorIsGood(states, steps, m);
    RevisionsIncrease(states[m].revisions, states[m].targets, v + 1, states[m].kv.version);
    VersionsGrow(states, steps, m + 1, n);
  }
}
