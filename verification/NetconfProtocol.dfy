/** Sessions of the NETCONF client on one device, in any interleaving: lock, discard, edit,
    confirmed commit, commit, unlock, with bounded retry (sections 7.5, 8.3 and 8.4 of
    RFC 6241). A datastore is seen as the interfaces it holds and the session that wrote
    each of them last. */
module NetconfProtocol {
  import opened Wrappers

  type Config = map<string, nat>

  const MAX_ATTEMPTS := 5

  /** Which capabilities the device announced, and the ids the driver may allocate. */
  datatype Env = Env(candidate: bool, confirmed: bool, range: set<string>)

  /** A managed LACP create, whose id is deferred until the lock is held, or any other change. */
  datatype Job = Create | Change(sets: set<string>, drops: set<string>)

  datatype Phase =
    | Ready                 // about to ask for the lock
    | Denied(zero: bool)    // answered `lock-denied`; `zero`: by no session
    | Locked
    | Allocated
    | Discarded
    | Edited
    | Confirming            // confirmed commit done, confirming commit still to come
    | Committed
    | Failing(denied: bool, zero: bool) // an error inside the lock, before unlocking
    | Closing               // gave up; the connection is still open
    | Finished
    | Failed(lost: bool)    // `lost`: out of attempts

  /** `id` is what the configuration objects hold: it survives a retry. `grants` and `writes`
      count the locks the session got and the changes it made to the running datastore. */
  datatype Session = Session(job: Job, phase: Phase, attempt: nat, id: Option<string>, grants: nat, writes: nat)

  /** `pending`: the confirmed commits that wait for their confirmation, by session, each with
      the datastore the device goes back to. Only the session itself confirms (section 8.4). */
  datatype Sys = Sys(running: Config, candidate: Config, lock: Option<nat>, pending: map<nat, Config>,
                     sessions: map<nat, Session>)

  datatype Step =
    | Lock
    | Retry
    | Allocate(id: string)
    | Discard
    | Edit
    | ConfirmedCommit
    | Commit
    | Unlock
    | Raise(denied: bool, zero: bool)
    | Close
    | Drop          // the connection breaks

  datatype Action = By(i: nat, step: Step) | Timeout(i: nat)

  predicate InLock(ph: Phase) {
    ph.Locked? || ph.Allocated? || ph.Discarded? || ph.Edited? || ph.Confirming? || ph.Committed? || ph.Failing?
  }

  function Payload(c: Config, i: nat, s: Session): Config {
    match s.job
    case Create => if s.id.Some? then c[s.id.value := i] else c
    case Change(sets, drops) => (c - drops) + map n | n in sets :: i
  }

  /** One more attempt, unless they are used up. */
  function NextAttempt(s: Session): Session {
    if s.attempt + 1 < MAX_ATTEMPTS then s.(phase := Ready, attempt := s.attempt + 1) else s.(phase := Failed(true))
  }

  function Wrote(s: Session): Session {
    s.(writes := s.writes + 1)
  }

  /** The lock can be had: nobody has it and the candidate is unchanged. */
  predicate Idle(e: Env, s: Sys) {
    s.lock.None? && (e.candidate ==> s.candidate == s.running)
  }

  predicate Does(e: Env, s: Sys, a: Action, s': Sys) {
    match a
    case Timeout(i) => i in s.pending && s' == Reverted(s, i)
    case By(i, step) => i in s.sessions && Steps(e, s, i, step, s')
  }

  predicate Steps(e: Env, s: Sys, i: nat, step: Step, s': Sys)
    requires i in s.sessions
  {
    Enabled(e, s, i, step) && s' == Next(e, s, i, step)
  }

  predicate Enabled(e: Env, s: Sys, i: nat, step: Step)
    requires i in s.sessions
  {
    var me := s.sessions[i];
    match step
    case Lock => me.phase == Ready
    case Retry => me.phase.Denied?
    case Allocate(id) => me.phase == Locked && (me.job == Create ==> id in e.range && id !in s.running)
    case Discard => me.phase == Allocated && e.candidate
    case Edit => me.phase == if e.candidate then Discarded else Allocated
    case ConfirmedCommit => me.phase == Edited && e.candidate && e.confirmed
    case Commit => e.candidate && me.phase == if e.confirmed then Confirming else Edited
    case Unlock => me.phase == Committed || me.phase.Failing?
    case Raise(_, _) => InLock(me.phase) && !me.phase.Committed? && !me.phase.Failing?
    case Close => me.phase == Closing
    case Drop => me.phase != Finished && !me.phase.Failed?
  }

  function Next(e: Env, s: Sys, i: nat, step: Step): Sys
    requires i in s.sessions && Enabled(e, s, i, step)
  {
    Stores(e, s, i, step).(sessions := s.sessions[i := Mine(e, s, i, step)])
  }

  /** The session after its step. */
  function Mine(e: Env, s: Sys, i: nat, step: Step): Session
    requires i in s.sessions && Enabled(e, s, i, step)
  {
    var me := s.sessions[i];
    match step
    case Lock => if Idle(e, s) then me.(phase := Locked, grants := me.grants + 1)
        else me.(phase := Denied(s.lock.None?))
    case Retry => if e.candidate && me.phase.zero && s.lock.Some? then me.(phase := Failed(false)) else NextAttempt(me)
    case Allocate(id) => me.(phase := Allocated, id := if me.job == Create && me.id.None? then Some(id) else me.id)
    case Discard => me.(phase := Discarded)
    case Edit => if e.candidate then me.(phase := Edited) else Wrote(me).(phase := Committed)
    case ConfirmedCommit => Wrote(me).(phase := Confirming)
    case Commit => Wrote(me).(phase := Committed)
    case Unlock =>
      me.(phase := if me.phase == Committed then Finished else if me.phase.denied then Denied(me.phase.zero)
          else Closing)
    case Raise(denied, zero) => me.(phase := Failing(denied, zero))
    case Close => me.(phase := Failed(false))
    case Drop => me.(phase := Failed(false))
  }

  /** The datastores, the lock and what is pending after the step. */
  function Stores(e: Env, s: Sys, i: nat, step: Step): (s': Sys)
    requires i in s.sessions && Enabled(e, s, i, step)
  {
    var me := s.sessions[i];
    match step
    case Lock => if Idle(e, s) then s.(lock := Some(i)) else s
    case Retry => if e.candidate && me.phase.zero && s.lock.None? then s.(candidate := s.running) else s
    case Discard => s.(candidate := s.running)
    case Edit =>
      if e.candidate then s.(candidate := Payload(s.candidate, i, me)) else s.(running := Payload(s.running, i, me))
    case ConfirmedCommit =>
      s.(running := s.candidate, pending := if i in s.pending then s.pending else s.pending[i := s.running])
    case Commit => s.(running := s.candidate, pending := s.pending - {i})
    case Unlock => s.(lock := None)
    case Close => Reverted(s, i)
    case Drop =>
      var r := Reverted(s, i);
      if s.lock == Some(i) then r.(lock := None, candidate := r.running) else r
    case _ => s
  }

  /** A session that ends takes its unconfirmed commit with it. */
  function Reverted(s: Sys, i: nat): Sys {
    if i in s.pending then s.(running := s.pending[i], pending := s.pending - {i}) else s
  }

  predicate Init(e: Env, s: Sys) {
    && s.lock.None? && s.pending == map[] && (e.candidate ==> s.candidate == s.running)
    && forall i | i in s.sessions :: s.sessions[i] == Session(s.sessions[i].job, Ready, 0, None, 0, 0)
  }

  predicate Run(e: Env, states: seq<Sys>, actions: seq<Action>) {
    && |states| == |actions| + 1 && Init(e, states[0])
    && forall k | 0 <= k < |actions| :: Does(e, states[k], actions[k], states[k + 1])
  }

  // ----- Who holds the lock, and who writes -----------------------------------------------

  /** The lock is held by exactly the session that is between lock and unlock. */
  predicate LockOk(s: Sys) {
    && (s.lock.Some? ==> s.lock.value in s.sessions)
    && (forall i | i in s.sessions :: InLock(s.sessions[i].phase) <==> s.lock == Some(i))
  }

  predicate CountOk(me: Session) {
    && (me.grants == 0 ==> me.writes == 0 && me.id.None?)
    && (InLock(me.phase) || me.phase == Finished || me.phase == Closing ==> me.grants > 0)
    && me.attempt < MAX_ATTEMPTS
    && (me.phase == Failed(true) ==> me.attempt == MAX_ATTEMPTS - 1)
  }

  predicate CountsOk(s: Sys) {
    forall i | i in s.sessions :: CountOk(s.sessions[i])
  }

  /** Only session `i` moved. */
  predicate OnlyMoves(s: Sys, i: nat, s': Sys) {
    i in s.sessions && i in s'.sessions && s'.sessions == s.sessions[i := s'.sessions[i]]
  }

  lemma StepMoves(e: Env, s: Sys, i: nat, step: Step, s': Sys)
    requires i in s.sessions && Steps(e, s, i, step, s')
    requires InLock(s.sessions[i].phase) <==> s.lock == Some(i)
    ensures OnlyMoves(s, i, s')
    ensures InLock(s.sessions[i].phase) == InLock(s'.sessions[i].phase) ==> s'.lock == s.lock
    ensures !InLock(s.sessions[i].phase) && InLock(s'.sessions[i].phase) ==> s.lock.None? && s'.lock == Some(i)
    ensures InLock(s.sessions[i].phase) && !InLock(s'.sessions[i].phase) ==> s'.lock.None?
    ensures CountOk(s.sessions[i]) ==> CountOk(s'.sessions[i])
  {
  }

  lemma SameSessions(e: Env, s: Sys, a: Action, s': Sys, i: nat)
    requires Does(e, s, a, s') && i in s'.sessions
    ensures i in s.sessions
  {
    hide Stores, Mine, Enabled;
  }

  lemma OthersStay(e: Env, s: Sys, a: Action, s': Sys, i: nat)
    requires Does(e, s, a, s') && i in s.sessions && !(a.By? && a.i == i)
    ensures i in s'.sessions && s'.sessions[i] == s.sessions[i]
  {
    hide Stores, Mine, Enabled;
  }

  lemma StepLock(e: Env, s: Sys, a: Action, s': Sys)
    requires LockOk(s) && CountsOk(s) && Does(e, s, a, s')
    ensures LockOk(s') && CountsOk(s')
  {
    hide Steps, CountOk, InLock;
    match a {
      case Timeout(_) =>
      case By(i, step) =>
        StepMoves(e, s, i, step, s');
    }
  }

  /** A step that changes the running datastore is a commit (an edit, without a candidate
      datastore) by the session that holds the lock, or the device undoing a confirmed
      commit. Every such write is counted. */
  lemma RunningWriters(e: Env, s: Sys, a: Action, s': Sys)
    requires LockOk(s) && Does(e, s, a, s') && s'.running != s.running
    ensures || (&& a.By? && s.lock == Some(a.i) && s'.sessions[a.i].writes == s.sessions[a.i].writes + 1
                && (if e.candidate then a.step.Commit? || a.step.ConfirmedCommit? else a.step.Edit?))
            || (a.i in s.pending && s'.running == s.pending[a.i] && (a.Timeout? || a.step.Close? || a.step.Drop?))
  {
  }

  lemma {:induction false} RunLock(e: Env, states: seq<Sys>, actions: seq<Action>)
    requires Run(e, states, actions)
    ensures LockOk(states[|actions|]) && CountsOk(states[|actions|])
    decreases |actions|
  {
    var n := |actions|;
    if n > 0 {
      RunLock(e, states[..n], actions[..n - 1]);
      StepLock(e, states[n - 1], actions[n - 1], states[n]);
    }
  }

  /** A session that lost all its lock attempts never wrote the running datastore. */
  lemma LosersWriteNothing(e: Env, states: seq<Sys>, actions: seq<Action>, i: nat)
    requires Run(e, states, actions) && i in states[|actions|].sessions
    requires states[|actions|].sessions[i].grants == 0
    ensures states[|actions|].sessions[i].writes == 0
    ensures states[|actions|].sessions[i].attempt < MAX_ATTEMPTS
  {
    RunLock(e, states, actions);
  }

  // ----- Aggregate ids, and what each write changes --------------------------------------------

  /** All but two faults: a `lock-denied` answer to a request other than the lock once the
      aggregate id is filled in, and an error between a confirmed commit and its confirmation. */
  predicate Benign(s: Sys, a: Action) {
    match a
    case By(i, Raise(denied, _)) =>
      i in s.sessions && !(s.sessions[i].phase.Confirming? && i in s.pending) && (denied ==> s.sessions[i].id.None?)
    case _ => true
  }

  predicate BenignRun(states: seq<Sys>, actions: seq<Action>)
    requires |states| == |actions| + 1
  {
    forall k | 0 <= k < |actions| :: Benign(states[k], actions[k])
  }

  /** A create that has its id but has not written yet: the id is free. */
  predicate IdFree(running: Config, me: Session) {
    me.job == Create ==> me.id.Some? && me.id.value !in running
  }

  predicate IdTaken(running: Config, i: nat, me: Session) {
    me.job == Create ==> me.id.Some? && me.id.value in running && running[me.id.value] == i
  }

  predicate SessionOk(e: Env, running: Config, candidate: Config, pending: map<nat, Config>, i: nat, me: Session) {
    && (me.id.Some? ==> me.id.value in e.range && me.job == Create)
    && match me.phase
       case Ready => me.id.None?
       case Denied(_) => me.id.None?
       case Locked => me.id.None?
       case Allocated => IdFree(running, me)
       case Discarded => IdFree(running, me) && candidate == running
       case Edited => IdFree(running, me) && candidate == Payload(running, i, me)
       case Confirming =>
         var base := if i in pending then pending[i] else running;
         && e.candidate && e.confirmed && IdFree(base, me) && candidate == Payload(base, i, me)
         && (i in pending ==> running == candidate)
       case Committed => IdTaken(running, i, me)
       case Failing(denied, _) => denied ==> me.id.None?
       case _ => true
  }

  predicate SessionsOk(e: Env, s: Sys) {
    forall i | i in s.sessions :: SessionOk(e, s.running, s.candidate, s.pending, i, s.sessions[i])
  }

  /** A confirmed commit is pending only while its session is about to confirm it. */
  predicate PendingOk(s: Sys) {
    forall i | i in s.pending :: i in s.sessions && s.sessions[i].phase == Confirming && s.lock == Some(i)
  }

  /** The session that moves stays right. */
  lemma OwnStep(e: Env, s: Sys, i: nat, step: Step, s': Sys)
    requires i in s.sessions && Steps(e, s, i, step, s') && Benign(s, By(i, step))
    requires SessionOk(e, s.running, s.candidate, s.pending, i, s.sessions[i])
    requires i in s.pending ==> s.sessions[i].phase == Confirming
    ensures i in s'.sessions && SessionOk(e, s'.running, s'.candidate, s'.pending, i, s'.sessions[i])
  {
  }

  /** Outside the lock nothing depends on the datastores. */
  lemma OutsideOk(e: Env, s: Sys, s': Sys, i: nat, me: Session)
    requires !InLock(me.phase) && SessionOk(e, s.running, s.candidate, s.pending, i, me)
    ensures SessionOk(e, s'.running, s'.candidate, s'.pending, i, me)
  {
  }

  /** Only the holder of the lock, or a session nobody else is in the way of, changes them. */
  lemma StoresChange(e: Env, s: Sys, i: nat, step: Step, s': Sys)
    requires i in s.sessions && Steps(e, s, i, step, s') && LockOk(s) && PendingOk(s)
    ensures s'.running != s.running || s'.candidate != s.candidate || s'.pending != s.pending ==>
              s.lock == Some(i) || s.lock.None?
  {
  }

  lemma PendingStep(e: Env, s: Sys, i: nat, step: Step, s': Sys)
    requires i in s.sessions && Steps(e, s, i, step, s') && LockOk(s) && PendingOk(s) && Benign(s, By(i, step))
    ensures PendingOk(s')
  {
  }

  /** The device goes back to what was running before the session's confirmed commit. */
  lemma TimeoutIds(e: Env, s: Sys, i: nat, s': Sys)
    requires LockOk(s) && SessionsOk(e, s) && PendingOk(s) && Does(e, s, Timeout(i), s')
    ensures SessionsOk(e, s') && PendingOk(s')
  {
    assert SessionOk(e, s.running, s.candidate, s.pending, i, s.sessions[i]);
    forall j | j in s'.sessions && j != i
      ensures SessionOk(e, s'.running, s'.candidate, s'.pending, j, s'.sessions[j])
    {
      OutsideOk(e, s, s', j, s.sessions[j]);
    }
  }

  lemma StepIds(e: Env, s: Sys, a: Action, s': Sys)
    requires LockOk(s) && SessionsOk(e, s) && PendingOk(s) && Does(e, s, a, s') && Benign(s, a)
    ensures SessionsOk(e, s') && PendingOk(s')
  {
    if a.Timeout? {
      TimeoutIds(e, s, a.i, s');
    } else {
      var i, step := a.i, a.step;
      hide Steps, SessionOk;
      StepMoves(e, s, i, step, s');
      StoresChange(e, s, i, step, s');
      PendingStep(e, s, i, step, s');
      OwnStep(e, s, i, step, s');
      forall j | j in s'.sessions && j != i
        ensures SessionOk(e, s'.running, s'.candidate, s'.pending, j, s'.sessions[j])
      {
        assert s'.sessions[j] == s.sessions[j] && SessionOk(e, s.running, s.candidate, s.pending, j, s.sessions[j]);
        if !InLock(s.sessions[j].phase) {
          OutsideOk(e, s, s', j, s.sessions[j]);
        }
      }
    }
  }

  lemma {:induction false} RunIds(e: Env, states: seq<Sys>, actions: seq<Action>)
    requires Run(e, states, actions) && BenignRun(states, actions)
    ensures SessionsOk(e, states[|actions|]) && PendingOk(states[|actions|])
    decreases |actions|
  {
    hide Does, LockOk, SessionOk, PendingOk, Benign;
    var n := |actions|;
    if n == 0 {
      StartOk(e, states[0]);
    } else {
      RunIds(e, states[..n], actions[..n - 1]);
      RunLock(e, states[..n], actions[..n - 1]);
      StepIds(e, states[n - 1], actions[n - 1], states[n]);
    }
  }

  lemma StartOk(e: Env, s: Sys)
    requires Init(e, s)
    ensures SessionsOk(e, s) && PendingOk(s)
  {
  }

  /** Without those two faults each change of the running datastore is the payload of the
      session that holds the lock, and a LACP create takes an id that was free: it never
      reuses the id of an aggregate that is still configured. The only other change is the
      device taking back exactly the holder's own unconfirmed payload. */
  lemma CreatesTakeFreeIds(e: Env, states: seq<Sys>, actions: seq<Action>, k: nat)
    requires Run(e, states, actions) && BenignRun(states, actions) && k < |actions|
    requires states[k + 1].running != states[k].running
    ensures states[k].lock.Some? && states[k].lock.value in states[k].sessions
    ensures var s, s', i := states[k], states[k + 1], states[k].lock.value; var me := s.sessions[i];
            || (i in s.pending && me.phase == Confirming && s'.running == s.pending[i]
                && s.running == Payload(s'.running, i, me))
            || (&& s'.running == Payload(s.running, i, me)
                && (me.job == Create ==>
                      me.id.Some? && me.id.value in e.range && me.id.value !in s.running
                      && s'.running == s.running[me.id.value := i]))
  {
    assert Run(e, states[..k + 1], actions[..k]) && BenignRun(states[..k + 1], actions[..k]);
    RunIds(e, states[..k + 1], actions[..k]);
    RunLock(e, states[..k + 1], actions[..k]);
    var s := states[k];
    assert Does(e, s, actions[k], states[k + 1]) && Benign(s, actions[k]);
    assert SessionOk(e, s.running, s.candidate, s.pending, actions[k].i, s.sessions[actions[k].i]);
    RunningWriters(e, s, actions[k], states[k + 1]);
  }

  // ----- Commits in order ------------------------------------------------------------------------

  /** The step after which a session's change is there to stay. */
  predicate Committing(e: Env, a: Action) {
    a.By? && if e.candidate then a.step.Commit? else a.step.Edit?
  }

  /** The sessions that committed, in the order of their commits. */
  function Committers(e: Env, actions: seq<Action>): seq<nat>
    decreases |actions|
  {
    if actions == [] then []
    else
      var n := |actions| - 1;
      Committers(e, actions[..n]) + if Committing(e, actions[n]) then [actions[n].i] else []
  }

  predicate Present(done: seq<nat>, sessions: map<nat, Session>) {
    forall k | 0 <= k < |done| :: done[k] in sessions
  }

  /** One payload after the other. */
  function Applied(c: Config, done: seq<nat>, sessions: map<nat, Session>): Config
    requires Present(done, sessions)
    decreases |done|
  {
    if done == [] then c
    else
      var n := |done| - 1;
      assert Present(done[..n], sessions);
      Payload(Applied(c, done[..n], sessions), done[n], sessions[done[n]])
  }

  lemma {:induction false} AppliedSame(c: Config, done: seq<nat>, sessions: map<nat, Session>,
                                         sessions': map<nat, Session>)
    requires Present(done, sessions) && Present(done, sessions')
    requires forall i | i in done :: sessions[i].job == sessions'[i].job && sessions[i].id == sessions'[i].id
    ensures Applied(c, done, sessions) == Applied(c, done, sessions')
    decreases |done|
  {
    if done != [] {
      var n := |done| - 1;
      assert Present(done[..n], sessions) && Present(done[..n], sessions') && done[n] in done;
      AppliedSame(c, done[..n], sessions, sessions');
    }
  }

  predicate Over(ph: Phase) {
    ph == Committed || ph == Finished || ph == Failed(false)
  }

  predicate DoneOk(s: Sys, done: seq<nat>) {
    && (forall i | i in done :: i in s.sessions && Over(s.sessions[i].phase))
    && (forall i | i in s.sessions && (s.sessions[i].phase == Committed || s.sessions[i].phase == Finished) ::
        i in done)
    && (forall k, l | 0 <= k < l < |done| :: done[k] != done[l])
  }

  /** What is running, an unconfirmed commit aside. */
  predicate Serial(s: Sys, c: Config, done: seq<nat>) {
    && DoneOk(s, done) && Present(done, s.sessions)
    && (forall i | i in s.pending :: s.pending[i] == Applied(c, done, s.sessions))
    && (s.pending == map[] ==> s.running == Applied(c, done, s.sessions))
  }

  lemma DoneStep(e: Env, s: Sys, i: nat, step: Step, s': Sys, done: seq<nat>)
    requires i in s.sessions && Steps(e, s, i, step, s') && OnlyMoves(s, i, s') && DoneOk(s, done)
    ensures DoneOk(s', done + if Committing(e, By(i, step)) then [i] else [])
    ensures i in done ==> s.sessions[i].job == s'.sessions[i].job && s.sessions[i].id == s'.sessions[i].id
    ensures Committing(e, By(i, step)) ==> i !in done
  {
  }

  lemma SerialOther(e: Env, s: Sys, i: nat, step: Step, s': Sys, c: Config, done: seq<nat>)
    requires LockOk(s) && SessionsOk(e, s) && PendingOk(s) && Serial(s, c, done)
    requires i in s.sessions && Steps(e, s, i, step, s') && Benign(s, By(i, step))
    requires !Committing(e, By(i, step))
    ensures Serial(s', c, done)
  {
    StepMoves(e, s, i, step, s');
    DoneStep(e, s, i, step, s', done);
    assert done + [] == done;
    AppliedSame(c, done, s.sessions, s'.sessions);
    assert SessionOk(e, s.running, s.candidate, s.pending, i, s.sessions[i]);
  }

  lemma SerialCommit(e: Env, s: Sys, i: nat, step: Step, s': Sys, c: Config, done: seq<nat>)
    requires LockOk(s) && SessionsOk(e, s) && PendingOk(s) && Serial(s, c, done)
    requires i in s.sessions && Steps(e, s, i, step, s') && Committing(e, By(i, step))
    ensures Serial(s', c, done + [i])
  {
    StepMoves(e, s, i, step, s');
    DoneStep(e, s, i, step, s', done);
    AppliedSame(c, done, s.sessions, s'.sessions);
    assert (done + [i])[..|done|] == done;
    assert SessionOk(e, s.running, s.candidate, s.pending, i, s.sessions[i]);
    assert s'.pending == map[];
  }

  lemma {:induction false} RunSerial(e: Env, states: seq<Sys>, actions: seq<Action>)
    requires Run(e, states, actions) && BenignRun(states, actions)
    ensures Serial(states[|actions|], states[0].running, Committers(e, actions))
    decreases |actions|
  {
    hide Steps, LockOk, SessionOk, PendingOk, Benign, Committing, Serial;
    var n := |actions|;
    if n == 0 {
      SerialStart(e, states[0]);
    } else {
      RunSerial(e, states[..n], actions[..n - 1]);
      RunIds(e, states[..n], actions[..n - 1]);
      RunLock(e, states[..n], actions[..n - 1]);
      SerialStep(e, states[n - 1], actions[n - 1], states[n], states[0].running, Committers(e, actions[..n - 1]));
    }
  }

  lemma SerialStart(e: Env, s: Sys)
    requires Init(e, s)
    ensures Serial(s, s.running, [])
  {
  }

  lemma SerialStep(e: Env, s: Sys, a: Action, s': Sys, c: Config, done: seq<nat>)
    requires LockOk(s) && SessionsOk(e, s) && PendingOk(s) && Serial(s, c, done) && Does(e, s, a, s') && Benign(s, a)
    ensures Serial(s', c, done + if Committing(e, a) then [a.i] else [])
  {
    if a.Timeout? {
      assert s'.pending == map[] && done + [] == done;
    } else if Committing(e, a) {
      SerialCommit(e, s, a.i, a.step, s', c, done);
    } else {
      SerialOther(e, s, a.i, a.step, s', c, done);
      assert done + [] == done;
    }
  }

  /** The connection broke between the commit and the unlock. */
  predicate LostReply(states: seq<Sys>, actions: seq<Action>, i: nat, k: nat) {
    && k < |actions| < |states| && i in states[k].sessions
    && actions[k] == By(i, Drop) && states[k].sessions[i].phase == Committed
  }

  predicate WasLost(states: seq<Sys>, actions: seq<Action>, i: nat) {
    exists k | 0 <= k < |actions| :: LostReply(states, actions, i, k)
  }

  lemma {:induction false} FailedCommitters(e: Env, states: seq<Sys>, actions: seq<Action>, i: nat)
    requires Run(e, states, actions) && BenignRun(states, actions) && i in states[|actions|].sessions
    ensures i in Committers(e, actions) && states[|actions|].sessions[i].phase.Failed?
       <==> WasLost(states, actions, i)
    decreases |actions|
  {
    hide Does, Init, Serial, Committing, Present, LostReply, Benign;
    var n := |actions|;
    if n > 0 {
      var s, a := states[n - 1], actions[n - 1];
      SameSessions(e, s, a, states[n], i);
      FailedCommitters(e, states[..n], actions[..n - 1], i);
      RunSerial(e, states[..n], actions[..n - 1]);
      FailedStep(e, s, a, states[n], states[0].running, Committers(e, actions[..n - 1]), i);
      LostReplies(states[..n], actions[..n - 1], states[n], a, i);
      assert states == states[..n] + [states[n]] && actions == actions[..n - 1] + [a];
    } else {
      NotLost(states, actions, i);
    }
  }

  lemma NotLost(states: seq<Sys>, actions: seq<Action>, i: nat)
    requires actions == []
    ensures !WasLost(states, actions, i)
  {
  }

  lemma LostReplies(states0: seq<Sys>, actions0: seq<Action>, s: Sys, a: Action, i: nat)
    requires |states0| == |actions0| + 1 && i in states0[|actions0|].sessions
    ensures WasLost(states0 + [s], actions0 + [a], i)
       <==> WasLost(states0, actions0, i) || (a == By(i, Drop) && states0[|actions0|].sessions[i].phase == Committed)
  {
    var n := |actions0|;
    forall k ensures LostReply(states0, actions0, i, k) <==> LostReply(states0 + [s], actions0 + [a], i, k) && k != n {
    }
    assert LostReply(states0 + [s], actions0 + [a], i, n)
        <==> a == By(i, Drop) && states0[n].sessions[i].phase == Committed;
  }

  lemma FailedStep(e: Env, s: Sys, a: Action, s': Sys, c: Config, done: seq<nat>, i: nat)
    requires Does(e, s, a, s') && Serial(s, c, done) && i in s.sessions && i in s'.sessions
    ensures var done' := done + if Committing(e, a) then [a.i] else [];
            i in done' && s'.sessions[i].phase.Failed?
            <==> (i in done && s.sessions[i].phase.Failed?) || (a == By(i, Drop) && s.sessions[i].phase == Committed)
  {
    if a.By? && a.i == i {
      MyFailedStep(e, s, i, a.step, s', c, done);
    } else {
      OthersStay(e, s, a, s', i);
    }
  }

  lemma MyFailedStep(e: Env, s: Sys, i: nat, step: Step, s': Sys, c: Config, done: seq<nat>)
    requires i in s.sessions && Steps(e, s, i, step, s') && DoneOk(s, done)
    ensures i in s'.sessions
    ensures s'.sessions[i].phase.Failed? && (i in done || Committing(e, By(i, step)))
       <==> step == Drop && s.sessions[i].phase == Committed
  {
  }

  /** Sessions are serialised: without the two faults what is running is the initial
      datastore with the payload of each session that committed, once each, in the order of
      the commits; on top of it at most the unconfirmed payload of the lock holder. A
      session that reports failure is not among them, unless its connection broke after
      its commit. */
  lemma CommitsInOrder(e: Env, states: seq<Sys>, actions: seq<Action>)
    requires Run(e, states, actions) && BenignRun(states, actions)
    ensures var s, done := states[|actions|], Committers(e, actions);
            && Present(done, s.sessions) && (forall k, l | 0 <= k < l < |done| :: done[k] != done[l])
            && var c := Applied(states[0].running, done, s.sessions);
               if s.pending == map[] then s.running == c
               else s.lock.Some? && s.lock.value in s.sessions && s.pending == map[s.lock.value := c]
                    && s.running == Payload(c, s.lock.value, s.sessions[s.lock.value])
    ensures forall i | i in states[|actions|].sessions ::
              && (states[|actions|].sessions[i].phase == Finished ==> i in Committers(e, actions))
              && (i in Committers(e, actions) && states[|actions|].sessions[i].phase.Failed?
                  <==> WasLost(states, actions, i))
  {
    hide Steps, Init, SessionOk, PendingOk, Serial, LockOk;
    RunSerial(e, states, actions);
    RunIds(e, states, actions);
    RunLock(e, states, actions);
    SerialMeans(e, states[|actions|], states[0].running, Committers(e, actions));
    forall i | i in states[|actions|].sessions
      ensures i in Committers(e, actions) && states[|actions|].sessions[i].phase.Failed?
         <==> WasLost(states, actions, i)
    {
      FailedCommitters(e, states, actions, i);
    }
  }

  lemma SerialMeans(e: Env, s: Sys, c0: Config, done: seq<nat>)
    requires LockOk(s) && SessionsOk(e, s) && PendingOk(s) && Serial(s, c0, done)
    ensures Present(done, s.sessions) && (forall k, l | 0 <= k < l < |done| :: done[k] != done[l])
    ensures forall i | i in s.sessions && s.sessions[i].phase == Finished :: i in done
    ensures var c := Applied(c0, done, s.sessions);
            if s.pending == map[] then s.running == c
            else s.lock.Some? && s.lock.value in s.sessions && s.pending == map[s.lock.value := c]
                 && s.running == Payload(c, s.lock.value, s.sessions[s.lock.value])
  {
    if s.pending != map[] {
      var i :| i in s.pending;
      assert SessionOk(e, s.running, s.candidate, s.pending, i, s.sessions[i]);
    }
  }

  // ----- No two creates get the same id ----------------------------------------------------------

  predicate IsCreate(sessions: map<nat, Session>, i: nat) {
    i in sessions && sessions[i].job == Create
  }

  /** A change that takes the interface away. */
  predicate Removes(sessions: map<nat, Session>, i: nat, id: string) {
    i in sessions && sessions[i].job.Change? && id in sessions[i].job.drops && id !in sessions[i].job.sets
  }

  /** Each create took an id of the range that was free when its turn came. */
  predicate TookFree(e: Env, c: Config, done: seq<nat>, sessions: map<nat, Session>) {
    Present(done, sessions) && forall l | 0 <= l < |done| && IsCreate(sessions, done[l]) ::
        TookFreeAt(e, c, done, sessions, l)
  }

  predicate TookFreeAt(e: Env, c: Config, done: seq<nat>, sessions: map<nat, Session>, l: nat)
    requires Present(done, sessions) && l < |done|
  {
    var id := sessions[done[l]].id;
    assert Present(done[..l], sessions);
    id.Some? && id.value in e.range && id.value !in Applied(c, done[..l], sessions)
  }

  /** What is in the datastore stays there until a change removes it. */
  lemma {:induction false} StaysTaken(c: Config, done: seq<nat>, sessions: map<nat, Session>, k: nat, id: string)
    requires Present(done, sessions) && k < |done| && IsCreate(sessions, done[k]) && sessions[done[k]].id == Some(id)
    requires forall m | k < m < |done| :: !Removes(sessions, done[m], id)
    ensures id in Applied(c, done, sessions)
    decreases |done|
  {
    var n := |done| - 1;
    assert Present(done[..n], sessions);
    if k < n {
      StaysTaken(c, done[..n], sessions, k, id);
      assert !Removes(sessions, done[n], id);
    }
  }

  lemma TookFreeSame(e: Env, c: Config, done: seq<nat>, sessions: map<nat, Session>, sessions': map<nat, Session>)
    requires TookFree(e, c, done, sessions) && Present(done, sessions')
    requires forall i | i in done :: sessions[i].job == sessions'[i].job && sessions[i].id == sessions'[i].id
    ensures TookFree(e, c, done, sessions')
  {
    forall l | 0 <= l < |done| && IsCreate(sessions', done[l]) ensures TookFreeAt(e, c, done, sessions', l) {
      assert done[l] in done && TookFreeAt(e, c, done, sessions, l);
      assert Present(done[..l], sessions) && Present(done[..l], sessions');
      AppliedSame(c, done[..l], sessions, sessions');
    }
  }

  lemma TookFreeMore(e: Env, c: Config, done: seq<nat>, sessions: map<nat, Session>, i: nat)
    requires TookFree(e, c, done, sessions) && i in sessions
    requires IsCreate(sessions, i) ==>
               sessions[i].id.Some? && sessions[i].id.value in e.range
                   && sessions[i].id.value !in Applied(c, done, sessions)
    ensures TookFree(e, c, done + [i], sessions)
  {
    var done' := done + [i];
    forall l | 0 <= l < |done'| && IsCreate(sessions, done'[l]) ensures TookFreeAt(e, c, done', sessions, l) {
      if l < |done| {
        assert TookFreeAt(e, c, done, sessions, l) && done'[..l] == done[..l];
      } else {
        assert done'[..l] == done;
      }
    }
  }

  /** At its commit the id of a create is free in what the committed sessions made. */
  lemma FreeAtCommit(e: Env, s: Sys, i: nat, step: Step, s': Sys, c: Config, done: seq<nat>)
    requires LockOk(s) && SessionsOk(e, s) && PendingOk(s) && Serial(s, c, done)
    requires i in s.sessions && Steps(e, s, i, step, s') && Committing(e, By(i, step)) && s.sessions[i].job == Create
    ensures s.sessions[i].id.Some? && s.sessions[i].id.value in e.range
    ensures Present(done, s.sessions) && s.sessions[i].id.value !in Applied(c, done, s.sessions)
  {
    assert SessionOk(e, s.running, s.candidate, s.pending, i, s.sessions[i]);
    assert s.pending != map[] ==> exists o :: o in s.pending;
  }

  lemma TookFreeStep(e: Env, s: Sys, a: Action, s': Sys, c: Config, done: seq<nat>)
    requires LockOk(s) && SessionsOk(e, s) && PendingOk(s) && Serial(s, c, done) && Does(e, s, a, s')
    requires TookFree(e, c, done, s.sessions)
    ensures TookFree(e, c, done + if Committing(e, a) then [a.i] else [], s'.sessions)
  {
    hide SessionOk, TookFree;
    if a.Timeout? {
      assert done + [] == done && s'.sessions == s.sessions;
    } else {
      StepMoves(e, s, a.i, a.step, s');
      DoneStep(e, s, a.i, a.step, s', done);
      if Committing(e, a) && s.sessions[a.i].job == Create {
        FreeAtCommit(e, s, a.i, a.step, s', c, done);
      }
      TookFreeMoves(e, s, a.i, a.step, s', c, done);
    }
  }

  lemma TookFreeMoves(e: Env, s: Sys, i: nat, step: Step, s': Sys, c: Config, done: seq<nat>)
    requires DoneOk(s, done) && i in s.sessions && Steps(e, s, i, step, s') && OnlyMoves(s, i, s')
    requires TookFree(e, c, done, s.sessions)
    requires i in done ==> s.sessions[i].job == s'.sessions[i].job && s.sessions[i].id == s'.sessions[i].id
    requires Committing(e, By(i, step)) && s.sessions[i].job == Create ==>
               s.sessions[i].id.Some? && s.sessions[i].id.value in e.range && Present(done, s.sessions)
               && s.sessions[i].id.value !in Applied(c, done, s.sessions)
    ensures TookFree(e, c, done + if Committing(e, By(i, step)) then [i] else [], s'.sessions)
  {
    hide TookFreeAt;
    assert Present(done, s.sessions) && Present(done, s'.sessions);
    TookFreeSame(e, c, done, s.sessions, s'.sessions);
    if Committing(e, By(i, step)) {
      AppliedSame(c, done, s.sessions, s'.sessions);
      TookFreeMore(e, c, done, s'.sessions, i);
    } else {
      assert done + [] == done;
    }
  }

  lemma {:induction false} RunTookFree(e: Env, states: seq<Sys>, actions: seq<Action>)
    requires Run(e, states, actions) && BenignRun(states, actions)
    ensures TookFree(e, states[0].running, Committers(e, actions), states[|actions|].sessions)
    decreases |actions|
  {
    hide Steps, LockOk, SessionOk, PendingOk, Benign, Committing, Serial, TookFreeAt;
    var n := |actions|;
    if n > 0 {
      RunTookFree(e, states[..n], actions[..n - 1]);
      RunSerial(e, states[..n], actions[..n - 1]);
      RunIds(e, states[..n], actions[..n - 1]);
      RunLock(e, states[..n], actions[..n - 1]);
      TookFreeStep(e, states[n - 1], actions[n - 1], states[n], states[0].running, Committers(e, actions[..n - 1]));
    }
  }

  /** Two committed creates of one run get the same id only if a change that was committed
      between them removed it; so never where no committed change removes an id of the range. */
  lemma IdsAreUnique(e: Env, states: seq<Sys>, actions: seq<Action>, k: nat, l: nat)
    requires Run(e, states, actions) && BenignRun(states, actions)
    requires var done, sessions := Committers(e, actions), states[|actions|].sessions;
             k < l < |done| && IsCreate(sessions, done[k]) && IsCreate(sessions, done[l])
    ensures var done, sessions := Committers(e, actions), states[|actions|].sessions;
            && sessions[done[k]].id.Some? && sessions[done[k]].id.value in e.range
            && sessions[done[l]].id.Some? && sessions[done[l]].id.value in e.range
            && (sessions[done[k]].id == sessions[done[l]].id ==>
                  exists m | k < m < l :: Removes(sessions, done[m], sessions[done[k]].id.value))
            && ((forall m, id | 0 <= m < |done| && id in e.range :: !Removes(sessions, done[m], id)) ==>
                  sessions[done[k]].id != sessions[done[l]].id)
  {
    RunTookFree(e, states, actions);
    var done, sessions := Committers(e, actions), states[|actions|].sessions;
    assert TookFreeAt(e, states[0].running, done, sessions, k) && TookFreeAt(e, states[0].running, done, sessions, l);
    var id := sessions[done[k]].id.value;
    if sessions[done[l]].id == Some(id) && forall m | k < m < l :: !Removes(sessions, done[m], id) {
      assert Present(done[..l], sessions);
      StaysTaken(states[0].running, done[..l], sessions, k, id);
      assert false;
    }
  }

  predicate SucceededCreate(s: Sys, i: nat) {
    IsCreate(s.sessions, i) && (s.sessions[i].phase == Committed || s.sessions[i].phase == Finished)
  }

  /** Hence two successful creates never share an id, however the sessions interleave, unless a
      committed change removed it in between. */
  lemma SuccessfulIdsDiffer(e: Env, states: seq<Sys>, actions: seq<Action>, i: nat, j: nat)
    requires Run(e, states, actions) && BenignRun(states, actions) && i != j
    requires SucceededCreate(states[|actions|], i) && SucceededCreate(states[|actions|], j)
    ensures states[|actions|].sessions[i].id.Some? && states[|actions|].sessions[j].id.Some?
    ensures states[|actions|].sessions[i].id == states[|actions|].sessions[j].id ==>
              exists m | m in Committers(e, actions) ::
                Removes(states[|actions|].sessions, m, states[|actions|].sessions[i].id.value)
  {
    RunSerial(e, states, actions);
    var done := Committers(e, actions);
    assert i in done && j in done;
    var k :| 0 <= k < |done| && done[k] == i;
    var l :| 0 <= l < |done| && done[l] == j;
    if k < l { IdsAreUnique(e, states, actions, k, l); } else { IdsAreUnique(e, states, actions, l, k); }
  }

  // ----- Failed sessions, whatever the others do -----------------------------------------------

  /** The steps of a session after which it may report failure although it wrote. */
  predicate Loses(s: Sys, a: Action, i: nat) {
    && a.By? && a.i == i && i in s.sessions
    && (((a.step.Raise? || a.step.Drop?) && s.sessions[i].phase.Confirming?)
        || (a.step.Drop? && s.sessions[i].phase.Committed?))
  }

  /** Before its first write, and for good when it fails, a session has written nothing. */
  predicate Unwritten(me: Session) {
    me.phase.Confirming? || me.phase.Committed? || me.phase.Finished? || me.writes == 0
  }

  lemma UnwrittenStep(e: Env, s: Sys, a: Action, s': Sys, i: nat)
    requires Does(e, s, a, s') && i in s.sessions && Unwritten(s.sessions[i]) && !Loses(s, a, i)
    ensures i in s'.sessions && Unwritten(s'.sessions[i])
  {
    if a.By? && a.i == i {
      MyUnwrittenStep(e, s, i, a.step, s');
    } else {
      OthersStay(e, s, a, s', i);
    }
  }

  lemma MyUnwrittenStep(e: Env, s: Sys, i: nat, step: Step, s': Sys)
    requires i in s.sessions && Steps(e, s, i, step, s') && Unwritten(s.sessions[i]) && !Loses(s, By(i, step), i)
    ensures i in s'.sessions && Unwritten(s'.sessions[i])
  {
    hide Stores;
  }

  /** A session that reports failure without such a step never wrote, whatever goes wrong in
      the other sessions. */
  lemma {:induction false} FailedWroteNothing(e: Env, states: seq<Sys>, actions: seq<Action>, i: nat)
    requires Run(e, states, actions) && i in states[|actions|].sessions
    requires forall k | 0 <= k < |actions| :: !Loses(states[k], actions[k], i)
    ensures Unwritten(states[|actions|].sessions[i])
    ensures states[|actions|].sessions[i].phase.Failed? ==> states[|actions|].sessions[i].writes == 0
    decreases |actions|
  {
    hide Steps, Loses;
    var n := |actions|;
    if n > 0 {
      assert Does(e, states[n - 1], actions[n - 1], states[n]);
      SameSessions(e, states[n - 1], actions[n - 1], states[n], i);
      FailedWroteNothing(e, states[..n], actions[..n - 1], i);
      UnwrittenStep(e, states[n - 1], actions[n - 1], states[n], i);
    }
  }

  // ----- What the two faults break, from every state they can happen in -------------------------

  /** One more step of a run. */
  lemma Extend(e: Env, states: seq<Sys>, actions: seq<Action>, i: nat, step: Step)
    returns (states': seq<Sys>, actions': seq<Action>)
    requires Run(e, states, actions) && i in states[|actions|].sessions && Enabled(e, states[|actions|], i, step)
    ensures Run(e, states', actions') && |actions'| == |actions| + 1
    ensures states'[|actions'|] == Next(e, states[|actions|], i, step)
    ensures states <= states'
    ensures Committers(e, actions') == Committers(e, actions) + if Committing(e, By(i, step)) then [i] else []
  {
    states' := states + [Next(e, states[|actions|], i, step)];
    actions' := actions + [By(i, step)];
    assert actions'[..|actions|] == actions;
    forall k | 0 <= k < |actions'| ensures Does(e, states'[k], actions'[k], states'[k + 1]) {
      if k < |actions| {
        assert states'[k] == states[k] && states'[k + 1] == states[k + 1] && actions'[k] == actions[k];
      }
    }
  }

  /** Session `i` runs its create to the end, undisturbed. What it computes for the marker, `y`,
      is not used when an earlier attempt has filled the id in. */
  lemma Creates(e: Env, states0: seq<Sys>, actions0: seq<Action>, i: nat, y: string)
    returns (states: seq<Sys>, actions: seq<Action>)
    requires Run(e, states0, actions0) && i in states0[|actions0|].sessions && Idle(e, states0[|actions0|])
    requires states0[|actions0|].sessions[i].phase == Ready && states0[|actions0|].sessions[i].job == Create
    requires y in e.range && y !in states0[|actions0|].running
    ensures Run(e, states, actions) && |actions| > |actions0| && states0 <= states
    ensures var s0, s := states0[|actions0|], states[|actions|];
            && Idle(e, s) && OnlyMoves(s0, i, s) && s.sessions[i].phase == Finished
            && s.running == s0.running[if s0.sessions[i].id.Some? then s0.sessions[i].id.value else y := i]
  {
    hide Run;
    states, actions := Edits(e, states0, actions0, i, y);
    if e.candidate && e.confirmed {
      states, actions := Extend(e, states, actions, i, ConfirmedCommit);
    }
    if e.candidate {
      states, actions := Extend(e, states, actions, i, Commit);
    }
    states, actions := Extend(e, states, actions, i, Unlock);
  }

  lemma Edits(e: Env, states0: seq<Sys>, actions0: seq<Action>, i: nat, y: string)
    returns (states: seq<Sys>, actions: seq<Action>)
    requires Run(e, states0, actions0) && i in states0[|actions0|].sessions && Idle(e, states0[|actions0|])
    requires states0[|actions0|].sessions[i].phase == Ready && states0[|actions0|].sessions[i].job == Create
    requires y in e.range && y !in states0[|actions0|].running
    ensures Run(e, states, actions) && |actions| > |actions0| && states0 <= states
    ensures var s0, s := states0[|actions0|], states[|actions|];
            var x := if s0.sessions[i].id.Some? then s0.sessions[i].id.value else y;
            && OnlyMoves(s0, i, s) && s.sessions[i].phase == (if e.candidate then Edited else Committed)
            && if e.candidate then s.running == s0.running && s.candidate == s0.running[x := i]
                else s.running == s0.running[x := i]
  {
    hide Run;
    states, actions := Extend(e, states0, actions0, i, Lock);
    states, actions := Extend(e, states, actions, i, Allocate(y));
    if e.candidate {
      states, actions := Extend(e, states, actions, i, Discard);
    }
    states, actions := Extend(e, states, actions, i, Edit);
  }

  /** The denied session unlocks and is ready to try again, with its id. */
  lemma DeniedInside(e: Env, states0: seq<Sys>, actions0: seq<Action>, i: nat, zero: bool)
    returns (states: seq<Sys>, actions: seq<Action>)
    requires Run(e, states0, actions0) && i in states0[|actions0|].sessions
    requires Enabled(e, states0[|actions0|], i, Raise(true, zero))
               && states0[|actions0|].sessions[i].attempt + 1 < MAX_ATTEMPTS
    ensures Run(e, states, actions) && |actions| > |actions0| && states0 <= states
    ensures var s0, s := states0[|actions0|], states[|actions|];
            && s.lock.None? && (zero ==> Idle(e, s)) && OnlyMoves(s0, i, s) && s.running == s0.running
            && s.sessions[i] == s0.sessions[i].(phase := Ready, attempt := s0.sessions[i].attempt + 1)
  {
    hide Run;
    states, actions := Extend(e, states0, actions0, i, Raise(true, zero));
    states, actions := Extend(e, states, actions, i, Unlock);
    states, actions := Extend(e, states, actions, i, Retry);
  }

  /** A lock that is denied only because of a leftover in the candidate clears it. */
  lemma Clears(e: Env, states0: seq<Sys>, actions0: seq<Action>, j: nat)
    returns (states: seq<Sys>, actions: seq<Action>)
    requires Run(e, states0, actions0) && j in states0[|actions0|].sessions && states0[|actions0|].lock.None?
    requires states0[|actions0|].sessions[j].phase == Ready
    requires Idle(e, states0[|actions0|]) || states0[|actions0|].sessions[j].attempt + 1 < MAX_ATTEMPTS
    ensures Run(e, states, actions) && |actions| >= |actions0| && states0 <= states
    ensures var s0, s := states0[|actions0|], states[|actions|];
            && Idle(e, s) && OnlyMoves(s0, j, s) && s.running == s0.running
            && s.sessions[j] == s0.sessions[j].(attempt := s.sessions[j].attempt)
  {
    states, actions := states0, actions0;
    if !Idle(e, states[|actions|]) {
      states, actions := Extend(e, states, actions, j, Lock);
      states, actions := Extend(e, states, actions, j, Retry);
    }
  }

  /** A create inside the lock with a free id filled in, which may still be denied something. */
  predicate HasId(e: Env, s: Sys, i: nat, x: string, zero: bool) {
    && i in s.sessions && Enabled(e, s, i, Raise(true, zero)) && s.sessions[i].attempt + 1 < MAX_ATTEMPTS
    && s.sessions[i].job == Create && s.sessions[i].id == Some(x) && x in e.range && x !in s.running
  }

  /** Another create about to ask for the lock; it may first have to clear the candidate. */
  predicate Waits(s: Sys, j: nat, zero: bool) {
    && j in s.sessions && s.sessions[j].job == Create && s.sessions[j].phase == Ready && s.sessions[j].id.None?
    && (zero || s.sessions[j].attempt + 1 < MAX_ATTEMPTS)
  }

  predicate Took(s: Sys, i: nat, x: string) {
    i in s.sessions && s.sessions[i].phase == Finished && x in s.running && s.running[x] == i
  }

  /** From every reachable state: when a create that has its id filled in is answered
      `lock-denied` inside the lock, with an attempt left, another create waiting and another
      id free, the run can go on so that the other create finishes with that id and this one
      then takes the live id over. */
  lemma StaleIdReused(e: Env, states0: seq<Sys>, actions0: seq<Action>, i: nat, j: nat, x: string, y: string,
      zero: bool)
    returns (states: seq<Sys>, actions: seq<Action>, k: nat)
    requires Run(e, states0, actions0) && i != j && y != x
    requires HasId(e, states0[|actions0|], i, x, zero) && Waits(states0[|actions0|], j, zero)
    requires y in e.range && y !in states0[|actions0|].running
    ensures Run(e, states, actions) && states0 <= states && |actions0| < k < |actions|
    ensures Took(states[k], j, x) && Took(states[|actions|], i, x)
    ensures j in states[|actions|].sessions && states[|actions|].sessions[j].phase == Finished
  {
    hide Next, Enabled;
    states, actions := DeniedInside(e, states0, actions0, i, zero);
    states, actions := Clears(e, states, actions, j);
    states, actions := Creates(e, states, actions, j, x);
    k := |actions|;
    var before := states;
    states, actions := Creates(e, states, actions, i, y);
    assert states[k] == before[k];
  }

  /** Session `i` has a confirmed commit pending and `j` is waiting, a create with an id to take. */
  predicate Unconfirmed(e: Env, s: Sys, i: nat, j: nat, y: string) {
    && i != j && i in s.sessions && s.sessions[i].phase == Confirming && i in s.pending
    && j in s.sessions && s.sessions[j].phase == Ready
    && (s.sessions[j].job == Create ==> y in e.range && y !in s.running)
  }

  /** Session `j` gets the lock and copies what is running, unconfirmed, into its candidate. */
  lemma OtherCopies(e: Env, states0: seq<Sys>, actions0: seq<Action>, i: nat, j: nat, y: string, denied: bool,
      zero: bool)
    returns (states: seq<Sys>, actions: seq<Action>)
    requires e.candidate && Run(e, states0, actions0) && Unconfirmed(e, states0[|actions0|], i, j, y)
    requires states0[|actions0|].candidate == states0[|actions0|].running
    ensures Run(e, states, actions) && states0 <= states && Committers(e, actions) == Committers(e, actions0)
    ensures var s0, s := states0[|actions0|], states[|actions|];
            Overtaken(s, i, j) && s.running == s0.running && s.candidate == s0.running && s.pending == s0.pending
  {
    hide Run;
    states, actions := Extend(e, states0, actions0, i, Raise(denied, zero));
    states, actions := Extend(e, states, actions, i, Unlock);
    states, actions := Extend(e, states, actions, j, Lock);
    states, actions := Extend(e, states, actions, j, Allocate(y));
    states, actions := Extend(e, states, actions, j, Discard);
  }

  /** From every state such runs reach: an error between the confirmed commit and its
      confirmation is undone by the device only when the session closes, which is after the
      unlock. With another session waiting the run can go on so that session `i` reports
      failure and is no committer, yet its payload is there to stay, below that of `j`. And
      `j` writes over the datastore the device went back to, with an id that was free before. */
  lemma UnconfirmedChangeSurvives(e: Env, states0: seq<Sys>, actions0: seq<Action>, i: nat, j: nat, y: string,
                                  denied: bool, zero: bool)
    returns (states: seq<Sys>, actions: seq<Action>)
    requires Run(e, states0, actions0) && BenignRun(states0, actions0)
    requires Unconfirmed(e, states0[|actions0|], i, j, y)
    ensures Run(e, states, actions) && states0 <= states && |actions| > 2
    ensures Committers(e, actions) == Committers(e, actions0) + [j] && i !in Committers(e, actions)
    ensures FailedBelow(states[|actions|], i, j) && Present(Committers(e, actions0), states0[|actions0|].sessions)
    ensures var s0, s := states0[|actions0|], states[|actions|];
            && var c := Applied(states0[0].running, Committers(e, actions0), s0.sessions);
               && s.running == Payload(Payload(c, i, s0.sessions[i]), j, s.sessions[j])
               && states[|actions| - 2].running == c
  {
    RunSerial(e, states0, actions0);
    RunIds(e, states0, actions0);
    var s0 := states0[|actions0|];
    assert SessionOk(e, s0.running, s0.candidate, s0.pending, i, s0.sessions[i]);
    states, actions := OtherCopies(e, states0, actions0, i, j, y, denied, zero);
    states, actions := OtherKeeps(e, states, actions, i, j);
  }

  /** Session `i` is out of the lock with its confirmed commit pending, `j` in it. */
  predicate Overtaken(s: Sys, i: nat, j: nat) {
    && i != j && i in s.sessions && j in s.sessions && i in s.pending && s.lock == Some(j)
    && (s.sessions[i].phase == Closing || s.sessions[i].phase.Denied?) && s.sessions[j].phase == Discarded
  }

  predicate FailedBelow(s: Sys, i: nat, j: nat) {
    i in s.sessions && j in s.sessions && s.sessions[i].phase == Failed(false) && s.sessions[j].phase == Committed
  }

  /** Session `i` ends and takes its commit with it; `j` commits what it copied. */
  lemma OtherKeeps(e: Env, states0: seq<Sys>, actions0: seq<Action>, i: nat, j: nat)
    returns (states: seq<Sys>, actions: seq<Action>)
    requires e.candidate && e.confirmed && Run(e, states0, actions0)
    requires Overtaken(states0[|actions0|], i, j)
    ensures Run(e, states, actions) && states0 <= states && |actions| > 2
    ensures Committers(e, actions) == Committers(e, actions0) + [j]
    ensures FailedBelow(states[|actions|], i, j)
    ensures states[|actions|].running == Payload(states0[|actions0|].candidate, j, states[|actions|].sessions[j])
    ensures states[|actions| - 2].running == states0[|actions0|].pending[i]
  {
    states, actions := Reverts(e, states0, actions0, i);
    var before := states;
    states, actions := Confirms(e, states, actions, j);
    assert states[|actions0| + 1] == before[|actions0| + 1];
  }

  /** The rest of a change once the candidate has been discarded. */
  lemma Confirms(e: Env, states0: seq<Sys>, actions0: seq<Action>, j: nat)
    returns (states: seq<Sys>, actions: seq<Action>)
    requires e.candidate && e.confirmed && Run(e, states0, actions0)
    requires j in states0[|actions0|].sessions && states0[|actions0|].sessions[j].phase == Discarded
    ensures Run(e, states, actions) && states0 <= states && |actions| == |actions0| + 3
    ensures Committers(e, actions) == Committers(e, actions0) + [j]
    ensures var s0, s := states0[|actions0|], states[|actions|];
            && OnlyMoves(s0, j, s) && s.sessions[j].phase == Committed
            && s.running == Payload(s0.candidate, j, s.sessions[j]) && states[|actions| - 2].running == s0.running
  {
    states, actions := Extend(e, states0, actions0, j, Edit);
    hide Run;
    var before := states;
    states, actions := Extend(e, states, actions, j, ConfirmedCommit);
    states, actions := Extend(e, states, actions, j, Commit);
    assert states[|actions| - 2] == before[|actions| - 2];
  }

  lemma Reverts(e: Env, states0: seq<Sys>, actions0: seq<Action>, i: nat)
    returns (states: seq<Sys>, actions: seq<Action>)
    requires Run(e, states0, actions0) && i in states0[|actions0|].sessions && i in states0[|actions0|].pending
    requires var s := states0[|actions0|];
             (s.sessions[i].phase == Closing || s.sessions[i].phase.Denied?) && s.lock != Some(i)
    ensures Run(e, states, actions) && states0 <= states && |actions| == |actions0| + 1
    ensures Committers(e, actions) == Committers(e, actions0)
    ensures var s0 := states0[|actions0|];
            states[|actions|] == Reverted(s0, i).(sessions := s0.sessions[i := s0.sessions[i].(phase := Failed(false))])
  {
    states, actions := Extend(e, states0, actions0, i, if states0[|actions0|].sessions[i].phase == Closing then Close
        else Drop);
  }
}
