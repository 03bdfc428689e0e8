/** The operator login over the lockout and the TOTP replay store. Password and code checks are opaque: an
    attempt carries their verdicts, and store faults. */
module ConsoleLogin {
  import opened Wrappers
  import opened LoginLockout

  datatype Attempt = Attempt(
    user: User,
    now: int,
    credentialReadable: bool,
    passwordMatches: bool,
    codeStep: Option<int>,
    replayReadable: bool,
    replayWritable: bool,
    sessionStored: bool)

  datatype Answer = Granted | InvalidCredentials | Unavailable | StoreError

  /** history is every lockout operation performed, consumed every TOTP step accepted, both in order. */
  datatype Auth = Auth(failures: Failures, last: map<User, int>, consumed: seq<int>, sessions: nat, history: seq<Op>)

  const START := Auth(map[], map[], [], 0, [])

  datatype Policy = Policy(max: nat, window: int, operator: User)

  predicate StepIsFresh(s: Auth, p: Policy, step: int) {
    step > if p.operator in s.last then s.last[p.operator] else 0
  }

  function Did(s: Auth, p: Policy, op: Op): Auth {
    s.(failures := Apply(s.failures, p.window, op), history := s.history + [op])
  }

  /** Consume the step, clear the strikes, mint the session. */
  function Accept(s: Auth, p: Policy, a: Attempt, step: int): (Auth, Answer) {
    if !a.replayWritable then (s, StoreError)
    else
      var used := s.(last := s.last[p.operator := step], consumed := s.consumed + [step]);
      var cleared := Did(used, p, Reset(a.user, a.now));
      if a.sessionStored then (cleared.(sessions := cleared.sessions + 1), Granted) else (cleared, StoreError)
  }

  function Attempted(s: Auth, p: Policy, a: Attempt): (Auth, Answer) {
    var asked := Did(s, p, Query(a.user, a.now));
    if IsLocked(s.failures, p.max, a.user, a.now) then (asked, InvalidCredentials)
    else if !a.credentialReadable then (asked, Unavailable)
    else if a.user != p.operator || !a.passwordMatches then (Did(asked, p, Strike(a.user, a.now)), InvalidCredentials)
    else if a.codeStep.None? || !a.replayReadable || !StepIsFresh(asked, p, a.codeStep.value)
    then (Did(asked, p, Strike(a.user, a.now)), InvalidCredentials)
    else Accept(asked, p, a, a.codeStep.value)
  }

  function Logins(s: Auth, p: Policy, attempts: seq<Attempt>): Auth {
    if attempts == [] then s
    else Attempted(Logins(s, p, attempts[..|attempts| - 1]), p, attempts[|attempts| - 1]).0
  }

  // ---- the service object ----

  class ConsoleAuthService {
    const operator: User
    const lockout: Lockout
    var last: map<User, int>
    var consumed: seq<int>
    var sessions: nat
    ghost var history: seq<Op>

    constructor (operator: User, max: int, window: int)
      ensures View() == START && fresh(lockout) && this.operator == operator
      ensures lockout.max == (if max > 0 then max else 5) && lockout.window == (if window > 0 then window else 900)
    {
      this.operator := operator;
      lockout := new Lockout(max, window);
      last, consumed, sessions, history := map[], [], 0, [];
    }

    ghost function View(): Auth
      reads this, lockout
    {
      Auth(lockout.failures, last, consumed, sessions, history)
    }

    ghost function Rules(): Policy {
      Policy(lockout.max, lockout.window, operator)
    }

    method Login(a: Attempt) returns (answer: Answer)
      modifies this, lockout
      ensures (View(), answer) == Attempted(old(View()), Rules(), a)
    {
      var locked := lockout.Locked(a.user, a.now);
      history := history + [Query(a.user, a.now)];
      if locked { return InvalidCredentials; }
      if !a.credentialReadable { return Unavailable; }
      if a.user != operator || !a.passwordMatches {
        lockout.Strike(a.user, a.now);
        history := history + [Strike(a.user, a.now)];
        return InvalidCredentials;
      }
      var isFresh := false;
      if a.codeStep.Some? && a.replayReadable {
        var used := if operator in last then last[operator] else 0;
        isFresh := a.codeStep.value > used;
      }
      if !isFresh {
        lockout.Strike(a.user, a.now);
        history := history + [Strike(a.user, a.now)];
        return InvalidCredentials;
      }
      if !a.replayWritable { return StoreError; }
      last := last[operator := a.codeStep.value];
      consumed := consumed + [a.codeStep.value];
      lockout.Reset(a.user, a.now);
      history := history + [Reset(a.user, a.now)];
      if !a.sessionStored { return StoreError; }
      sessions := sessions + 1;
      return Granted;
    }
  }

  // ---- when a login is granted ----

  /** The password, the code and its freshness: all that must hold of an attempt for it to be let in. */
  predicate Proves(s: Auth, p: Policy, a: Attempt) {
    && a.user == p.operator && a.passwordMatches
    && a.codeStep.Some? && a.replayReadable && a.codeStep.value > if p.operator in s.last then s.last[p.operator] else 0
  }

  /** Granted exactly when the user is not locked, the stores work, and every factor is proved. */
  lemma GrantedExactly(s: Auth, p: Policy, a: Attempt)
    ensures Attempted(s, p, a).1.Granted? <==>
      (&& !(a.user in s.failures && a.now <= s.failures[a.user].until && s.failures[a.user].count >= p.max)
       && a.credentialReadable && Proves(s, p, a) && a.replayWritable && a.sessionStored)
  {
  }

  /** Whatever the answer, the whole new state: a locked, unreadable or unwritable attempt leaves no strike; a
      failed check of an unlocked user adds exactly one; a proved one consumes its step and clears them. */
  lemma AttemptLeaves(s: Auth, p: Policy, a: Attempt)
    ensures var (s', answer) := Attempted(s, p, a); var asked := s.history + [Query(a.user, a.now)];
      if IsLocked(s.failures, p.max, a.user, a.now) then
        answer == InvalidCredentials && s' == s.(failures := s'.failures, history := asked)
      else if !a.credentialReadable then
        answer == Unavailable && s' == s.(failures := s'.failures, history := asked)
      else if !Proves(s, p, a) then
        && answer == InvalidCredentials && s' == s.(failures := s'.failures, history := asked + [Strike(a.user, a.now)])
        && a.user in s'.failures && s'.failures[a.user].until == a.now + p.window
        && s'.failures[a.user].count ==
             if a.user in s.failures && a.now <= s.failures[a.user].until then s.failures[a.user].count + 1 else 1
      else if !a.replayWritable then
        answer == StoreError && s' == s.(failures := s'.failures, history := asked)
      else
        && answer == (if a.sessionStored then Granted else StoreError)
        && s' == Auth(s'.failures, s.last[p.operator := a.codeStep.value], s.consumed + [a.codeStep.value],
                      if a.sessionStored then s.sessions + 1 else s.sessions, asked + [Reset(a.user, a.now)])
        && a.user !in s'.failures
    ensures forall u :: u != a.user ==>
      (u in Attempted(s, p, a).0.failures <==> u in s.failures) && (u in s.failures ==> Attempted(s, p, a).0.failures[u] == s.failures[u])
  {
  }

  // ---- a lock is never extended from inside ----

  lemma LockedAttemptChangesNothing(s: Auth, p: Policy, a: Attempt, user: User)
    requires user in s.failures && s.failures[user].count >= p.max
    requires a.user == user ==> a.now <= s.failures[user].until
    ensures var (s', answer) := Attempted(s, p, a);
      && user in s'.failures && s'.failures[user] == s.failures[user]
      && (a.user == user ==> answer.InvalidCredentials? && s'.sessions == s.sessions && s'.consumed == s.consumed)
  {
  }

  /** However many attempts are made while a user is locked, by anyone, the lock ends when it was going to
      end, and none of that user's attempts gets in. */
  lemma {:induction false} AttemptsNeverExtendALock(s: Auth, p: Policy, attempts: seq<Attempt>, user: User)
    requires user in s.failures && s.failures[user].count >= p.max
    requires forall i :: 0 <= i < |attempts| && attempts[i].user == user ==> attempts[i].now <= s.failures[user].until
    ensures user in Logins(s, p, attempts).failures && Logins(s, p, attempts).failures[user] == s.failures[user]
    ensures forall i :: 0 <= i < |attempts| && attempts[i].user == user ==>
      Attempted(Logins(s, p, attempts[..i]), p, attempts[i]).1 == InvalidCredentials
  {
    if attempts != [] {
      var init, a := attempts[..|attempts| - 1], attempts[|attempts| - 1];
      AttemptsNeverExtendALock(s, p, init, user);
      LockedAttemptChangesNothing(Logins(s, p, init), p, a, user);
      forall i | 0 <= i < |attempts| && attempts[i].user == user
        ensures Attempted(Logins(s, p, attempts[..i]), p, attempts[i]).1 == InvalidCredentials
      {
        if i < |init| {
          assert init[..i] == attempts[..i] && init[i] == attempts[i];
        }
      }
    }
  }

  // ---- one-time codes are used once ----

  ghost predicate StepsIncrease(s: Auth, p: Policy) {
    && (forall i, j :: 0 <= i < j < |s.consumed| ==> s.consumed[i] < s.consumed[j])
    && (s.consumed != [] ==> p.operator in s.last && s.last[p.operator] == s.consumed[|s.consumed| - 1])
  }

  /** In every run of logins the accepted TOTP steps strictly increase, so no code is accepted twice, and
      each session cost one of them. */
  lemma {:induction false} ConsumedStepsStrictlyIncrease(p: Policy, attempts: seq<Attempt>)
    ensures StepsIncrease(Logins(START, p, attempts), p)
    ensures Logins(START, p, attempts).sessions <= |Logins(START, p, attempts).consumed|
  {
    if attempts != [] {
      ConsumedStepsStrictlyIncrease(p, attempts[..|attempts| - 1]);
    }
  }

  // ---- the lock follows the full history of the login run ----

  ghost predicate OrderedAttempts(attempts: seq<Attempt>) {
    forall i, j :: 0 <= i <= j < |attempts| ==> attempts[i].now <= attempts[j].now
  }

  /** The map is the replay of the recorded history, whose times stay in order up to the latest attempt. */
  ghost predicate Faithful(s: Auth, p: Policy, latest: int) {
    && s.failures == Replay(s.history, p.window)
    && Ordered(s.history)
    && (forall i :: 0 <= i < |s.history| ==> s.history[i].now <= latest)
  }

  lemma DidIsFaithful(s: Auth, p: Policy, op: Op, latest: int)
    requires Faithful(s, p, latest) && latest <= op.now
    ensures Faithful(Did(s, p, op), p, op.now)
  {
  }

  lemma LoginIsFaithful(s: Auth, p: Policy, a: Attempt, latest: int)
    requires Faithful(s, p, latest) && latest <= a.now
    ensures Faithful(Attempted(s, p, a).0, p, a.now)
  {
    DidIsFaithful(s, p, Query(a.user, a.now), latest);
    var asked := Did(s, p, Query(a.user, a.now));
    DidIsFaithful(asked, p, Strike(a.user, a.now), a.now);
    DidIsFaithful(asked, p, Reset(a.user, a.now), a.now);
  }

  lemma {:induction false} RunIsFaithful(p: Policy, attempts: seq<Attempt>)
    requires OrderedAttempts(attempts)
    ensures attempts == [] ==> Logins(START, p, attempts) == START
    ensures attempts != [] ==> Faithful(Logins(START, p, attempts), p, attempts[|attempts| - 1].now)
  {
    if attempts != [] {
      var init, a := attempts[..|attempts| - 1], attempts[|attempts| - 1];
      RunIsFaithful(p, init);
      var latest := if init == [] then a.now else init[|init| - 1].now;
      assert latest <= a.now;
      LoginIsFaithful(Logins(START, p, init), p, a, latest);
    }
  }

  /** In every login run at non-decreasing times, an attempt is turned away by the lock exactly when the
      user's recorded strikes since their last success say so. */
  lemma LoginsLockByFullHistory(p: Policy, attempts: seq<Attempt>, user: User, now: int)
    requires OrderedAttempts(attempts) && p.max > 0
    requires attempts != [] ==> attempts[|attempts| - 1].now <= now
    ensures var s := Logins(START, p, attempts);
      IsLocked(s.failures, p.max, user, now) <==> LockedByHistory(s.history, p.max, p.window, user, now)
  {
    RunIsFaithful(p, attempts);
    var s := Logins(START, p, attempts);
    LazyMapRefinesHistory(s.history, p.max, p.window, user, now);
  }

  ghost predicate Bounded(s: Auth, p: Policy, user: User) {
    Run(StrikesSinceReset(s.history, user), p.window) <= p.max
  }

  lemma LoginKeepsBound(s: Auth, p: Policy, a: Attempt, latest: int, user: User)
    requires p.max > 0 && Faithful(s, p, latest) && latest <= a.now && Bounded(s, p, user)
    ensures Bounded(Attempted(s, p, a).0, p, user)
  {
    var query := Query(a.user, a.now);
    var asked := Did(s, p, query);
    DidIsFaithful(s, p, query, latest);
    StrikesSnoc(s.history, query, p.window, user);
    StrikesSnoc(asked.history, Strike(a.user, a.now), p.window, user);
    StrikesSnoc(asked.history, Reset(a.user, a.now), p.window, user);
    MapAgreesWithHistory(asked.history, p.window, user);
  }

  /** Guessing is bounded: in no run are there more than max failed checks of one user in a row, each within
      the window of the one before. */
  lemma {:induction false} FailuresInARowAreBounded(p: Policy, attempts: seq<Attempt>, user: User)
    requires OrderedAttempts(attempts) && p.max > 0
    ensures !Streak(StrikesSinceReset(Logins(START, p, attempts).history, user), p.max + 1, p.window)
  {
    var s := Logins(START, p, attempts);
    if attempts != [] {
      var init, a := attempts[..|attempts| - 1], attempts[|attempts| - 1];
      var before := Logins(START, p, init);
      FailuresInARowAreBounded(p, init, user);
      RunIsLongestStreak(StrikesSinceReset(before.history, user), p.window, p.max + 1);
      RunIsFaithful(p, init);
      LoginKeepsBound(before, p, a, if init == [] then a.now else init[|init| - 1].now, user);
    }
    RunIsLongestStreak(StrikesSinceReset(s.history, user), p.window, p.max + 1);
  }
}
