/** One-time codes: how many guesses a phone's tokens can face over a whole run.

    Times are milliseconds of one clock. `hash` stands for the digest of a phone and a
    code and is left uninterpreted. Among live tokens the query takes one of the latest;
    which one it takes on a tie is left open. */
module Otp {
  import opened Wrappers

  type Time = nat

  const MAX_VERIFY_ATTEMPTS: nat := 5
  const DEFAULT_COOLDOWN: Time := 60 * 1000
  const DEFAULT_EXPIRY: Time := 5 * 60 * 1000

  datatype Config = Config(cooldown: Time, expiry: Time)

  /** A user row; its id is its place in the table. A deleted account has given up its phone. */
  datatype User = User(phone: Option<string>, banned: bool)
  datatype Token = Token(userId: nat, phone: string, digest: string, createdAt: Time, expiresAt: Time,
                         attempts: nat, used: bool)

  /** A comparison of a submitted code with the code of a token. */
  datatype Attempt = Attempt(token: nat, at: Time, matched: bool)

  /** The user rows, the token rows, and every comparison made so far. */
  datatype Auth = Auth(users: seq<User>, tokens: seq<Token>, log: seq<Attempt>)

  datatype Error = Unauthorized | BadRequest | NotFound
  datatype Session = Session(userId: nat, phone: Option<string>)

  // --- Requests ---

  predicate IsLive(t: Token, phone: string, now: Time) {
    t.phone == phone && !t.used && now < t.expiresAt
  }

  predicate IsRecent(c: Config, t: Token, phone: string, now: Time) {
    t.phone == phone && now < t.createdAt + c.cooldown
  }

  predicate CoolingDown(c: Config, tokens: seq<Token>, phone: string, now: Time) {
    exists i :: 0 <= i < |tokens| && IsRecent(c, tokens[i], phone, now)
  }

  /** `pick` is a possible answer of the query for the latest live token. */
  predicate IsLatest(tokens: seq<Token>, phone: string, now: Time, pick: Option<nat>) {
    match pick
    case None => forall i :: 0 <= i < |tokens| ==> !IsLive(tokens[i], phone, now)
    case Some(k) =>
      && k < |tokens| && IsLive(tokens[k], phone, now)
      && forall i :: 0 <= i < |tokens| && IsLive(tokens[i], phone, now) ==> tokens[i].createdAt <= tokens[k].createdAt
  }

  /** The user row with a phone. */
  function UserOf(users: seq<User>, phone: string): (k: Option<nat>)
    ensures k.Some? ==> k.value < |users| && users[k.value].phone == Some(phone)
  {
    if users == [] then None
    else if users[|users| - 1].phone == Some(phone) then Some(|users| - 1)
    else UserOf(users[..|users| - 1], phone)
  }

  lemma {:induction false} NoUser(users: seq<User>, phone: string)
    ensures UserOf(users, phone).None? <==> forall i :: 0 <= i < |users| ==> users[i].phone != Some(phone)
  {
    if users == [] {
    } else {
      NoUser(users[..|users| - 1], phone);
    }
  }

  lemma NewUser(users: seq<User>, phone: string)
    ensures UserOf(users + [User(Some(phone), false)], phone) == Some(|users|)
  {
  }

  /** The user row is there before any check is made. */
  function WithUser(users: seq<User>, phone: string): seq<User> {
    if UserOf(users, phone).Some? then users else users + [User(Some(phone), false)]
  }

  function Issue(c: Config, s: Auth, phone: string, digest: string, now: Time): Auth {
    var users := WithUser(s.users, phone);
    var id := UserOf(users, phone).value;
    if users[id].banned || CoolingDown(c, s.tokens, phone, now) then s.(users := users)
    else s.(users := users, tokens := s.tokens + [Token(id, phone, digest, now, now + c.expiry, 0, false)])
  }

  function Verify(s: Auth, digest: string, now: Time, pick: Option<nat>): Auth
    requires pick.Some? ==> pick.value < |s.tokens|
  {
    if pick.None? then s else
    var k, t := pick.value, s.tokens[pick.value];
    if t.attempts >= MAX_VERIFY_ATTEMPTS then s.(tokens := s.tokens[k := t.(used := true)])
    else if t.digest != digest then
      s.(tokens := s.tokens[k := t.(attempts := t.attempts + 1)], log := s.log + [Attempt(k, now, false)])
    else
      s.(tokens := s.tokens[k := t.(used := true)], log := s.log + [Attempt(k, now, true)])
  }

  // --- Runs ---

  datatype Event =
    | IssueAt(phone: string, digest: string, at: Time)
    | VerifyAt(phone: string, digest: string, at: Time, pick: Option<nat>)
    | Suspend(user: nat, banned: bool)
    | Delete(user: nat)

  predicate Happens(c: Config, s: Auth, clock: Time, e: Event, v: Auth, later: Time) {
    match e
    case IssueAt(phone, digest, at) => clock <= at == later && v == Issue(c, s, phone, digest, at)
    case VerifyAt(phone, digest, at, pick) =>
      clock <= at == later && IsLatest(s.tokens, phone, at, pick) && v == Verify(s, digest, at, pick)
    case Suspend(user, banned) =>
      later == clock && user < |s.users| && v == s.(users := s.users[user := s.users[user].(banned := banned)])
    case Delete(user) =>
      later == clock && user < |s.users| && v == s.(users := s.users[user := s.users[user].(phone := None)])
  }

  /** A state with the time of the last request. */
  datatype Moment = Moment(auth: Auth, clock: Time)

  ghost predicate IsRun(c: Config, ms: seq<Moment>, es: seq<Event>) {
    && |ms| == |es| + 1 && ms[0] == Moment(Auth([], [], []), 0)
    && forall i :: 0 <= i < |es| ==> Happens(c, ms[i].auth, ms[i].clock, es[i], ms[i + 1].auth, ms[i + 1].clock)
  }

  predicate EndsIn(ms: seq<Moment>, m: Moment) {
    ms != [] && ms[|ms| - 1] == m
  }

  ghost predicate Reaches(c: Config, s: Auth, clock: Time) {
    exists ms, es :: IsRun(c, ms, es) && EndsIn(ms, Moment(s, clock))
  }

  // --- Counting ---

  /** How often a token was compared, and how often it matched. */
  function Hits(log: seq<Attempt>, k: nat): nat {
    if log == [] then 0 else Hits(log[..|log| - 1], k) + (if log[|log| - 1].token == k then 1 else 0)
  }

  function Matches(log: seq<Attempt>, k: nat): nat {
    if log == [] then 0
    else Matches(log[..|log| - 1], k) + (if log[|log| - 1].token == k && log[|log| - 1].matched then 1 else 0)
  }

  predicate TokenInv(c: Config, t: Token, hits: nat, matches: nat, clock: Time) {
    && t.createdAt <= clock && t.expiresAt == t.createdAt + c.expiry
    && t.attempts <= MAX_VERIFY_ATTEMPTS
    && hits == t.attempts + matches
    && matches <= 1 && (matches == 1 ==> t.used && t.attempts < MAX_VERIFY_ATTEMPTS)
  }

  predicate AttemptInv(tokens: seq<Token>, a: Attempt, clock: Time) {
    a.token < |tokens| && a.at <= clock && tokens[a.token].createdAt <= a.at < tokens[a.token].expiresAt
  }

  ghost predicate CountsInv(c: Config, s: Auth, clock: Time) {
    forall k :: 0 <= k < |s.tokens| ==> TokenInv(c, s.tokens[k], Hits(s.log, k), Matches(s.log, k), clock)
  }

  ghost predicate LogInv(s: Auth, clock: Time) {
    forall i :: 0 <= i < |s.log| ==> AttemptInv(s.tokens, s.log[i], clock)
  }

  predicate DistinctPhones(users: seq<User>) {
    forall i, j :: 0 <= i < j < |users| && users[i].phone.Some? ==> users[i].phone != users[j].phone
  }

  ghost predicate RowsInv(c: Config, s: Auth) {
    && (forall i, j :: 0 <= i < j < |s.tokens| && s.tokens[i].phone == s.tokens[j].phone ==>
          s.tokens[i].createdAt + c.cooldown <= s.tokens[j].createdAt)
    && (forall k :: 0 <= k < |s.tokens| ==> s.tokens[k].userId < |s.users|)
    && DistinctPhones(s.users)
  }

  ghost predicate Inv(c: Config, s: Auth, clock: Time) {
    CountsInv(c, s, clock) && LogInv(s, clock) && RowsInv(c, s)
  }

  lemma {:induction false} NeverHit(log: seq<Attempt>, k: nat)
    requires forall i :: 0 <= i < |log| ==> log[i].token != k
    ensures Hits(log, k) == 0 && Matches(log, k) == 0
  {
    if log == [] {
    } else {
      NeverHit(log[..|log| - 1], k);
    }
  }

  lemma UsersKept(users: seq<User>, phone: string)
    requires DistinctPhones(users)
    ensures DistinctPhones(WithUser(users, phone)) && |users| <= |WithUser(users, phone)|
  {
    NoUser(users, phone);
    hide UserOf;
  }

  lemma IssueRows(c: Config, s: Auth, phone: string, digest: string, now: Time)
    requires RowsInv(c, s)
    ensures RowsInv(c, Issue(c, s, phone, digest, now))
  {
    UsersKept(s.users, phone);
    hide WithUser, UserOf, DistinctPhones;
  }

  /** Issuing appends one token at most. */
  lemma IssueAppends(c: Config, s: Auth, phone: string, digest: string, now: Time)
    ensures var v := Issue(c, s, phone, digest, now);
            && v.log == s.log && |s.tokens| <= |v.tokens| <= |s.tokens| + 1 && v.tokens[..|s.tokens|] == s.tokens
            && (|v.tokens| > |s.tokens| ==> TokenInv(c, v.tokens[|s.tokens|], 0, 0, now))
  {
    hide CoolingDown, UserOf, WithUser;
  }

  lemma IssueKeeps(c: Config, s: Auth, clock: Time, phone: string, digest: string, now: Time)
    requires Inv(c, s, clock) && clock <= now
    ensures Inv(c, Issue(c, s, phone, digest, now), now)
  {
    var v := Issue(c, s, phone, digest, now);
    IssueRows(c, s, phone, digest, now);
    IssueAppends(c, s, phone, digest, now);
    hide Issue, RowsInv, Hits, Matches, TokenInv, AttemptInv;
    forall k | 0 <= k < |v.tokens| ensures TokenInv(c, v.tokens[k], Hits(v.log, k), Matches(v.log, k), now) {
      if k < |s.tokens| {
        assert v.tokens[k] == s.tokens[k] by { assert v.tokens[..|s.tokens|][k] == v.tokens[k]; }
        LaterToken(c, s.tokens[k], Hits(s.log, k), Matches(s.log, k), clock, now);
      } else {
        InRange(s, clock);
        NeverHit(s.log, k);
      }
    }
    forall i | 0 <= i < |v.log| ensures AttemptInv(v.tokens, v.log[i], now) {
      LaterAttempt(s.tokens, v.tokens, s.log[i], clock, now);
    }
  }

  lemma InRange(s: Auth, clock: Time)
    requires LogInv(s, clock)
    ensures forall i :: 0 <= i < |s.log| ==> s.log[i].token < |s.tokens|
  {
    assert forall i :: 0 <= i < |s.log| ==> AttemptInv(s.tokens, s.log[i], clock);
  }

  lemma LaterToken(c: Config, t: Token, hits: nat, matches: nat, clock: Time, now: Time)
    requires TokenInv(c, t, hits, matches, clock) && clock <= now
    ensures TokenInv(c, t, hits, matches, now)
  {
  }

  lemma LaterAttempt(a: seq<Token>, b: seq<Token>, x: Attempt, clock: Time, now: Time)
    requires AttemptInv(a, x, clock) && clock <= now && |a| <= |b|
    requires forall i :: 0 <= i < |a| ==> b[i].createdAt == a[i].createdAt && b[i].expiresAt == a[i].expiresAt
    ensures AttemptInv(b, x, now)
  {
  }

  /** A comparison adds to the counts of its own token. */
  lemma OneMore(log: seq<Attempt>, a: Attempt, k: nat)
    ensures Hits(log + [a], k) == Hits(log, k) + (if a.token == k then 1 else 0)
    ensures Matches(log + [a], k) == Matches(log, k) + (if a.token == k && a.matched then 1 else 0)
  {
    assert (log + [a])[..|log|] == log;
  }

  lemma VerifyToken(c: Config, t: Token, hits: nat, matches: nat, clock: Time, now: Time, matched: bool)
    requires TokenInv(c, t, hits, matches, clock) && clock <= now && !t.used
    ensures t.attempts >= MAX_VERIFY_ATTEMPTS ==> TokenInv(c, t.(used := true), hits, matches, now)
    ensures t.attempts < MAX_VERIFY_ATTEMPTS ==>
              TokenInv(c, if matched then t.(used := true) else t.(attempts := t.attempts + 1),
                       hits + 1, matches + (if matched then 1 else 0), now)
  {
  }

  lemma VerifyCounts(c: Config, s: Auth, clock: Time, digest: string, now: Time, pick: Option<nat>)
    requires CountsInv(c, s, clock) && clock <= now
            && (pick.Some? ==> pick.value < |s.tokens| && !s.tokens[pick.value].used)
    ensures CountsInv(c, Verify(s, digest, now, pick), now)
  {
    hide Hits, Matches, TokenInv;
    var v := Verify(s, digest, now, pick);
    forall k | 0 <= k < |v.tokens| ensures TokenInv(c, v.tokens[k], Hits(v.log, k), Matches(v.log, k), now) {
      assert TokenInv(c, s.tokens[k], Hits(s.log, k), Matches(s.log, k), clock);
      LaterToken(c, s.tokens[k], Hits(s.log, k), Matches(s.log, k), clock, now);
      if pick.Some? {
        var matched := s.tokens[pick.value].digest == digest;
        OneMore(s.log, Attempt(pick.value, now, matched), k);
        if k == pick.value {
          VerifyToken(c, s.tokens[k], Hits(s.log, k), Matches(s.log, k), clock, now, matched);
        }
      }
    }
  }

  /** Verifying changes no row but the picked one, and adds one comparison at most. */
  lemma VerifyShape(s: Auth, digest: string, now: Time, pick: Option<nat>)
    requires pick.Some? ==> pick.value < |s.tokens|
    ensures var v := Verify(s, digest, now, pick);
            && v.users == s.users && |v.tokens| == |s.tokens|
            && (forall k :: 0 <= k < |s.tokens| ==>
                  && v.tokens[k].phone == s.tokens[k].phone && v.tokens[k].userId == s.tokens[k].userId
                  && v.tokens[k].createdAt == s.tokens[k].createdAt && v.tokens[k].expiresAt == s.tokens[k].expiresAt)
            && (v.log == s.log
                || (pick.Some? && |v.log| == |s.log| + 1 && v.log[..|s.log|] == s.log
                    && v.log[|s.log|].token == pick.value && v.log[|s.log|].at == now))
  {
  }

  lemma VerifyLogs(s: Auth, clock: Time, phone: string, digest: string, now: Time, pick: Option<nat>)
    requires LogInv(s, clock) && clock <= now && IsLatest(s.tokens, phone, now, pick)
    requires forall k :: 0 <= k < |s.tokens| ==> s.tokens[k].createdAt <= now
    ensures LogInv(Verify(s, digest, now, pick), now)
  {
    var v := Verify(s, digest, now, pick);
    VerifyShape(s, digest, now, pick);
    hide Verify;
    forall i | 0 <= i < |v.log| ensures AttemptInv(v.tokens, v.log[i], now) {
      if i < |s.log| {
        assert v.log[i] == s.log[i] by { assert v.log[..|s.log|][i] == v.log[i]; }
        LaterAttempt(s.tokens, v.tokens, s.log[i], clock, now);
      }
    }
  }

  lemma VerifyRows(c: Config, s: Auth, digest: string, now: Time, pick: Option<nat>)
    requires RowsInv(c, s) && (pick.Some? ==> pick.value < |s.tokens|)
    ensures RowsInv(c, Verify(s, digest, now, pick))
  {
    VerifyShape(s, digest, now, pick);
    hide Verify, DistinctPhones;
  }

  lemma VerifyKeeps(c: Config, s: Auth, clock: Time, phone: string, digest: string, now: Time, pick: Option<nat>)
    requires Inv(c, s, clock) && clock <= now && IsLatest(s.tokens, phone, now, pick)
    ensures Inv(c, Verify(s, digest, now, pick), now)
  {
    assert forall k :: 0 <= k < |s.tokens| ==> TokenInv(c, s.tokens[k], Hits(s.log, k), Matches(s.log, k), clock);
    assert forall k :: 0 <= k < |s.tokens| ==> s.tokens[k].createdAt <= now;
    hide CountsInv, LogInv, RowsInv, TokenInv, Verify;
    VerifyCounts(c, s, clock, digest, now, pick);
    VerifyLogs(s, clock, phone, digest, now, pick);
    VerifyRows(c, s, digest, now, pick);
  }

  lemma {:induction false} RunInv(c: Config, ms: seq<Moment>, es: seq<Event>, i: nat)
    requires IsRun(c, ms, es) && i < |ms|
    ensures Inv(c, ms[i].auth, ms[i].clock)
  {
    hide Inv, Issue, Verify, IsLatest;
    if i == 0 {
      assert Inv(c, Auth([], [], []), 0) by { EmptyInv(c); }
    } else {
      RunInv(c, ms, es, i - 1);
      var s, clock := ms[i - 1].auth, ms[i - 1].clock;
      assert Happens(c, s, clock, es[i - 1], ms[i].auth, ms[i].clock);
      match es[i - 1]
      case IssueAt(phone, digest, at) => IssueKeeps(c, s, clock, phone, digest, at);
      case VerifyAt(phone, digest, at, pick) => VerifyKeeps(c, s, clock, phone, digest, at, pick);
      case Suspend(user, banned) => UserKeeps(c, s, clock, user, s.users[user].(banned := banned));
      case Delete(user) => UserKeeps(c, s, clock, user, s.users[user].(phone := None));
    }
  }

  lemma EmptyInv(c: Config)
    ensures Inv(c, Auth([], [], []), 0)
  {
  }

  lemma UserKeeps(c: Config, s: Auth, clock: Time, k: nat, user: User)
    requires Inv(c, s, clock) && k < |s.users| && (user.phone == s.users[k].phone || user.phone.None?)
    ensures Inv(c, s.(users := s.users[k := user]), clock)
  {
  }

  lemma ReachesInv(c: Config, s: Auth, clock: Time)
    requires Reaches(c, s, clock)
    ensures Inv(c, s, clock)
  {
    hide IsRun, Inv;
    var ms, es :| IsRun(c, ms, es) && EndsIn(ms, Moment(s, clock));
    RunInv(c, ms, es, |ms| - 1);
  }

  lemma Extend(c: Config, s: Auth, clock: Time, e: Event, v: Auth, later: Time)
    requires Reaches(c, s, clock) && Happens(c, s, clock, e, v, later)
    ensures Reaches(c, v, later)
  {
    hide Happens;
    var ms, es :| IsRun(c, ms, es) && EndsIn(ms, Moment(s, clock));
    var ns, fs := ms + [Moment(v, later)], es + [e];
    forall i | 0 <= i < |fs| ensures Happens(c, ns[i].auth, ns[i].clock, fs[i], ns[i + 1].auth, ns[i + 1].clock) {
      if i < |es| {
        assert Happens(c, ms[i].auth, ms[i].clock, es[i], ms[i + 1].auth, ms[i + 1].clock);
      }
    }
    assert IsRun(c, ns, fs) && EndsIn(ns, Moment(v, later));
  }

  // --- The bounds ---

  /** Over a whole run a token faces at most five comparisons and matches at most once. */
  lemma TokenBound(c: Config, s: Auth, clock: Time, k: nat)
    requires Reaches(c, s, clock)
    ensures Hits(s.log, k) <= 5 && Matches(s.log, k) <= 1
  {
    hide Reaches;
    ReachesInv(c, s, clock);
    if k >= |s.tokens| {
      assert forall i :: 0 <= i < |s.log| ==> AttemptInv(s.tokens, s.log[i], clock);
      NeverHit(s.log, k);
    }
  }

  /** Tokens of one phone are issued at least one cooldown apart. */
  lemma TokensApart(c: Config, s: Auth, clock: Time, i: nat, j: nat)
    requires Reaches(c, s, clock) && i < j < |s.tokens| && s.tokens[i].phone == s.tokens[j].phone
    ensures s.tokens[i].createdAt + c.cooldown <= s.tokens[j].createdAt
  {
    hide Reaches;
    ReachesInv(c, s, clock);
  }

  /** A token of `phone` that could be live at some moment of the window from `from` to `to`. */
  predicate Eligible(c: Config, t: Token, phone: string, from: Time, to: Time) {
    c.expiry > 0 && t.phone == phone && from < t.createdAt + c.expiry && t.createdAt <= to
  }

  function EligibleBefore(c: Config, tokens: seq<Token>, phone: string, from: Time, to: Time, n: nat): nat
    requires n <= |tokens|
  {
    if n == 0 then 0
    else EligibleBefore(c, tokens, phone, from, to, n - 1)
         + (if Eligible(c, tokens[n - 1], phone, from, to) then 1 else 0)
  }

  /** `k * d`, as a sum. */
  function Times(k: nat, d: nat): nat {
    if k == 0 then 0 else Times(k - 1, d) + d
  }

  /** The latest of `count` eligible tokens is at least `count - 1` cooldowns after the
      earliest moment at which any of them can have been issued. */
  lemma {:induction false} Spacing(c: Config, s: Auth, clock: Time, phone: string, from: Time, to: Time, n: nat)
    returns (last: nat)
    requires Inv(c, s, clock) && n <= |s.tokens| && EligibleBefore(c, s.tokens, phone, from, to, n) > 0
    ensures last < n && Eligible(c, s.tokens[last], phone, from, to)
    ensures Times(EligibleBefore(c, s.tokens, phone, from, to, n) - 1, c.cooldown) + from
              < s.tokens[last].createdAt + c.expiry
  {
    hide TokenInv, AttemptInv;
    var before := EligibleBefore(c, s.tokens, phone, from, to, n - 1);
    if !Eligible(c, s.tokens[n - 1], phone, from, to) {
      last := Spacing(c, s, clock, phone, from, to, n - 1);
    } else {
      last := n - 1;
      if before > 0 {
        var previous := Spacing(c, s, clock, phone, from, to, n - 1);
        assert s.tokens[previous].createdAt + c.cooldown <= s.tokens[last].createdAt;
      }
    }
  }

  /** The comparisons made for `phone` in a window. */
  function Guesses(tokens: seq<Token>, log: seq<Attempt>, phone: string, from: Time, to: Time): nat {
    if log == [] then 0
    else
      var a := log[|log| - 1];
      Guesses(tokens, log[..|log| - 1], phone, from, to)
      + (if from <= a.at <= to && a.token < |tokens| && tokens[a.token].phone == phone then 1 else 0)
  }

  /** The comparisons that fall on the eligible ones of the first `n` tokens. */
  function HitsBefore(c: Config, tokens: seq<Token>, log: seq<Attempt>, phone: string,
                      from: Time, to: Time, n: nat): nat
    requires n <= |tokens|
  {
    if n == 0 then 0
    else HitsBefore(c, tokens, log, phone, from, to, n - 1)
         + (if Eligible(c, tokens[n - 1], phone, from, to) then Hits(log, n - 1) else 0)
  }

  /** One more comparison falls on one token. */
  lemma {:induction false} HitsGrow(c: Config, tokens: seq<Token>, log: seq<Attempt>, a: Attempt, phone: string,
                                    from: Time, to: Time, n: nat)
    requires n <= |tokens|
    ensures HitsBefore(c, tokens, log + [a], phone, from, to, n) == HitsBefore(c, tokens, log, phone, from, to, n)
              + (if a.token < n && Eligible(c, tokens[a.token], phone, from, to) then 1 else 0)
  {
    assert (log + [a])[..|log|] == log;
    if n == 0 {
    } else {
      HitsGrow(c, tokens, log, a, phone, from, to, n - 1);
    }
  }

  /** Every comparison in the window falls on an eligible token. */
  lemma {:induction false} LogFallsOn(c: Config, tokens: seq<Token>, log: seq<Attempt>, clock: Time, phone: string,
                                      from: Time, to: Time)
    requires forall i :: 0 <= i < |log| ==> AttemptInv(tokens, log[i], clock)
    requires forall k :: 0 <= k < |tokens| ==> tokens[k].expiresAt == tokens[k].createdAt + c.expiry
    ensures Guesses(tokens, log, phone, from, to) <= HitsBefore(c, tokens, log, phone, from, to, |tokens|)
  {
    if log == [] {
    } else {
      var rest, a := log[..|log| - 1], log[|log| - 1];
      assert log == rest + [a];
      assert AttemptInv(tokens, a, clock);
      LogFallsOn(c, tokens, rest, clock, phone, from, to);
      HitsGrow(c, tokens, rest, a, phone, from, to, |tokens|);
    }
  }

  lemma GuessesAreHits(c: Config, s: Auth, clock: Time, phone: string, from: Time, to: Time)
    requires Inv(c, s, clock)
    ensures Guesses(s.tokens, s.log, phone, from, to) <= HitsBefore(c, s.tokens, s.log, phone, from, to, |s.tokens|)
  {
    assert forall k :: 0 <= k < |s.tokens| ==> TokenInv(c, s.tokens[k], Hits(s.log, k), Matches(s.log, k), clock);
    LogFallsOn(c, s.tokens, s.log, clock, phone, from, to);
  }

  lemma {:induction false} HitsBounded(c: Config, s: Auth, clock: Time, phone: string, from: Time, to: Time, n: nat)
    requires Inv(c, s, clock) && n <= |s.tokens|
    ensures HitsBefore(c, s.tokens, s.log, phone, from, to, n)
              <= MAX_VERIFY_ATTEMPTS * EligibleBefore(c, s.tokens, phone, from, to, n)
  {
    if n == 0 {
    } else {
      HitsBounded(c, s, clock, phone, from, to, n - 1);
      assert TokenInv(c, s.tokens[n - 1], Hits(s.log, n - 1), Matches(s.log, n - 1), clock);
    }
  }

  lemma {:induction false} TimesIs(k: nat, d: nat)
    ensures Times(k, d) == k * d
  {
    if k == 0 {
    } else {
      TimesIs(k - 1, d);
      assert k * d == (k - 1) * d + d;
    }
  }

  lemma Monotone(a: nat, b: nat, d: nat)
    requires a <= b
    ensures a * d <= b * d
  {
    assert b * d == a * d + (b - a) * d;
  }

  lemma Cancel(a: nat, b: nat, d: nat)
    requires a * d < b * d
    ensures a < b
  {
    if b <= a {
      Monotone(b, a, d);
    }
  }

  lemma Quotient(k: nat, d: nat, x: nat)
    requires d > 0 && Times(k, d) <= x
    ensures k <= x / d
  {
    TimesIs(k, d);
    var q := x / d;
    assert x < q * d + d == (q + 1) * d;
    Cancel(k, q + 1, d);
  }

  /** How many tokens, a cooldown apart, can be live at some moment of a window of length `width`. */
  function Slots(c: Config, width: nat): nat
    requires c.cooldown > 0
  {
    if c.expiry == 0 then 0 else (width + c.expiry - 1) / c.cooldown + 1
  }

  /** In every run, the comparisons made for one phone in any window are at most five for
      each token that fits into the window and one expiry before it, although a
      verification falls back to older live tokens. */
  lemma GuessBound(c: Config, s: Auth, clock: Time, phone: string, from: Time, to: Time)
    requires Reaches(c, s, clock) && c.cooldown > 0 && from <= to
    ensures Guesses(s.tokens, s.log, phone, from, to) <= MAX_VERIFY_ATTEMPTS * Slots(c, to - from)
    ensures Guesses(s.tokens, s.log, phone, from, to) <= MAX_VERIFY_ATTEMPTS * ((to - from + c.expiry) / c.cooldown + 1)
  {
    hide Reaches, Inv, Guesses, HitsBefore, EligibleBefore, Times, Slots;
    ReachesInv(c, s, clock);
    GuessesAreHits(c, s, clock, phone, from, to);
    HitsBounded(c, s, clock, phone, from, to, |s.tokens|);
    FewEligible(c, s, clock, phone, from, to);
  }

  lemma {:induction false} NoneEligible(c: Config, tokens: seq<Token>, phone: string, from: Time, to: Time, n: nat)
    requires c.expiry == 0 && n <= |tokens|
    ensures EligibleBefore(c, tokens, phone, from, to, n) == 0
  {
    if n == 0 {
    } else {
      NoneEligible(c, tokens, phone, from, to, n - 1);
    }
  }

  lemma SlotsCover(c: Config, width: nat, k: nat)
    requires c.cooldown > 0 && c.expiry > 0 && Times(k, c.cooldown) < width + c.expiry
    ensures k + 1 <= Slots(c, width) && k <= (width + c.expiry) / c.cooldown
  {
    Quotient(k, c.cooldown, width + c.expiry - 1);
    Quotient(k, c.cooldown, width + c.expiry);
  }

  lemma FewEligible(c: Config, s: Auth, clock: Time, phone: string, from: Time, to: Time)
    requires Inv(c, s, clock) && c.cooldown > 0 && from <= to
    ensures var count := EligibleBefore(c, s.tokens, phone, from, to, |s.tokens|);
            count <= Slots(c, to - from) && count <= (to - from + c.expiry) / c.cooldown + 1
  {
    hide Inv, EligibleBefore, Times;
    var count := EligibleBefore(c, s.tokens, phone, from, to, |s.tokens|);
    if c.expiry == 0 {
      NoneEligible(c, s.tokens, phone, from, to, |s.tokens|);
    } else if count > 0 {
      var last := Spacing(c, s, clock, phone, from, to, |s.tokens|);
      SlotsCover(c, to - from, count - 1);
    }
  }

  /** With the default settings: at most 325 comparisons an hour, and 25 at any one moment. */
  lemma DefaultBound(s: Auth, clock: Time, phone: string, from: Time, to: Time)
    requires Reaches(Config(DEFAULT_COOLDOWN, DEFAULT_EXPIRY), s, clock) && from <= to <= from + 60 * 60 * 1000
    ensures Guesses(s.tokens, s.log, phone, from, to) <= 325
    ensures from == to ==> Guesses(s.tokens, s.log, phone, from, to) <= 25
  {
    GuessBound(Config(DEFAULT_COOLDOWN, DEFAULT_EXPIRY), s, clock, phone, from, to);
  }

  predicate Knows(users: seq<User>, phone: string) {
    exists i :: 0 <= i < |users| && users[i].phone == Some(phone)
  }

  /** A phone leads to one user at most. */
  lemma OneHolder(c: Config, s: Auth, clock: Time, phone: string)
    requires Reaches(c, s, clock)
    ensures UserOf(s.users, phone).Some? <==> Knows(s.users, phone)
    ensures forall i :: 0 <= i < |s.users| && s.users[i].phone == Some(phone) ==> UserOf(s.users, phone) == Some(i)
  {
    hide Reaches, UserOf;
    NoUser(s.users, phone);
    ReachesInv(c, s, clock);
  }

  predicate IsSuspended(users: seq<User>, phone: string) {
    exists i :: 0 <= i < |users| && users[i].phone == Some(phone) && users[i].banned
  }

  /** A code was issued to the phone less than `wait` ago. */
  predicate HasRecentCode(tokens: seq<Token>, phone: string, now: Time, wait: Time) {
    exists i :: 0 <= i < |tokens| && tokens[i].phone == phone && now < tokens[i].createdAt + wait
  }

  predicate IsFresh(c: Config, users: seq<User>, t: Token, phone: string, digest: string, now: Time) {
    && t.userId < |users| && users[t.userId].phone == Some(phone)
    && t.phone == phone && t.digest == digest
    && t.createdAt == now && t.expiresAt == now + c.expiry
    && t.attempts == 0 && !t.used
  }

  /** An unknown phone gets a user row. A new code is issued unless the user is suspended or
      has had one too recently. */
  lemma IssueAnswers(c: Config, s: Auth, clock: Time, phone: string, digest: string, now: Time)
    requires Reaches(c, s, clock) && clock <= now
    ensures Reaches(c, Issue(c, s, phone, digest, now), now)
    ensures var v := Issue(c, s, phone, digest, now);
            && v.users == (if Knows(s.users, phone) then s.users else s.users + [User(Some(phone), false)])
            && v.log == s.log
            && if IsSuspended(s.users, phone) || HasRecentCode(s.tokens, phone, now, c.cooldown)
               then v.tokens == s.tokens
               else var t := Token(UserOf(v.users, phone).value, phone, digest, now, now + c.expiry, 0, false);
                    v.tokens == s.tokens + [t] && IsFresh(c, v.users, t, phone, digest, now)
    ensures var users := Issue(c, s, phone, digest, now).users;
            && UserOf(users, phone).Some?
            && (users[UserOf(users, phone).value].banned <==> IsSuspended(s.users, phone))
    ensures UserOf(s.users, phone).Some? <==> Knows(s.users, phone)
    ensures CoolingDown(c, s.tokens, phone, now) <==> HasRecentCode(s.tokens, phone, now, c.cooldown)
  {
    hide Reaches;
    OneHolder(c, s, clock, phone);
    Extend(c, s, clock, IssueAt(phone, digest, now), Issue(c, s, phone, digest, now), now);
    NewUser(s.users, phone);
    SameWait(c, s.tokens, phone, now);
    hide UserOf, CoolingDown, HasRecentCode;
  }

  lemma SameWait(c: Config, tokens: seq<Token>, phone: string, now: Time)
    ensures CoolingDown(c, tokens, phone, now) <==> HasRecentCode(tokens, phone, now, c.cooldown)
  {
    assert forall i :: 0 <= i < |tokens| ==>
      (IsRecent(c, tokens[i], phone, now) <==> tokens[i].phone == phone && now < tokens[i].createdAt + c.cooldown);
  }

  // --- Whose code it is ---

  /** Step `j` issued token `k`, to the user who then had the phone. */
  ghost predicate IssuedAt(c: Config, ms: seq<Moment>, es: seq<Event>, j: nat, k: nat, t: Token)
    requires IsRun(c, ms, es) && j < |es|
  {
    && es[j] == IssueAt(t.phone, t.digest, t.createdAt) && t.expiresAt == t.createdAt + c.expiry
    && |ms[j].auth.tokens| == k
    && t.userId < |ms[j + 1].auth.users| && ms[j + 1].auth.users[t.userId].phone == Some(t.phone)
  }

  ghost predicate IssuedBefore(c: Config, ms: seq<Moment>, es: seq<Event>, n: nat, k: nat, t: Token)
    requires IsRun(c, ms, es) && n <= |es|
  {
    exists j :: 0 <= j < n && IssuedAt(c, ms, es, j, k, t)
  }

  /** What a step does to the tokens: it keeps who they belong to, or appends one. */
  lemma TokensKept(c: Config, s: Auth, clock: Time, e: Event, v: Auth, later: Time)
    requires Happens(c, s, clock, e, v, later)
    ensures |s.tokens| <= |v.tokens| <= |s.tokens| + 1
    ensures forall k :: 0 <= k < |s.tokens| ==> SameOwner(s.tokens[k], v.tokens[k])
    ensures |v.tokens| > |s.tokens| ==>
              var t := v.tokens[|s.tokens|];
              && e == IssueAt(t.phone, t.digest, t.createdAt) && t.expiresAt == t.createdAt + c.expiry
              && t.userId < |v.users| && v.users[t.userId].phone == Some(t.phone)
  {
    hide CoolingDown;
  }

  predicate SameOwner(a: Token, b: Token) {
    && a.userId == b.userId && a.phone == b.phone && a.digest == b.digest
    && a.createdAt == b.createdAt && a.expiresAt == b.expiresAt
  }

  /** In every run each token was issued at an earlier step, to the user who had its phone then. */
  lemma {:induction false} TokensWereIssued(c: Config, ms: seq<Moment>, es: seq<Event>, n: nat, k: nat)
    requires IsRun(c, ms, es) && n <= |es| && k < |ms[n].auth.tokens|
    ensures IssuedBefore(c, ms, es, n, k, ms[n].auth.tokens[k])
  {
    hide Happens, IssuedAt;
    if n == 0 {
    } else {
      var s, v := ms[n - 1], ms[n];
      assert Happens(c, s.auth, s.clock, es[n - 1], v.auth, v.clock);
      TokensKept(c, s.auth, s.clock, es[n - 1], v.auth, v.clock);
      if k < |s.auth.tokens| {
        TokensWereIssued(c, ms, es, n - 1, k);
        var j :| 0 <= j < n - 1 && IssuedAt(c, ms, es, j, k, s.auth.tokens[k]);
        SameIssue(c, ms, es, j, k, s.auth.tokens[k], v.auth.tokens[k]);
      } else {
        NewIssue(c, ms, es, n - 1, k);
      }
    }
  }

  lemma SameIssue(c: Config, ms: seq<Moment>, es: seq<Event>, j: nat, k: nat, a: Token, b: Token)
    requires IsRun(c, ms, es) && j < |es| && IssuedAt(c, ms, es, j, k, a) && SameOwner(a, b)
    ensures IssuedAt(c, ms, es, j, k, b)
  {
    hide Happens;
  }

  lemma NewIssue(c: Config, ms: seq<Moment>, es: seq<Event>, j: nat, k: nat)
    requires IsRun(c, ms, es) && j < |es| && k == |ms[j].auth.tokens| < |ms[j + 1].auth.tokens|
    ensures IssuedAt(c, ms, es, j, k, ms[j + 1].auth.tokens[k])
  {
    assert Happens(c, ms[j].auth, ms[j].clock, es[j], ms[j + 1].auth, ms[j + 1].clock);
    hide Happens;
    TokensKept(c, ms[j].auth, ms[j].clock, es[j], ms[j + 1].auth, ms[j + 1].clock);
  }

  /** Step `i` grants a login with token `k`. */
  predicate Grants(s: Auth, v: Auth, k: nat) {
    |v.log| == |s.log| + 1 && v.log[|s.log|].token == k && v.log[|s.log|].matched
  }

  /** In every run a login is granted only with a code that was issued for the same phone less
      than one expiry before, and the user it is granted to had the phone then. */
  lemma LoginsWereIssued(c: Config, ms: seq<Moment>, es: seq<Event>, i: nat, k: nat)
    requires IsRun(c, ms, es) && i < |es| && Grants(ms[i].auth, ms[i + 1].auth, k)
    ensures es[i].VerifyAt? && k < |ms[i].auth.tokens|
    ensures var t := ms[i].auth.tokens[k];
            && IssuedBefore(c, ms, es, i, k, t)
            && t.phone == es[i].phone && t.digest == es[i].digest
            && t.createdAt <= es[i].at < t.createdAt + c.expiry
  {
    assert Happens(c, ms[i].auth, ms[i].clock, es[i], ms[i + 1].auth, ms[i + 1].clock);
    RunInv(c, ms, es, i);
    assert k < |ms[i].auth.tokens| && es[i].VerifyAt? && es[i].pick == Some(k) by { hide CountsInv, RowsInv; }
    var t := ms[i].auth.tokens[k];
    assert TokenInv(c, t, Hits(ms[i].auth.log, k), Matches(ms[i].auth.log, k), ms[i].clock);
    hide Inv, CountsInv, LogInv, RowsInv, Hits, Matches, Issue;
    TokensWereIssued(c, ms, es, i, k);
  }

  // --- The service ---

  class AuthService {
    const config: Config
    const hash: (string, string) -> string
    var users: seq<User>
    var tokens: seq<Token>
    ghost var log: seq<Attempt>
    ghost var clock: Time

    ghost function State(): Auth
      reads this
    {
      Auth(users, tokens, log)
    }

    ghost predicate Valid()
      reads this
    {
      Reaches(config, State(), clock)
    }

    constructor (config: Config, hash: (string, string) -> string)
      ensures Valid() && this.config == config && this.hash == hash && tokens == []
    {
      this.config, this.hash := config, hash;
      users, tokens, log, clock := [], [], [], 0;
      new;
      var ms, es: seq<Event> := [Moment(Auth([], [], []), 0)], [];
      assert IsRun(config, ms, es) && EndsIn(ms, Moment(State(), clock));
    }

    /** A new code for the user who has this phone: nobody has tried it, and it lasts as long
        as the settings say. */
    predicate IsFreshToken(t: Token, phone: string, code: string, now: Time)
      reads this
    {
      IsFresh(config, users, t, phone, hash(phone, code), now)
    }

    /** Issue a code to a phone. The user row is created even when no code is issued. */
    method IssueOtp(phone: string, code: string, now: Time) returns (r: Result<bool, Error>)
      requires Valid() && clock <= now
      modifies this`users, this`tokens, this`clock
      ensures Valid() && clock == now
      ensures State() == Issue(config, old(State()), phone, hash(phone, code), now)
      ensures r.Ok? ==> |tokens| == |old(tokens)| + 1 && IsFreshToken(tokens[|old(tokens)|], phone, code, now)
      ensures tokens[..|old(tokens)|] == old(tokens) && (r.Err? ==> tokens == old(tokens))
      ensures users == if Knows(old(users), phone) then old(users) else old(users) + [User(Some(phone), false)]
      ensures r == Err(Unauthorized) <==> IsSuspended(old(users), phone)
      ensures r == Err(BadRequest) <==>
                !IsSuspended(old(users), phone) && HasRecentCode(old(tokens), phone, now, config.cooldown)
      ensures r.Err? ==> r.error == Unauthorized || r.error == BadRequest
    {
      hide Reaches, Issue, UserOf, CoolingDown, IsSuspended, HasRecentCode, Knows, IsFresh;
      IssueAnswers(config, State(), clock, phone, hash(phone, code), now);
      clock := now;
      if UserOf(users, phone).None? { users := users + [User(Some(phone), false)]; }
      var id := UserOf(users, phone).value;
      if users[id].banned { return Err(Unauthorized); }
      var recent := FindRecent(phone, now);
      if recent { return Err(BadRequest); }
      tokens := tokens + [Token(id, phone, hash(phone, code), now, now + config.expiry, 0, false)];
      return Ok(true);
    }

    /** Whether a code was issued to this phone within the cooldown. */
    method FindRecent(phone: string, now: Time) returns (found: bool)
      ensures found <==> CoolingDown(config, tokens, phone, now)
    {
      for i := 0 to |tokens|
        invariant forall j :: 0 <= j < i ==> !IsRecent(config, tokens[j], phone, now)
      {
        if IsRecent(config, tokens[i], phone, now) { return true; }
      }
      return false;
    }

    /** A code for this phone that is neither used nor expired. */
    predicate IsUsable(k: nat, phone: string, now: Time)
      reads this
    {
      k < |tokens| && tokens[k].phone == phone && !tokens[k].used && now < tokens[k].expiresAt
    }

    /** The latest live token of a phone. */
    method FindLatest(phone: string, now: Time) returns (pick: Option<nat>)
      ensures IsLatest(tokens, phone, now, pick)
      ensures pick.None? ==> forall k: nat :: !IsUsable(k, phone, now)
      ensures pick.Some? ==>
                && IsUsable(pick.value, phone, now)
                && forall k: nat :: IsUsable(k, phone, now) ==> tokens[k].createdAt <= tokens[pick.value].createdAt
    {
      pick := None;
      for i := 0 to |tokens|
        invariant IsLatest(tokens[..i], phone, now, pick)
      {
        if IsLive(tokens[i], phone, now) && (pick.None? || tokens[pick.value].createdAt <= tokens[i].createdAt) {
          pick := Some(i);
        }
      }
      assert tokens[..|tokens|] == tokens;
    }

    /** Verify a code: it opens a session exactly when it is the code of the latest live
        token, that token has attempts left, and the user for whom the token was issued is
        not suspended. The session is that user's, whatever has become of the phone since. */
    method VerifyOtp(phone: string, code: string, now: Time)
      returns (r: Result<Session, Error>, ghost pick: Option<nat>)
      requires Valid() && clock <= now
      modifies this`tokens, this`log, this`clock
      ensures Valid() && clock == now
      ensures pick.Some? ==> pick.value < |old(tokens)| && old(tokens)[pick.value].userId < |users|
      ensures IsLatest(old(tokens), phone, now, pick) && State() == Verify(old(State()), hash(phone, code), now, pick)
      ensures r.Ok? <==>
                && pick.Some? && old(tokens)[pick.value].attempts < 5
                && old(tokens)[pick.value].digest == hash(phone, code) && !users[old(tokens)[pick.value].userId].banned
      ensures r.Ok? ==>
                var id := old(tokens)[pick.value].userId;
                r.value == Session(id, users[id].phone)
      ensures r.Err? ==> r.error == Unauthorized
      ensures pick.None? ==> tokens == old(tokens) && forall k: nat :: !old(IsUsable(k, phone, now))
      ensures pick.Some? ==>
                && old(IsUsable(pick.value, phone, now))
                && (forall k: nat :: old(IsUsable(k, phone, now)) ==>
                      old(tokens)[k].createdAt <= old(tokens)[pick.value].createdAt)
                && var t := old(tokens)[pick.value];
                   tokens == old(tokens)[pick.value :=
                     if t.attempts < 5 && t.digest != hash(phone, code) then t.(attempts := t.attempts + 1)
                     else t.(used := true)]
      ensures r.Ok? ==> |log| == |old(log)| + 1 && log[|old(log)|] == Attempt(pick.value, now, true)
    {
      var token := FindLatest(phone, now);
      pick := token;
      ReachesInv(config, State(), clock);
      Extend(config, State(), clock, VerifyAt(phone, hash(phone, code), now, token),
             Verify(State(), hash(phone, code), now, token), now);
      hide Reaches;
      clock := now;
      if token.None? { return Err(Unauthorized), pick; }
      var k := token.value;
      if tokens[k].attempts >= MAX_VERIFY_ATTEMPTS {
        tokens := tokens[k := tokens[k].(used := true)];
        return Err(Unauthorized), pick;
      }
      var matches := tokens[k].digest == hash(phone, code);
      log := log + [Attempt(k, now, matches)];
      if !matches {
        tokens := tokens[k := tokens[k].(attempts := tokens[k].attempts + 1)];
        return Err(Unauthorized), pick;
      }
      tokens := tokens[k := tokens[k].(used := true)];
      var id := tokens[k].userId;
      if users[id].banned { return Err(Unauthorized), pick; }
      return Ok(Session(id, users[id].phone)), pick;
    }

    /** Suspend or reinstate a user. */
    method SetBanned(user: nat, banned: bool) returns (r: Result<bool, Error>)
      requires Valid()
      modifies this`users
      ensures Valid()
      ensures r == if user < |old(users)| then Ok(banned) else Err(NotFound)
      ensures users == if user < |old(users)| then old(users)[user := old(users)[user].(banned := banned)]
                       else old(users)
    {
      if user >= |users| { return Err(NotFound); }
      var row := users[user].(banned := banned);
      Extend(config, State(), clock, Suspend(user, banned), State().(users := users[user := row]), clock);
      users := users[user := row];
      return Ok(banned);
    }

    /** Delete an account: its phone is free for a new one, its codes stay. */
    method DeleteMe(user: nat) returns (r: Result<bool, Error>)
      requires Valid()
      modifies this`users
      ensures Valid()
      ensures r == if user < |old(users)| then Ok(true) else Err(NotFound)
      ensures users == if user < |old(users)| then old(users)[user := old(users)[user].(phone := None)] else old(users)
    {
      if user >= |users| { return Err(NotFound); }
      var row := users[user].(phone := None);
      Extend(config, State(), clock, Delete(user), State().(users := users[user := row]), clock);
      users := users[user := row];
      return Ok(true);
    }
  }
}
