/** The bound on guesses is reached: a run that makes as many comparisons as it allows. */
module Guessing {
  import opened Wrappers
  import opened Otp

  const PHONE: string := "+94770000000"
  const RIGHT: string := "right"
  const WRONG: string := "wrong"

  /** When the token number `i` of a run that never waits longer than it must is issued. */
  function IssuedAt(c: Config, i: nat): Time {
    1 + Times(i, c.cooldown)
  }

  predicate IsRung(c: Config, t: Token, i: nat) {
    && t.phone == PHONE && t.digest == RIGHT
    && t.createdAt == IssuedAt(c, i) && t.expiresAt == IssuedAt(c, i) + c.expiry
  }

  /** `n` tokens of one phone, one cooldown apart. */
  predicate IsLadder(c: Config, s: Auth) {
    && s.users == (if s.tokens == [] then [] else [User(Some(PHONE), false)])
    && forall i :: 0 <= i < |s.tokens| ==> IsRung(c, s.tokens[i], i)
  }

  function Made(s: Auth, from: Time, to: Time): nat {
    Guesses(s.tokens, s.log, PHONE, from, to)
  }

  lemma {:induction false} TimesGrow(i: nat, j: nat, d: nat)
    requires i < j
    ensures Times(i, d) + d <= Times(j, d)
    decreases j
  {
    if i + 1 == j {
    } else {
      TimesGrow(i, j - 1, d);
    }
  }

  /** Comparisons are counted by the phones of the tokens, and those never change. */
  lemma {:induction false} SamePhones(a: seq<Token>, b: seq<Token>, log: seq<Attempt>, from: Time, to: Time)
    requires |a| <= |b| && forall i :: 0 <= i < |a| ==> a[i].phone == b[i].phone
    requires forall i :: 0 <= i < |log| ==> log[i].token < |a|
    ensures Guesses(a, log, PHONE, from, to) == Guesses(b, log, PHONE, from, to)
  {
    if log == [] {
    } else {
      SamePhones(a, b, log[..|log| - 1], from, to);
    }
  }

  lemma LogInRange(c: Config, s: Auth, clock: Time)
    requires Reaches(c, s, clock)
    ensures forall i :: 0 <= i < |s.log| ==> s.log[i].token < |s.tokens|
  {
    hide Reaches;
    ReachesInv(c, s, clock);
    assert forall i :: 0 <= i < |s.log| ==> AttemptInv(s.tokens, s.log[i], clock);
  }

  /** The next token of the ladder is issued as soon as the cooldown allows. */
  lemma Climb(c: Config, s: Auth, clock: Time, from: Time, to: Time) returns (v: Auth)
    requires Reaches(c, s, clock) && IsLadder(c, s) && clock <= IssuedAt(c, |s.tokens|)
    ensures Reaches(c, v, IssuedAt(c, |s.tokens|)) && IsLadder(c, v)
    ensures |v.tokens| == |s.tokens| + 1 && v.tokens[..|s.tokens|] == s.tokens && v.log == s.log
    ensures v.tokens[|s.tokens|].attempts == 0 && !v.tokens[|s.tokens|].used
    ensures Made(v, from, to) == Made(s, from, to)
  {
    hide Reaches, Times;
    var now := IssuedAt(c, |s.tokens|);
    forall i | 0 <= i < |s.tokens| ensures !IsRecent(c, s.tokens[i], PHONE, now) {
      assert IsRung(c, s.tokens[i], i);
      TimesGrow(i, |s.tokens|, c.cooldown);
    }
    assert !CoolingDown(c, s.tokens, PHONE, now);
    v := Issue(c, s, PHONE, RIGHT, now);
    Extend(c, s, clock, IssueAt(PHONE, RIGHT, now), v, now);
    assert v.users == [User(Some(PHONE), false)];
    LogInRange(c, s, clock);
    SamePhones(s.tokens, v.tokens, s.log, from, to);
  }

  /** One wrong code against the latest live token. */
  lemma Guess(c: Config, s: Auth, clock: Time, k: nat, at: Time, from: Time, to: Time) returns (v: Auth)
    requires Reaches(c, s, clock) && IsLadder(c, s) && clock <= at && from <= at <= to
    requires k < |s.tokens| && s.tokens[k].attempts < MAX_VERIFY_ATTEMPTS && IsLatest(s.tokens, PHONE, at, Some(k))
    ensures Reaches(c, v, at) && IsLadder(c, v) && Made(v, from, to) == Made(s, from, to) + 1
    ensures v.tokens == s.tokens[k := s.tokens[k].(attempts := s.tokens[k].attempts + 1)]
  {
    hide Reaches, Times;
    assert IsRung(c, s.tokens[k], k);
    v := Verify(s, WRONG, at, Some(k));
    Extend(c, s, clock, VerifyAt(PHONE, WRONG, at, Some(k)), v, at);
    LogInRange(c, s, clock);
    SamePhones(s.tokens, v.tokens, s.log, from, to);
    assert v.log[..|v.log| - 1] == s.log;
    forall i | 0 <= i < |v.tokens| ensures IsRung(c, v.tokens[i], i) {
      assert IsRung(c, s.tokens[i], i);
    }
  }

  /** Five of them. */
  lemma Hammer(c: Config, s: Auth, clock: Time, k: nat, at: Time, from: Time, to: Time) returns (v: Auth)
    requires Reaches(c, s, clock) && IsLadder(c, s) && clock <= at && from <= at <= to
    requires k < |s.tokens| && s.tokens[k].attempts == 0 && IsLatest(s.tokens, PHONE, at, Some(k))
    ensures Reaches(c, v, at) && IsLadder(c, v) && Made(v, from, to) == Made(s, from, to) + MAX_VERIFY_ATTEMPTS
    ensures v.tokens == s.tokens[k := s.tokens[k].(attempts := MAX_VERIFY_ATTEMPTS)]
  {
    hide Reaches, IsLadder, Made;
    v := s;
    var since: Time := clock;
    for n := 0 to MAX_VERIFY_ATTEMPTS
      invariant Reaches(c, v, since) && since <= at && IsLadder(c, v) && Made(v, from, to) == Made(s, from, to) + n
      invariant n > 0 ==> since == at
      invariant v.tokens == s.tokens[k := s.tokens[k].(attempts := n)]
    {
      v := Guess(c, v, since, k, at, from, to);
      since := at;
    }
  }

  /** The sixth try marks the token used, and the next older one takes its place. */
  lemma Retire(c: Config, s: Auth, k: nat, at: Time, from: Time, to: Time) returns (v: Auth)
    requires Reaches(c, s, at) && IsLadder(c, s) && from <= at <= to
    requires k < |s.tokens| && s.tokens[k].attempts >= MAX_VERIFY_ATTEMPTS && IsLatest(s.tokens, PHONE, at, Some(k))
    ensures Reaches(c, v, at) && IsLadder(c, v) && Made(v, from, to) == Made(s, from, to)
    ensures v.tokens == s.tokens[k := s.tokens[k].(used := true)]
  {
    hide Reaches, Times;
    v := Verify(s, WRONG, at, Some(k));
    Extend(c, s, at, VerifyAt(PHONE, WRONG, at, Some(k)), v, at);
    LogInRange(c, s, at);
    SamePhones(s.tokens, v.tokens, s.log, from, to);
    forall i | 0 <= i < |v.tokens| ensures IsRung(c, v.tokens[i], i) {
      assert IsRung(c, s.tokens[i], i);
    }
  }

  predicate Untouched(t: Token) {
    t.attempts == 0 && !t.used
  }

  /** As many tokens as can be issued one expiry before the window. */
  lemma {:induction false} Rise(c: Config, n: nat, from: Time, to: Time) returns (s: Auth, clock: Time)
    ensures Reaches(c, s, clock) && IsLadder(c, s) && |s.tokens| == n && Made(s, from, to) == 0
    ensures clock <= IssuedAt(c, n) && (n > 0 ==> clock == IssuedAt(c, n - 1))
    ensures forall i :: 0 <= i < n ==> Untouched(s.tokens[i])
  {
    if n == 0 {
      s, clock := Auth([], [], []), 0;
      var ms, es: seq<Event> := [Moment(s, 0)], [];
      assert IsRun(c, ms, es) && EndsIn(ms, Moment(s, 0));
    } else {
      hide Reaches;
      var r, since := Rise(c, n - 1, from, to);
      s := Climb(c, r, since, from, to);
      clock := IssuedAt(c, n - 1);
      TimesGrow(n - 1, n, c.cooldown);
      forall i | 0 <= i < n ensures Untouched(s.tokens[i]) {
        if i < n - 1 {
          assert s.tokens[i] == s.tokens[..n - 1][i];
        }
      }
    }
  }

  /** At one moment at which all of them are live, the newest `m` of the tokens that are left
      are exhausted one after the other. */
  lemma {:induction false} Exhaust(c: Config, s: Auth, clock: Time, m: nat, at: Time, from: Time, to: Time)
    returns (v: Auth)
    requires Reaches(c, s, clock) && IsLadder(c, s) && clock <= at && from <= at <= to && m <= |s.tokens|
    requires forall i :: 0 <= i < m ==> Untouched(s.tokens[i]) && s.tokens[i].createdAt <= at < s.tokens[i].expiresAt
    requires forall i :: m <= i < |s.tokens| ==> s.tokens[i].used
    ensures Reaches(c, v, if m == 0 then clock else at) && IsLadder(c, v) && |v.tokens| == |s.tokens|
    ensures Made(v, from, to) == Made(s, from, to) + MAX_VERIFY_ATTEMPTS * m
    decreases m
  {
    hide Reaches, Made;
    if m == 0 {
      v := s;
    } else {
      var k := m - 1;
      NewestIsLatest(c, s, k, at);
      var x := Hammer(c, s, clock, k, at, from, to);
      NewestIsLatest(c, x, k, at);
      var y := Retire(c, x, k, at, from, to);
      v := Exhaust(c, y, at, k, at, from, to);
    }
  }

  /** The newest token that is live is the latest one. */
  lemma NewestIsLatest(c: Config, s: Auth, k: nat, at: Time)
    requires IsLadder(c, s) && k < |s.tokens| && IsLive(s.tokens[k], PHONE, at)
    requires forall i :: k < i < |s.tokens| ==> s.tokens[i].used
    ensures IsLatest(s.tokens, PHONE, at, Some(k))
  {
    hide Times;
    assert IsRung(c, s.tokens[k], k);
    forall i | 0 <= i < |s.tokens| && IsLive(s.tokens[i], PHONE, at)
      ensures s.tokens[i].createdAt <= s.tokens[k].createdAt
    {
      assert IsRung(c, s.tokens[i], i);
      if i < k {
        TimesGrow(i, k, c.cooldown);
      }
    }
  }

  /** Inside the window every new token is guessed at as soon as it is issued. */
  lemma {:induction false} Follow(c: Config, s: Auth, clock: Time, more: nat, from: Time, to: Time)
    returns (v: Auth, end: Time)
    requires Reaches(c, s, clock) && IsLadder(c, s) && c.expiry > 0 && clock <= IssuedAt(c, |s.tokens|)
    requires more > 0 ==> from <= IssuedAt(c, |s.tokens|) && IssuedAt(c, |s.tokens| + more - 1) <= to
    ensures Reaches(c, v, end) && Made(v, from, to) == Made(s, from, to) + MAX_VERIFY_ATTEMPTS * more
    decreases more
  {
    hide Reaches, Made, Times;
    if more == 0 {
      v, end := s, clock;
    } else {
      var k, at := |s.tokens|, IssuedAt(c, |s.tokens|);
      if more > 1 {
        TimesGrow(k, k + more - 1, c.cooldown);
      }
      var x := Climb(c, s, clock, from, to);
      assert IsRung(c, x.tokens[k], k);
      NewestIsLatest(c, x, k, at);
      var y := Hammer(c, x, at, k, at, from, to);
      TimesGrow(k, k + 1, c.cooldown);
      v, end := Follow(c, y, at, more - 1, from, to);
    }
  }

  /** Whatever the settings and the length of the window, as long as there is a cooldown at
      all, some run makes exactly as many comparisons in it as the bound allows. */
  lemma BoundIsReached(c: Config, width: nat) returns (s: Auth, clock: Time, from: Time, to: Time)
    requires c.cooldown > 0
    ensures Reaches(c, s, clock) && to - from == width
    ensures Guesses(s.tokens, s.log, PHONE, from, to) == 5 * Slots(c, width)
  {
    hide Reaches, Times, Guesses;
    from, to := c.expiry, c.expiry + width;
    if c.expiry == 0 {
      s, clock := Rise(c, 0, from, to);
    } else {
      var early, all := Slots(c, 0), Slots(c, width);
      SlotsFit(c, 0, early);
      SlotsFit(c, width, all);
      MoreSlots(c, width);
      var a, since := Rise(c, early, from, to);
      EarlyAreLive(c, a, early, since);
      var b := Exhaust(c, a, since, early, from, from, to);
      s, clock := Follow(c, b, from, all - early, from, to);
    }
  }

  /** The default settings do allow 325 comparisons within an hour, and 25 at one moment. */
  lemma DefaultsAreReached(hour: bool) returns (s: Auth, clock: Time, from: Time, to: Time)
    ensures Reaches(Config(DEFAULT_COOLDOWN, DEFAULT_EXPIRY), s, clock)
    ensures to == (if hour then from + 60 * 60 * 1000 else from)
    ensures Guesses(s.tokens, s.log, PHONE, from, to) == if hour then 325 else 25
  {
    hide Reaches, Guesses;
    s, clock, from, to := BoundIsReached(Config(DEFAULT_COOLDOWN, DEFAULT_EXPIRY), if hour then 60 * 60 * 1000 else 0);
  }

  /** Without a cooldown there is no bound: any number of tokens can be issued and exhausted
      at one and the same moment, unless they expire at once. */
  lemma NoBoundWithoutCooldown(c: Config, n: nat) returns (s: Auth, clock: Time, at: Time)
    requires c.cooldown == 0 && c.expiry > 0
    ensures Reaches(c, s, clock)
    ensures Guesses(s.tokens, s.log, PHONE, at, at) == 5 * n
  {
    hide Reaches, Guesses;
    at := 1;
    var a, since := Rise(c, n, at, at);
    forall i | 0 <= i < n ensures a.tokens[i].createdAt <= at < a.tokens[i].expiresAt {
      assert IsRung(c, a.tokens[i], i);
      TimesIs(i, 0);
    }
    TimesIs(n, 0);
    if n > 0 {
      TimesIs(n - 1, 0);
    }
    s := Exhaust(c, a, since, n, at, at, at);
    clock := if n == 0 then since else at;
  }

  /** The last of `n` slots begins within the window, and the next one would not. */
  lemma SlotsFit(c: Config, width: nat, n: nat)
    requires c.cooldown > 0 && c.expiry > 0 && n == Slots(c, width)
    ensures n > 0 && IssuedAt(c, n - 1) <= width + c.expiry < IssuedAt(c, n)
  {
    var x := width + c.expiry - 1;
    TimesIs(n - 1, c.cooldown);
    TimesIs(n, c.cooldown);
    assert x == (x / c.cooldown) * c.cooldown + x % c.cooldown;
    assert n * c.cooldown == (n - 1) * c.cooldown + c.cooldown;
  }

  lemma MoreSlots(c: Config, width: nat)
    requires c.cooldown > 0 && c.expiry > 0
    ensures Slots(c, 0) <= Slots(c, width)
  {
    var x, y := c.expiry - 1, width + c.expiry - 1;
    var q := x / c.cooldown;
    TimesIs(q, c.cooldown);
    assert x == q * c.cooldown + x % c.cooldown;
    Quotient(q, c.cooldown, y);
  }

  lemma EarlyAreLive(c: Config, s: Auth, n: nat, clock: Time)
    requires IsLadder(c, s) && |s.tokens| == n > 0 && IssuedAt(c, n - 1) <= c.expiry && clock == IssuedAt(c, n - 1)
    ensures clock <= c.expiry
    ensures forall i :: 0 <= i < n ==> s.tokens[i].createdAt <= c.expiry < s.tokens[i].expiresAt
  {
    hide Times;
    forall i | 0 <= i < n ensures s.tokens[i].createdAt <= c.expiry < s.tokens[i].expiresAt {
      assert IsRung(c, s.tokens[i], i);
      if i < n - 1 {
        TimesGrow(i, n - 1, c.cooldown);
      }
    }
  }
}
