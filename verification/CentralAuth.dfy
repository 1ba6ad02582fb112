/**
 The login limiter of `server/app/central_auth.py`: a counter per (email, address) key with a window and a block time.
 Clock readings are whole seconds.
 */
module CentralAuth {
  import opened Common

  /** Window, block and number of failures that block; the settings ask for at least two failures. */
  datatype Policy = Policy(window: nat, block: nat, maxFailures: nat) {
    predicate Valid() {
      block >= 1 && maxFailures >= 1
    }
  }

  datatype Failure = Failure(email: string, first: int, last: int, count: nat, blocked: Option<int>)

  type Failures = map<string, Failure>

  function FailureKey(email: string, ip: string): string {
    email + "|" + ip
  }

  lemma LongerEmailHasBar(e1: string, i1: string, e2: string, i2: string)
    requires FailureKey(e1, i1) == FailureKey(e2, i2)
    ensures |e1| < |e2| ==> '|' in e2
  {
    if |e1| < |e2| {
      assert FailureKey(e1, i1)[|e1|] == FailureKey(e2, i2)[|e1|] == e2[|e1|];
    }
  }

  /** Keys tell addresses of one email apart, and emails without a bar from each other. */
  lemma FailureKeyIsInjective(e1: string, i1: string, e2: string, i2: string)
    requires FailureKey(e1, i1) == FailureKey(e2, i2)
    requires e1 == e2 || ('|' !in e1 && '|' !in e2)
    ensures e1 == e2 && i1 == i2
  {
    var k1, k2 := FailureKey(e1, i1), FailureKey(e2, i2);
    LongerEmailHasBar(e1, i1, e2, i2);
    LongerEmailHasBar(e2, i2, e1, i1);
    assert e1 == k1[..|e1|] && e2 == k2[..|e2|];
    assert i1 == k1[|e1| + 1..] && i2 == k2[|e2| + 1..];
  }

  /** Seconds left of the block on this row. */
  function Wait(row: Option<Failure>, now: int): nat {
    if row.Some? && row.value.blocked.Some? then Max(0, row.value.blocked.value - now) else 0
  }

  function NextFailure(p: Policy, row: Option<Failure>, email: string, now: int): Failure {
    var inWindow := row.Some? && row.value.first >= now - p.window;
    var first := if inWindow then row.value.first else now;
    var count := if inWindow then row.value.count + 1 else 1;
    Failure(email, first, now, count, if count >= p.maxFailures then Some(now + p.block) else None)
  }

  function RowOf(t: Failures, key: string): Option<Failure> {
    if key in t then Some(t[key]) else None
  }

  // ----- login attempts -----

  /** One login: the clock at the check and at the record of a failure, and whether the password is right. */
  datatype Try = Try(email: string, ip: string, checked: int, recorded: int, right: bool) {
    function Key(): string {
      FailureKey(email, ip)
    }
  }

  predicate LetThrough(t: Failures, a: Try) {
    Wait(RowOf(t, a.Key()), a.checked) == 0
  }

  function AfterTry(p: Policy, t: Failures, a: Try): Failures {
    if !LetThrough(t, a) then t
    else if a.right then t - {a.Key()}
    else t[a.Key() := NextFailure(p, RowOf(t, a.Key()), a.email, a.recorded)]
  }

  function AfterTries(p: Policy, t: Failures, tries: seq<Try>): Failures {
    if tries == [] then t else AfterTry(p, AfterTries(p, t, tries[..|tries| - 1]), tries[|tries| - 1])
  }

  /** How many wrong passwords were checked on this key. */
  function WrongChecks(p: Policy, t: Failures, tries: seq<Try>, key: string): nat {
    if tries == [] then 0
    else
      var before := tries[..|tries| - 1];
      var last := tries[|tries| - 1];
      WrongChecks(p, t, before, key)
      + (if last.Key() == key && LetThrough(AfterTries(p, t, before), last) && !last.right then 1 else 0)
  }

  // ----- the bound -----

  /** The logins on this key come one after the other, all wrong, between two times. */
  ghost predicate WrongInTurn(tries: seq<Try>, key: string, from: int, to: int) {
    && (forall i :: 0 <= i < |tries| && tries[i].Key() == key ==>
          !tries[i].right && tries[i].checked <= tries[i].recorded && from <= tries[i].recorded <= to)
    && (forall i, j :: 0 <= i < j < |tries| && tries[i].Key() == key && tries[j].Key() == key ==>
          tries[i].recorded <= tries[j].checked)
  }

  /** Wrong passwords that one window lets through. */
  function PerWindow(p: Policy): nat
    requires p.Valid()
  {
    p.maxFailures + p.window / p.block
  }

  /** After `k` restarts of the window. */
  ghost predicate Bounded(p: Policy, row: Failure, checks: nat, from: int, k: nat)
    requires p.Valid()
  {
    && checks <= k * PerWindow(p) + row.count
    && row.count >= 1
    && row.first >= from + k * (p.window + 1)
    && row.first <= row.last <= row.first + p.window
    && (row.count >= p.maxFailures ==>
          row.blocked == Some(row.last + p.block) && (row.count - p.maxFailures) * p.block <= row.last - row.first)
  }

  lemma CountPerWindow(p: Policy, row: Failure, checks: nat, from: int, k: nat)
    requires p.Valid() && Bounded(p, row, checks, from, k)
    ensures row.count <= PerWindow(p)
  {
    if row.count >= p.maxFailures {
      QuotientBounds(row.count - p.maxFailures, p.block, p.window);
    }
  }

  lemma QuotientBounds(n: nat, d: nat, m: nat)
    requires d >= 1 && n * d <= m
    ensures n <= m / d
  {
    var q := m / d;
    assert m == q * d + m % d;
    assert (q + 1 - n) * d == q * d + d - n * d;
    assert (q + 1 - n) * d > 0;
  }

  /** One more wrong password that is let through. */
  lemma OneMoreFailure(p: Policy, row: Failure, checks: nat, from: int, k: nat, a: Try)
    returns (k': nat)
    requires p.Valid() && Bounded(p, row, checks, from, k)
    requires Wait(Some(row), a.checked) == 0 && row.last <= a.checked <= a.recorded
    ensures Bounded(p, NextFailure(p, Some(row), a.email, a.recorded), checks + 1, from, k')
  {
    if row.first >= a.recorded - p.window {
      k' := k;
      if row.count >= p.maxFailures {
        assert (row.count + 1 - p.maxFailures) * p.block == (row.count - p.maxFailures) * p.block + p.block;
      }
    } else {
      k' := k + 1;
      CountPerWindow(p, row, checks, from, k);
      assert k' * PerWindow(p) == k * PerWindow(p) + PerWindow(p);
      assert k' * (p.window + 1) == k * (p.window + 1) + (p.window + 1);
    }
  }

  ghost predicate RecordedAt(tries: seq<Try>, key: string, time: int) {
    exists i :: 0 <= i < |tries| && tries[i].Key() == key && tries[i].recorded == time
  }

  /** The state of the counter after a run of logins, as far as one key goes. */
  ghost predicate Counted(p: Policy, row: Option<Failure>, checks: nat, tries: seq<Try>, key: string, from: int, k: nat)
    requires p.Valid()
  {
    if row.Some? then Bounded(p, row.value, checks, from, k) && RecordedAt(tries, key, row.value.last) else checks == 0
  }

  lemma {:induction false} CounterIsBounded(p: Policy, t: Failures, tries: seq<Try>, key: string, from: int, to: int)
    returns (k: nat)
    requires p.Valid() && key !in t && WrongInTurn(tries, key, from, to)
    ensures Counted(p, RowOf(AfterTries(p, t, tries), key), WrongChecks(p, t, tries, key), tries, key, from, k)
  {
    k := 0;
    if tries != [] {
      var before, a := tries[..|tries| - 1], tries[|tries| - 1];
      k := CounterIsBounded(p, t, before, key, from, to);
      var u := AfterTries(p, t, before);
      k := OneMoreTry(p, u, WrongChecks(p, t, before, key), tries, key, from, to, k);
    }
  }

  lemma OneMoreTry(p: Policy, u: Failures, checks: nat, tries: seq<Try>, key: string, from: int, to: int, k: nat)
    returns (k': nat)
    requires p.Valid() && tries != [] && WrongInTurn(tries, key, from, to)
    requires Counted(p, RowOf(u, key), checks, tries[..|tries| - 1], key, from, k)
    ensures var a := tries[|tries| - 1];
            var more := if a.Key() == key && LetThrough(u, a) && !a.right then 1 else 0;
            Counted(p, RowOf(AfterTry(p, u, a), key), checks + more, tries, key, from, k')
  {
    var n := |tries| - 1;
    var a, row := tries[n], RowOf(u, key);
    k' := k;
    if row.Some? {
      var i :| 0 <= i < n && tries[..n][i].Key() == key && tries[..n][i].recorded == row.value.last;
      assert tries[i].recorded == row.value.last;
    }
    if a.Key() == key && LetThrough(u, a) {
      if row.Some? {
        k' := OneMoreFailure(p, row.value, checks, from, k, a);
      } else {
        k' := 0;
      }
    }
  }

  /**
   The throttle: from the first failure, whatever happens on other keys, at most `maxFailures + window / block` wrong
   passwords are checked per window, and a new window starts at most every `window + 1` seconds.
   */
  lemma ThrottleBound(p: Policy, t: Failures, tries: seq<Try>, key: string, from: int, time: nat)
    requires p.Valid() && key !in t && WrongInTurn(tries, key, from, from + time)
    ensures WrongChecks(p, t, tries, key) <= (time / (p.window + 1) + 1) * (p.maxFailures + p.window / p.block)
  {
    var k := CounterIsBounded(p, t, tries, key, from, from + time);
    var row, n := RowOf(AfterTries(p, t, tries), key), WrongChecks(p, t, tries, key);
    if row.Some? {
      var i :| 0 <= i < |tries| && tries[i].Key() == key && tries[i].recorded == row.value.last;
      assert row.value.last <= from + time;
      CountPerWindow(p, row.value, n, from, k);
      WindowsBound(p, n, row.value.count, k, time);
    } else {
      Product(0, time / (p.window + 1) + 1, PerWindow(p));
    }
  }

  lemma WindowsBound(p: Policy, checks: nat, count: nat, k: nat, time: nat)
    requires p.Valid() && checks <= k * PerWindow(p) + count && count <= PerWindow(p) && k * (p.window + 1) <= time
    ensures checks <= (time / (p.window + 1) + 1) * PerWindow(p)
  {
    QuotientBounds(k, p.window + 1, time);
    assert (k + 1) * PerWindow(p) == k * PerWindow(p) + PerWindow(p);
    Product(k + 1, time / (p.window + 1) + 1, PerWindow(p));
  }

  lemma Product(a: nat, b: nat, c: nat)
    requires a <= b
    ensures a * c <= b * c
  {}

  /** The bound as the settings suggest it, with whole windows. */
  lemma ThrottleBoundByWindow(p: Policy, t: Failures, tries: seq<Try>, key: string, from: int, time: nat)
    requires p.Valid() && p.window >= 1 && key !in t && WrongInTurn(tries, key, from, from + time)
    ensures WrongChecks(p, t, tries, key) <= (time / p.window + 1) * (p.maxFailures + p.window / p.block)
  {
    ThrottleBound(p, t, tries, key, from, time);
    ShorterWindowsAreMore(time, p.window);
    Product(time / (p.window + 1) + 1, time / p.window + 1, PerWindow(p));
  }

  lemma ShorterWindowsAreMore(time: nat, w: nat)
    requires w >= 1
    ensures time / (w + 1) <= time / w
  {
    var q := time / (w + 1);
    assert q * (w + 1) == q * w + q;
    assert q * (w + 1) <= time;
    QuotientBounds(q, w, time);
  }

  /** The last of any run of wrong passwords within one window that reaches the limit starts a block. */
  lemma {:induction false} LimitStartsBlock(p: Policy, t: Failures, tries: seq<Try>, key: string, from: int)
    requires p.Valid() && key !in t && WrongInTurn(tries, key, from, from + p.window)
    requires forall i :: 0 <= i < |tries| ==> tries[i].Key() == key
    ensures |tries| <= p.maxFailures ==> WrongChecks(p, t, tries, key) == |tries|
    ensures tries != [] && |tries| <= p.maxFailures ==>
              && key in AfterTries(p, t, tries)
              && AfterTries(p, t, tries)[key].count == |tries|
              && AfterTries(p, t, tries)[key].first == tries[0].recorded
              && AfterTries(p, t, tries)[key].blocked
                 == if |tries| == p.maxFailures then Some(tries[|tries| - 1].recorded + p.block) else None
  {
    if tries != [] && |tries| <= p.maxFailures {
      var before := tries[..|tries| - 1];
      LimitStartsBlock(p, t, before, key, from);
      assert tries[|tries| - 1].Key() == key && tries[0].Key() == key;
    }
  }

  /** That block refuses this key until its time has passed, and no longer. */
  lemma BlockLastsExactly(p: Policy, t: Failures, tries: seq<Try>, key: string, from: int, a: Try)
    requires p.Valid() && key !in t && WrongInTurn(tries, key, from, from + p.window)
    requires forall i :: 0 <= i < |tries| ==> tries[i].Key() == key
    requires |tries| == p.maxFailures && a.Key() == key
    ensures LetThrough(AfterTries(p, t, tries), a) <==> a.checked >= tries[|tries| - 1].recorded + p.block
  {
    LimitStartsBlock(p, t, tries, key, from);
  }

  /**
   After any run of logins, a right password that is let through clears the counter of its key: the next logins on it
   are let through and the throttle starts afresh. No login changes the counter of another key.
   */
  lemma SuccessStartsAfresh(p: Policy, t: Failures, tries: seq<Try>, a: Try, other: string, later: seq<Try>, from: int, time: nat)
    requires p.Valid() && LetThrough(AfterTries(p, t, tries), a) && a.right
    requires WrongInTurn(later, a.Key(), from, from + time)
    ensures var u := AfterTries(p, t, tries + [a]);
            && a.Key() !in u
            && (forall b: Try :: b.Key() == a.Key() ==> LetThrough(u, b))
            && (other != a.Key() ==> RowOf(u, other) == RowOf(AfterTries(p, t, tries), other))
            && WrongChecks(p, u, later, a.Key()) <= (time / (p.window + 1) + 1) * (p.maxFailures + p.window / p.block)
  {
    var all := tries + [a];
    assert all[..|all| - 1] == tries && all[|all| - 1] == a;
    ThrottleBound(p, AfterTries(p, t, all), later, a.Key(), from, time);
  }

  lemma {:induction false} OtherKeysAreLeft(p: Policy, t: Failures, tries: seq<Try>, key: string)
    requires forall i :: 0 <= i < |tries| ==> tries[i].Key() != key
    ensures RowOf(AfterTries(p, t, tries), key) == RowOf(t, key)
  {
    if tries != [] {
      OtherKeysAreLeft(p, t, tries[..|tries| - 1], key);
    }
  }

  // ----- a confirmed reset -----

  /** Every counter of this email is gone. */
  function Forgotten(t: Failures, email: string): Failures {
    map k | k in t && t[k].email != email :: t[k]
  }

  ghost predicate NoBars(tries: seq<Try>) {
    forall i :: 0 <= i < |tries| ==> '|' !in tries[i].email
  }

  /** The key is one of this email, which has no bar. */
  predicate Belongs(email: string, k: string) {
    '|' !in email && |email| < |k| && k[..|email| + 1] == email + "|"
  }

  ghost predicate AllBelong(t: Failures) {
    forall k {:trigger t[k]} :: k in t ==> Belongs(t[k].email, k)
  }

  lemma KeyBelongs(email: string, ip: string)
    requires '|' !in email
    ensures Belongs(email, FailureKey(email, ip))
  {
    assert FailureKey(email, ip) == (email + "|") + ip;
  }

  lemma {:induction false} RowsBelong(p: Policy, tries: seq<Try>)
    requires NoBars(tries)
    ensures AllBelong(AfterTries(p, map[], tries))
  {
    if tries != [] {
      var before, a := tries[..|tries| - 1], tries[|tries| - 1];
      assert forall i :: 0 <= i < |before| ==> before[i] == tries[i];
      RowsBelong(p, before);
      KeyBelongs(a.email, a.ip);
      var t, u := AfterTries(p, map[], before), AfterTries(p, map[], tries);
      assert u == AfterTry(p, t, a);
      forall k | k in u ensures Belongs(u[k].email, k) {
        if k in t && u[k] == t[k] {
          assert Belongs(t[k].email, k);
        } else {
          assert k == a.Key() && u[k].email == a.email;
        }
      }
    }
  }

  lemma RowOfEmail(t: Failures, email: string, ip: string)
    requires FailureKey(email, ip) in t && Belongs(t[FailureKey(email, ip)].email, FailureKey(email, ip)) && '|' !in email
    ensures t[FailureKey(email, ip)].email == email
  {
    var k := FailureKey(email, ip);
    var owner := t[k].email;
    assert k == FailureKey(owner, k[|owner| + 1..]) by {
      assert k == k[..|owner| + 1] + k[|owner| + 1..];
    }
    FailureKeyIsInjective(owner, k[|owner| + 1..], email, ip);
  }

  /**
   After any run of logins a reset of one email clears that email at every address, so its logins are let through and
   the throttle starts afresh for them, while every other email keeps its counters and its blocks.
   */
  lemma ResetStartsAfresh(p: Policy, tries: seq<Try>, email: string, ip: string, other: string, later: seq<Try>, from: int, time: nat)
    requires p.Valid() && NoBars(tries) && '|' !in email && '|' !in other && other != email
    requires WrongInTurn(later, FailureKey(email, ip), from, from + time)
    ensures var t := AfterTries(p, map[], tries);
            var f := Forgotten(t, email);
            && FailureKey(email, ip) !in f
            && RowOf(f, FailureKey(other, ip)) == RowOf(t, FailureKey(other, ip))
            && (forall a: Try :: a.email == email ==> LetThrough(f, a))
            && WrongChecks(p, f, later, FailureKey(email, ip)) <= (time / (p.window + 1) + 1) * (p.maxFailures + p.window / p.block)
  {
    var t := AfterTries(p, map[], tries);
    var f := Forgotten(t, email);
    RowsBelong(p, tries);
    forall i: string ensures FailureKey(email, i) !in f {
      if FailureKey(email, i) in t {
        RowOfEmail(t, email, i);
      }
    }
    if FailureKey(other, ip) in t {
      RowOfEmail(t, other, ip);
    }
    ThrottleBound(p, f, later, FailureKey(email, ip), from, time);
  }

  datatype LoginResult = RateLimited(seconds: nat) | WrongPassword | Admitted

  class CentralAuthStore {
    const policy: Policy
    var failures: Failures

    constructor (policy: Policy)
      ensures this.policy == policy && failures == map[]
    {
      this.policy, failures := policy, map[];
    }

    method LoginRetryAfter(email: string, ip: string, now: int) returns (seconds: nat)
      ensures seconds == Wait(RowOf(failures, FailureKey(email, ip)), now)
    {
      var key := FailureKey(email, ip);
      if key !in failures || failures[key].blocked.None? {
        return 0;
      }
      seconds := Max(0, failures[key].blocked.value - now);
    }

    method RecordLoginFailure(email: string, ip: string, now: int, reread: int) returns (seconds: nat)
      modifies this
      ensures var key := FailureKey(email, ip);
              && failures == old(failures)[key := NextFailure(policy, RowOf(old(failures), key), email, now)]
              && seconds == Wait(Some(failures[key]), reread)
    {
      var key := FailureKey(email, ip);
      var count, first := 0, now;
      if key in failures && failures[key].first >= now - policy.window {
        first, count := failures[key].first, failures[key].count;
      }
      count := count + 1;
      var blocked := if count >= policy.maxFailures then Some(now + policy.block) else None;
      failures := failures[key := Failure(email, first, now, count, blocked)];
      seconds := LoginRetryAfter(email, ip, reread);
    }

    method ClearLoginFailures(email: string, ip: string)
      modifies this
      ensures failures == old(failures) - {FailureKey(email, ip)}
    {
      failures := failures - {FailureKey(email, ip)};
    }

    /** The last statement of a confirmed password reset: every address of the email starts afresh. */
    method ForgetEmail(email: string)
      modifies this
      ensures failures == Forgotten(old(failures), email)
      ensures forall k :: RowOf(failures, k) == if k in old(failures) && old(failures)[k].email == email
                                                then None else RowOf(old(failures), k)
    {
      failures := map k | k in failures && failures[k].email != email :: failures[k];
    }

    /** `login`, up to the session: the limiter is asked first, so a blocked key never reaches the password check. */
    method Login(a: Try, reread: int) returns (result: LoginResult)
      modifies this
      ensures failures == AfterTry(policy, old(failures), a)
      ensures result.Admitted? <==> LetThrough(old(failures), a) && a.right
      ensures !LetThrough(old(failures), a) ==>
                result == RateLimited(Wait(RowOf(old(failures), a.Key()), a.checked))
      ensures LetThrough(old(failures), a) && !a.right ==>
                result == (var w := Wait(RowOf(failures, a.Key()), reread); if w > 0 then RateLimited(w) else WrongPassword)
    {
      var wait := LoginRetryAfter(a.email, a.ip, a.checked);
      if wait > 0 {
        return RateLimited(wait);
      }
      if !a.right {
        wait := RecordLoginFailure(a.email, a.ip, a.recorded, reread);
        return if wait > 0 then RateLimited(wait) else WrongPassword;
      }
      ClearLoginFailures(a.email, a.ip);
      return Admitted;
    }
  }
}
