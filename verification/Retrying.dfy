/** A bounded retry loop over an arbitrary attempt. */
module Retrying {
  import opened Wrappers

  /** `attempt(st, n)` is None when there is nothing to try. The loop stops after a final
      attempt, or after attempt number `most`. */
  function Retry<S, T>(attempt: (S, nat) -> Option<(S, T)>, final: T -> bool, st: S, n: nat, most: nat): (S, seq<T>)
    requires n <= most
    decreases most - n
  {
    match attempt(st, n)
    case None => (st, [])
    case Some(p) =>
      if final(p.1) || n + 1 > most then (p.0, [p.1])
      else
        var (st', more) := Retry(attempt, final, p.0, n + 1, most);
        (st', [p.1] + more)
  }

  /** At most `most - n + 1` attempts; only the last can be final; and the loop ends early only
      when the last one is final or nothing was left to try. */
  lemma {:induction false} RetryShape<S, T>(attempt: (S, nat) -> Option<(S, T)>, final: T -> bool, st: S, n: nat,
                                            most: nat)
    requires n <= most
    ensures var (st', tried) := Retry(attempt, final, st, n, most);
      && |tried| <= most - n + 1
      && (forall i :: 0 <= i < |tried| - 1 ==> !final(tried[i]))
      && (|tried| <= most - n && (tried == [] || !final(tried[|tried| - 1])) ==> attempt(st', n + |tried|).None?)
    decreases most - n
  {
    match attempt(st, n)
    case None =>
    case Some(p) =>
      if !final(p.1) && n < most { RetryShape(attempt, final, p.0, n + 1, most); }
  }

  /** From a state of the kind an attempt is made, is not final, and leads to a state of the kind. */
  ghost predicate Persists<S(!new), T>(attempt: (S, nat) -> Option<(S, T)>, final: T -> bool, kind: S -> bool,
                                       alike: T -> bool) {
    forall st: S, n: nat {:trigger attempt(st, n)} :: kind(st) ==>
      && attempt(st, n).Some? && kind(attempt(st, n).value.0)
      && !final(attempt(st, n).value.1) && alike(attempt(st, n).value.1)
  }

  lemma {:induction false} RetryPersists<S(!new), T>(
      attempt: (S, nat) -> Option<(S, T)>, final: T -> bool, kind: S -> bool, alike: T -> bool,
      st: S, n: nat, most: nat)
    requires Persists(attempt, final, kind, alike) && kind(st) && n <= most
    ensures var tried := Retry(attempt, final, st, n, most).1;
      |tried| == most - n + 1 && forall i :: 0 <= i < |tried| ==> alike(tried[i])
    decreases most - n
  {
    var p := attempt(st, n).value;
    if n < most { RetryPersists(attempt, final, kind, alike, p.0, n + 1, most); }
  }

  /** The states between the attempts. */
  ghost predicate Trail<S, T>(attempt: (S, nat) -> Option<(S, T)>, n: nat, tried: seq<T>, sts: seq<S>) {
    && |sts| == |tried| + 1
    && forall i :: 0 <= i < |tried| ==> attempt(sts[i], n + i) == Some((sts[i + 1], tried[i]))
  }

  lemma TrailCons<S, T>(attempt: (S, nat) -> Option<(S, T)>, n: nat, st: S, t: T, tried: seq<T>, sts: seq<S>)
    requires Trail(attempt, n + 1, tried, sts) && attempt(st, n) == Some((sts[0], t))
    ensures Trail(attempt, n, [t] + tried, [st] + sts)
  {
    forall i | 0 <= i < |tried| + 1
      ensures attempt(([st] + sts)[i], n + i) == Some((sts[i], ([t] + tried)[i]))
    {
      if i > 0 { assert n + 1 + (i - 1) == n + i; }
    }
  }

  lemma {:induction false} RetryLeavesTrail<S, T>(attempt: (S, nat) -> Option<(S, T)>, final: T -> bool, st: S, n: nat,
                                                  most: nat)
      returns (sts: seq<S>)
    requires n <= most
    ensures Trail(attempt, n, Retry(attempt, final, st, n, most).1, sts) && sts[0] == st
    decreases most - n
  {
    match attempt(st, n)
    case None => sts := [st];
    case Some(p) =>
      if final(p.1) || n + 1 > most {
        sts := [st, p.0];
        assert n + 0 == n;
      } else {
        var rest := RetryLeavesTrail(attempt, final, p.0, n + 1, most);
        TrailCons(attempt, n, st, p.1, Retry(attempt, final, p.0, n + 1, most).1, rest);
        sts := [st] + rest;
      }
  }

  /** The loop, having tried this much, will have done `total` in the end. */
  ghost predicate Continues<S, T>(attempt: (S, nat) -> Option<(S, T)>, final: T -> bool, total: (S, seq<T>),
                                  tried: seq<T>, st: S, n: nat, most: nat)
  {
    n <= most && var r := Retry(attempt, final, st, n, most); total == (r.0, tried + r.1)
  }

  /** One more round of it. */
  lemma ContinueStep<S, T>(attempt: (S, nat) -> Option<(S, T)>, final: T -> bool, total: (S, seq<T>), tried: seq<T>,
                           st: S, n: nat, most: nat)
    requires Continues(attempt, final, total, tried, st, n, most)
    ensures match attempt(st, n)
      case None => total == (st, tried)
      case Some(p) =>
        if final(p.1) || n == most then total == (p.0, tried + [p.1])
        else Continues(attempt, final, total, tried + [p.1], p.0, n + 1, most)
  {
    match attempt(st, n)
    case None => assert tried + [] == tried;
    case Some(p) =>
      if !final(p.1) && n < most {
        var r := Retry(attempt, final, p.0, n + 1, most);
        assert tried + ([p.1] + r.1) == (tried + [p.1]) + r.1;
      }
  }
}
