/** Names and failure values shared by the hub and the spokes. */
module Basics {

  type Time = real
  type TenantId = int
  type MemberId = int
  type DeviceId = int
  type Tid = int        // transfer id
  type Uuid = string    // a Things uuid; "" stands for a missing one

  datatype Option<+T> = None | Some(value: T)

  /** The hub's exception classes. */
  datatype LedgerError = BadRequest | Forbidden | NotFound

  datatype Result<+T> = Ok(value: T) | Err(error: LedgerError)

  /** A terminal state: what a member did with their copy. */
  datatype Terminal = Completed | Canceled

  /** The first n elements of s, or all of s when there are fewer. */
  function Prefix<T>(s: seq<T>, n: int): (r: seq<T>)
    ensures r <= s
    ensures |r| == if n <= 0 then 0 else if n < |s| then n else |s|
  {
    if n <= 0 then [] else if n < |s| then s[..n] else s
  }

  ghost predicate Distinct<T>(s: seq<T>) {
    forall i, j :: 0 <= i < j < |s| ==> s[i] != s[j]
  }

  /** Two sets with an injection from the first into the second. */
  lemma {:induction false} InjectionBound<A, B>(xs: set<A>, ys: set<B>, f: map<A, B>)
    requires xs <= f.Keys
    requires forall x :: x in xs ==> f[x] in ys
    requires forall x, y :: x in xs && y in xs && f[x] == f[y] ==> x == y
    ensures |xs| <= |ys|
  {
    if xs != {} {
      var x :| x in xs;
      InjectionBound(xs - {x}, ys - {f[x]}, f);
    }
  }

  ghost predicate InjectsInto<A, B>(xs: set<A>, ys: set<B>, f: map<A, B>) {
    && xs == f.Keys && (forall x :: x in xs ==> f[x] in ys)
    && (forall x, z :: x in xs && z in xs && f[x] == f[z] ==> x == z)
  }

  lemma InjectedSize<A, B>(xs: set<A>, ys: set<B>, f: map<A, B>)
    requires InjectsInto(xs, ys, f)
    ensures |xs| <= |ys|
  {
    InjectionBound(xs, ys, f);
  }

  /** An injection into a set no larger than its source reaches all of it. */
  lemma InjectionCovers<A, B>(xs: set<A>, ys: set<B>, f: map<A, B>, y: B) returns (x: A)
    requires InjectsInto(xs, ys, f) && |ys| <= |xs| && y in ys
    ensures x in xs && f[x] == y
  {
    if forall z :: z in xs ==> f[z] != y { InjectionBound(xs, ys - {y}, f); }
    x :| x in xs && f[x] == y;
  }
}
