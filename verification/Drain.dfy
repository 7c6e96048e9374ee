/**
 * Waiting for evicted pods to disappear: each poll filters the pending list in place, writing the
 * survivors over the front of the very slice it is ranging over.
 */
module Drain {

  type Pod = string

  /** The pods a predicate keeps, in order. */
  function Filter(s: seq<Pod>, keep: Pod -> bool): seq<Pod> {
    if s == [] then []
    else
      var n := |s| - 1;
      if keep(s[n]) then Filter(s[..n], keep) + [s[n]] else Filter(s[..n], keep)
  }

  lemma FilterOne(s: seq<Pod>, x: Pod, keep: Pod -> bool)
    ensures Filter(s + [x], keep) == if keep(x) then Filter(s, keep) + [x] else Filter(s, keep)
  {
    assert (s + [x])[..|s|] == s;
  }

  lemma {:induction false} FilterMembers(s: seq<Pod>, keep: Pod -> bool, x: Pod)
    ensures x in Filter(s, keep) <==> x in s && keep(x)
    ensures |Filter(s, keep)| <= |s|
  {
    if s != [] {
      var n := |s| - 1;
      FilterMembers(s[..n], keep, x);
      assert s == s[..n] + [s[n]];
    }
  }

  lemma {:induction false} FilterTwice(s: seq<Pod>, f: Pod -> bool, g: Pod -> bool, both: Pod -> bool)
    requires forall x :: both(x) <==> f(x) && g(x)
    ensures Filter(Filter(s, f), g) == Filter(s, both)
  {
    if s != [] {
      var n := |s| - 1;
      FilterTwice(s[..n], f, g, both);
      if f(s[n]) { FilterOne(Filter(s[..n], f), s[n], g); }
    }
  }

  /** What the API server answers: is this pod NotFound in this poll? */
  type Answers = (nat, Pod) -> bool

  function StillThere(gone: Answers, poll: nat): Pod -> bool { x => !gone(poll, x) }

  /** The pod has been found in each of the first polls. */
  function NeverGone(gone: Answers, polls: nat): Pod -> bool { x => forall j :: 0 <= j < polls ==> !gone(j, x) }

  /** One poll over the first n pods; survivors are appended to the same array from its start. */
  method Poll(pods: array<Pod>, n: nat, gone: Answers, poll: nat) returns (m: nat)
    requires n <= pods.Length
    modifies pods
    ensures m <= n && pods[..m] == Filter(old(pods[..n]), StillThere(gone, poll))
  {
    m := 0;
    ghost var was := pods[..n];
    for i := 0 to n
      invariant m <= i && pods[..m] == Filter(was[..i], StillThere(gone, poll))
      invariant forall j :: i <= j < n ==> pods[j] == was[j]
    {
      assert was[..i + 1] == was[..i] + [was[i]];
      FilterOne(was[..i], was[i], StillThere(gone, poll));
      if !gone(poll, pods[i]) {
        pods[m] := pods[i];
        m := m + 1;
        assert pods[..m] == pods[..m - 1] + [was[i]];
      }
    }
    assert was[..n] == was;
  }

  /**
   * Polls until nothing is pending or the context ends, which it does after a number of polls.
   * What is left is, in order, exactly the pods found in every poll; so the wait ends well only
   * if each evicted pod was reported gone in some poll.
   */
  method Wait(pods: array<Pod>, n: nat, gone: Answers, polls: nat) returns (left: nat)
    requires n <= pods.Length
    modifies pods
    ensures left <= n && pods[..left] == Filter(old(pods[..n]), NeverGone(gone, polls))
    ensures left == 0 <==> forall x :: x in old(pods[..n]) ==> exists j :: 0 <= j < polls && gone(j, x)
  {
    ghost var was := pods[..n];
    left := n;
    var k := 0;
    NothingAsked(was, gone);
    while k < polls && (k == 0 || left > 0)
      invariant k <= polls && left <= n
      invariant pods[..left] == Filter(was, NeverGone(gone, k))
      decreases polls - k
    {
      FilterTwice(was, NeverGone(gone, k), StillThere(gone, k), NeverGone(gone, k + 1));
      left := Poll(pods, left, gone, k);
      k := k + 1;
    }
    Settled(was, gone, k, polls);
    Emptied(was, gone, polls);
  }

  lemma {:induction false} NothingAsked(s: seq<Pod>, gone: Answers)
    ensures Filter(s, NeverGone(gone, 0)) == s
  {
    if s != [] { NothingAsked(s[..|s| - 1], gone); }
  }

  lemma {:induction false} Settled(s: seq<Pod>, gone: Answers, k: nat, polls: nat)
    requires k == polls || (k <= polls && Filter(s, NeverGone(gone, k)) == [])
    ensures Filter(s, NeverGone(gone, polls)) == Filter(s, NeverGone(gone, k))
  {
    if k != polls {
      var f := Filter(s, NeverGone(gone, polls));
      if f != [] {
        FilterMembers(s, NeverGone(gone, polls), f[0]);
        FilterMembers(s, NeverGone(gone, k), f[0]);
      }
    }
  }

  lemma Emptied(s: seq<Pod>, gone: Answers, polls: nat)
    ensures Filter(s, NeverGone(gone, polls)) == []
      <==> forall x :: x in s ==> exists j :: 0 <= j < polls && gone(j, x)
  {
    var f := Filter(s, NeverGone(gone, polls));
    forall x | x in s
      ensures x in f <==> !exists j :: 0 <= j < polls && gone(j, x)
    {
      FilterMembers(s, NeverGone(gone, polls), x);
    }
    if f != [] {
      FilterMembers(s, NeverGone(gone, polls), f[0]);
    }
  }
}
