/** The intercepted `poll`: descriptors that belong to the stack are answered at once, the others
    are compacted into an array of their own for the kernel. */
module Poll {
  import opened Tally

  datatype PollFd = PollFd(fd: int, events: bv16, revents: bv16)

  /** What the kernel's `poll` returns and the `revents` it leaves. */
  datatype Answer = Answer(ret: int, revents: seq<bv16>)

  /** POLLIN, POLLOUT and POLLHUP. */
  const READY_EVENTS: bv16 := 0x01 | 0x04 | 0x10

  ghost function Nonzero(): PollFd -> nat { (p: PollFd) => if p.revents != 0 then 1 else 0 }

  /** How many entries report something. */
  ghost function Ready(s: seq<PollFd>): nat { Total(s, Nonzero()) }

  // ---- The partition ------------------------------------------------------------------

  /** Of the first `n` entries, the positions of those that are not the stack's. */
  function Positions(s: seq<PollFd>, velox: int -> bool, n: nat): seq<nat>
    requires n <= |s|
  {
    if n == 0 then []
    else Positions(s, velox, n - 1) + if velox(s[n - 1].fd) then [] else [n - 1]
  }

  /** How many of them come before position `i`. */
  function Rank(s: seq<PollFd>, velox: int -> bool, i: nat): nat
    requires i <= |s|
  {
    |Positions(s, velox, i)|
  }

  /** Every enumerated position is a descriptor for the kernel, at the place its rank says. */
  lemma {:induction false} PositionAt(s: seq<PollFd>, velox: int -> bool, n: nat, k: nat)
    requires n <= |s| && k < Rank(s, velox, n)
    ensures var p := Positions(s, velox, n)[k]; p < n && !velox(s[p].fd) && Rank(s, velox, p) == k
  {
    if k < Rank(s, velox, n - 1) {
      PositionAt(s, velox, n - 1, k);
    }
  }

  /** Every descriptor for the kernel is enumerated, at the place its rank says. */
  lemma {:induction false} RankAt(s: seq<PollFd>, velox: int -> bool, n: nat, i: nat)
    requires i < n <= |s| && !velox(s[i].fd)
    ensures Rank(s, velox, i) < Rank(s, velox, n) && Positions(s, velox, n)[Rank(s, velox, i)] == i
  {
    if i < n - 1 {
      RankAt(s, velox, n - 1, i);
    }
  }

  /** The enumeration is increasing. */
  lemma {:induction false} PositionsIncrease(s: seq<PollFd>, velox: int -> bool, n: nat, j: nat, k: nat)
    requires n <= |s| && j < k < Rank(s, velox, n)
    ensures Positions(s, velox, n)[j] < Positions(s, velox, n)[k]
  {
    if k < Rank(s, velox, n - 1) {
      PositionsIncrease(s, velox, n - 1, j, k);
    } else {
      PositionAt(s, velox, n - 1, j);
    }
  }

  /** No descriptor is the stack's. */
  ghost predicate NoneOwn(s: seq<PollFd>, velox: int -> bool) {
    forall i :: 0 <= i < |s| ==> !velox(s[i].fd)
  }

  /** All descriptors are for the kernel exactly if none is the stack's. */
  lemma {:induction false} RankBelow(s: seq<PollFd>, velox: int -> bool, n: nat)
    requires n <= |s|
    ensures Rank(s, velox, n) <= n
    ensures Rank(s, velox, n) == n <==> forall i :: 0 <= i < n ==> !velox(s[i].fd)
  {
    if n > 0 {
      RankBelow(s, velox, n - 1);
    }
  }

  function Cleared(p: PollFd): PollFd { p.(revents := 0) }

  function AllCleared(s: seq<PollFd>): seq<PollFd> {
    seq(|s|, i requires 0 <= i < |s| => Cleared(s[i]))
  }

  /** The array handed to the kernel. */
  function Compacted(s: seq<PollFd>, velox: int -> bool, n: nat): (t: seq<PollFd>)
    requires n <= |s|
    ensures |t| == Rank(s, velox, n)
  {
    if n == 0 then []
    else Compacted(s, velox, n - 1) + if velox(s[n - 1].fd) then [] else [Cleared(s[n - 1])]
  }

  lemma {:induction false} CompactedAt(s: seq<PollFd>, velox: int -> bool, n: nat, i: nat)
    requires i < n <= |s| && !velox(s[i].fd)
    ensures Rank(s, velox, i) < Rank(s, velox, n) && Compacted(s, velox, n)[Rank(s, velox, i)] == Cleared(s[i])
  {
    if i < n - 1 {
      CompactedAt(s, velox, n - 1, i);
    }
  }

  // ---- What poll promises -------------------------------------------------------------

  /** With a descriptor of the stack present, entry `i` reports its own requested events, masked,
      or its own answer of the kernel's, if the kernel counted any. */
  ghost predicate Answered(s: seq<PollFd>, p: PollFd, velox: int -> bool, a: Answer, i: nat)
    requires i < |s| && |a.revents| == Rank(s, velox, |s|)
  {
    if velox(s[i].fd) then p == s[i].(revents := s[i].events & 0x15) else
      && Rank(s, velox, i) < |a.revents|
      && p == s[i].(revents := if a.ret > 0 then a.revents[Rank(s, velox, i)] else 0)
  }

  ghost predicate WellBehaved(kernel: (seq<PollFd>, int) -> Answer) {
    forall fds, timeout :: |kernel(fds, timeout).revents| == |fds|
  }

  /** The first loop: clears every `revents` and copies out the kernel's share. */
  method Partition(fds: array<PollFd>, velox: int -> bool, others: array<PollFd>, index: array<nat>)
    returns (count: nat)
    requires others.Length == index.Length == fds.Length && fds != others
    modifies fds, others, index
    ensures var s := old(fds[..]);
      && count == Rank(s, velox, |s|) <= |s|
      && index[..count] == Positions(s, velox, |s|)
      && others[..count] == Compacted(s, velox, |s|)
    ensures forall i :: 0 <= i < fds.Length ==> fds[i] == Cleared(old(fds[i]))
  {
    ghost var s := fds[..];
    count := 0;
    for i := 0 to fds.Length
      invariant count == Rank(s, velox, i) <= i
      invariant index[..count] == Positions(s, velox, i)
      invariant others[..count] == Compacted(s, velox, i)
      invariant forall j :: 0 <= j < i ==> fds[j] == Cleared(s[j])
      invariant forall j :: i <= j < fds.Length ==> fds[j] == s[j]
    {
      fds[i] := fds[i].(revents := 0);
      if !velox(fds[i].fd) {
        index[count] := i;
        others[count] := fds[i];
        count := count + 1;
      }
    }
  }

  /** The second loop: gives every entry of the kernel's share its own answer and counts. */
  method CopyBack(fds: array<PollFd>, index: array<nat>, answers: seq<bv16>, ghost s: seq<PollFd>, velox: int -> bool)
    returns (ready: nat)
    requires |answers| == Rank(s, velox, |s|) <= index.Length && |s| == fds.Length
    requires index[..|answers|] == Positions(s, velox, |s|)
    requires forall i :: 0 <= i < fds.Length ==> fds[i] == Cleared(s[i])
    modifies fds
    ensures ready == Ready(fds[..])
    ensures forall i :: 0 <= i < fds.Length && velox(s[i].fd) ==> fds[i] == Cleared(s[i])
    ensures forall i :: 0 <= i < fds.Length && !velox(s[i].fd) ==>
      Rank(s, velox, i) < |answers| && fds[i] == s[i].(revents := answers[Rank(s, velox, i)])
  {
    ready := 0;
    TotalNone(fds[..], Nonzero());
    for k := 0 to |answers|
      invariant ready == Ready(fds[..])
      invariant forall i :: 0 <= i < fds.Length ==> fds[i] == CopiedBelow(s, velox, answers, k, i)
    {
      PositionAt(s, velox, |s|, k);
      var p := index[k];
      ghost var before := fds[..];
      TotalUpdate(before, Nonzero(), p, before[p].(revents := answers[k]));
      fds[p] := fds[p].(revents := answers[k]);
      assert fds[..] == before[p := before[p].(revents := answers[k])];
      if answers[k] != 0 {
        ready := ready + 1;
      }
      forall i | 0 <= i < fds.Length ensures fds[i] == CopiedBelow(s, velox, answers, k + 1, i) {
        CopiesNext(s, velox, answers, k, i);
      }
    }
    forall i | 0 <= i < fds.Length && !velox(s[i].fd) ensures Rank(s, velox, i) < |answers| {
      RankAt(s, velox, |s|, i);
    }
  }

  /** Entry `i` when the first `k` answers have been copied. */
  ghost function CopiedBelow(s: seq<PollFd>, velox: int -> bool, answers: seq<bv16>, k: nat, i: nat): PollFd
    requires i < |s| && k <= |answers|
  {
    if !velox(s[i].fd) && Rank(s, velox, i) < k then s[i].(revents := answers[Rank(s, velox, i)])
    else Cleared(s[i])
  }

  /** The next answer concerns the entry of that rank and no other. */
  lemma CopiesNext(s: seq<PollFd>, velox: int -> bool, answers: seq<bv16>, k: nat, i: nat)
    requires i < |s| && k < |answers| == Rank(s, velox, |s|)
    ensures var p := Positions(s, velox, |s|)[k];
      CopiedBelow(s, velox, answers, k + 1, i)
        == if i == p then s[i].(revents := answers[k]) else CopiedBelow(s, velox, answers, k, i)
  {
    PositionAt(s, velox, |s|, k);
    if !velox(s[i].fd) { RankAt(s, velox, |s|, i); }
  }

  /** The third loop: reports the stack's own descriptors ready for what was asked. */
  method ReportOwn(fds: array<PollFd>, velox: int -> bool, counted: nat) returns (ready: nat)
    requires counted == Ready(fds[..])
    requires forall i :: 0 <= i < fds.Length && velox(fds[i].fd) ==> fds[i].revents == 0
    modifies fds
    ensures ready == Ready(fds[..])
    ensures forall i :: 0 <= i < fds.Length ==> fds[i] == Reported(velox, old(fds[i]))
  {
    ready := counted;
    ghost var s := fds[..];
    for i := 0 to fds.Length
      invariant ready == Ready(fds[..])
      invariant forall j :: 0 <= j < i ==> fds[j] == Reported(velox, s[j])
      invariant forall j :: i <= j < fds.Length ==> fds[j] == s[j]
    {
      if velox(fds[i].fd) {
        ghost var before := fds[..];
        var events := fds[i].events & READY_EVENTS;
        TotalUpdate(before, Nonzero(), i, before[i].(revents := events));
        fds[i] := fds[i].(revents := events);
        assert fds[..] == before[i := before[i].(revents := events)];
        if events != 0 {
          ready := ready + 1;
        }
      }
    }
  }

  function Reported(velox: int -> bool, p: PollFd): PollFd {
    if velox(p.fd) then p.(revents := p.events & READY_EVENTS) else p
  }

  /** Entry `i` with the kernel's answers in place and the stack's own still to come. */
  ghost predicate HalfAnswered(s: seq<PollFd>, p: PollFd, velox: int -> bool, a: Answer, i: nat)
    requires i < |s| && |a.revents| == Rank(s, velox, |s|)
  {
    if velox(s[i].fd) then p == Cleared(s[i]) else
      && Rank(s, velox, i) < |a.revents|
      && p == s[i].(revents := if a.ret > 0 then a.revents[Rank(s, velox, i)] else 0)
  }

  /** Polls the kernel's share, if any, without blocking. */
  method AskKernel(fds: array<PollFd>, others: seq<PollFd>, index: array<nat>, kernel: (seq<PollFd>, int) -> Answer,
                   velox: int -> bool, ghost s: seq<PollFd>)
    returns (ready: nat)
    requires WellBehaved(kernel) && |s| == fds.Length
    requires others == Compacted(s, velox, |s|) && |others| <= index.Length
    requires index[..|others|] == Positions(s, velox, |s|)
    requires forall i :: 0 <= i < fds.Length ==> fds[i] == Cleared(s[i])
    modifies fds
    ensures ready == Ready(fds[..])
    ensures var a := if |others| > 0 then kernel(others, 0) else Answer(0, []);
      forall i :: 0 <= i < fds.Length ==> HalfAnswered(s, fds[i], velox, a, i)
  {
    ready := 0;
    TotalNone(fds[..], Nonzero());
    forall i | 0 <= i < fds.Length && !velox(s[i].fd) ensures Rank(s, velox, i) < |others| {
      RankAt(s, velox, |s|, i);
    }
    if |others| > 0 {
      var a := kernel(others, 0);
      if a.ret > 0 {
        ready := CopyBack(fds, index, a.revents, s, velox);
      }
    }
  }

  /** `velox` says whose a descriptor is, `kernel` answers for the rest, and `gotMemory` says
      whether both auxiliary arrays could be had. With a descriptor of the stack's present the
      kernel is asked about the others only, with no time to wait, and not at all about none. */
  method Poll(fds: array<PollFd>, timeout: int, velox: int -> bool, kernel: (seq<PollFd>, int) -> Answer,
              gotMemory: bool)
    returns (ret: int)
    requires WellBehaved(kernel)
    modifies fds
    ensures !gotMemory ==> ret == -1 && fds[..] == old(fds[..])
    ensures gotMemory && NoneOwn(old(fds[..]), velox) ==>
      var a := kernel(AllCleared(old(fds[..])), timeout);
      ret == a.ret && forall i :: 0 <= i < fds.Length ==> fds[i] == old(fds[i]).(revents := a.revents[i])
    ensures gotMemory && !NoneOwn(old(fds[..]), velox) ==>
      var others := Compacted(old(fds[..]), velox, fds.Length);
      var a := if |others| > 0 then kernel(others, 0) else Answer(0, []);
      && ret == Ready(fds[..])
      && forall i :: 0 <= i < fds.Length ==> Answered(old(fds[..]), fds[i], velox, a, i)
  {
    if !gotMemory {
      return -1;
    }
    ghost var s := fds[..];
    var others := new PollFd[fds.Length](_ => PollFd(0, 0, 0));
    var index := new nat[fds.Length];
    var count := Partition(fds, velox, others, index);
    RankBelow(s, velox, |s|);
    if count == fds.Length {
      assert fds[..] == AllCleared(s);
      ret := Delegate(fds, kernel, timeout);
      return;
    }
    var ready := AskKernel(fds, others[..count], index, kernel, velox, s);
    ret := ReportOwn(fds, velox, ready);
  }

  /** Handing the whole array to the kernel. */
  method Delegate(fds: array<PollFd>, kernel: (seq<PollFd>, int) -> Answer, timeout: int) returns (ret: int)
    requires WellBehaved(kernel)
    modifies fds
    ensures var a := kernel(old(fds[..]), timeout);
      && ret == a.ret
      && forall i :: 0 <= i < fds.Length ==> fds[i] == old(fds[i]).(revents := a.revents[i])
  {
    var a := kernel(fds[..], timeout);
    ret := a.ret;
    forall i | 0 <= i < fds.Length {
      fds[i] := fds[i].(revents := a.revents[i]);
    }
  }
}
