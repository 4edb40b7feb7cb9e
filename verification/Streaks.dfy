/** Streaks: the one-pass loop against their declarative meaning. */
module Streaks {
  import opened Numeric
  import opened Outcomes
  import opened Performance

  // ---------- sorted(bets, key=graded_at): stable ----------

  function InsertByTime(bet: GradedBet, rest: seq<GradedBet>): seq<GradedBet> {
    if rest == [] then [bet]
    else if bet.gradedAt <= rest[0].gradedAt then [bet] + rest
    else [rest[0]] + InsertByTime(bet, rest[1..])
  }

  function SortByTime(bets: seq<GradedBet>): seq<GradedBet> {
    if bets == [] then [] else InsertByTime(bets[0], SortByTime(bets[1..]))
  }

  predicate InOrder(bets: seq<GradedBet>) {
    forall i, j :: 0 <= i < j < |bets| ==> bets[i].gradedAt <= bets[j].gradedAt
  }

  /** The bets graded at one instant, in list order. */
  function At(bets: seq<GradedBet>, time: int): seq<GradedBet> {
    if bets == [] then []
    else (if bets[0].gradedAt == time then [bets[0]] else []) + At(bets[1..], time)
  }

  lemma {:induction false} InsertByTimeMembers(bet: GradedBet, rest: seq<GradedBet>)
    ensures multiset(InsertByTime(bet, rest)) == multiset(rest) + multiset{bet}
  {
    if rest != [] {
      InsertByTimeMembers(bet, rest[1..]);
      assert rest == [rest[0]] + rest[1..];
    }
  }

  lemma {:induction false} InsertByTimeOrders(bet: GradedBet, rest: seq<GradedBet>)
    requires InOrder(rest)
    ensures InOrder(InsertByTime(bet, rest))
  {
    if rest != [] && bet.gradedAt > rest[0].gradedAt {
      var tail := InsertByTime(bet, rest[1..]);
      InsertByTimeOrders(bet, rest[1..]);
      InsertByTimeMembers(bet, rest[1..]);
      forall j | 0 <= j < |tail| ensures rest[0].gradedAt <= tail[j].gradedAt {
        assert tail[j] in multiset(tail);
        assert tail[j] == bet || tail[j] in rest[1..];
      }
      OrderedAfter(rest[0], tail);
    } else {
      OrderedAfter(bet, rest);
    }
  }

  lemma OrderedAfter(first: GradedBet, tail: seq<GradedBet>)
    requires InOrder(tail) && forall j :: 0 <= j < |tail| ==> first.gradedAt <= tail[j].gradedAt
    ensures InOrder([first] + tail)
  {
  }

  lemma {:induction false} InsertByTimeAt(bet: GradedBet, rest: seq<GradedBet>, time: int)
    ensures At(InsertByTime(bet, rest), time) == (if bet.gradedAt == time then [bet] else []) + At(rest, time)
  {
    if rest != [] && bet.gradedAt > rest[0].gradedAt {
      var tail := InsertByTime(bet, rest[1..]);
      InsertByTimeAt(bet, rest[1..], time);
      assert ([rest[0]] + tail)[1..] == tail;
    } else {
      assert ([bet] + rest)[1..] == rest;
    }
  }

  /** The sort orders by time, loses and adds nothing, and keeps list order at equal times. */
  lemma {:induction false} SortByTimeIsStable(bets: seq<GradedBet>)
    ensures var s := SortByTime(bets);
            InOrder(s) && multiset(s) == multiset(bets) && forall t :: At(s, t) == At(bets, t)
  {
    if bets != [] {
      SortByTimeIsStable(bets[1..]);
      InsertByTimeMembers(bets[0], SortByTime(bets[1..]));
      InsertByTimeOrders(bets[0], SortByTime(bets[1..]));
      forall t ensures At(SortByTime(bets), t) == At(bets, t) {
        InsertByTimeAt(bets[0], SortByTime(bets[1..]), t);
      }
      assert bets == [bets[0]] + bets[1..];
    }
  }

  // ---------- what streaks mean ----------

  function DecidedStatuses(bets: seq<GradedBet>): seq<Status> {
    var decided := DecidedBets(SortByTime(bets));
    seq(|decided|, i requires 0 <= i < |decided| => decided[i].status)
  }

  /** statuses[lo..hi] are all x. */
  predicate Block(statuses: seq<Status>, lo: int, hi: int, x: Status) {
    0 <= lo <= hi <= |statuses| && forall i :: lo <= i < hi ==> statuses[i] == x
  }

  ghost predicate Longest(statuses: seq<Status>, x: Status, n: nat) {
    && (exists lo, hi :: Block(statuses, lo, hi, x) && hi - lo == n)
    && (forall lo, hi :: Block(statuses, lo, hi, x) ==> hi - lo <= n)
  }

  /** The final block of equal statuses is n long and consists of x. */
  ghost predicate Final(statuses: seq<Status>, x: Status, n: nat) {
    && Block(statuses, |statuses| - n, |statuses|, x)
    && (n < |statuses| ==> statuses[|statuses| - n - 1] != x)
  }

  /** Zero without decided bets; else the final block's length, negative when it is of losses. */
  ghost predicate Current(statuses: seq<Status>, current: int) {
    if statuses == [] then current == 0
    else
      var last := statuses[|statuses| - 1];
      current != 0 && (current > 0 <==> last == WON)
      && Final(statuses, last, if current > 0 then current else -current)
  }

  lemma FinalGrows(before: seq<Status>, run: nat, next: Status)
    requires before != [] ==> Final(before, before[|before| - 1], run)
    requires before == [] ==> run == 0
    ensures Final(before + [next], next, if before != [] && before[|before| - 1] == next then run + 1 else 1)
  {
  }

  lemma LongestGrows(before: seq<Status>, next: Status, x: Status, n: nat, run: nat)
    requires Longest(before, x, n) && Final(before + [next], next, run)
    ensures Longest(before + [next], x, if x == next then Max(n, run) else n)
  {
    var after := before + [next];
    var best := if x == next then Max(n, run) else n;
    var lo, hi :| Block(before, lo, hi, x) && hi - lo == n;
    assert after[..|before|] == before;
    assert Block(after, lo, hi, x);
    if x == next {
      assert Block(after, |after| - run, |after|, x);
    }
    assert after[|before|] == next;
    forall a, b | Block(after, a, b, x) ensures b - a <= best {
      if b <= |before| {
        assert forall i :: a <= i < b ==> before[i] == after[i];
        assert Block(before, a, b, x);
      }
    }
  }

  lemma OnlyWonAndLost(bets: seq<GradedBet>)
    ensures forall i :: 0 <= i < |DecidedStatuses(bets)| ==> DecidedStatuses(bets)[i] in {WON, LOST}
  {
    var decided := DecidedBets(SortByTime(bets));
    FilterMembers(SortByTime(bets), (bet: GradedBet) => Decided(bet));
    assert forall i :: 0 <= i < |decided| ==> decided[i] in decided;
  }

  /** What the loop's variables say of the statuses seen so far. */
  ghost predicate Counted(seen: seq<Status>, run: int, runStatus: Option<Status>, win: nat, loss: nat) {
    && run >= 0 && (seen == [] ==> run == 0 && runStatus == None)
    && (seen != [] ==> runStatus == Some(seen[|seen| - 1]) && run > 0 && Final(seen, seen[|seen| - 1], run))
    && Longest(seen, WON, win) && Longest(seen, LOST, loss)
  }

  lemma NothingCounted()
    ensures Counted([], 0, None, 0, 0)
  {
    assert Block([], 0, 0, WON) && Block([], 0, 0, LOST);
  }

  lemma CountedNext(seen: seq<Status>, run: int, runStatus: Option<Status>, win: nat, loss: nat, status: Status)
    requires Counted(seen, run, runStatus, win, loss) && status in {WON, LOST}
    ensures var next := if runStatus == Some(status) then run + 1 else 1;
            Counted(seen + [status], next, Some(status), if status == WON then Max(win, next) else win,
                    if status == WON then loss else Max(loss, next))
  {
    var next := if runStatus == Some(status) then run + 1 else 1;
    FinalGrows(seen, run, status);
    LongestGrows(seen, status, WON, win, next);
    LongestGrows(seen, status, LOST, loss, next);
  }

  /** (current, longest win, longest loss), by graded_at. */
  method Streaks(bets: seq<GradedBet>) returns (current: int, longestWin: nat, longestLoss: nat)
    ensures Current(DecidedStatuses(bets), current)
    ensures Longest(DecidedStatuses(bets), WON, longestWin) && Longest(DecidedStatuses(bets), LOST, longestLoss)
  {
    var statuses := DecidedStatuses(bets);
    OnlyWonAndLost(bets);
    longestWin, longestLoss := 0, 0;
    var run := 0;
    var runStatus: Option<Status> := None;
    NothingCounted();
    for k := 0 to |statuses|
      invariant Counted(statuses[..k], run, runStatus, longestWin, longestLoss)
    {
      var status := statuses[k];
      assert statuses[..k + 1] == statuses[..k] + [status];
      CountedNext(statuses[..k], run, runStatus, longestWin, longestLoss, status);
      run := if runStatus == Some(status) then run + 1 else 1;
      runStatus := Some(status);
      if status == WON {
        longestWin := Max(longestWin, run);
      } else {
        longestLoss := Max(longestLoss, run);
      }
    }
    assert statuses[..|statuses|] == statuses;
    current := if runStatus == Some(WON) then run else -run;
  }

  // ---------- the order of the input does not matter ----------

  predicate DistinctTimes(bets: seq<GradedBet>) {
    forall i, j :: 0 <= i < j < |bets| ==> bets[i].gradedAt != bets[j].gradedAt
  }

  lemma {:induction false} OrderedIsUnique(a: seq<GradedBet>, b: seq<GradedBet>)
    requires InOrder(a) && InOrder(b) && DistinctTimes(a) && DistinctTimes(b)
    requires |a| == |b| && forall bet :: bet in a <==> bet in b
    ensures a == b
  {
    if a != [] {
      assert a[0] in a && a[0] in b;
      var i :| 0 <= i < |b| && b[i] == a[0];
      assert b[0] in b && b[0] in a;
      assert a[0] == b[0];
      forall bet ensures bet in a[1..] <==> bet in b[1..] {
        assert bet in a[1..] <==> bet in a && bet != a[0];
        assert bet in b[1..] <==> bet in b && bet != b[0];
      }
      OrderedIsUnique(a[1..], b[1..]);
      assert a == [a[0]] + a[1..] && b == [b[0]] + b[1..];
    }
  }

  lemma DistinctStays(a: seq<GradedBet>, b: seq<GradedBet>)
    requires DistinctTimes(a) && multiset(a) == multiset(b)
    ensures DistinctTimes(b)
  {
    forall i, j | 0 <= i < j < |b| ensures b[i].gradedAt != b[j].gradedAt {
      if b[i].gradedAt == b[j].gradedAt {
        assert b[i] in multiset(a) && b[j] in multiset(a);
        var m :| 0 <= m < |a| && a[m] == b[i];
        var n :| 0 <= n < |a| && a[n] == b[j];
        assert m == n;
        TwiceInB(b, i, j);
        OnceInA(a, m);
      }
    }
  }

  lemma TwiceInB(b: seq<GradedBet>, i: nat, j: nat)
    requires i < j < |b| && b[i] == b[j]
    ensures multiset(b)[b[i]] >= 2
  {
    assert b == b[..j] + [b[j]] + b[j + 1..];
    assert b[..j][i] in multiset(b[..j]);
  }

  lemma OnceInA(a: seq<GradedBet>, m: nat)
    requires DistinctTimes(a) && m < |a|
    ensures multiset(a)[a[m]] == 1
  {
    assert a == a[..m] + [a[m]] + a[m + 1..];
    assert a[m] !in a[..m] && a[m] !in a[m + 1..];
  }

  /** When no two bets are graded at one instant, the streaks depend only on which bets there are. */
  lemma StreaksIgnoreListOrder(a: seq<GradedBet>, b: seq<GradedBet>)
    requires DistinctTimes(a) && multiset(a) == multiset(b)
    ensures DecidedStatuses(a) == DecidedStatuses(b)
  {
    SortByTimeIsStable(a);
    SortByTimeIsStable(b);
    DistinctStays(a, SortByTime(a));
    DistinctStays(a, SortByTime(b));
    assert forall bet :: bet in SortByTime(a) <==> bet in multiset(SortByTime(a));
    assert forall bet :: bet in SortByTime(b) <==> bet in multiset(SortByTime(b));
    assert |SortByTime(a)| == |multiset(a)| && |SortByTime(b)| == |multiset(b)| by {
      assert |multiset(SortByTime(a))| == |SortByTime(a)| && |multiset(SortByTime(b))| == |SortByTime(b)|;
    }
    OrderedIsUnique(SortByTime(a), SortByTime(b));
  }
}
