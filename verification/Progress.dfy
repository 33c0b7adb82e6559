/** The client's progress log: a line at the start, at every 5 percent, and at the end. */
module Progress {
  import opened Bytes

  datatype LogLine = Milestone(pct: nat) | Received(count: nat)

  function Milestones(log: seq<LogLine>): seq<nat>
  {
    if log == [] then []
    else
      var before := Milestones(log[..|log| - 1]);
      match log[|log| - 1]
      case Milestone(p) => before + [p]
      case Received(_) => before
  }

  /** Strictly increasing multiples of 5, all below `bound`. */
  ghost predicate Climbs(s: seq<nat>, bound: nat)
  {
    && (forall i | 0 <= i < |s| :: s[i] % 5 == 0 && s[i] < bound)
    && (forall i, j | 0 <= i < j < |s| :: s[i] < s[j])
  }

  lemma {:induction false} ClimbsLength(s: seq<nat>, bound: nat)
    requires Climbs(s, 5 * bound)
    ensures |s| <= bound
    decreases |s|
  {
    if s != [] {
      ClimbsLength(s[..|s| - 1], s[|s| - 1] / 5);
    }
  }

  lemma MilestonesSnoc(log: seq<LogLine>, p: nat)
    ensures Milestones(log + [Milestone(p)]) == Milestones(log) + [p]
  {
    assert (log + [Milestone(p)])[..|log|] == log;
  }

  lemma ClimbsMore(s: seq<nat>, bound: nat, p: nat)
    requires Climbs(s, bound) && p % 5 == 0 && bound <= p
    ensures Climbs(s + [p], p + 5)
  {
  }

  /** The milestone reached: the percentage rounded down to a multiple of 5, and 95 at most. */
  function Mark(done: nat, total: nat): (m: nat)
    requires total > 0
    ensures m % 5 == 0 && m <= 95
    ensures m < 95 ==> m * total <= 100 * done < (m + 5) * total
    ensures m == 95 ==> 95 * total <= 100 * done
  {
    var pct := 100 * done / total;
    MarkBounds(100 * done, total);
    if pct / 5 * 5 < 95 then pct / 5 * 5 else 95
  }

  lemma Times(a: nat, b: nat, c: nat)
    requires a <= b
    ensures a * c <= b * c
  {
    assert (b - a) * c >= 0;
  }

  lemma MarkBounds(n: nat, total: nat)
    requires total > 0
    ensures var m := n / total / 5 * 5; m * total <= n < (m + 5) * total
    ensures n / total / 5 * 5 >= 95 ==> 95 * total <= n
  {
    var q, rest := n / total, n % total;
    var m := q / 5 * 5;
    assert n == q * total + rest && q * total + total == (q + 1) * total;
    Times(m, q, total);
    Times(q + 1, m + 5, total);
    if m >= 95 {
      Times(95, q, total);
    }
  }

  function AfterLast(s: seq<nat>): nat
  {
    if s == [] then 0 else s[|s| - 1] + 5
  }

  /** The milestone is above everything logged so far. */
  ghost predicate Higher(m: nat, log: seq<LogLine>)
  {
    forall x <- Milestones(log) :: x < m
  }

  lemma HigherExactly(m: nat, log: seq<LogLine>)
    requires m % 5 == 0 && Climbs(Milestones(log), AfterLast(Milestones(log)))
    ensures Higher(m, log) <==> AfterLast(Milestones(log)) <= m
  {
    var s := Milestones(log);
    if s != [] {
      assert s[|s| - 1] in s;
      assert forall x <- s :: x <= s[|s| - 1];
    }
  }

  /**
    What a progress report adds: with an unknown size the count, at most every two seconds; else the
    milestone reached, once it is a new one.
   */
  ghost function News(log: seq<LogLine>, lastLog: real, now: real, done: nat, total: Option<nat>): seq<LogLine>
    requires total.Some? ==> total.value > 0
  {
    match total
    case None => if now - lastLog < 2.0 then [] else [Received(done)]
    case Some(t) => if Higher(Mark(done, t), log) then [Milestone(Mark(done, t))] else []
  }

  /**
    When a report adds a line: with a known size, if some multiple of 5 up to 95 has been reached and
    none as high has been logged; else if two seconds have passed.
   */
  lemma NewsExactly(log: seq<LogLine>, lastLog: real, now: real, done: nat, total: Option<nat>)
    requires total.Some? ==> total.value > 0
    ensures total == None ==> News(log, lastLog, now, done, total) == if now >= lastLog + 2.0 then [Received(done)] else []
    ensures total.Some? ==>
              (News(log, lastLog, now, done, total) != []
               <==> exists m | 0 <= m <= 95 && m % 5 == 0 && m * total.value <= 100 * done :: Higher(m, log))
  {
    if total.Some? {
      var t, top := total.value, Mark(done, total.value);
      forall m | 0 <= m <= 95 && m % 5 == 0 && m * t <= 100 * done
        ensures m <= top
      {
        if top < 95 && m > top {
          Times(top + 5, m, t);
        }
      }
      assert top * t <= 100 * done;
    }
  }

  class ProgressLog {
    var total: Option<nat>
    var done: nat
    var nextPct: nat
    var lastLog: real
    var finished: bool
    var log: seq<LogLine>
    ghost const known: bool

    ghost predicate Valid()
      reads this
    {
      && (total.Some? ==> total.value > 0)
      && nextPct % 5 == 0 && nextPct <= 105
      && Climbs(Milestones(log), nextPct)
      && nextPct == AfterLast(Milestones(log))
      && (nextPct > 100 ==> finished)
      && (known ==> total.Some? && (forall i | 0 <= i < |log| :: log[i].Milestone?) && nextPct > 0)
    }

    constructor (total: Option<nat>, now: real)
      ensures Valid() && done == 0
      ensures known <==> total.Some? && total.value > 0
      ensures Milestones(log) == if known then [0] else []
    {
      this.total := if total.Some? && total.value > 0 then total else None;
      this.known := total.Some? && total.value > 0;
      done := 0;
      finished := false;
      if total.Some? && total.value > 0 {
        nextPct := 5;
        lastLog := now;
        log := [Milestone(0)];
      } else {
        nextPct := 0;
        lastLog := 0.0;
        log := [];
      }
      new;
      assert log[..0] == [];
      assert Milestones([]) == [];
    }

    method Update(done: int, total: Option<nat>, now: real)
      requires Valid()
      modifies this
      ensures Valid() && this.done == (if done < 0 then 0 else done)
      ensures this.total == if total.Some? && total.value > 0 then total else old(this.total)
      ensures log == old(log) + News(old(log), old(lastLog), now, this.done, this.total)
      ensures lastLog == if log == old(log) then old(lastLog) else now
    {
      if total.Some? && total.value > 0 {
        this.total := total;
      }
      this.done := if done < 0 then 0 else done;
      Emit(false, now);
    }

    method Finish(now: real)
      requires Valid()
      modifies this
      ensures Valid() && finished
      ensures old(finished) ==> log == old(log)
      ensures !old(finished) ==> log == old(log) + [if total.Some? then Milestone(100) else Received(done)]
    {
      if finished {
        return;
      }
      if total.Some? {
        done := total.value;
      }
      Emit(true, now);
    }

    method Emit(final: bool, now: real)
      requires Valid() && (final ==> !finished)
      modifies this`nextPct, this`lastLog, this`finished, this`log
      ensures Valid() && (finished <==> old(finished) || final)
      ensures log == old(log) + if final then [if total.Some? then Milestone(100) else Received(done)]
                                else News(old(log), old(lastLog), now, done, total)
      ensures lastLog == if log == old(log) then old(lastLog) else now
    {
      if total.None? {
        if !final && now - lastLog < 2.0 {
          return;
        }
        LogReceived(now);
      } else {
        var milestone := if final then 100 else Mark(done, total.value);
        HigherExactly(milestone, log);
        if !final && milestone < nextPct {
          return;
        }
        LogMilestone(milestone, now);
      }
      if final {
        finished := true;
      }
    }

    method LogReceived(now: real)
      requires Valid() && total.None?
      modifies this`lastLog, this`log
      ensures Valid() && log == old(log) + [Received(done)] && lastLog == now
    {
      log := log + [Received(done)];
      assert log[..|log| - 1] == old(log);
      lastLog := now;
    }

    /** Logs a milestone; after 100 percent only the caller's `finished` is missing. */
    method LogMilestone(milestone: nat, now: real)
      requires Valid() && total.Some? && milestone % 5 == 0 && nextPct <= milestone <= 100
      modifies this`nextPct, this`lastLog, this`log
      ensures log == old(log) + [Milestone(milestone)] && nextPct == milestone + 5 && lastLog == now
      ensures Milestones(log) == Milestones(old(log)) + [milestone]
      ensures Climbs(Milestones(log), nextPct) && (old(Valid()) && known ==> forall i | 0 <= i < |log| :: log[i].Milestone?)
    {
      ClimbsMore(Milestones(log), nextPct, milestone);
      MilestonesSnoc(log, milestone);
      log := log + [Milestone(milestone)];
      lastLog := now;
      nextPct := milestone + 5;
    }

    /**
      In every reachable state at most 21 percentages have been logged, strictly increasing multiples
      of 5; and when the size was known from the start nothing else has been logged.
     */
    lemma AtMost21Lines()
      requires Valid()
      ensures |Milestones(log)| <= 21 && Climbs(Milestones(log), 105)
      ensures known ==> |log| <= 21 && |Milestones(log)| == |log|
    {
      ClimbsLength(Milestones(log), 21);
      if known {
        AllMilestones(log);
      }
    }
  }

  lemma {:induction false} AllMilestones(log: seq<LogLine>)
    requires forall i | 0 <= i < |log| :: log[i].Milestone?
    ensures |Milestones(log)| == |log|
    ensures forall i | 0 <= i < |log| :: Milestones(log)[i] == log[i].pct
    decreases |log|
  {
    if log != [] {
      AllMilestones(log[..|log| - 1]);
    }
  }
}
