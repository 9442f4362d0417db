/**
  Progress of a migration: every phase change strictly decreases a measure, retries are
  counted, bounded and spaced by the backoff delay, and the terminal phases absorb.
 */
module MigrationTermination {
  import opened Common
  import opened MigrationPlan
  import opened MigrationShape
  import opened MigrationWorld

  function Rank(p: Phase): nat {
    match p
    case Unset => 10
    case Pending => 9
    case Validating => 8
    case Snapshotting => 7
    case Exporting => 6
    case Transferring => 5
    case Converting => 4
    case Importing => 3
    case Creating => 2
    case ValidatingTarget => 1
    case Ready => 0
    case Failed => 0
  }

  function RetryLimit(c: Config): nat {
    Max(0, c.MaxRetries())
  }

  /** The lexicographic measure (retries left, phase rank), flattened. */
  function Measure(c: Config, st: Status): int {
    (RetryLimit(c) - st.retryCount) * 11 + Rank(st.phase)
  }

  predicate IsRetry(a: Status, b: Status) {
    a.phase == Failed && b.phase == Pending
  }

  // ---------------------------------------------------------------------------------------
  // Consecutive persisted statuses

  /** A retry is allowed by the policy and waits out the backoff since the recorded last one. */
  predicate RetryLink(c: Config, a: Status, b: Status) {
    && c.retryPolicy.Some? && a.retryCount < c.MaxRetries()
    && b.phase == Pending && b.retryCount == a.retryCount + 1 && b.lastRetry.Some?
    && (a.lastRetry.Some? ==>
          b.lastRetry.value - a.lastRetry.value >= RetryDelay(c.retryPolicy.value, a.retryCount))
  }

  predicate Link(c: Config, a: Status, b: Status) {
    if a.phase == Failed then RetryLink(c, a, b)
    else
      && b.retryCount == a.retryCount && b.lastRetry == a.lastRetry
      && (b.phase == a.phase || Rank(b.phase) < Rank(a.phase))
  }

  predicate Linked(c: Config, h: seq<Status>) {
    forall i :: 0 < i < |h| ==> Link(c, h[i - 1], h[i])
  }

  predicate WritesLink(c: Config, w: World, e: Effect) {
    e.WriteStatus? ==> Link(c, w.status, e.status)
  }

  predicate HistoryInv(c: Config, w: World) {
    && |w.history| > 0 && w.history[0] == INITIAL_STATUS && w.history[|w.history| - 1] == w.status
    && Linked(c, w.history)
  }

  lemma LateWritesLink(c: Config, st: Status, guard: set<LongOp>, vms: map<Key, Vm>, power: Power, env: Env, p: Plan)
    requires PhaseShape(c, st, guard, vms, power, env, p) && p.write.Some?
    requires st.phase !in {Validating, Snapshotting, Exporting, Importing}
    ensures p.named.None? && Link(c, st, p.write.value)
  {
  }

  lemma TransferWritesLink(c: Config, st: Status, guard: set<LongOp>, p: Plan)
    requires (st.phase == Exporting && ExportingShape(c, st, guard, p))
             || (st.phase == Importing && ImportingShape(c, st, guard, p))
    requires p.write.Some?
    ensures p.named.None? && Link(c, st, p.write.value)
  {
  }

  lemma EarlyWritesLink(c: Config, st: Status, vms: map<Key, Vm>, power: Power, p: Plan)
    requires (st.phase == Validating && ValidatingShape(c, st, vms, power, p))
             || (st.phase == Snapshotting && SnapshottingShape(c, st, p))
    ensures Link(c, st, BaseOf(st, p))
    ensures p.write.Some? ==> Link(c, BaseOf(st, p), p.write.value)
  {
  }

  lemma {:induction false} ShapeWritesLink(
      c: Config, o: Object, guard: set<LongOp>, vms: map<Key, Vm>, power: Power, env: Env, p: Plan)
    requires ReconcileShape(c, o, guard, vms, power, env, p)
    ensures p.named.Some? ==> Link(c, o.status, p.named.value)
    ensures p.write.Some? ==> Link(c, BaseOf(o.status, p), p.write.value)
  {
    var st := o.status;
    if !o.deleting && o.finalizer {
      if st.phase in {Validating, Snapshotting} {
        EarlyWritesLink(c, st, vms, power, p);
      } else if st.phase in {Exporting, Importing} {
        if p.write.Some? {
          TransferWritesLink(c, st, guard, p);
        }
      } else if p.write.Some? {
        LateWritesLink(c, st, guard, vms, power, env, p);
      }
    }
  }

  lemma LinkKeepsHistory(c: Config, w: World, e: Effect)
    requires HistoryInv(c, w) && WritesLink(c, w, e)
    ensures HistoryInv(c, Apply(c, w, e))
  {
  }

  lemma {:induction false} LinkKeepsPrefix(c: Config, w: World, es: seq<Effect>, k: nat)
    requires HistoryInv(c, w) && Lawful(c, w, es, WritesLink) && k <= |es|
    ensures HistoryInv(c, ApplyAll(c, w, es[..k]))
  {
    forall u: World, e: Effect | HistoryInv(c, u) && WritesLink(c, u, e)
      ensures HistoryInv(c, Apply(c, u, e))
    {
      LinkKeepsHistory(c, u, e);
    }
    LawfulPrefix(c, w, es, k, HistoryInv, WritesLink);
  }

  lemma PlanLinks(c: Config, w: World, ev: Event)
    requires ev.Reconcile? && ReadsFresh(w, ev)
    ensures Lawful(c, w, Effects(PlanOf(c, w, ev)), WritesLink)
  {
    var p := PlanOf(c, w, ev);
    PlanHasShape(c, ev.read, w.guard, ev.view, ev.viewPower, ev.env);
    ShapeHasNoWriteCalls(c, ev.read, w.guard, ev.view, ev.viewPower, ev.env, p);
    ShapeWritesLink(c, ev.read, w.guard, ev.view, ev.viewPower, ev.env, p);
    WritesLawful(c, w, p, WritesLink);
  }

  lemma ReconcileKeepsHistory(c: Config, w: World, ev: Event)
    requires HistoryInv(c, w) && ev.Reconcile? && Enabled(c, w, ev) && ReadsFresh(w, ev)
    ensures HistoryInv(c, Step(c, w, ev)) && w.history <= Step(c, w, ev).history
  {
    PlanLinks(c, w, ev);
    var es := Effects(PlanOf(c, w, ev));
    var k := StepIsPrefix(c, w, ev);
    LinkKeepsPrefix(c, w, es, k);
    HistoryGrows(c, w, es[..k]);
  }

  lemma StepKeepsHistory(c: Config, w: World, ev: Event)
    requires HistoryInv(c, w) && Enabled(c, w, ev) && ReadsFresh(w, ev)
    ensures HistoryInv(c, Step(c, w, ev)) && w.history <= Step(c, w, ev).history
  {
    if ev.Reconcile? {
      ReconcileKeepsHistory(c, w, ev);
    } else {
      assert Step(c, w, ev).history == w.history && Step(c, w, ev).status == w.status;
    }
  }

  lemma {:induction false} HistoryGrows(c: Config, w: World, es: seq<Effect>)
    ensures w.history <= ApplyAll(c, w, es).history
    decreases |es|
  {
    if es != [] {
      HistoryGrows(c, Apply(c, w, es[0]), es[1..]);
    }
  }

  /** In a run with fresh reads each persisted status follows legally from the one before it. */
  lemma {:induction false} HistoryIsLinked(c: Config, w: World, evs: seq<Event>)
    requires Initial(w) && FreshRun(c, w, evs)
    ensures HistoryInv(c, Run(c, w, evs))
    decreases |evs|
  {
    if evs != [] {
      var before := evs[..|evs| - 1];
      HistoryIsLinked(c, w, before);
      StepKeepsHistory(c, Run(c, w, before), evs[|evs| - 1]);
    }
  }

  // ---------------------------------------------------------------------------------------
  // What a linked history implies

  function PhaseChanges(h: seq<Status>): nat {
    if |h| <= 1 then 0
    else PhaseChanges(h[..|h| - 1]) + if h[|h| - 1].phase != h[|h| - 2].phase then 1 else 0
  }

  function Retries(h: seq<Status>): nat {
    if |h| <= 1 then 0
    else Retries(h[..|h| - 1]) + if IsRetry(h[|h| - 2], h[|h| - 1]) then 1 else 0
  }

  /** Each phase change strictly decreases the measure; other writes leave it alone. */
  lemma LinkDecreases(c: Config, a: Status, b: Status)
    requires Link(c, a, b)
    ensures if a.phase != b.phase then Measure(c, b) < Measure(c, a) else Measure(c, b) == Measure(c, a)
    ensures IsRetry(a, b) <==> b.retryCount == a.retryCount + 1
    ensures IsRetry(a, b) || b.retryCount == a.retryCount
  {
  }

  lemma {:induction false} LinkedCounts(c: Config, h: seq<Status>)
    requires |h| > 0 && h[0] == INITIAL_STATUS && Linked(c, h)
    ensures h[|h| - 1].retryCount == Retries(h) <= RetryLimit(c)
    ensures PhaseChanges(h) + Measure(c, h[|h| - 1]) <= Measure(c, INITIAL_STATUS)
    decreases |h|
  {
    if |h| > 1 {
      LinkedCounts(c, h[..|h| - 1]);
      LinkDecreases(c, h[|h| - 2], h[|h| - 1]);
    }
  }

  /**
    Termination.  In every run with fresh reads, however reconciles end, RetryCount is the
    number of Failed-to-Pending steps, never exceeds the limit, and the phase changes so far
    plus the rank still to descend are at most eleven per attempt.
   */
  lemma {:induction false} MigrationTerminates(c: Config, w: World, evs: seq<Event>)
    requires Initial(w) && FreshRun(c, w, evs)
    ensures var end := Run(c, w, evs);
            && end.status.retryCount == Retries(end.history) <= RetryLimit(c)
            && PhaseChanges(end.history) + Rank(end.status.phase) <= 10 + 11 * end.status.retryCount
  {
    HistoryIsLinked(c, w, evs);
    LinkedCounts(c, Run(c, w, evs).history);
  }

  /**
    Retry spacing.  Wherever the history takes a retry after an earlier one, the two recorded
    retry times are at least the backoff delay apart.
   */
  lemma {:induction false} RetriesAreSpaced(c: Config, w: World, evs: seq<Event>, i: nat)
    requires Initial(w) && FreshRun(c, w, evs)
    requires 0 < i < |Run(c, w, evs).history|
    requires var h := Run(c, w, evs).history; IsRetry(h[i - 1], h[i]) && h[i - 1].lastRetry.Some?
    ensures var h := Run(c, w, evs).history;
            && c.retryPolicy.Some? && h[i].lastRetry.Some?
            && h[i].lastRetry.value
               >= h[i - 1].lastRetry.value + RetryDelay(c.retryPolicy.value, h[i - 1].retryCount)
  {
    HistoryIsLinked(c, w, evs);
    var h := Run(c, w, evs).history;
    assert Link(c, h[i - 1], h[i]);
  }

  // ---------------------------------------------------------------------------------------
  // Terminal phases

  predicate Terminal(c: Config, st: Status) {
    st.phase == Ready || (st.phase == Failed && Exhausted(c, st))
  }

  lemma {:induction false} LinkedTerminal(c: Config, h: seq<Status>, i: nat, j: nat)
    requires Linked(c, h) && i <= j < |h| && Terminal(c, h[i])
    ensures h[j].phase == h[i].phase && h[j].retryCount == h[i].retryCount
    ensures h[i].phase == Failed ==> j == i
    decreases j - i
  {
    if i < j {
      assert Link(c, h[i], h[i + 1]);
      LinkedTerminal(c, h, i + 1, j);
    }
  }

  lemma {:induction false} RunHistoryGrows(c: Config, w: World, evs: seq<Event>, m: nat)
    requires Initial(w) && FreshRun(c, w, evs) && m <= |evs|
    ensures Run(c, w, evs[..m]).history <= Run(c, w, evs).history
    decreases |evs|
  {
    if m < |evs| {
      var before := evs[..|evs| - 1];
      assert before[..m] == evs[..m];
      RunHistoryGrows(c, w, before, m);
      HistoryIsLinked(c, w, before);
      StepKeepsHistory(c, Run(c, w, before), evs[|evs| - 1]);
    } else {
      assert evs[..m] == evs;
    }
  }

  /** The same for a history that has grown. */
  lemma TerminalHistory(c: Config, early: seq<Status>, late: seq<Status>)
    requires Linked(c, late) && early <= late && |early| > 0 && Terminal(c, early[|early| - 1])
    ensures late[|late| - 1].phase == early[|early| - 1].phase
    ensures early[|early| - 1].phase == Failed ==> late == early
  {
    LinkedTerminal(c, late, |early| - 1, |late| - 1);
  }

  /**
    Ready and exhausted Failed absorb: once the status is terminal it keeps its phase in every
    later state of the run, and an exhausted Failed status is never written again.
   */
  lemma {:induction false} TerminalAbsorbs(c: Config, w: World, evs: seq<Event>, m: nat)
    requires Initial(w) && FreshRun(c, w, evs) && m <= |evs|
    requires Terminal(c, Run(c, w, evs[..m]).status)
    ensures Run(c, w, evs).status.phase == Run(c, w, evs[..m]).status.phase
    ensures Run(c, w, evs).status.phase == Failed ==> Run(c, w, evs).history == Run(c, w, evs[..m]).history
  {
    PrefixIsFresh(c, w, evs, m);
    HistoryIsLinked(c, w, evs[..m]);
    HistoryIsLinked(c, w, evs);
    RunHistoryGrows(c, w, evs, m);
    TerminalHistory(c, Run(c, w, evs[..m]).history, Run(c, w, evs).history);
  }

  lemma {:induction false} PrefixIsFresh(c: Config, w: World, evs: seq<Event>, m: nat)
    requires FreshRun(c, w, evs) && m <= |evs|
    ensures FreshRun(c, w, evs[..m])
    decreases |evs|
  {
    if m < |evs| {
      var before := evs[..|evs| - 1];
      PrefixIsFresh(c, w, before, m);
      assert before[..m] == evs[..m];
    } else {
      assert evs[..m] == evs;
    }
  }
}
