/**
  The one task reference of a shared image.  Every VM reconcile that finds a task on record polls
  it as its own, whichever provider was asked to prepare.  This module says when a provider is
  marked available although PrepareImage was never called on it.
 */
module ImageTasks {
  import opened Common
  import opened ImagePrepare
  import opened ImageRuns

  /** The store, and the providers PrepareImage was called on. */
  datatype System = System(store: Store, called: set<string>)

  datatype Event =
    | Ensures(t: nat, version: nat, p: ProviderInfo, env: EnsureEnv)   // a reconcile decides on a version it read
    | Stores(step: Step)                                               // a writer, a crash or an edit moves on

  predicate Possible(s: System, e: Event) {
    match e
    case Ensures(t, version, _, _) => s.store.At(t).Resting? && version < |s.store.history|
    case Stores(step) => !step.Begin? && Enabled(s.store, step)
  }

  function Decided(spec: ImageSpec, s: System, e: Event): Decision
    requires e.Ensures? && Possible(s, e)
  {
    Decide(spec, s.store.history[e.version], e.p, e.env)
  }

  function Happens(spec: ImageSpec, s: System, e: Event): System
    requires Possible(s, e)
  {
    match e
    case Ensures(t, _, p, _) =>
      var d := Decided(spec, s, e);
      System(if d.change.Some? then Next(s.store, Begin(t, d.change.value)) else s.store,
             if d.prepares then s.called + {p.name} else s.called)
    case Stores(step) => s.(store := Next(s.store, step))
  }

  predicate Valid(spec: ImageSpec, s: System, es: seq<Event>)
    decreases |es|
  {
    es == [] || (Possible(s, es[0]) && Valid(spec, Happens(spec, s, es[0]), es[1..]))
  }

  function Run(spec: ImageSpec, s: System, es: seq<Event>): System
    requires Valid(spec, s, es)
    decreases |es|
  {
    if es == [] then s else Run(spec, Happens(spec, s, es[0]), es[1..])
  }

  function Start(init: ImageStatus): System {
    System(Fresh(init), {})
  }

  // ---------------------------------------------------------------------------------------
  // Whose task it is

  /** The provider whose import set the task on record after these commits. */
  function TaskOwner(log: seq<Commit>): Option<string> {
    if log == [] then None
    else
      var last := log[|log| - 1];
      if last.ByWriter? && last.change.Triggered? then Some(last.change.provider)
      else if last.ByWriter? && last.change.Prepared? then None
      else TaskOwner(log[..|log| - 1])
  }

  /** Another provider's task is on record in some version made by these commits. */
  predicate ForeignTask(log: seq<Commit>, p: string) {
    exists v :: 0 <= v <= |log| && TaskOwner(log[..v]).Some? && TaskOwner(log[..v]).value != p
  }

  /** A change some reconcile could have decided on. */
  predicate Earned(called: set<string>, log: seq<Commit>, change: Change) {
    match change
    case Triggered(p, task, _, _) => p in called && task != ""
    case Prepared(p, _, _) => p in called || ForeignTask(log, p)
    case _ => true
  }

  predicate LogEarned(called: set<string>, log: seq<Commit>) {
    forall i :: 0 <= i < |log| && log[i].ByWriter? ==> Earned(called, log[..i], log[i].change)
  }

  predicate WritersEarned(called: set<string>, log: seq<Commit>, writers: map<nat, Writer>) {
    forall t :: t in writers && !writers[t].Resting? ==> Earned(called, log, writers[t].change)
  }

  ghost predicate TaskInv(init: ImageStatus, s: System) {
    && Serial(init, s.store) && LogEarned(s.called, s.store.log)
    && WritersEarned(s.called, s.store.log, s.store.writers)
  }

  /** The task on record is that of the last import, which its provider was called for. */
  lemma {:induction false} OwnerIsCalled(init: ImageStatus, called: set<string>, log: seq<Commit>)
    requires init.prepareTask == ""
    requires LogEarned(called, log)
    ensures Folded(init, log).prepareTask != "" <==> TaskOwner(log).Some?
    ensures TaskOwner(log).Some? ==> TaskOwner(log).value in called
  {
    if log != [] {
      var before := log[..|log| - 1];
      assert forall i :: 0 <= i < |before| ==> before[..i] == log[..i];
      OwnerIsCalled(init, called, before);
    }
  }

  lemma OwnerOfVersion(init: ImageStatus, s: System, v: nat)
    requires TaskInv(init, s) && init.prepareTask == "" && v < |s.store.history|
    ensures v <= |s.store.log|
    ensures s.store.history[v].prepareTask != "" <==> TaskOwner(s.store.log[..v]).Some?
    ensures TaskOwner(s.store.log[..v]).Some? ==> TaskOwner(s.store.log[..v]).value in s.called
  {
    var log := s.store.log[..v];
    assert forall i :: 0 <= i < |log| ==> log[..i] == s.store.log[..i];
    OwnerIsCalled(init, s.called, log);
  }

  lemma ForeignLater(log: seq<Commit>, more: seq<Commit>, p: string)
    requires log <= more && ForeignTask(log, p)
    ensures ForeignTask(more, p)
  {
    var v :| 0 <= v <= |log| && TaskOwner(log[..v]).Some? && TaskOwner(log[..v]).value != p;
    assert more[..v] == log[..v];
  }

  lemma EarnedLater(called: set<string>, more: set<string>, log: seq<Commit>, longer: seq<Commit>, change: Change)
    requires Earned(called, log, change) && called <= more && log <= longer
    ensures Earned(more, longer, change)
  {
    if change.Prepared? && change.provider !in called {
      ForeignLater(log, longer, change.provider);
    }
  }

  /** What a reconcile decides on is earned. */
  lemma DecisionEarned(spec: ImageSpec, init: ImageStatus, s: System, e: Event)
    requires TaskInv(init, s) && init.prepareTask == "" && e.Ensures? && Possible(s, e)
    ensures var d := Decided(spec, s, e);
            d.change.Some? ==> Earned(Happens(spec, s, e).called, s.store.log, d.change.value)
  {
    OwnerOfVersion(init, s, e.version);
    var owner := TaskOwner(s.store.log[..e.version]);
    if owner.Some? && owner.value != e.p.name {
      assert ForeignTask(s.store.log, e.p.name);
    }
  }

  lemma LogLater(called: set<string>, more: set<string>, log: seq<Commit>)
    requires LogEarned(called, log) && called <= more
    ensures LogEarned(more, log)
  {
    forall i | 0 <= i < |log| && log[i].ByWriter?
      ensures Earned(more, log[..i], log[i].change)
    {
      EarnedLater(called, more, log[..i], log[..i], log[i].change);
    }
  }

  lemma LogSnoc(called: set<string>, log: seq<Commit>, c: Commit)
    requires LogEarned(called, log) && (c.ByWriter? ==> Earned(called, log, c.change))
    ensures LogEarned(called, log + [c])
  {
    var more := log + [c];
    assert more[..|log|] == log && forall i :: 0 <= i < |log| ==> more[..i] == log[..i] && more[i] == log[i];
  }

  lemma WritersLater(
      called: set<string>, more: set<string>, log: seq<Commit>, longer: seq<Commit>, writers: map<nat, Writer>)
    requires WritersEarned(called, log, writers) && called <= more && log <= longer
    ensures WritersEarned(more, longer, writers)
  {
    forall t | t in writers && !writers[t].Resting?
      ensures Earned(more, longer, writers[t].change)
    {
      EarnedLater(called, more, log, longer, writers[t].change);
    }
  }

  lemma EnsuresKeeps(spec: ImageSpec, init: ImageStatus, s: System, e: Event)
    requires TaskInv(init, s) && init.prepareTask == "" && e.Ensures? && Possible(s, e)
    ensures TaskInv(init, Happens(spec, s, e))
  {
    var n, d := Happens(spec, s, e), Decided(spec, s, e);
    DecisionEarned(spec, init, s, e);
    LogLater(s.called, n.called, s.store.log);
    WritersLater(s.called, n.called, s.store.log, s.store.log, s.store.writers);
    if d.change.Some? {
      StepStaysSerial(init, s.store, Begin(e.t, d.change.value));
    }
  }

  lemma StoresKeeps(spec: ImageSpec, init: ImageStatus, s: System, step: Step)
    requires TaskInv(init, s) && Possible(s, Stores(step))
    ensures TaskInv(init, Happens(spec, s, Stores(step)))
  {
    var n := Next(s.store, step);
    StepStaysSerial(init, s.store, step);
    if n.log != s.store.log {
      LogSnoc(s.called, s.store.log, n.log[|s.store.log|]);
      WritersLater(s.called, s.called, s.store.log, n.log, s.store.writers);
    }
  }

  lemma HappensKeeps(spec: ImageSpec, init: ImageStatus, s: System, e: Event)
    requires TaskInv(init, s) && init.prepareTask == "" && Possible(s, e)
    ensures TaskInv(init, Happens(spec, s, e))
  {
    match e {
      case Ensures(_, _, _, _) => EnsuresKeeps(spec, init, s, e);
      case Stores(step) => StoresKeeps(spec, init, s, step);
    }
  }

  lemma {:induction false} RunKeeps(spec: ImageSpec, init: ImageStatus, s: System, es: seq<Event>)
    requires TaskInv(init, s) && init.prepareTask == "" && Valid(spec, s, es)
    ensures TaskInv(init, Run(spec, s, es))
    decreases |es|
  {
    if es != [] {
      HappensKeeps(spec, init, s, es[0]);
      RunKeeps(spec, init, Happens(spec, s, es[0]), es[1..]);
    }
  }

  lemma StartHolds(init: ImageStatus)
    ensures TaskInv(init, Start(init))
  {
    assert Folded(init, []) == init;
  }

  // ---------------------------------------------------------------------------------------
  // Main results

  /**
    In every interleaving: a provider that is available in some version although PrepareImage was
    never called on it was so marked after another provider's task had been on record.
   */
  lemma {:induction false} UncalledMeansForeignTask(
      spec: ImageSpec, init: ImageStatus, es: seq<Event>, v: nat, p: string)
    requires Valid(spec, Start(init), es) && init.prepareTask == "" && p !in init.entries
    requires var s := Run(spec, Start(init), es); v < |s.store.history| && s.store.history[v].Available(p)
    requires p !in Run(spec, Start(init), es).called
    ensures var log := Run(spec, Start(init), es).store.log; v <= |log| && ForeignTask(log[..v], p)
  {
    StartHolds(init);
    RunKeeps(spec, init, Start(init), es);
    var s := Run(spec, Start(init), es);
    EntryHasOrigin(init, s.store.log[..v], p);
    var i :| 0 <= i < v && s.store.log[i].ByWriter? && s.store.log[i].change.Prepared?
             && s.store.log[i].change.provider == p;
    assert Earned(s.called, s.store.log[..i], s.store.log[i].change);
    ForeignLater(s.store.log[..i], s.store.log[..v], p);
  }

  /**
    Exactly when.  In every reachable state, a reconcile that decides to mark a provider PrepareImage
    was not called on does so without calling it now if and only if the version it read carries a
    task set by another provider.
   */
  lemma {:induction false} AdoptsIff(spec: ImageSpec, init: ImageStatus, es: seq<Event>, e: Event)
    requires Valid(spec, Start(init), es) && init.prepareTask == ""
    requires var s := Run(spec, Start(init), es);
             && e.Ensures? && Possible(s, e) && e.p.name !in s.called
             && Decided(spec, s, e).change.Some? && Decided(spec, s, e).change.value.Prepared?
    ensures var s := Run(spec, Start(init), es);
            && e.version <= |s.store.log| && Decided(spec, s, e).change.value.provider == e.p.name
            && (e.p.name !in Happens(spec, s, e).called
                <==> var owner := TaskOwner(s.store.log[..e.version]); owner.Some? && owner.value != e.p.name)
  {
    StartHolds(init);
    RunKeeps(spec, init, Start(init), es);
    OwnerOfVersion(init, Run(spec, Start(init), es), e.version);
  }

  predicate Importable(spec: ImageSpec, init: ImageStatus, p: ProviderInfo) {
    NeedsPrepare(spec.source) && MissingAction(spec) == Import && p.Capable() && !init.Available(p.name)
  }

  /** One reconcile decides, re-reads the latest version and commits. */
  lemma {:induction false} Commits(spec: ImageSpec, s: System, t: nat, p: ProviderInfo, env: EnsureEnv)
    returns (es: seq<Event>, n: System)
    requires s.store.At(t).Resting? && s.store.history != []
    requires Decide(spec, s.store.history[|s.store.history| - 1], p, env).change.Some?
    ensures Valid(spec, s, es) && n == Run(spec, s, es)
    ensures var last := s.store.history[|s.store.history| - 1];
            var d := Decide(spec, last, p, env);
            && n.store.history == s.store.history + [Applied(d.change.value, last)]
            && n.called == (if d.prepares then s.called + {p.name} else s.called)
            && (forall u :: u != t ==> n.store.At(u) == s.store.At(u))
  {
    var v := |s.store.history| - 1;
    var a, b, d := Ensures(t, v, p, env), Stores(Get(t, v)), Stores(Put(t, false));
    var s1 := Happens(spec, s, a);
    var s2 := Happens(spec, s1, b);
    n := Happens(spec, s2, d);
    es := [a, b, d];
    assert es[1..] == [b, d] && [b, d][1..] == [d] && [d][1..] == [];
    assert Valid(spec, n, []) && Run(spec, n, []) == n;
    assert Valid(spec, s2, [d]) && Run(spec, s2, [d]) == n;
    assert Valid(spec, s1, [b, d]) && Run(spec, s1, [b, d]) == n;
  }

  lemma {:induction false} RunConcat(spec: ImageSpec, s: System, es: seq<Event>, more: seq<Event>)
    requires Valid(spec, s, es) && Valid(spec, Run(spec, s, es), more)
    ensures Valid(spec, s, es + more) && Run(spec, s, es + more) == Run(spec, Run(spec, s, es), more)
    decreases |es|
  {
    if es == [] {
      assert es + more == more;
    } else {
      assert (es + more)[1..] == es[1..] + more;
      RunConcat(spec, Happens(spec, s, es[0]), es[1..], more);
    }
  }

  /**
    It happens: for every image to be imported and every two providers there is a run in which one
    becomes available although PrepareImage was called on the other one only.
   */
  lemma {:induction false} AvailableUncalled(spec: ImageSpec, init: ImageStatus, q: ProviderInfo, p: ProviderInfo)
    returns (es: seq<Event>)
    requires init.prepareTask == "" && q.name != p.name
    requires Importable(spec, init, q) && Importable(spec, init, p)
    ensures Valid(spec, Start(init), es)
    ensures var s := Run(spec, Start(init), es);
            && s.called == {q.name}
            && s.store.history != [] && s.store.history[|s.store.history| - 1].Available(p.name)
  {
    var asking := EnsureEnv(TaskRunning, Accepted("", "", "task"), []);
    var polling := EnsureEnv(TaskDone, PrepareError, []);
    var first, s := Commits(spec, Start(init), 0, q, asking);
    var second, n := Commits(spec, s, 1, p, polling);
    RunConcat(spec, Start(init), first, second);
    es := first + second;
  }
}
