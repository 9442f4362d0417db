/**
  Any number of VM reconciles preparing one shared image.

  The image lives in a store that accepts an update only if it was computed from the current
  version.  Reads come from a cache and may return any version.  Every writer follows the
  retry loop of the status writer: read, apply its change, update, and again on conflict.
 */
module ImageRuns {
  import opened ImagePrepare

  datatype Writer =
    | Resting
    | Reading(change: Change, left: nat)
    | Updating(change: Change, left: nat, version: nat)

  /** What made a version: a writer's change, or an edit that leaves the status alone. */
  datatype Commit = ByWriter(change: Change) | SpecEdit

  datatype Store = Store(history: seq<ImageStatus>, log: seq<Commit>, writers: map<nat, Writer>) {
    function At(t: nat): Writer {
      if t in writers then writers[t] else Resting
    }

    function Moves(t: nat, w: Writer): Store {
      this.(writers := writers[t := w])
    }

    function Grown(st: ImageStatus, c: Commit): Store {
      this.(history := history + [st], log := log + [c])
    }
  }

  datatype Step =
    | Begin(t: nat, change: Change)
    | Get(t: nat, version: nat)
    | Put(t: nat, fails: bool)
    | Stop(t: nat) // a read error, a crash
    | Edit

  predicate Enabled(s: Store, e: Step) {
    match e
    case Begin(t, _) => s.At(t).Resting?
    case Get(t, version) => s.At(t).Reading? && version < |s.history|
    case Put(t, _) => s.At(t).Updating? && s.At(t).version < |s.history|
    case Stop(_) => true
    case Edit => s.history != []
  }

  function Next(s: Store, e: Step): Store
    requires Enabled(s, e)
  {
    match e
    case Begin(t, change) => s.Moves(t, Reading(change, MAX_ATTEMPTS))
    case Get(t, version) => s.Moves(t, Updating(s.At(t).change, s.At(t).left, version))
    case Put(t, fails) =>
      var Updating(change, left, version) := s.At(t);
      if fails then s.Moves(t, Resting)
      else if version == |s.history| - 1 then
        s.Moves(t, Resting).Grown(Applied(change, s.history[version]), ByWriter(change))
      else if left > 1 then s.Moves(t, Reading(change, left - 1))
      else s.Moves(t, Resting)
    case Stop(t) => s.Moves(t, Resting)
    case Edit => s.Grown(s.history[|s.history| - 1], SpecEdit)
  }

  predicate Runs(s: Store, es: seq<Step>)
    decreases |es|
  {
    es == [] || (Enabled(s, es[0]) && Runs(Next(s, es[0]), es[1..]))
  }

  function After(s: Store, es: seq<Step>): Store
    requires Runs(s, es)
    decreases |es|
  {
    if es == [] then s else After(Next(s, es[0]), es[1..])
  }

  function Fresh(init: ImageStatus): Store {
    Store([init], [], map[])
  }

  // ---------------------------------------------------------------------------------------
  // The simple form: one change after another

  function Effect(c: Commit, st: ImageStatus): ImageStatus {
    if c.ByWriter? then Applied(c.change, st) else st
  }

  /** The status after a list of commits made one after another by a single writer. */
  function Folded(init: ImageStatus, log: seq<Commit>): ImageStatus {
    if log == [] then init else Effect(log[|log| - 1], Folded(init, log[..|log| - 1]))
  }

  lemma FoldedSnoc(init: ImageStatus, log: seq<Commit>, c: Commit)
    ensures Folded(init, log + [c]) == Effect(c, Folded(init, log))
  {
    assert (log + [c])[..|log|] == log;
  }

  ghost predicate Serial(init: ImageStatus, s: Store) {
    && |s.history| == |s.log| + 1
    && forall i :: 0 <= i <= |s.log| ==> s.history[i] == Folded(init, s.log[..i])
  }

  lemma StepStaysSerial(init: ImageStatus, s: Store, e: Step)
    requires Serial(init, s) && Enabled(s, e)
    ensures Serial(init, Next(s, e))
    ensures s.log <= Next(s, e).log
  {
    var n := Next(s, e);
    if n.log != s.log {
      var c := n.log[|s.log|];
      FoldedSnoc(init, s.log, c);
      assert s.log[..|s.log|] == s.log && n.log[..|n.log|] == n.log;
      forall i | 0 <= i <= |s.log|
        ensures n.history[i] == Folded(init, n.log[..i])
      {
        assert n.log[..i] == s.log[..i];
      }
    }
  }

  lemma {:induction false} RunStaysSerial(init: ImageStatus, s: Store, es: seq<Step>)
    requires Serial(init, s) && Runs(s, es)
    ensures Serial(init, After(s, es))
    decreases |es|
  {
    if es != [] {
      StepStaysSerial(init, s, es[0]);
      RunStaysSerial(init, Next(s, es[0]), es[1..]);
    }
  }

  /**
    No update is lost: in every interleaving, every version of the image is what the committed
    changes yield when made one after another in the order of their commits.
   */
  lemma {:induction false} WritesAreSerial(init: ImageStatus, es: seq<Step>, i: nat)
    requires Runs(Fresh(init), es)
    requires i < |After(Fresh(init), es).history|
    ensures var s := After(Fresh(init), es);
            |s.history| == |s.log| + 1 && s.history[i] == Folded(init, s.log[..i])
  {
    assert Folded(init, []) == init;
    RunStaysSerial(init, Fresh(init), es);
  }

  // ---------------------------------------------------------------------------------------
  // What a change leaves alone

  ghost predicate WellFormed(st: ImageStatus) {
    && (forall i, j :: 0 <= i < j < |st.availableOn| ==> st.availableOn[i] != st.availableOn[j])
    && (forall p :: st.Available(p) ==> p in st.availableOn)
    && (st.ready ==> exists p :: st.Available(p))
  }

  lemma ChangeKeepsWellFormed(c: Change, st: ImageStatus)
    requires WellFormed(st)
    ensures WellFormed(Applied(c, st))
    ensures st.availableOn <= Applied(c, st).availableOn
  {
    var n := Applied(c, st);
    if c.Prepared? {
      assert n.Available(c.provider) && c.provider in n.availableOn;
    }
    forall p | n.Available(p)
      ensures p in n.availableOn
    {
      assert c.Concerns(p) || st.Available(p);
    }
  }

  /** The commits that may touch a provider's entry. */
  function Only(p: string, log: seq<Commit>): seq<Commit> {
    if log == [] then []
    else
      var last, before := log[|log| - 1], Only(p, log[..|log| - 1]);
      if last.ByWriter? && last.change.Concerns(p) then before + [last] else before
  }

  predicate SameEntry(p: string, a: ImageStatus, b: ImageStatus) {
    (p in a.entries <==> p in b.entries) && (p in a.entries ==> a.entries[p] == b.entries[p])
  }

  lemma EffectOnEntry(p: string, c: Commit, a: ImageStatus, b: ImageStatus)
    requires SameEntry(p, a, b)
    ensures SameEntry(p, Effect(c, a), Effect(c, b))
    ensures !(c.ByWriter? && c.change.Concerns(p)) ==> SameEntry(p, Effect(c, a), a)
  {
  }

  /**
    Each provider's entry evolves exactly as if only that provider's VMs had been writing: other
    providers' changes, holds and task polls leave it as it is.
   */
  lemma {:induction false} EntryIgnoresOthers(init: ImageStatus, log: seq<Commit>, p: string)
    ensures SameEntry(p, Folded(init, log), Folded(init, Only(p, log)))
  {
    if log != [] {
      var last, before := log[|log| - 1], log[..|log| - 1];
      EntryIgnoresOthers(init, before, p);
      EffectOnEntry(p, last, Folded(init, before), Folded(init, Only(p, before)));
      FoldedSnoc(init, Only(p, before), last);
    }
  }

  lemma {:induction false} FoldKeepsWellFormed(init: ImageStatus, log: seq<Commit>)
    requires WellFormed(init)
    ensures WellFormed(Folded(init, log))
  {
    if log != [] {
      FoldKeepsWellFormed(init, log[..|log| - 1]);
      if log[|log| - 1].ByWriter? {
        ChangeKeepsWellFormed(log[|log| - 1].change, Folded(init, log[..|log| - 1]));
      }
    }
  }

  // ---------------------------------------------------------------------------------------
  // Main results

  /**
    For any number of VMs preparing the image, every version keeps one entry per available
    provider in a duplicate-free list, is Ready only with an available provider, and shows for
    each provider exactly what that provider's own commits recorded.
   */
  lemma {:induction false} SharedImageLosesNothing(init: ImageStatus, es: seq<Step>, i: nat, p: string)
    requires Runs(Fresh(init), es) && WellFormed(init)
    requires i < |After(Fresh(init), es).history|
    ensures var s := After(Fresh(init), es);
            && |s.history| == |s.log| + 1
            && WellFormed(s.history[i])
            && SameEntry(p, s.history[i], Folded(init, Only(p, s.log[..i])))
  {
    var s := After(Fresh(init), es);
    WritesAreSerial(init, es, i);
    FoldKeepsWellFormed(init, s.log[..i]);
    EntryIgnoresOthers(init, s.log[..i], p);
  }

  /** The change withdraws the provider's availability: a new import was started for it. */
  predicate Withdraws(c: Commit, p: string) {
    c.ByWriter? && c.change.Triggered? && c.change.provider == p && (c.change.id != "" || c.change.path != "")
  }

  lemma {:induction false} AvailableWhileNotWithdrawn(init: ImageStatus, log: seq<Commit>, i: nat, j: nat, p: string)
    requires i <= j <= |log| && Folded(init, log[..i]).Available(p)
    requires forall k :: i <= k < j ==> !Withdraws(log[k], p)
    ensures Folded(init, log[..j]).Available(p)
  {
    if i < j {
      AvailableWhileNotWithdrawn(init, log, i, j - 1, p);
      assert log[..j] == log[..j - 1] + [log[j - 1]];
      FoldedSnoc(init, log[..j - 1], log[j - 1]);
    }
  }

  /** Once a provider is prepared it stays available until a new import is started for that same provider. */
  lemma {:induction false} PreparedStaysAvailable(init: ImageStatus, es: seq<Step>, i: nat, j: nat, p: string)
    requires Runs(Fresh(init), es)
    requires i < j <= |After(Fresh(init), es).log| < |After(Fresh(init), es).history|
    requires var c := After(Fresh(init), es).log[i]; c.ByWriter? && c.change.Prepared? && c.change.provider == p
    requires forall k :: i < k < j ==> !Withdraws(After(Fresh(init), es).log[k], p)
    ensures After(Fresh(init), es).history[j].Available(p)
  {
    var log := After(Fresh(init), es).log;
    WritesAreSerial(init, es, j);
    assert log[..i + 1] == log[..i] + [log[i]];
    FoldedSnoc(init, log[..i], log[i]);
    AvailableWhileNotWithdrawn(init, log, i + 1, j, p);
  }

  // ---------------------------------------------------------------------------------------
  // Where a recorded location comes from

  /** A commit for the provider carries this id and path, where they are not empty. */
  predicate Records(c: Commit, p: string, id: string, path: string) {
    && c.ByWriter? && c.change.Concerns(p)
    && (id != "" ==> c.change.id == id) && (path != "" ==> c.change.path == path)
  }

  predicate Recorded(log: seq<Commit>, p: string, id: string, path: string) {
    exists i :: 0 <= i < |log| && Records(log[i], p, id, path)
  }

  predicate WasPrepared(log: seq<Commit>, p: string) {
    exists i :: 0 <= i < |log| && log[i].ByWriter? && log[i].change.Prepared? && log[i].change.provider == p
  }

  lemma RecordedLater(log: seq<Commit>, c: Commit, p: string, id: string, path: string)
    ensures Recorded(log, p, id, path) ==> Recorded(log + [c], p, id, path)
    ensures WasPrepared(log, p) ==> WasPrepared(log + [c], p)
    ensures Records(c, p, id, path) ==> Recorded(log + [c], p, id, path)
  {
    var more := log + [c];
    assert more[|log|] == c;
    assert forall i :: 0 <= i < |log| ==> more[i] == log[i];
    if Recorded(log, p, id, path) {
      var i :| 0 <= i < |log| && Records(log[i], p, id, path);
      assert Records(more[i], p, id, path);
    }
    if WasPrepared(log, p) {
      var i :| 0 <= i < |log| && log[i].ByWriter? && log[i].change.Prepared? && log[i].change.provider == p;
      assert more[i].change.Prepared?;
    }
  }

  /**
    Nothing in a provider's entry is invented: it is available only after a prepare was committed
    for that provider, and its id and its path were each recorded by a commit for it.
   */
  lemma {:induction false} EntryHasOrigin(init: ImageStatus, log: seq<Commit>, p: string)
    requires p !in init.entries
    ensures var st := Folded(init, log);
            && (st.Available(p) ==> WasPrepared(log, p))
            && (st.EntryOf(p).id != "" ==> Recorded(log, p, st.EntryOf(p).id, ""))
            && (st.EntryOf(p).path != "" ==> Recorded(log, p, "", st.EntryOf(p).path))
  {
    if log != [] {
      var before, c := log[..|log| - 1], log[|log| - 1];
      assert log == before + [c];
      EntryHasOrigin(init, before, p);
      var was, st := Folded(init, before), Folded(init, log);
      FoldedSnoc(init, before, c);
      RecordedLater(before, c, p, was.EntryOf(p).id, "");
      RecordedLater(before, c, p, "", was.EntryOf(p).path);
      RecordedLater(before, c, p, st.EntryOf(p).id, "");
      RecordedLater(before, c, p, "", st.EntryOf(p).path);
      if c.ByWriter? && c.change.Prepared? && c.change.provider == p {
        assert log[|log| - 1].change.Prepared?;
      }
    }
  }
}
