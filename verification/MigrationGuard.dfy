/**
  The in-memory guard against duplicate ExportDisk and ImportDisk calls.

  Reconciles are threads that interleave freely and act on cached objects of any age.  The only
  things they share are the guard map, the provider, and the process they run in.
 */
module MigrationGuard {
  import M = MigrationPlan

  // ---------------------------------------------------------------------------------------
  // The guard's keys

  /** One long-running operation on one generation of one migration object. */
  datatype Work = Work(uid: string, generation: nat, op: M.LongOp)

  function Digit(d: nat): char
    requires d < 10
  {
    "0123456789"[d]
  }

  function Decimal(n: nat): string {
    if n < 10 then [Digit(n)] else Decimal(n / 10) + [Digit(n % 10)]
  }

  function OpName(op: M.LongOp): string {
    match op
    case ExportOp => "export"
    case ImportOp => "import"
  }

  function GuardKey(x: Work): string {
    x.uid + "/" + Decimal(x.generation) + "/" + OpName(x.op)
  }

  lemma DigitsDiffer(a: nat, b: nat)
    requires a < 10 && b < 10
    ensures Digit(a) == Digit(b) <==> a == b
    ensures Digit(a) != '/'
  {
  }

  lemma {:induction false} DecimalHasNoSlash(n: nat)
    ensures '/' !in Decimal(n) && Decimal(n) != ""
  {
    DigitsDiffer(n % 10, 0);
    if n >= 10 {
      DecimalHasNoSlash(n / 10);
    }
  }

  lemma {:induction false} DecimalInjective(a: nat, b: nat)
    requires Decimal(a) == Decimal(b)
    ensures a == b
  {
    var s, t := Decimal(a), Decimal(b);
    DigitsDiffer(a % 10, b % 10);
    assert s[|s| - 1] == Digit(a % 10) && t[|t| - 1] == Digit(b % 10);
    DecimalHasNoSlash(a / 10);
    DecimalHasNoSlash(b / 10);
    if a >= 10 && b >= 10 {
      assert s[..|s| - 1] == Decimal(a / 10) && t[..|t| - 1] == Decimal(b / 10);
      DecimalInjective(a / 10, b / 10);
    }
  }

  predicate LastSlashAt(s: string, k: nat) {
    k < |s| && s[k] == '/' && forall j :: k < j < |s| ==> s[j] != '/'
  }

  lemma JoinedAt(a: string, x: string)
    requires '/' !in x
    ensures LastSlashAt(a + "/" + x, |a|)
    ensures (a + "/" + x)[..|a|] == a && (a + "/" + x)[|a| + 1..] == x
  {
    var s := a + "/" + x;
    assert forall j :: |a| < j < |s| ==> s[j] == x[j - |a| - 1];
  }

  /** A text is split in one way at its last slash. */
  lemma LastSlash(a: string, x: string, b: string, y: string)
    requires a + "/" + x == b + "/" + y && '/' !in x && '/' !in y
    ensures a == b && x == y
  {
    JoinedAt(a, x);
    JoinedAt(b, y);
  }

  lemma OpNamesDiffer(a: M.LongOp, b: M.LongOp)
    ensures OpName(a) == OpName(b) <==> a == b
    ensures '/' !in OpName(a)
  {
    assert OpName(a)[0] == 'e' <==> a == M.ExportOp;
    assert OpName(b)[0] == 'e' <==> b == M.ExportOp;
  }

  /** Two operations share a guard key only if they are the same one. */
  lemma KeysDistinguish(a: Work, b: Work)
    ensures GuardKey(a) == GuardKey(b) <==> a == b
  {
    if GuardKey(a) == GuardKey(b) {
      OpNamesDiffer(a.op, b.op);
      OpNamesDiffer(b.op, a.op);
      LastSlash(a.uid + "/" + Decimal(a.generation), OpName(a.op), b.uid + "/" + Decimal(b.generation), OpName(b.op));
      DecimalHasNoSlash(a.generation);
      DecimalHasNoSlash(b.generation);
      LastSlash(a.uid, Decimal(a.generation), b.uid, Decimal(b.generation));
      DecimalInjective(a.generation, b.generation);
    }
  }

  // ---------------------------------------------------------------------------------------
  // Interleaved reconciles

  /** How far a reconcile got with its operation. */
  datatype Pc = Idle | Checked(work: Work) | Claimed(work: Work) | InFlight(work: Work) | Erred(work: Work) {
    /** The reconcile owns the guard entry of its operation. */
    predicate Holds(x: Work) {
      (Claimed? || InFlight? || Erred?) && work == x
    }
  }

  datatype RpcEvent = Issued(work: Work) | Succeeded(work: Work) | Failed(work: Work)

  datatype Process = Process(threads: map<nat, Pc>, guard: set<string>, rpcs: seq<RpcEvent>) {
    function At(t: nat): Pc {
      if t in threads then threads[t] else Idle
    }

    function Moves(t: nat, pc: Pc): Process {
      this.(threads := threads[t := pc])
    }
  }

  /** A manager process that has just started. */
  const FRESH := Process(map[], {}, [])

  datatype Action =
    | Enter(work: Work, cached: M.Status) // starts from a cached object of any age
    | GiveUp                              // fails before the claim, e.g. on credentials
    | Claim
    | Issue
    | Return(ok: bool)
    | Release

  datatype Move = Move(thread: nat, action: Action)

  /** The cached status already shows the operation as issued or finished. */
  predicate Recorded(st: M.Status, op: M.LongOp) {
    match op
    case ExportOp => st.exportID != "" || st.IsTrue(M.CondExporting)
    case ImportOp => st.importID != "" || st.IsTrue(M.CondImporting)
  }

  predicate CanMove(p: Process, m: Move) {
    var pc := p.At(m.thread);
    match m.action
    case Enter(_, _) => pc.Idle?
    case GiveUp => pc.Checked?
    case Claim => pc.Checked?
    case Issue => pc.Claimed?
    case Return(_) => pc.InFlight?
    case Release => pc.Erred?
  }

  function Moved(p: Process, m: Move): Process
    requires CanMove(p, m)
  {
    var t, pc := m.thread, p.At(m.thread);
    match m.action
    case Enter(work, cached) =>
      if Recorded(cached, work.op) || GuardKey(work) in p.guard then p else p.Moves(t, Checked(work))
    case GiveUp => p.Moves(t, Idle)
    case Claim =>
      if GuardKey(pc.work) in p.guard then p.Moves(t, Idle)
      else p.Moves(t, Claimed(pc.work)).(guard := p.guard + {GuardKey(pc.work)})
    case Issue => p.Moves(t, InFlight(pc.work)).(rpcs := p.rpcs + [Issued(pc.work)])
    case Return(ok) =>
      if ok then p.Moves(t, Idle).(rpcs := p.rpcs + [Succeeded(pc.work)])
      else p.Moves(t, Erred(pc.work)).(rpcs := p.rpcs + [Failed(pc.work)])
    case Release => p.Moves(t, Idle).(guard := p.guard - {GuardKey(pc.work)})
  }

  predicate Runs(p: Process, ms: seq<Move>)
    decreases |ms|
  {
    ms == [] || (CanMove(p, ms[0]) && Runs(Moved(p, ms[0]), ms[1..]))
  }

  function After(p: Process, ms: seq<Move>): Process
    requires Runs(p, ms)
    decreases |ms|
  {
    if ms == [] then p else After(Moved(p, ms[0]), ms[1..])
  }

  // ---------------------------------------------------------------------------------------
  // The order the calls must come in

  /** Where one operation stands: it may be called, is running, or is done for good. */
  datatype Stage = Free | Running | Done | Wrong

  function Next(s: Stage, e: RpcEvent): Stage {
    match (s, e)
    case (Free, Issued(_)) => Running
    case (Running, Succeeded(_)) => Done
    case (Running, Failed(_)) => Free
    case _ => Wrong
  }

  /** The stage one operation's calls have reached. */
  function StageOf(rpcs: seq<RpcEvent>, x: Work): Stage {
    if rpcs == [] then Free
    else
      var last, before := rpcs[|rpcs| - 1], StageOf(rpcs[..|rpcs| - 1], x);
      if last.work == x then Next(before, last) else before
  }

  lemma StageSnoc(rpcs: seq<RpcEvent>, e: RpcEvent, x: Work)
    ensures StageOf(rpcs + [e], x) == if e.work == x then Next(StageOf(rpcs, x), e) else StageOf(rpcs, x)
  {
    assert (rpcs + [e])[..|rpcs|] == rpcs;
  }

  /** The stage a reconcile's position stands for. */
  predicate Agrees(pc: Pc, rpcs: seq<RpcEvent>) {
    && (pc.Claimed? || pc.Erred? ==> StageOf(rpcs, pc.work) == Free)
    && (pc.InFlight? ==> StageOf(rpcs, pc.work) == Running)
  }

  /** Every owner's entry is in the guard, owners are unique, and calls come in order. */
  ghost predicate Owned(p: Process) {
    && (forall t, x :: p.At(t).Holds(x) ==> GuardKey(x) in p.guard)
    && (forall t, u, x :: p.At(t).Holds(x) && p.At(u).Holds(x) ==> t == u)
    && (forall t :: Agrees(p.At(t), p.rpcs))
    && (forall x :: StageOf(p.rpcs, x) != Wrong && (GuardKey(x) !in p.guard ==> StageOf(p.rpcs, x) == Free))
  }

  /** A guard entry is held by a reconcile at work, or stands for a call that succeeded. */
  ghost predicate Justified(p: Process) {
    forall x :: GuardKey(x) in p.guard ==> (exists t :: p.At(t).Holds(x)) || StageOf(p.rpcs, x) == Done
  }

  lemma MoveKeepsOwned(p: Process, m: Move)
    requires Owned(p) && CanMove(p, m)
    ensures Owned(Moved(p, m))
  {
    var q := Moved(p, m);
    forall x
      ensures StageOf(q.rpcs, x) != Wrong && (GuardKey(x) !in q.guard ==> StageOf(q.rpcs, x) == Free)
    {
      StageMoves(p, m, x);
    }
    forall t
      ensures Agrees(q.At(t), q.rpcs)
    {
      PositionMoves(p, m, t);
    }
    forall t, x | q.At(t).Holds(x)
      ensures GuardKey(x) in q.guard
    {
      HolderMoves(p, m, t, x);
    }
    forall t, u, x | q.At(t).Holds(x) && q.At(u).Holds(x)
      ensures t == u
    {
      HolderMoves(p, m, t, x);
      HolderMoves(p, m, u, x);
    }
  }

  lemma StageMoves(p: Process, m: Move, x: Work)
    requires Owned(p) && CanMove(p, m)
    ensures var q := Moved(p, m);
            && StageOf(q.rpcs, x) != Wrong
            && (GuardKey(x) !in q.guard ==> StageOf(q.rpcs, x) == Free)
            && (p.At(m.thread) == Idle || x != p.At(m.thread).work ==> StageOf(q.rpcs, x) == StageOf(p.rpcs, x))
  {
    var pc := p.At(m.thread);
    assert Agrees(pc, p.rpcs);
    if !pc.Idle? {
      KeysDistinguish(pc.work, x);
      StageSnoc(p.rpcs, Issued(pc.work), x);
      StageSnoc(p.rpcs, Succeeded(pc.work), x);
      StageSnoc(p.rpcs, Failed(pc.work), x);
    }
  }

  lemma PositionMoves(p: Process, m: Move, t: nat)
    requires Owned(p) && CanMove(p, m)
    ensures Agrees(Moved(p, m).At(t), Moved(p, m).rpcs)
  {
    var pc := p.At(m.thread);
    assert Agrees(p.At(t), p.rpcs) && Agrees(pc, p.rpcs);
    if t == m.thread && !pc.Idle? {
      StageSnoc(p.rpcs, Issued(pc.work), pc.work);
      StageSnoc(p.rpcs, Failed(pc.work), pc.work);
    } else if !p.At(t).Idle? && t != m.thread {
      var x := p.At(t).work;
      StageMoves(p, m, x);
      if !p.At(t).Checked? {
        assert p.At(t).Holds(x) && !pc.Holds(x);
      }
    }
  }

  /** Only a claim makes a reconcile an owner, and only its own release takes the entry away. */
  lemma HolderMoves(p: Process, m: Move, t: nat, x: Work)
    requires Owned(p) && CanMove(p, m) && Moved(p, m).At(t).Holds(x)
    ensures GuardKey(x) in Moved(p, m).guard
    ensures p.At(t).Holds(x) || (t == m.thread && GuardKey(x) !in p.guard)
  {
    var pc := p.At(m.thread);
    assert t != m.thread ==> p.At(t).Holds(x);
    if !pc.Idle? {
      KeysDistinguish(pc.work, x);
      assert pc.Erred? ==> p.At(m.thread).Holds(pc.work);
    }
  }

  lemma MoveKeepsJustified(p: Process, m: Move)
    requires Owned(p) && Justified(p) && CanMove(p, m)
    ensures Justified(Moved(p, m))
  {
    var q := Moved(p, m);
    forall x | GuardKey(x) in q.guard
      ensures (exists t :: q.At(t).Holds(x)) || StageOf(q.rpcs, x) == Done
    {
      EntryMoves(p, m, x);
    }
  }

  lemma EntryMoves(p: Process, m: Move, x: Work)
    requires Owned(p) && Justified(p) && CanMove(p, m) && GuardKey(x) in Moved(p, m).guard
    ensures (exists t :: Moved(p, m).At(t).Holds(x)) || StageOf(Moved(p, m).rpcs, x) == Done
  {
    var q, pc := Moved(p, m), p.At(m.thread);
    assert Agrees(pc, p.rpcs);
    if !pc.Idle? && pc.work == x {
      StageSnoc(p.rpcs, Issued(x), x);
      StageSnoc(p.rpcs, Succeeded(x), x);
      StageSnoc(p.rpcs, Failed(x), x);
      if q.At(m.thread).Holds(x) {
      } else if pc.Checked? {
        OtherOwnerStays(p, m, x);
      }
    } else {
      if !pc.Idle? {
        KeysDistinguish(pc.work, x);
      }
      StageMoves(p, m, x);
      OtherOwnerStays(p, m, x);
    }
  }

  lemma OtherOwnerStays(p: Process, m: Move, x: Work)
    requires Owned(p) && Justified(p) && CanMove(p, m) && GuardKey(x) in p.guard
    requires !p.At(m.thread).Holds(x)
    requires StageOf(Moved(p, m).rpcs, x) == StageOf(p.rpcs, x)
    ensures (exists t :: Moved(p, m).At(t).Holds(x)) || StageOf(Moved(p, m).rpcs, x) == Done
  {
    if StageOf(p.rpcs, x) != Done {
      var t :| p.At(t).Holds(x);
      assert Moved(p, m).At(t) == p.At(t);
    }
  }

  lemma {:induction false} RunKeepsOwned(p: Process, ms: seq<Move>)
    requires Runs(p, ms) && Owned(p) && Justified(p)
    ensures Owned(After(p, ms)) && Justified(After(p, ms))
    decreases |ms|
  {
    if ms != [] {
      MoveKeepsOwned(p, ms[0]);
      MoveKeepsJustified(p, ms[0]);
      RunKeepsOwned(Moved(p, ms[0]), ms[1..]);
    }
  }

  lemma FreshIsOwned()
    ensures Owned(FRESH) && Justified(FRESH)
  {
  }

  // ---------------------------------------------------------------------------------------
  // Main results

  /** In every interleaving, at most one reconcile has a given operation in flight. */
  lemma {:induction false} OneInFlight(ms: seq<Move>, t: nat, u: nat, x: Work)
    requires Runs(FRESH, ms)
    requires After(FRESH, ms).At(t) == InFlight(x) && After(FRESH, ms).At(u) == InFlight(x)
    ensures t == u
  {
    FreshIsOwned();
    RunKeepsOwned(FRESH, ms);
    assert After(FRESH, ms).At(t).Holds(x) && After(FRESH, ms).At(u).Holds(x);
  }

  /** The guard has an entry exactly while a reconcile owns the operation or once it has succeeded. */
  lemma {:induction false} GuardedIff(ms: seq<Move>, x: Work)
    requires Runs(FRESH, ms)
    ensures var p := After(FRESH, ms);
            GuardKey(x) in p.guard <==> (exists t :: p.At(t).Holds(x)) || StageOf(p.rpcs, x) == Done
  {
    FreshIsOwned();
    RunKeepsOwned(FRESH, ms);
  }

  /** Nothing is issued for an operation once it has succeeded; in particular it succeeds once. */
  lemma {:induction false} SuccessIsFinal(ms: seq<Move>, i: nat, j: nat)
    requires Runs(FRESH, ms)
    requires i < j < |After(FRESH, ms).rpcs| && After(FRESH, ms).rpcs[i].Succeeded?
    ensures After(FRESH, ms).rpcs[j].work != After(FRESH, ms).rpcs[i].work
  {
    FreshIsOwned();
    RunKeepsOwned(FRESH, ms);
    var rpcs := After(FRESH, ms).rpcs;
    DoneStays(rpcs, i, j);
    NotWrongBefore(rpcs, j + 1, rpcs[i].work);
  }

  /** A second call is issued only after an error of the first was returned. */
  lemma {:induction false} ReissueFollowsError(ms: seq<Move>, i: nat, j: nat)
    requires Runs(FRESH, ms)
    requires i < j < |After(FRESH, ms).rpcs|
    requires After(FRESH, ms).rpcs[i].Issued? && After(FRESH, ms).rpcs[j] == After(FRESH, ms).rpcs[i]
    ensures Failed(After(FRESH, ms).rpcs[i].work) in After(FRESH, ms).rpcs[i + 1..j]
  {
    FreshIsOwned();
    RunKeepsOwned(FRESH, ms);
    var rpcs := After(FRESH, ms).rpcs;
    NotWrongBefore(rpcs, j + 1, rpcs[i].work);
    BusyUnlessFailed(rpcs, i, j);
  }

  lemma {:induction false} NotWrongBefore(rpcs: seq<RpcEvent>, n: nat, x: Work)
    requires n <= |rpcs| && StageOf(rpcs, x) != Wrong
    ensures StageOf(rpcs[..n], x) != Wrong
    decreases |rpcs|
  {
    if n == |rpcs| {
      assert rpcs[..n] == rpcs;
    } else {
      var init := rpcs[..|rpcs| - 1];
      assert rpcs[..n] == init[..n];
      NotWrongBefore(init, n, x);
    }
  }

  lemma PrefixStage(rpcs: seq<RpcEvent>, n: nat, x: Work)
    requires n < |rpcs|
    ensures StageOf(rpcs[..n + 1], x)
            == if rpcs[n].work == x then Next(StageOf(rpcs[..n], x), rpcs[n]) else StageOf(rpcs[..n], x)
  {
    assert rpcs[..n + 1] == rpcs[..n] + [rpcs[n]];
    StageSnoc(rpcs[..n], rpcs[n], x);
  }

  lemma {:induction false} DoneStays(rpcs: seq<RpcEvent>, i: nat, j: nat)
    requires i < j < |rpcs| && rpcs[i].Succeeded?
    ensures StageOf(rpcs[..j], rpcs[i].work) in {Done, Wrong}
    ensures rpcs[j].work == rpcs[i].work ==> StageOf(rpcs[..j + 1], rpcs[i].work) == Wrong
    decreases j
  {
    var x := rpcs[i].work;
    PrefixStage(rpcs, j, x);
    PrefixStage(rpcs, j - 1, x);
    if j > i + 1 {
      DoneStays(rpcs, i, j - 1);
    }
  }

  /** Until its error returns, an issued operation cannot be issued again. */
  lemma {:induction false} BusyUnlessFailed(rpcs: seq<RpcEvent>, i: nat, j: nat)
    requires i < j < |rpcs| && rpcs[i].Issued?
    ensures Failed(rpcs[i].work) in rpcs[i + 1..j] || StageOf(rpcs[..j], rpcs[i].work) != Free
    ensures || Failed(rpcs[i].work) in rpcs[i + 1..j] || rpcs[j] != rpcs[i]
            || StageOf(rpcs[..j + 1], rpcs[i].work) == Wrong
    decreases j
  {
    var x := rpcs[i].work;
    PrefixStage(rpcs, j, x);
    PrefixStage(rpcs, j - 1, x);
    if j > i + 1 {
      BusyUnlessFailed(rpcs, i, j - 1);
      assert rpcs[i + 1..j] == rpcs[i + 1..j - 1] + [rpcs[j - 1]];
    }
  }
}
