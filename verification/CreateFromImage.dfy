/** Creating a VM from a shared image: the prepare step and the create step together. */
module CreateFromImage {
  import opened Common
  import opened ImagePrepare
  import R = ImageRuns
  import V = VirtualMachine

  /** The environment of a VM reconcile whose image gate and create image come from the prepare step. */
  predicate ImageDriven(vm: V.VmSpec, env: V.VmEnv, spec: ImageSpec, st: ImageStatus, p: ProviderInfo, ask: EnsureEnv)
    requires |ask.attempts| >= MAX_ATTEMPTS
  {
    var (gate, seen) := Ensured(spec, st, p, ask);
    vm.imageRef && env.gate == gate && env.image == CreateImage(spec, seen, p.name)
  }

  /** The provider's entry as the reconcile sees it after the prepare step. */
  function SeenEntry(spec: ImageSpec, st: ImageStatus, p: ProviderInfo, ask: EnsureEnv): Entry
    requires |ask.attempts| >= MAX_ATTEMPTS
  {
    Ensured(spec, st, p, ask).1.EntryOf(p.name)
  }

  /**
    For a source that must be imported, on a provider that can, a reconcile issues Create only
    with the provider's entry available, and the request names the location recorded in it.
   */
  lemma CreateWaitsForPreparedImage(
      vm: V.VmSpec, class_: V.VmClass, vmSt: V.VmStatus, env: V.VmEnv,
      spec: ImageSpec, st: ImageStatus, p: ProviderInfo, ask: EnsureEnv, rpc: V.Rpc)
    requires |ask.attempts| >= MAX_ATTEMPTS
    requires ImageDriven(vm, env, spec, st, p, ask)
    requires p.Capable() && NeedsPrepare(spec.source)
    requires rpc in V.ReconcilePlan(vm, class_, vmSt, env).rpcs && rpc.Create?
    ensures SeenEntry(spec, st, p, ask).available
    ensures spec.source.libvirt.Some? && SeenEntry(spec, st, p, ask).path != "" ==>
              rpc.image.path == SeenEntry(spec, st, p, ask).path && rpc.image.url == ""
    ensures spec.source.libvirt.None? && spec.source.vsphere.Some? && SeenEntry(spec, st, p, ask).id != "" ==>
              rpc.image.templateName == SeenEntry(spec, st, p, ask).id && rpc.image.url == ""
  {
    V.CreateIssuedIff(vm, class_, vmSt, env);
    ProceedMeansAvailable(spec, st, p, ask);
    RequestConsumesLocation(spec, Ensured(spec, st, p, ask).1, p.name);
  }

  /** What a synchronous prepare has just returned is what the same reconcile creates from. */
  lemma CreateUsesWhatPrepareReturned(
      vm: V.VmSpec, class_: V.VmClass, vmSt: V.VmStatus, env: V.VmEnv,
      spec: ImageSpec, st: ImageStatus, p: ProviderInfo, ask: EnsureEnv, rpc: V.Rpc)
    requires |ask.attempts| >= MAX_ATTEMPTS
    requires ImageDriven(vm, env, spec, st, p, ask)
    requires p.Capable() && Decide(spec, st, p, ask).prepares
    requires rpc in V.ReconcilePlan(vm, class_, vmSt, env).rpcs && rpc.Create?
    ensures ask.prepare.Accepted? && ask.prepare.task == ""
    ensures spec.source.libvirt.Some? && ask.prepare.path != "" ==>
              rpc.image.path == ask.prepare.path && rpc.image.url == ""
    ensures spec.source.libvirt.None? && spec.source.vsphere.Some? && ask.prepare.id != "" ==>
              rpc.image.templateName == ask.prepare.id && rpc.image.url == ""
  {
    CreateWaitsForPreparedImage(vm, class_, vmSt, env, spec, st, p, ask, rpc);
    V.CreateIssuedIff(vm, class_, vmSt, env);
    var d := Decide(spec, st, p, ask);
    if d.change.Some? {
      CommitsWhatItReRead(d.change.value, ask.attempts, 0);
    }
  }

  /** With OnMissing set to Fail or Wait nothing is created until someone else prepared the image. */
  lemma HeldUntilPrepared(
      vm: V.VmSpec, class_: V.VmClass, vmSt: V.VmStatus, env: V.VmEnv,
      spec: ImageSpec, st: ImageStatus, p: ProviderInfo, ask: EnsureEnv)
    requires |ask.attempts| >= MAX_ATTEMPTS
    requires ImageDriven(vm, env, spec, st, p, ask)
    requires p.Capable() && NeedsPrepare(spec.source) && MissingAction(spec) != Import && !st.Available(p.name)
    ensures V.ReconcilePlan(vm, class_, vmSt, env) == V.Writes(vmSt.Unready())
    ensures !Decide(spec, st, p, ask).prepares
  {
    ProceedMeansAvailable(spec, st, p, ask);
  }

  /**
    In every run of the shared image, whatever version the reconcile ends up with: if it creates
    from an import-style source, a prepare was committed for its provider before, and a location
    in its entry, which is the one the request names, was recorded by a commit for that provider.
   */
  lemma {:induction false} CreateNamesCommittedLocation(
      init: ImageStatus, es: seq<R.Step>, u: nat,
      vm: V.VmSpec, class_: V.VmClass, vmSt: V.VmStatus, env: V.VmEnv,
      spec: ImageSpec, st: ImageStatus, p: ProviderInfo, ask: EnsureEnv, rpc: V.Rpc)
    requires R.Runs(R.Fresh(init), es) && p.name !in init.entries
    requires u < |R.After(R.Fresh(init), es).history|
    requires |ask.attempts| >= MAX_ATTEMPTS
    requires Ensured(spec, st, p, ask).1 == R.After(R.Fresh(init), es).history[u]
    requires ImageDriven(vm, env, spec, st, p, ask)
    requires p.Capable() && NeedsPrepare(spec.source)
    requires rpc in V.ReconcilePlan(vm, class_, vmSt, env).rpcs && rpc.Create?
    ensures |R.After(R.Fresh(init), es).history| == |R.After(R.Fresh(init), es).log| + 1
    ensures var log, entry := R.After(R.Fresh(init), es).log[..u], SeenEntry(spec, st, p, ask);
            && R.WasPrepared(log, p.name)
            && (spec.source.libvirt.Some? && entry.path != "" ==>
                  rpc.image.path == entry.path && rpc.image.url == "" && R.Recorded(log, p.name, "", rpc.image.path))
            && (spec.source.libvirt.None? && spec.source.vsphere.Some? && entry.id != "" ==>
                  rpc.image.templateName == entry.id && rpc.image.url == ""
                  && R.Recorded(log, p.name, rpc.image.templateName, ""))
  {
    CreateWaitsForPreparedImage(vm, class_, vmSt, env, spec, st, p, ask, rpc);
    R.WritesAreSerial(init, es, u);
    R.EntryHasOrigin(init, R.After(R.Fresh(init), es).log[..u], p.name);
  }
}
