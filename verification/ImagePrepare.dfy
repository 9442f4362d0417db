/** Preparing a shared VM image on a provider before a VM is created from it. */
module ImagePrepare {
  import opened Common

  // ---------------------------------------------------------------------------------------
  // The image object

  datatype LibvirtSource = LibvirtSource(path: string, url: string)
  datatype VSphereSource = VSphereSource(templateName: string, ovaUrl: string, contentLibrary: bool)
  datatype ProxmoxSource = ProxmoxSource(templateID: Option<string>, templateName: string)

  datatype ImageSource = ImageSource(
    libvirt: Option<LibvirtSource>, vsphere: Option<VSphereSource>, proxmox: Option<ProxmoxSource>)

  datatype OnMissing = Import | Refuse | Await

  datatype ImageSpec = ImageSpec(source: ImageSource, onMissing: Option<OnMissing>)

  /** What the image records about one provider. */
  datatype Entry = Entry(available: bool, id: string, path: string)

  datatype ImagePhase = NoPhase | Pending | Importing | Ready | Failed

  datatype ImageStatus = ImageStatus(
    ready: bool, phase: ImagePhase, entries: map<string, Entry>, availableOn: seq<string>, prepareTask: string)
  {
    predicate Available(provider: string) {
      provider in entries && entries[provider].available
    }

    /** The entry a write starts from; a missing one reads as empty. */
    function EntryOf(provider: string): Entry {
      if provider in entries then entries[provider] else Entry(false, "", "")
    }
  }

  /** The source must be fetched onto the provider before a VM can use it. */
  predicate NeedsPrepare(source: ImageSource) {
    if source.libvirt.Some? then source.libvirt.value.url != "" || source.libvirt.value.path == ""
    else if source.vsphere.Some? then
      var s := source.vsphere.value;
      s.ovaUrl != "" || (s.templateName == "" && !s.contentLibrary)
    else if source.proxmox.Some? then source.proxmox.value.templateID.None? && source.proxmox.value.templateName == ""
    else true
  }

  function MissingAction(spec: ImageSpec): OnMissing {
    if spec.onMissing.None? then Import else spec.onMissing.value
  }

  // ---------------------------------------------------------------------------------------
  // Changes to the shared status

  function Appended(list: seq<string>, s: string): seq<string> {
    if s in list then list else list + [s]
  }

  method AppendDedup(list: seq<string>, s: string) returns (result: seq<string>)
    ensures result == Appended(list, s)
  {
    for i := 0 to |list|
      invariant s !in list[..i]
    {
      if list[i] == s {
        return list;
      }
    }
    return list + [s];
  }

  /** The closures handed to the status writer. */
  datatype Change =
    | Refused
    | Awaiting
    | Preparing
    | Triggered(provider: string, task: string, id: string, path: string)
    | Prepared(provider: string, id: string, path: string)
  {
    /** The change may touch this provider's entry. */
    predicate Concerns(p: string) {
      (Triggered? || Prepared?) && provider == p
    }
  }

  function Applied(change: Change, st: ImageStatus): ImageStatus {
    match change
    case Refused => st.(ready := false, phase := Failed)
    case Awaiting => st.(ready := false, phase := Pending)
    case Preparing => st.(ready := false, phase := Importing)
    case Triggered(p, task, id, path) =>
      var next := st.(prepareTask := task, phase := Importing, ready := false);
      if id == "" && path == "" then next else next.(entries := st.entries[p := Entry(false, id, path)])
    case Prepared(p, id, path) =>
      var was := st.EntryOf(p);
      var entry := Entry(true, if id != "" then id else was.id, if path != "" then path else was.path);
      st.(entries := st.entries[p := entry], availableOn := Appended(st.availableOn, p),
          prepareTask := "", ready := true, phase := Ready)
  }

  // ---------------------------------------------------------------------------------------
  // Writing with retry on conflict

  datatype PutAnswer = Stored | Conflict | PutError

  /** One attempt: the object the re-read returned, and the answer to the update. */
  datatype Attempt = Attempt(got: Option<ImageStatus>, put: PutAnswer)

  const MAX_ATTEMPTS := 5

  /** The committed status, if an attempt from the i-th on commits. */
  function Committed(change: Change, attempts: seq<Attempt>, i: nat): Option<ImageStatus>
    requires i <= MAX_ATTEMPTS <= |attempts|
    decreases MAX_ATTEMPTS - i
  {
    if i == MAX_ATTEMPTS || attempts[i].got.None? then None
    else match attempts[i].put
    case Stored => Some(Applied(change, attempts[i].got.value))
    case Conflict => Committed(change, attempts, i + 1)
    case PutError => None
  }

  /** What is committed is the change applied to the version read by the very attempt that was accepted. */
  lemma {:induction false} CommitsWhatItReRead(change: Change, attempts: seq<Attempt>, i: nat)
    requires i <= MAX_ATTEMPTS <= |attempts|
    ensures Committed(change, attempts, i).Some? <==>
              exists k :: i <= k < MAX_ATTEMPTS && Lands(attempts, i, k)
    ensures forall k :: i <= k < MAX_ATTEMPTS && Lands(attempts, i, k) ==>
              Committed(change, attempts, i) == Some(Applied(change, attempts[k].got.value))
    decreases MAX_ATTEMPTS - i
  {
    if i < MAX_ATTEMPTS {
      CommitsWhatItReRead(change, attempts, i + 1);
      forall k | i < k < MAX_ATTEMPTS
        ensures Lands(attempts, i, k) <==>
                  attempts[i].got.Some? && attempts[i].put.Conflict? && Lands(attempts, i + 1, k)
      {
      }
      assert Lands(attempts, i, i) <==> attempts[i].got.Some? && attempts[i].put.Stored?;
      if attempts[i].got.Some? && attempts[i].put.Conflict? && Committed(change, attempts, i + 1).Some? {
        var k :| i + 1 <= k < MAX_ATTEMPTS && Lands(attempts, i + 1, k);
        assert Lands(attempts, i, k);
      }
    }
  }

  /** The k-th attempt is accepted and all from the i-th before it met a conflict. */
  predicate Lands(attempts: seq<Attempt>, i: nat, k: nat)
    requires k < |attempts|
  {
    && attempts[k].got.Some? && attempts[k].put.Stored?
    && forall j :: i <= j < k ==> attempts[j].got.Some? && attempts[j].put.Conflict?
  }

  // ---------------------------------------------------------------------------------------
  // Ensuring the image

  datatype TaskAnswer = TaskError | TaskRunning | TaskDone
  datatype PrepareAnswer = PrepareError | Accepted(id: string, path: string, task: string)

  /** What the VM reconciler does next: create, hold, poll again, or report an error. */
  datatype Gate = Proceed | Hold | InFlight | GateError

  /** The provider as far as images are concerned. */
  datatype ProviderInfo = ProviderInfo(name: string, implementsPreparer: bool, advertisesImport: bool) {
    predicate Capable() {
      implementsPreparer && advertisesImport
    }
  }

  datatype EnsureEnv = EnsureEnv(poll: TaskAnswer, prepare: PrepareAnswer, attempts: seq<Attempt>)

  /** The RPC to issue, the change to commit, and the verdict once it is committed. */
  datatype Decision = Decision(prepares: bool, change: Option<Change>, gate: Gate)

  function Decide(spec: ImageSpec, st: ImageStatus, p: ProviderInfo, env: EnsureEnv): Decision {
    if !p.Capable() || st.Available(p.name) || !NeedsPrepare(spec.source) then Decision(false, None, Proceed)
    else match MissingAction(spec)
    case Refuse => Decision(false, Some(Refused), Hold)
    case Await => Decision(false, Some(Awaiting), Hold)
    case Import =>
      if st.prepareTask != "" then
        match env.poll
        case TaskError => Decision(false, None, GateError)
        case TaskRunning => Decision(false, Some(Preparing), InFlight)
        case TaskDone => Decision(false, Some(Prepared(p.name, "", "")), Proceed)
      else
        match env.prepare
        case PrepareError => Decision(true, None, GateError)
        case Accepted(id, path, task) =>
          if task != "" then Decision(true, Some(Triggered(p.name, task, id, path)), InFlight)
          else Decision(true, Some(Prepared(p.name, id, path)), Proceed)
  }

  /** The verdict and the caller's copy of the status after the write, if any. */
  function Ensured(spec: ImageSpec, st: ImageStatus, p: ProviderInfo, env: EnsureEnv): (Gate, ImageStatus)
    requires |env.attempts| >= MAX_ATTEMPTS
  {
    var d := Decide(spec, st, p, env);
    if d.change.None? then (d.gate, st)
    else match Committed(d.change.value, env.attempts, 0)
    case None => (GateError, st)
    case Some(committed) => (d.gate, committed)
  }

  /** The caller's in-memory image and the prepare calls it issued. */
  class ImageHandle {
    const spec: ImageSpec
    var status: ImageStatus
    var prepareCalls: nat

    constructor (spec: ImageSpec, status: ImageStatus)
      ensures this.spec == spec && this.status == status && prepareCalls == 0
    {
      this.spec, this.status, prepareCalls := spec, status, 0;
    }

    method WriteImageStatus(change: Change, attempts: seq<Attempt>) returns (ok: bool)
      requires |attempts| >= MAX_ATTEMPTS
      modifies this`status
      ensures ok <==> Committed(change, attempts, 0).Some?
      ensures status == if ok then Committed(change, attempts, 0).value else old(status)
    {
      var i := 0;
      while i < MAX_ATTEMPTS
        invariant 0 <= i <= MAX_ATTEMPTS
        invariant Committed(change, attempts, 0) == Committed(change, attempts, i)
        invariant status == old(status)
      {
        if attempts[i].got.None? {
          return false;
        }
        var latest := Applied(change, attempts[i].got.value);
        match attempts[i].put {
          case Stored =>
            status := latest;
            return true;
          case Conflict =>
            i := i + 1;
          case PutError =>
            return false;
        }
      }
      return false;
    }

    method MarkPrepared(provider: string, id: string, path: string, attempts: seq<Attempt>) returns (ok: bool)
      requires |attempts| >= MAX_ATTEMPTS
      modifies this`status
      ensures ok <==> Committed(Prepared(provider, id, path), attempts, 0).Some?
      ensures status == if ok then Committed(Prepared(provider, id, path), attempts, 0).value else old(status)
      ensures ok ==> status.Available(provider) && provider in status.availableOn
    {
      ok := WriteImageStatus(Prepared(provider, id, path), attempts);
      CommitsWhatItReRead(Prepared(provider, id, path), attempts, 0);
    }

    method EnsureImageOnProvider(p: ProviderInfo, env: EnsureEnv) returns (gate: Gate)
      requires |env.attempts| >= MAX_ATTEMPTS
      modifies this
      ensures (gate, status) == Ensured(spec, old(status), p, env)
      ensures prepareCalls == old(prepareCalls) + if Decide(spec, old(status), p, env).prepares then 1 else 0
    {
      if !p.implementsPreparer || !p.advertisesImport {
        return Proceed;
      }
      if status.Available(p.name) {
        return Proceed;
      }
      if !NeedsPrepare(spec.source) {
        return Proceed;
      }
      var action := MissingAction(spec);
      if action != Import {
        var ok := WriteImageStatus(if action == Refuse then Refused else Awaiting, env.attempts);
        return if ok then Hold else GateError;
      }
      if status.prepareTask != "" {
        match env.poll {
          case TaskError =>
            return GateError;
          case TaskRunning =>
            var ok := WriteImageStatus(Preparing, env.attempts);
            return if ok then InFlight else GateError;
          case TaskDone =>
            var ok := MarkPrepared(p.name, "", "", env.attempts);
            return if ok then Proceed else GateError;
        }
      }
      prepareCalls := prepareCalls + 1;
      if env.prepare.PrepareError? {
        return GateError;
      }
      var Accepted(id, path, task) := env.prepare;
      if task != "" {
        var ok := WriteImageStatus(Triggered(p.name, task, id, path), env.attempts);
        return if ok then InFlight else GateError;
      }
      var ok := MarkPrepared(p.name, id, path, env.attempts);
      return if ok then Proceed else GateError;
    }
  }

  // ---------------------------------------------------------------------------------------
  // The image a create request names

  datatype RequestImage = RequestImage(path: string, url: string, templateName: string)

  /** The image as the spec describes it, before any preparation is taken into account. */
  function ByReference(source: ImageSource): RequestImage {
    var template0, url0 :=
      if source.vsphere.Some? then source.vsphere.value.templateName else "",
      if source.vsphere.Some? then source.vsphere.value.ovaUrl else "";
    var path, url :=
      if source.libvirt.Some? then source.libvirt.value.path else "",
      if source.libvirt.Some? then source.libvirt.value.url else url0;
    var template :=
      if source.proxmox.None? then template0
      else if source.proxmox.value.templateID.Some? then source.proxmox.value.templateID.value
      else if source.proxmox.value.templateName != "" then source.proxmox.value.templateName
      else template0;
    RequestImage(path, url, template)
  }

  function WithPreparedLocation(image: RequestImage, source: ImageSource, st: ImageStatus, provider: string)
    : RequestImage
  {
    if !st.Available(provider) then image
    else
      var entry := st.entries[provider];
      if source.libvirt.Some? then if entry.path == "" then image else image.(path := entry.path, url := "")
      else if source.vsphere.Some? then if entry.id == "" then image else image.(templateName := entry.id, url := "")
      else if source.proxmox.Some? then if entry.id == "" then image else image.(templateName := entry.id)
      else image
  }

  function CreateImage(spec: ImageSpec, st: ImageStatus, provider: string): RequestImage {
    WithPreparedLocation(ByReference(spec.source), spec.source, st, provider)
  }

  /** The prepare path decides: only an available entry lets an import-style image through. */
  lemma ProceedMeansAvailable(spec: ImageSpec, st: ImageStatus, p: ProviderInfo, env: EnsureEnv)
    requires |env.attempts| >= MAX_ATTEMPTS
    requires p.Capable() && NeedsPrepare(spec.source)
    ensures Ensured(spec, st, p, env).0 == Proceed ==> Ensured(spec, st, p, env).1.Available(p.name)
    ensures MissingAction(spec) != Import && !st.Available(p.name) ==> Ensured(spec, st, p, env).0 in {Hold, GateError}
  {
    var d := Decide(spec, st, p, env);
    if d.change.Some? {
      CommitsWhatItReRead(d.change.value, env.attempts, 0);
    }
  }

  /**
    A request consumes the recorded location exactly when the entry is available and records one
    for the source's kind: the libvirt pool path or the vSphere template, with the URL dropped.
   */
  lemma RequestConsumesLocation(spec: ImageSpec, st: ImageStatus, provider: string)
    ensures spec.source.libvirt.Some? ==>
              var r, e := CreateImage(spec, st, provider), st.EntryOf(provider);
              if st.Available(provider) && e.path != "" then r.path == e.path && r.url == ""
              else r.path == spec.source.libvirt.value.path && r.url == spec.source.libvirt.value.url
    ensures spec.source.libvirt.None? && spec.source.vsphere.Some? ==>
              var r, e := CreateImage(spec, st, provider), st.EntryOf(provider);
              if st.Available(provider) && e.id != "" then r.templateName == e.id && r.url == ""
              else r == ByReference(spec.source)
  {
  }
}
