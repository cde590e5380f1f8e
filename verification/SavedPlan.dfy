/**
 Sealing and replaying saved plans (scripts/run_pulumi_command.py): a plan run writes artifacts and, only
 if every stack succeeds, a manifest that binds their bytes; a later run replays a stack only if the
 artifacts are still those bytes. Pulumi, the clock and the configuration service are outcomes handed in.
 */
module SavedPlan {
  import opened ByteStrings
  import opened Options
  import opened Texts

  /** A path below the repository root, by its components. */
  type Path = seq<string>

  datatype Entry = Entry(
    stack: string, planFile: Path, planSha: Text, previewFile: Path, previewSha: Text, identity: Option<Text>)

  datatype Manifest = Manifest(
    schemaVersion: int, createdAt: int, commit: string, backend: string, pulumiDir: Path, policyDir: Path,
    stacks: seq<Entry>)

  datatype ManifestFile = Absent | Malformed | Written(manifest: Manifest)

  /** What Pulumi was told to apply, and whether it reported success. */
  datatype Replay = Replay(stack: string, plan: Bytes, preview: Bytes, succeeded: bool)

  /** How a command ends: with an exit status, or by an exception (which the caller also sees as failure). */
  datatype Outcome = Exit(code: int) | Raised

  type Files = map<Path, Bytes>

  /** What `hexdigest` returns. */
  type Digest = t: Text | |t| == 64 witness seq(64, _ => 0x30)

  /** SHA-256, and the classifier that accepts a preview without protected destruction. */
  datatype Tools = Tools(sha: Bytes -> Digest, safe: Bytes -> bool)

  /** One invocation's environment; the two clock settings may fail to parse. */
  datatype Context = Context(
    commitSha: string, expectedSha: string, githubSha: string,
    now: Option<int>, maxAge: Option<int>,
    backend: string, pulumiDir: Path, policyDir: Path,
    planFile: string -> Path, previewFile: string -> Path, isPreview: Path -> bool)

  function CommitSha(ctx: Context): string {
    if ctx.commitSha != "" then ctx.commitSha
    else if ctx.expectedSha != "" then ctx.expectedSha
    else ctx.githubSha
  }

  /** `code or 1`. */
  function Failing(code: int): (r: int)
    ensures r != 0
  {
    if code == 0 then 1 else code
  }

  // ---------------------------------------------------------------- sealing

  /**
   What happens when one stack is planned. `plan` is the plan file Pulumi leaves, if it writes one;
   `gate` is false when the registry gate raises.
   */
  datatype PlanOutcome = PlanOutcome(
    select: Option<int>, configured: bool, preview: Bytes, plan: Option<Bytes>, ran: bool, gate: bool,
    summarized: bool, identity: Option<Text>)

  datatype Sealing = Sealing(files: Files, entries: seq<Entry>, stopped: Option<Outcome>)

  function SealStack(tools: Tools, ctx: Context, before: Sealing, stack: string, o: PlanOutcome): Sealing {
    var plan, preview := ctx.planFile(stack), ctx.previewFile(stack);
    if o.select.Some? then before.(stopped := Some(Exit(Failing(o.select.value))))
    else if !o.configured then before.(stopped := Some(Raised))
    else
      var shown := before.files[preview := o.preview];
      var files := if o.plan.Some? then shown[plan := o.plan.value] else shown;
      var after := before.(files := files);
      if !o.ran then after.(stopped := Some(Raised))
      else if plan !in files then after.(stopped := Some(Exit(1)))
      else if !tools.safe(files[preview]) then after.(stopped := Some(Exit(1)))
      else if !o.gate then after.(stopped := Some(Raised))
      else
        var entry := Entry(stack, plan, tools.sha(files[plan]), preview, tools.sha(files[preview]), o.identity);
        if !o.summarized then after.(stopped := Some(Raised))
        else after.(entries := before.entries + [entry])
  }

  /** The plan directory and preview directory as a plan run finds them: no manifest, no previews. */
  function Cleared(ctx: Context, files: Files): Files {
    map p | p in files && !ctx.isPreview(p) :: files[p]
  }

  /** The first `n` stacks planned in order, up to the first that stops the run. */
  function SealPrefix(
    tools: Tools, ctx: Context, files: Files, stacks: seq<string>, outcomes: seq<PlanOutcome>, n: nat): Sealing
    requires n <= |stacks| == |outcomes|
  {
    if n == 0 then Sealing(Cleared(ctx, files), [], None)
    else
      var before := SealPrefix(tools, ctx, files, stacks, outcomes, n - 1);
      if before.stopped.Some? then before else SealStack(tools, ctx, before, stacks[n - 1], outcomes[n - 1])
  }

  function SealedManifest(ctx: Context, createdAt: int, entries: seq<Entry>): Manifest {
    Manifest(1, createdAt, CommitSha(ctx), ctx.backend, ctx.pulumiDir, ctx.policyDir, entries)
  }

  datatype Disk = Disk(files: Files, manifest: ManifestFile, replays: seq<Replay>)

  /**
   How a plan run whose stacks are all planned ends: writing the manifest may raise, before the file is created
   or halfway through it, and so may writing the job outputs after it.
   */
  datatype Ending = ManifestFails(created: bool) | OutputsFail | Published

  function ManifestLeft(ending: Ending, m: Manifest): ManifestFile {
    match ending
    case ManifestFails(created) => if created then Malformed else Absent
    case _ => Written(m)
  }

  /** A whole plan run. */
  function PlanRun(
    tools: Tools, ctx: Context, disk: Disk, stacks: seq<string>, outcomes: seq<PlanOutcome>, ending: Ending)
    : (Disk, Outcome)
    requires |stacks| == |outcomes|
  {
    var sealing := SealPrefix(tools, ctx, disk.files, stacks, outcomes, |stacks|);
    var unsealed := disk.(files := sealing.files, manifest := Absent);
    if sealing.stopped.Some? then (unsealed, sealing.stopped.value)
    else if ctx.now.None? then (unsealed, Raised)
    else
      (unsealed.(manifest := ManifestLeft(ending, SealedManifest(ctx, ctx.now.value, sealing.entries))),
       if ending.Published? then Exit(0) else Raised)
  }

  // ---------------------------------------------------------------- replaying

  predicate PathOk(p: Path) {
    p != [] && ".." !in p
  }

  /** The first entry for a stack. */
  function StackEntry(entries: seq<Entry>, stack: string): Option<Entry> {
    if entries == [] then None
    else if entries[0].stack == stack then Some(entries[0])
    else StackEntry(entries[1..], stack)
  }

  predicate HeaderOk(ctx: Context, m: Manifest) {
    && m.schemaVersion == 1
    && ctx.now.Some? && ctx.maxAge.Some? && 0 <= ctx.now.value - m.createdAt <= ctx.maxAge.value
    && (ctx.expectedSha != "" ==> ctx.expectedSha == CommitSha(ctx))
    && CommitSha(ctx) != "" && m.commit == CommitSha(ctx)
    && m.backend == ctx.backend
    && PathOk(m.pulumiDir) && m.pulumiDir == ctx.pulumiDir
    && PathOk(m.policyDir) && m.policyDir == ctx.policyDir
  }

  /** The artifacts on disk are the ones the entry names, byte for byte, and the preview is safe. */
  predicate EntryOk(tools: Tools, files: Files, entry: Entry, planPath: Path) {
    && PathOk(entry.planFile) && entry.planFile == planPath
    && entry.planSha != [] && planPath in files && tools.sha(files[planPath]) == entry.planSha
    && PathOk(entry.previewFile) && |entry.previewSha| == 64
    && entry.previewFile in files && tools.sha(files[entry.previewFile]) == entry.previewSha
    && tools.safe(files[entry.previewFile])
  }

  predicate ManifestOk(tools: Tools, ctx: Context, files: Files, m: Manifest, stack: string, planPath: Path) {
    HeaderOk(ctx, m)
    && StackEntry(m.stacks, stack).Some? && EntryOk(tools, files, StackEntry(m.stacks, stack).value, planPath)
  }

  /** What somebody else did to the files, and perhaps to the manifest. */
  datatype Disturbance = Disturbance(files: Files, manifest: Option<ManifestFile>)

  /**
   What happens when one stack is replayed: `meanwhile` before its turn; `gate` is false when the registry
   gate raises.
   */
  datatype ReplayOutcome = ReplayOutcome(
    meanwhile: Option<Disturbance>, select: Option<int>, configured: bool, identity: Option<Text>, gate: bool,
    code: int)

  /** A run in progress; `loaded` is the manifest, read once and then held in memory. */
  datatype Replaying = Replaying(
    files: Files, manifest: ManifestFile, loaded: Option<Manifest>, replays: seq<Replay>, status: Option<Outcome>)

  function Disturbed(r: Replaying, d: Option<Disturbance>): Replaying {
    match d
    case None => r
    case Some(Disturbance(files, manifest)) =>
      r.(files := files, manifest := if manifest.Some? then manifest.value else r.manifest)
  }

  /** `_load_plan_manifest`, unless it has been loaded. */
  function Loaded(r: Replaying): Option<Manifest> {
    if r.loaded.Some? then r.loaded
    else if r.manifest.Written? then Some(r.manifest.manifest)
    else None
  }

  function PlanPath(ctx: Context, selected: Option<Path>, stack: string): Path {
    if selected.Some? then selected.value else ctx.planFile(stack)
  }

  function ReplayStack(
    tools: Tools, ctx: Context, selected: Option<Path>, before: Replaying, stack: string, o: ReplayOutcome): Replaying
  {
    var planPath, now := PlanPath(ctx, selected, stack), Disturbed(before, o.meanwhile);
    if planPath !in now.files || Loaded(now).None? then now.(status := Some(Exit(1)))
    else
      var held := now.(loaded := Loaded(now));
      var manifest := held.loaded.value;
      if !ManifestOk(tools, ctx, held.files, manifest, stack, planPath) then held.(status := Some(Exit(1)))
      else if o.select.Some? then held.(status := Some(Exit(Failing(o.select.value))))
      else
        var entry := StackEntry(manifest.stacks, stack).value;
        if !o.configured || (o.identity.Some? && entry.identity != o.identity) || !o.gate
        then held.(status := Some(Raised))
        else
          var replay := Replay(stack, held.files[planPath], held.files[entry.previewFile], o.code == 0);
          held.(replays := held.replays + [replay], status := if o.code == 0 then None else Some(Exit(o.code)))
  }

  function ReplayPrefix(
    tools: Tools, ctx: Context, disk: Disk, selected: Option<Path>, stacks: seq<string>,
    outcomes: seq<ReplayOutcome>, n: nat): Replaying
    requires n <= |stacks| == |outcomes|
  {
    if n == 0 then
      Replaying(
        disk.files, disk.manifest, None, disk.replays,
        if selected.Some? && |stacks| > 1 then Some(Exit(1)) else None)
    else
      var before := ReplayPrefix(tools, ctx, disk, selected, stacks, outcomes, n - 1);
      if before.status.Some? then before
      else ReplayStack(tools, ctx, selected, before, stacks[n - 1], outcomes[n - 1])
  }

  function UpPlanRun(
    tools: Tools, ctx: Context, disk: Disk, selected: Option<Path>, stacks: seq<string>, outcomes: seq<ReplayOutcome>)
    : (Disk, Outcome)
    requires |stacks| == |outcomes|
  {
    var r := ReplayPrefix(tools, ctx, disk, selected, stacks, outcomes, |stacks|);
    (Disk(r.files, r.manifest, r.replays), if r.status.None? then Exit(0) else r.status.value)
  }

  // ---------------------------------------------------------------- the commands

  class Workspace {
    var files: Files
    var manifest: ManifestFile
    var replays: seq<Replay>

    constructor (files: Files, manifest: ManifestFile)
      ensures State() == Disk(files, manifest, [])
    {
      this.files, this.manifest, this.replays := files, manifest, [];
    }

    function State(): Disk
      reads this
    {
      Disk(files, manifest, replays)
    }

    /** `_prepare_plan_artifacts`. */
    method PreparePlanArtifacts(ctx: Context)
      modifies this
      ensures State() == old(State()).(files := Cleared(ctx, old(files)), manifest := Absent)
      ensures forall p :: p in files <==> p in old(files) && !ctx.isPreview(p)
      ensures forall p :: p in files ==> files[p] == old(files)[p]
    {
      manifest := Absent;
      var todo := files.Keys;
      ghost var found := files;
      while todo != {}
        invariant todo <= found.Keys
        invariant manifest == Absent && replays == old(replays)
        invariant files == map p | p in found && (p in todo || !ctx.isPreview(p)) :: found[p]
        decreases |todo|
      {
        var p :| p in todo;
        if ctx.isPreview(p) {
          files := files - {p};
        }
        todo := todo - {p};
      }
    }

    /** One stack of a plan run: writes its artifacts and returns its manifest entry, or stops the run. */
    method PlanStack(tools: Tools, ctx: Context, stack: string, o: PlanOutcome, entries: seq<Entry>)
      returns (entries': seq<Entry>, stopped: Option<Outcome>)
      modifies this
      ensures manifest == old(manifest) && replays == old(replays)
      ensures Sealing(files, entries', stopped) == SealStack(tools, ctx, Sealing(old(files), entries, None), stack, o)
    {
      entries', stopped := entries, None;
      if o.select.Some? {
        return entries, Some(Exit(Failing(o.select.value)));
      }
      if !o.configured {
        return entries, Some(Raised);
      }
      var plan, preview := ctx.planFile(stack), ctx.previewFile(stack);
      files := files[preview := o.preview];
      if o.plan.Some? {
        files := files[plan := o.plan.value];
      }
      if !o.ran {
        return entries, Some(Raised);
      }
      if plan !in files || !tools.safe(files[preview]) {
        return entries, Some(Exit(1));
      }
      if !o.gate {
        return entries, Some(Raised);
      }
      var entry := Entry(stack, plan, tools.sha(files[plan]), preview, tools.sha(files[preview]), o.identity);
      if !o.summarized {
        return entries, Some(Raised);
      }
      entries' := entries + [entry];
    }

    /** `_run_plan_command`. */
    method RunPlan(tools: Tools, ctx: Context, stacks: seq<string>, outcomes: seq<PlanOutcome>, ending: Ending)
      returns (r: Outcome)
      requires |stacks| == |outcomes|
      modifies this
      ensures (State(), r) == PlanRun(tools, ctx, old(State()), stacks, outcomes, ending)
    {
      hide SealStack, Cleared;
      ghost var found := files;
      PreparePlanArtifacts(ctx);
      var entries: seq<Entry> := [];
      for n := 0 to |stacks|
        invariant manifest == Absent && replays == old(replays)
        invariant Sealing(files, entries, None) == SealPrefix(tools, ctx, found, stacks, outcomes, n)
      {
        var stopped;
        entries, stopped := PlanStack(tools, ctx, stacks[n], outcomes[n], entries);
        if stopped.Some? {
          StoppedStays(tools, ctx, found, stacks, outcomes, n + 1);
          return stopped.value;
        }
      }
      if ctx.now.None? {
        return Raised;
      }
      manifest := ManifestLeft(ending, SealedManifest(ctx, ctx.now.value, entries));
      return if ending.Published? then Exit(0) else Raised;
    }

    /** Somebody else's turn. */
    method Suffer(d: Option<Disturbance>)
      modifies this`files, this`manifest
      ensures d.None? ==> files == old(files) && manifest == old(manifest)
      ensures d.Some? ==> files == d.value.files
      ensures d.Some? ==> manifest == if d.value.manifest.Some? then d.value.manifest.value else old(manifest)
    {
      if d.Some? {
        files := d.value.files;
        if d.value.manifest.Some? {
          manifest := d.value.manifest.value;
        }
      }
    }

    /** `_run_validated_up_plan_stack`: what is applied, if anything, and the status that ends the run. */
    method ReplayOne(
      tools: Tools, ctx: Context, selected: Option<Path>, held: Option<Manifest>, stack: string, o: ReplayOutcome)
      returns (loaded: Option<Manifest>, status: Option<Outcome>)
      modifies this
      ensures var before := Replaying(old(files), old(manifest), held, old(replays), None);
        Replaying(files, manifest, loaded, replays, status) == ReplayStack(tools, ctx, selected, before, stack, o)
    {
      Suffer(o.meanwhile);
      loaded := held;
      var planPath := PlanPath(ctx, selected, stack);
      if planPath !in files {
        return loaded, Some(Exit(1));
      }
      if loaded.None? {
        if !manifest.Written? {
          return loaded, Some(Exit(1));
        }
        loaded := Some(manifest.manifest);
      }
      if !ManifestOk(tools, ctx, files, loaded.value, stack, planPath) {
        return loaded, Some(Exit(1));
      }
      if o.select.Some? {
        return loaded, Some(Exit(Failing(o.select.value)));
      }
      var entry := StackEntry(loaded.value.stacks, stack).value;
      if !o.configured || (o.identity.Some? && entry.identity != o.identity) || !o.gate {
        return loaded, Some(Raised);
      }
      replays := replays + [Replay(stack, files[planPath], files[entry.previewFile], o.code == 0)];
      return loaded, if o.code == 0 then None else Some(Exit(o.code));
    }

    /** `_run_up_plan_command`. */
    method RunUpPlan(
      tools: Tools, ctx: Context, selected: Option<Path>, stacks: seq<string>, outcomes: seq<ReplayOutcome>)
      returns (r: Outcome)
      requires |stacks| == |outcomes|
      modifies this
      ensures (State(), r) == UpPlanRun(tools, ctx, old(State()), selected, stacks, outcomes)
    {
      hide ReplayStack;
      var status := if selected.Some? && |stacks| > 1 then Some(Exit(1)) else None;
      var loaded: Option<Manifest> := None;
      ghost var disk := State();
      for n := 0 to |stacks|
        invariant Replaying(files, manifest, loaded, replays, status)
          == ReplayPrefix(tools, ctx, disk, selected, stacks, outcomes, n)
      {
        if status.None? {
          loaded, status := ReplayOne(tools, ctx, selected, loaded, stacks[n], outcomes[n]);
        }
      }
      return if status.None? then Exit(0) else status.value;
    }
  }

  /** A stopped run stays as it is. */
  lemma {:induction false} StoppedStays(
    tools: Tools, ctx: Context, files: Files, stacks: seq<string>, outcomes: seq<PlanOutcome>, n: nat)
    requires n <= |stacks| == |outcomes|
    requires SealPrefix(tools, ctx, files, stacks, outcomes, n).stopped.Some?
    ensures SealPrefix(tools, ctx, files, stacks, outcomes, |stacks|)
      == SealPrefix(tools, ctx, files, stacks, outcomes, n)
    decreases |stacks| - n
  {
    if n < |stacks| {
      StoppedStays(tools, ctx, files, stacks, outcomes, n + 1);
    }
  }
}
