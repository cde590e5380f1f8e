/**
 What every run of plan, artifact-change and up-plan steps keeps (scripts/run_pulumi_command.py): nothing is
 applied but the bytes the last complete plan run sealed, for the same commit, backend and directories.
 */
module SavedPlanRuns {
  import opened ByteStrings
  import opened Options
  import opened SavedPlan
  import Texts

  /**
   One step of a run. `Change` stands for anybody else writing below the repository: every artifact may
   change, and the manifest may be lost or damaged, but nobody else writes a manifest.
   */
  datatype Step =
    | Plan(ctx: Context, stacks: seq<string>, outcomes: seq<PlanOutcome>, ending: Ending)
    | Change(files: Files, manifest: Option<ManifestFile>)
    | UpPlan(upCtx: Context, selected: Option<Path>, upStacks: seq<string>, upOutcomes: seq<ReplayOutcome>)

  predicate StepOk(step: Step) {
    match step
    case Plan(_, stacks, outcomes, _) => |stacks| == |outcomes|
    case Change(_, manifest) => manifest.Some? ==> !manifest.value.Written?
    case UpPlan(_, _, stacks, outcomes) =>
      |stacks| == |outcomes| && forall i :: 0 <= i < |outcomes| ==> Unforged(outcomes[i].meanwhile)
  }

  /** Nobody else writes a manifest. */
  predicate Unforged(d: Option<Disturbance>) {
    d.Some? && d.value.manifest.Some? ==> !d.value.manifest.value.Written?
  }

  type Steps = steps: seq<Step> | forall i :: 0 <= i < |steps| ==> StepOk(steps[i])

  function Next(tools: Tools, disk: Disk, step: Step): Disk
    requires StepOk(step)
  {
    match step
    case Plan(ctx, stacks, outcomes, ending) => PlanRun(tools, ctx, disk, stacks, outcomes, ending).0
    case Change(files, manifest) =>
      disk.(files := files, manifest := if manifest.Some? then manifest.value else disk.manifest)
    case UpPlan(ctx, selected, stacks, outcomes) => UpPlanRun(tools, ctx, disk, selected, stacks, outcomes).0
  }

  /** The disk after the first `n` steps. */
  function After(tools: Tools, disk: Disk, steps: Steps, n: nat): Disk
    requires n <= |steps|
  {
    if n == 0 then disk else Next(tools, After(tools, disk, steps, n - 1), steps[n - 1])
  }

  // ---------------------------------------------------------------- what a plan run seals

  /** The plan run planned every stack without stopping, could read the clock, and wrote the manifest. */
  predicate Complete(tools: Tools, disk: Disk, step: Step)
    requires step.Plan? && StepOk(step)
  {
    step.ctx.now.Some? && !step.ending.ManifestFails?
    && SealPrefix(tools, step.ctx, disk.files, step.stacks, step.outcomes, |step.stacks|).stopped.None?
  }

  /** The files as they were when stack number `i` of the plan run was sealed. */
  function FilesAt(tools: Tools, disk: Disk, step: Step, i: nat): Files
    requires step.Plan? && StepOk(step) && i < |step.stacks|
  {
    SealPrefix(tools, step.ctx, disk.files, step.stacks, step.outcomes, i + 1).files
  }

  predicate FirstAt(stacks: seq<string>, stack: string, i: nat) {
    i < |stacks| && stacks[i] == stack && forall k :: 0 <= k < i ==> stacks[k] != stack
  }

  /** `found` are the sealed bytes, unless the two are a collision of SHA-256. */
  predicate Genuine(tools: Tools, sealed: Bytes, found: Bytes) {
    sealed == found || Collide(tools.sha, sealed, found)
  }

  /** `r` applied the bytes that plan run `step` sealed for its stack, and they were safe. */
  predicate AppliesSealed(tools: Tools, disk: Disk, step: Step, r: Replay, i: nat)
    requires step.Plan? && StepOk(step)
  {
    && FirstAt(step.stacks, r.stack, i)
    && var files := FilesAt(tools, disk, step, i);
       var plan, preview := step.ctx.planFile(r.stack), step.ctx.previewFile(r.stack);
    && plan in files && Genuine(tools, files[plan], r.plan)
    && preview in files && Genuine(tools, files[preview], r.preview)
    && tools.safe(r.preview)
  }

  /** The commit of an invocation: the first of its three settings that is not empty. */
  predicate IsCommit(ctx: Context, sha: string) {
    && (ctx.commitSha != "" ==> sha == ctx.commitSha)
    && (ctx.commitSha == "" && ctx.expectedSha != "" ==> sha == ctx.expectedSha)
    && (ctx.commitSha == "" && ctx.expectedSha == "" ==> sha == ctx.githubSha)
  }

  /** The path names something below the repository root. */
  predicate BelowRoot(p: Path) {
    |p| > 0 && forall i :: 0 <= i < |p| ==> p[i] != ".."
  }

  /**
   The replaying invocation is at the sealed commit and at the one requested of it, if one is, with the sealing
   one's backend and directories, and comes within its time.
   */
  ghost predicate SameSetting(sealing: Context, replaying: Context) {
    && (exists sha :: IsCommit(sealing, sha) && IsCommit(replaying, sha) && sha != ""
          && (replaying.expectedSha == "" || replaying.expectedSha == sha))
    && sealing.backend == replaying.backend
    && sealing.pulumiDir == replaying.pulumiDir && BelowRoot(replaying.pulumiDir)
    && sealing.policyDir == replaying.policyDir && BelowRoot(replaying.policyDir)
    && sealing.now.Some? && replaying.now.Some? && replaying.maxAge.Some?
    && 0 <= replaying.now.value - sealing.now.value <= replaying.maxAge.value
  }

  /** The manifest's header is accepted exactly in the same setting. */
  lemma {:induction false} HeaderExactly(sealing: Context, replaying: Context, entries: seq<Entry>)
    requires sealing.now.Some?
    ensures HeaderOk(replaying, SealedManifest(sealing, sealing.now.value, entries)) <==>
      SameSetting(sealing, replaying)
  {
    assert IsCommit(sealing, CommitSha(sealing)) && IsCommit(replaying, CommitSha(replaying));
    assert forall ctx, sha :: IsCommit(ctx, sha) ==> sha == CommitSha(ctx);
  }

  /** Step `j` is the last plan run before step `k`. */
  predicate LastPlan(steps: Steps, j: nat, k: nat) {
    j < k <= |steps| && steps[j].Plan? && forall i :: j < i < k ==> !steps[i].Plan?
  }

  /** An entry records the hashes of the bytes on disk when it was made, for the stack in its place. */
  predicate EntryRecords(
    tools: Tools, ctx: Context, files: Files, entry: Entry, stack: string, identity: Option<Texts.Text>)
  {
    && entry.stack == stack && entry.identity == identity
    && entry.planFile == ctx.planFile(stack) && entry.previewFile == ctx.previewFile(stack)
    && entry.planFile in files && entry.planSha == tools.sha(files[entry.planFile])
    && entry.previewFile in files && entry.previewSha == tools.sha(files[entry.previewFile])
    && tools.safe(files[entry.previewFile])
  }

  lemma {:induction false} EntriesRecord(tools: Tools, disk: Disk, step: Step, n: nat, i: nat)
    requires step.Plan? && StepOk(step) && i < n <= |step.stacks|
    requires SealPrefix(tools, step.ctx, disk.files, step.stacks, step.outcomes, n).stopped.None?
    ensures var entries := SealPrefix(tools, step.ctx, disk.files, step.stacks, step.outcomes, n).entries;
      |entries| == n && EntryRecords(
        tools, step.ctx, FilesAt(tools, disk, step, i), entries[i], step.stacks[i], step.outcomes[i].identity)
  {
    EntriesCount(tools, disk, step, n);
    if i < n - 1 {
      EntriesRecord(tools, disk, step, n - 1, i);
    }
  }

  lemma {:induction false} EntriesCount(tools: Tools, disk: Disk, step: Step, n: nat)
    requires step.Plan? && StepOk(step) && n <= |step.stacks|
    requires SealPrefix(tools, step.ctx, disk.files, step.stacks, step.outcomes, n).stopped.None?
    ensures |SealPrefix(tools, step.ctx, disk.files, step.stacks, step.outcomes, n).entries| == n
  {
    if n > 0 {
      EntriesCount(tools, disk, step, n - 1);
    }
  }

  lemma {:induction false} FirstEntry(entries: seq<Entry>, stacks: seq<string>, stack: string) returns (i: nat)
    requires |entries| == |stacks| && forall k :: 0 <= k < |stacks| ==> entries[k].stack == stacks[k]
    requires StackEntry(entries, stack).Some?
    ensures FirstAt(stacks, stack, i) && StackEntry(entries, stack).value == entries[i]
  {
    if entries[0].stack == stack {
      i := 0;
    } else {
      var j := FirstEntry(entries[1..], stacks[1..], stack);
      i := j + 1;
      assert forall k :: 1 <= k < i ==> stacks[k] == stacks[1..][k - 1];
    }
  }

  lemma {:induction false} FirstEntryFound(entries: seq<Entry>, stacks: seq<string>, stack: string, i: nat)
    requires |entries| == |stacks| && forall k :: 0 <= k < |stacks| ==> entries[k].stack == stacks[k]
    requires FirstAt(stacks, stack, i)
    ensures StackEntry(entries, stack) == Some(entries[i])
  {
    if i > 0 {
      assert forall k :: 0 <= k < i - 1 ==> stacks[1..][k] == stacks[k + 1];
      FirstEntryFound(entries[1..], stacks[1..], stack, i - 1);
    }
  }

  /** The stacks of a complete run's manifest are the planned ones, in order. */
  lemma {:induction false} EntryStacks(tools: Tools, disk: Disk, step: Step)
    requires step.Plan? && StepOk(step) && Complete(tools, disk, step)
    ensures var entries := SealPrefix(tools, step.ctx, disk.files, step.stacks, step.outcomes, |step.stacks|).entries;
      |entries| == |step.stacks| && forall i :: 0 <= i < |entries| ==> entries[i].stack == step.stacks[i]
  {
    EntriesCount(tools, disk, step, |step.stacks|);
    forall i | 0 <= i < |step.stacks|
      ensures SealPrefix(tools, step.ctx, disk.files, step.stacks, step.outcomes, |step.stacks|).entries[i].stack
        == step.stacks[i]
    {
      EntriesRecord(tools, disk, step, |step.stacks|, i);
    }
  }

  // ---------------------------------------------------------------- what an up-plan run applies

  /** A replay that took place, against manifest `m` and the files of that moment. */
  predicate ReplayAllowed(
    tools: Tools, ctx: Context, m: Manifest, files: Files, planPath: Path, r: Replay, o: ReplayOutcome)
  {
    && o.select.None? && o.configured && o.gate && r.succeeded == (o.code == 0)
    && planPath in files
    && ManifestOk(tools, ctx, files, m, r.stack, planPath)
    && r.plan == files[planPath]
    && var entry := StackEntry(m.stacks, r.stack).value;
    && r.preview == files[entry.previewFile]
    && (o.identity.Some? ==> entry.identity == o.identity)
  }

  /** The same, whatever the files were. */
  ghost predicate AllowedThen(tools: Tools, ctx: Context, m: Manifest, planPath: Path, r: Replay, o: ReplayOutcome) {
    exists files :: ReplayAllowed(tools, ctx, m, files, planPath, r, o)
  }

  /** Replays `made` are of the first stacks, each allowed by `m`, and all but the last of them succeeded. */
  ghost predicate MadeInOrder(
    tools: Tools, ctx: Context, m: Option<Manifest>, selected: Option<Path>, stacks: seq<string>,
    outcomes: seq<ReplayOutcome>, made: seq<Replay>)
    requires |stacks| == |outcomes|
  {
    && |made| <= |stacks|
    && (made != [] ==> m.Some?)
    && (forall i :: 0 <= i < |made| ==>
      && made[i].stack == stacks[i]
      && AllowedThen(tools, ctx, m.value, PlanPath(ctx, selected, stacks[i]), made[i], outcomes[i]))
    && (forall i :: 0 <= i < |made| - 1 ==> made[i].succeeded)
  }

  /** The manifest on disk at the start of a run, if it can be read. */
  function InitialManifest(disk: Disk): Option<Manifest> {
    if disk.manifest.Written? then Some(disk.manifest.manifest) else None
  }

  /** The manifest held in memory, or still on disk, is the one the run found. */
  predicate HoldsInitial(disk: Disk, r: Replaying) {
    && (r.loaded.Some? ==> r.loaded == InitialManifest(disk))
    && (r.manifest.Written? ==> r.manifest == disk.manifest)
  }

  /**
   Replayed stacks are a prefix of the list, all but the last of them applied successfully, and the run
   goes on exactly while every stack so far was applied, whatever others do in between.
   */
  lemma {:induction false} ReplayedPrefix(
    tools: Tools, ctx: Context, disk: Disk, selected: Option<Path>, stacks: seq<string>,
    outcomes: seq<ReplayOutcome>, n: nat)
    requires n <= |stacks| == |outcomes| && forall i :: 0 <= i < |outcomes| ==> Unforged(outcomes[i].meanwhile)
    ensures var p := ReplayPrefix(tools, ctx, disk, selected, stacks, outcomes, n);
      && disk.replays <= p.replays && HoldsInitial(disk, p)
      && var made := p.replays[|disk.replays|..];
      && |made| <= n && MadeInOrder(tools, ctx, InitialManifest(disk), selected, stacks, outcomes, made)
      && (p.status.None? <==>
        (selected.Some? ==> |stacks| <= 1) && |made| == n && forall i :: 0 <= i < n ==> made[i].succeeded)
      && (selected.Some? && |stacks| > 1 ==> made == [])
      && p.status != Some(Exit(0))
      && (made != [] && !made[|made| - 1].succeeded ==> p.status == Some(Exit(outcomes[|made| - 1].code)))
  {
    hide AllowedThen, MadeInOrder, ReplayStack, HoldsInitial, Unforged;
    if n > 0 {
      ReplayedPrefix(tools, ctx, disk, selected, stacks, outcomes, n - 1);
      var before := ReplayPrefix(tools, ctx, disk, selected, stacks, outcomes, n - 1);
      if before.status.None? {
        ReplayedStack(tools, ctx, disk, selected, before, stacks[n - 1], outcomes[n - 1]);
        var after := ReplayPrefix(tools, ctx, disk, selected, stacks, outcomes, n);
        if after.replays != before.replays {
          var made, r := before.replays[|disk.replays|..], after.replays[|before.replays|];
          assert after.replays[|disk.replays|..] == made + [r];
          MadeNext(tools, ctx, InitialManifest(disk), selected, stacks, outcomes, made, r);
        }
      }
    } else {
      NoneMade(tools, ctx, disk, selected, stacks, outcomes);
    }
  }

  lemma {:induction false} NoneMade(
    tools: Tools, ctx: Context, disk: Disk, selected: Option<Path>, stacks: seq<string>, outcomes: seq<ReplayOutcome>)
    requires |stacks| == |outcomes|
    ensures MadeInOrder(tools, ctx, InitialManifest(disk), selected, stacks, outcomes, [])
    ensures HoldsInitial(disk, ReplayPrefix(tools, ctx, disk, selected, stacks, outcomes, 0))
  {
  }

  lemma {:induction false} MadeNext(
    tools: Tools, ctx: Context, m: Option<Manifest>, selected: Option<Path>, stacks: seq<string>,
    outcomes: seq<ReplayOutcome>, made: seq<Replay>, r: Replay)
    requires |stacks| == |outcomes| && |made| < |stacks| && m.Some?
    requires MadeInOrder(tools, ctx, m, selected, stacks, outcomes, made)
    requires forall i :: 0 <= i < |made| ==> made[i].succeeded
    requires r.stack == stacks[|made|]
    requires AllowedThen(tools, ctx, m.value, PlanPath(ctx, selected, r.stack), r, outcomes[|made|])
    ensures MadeInOrder(tools, ctx, m, selected, stacks, outcomes, made + [r])
  {
    hide AllowedThen;
  }

  lemma {:induction false} ReplayedStack(
    tools: Tools, ctx: Context, disk: Disk, selected: Option<Path>, before: Replaying, stack: string, o: ReplayOutcome)
    requires before.status.None? && HoldsInitial(disk, before) && Unforged(o.meanwhile)
    ensures var after := ReplayStack(tools, ctx, selected, before, stack, o);
      && HoldsInitial(disk, after)
      && after.status != Some(Exit(0))
      && before.replays <= after.replays
      && (after.replays == before.replays ==> after.status.Some?)
      && (after.replays != before.replays ==>
        && |after.replays| == |before.replays| + 1 && InitialManifest(disk).Some?
        && var r := after.replays[|before.replays|];
        && r.stack == stack && r.succeeded == after.status.None?
        && AllowedThen(tools, ctx, InitialManifest(disk).value, PlanPath(ctx, selected, stack), r, o)
        && (!r.succeeded ==> after.status == Some(Exit(o.code))))
  {
    hide HeaderOk, EntryOk;
    var after, planPath := ReplayStack(tools, ctx, selected, before, stack, o), PlanPath(ctx, selected, stack);
    if after.replays != before.replays {
      var r := after.replays[|before.replays|];
      assert ReplayAllowed(tools, ctx, InitialManifest(disk).value, after.files, planPath, r, o);
    }
  }

  /** The exit status of an up-plan run is 0 exactly when every listed stack was applied successfully. */
  lemma {:induction false} UpPlanExit(
    tools: Tools, ctx: Context, disk: Disk, selected: Option<Path>, stacks: seq<string>, outcomes: seq<ReplayOutcome>)
    requires |stacks| == |outcomes| && forall i :: 0 <= i < |outcomes| ==> Unforged(outcomes[i].meanwhile)
    ensures var (disk', r) := UpPlanRun(tools, ctx, disk, selected, stacks, outcomes);
      && (disk'.manifest.Written? ==> disk'.manifest == disk.manifest) && disk.replays <= disk'.replays
      && var made := disk'.replays[|disk.replays|..];
      && |made| <= |stacks|
      && (forall i :: 0 <= i < |made| ==> made[i].stack == stacks[i])
      && (forall i :: 0 <= i < |made| - 1 ==> made[i].succeeded)
      && (r == Exit(0) <==>
        (selected.Some? ==> |stacks| <= 1) && |made| == |stacks| && forall i :: 0 <= i < |made| ==> made[i].succeeded)
      && (made != [] && !made[|made| - 1].succeeded ==> r == Exit(outcomes[|made| - 1].code))
      && (selected.Some? && |stacks| > 1 ==> made == [])
  {
    hide AllowedThen, ReplayPrefix;
    ReplayedPrefix(tools, ctx, disk, selected, stacks, outcomes, |stacks|);
  }

  // ---------------------------------------------------------------- over whole runs

  /** Whenever a manifest is readable, it is the one the last plan run wrote, and that run was complete. */
  lemma {:induction false} ManifestIsSealed(tools: Tools, disk: Disk, steps: Steps, k: nat) returns (j: nat)
    requires k <= |steps| && !disk.manifest.Written?
    requires After(tools, disk, steps, k).manifest.Written?
    ensures LastPlan(steps, j, k)
    ensures Complete(tools, After(tools, disk, steps, j), steps[j])
    ensures var before, step := After(tools, disk, steps, j), steps[j];
      After(tools, disk, steps, k).manifest.manifest == SealedManifest(step.ctx, step.ctx.now.value,
        SealPrefix(tools, step.ctx, before.files, step.stacks, step.outcomes, |step.stacks|).entries)
  {
    hide SealPrefix, ReplayPrefix;
    match steps[k - 1]
    case Plan(_, _, _, _) => j := k - 1;
    case Change(_, _) => j := ManifestIsSealed(tools, disk, steps, k - 1);
    case UpPlan(ctx, selected, stacks, outcomes) =>
      UpPlanExit(tools, ctx, After(tools, disk, steps, k - 1), selected, stacks, outcomes);
      j := ManifestIsSealed(tools, disk, steps, k - 1);
  }

  /** The replaying invocation had everything in order, and the provider identity that was sealed. */
  predicate InOrder(sealed: PlanOutcome, replayed: ReplayOutcome) {
    && replayed.select.None? && replayed.configured && replayed.gate
    && (replayed.identity.Some? ==> sealed.identity == replayed.identity)
  }

  /**
   Safety of every run: a replay made by step `k` applied the plan and preview bytes that the last plan run
   before it sealed for that stack (or a SHA-256 collision of theirs), under the same commit, backend,
   directories and provider identity, in time and past the registry gate. Artifacts may change between any
   two steps and between any two stacks of a replaying run.
   */
  lemma {:induction false} ReplaysAreSealed(tools: Tools, disk: Disk, steps: Steps, k: nat, m: nat)
    returns (j: nat, i: nat)
    requires !disk.manifest.Written? && k < |steps| && steps[k].UpPlan?
    requires |After(tools, disk, steps, k).replays| <= m < |After(tools, disk, steps, k + 1).replays|
    ensures LastPlan(steps, j, k)
    ensures Complete(tools, After(tools, disk, steps, j), steps[j])
    ensures SameSetting(steps[j].ctx, steps[k].upCtx)
    ensures AppliesSealed(
      tools, After(tools, disk, steps, j), steps[j], After(tools, disk, steps, k + 1).replays[m], i)
    ensures var n := m - |After(tools, disk, steps, k).replays|;
      n < |steps[k].upOutcomes| && InOrder(steps[j].outcomes[i], steps[k].upOutcomes[n])
      && After(tools, disk, steps, k + 1).replays[m].stack == steps[k].upStacks[n]
  {
    hide SealPrefix, ReplayPrefix, ReplayAllowed;
    var now, step := After(tools, disk, steps, k), steps[k];
    ReplayedPrefix(tools, step.upCtx, now, step.selected, step.upStacks, step.upOutcomes, |step.upStacks|);
    var n := m - |now.replays|;
    var all := After(tools, disk, steps, k + 1).replays;
    assert all[|now.replays|..][n] == all[m];
    var planPath := PlanPath(step.upCtx, step.selected, step.upStacks[n]);
    var files :|
      ReplayAllowed(tools, step.upCtx, now.manifest.manifest, files, planPath, all[m], step.upOutcomes[n]);
    j := ManifestIsSealed(tools, disk, steps, k);
    i := AllowedIsSealed(
      tools, step.upCtx, now.manifest.manifest, files, planPath, all[m], step.upOutcomes[n],
      After(tools, disk, steps, j), steps[j]);
  }

  lemma {:induction false} AllowedIsSealed(
    tools: Tools, ctx: Context, m: Manifest, files: Files, planPath: Path, r: Replay, o: ReplayOutcome, before: Disk,
    step: Step)
    returns (i: nat)
    requires ReplayAllowed(tools, ctx, m, files, planPath, r, o)
    requires step.Plan? && StepOk(step) && Complete(tools, before, step)
    requires m == SealedManifest(step.ctx, step.ctx.now.value,
      SealPrefix(tools, step.ctx, before.files, step.stacks, step.outcomes, |step.stacks|).entries)
    ensures SameSetting(step.ctx, ctx)
    ensures AppliesSealed(tools, before, step, r, i) && InOrder(step.outcomes[i], o)
  {
    hide SealPrefix, SameSetting, HeaderOk;
    HeaderExactly(step.ctx, ctx, m.stacks);
    EntryStacks(tools, before, step);
    i := FirstEntry(m.stacks, step.stacks, r.stack);
    EntriesRecord(tools, before, step, |step.stacks|, i);
  }

  // ---------------------------------------------------------------- a plan run, exactly

  /** Everything about planning one stack went well, given the files it left. */
  predicate WellPlanned(tools: Tools, ctx: Context, files: Files, stack: string, o: PlanOutcome) {
    && o.select.None? && o.configured && o.ran && o.gate && o.summarized
    && ctx.planFile(stack) in files
    && ctx.previewFile(stack) in files && tools.safe(files[ctx.previewFile(stack)])
  }

  lemma {:induction false} StoppedExactly(tools: Tools, disk: Disk, step: Step, n: nat)
    requires step.Plan? && StepOk(step) && n <= |step.stacks|
    ensures var s := SealPrefix(tools, step.ctx, disk.files, step.stacks, step.outcomes, n);
      && (s.stopped.None? <==> forall i :: 0 <= i < n ==>
        WellPlanned(tools, step.ctx, FilesAt(tools, disk, step, i), step.stacks[i], step.outcomes[i]))
      && s.stopped != Some(Exit(0))
  {
    if n > 0 {
      StoppedExactly(tools, disk, step, n - 1);
    }
  }

  /**
   A plan run leaves a readable manifest exactly when every stack was planned well, the clock could be read and
   the manifest written; it exits 0 exactly when, in addition, the job outputs could be written. So a failed
   run leaves a readable manifest only if that last write failed.
   */
  lemma {:induction false} PlanRunExit(tools: Tools, disk: Disk, step: Step)
    requires step.Plan? && StepOk(step)
    ensures var (disk', r) := PlanRun(tools, step.ctx, disk, step.stacks, step.outcomes, step.ending);
      && disk'.replays == disk.replays
      && disk'.manifest.Written? == Complete(tools, disk, step)
      && (disk'.manifest.Written? <==>
        step.ctx.now.Some? && !step.ending.ManifestFails? && forall i :: 0 <= i < |step.stacks| ==>
          WellPlanned(tools, step.ctx, FilesAt(tools, disk, step, i), step.stacks[i], step.outcomes[i]))
      && (r == Exit(0) <==> disk'.manifest.Written? && step.ending.Published?)
  {
    StoppedExactly(tools, disk, step, |step.stacks|);
    hide SealPrefix, WellPlanned;
  }

  /** What is sealed is what Pulumi wrote for the stack: the preview it printed, and the plan file it left. */
  lemma {:induction false} SealedAreWritten(tools: Tools, disk: Disk, step: Step, i: nat)
    requires step.Plan? && StepOk(step) && Complete(tools, disk, step) && i < |step.stacks|
    requires step.ctx.planFile(step.stacks[i]) != step.ctx.previewFile(step.stacks[i])
    ensures var files, o := FilesAt(tools, disk, step, i), step.outcomes[i];
      var plan, preview := step.ctx.planFile(step.stacks[i]), step.ctx.previewFile(step.stacks[i]);
      && plan in files && preview in files && files[preview] == o.preview
      && (o.plan.Some? ==> files[plan] == o.plan.value)
  {
    StoppedExactly(tools, disk, step, |step.stacks|);
    StoppedExactly(tools, disk, step, i);
    assert WellPlanned(tools, step.ctx, FilesAt(tools, disk, step, i), step.stacks[i], step.outcomes[i]);
    var before := SealPrefix(tools, step.ctx, disk.files, step.stacks, step.outcomes, i);
    assert FilesAt(tools, disk, step, i)
      == SealStack(tools, step.ctx, before, step.stacks[i], step.outcomes[i]).files;
  }

  /** How a plan run ends that does not go well with a stack. */
  function StopOf(tools: Tools, ctx: Context, files: Files, stack: string, o: PlanOutcome): Outcome {
    match o.select
    case Some(code) => if code == 0 then Exit(1) else Exit(code)
    case None =>
      if !o.configured || !o.ran then Raised
      else if ctx.planFile(stack) !in files || ctx.previewFile(stack) !in files then Exit(1)
      else if !tools.safe(files[ctx.previewFile(stack)]) then Exit(1)
      else Raised
  }

  /** The first stack that is not planned well ends the run, without a manifest. */
  lemma {:induction false} PlanRunStops(tools: Tools, disk: Disk, step: Step, i: nat)
    requires step.Plan? && StepOk(step) && i < |step.stacks|
    requires forall k :: 0 <= k < i ==>
      WellPlanned(tools, step.ctx, FilesAt(tools, disk, step, k), step.stacks[k], step.outcomes[k])
    requires !WellPlanned(tools, step.ctx, FilesAt(tools, disk, step, i), step.stacks[i], step.outcomes[i])
    ensures var (disk', r) := PlanRun(tools, step.ctx, disk, step.stacks, step.outcomes, step.ending);
      && r == StopOf(tools, step.ctx, FilesAt(tools, disk, step, i), step.stacks[i], step.outcomes[i])
      && disk' == Disk(FilesAt(tools, disk, step, i), Absent, disk.replays)
  {
    StoppedExactly(tools, disk, step, i);
    StoppedExactly(tools, disk, step, i + 1);
    SealStops(tools, disk, step, i, |step.stacks|);
  }

  lemma {:induction false} SealStops(tools: Tools, disk: Disk, step: Step, i: nat, n: nat)
    requires step.Plan? && StepOk(step) && i < n <= |step.stacks|
    requires SealPrefix(tools, step.ctx, disk.files, step.stacks, step.outcomes, i + 1).stopped.Some?
    ensures SealPrefix(tools, step.ctx, disk.files, step.stacks, step.outcomes, n)
      == SealPrefix(tools, step.ctx, disk.files, step.stacks, step.outcomes, i + 1)
  {
    hide SealStack;
    if i + 1 < n {
      SealStops(tools, disk, step, i, n - 1);
    }
  }

  /** Such a run exists: one stack planned well, and only the write of the job outputs failing. */
  lemma {:induction false} FailedRunLeavesManifest(
    tools: Tools, ctx: Context, disk: Disk, stack: string, plan: Bytes, preview: Bytes)
    requires ctx.now.Some? && tools.safe(preview) && ctx.planFile(stack) != ctx.previewFile(stack)
    ensures var o := PlanOutcome(None, true, preview, Some(plan), true, true, true, None);
      var (disk', r) := PlanRun(tools, ctx, disk, [stack], [o], OutputsFail);
      r == Raised && disk'.manifest.Written?
  {
    var o := PlanOutcome(None, true, preview, Some(plan), true, true, true, None);
    assert SealPrefix(tools, ctx, disk.files, [stack], [o], 1).stopped.None?;
  }

  // ---------------------------------------------------------------- what any manifest admits

  /** The header is of this commit, backend and pair of directories, and not too old. */
  ghost predicate CurrentHeader(ctx: Context, m: Manifest) {
    && m.schemaVersion == 1 && ctx.now.Some? && ctx.maxAge.Some?
    && m.createdAt <= ctx.now.value <= m.createdAt + ctx.maxAge.value
    && IsCommit(ctx, m.commit) && m.commit != "" && (ctx.expectedSha == "" || ctx.expectedSha == m.commit)
    && m.backend == ctx.backend && m.pulumiDir == ctx.pulumiDir && m.policyDir == ctx.policyDir
    && BelowRoot(m.pulumiDir) && BelowRoot(m.policyDir)
  }

  /** Entry number `i` is the first for the stack. */
  predicate FirstFor(entries: seq<Entry>, stack: string, i: int) {
    0 <= i < |entries| && entries[i].stack == stack && forall k :: 0 <= k < i ==> entries[k].stack != stack
  }

  /** The files are the entry's, by path and digest, and the preview is safe. */
  predicate Intact(tools: Tools, files: Files, entry: Entry, planPath: Path) {
    && BelowRoot(entry.planFile) && entry.planFile == planPath
    && entry.planFile in files && tools.sha(files[entry.planFile]) == entry.planSha
    && BelowRoot(entry.previewFile) && entry.previewFile in files
    && tools.sha(files[entry.previewFile]) == entry.previewSha && tools.safe(files[entry.previewFile])
  }

  lemma {:induction false} FirstForExactly(entries: seq<Entry>, stack: string) returns (i: nat)
    ensures StackEntry(entries, stack).None? ==> forall k :: 0 <= k < |entries| ==> entries[k].stack != stack
    ensures StackEntry(entries, stack).Some? ==>
      FirstFor(entries, stack, i) && StackEntry(entries, stack).value == entries[i]
  {
    i := 0;
    if entries != [] && entries[0].stack != stack {
      var rest := FirstForExactly(entries[1..], stack);
      assert forall k :: 0 < k < |entries| ==> entries[1..][k - 1] == entries[k];
      i := rest + 1;
    }
  }

  lemma {:induction false} IntactExactly(tools: Tools, files: Files, entry: Entry, planPath: Path)
    ensures EntryOk(tools, files, entry, planPath) <==> Intact(tools, files, entry, planPath)
  {
  }

  lemma {:induction false} CurrentExactly(ctx: Context, m: Manifest)
    ensures HeaderOk(ctx, m) <==> CurrentHeader(ctx, m)
  {
  }

  /** Whoever wrote it, a manifest admits a stack exactly if its header is current and its first entry intact. */
  lemma {:induction false} AdmittedExactly(
    tools: Tools, ctx: Context, files: Files, m: Manifest, stack: string, planPath: Path)
    ensures ManifestOk(tools, ctx, files, m, stack, planPath) <==>
      && CurrentHeader(ctx, m)
      && exists i :: FirstFor(m.stacks, stack, i) && Intact(tools, files, m.stacks[i], planPath)
  {
    hide HeaderOk, CurrentHeader, EntryOk, Intact, StackEntry;
    CurrentExactly(ctx, m);
    var i := FirstForExactly(m.stacks, stack);
    forall k | FirstFor(m.stacks, stack, k) ensures k == i && StackEntry(m.stacks, stack).Some? {
      assert m.stacks[k].stack == stack;
    }
    if StackEntry(m.stacks, stack).Some? {
      IntactExactly(tools, files, m.stacks[i], planPath);
    }
  }

  // ---------------------------------------------------------------- an untouched plan is accepted

  /** All artifact paths of a list of stacks differ. */
  predicate DistinctArtifacts(ctx: Context, stacks: seq<string>) {
    && (forall i, j :: 0 <= i < |stacks| && 0 <= j < |stacks| ==> ctx.planFile(stacks[i]) != ctx.previewFile(stacks[j]))
    && (forall i, j :: 0 <= i < j < |stacks| ==>
      ctx.planFile(stacks[i]) != ctx.planFile(stacks[j]) && ctx.previewFile(stacks[i]) != ctx.previewFile(stacks[j]))
  }

  lemma {:induction false} OtherKept(
    tools: Tools, ctx: Context, before: Sealing, stack: string, o: PlanOutcome, p: Path)
    requires p != ctx.planFile(stack) && p != ctx.previewFile(stack)
    ensures var files := SealStack(tools, ctx, before, stack, o).files;
      (p in files) == (p in before.files) && (p in files ==> files[p] == before.files[p])
  {
  }

  /** Planning stacks touches no path but their own artifacts. */
  lemma {:induction false} OthersKept(tools: Tools, disk: Disk, step: Step, i: nat, n: nat, p: Path)
    requires step.Plan? && StepOk(step) && i <= n <= |step.stacks|
    requires forall k :: i <= k < n ==>
      p != step.ctx.planFile(step.stacks[k]) && p != step.ctx.previewFile(step.stacks[k])
    ensures var a := SealPrefix(tools, step.ctx, disk.files, step.stacks, step.outcomes, i).files;
      var b := SealPrefix(tools, step.ctx, disk.files, step.stacks, step.outcomes, n).files;
      (p in a) == (p in b) && (p in a ==> a[p] == b[p])
  {
    hide SealStack;
    if i < n {
      OthersKept(tools, disk, step, i, n - 1, p);
      var before := SealPrefix(tools, step.ctx, disk.files, step.stacks, step.outcomes, n - 1);
      OtherKept(tools, step.ctx, before, step.stacks[n - 1], step.outcomes[n - 1], p);
    }
  }

  /** The files hold, for stack number `i`, what was sealed for it, and the preview is safe. */
  predicate StillSealed(tools: Tools, disk: Disk, step: Step, files: Files, i: nat)
    requires step.Plan? && StepOk(step) && i < |step.stacks|
  {
    var sealed := FilesAt(tools, disk, step, i);
    var plan, preview := step.ctx.planFile(step.stacks[i]), step.ctx.previewFile(step.stacks[i]);
    && plan in sealed && plan in files && Genuine(tools, sealed[plan], files[plan])
    && preview in sealed && preview in files && Genuine(tools, sealed[preview], files[preview])
    && tools.safe(files[preview])
  }

  /**
   After a complete plan run, whatever happens to the files, the manifest admits a stack at its own plan
   path exactly when the setting is the same and the sealed bytes are on disk.
   */
  lemma {:induction false} ManifestAdmitsExactly(
    tools: Tools, disk: Disk, step: Step, files: Files, ctx: Context, i: nat)
    requires step.Plan? && StepOk(step) && Complete(tools, disk, step)
    requires i < |step.stacks| && FirstAt(step.stacks, step.stacks[i], i)
    requires BelowRoot(step.ctx.planFile(step.stacks[i])) && BelowRoot(step.ctx.previewFile(step.stacks[i]))
    ensures var m := Next(tools, disk, step).manifest;
      m.Written? && (ManifestOk(tools, ctx, files, m.manifest, step.stacks[i], step.ctx.planFile(step.stacks[i])) <==>
        SameSetting(step.ctx, ctx) && StillSealed(tools, disk, step, files, i))
  {
    hide SealPrefix, HeaderOk, SameSetting;
    EntryStacks(tools, disk, step);
    var entries := SealPrefix(tools, step.ctx, disk.files, step.stacks, step.outcomes, |step.stacks|).entries;
    HeaderExactly(step.ctx, ctx, entries);
    FirstEntryFound(entries, step.stacks, step.stacks[i], i);
    EntriesRecord(tools, disk, step, |step.stacks|, i);
  }

  /** The entry of stack number `i` of an untouched plan, and the files it names. */
  lemma {:induction false} UntouchedEntry(tools: Tools, disk: Disk, step: Step, i: nat)
    requires step.Plan? && StepOk(step) && Complete(tools, disk, step)
    requires DistinctArtifacts(step.ctx, step.stacks) && i < |step.stacks|
    ensures var after, sealed := Next(tools, disk, step), FilesAt(tools, disk, step, i);
      var plan, preview := step.ctx.planFile(step.stacks[i]), step.ctx.previewFile(step.stacks[i]);
      && after.manifest.Written?
      && var entry := StackEntry(after.manifest.manifest.stacks, step.stacks[i]);
      && entry.Some? && entry.value.planFile == plan && entry.value.previewFile == preview
      && entry.value.identity == step.outcomes[i].identity
      && plan in sealed && plan in after.files && sealed[plan] == after.files[plan]
      && preview in sealed && preview in after.files && sealed[preview] == after.files[preview]
      && tools.safe(after.files[preview])
  {
    hide SealPrefix;
    var entries := SealPrefix(tools, step.ctx, disk.files, step.stacks, step.outcomes, |step.stacks|).entries;
    assert FirstAt(step.stacks, step.stacks[i], i);
    EntryStacks(tools, disk, step);
    FirstEntryFound(entries, step.stacks, step.stacks[i], i);
    EntriesRecord(tools, disk, step, |step.stacks|, i);
    OthersKept(tools, disk, step, i + 1, |step.stacks|, step.ctx.planFile(step.stacks[i]));
    OthersKept(tools, disk, step, i + 1, |step.stacks|, step.ctx.previewFile(step.stacks[i]));
  }

  /** A complete plan run over stacks with distinct artifacts is admitted as it stands, for every stack. */
  lemma {:induction false} UntouchedPlanAdmitted(tools: Tools, disk: Disk, step: Step, ctx: Context, i: nat)
    requires step.Plan? && StepOk(step) && Complete(tools, disk, step)
    requires DistinctArtifacts(step.ctx, step.stacks) && i < |step.stacks|
    requires BelowRoot(step.ctx.planFile(step.stacks[i])) && BelowRoot(step.ctx.previewFile(step.stacks[i]))
    ensures var after := Next(tools, disk, step);
      after.manifest.Written?
      && (SameSetting(step.ctx, ctx) <==> ManifestOk(
        tools, ctx, after.files, after.manifest.manifest, step.stacks[i], step.ctx.planFile(step.stacks[i])))
  {
    hide SealPrefix, HeaderOk, ManifestOk, SameSetting;
    var after := Next(tools, disk, step);
    assert FirstAt(step.stacks, step.stacks[i], i);
    ManifestAdmitsExactly(tools, disk, step, after.files, ctx, i);
    UntouchedEntry(tools, disk, step, i);
  }

  /** Nothing stands in the way of replaying one stack against manifest `m`, and Pulumi succeeds. */
  predicate Stands(tools: Tools, ctx: Context, files: Files, m: Manifest, stack: string, o: ReplayOutcome) {
    && ctx.planFile(stack) in files && ManifestOk(tools, ctx, files, m, stack, ctx.planFile(stack))
    && o.select.None? && o.configured && o.gate && o.code == 0
    && (o.identity.Some? ==> StackEntry(m.stacks, stack).value.identity == o.identity)
  }

  function ReplayOf(tools: Tools, ctx: Context, files: Files, m: Manifest, stack: string, o: ReplayOutcome): Replay
    requires Stands(tools, ctx, files, m, stack, o)
  {
    Replay(stack, files[ctx.planFile(stack)], files[StackEntry(m.stacks, stack).value.previewFile], true)
  }

  /** Nobody else did anything while the run was under way. */
  predicate Undisturbed(outcomes: seq<ReplayOutcome>) {
    forall i :: 0 <= i < |outcomes| ==> outcomes[i].meanwhile.None?
  }

  lemma {:induction false} UndisturbedStack(
    tools: Tools, ctx: Context, before: Replaying, m: Manifest, stack: string, o: ReplayOutcome)
    requires before.status.None? && o.meanwhile.None? && Loaded(before) == Some(m)
    ensures var after := ReplayStack(tools, ctx, None, before, stack, o);
      && after.files == before.files && after.manifest == before.manifest
      && (after.loaded.Some? ==> after.loaded.value == m)
      && (after.status.None? <==> Stands(tools, ctx, before.files, m, stack, o))
      && (after.status.None? ==>
        after.replays == before.replays + [ReplayOf(tools, ctx, before.files, m, stack, o)])
  {
    hide HeaderOk, EntryOk;
  }

  /** An undisturbed run goes on exactly while every stack so far stands, and replays each of them. */
  lemma {:induction false} UndisturbedPrefix(
    tools: Tools, ctx: Context, disk: Disk, stacks: seq<string>, outcomes: seq<ReplayOutcome>, n: nat)
    requires n <= |stacks| == |outcomes| && Undisturbed(outcomes) && disk.manifest.Written?
    ensures var m, p := disk.manifest.manifest, ReplayPrefix(tools, ctx, disk, None, stacks, outcomes, n);
      && p.files == disk.files && p.manifest == disk.manifest && (p.loaded.Some? ==> p.loaded.value == m)
      && (p.status.None? <==>
        forall i :: 0 <= i < n ==> Stands(tools, ctx, disk.files, m, stacks[i], outcomes[i]))
      && (p.status.None? ==>
        && |p.replays| == |disk.replays| + n && disk.replays <= p.replays
        && var made := p.replays[|disk.replays|..];
        && forall i :: 0 <= i < n ==> made[i] == ReplayOf(tools, ctx, disk.files, m, stacks[i], outcomes[i]))
  {
    hide Stands, ReplayOf, ReplayStack;
    if n > 0 {
      UndisturbedPrefix(tools, ctx, disk, stacks, outcomes, n - 1);
      var before := ReplayPrefix(tools, ctx, disk, None, stacks, outcomes, n - 1);
      if before.status.None? {
        UndisturbedStack(tools, ctx, before, disk.manifest.manifest, stacks[n - 1], outcomes[n - 1]);
      }
    }
  }

  /** How a replaying run ends at a stack that does not stand. */
  function RefusalOf(tools: Tools, ctx: Context, files: Files, m: Manifest, stack: string, o: ReplayOutcome): Outcome {
    if ctx.planFile(stack) !in files || !ManifestOk(tools, ctx, files, m, stack, ctx.planFile(stack)) then Exit(1)
    else match o.select
      case Some(code) => if code == 0 then Exit(1) else Exit(code)
      case None =>
        if !o.configured || !o.gate then Raised
        else if o.identity.Some? && StackEntry(m.stacks, stack).value.identity != o.identity then Raised
        else Exit(o.code)
  }

  /** An undisturbed run replays the stacks before the first that does not stand, and ends there. */
  lemma {:induction false} ReplayStops(
    tools: Tools, ctx: Context, disk: Disk, stacks: seq<string>, outcomes: seq<ReplayOutcome>, i: nat)
    requires i < |stacks| == |outcomes| && Undisturbed(outcomes) && disk.manifest.Written?
    requires forall k :: 0 <= k < i ==>
      Stands(tools, ctx, disk.files, disk.manifest.manifest, stacks[k], outcomes[k])
    requires !Stands(tools, ctx, disk.files, disk.manifest.manifest, stacks[i], outcomes[i])
    ensures UpPlanRun(tools, ctx, disk, None, stacks, outcomes).1 ==
      RefusalOf(tools, ctx, disk.files, disk.manifest.manifest, stacks[i], outcomes[i])
  {
    UndisturbedPrefix(tools, ctx, disk, stacks, outcomes, i);
    UndisturbedPrefix(tools, ctx, disk, stacks, outcomes, i + 1);
    ReplayEnds(tools, ctx, disk, stacks, outcomes, i, |stacks|);
    hide ManifestOk, Stands;
    RefusedStack(
      tools, ctx, ReplayPrefix(tools, ctx, disk, None, stacks, outcomes, i), disk.manifest.manifest, stacks[i],
      outcomes[i]);
  }

  lemma {:induction false} RefusedStack(
    tools: Tools, ctx: Context, before: Replaying, m: Manifest, stack: string, o: ReplayOutcome)
    requires before.status.None? && o.meanwhile.None? && Loaded(before) == Some(m)
    requires !Stands(tools, ctx, before.files, m, stack, o)
    ensures ReplayStack(tools, ctx, None, before, stack, o).status
      == Some(RefusalOf(tools, ctx, before.files, m, stack, o))
  {
    hide HeaderOk, EntryOk;
  }

  lemma {:induction false} ReplayEnds(
    tools: Tools, ctx: Context, disk: Disk, stacks: seq<string>, outcomes: seq<ReplayOutcome>, i: nat, n: nat)
    requires i < n <= |stacks| == |outcomes|
    requires ReplayPrefix(tools, ctx, disk, None, stacks, outcomes, i + 1).status.Some?
    ensures ReplayPrefix(tools, ctx, disk, None, stacks, outcomes, n)
      == ReplayPrefix(tools, ctx, disk, None, stacks, outcomes, i + 1)
  {
    hide ReplayStack;
    if i + 1 < n {
      ReplayEnds(tools, ctx, disk, stacks, outcomes, i, n - 1);
    }
  }

  /** Replaying stack number `i` agrees with its sealing, and Pulumi succeeds. */
  predicate Repeats(step: Step, up: Context, o: ReplayOutcome, i: nat)
    requires step.Plan? && StepOk(step) && i < |step.stacks|
  {
    up.planFile(step.stacks[i]) == step.ctx.planFile(step.stacks[i]) && InOrder(step.outcomes[i], o) && o.code == 0
  }

  /** The artifact paths of all stacks lie below the repository root. */
  predicate ArtifactPathsOk(ctx: Context, stacks: seq<string>) {
    forall i :: 0 <= i < |stacks| ==> BelowRoot(ctx.planFile(stacks[i])) && BelowRoot(ctx.previewFile(stacks[i]))
  }

  /** `r` is the successful replay of stack number `i`, with the very bytes sealed for it. */
  predicate ReplaysSealed(tools: Tools, disk: Disk, step: Step, i: nat, r: Replay)
    requires step.Plan? && StepOk(step) && i < |step.stacks|
  {
    var sealed, stack := FilesAt(tools, disk, step, i), step.stacks[i];
    && r.stack == stack && r.succeeded
    && step.ctx.planFile(stack) in sealed && r.plan == sealed[step.ctx.planFile(stack)]
    && step.ctx.previewFile(stack) in sealed && r.preview == sealed[step.ctx.previewFile(stack)]
  }

  lemma {:induction false} StandsExactly(
    tools: Tools, disk: Disk, step: Step, up: Context, o: ReplayOutcome, i: nat)
    requires step.Plan? && StepOk(step) && Complete(tools, disk, step)
    requires DistinctArtifacts(step.ctx, step.stacks) && ArtifactPathsOk(step.ctx, step.stacks) && i < |step.stacks|
    ensures var after := Next(tools, disk, step);
      && after.manifest.Written?
      && var m := after.manifest.manifest;
      && (Stands(tools, up, after.files, m, step.stacks[i], o) <==>
        SameSetting(step.ctx, up) && Repeats(step, up, o, i))
      && (Stands(tools, up, after.files, m, step.stacks[i], o) ==>
        ReplaysSealed(tools, disk, step, i, ReplayOf(tools, up, after.files, m, step.stacks[i], o)))
  {
    hide SealPrefix, HeaderOk, SameSetting;
    UntouchedPlanAdmitted(tools, disk, step, up, i);
    UntouchedEntry(tools, disk, step, i);
  }

  /**
   A complete plan over stacks with distinct artifacts, left untouched, is replayed as a whole, byte for byte,
   exactly when the replaying run is in the manifest's setting and time, agrees with each sealing, and Pulumi
   succeeds.
   */
  lemma {:induction false} UntouchedPlanReplays(
    tools: Tools, disk: Disk, step: Step, up: Context, outcomes: seq<ReplayOutcome>)
    requires step.Plan? && StepOk(step) && Complete(tools, disk, step)
    requires DistinctArtifacts(step.ctx, step.stacks) && ArtifactPathsOk(step.ctx, step.stacks)
    requires |outcomes| == |step.stacks| && Undisturbed(outcomes)
    ensures var sealed := Next(tools, disk, step);
      var (after, r) := UpPlanRun(tools, up, sealed, None, step.stacks, outcomes);
      && sealed.manifest.Written?
      && (r == Exit(0) <==> forall i :: 0 <= i < |outcomes| ==>
        SameSetting(step.ctx, up) && Repeats(step, up, outcomes[i], i))
      && (r == Exit(0) ==>
        && |after.replays| == |sealed.replays| + |outcomes| && sealed.replays <= after.replays
        && var made := after.replays[|sealed.replays|..];
        && forall i :: 0 <= i < |outcomes| ==> ReplaysSealed(tools, disk, step, i, made[i]))
  {
    hide SealPrefix, SameSetting, Stands, Repeats, ReplayPrefix, ReplayOf, ReplaysSealed, MadeInOrder, HoldsInitial;
    hide Complete, DistinctArtifacts, ArtifactPathsOk;
    var sealed := Next(tools, disk, step);
    forall i | 0 <= i < |outcomes| {
      StandsExactly(tools, disk, step, up, outcomes[i], i);
    }
    PlanRunExit(tools, disk, step);
    ReplayedPrefix(tools, up, sealed, None, step.stacks, outcomes, |outcomes|);
    UndisturbedPrefix(tools, up, sealed, step.stacks, outcomes, |outcomes|);
  }

  /** The condition is needed: a stack listed twice is sealed twice, and the first entry's bytes are gone. */
  lemma {:induction false} RepeatedStackRefused(
    tools: Tools, disk: Disk, ctx: Context, up: Context, stack: string, first: PlanOutcome, second: PlanOutcome)
    requires ctx.planFile(stack) != ctx.previewFile(stack)
    requires BelowRoot(ctx.planFile(stack)) && BelowRoot(ctx.previewFile(stack))
    requires first.plan.Some? && second.plan.Some? && tools.sha(first.plan.value) != tools.sha(second.plan.value)
    requires Complete(tools, disk, Plan(ctx, [stack, stack], [first, second], Published))
    ensures var after := Next(tools, disk, Plan(ctx, [stack, stack], [first, second], Published));
      after.manifest.Written?
      && !ManifestOk(tools, up, after.files, after.manifest.manifest, stack, ctx.planFile(stack))
  {
    var step := Plan(ctx, [stack, stack], [first, second], Published);
    var after := Next(tools, disk, step);
    ManifestAdmitsExactly(tools, disk, step, after.files, up, 0);
    assert SealPrefix(tools, ctx, disk.files, step.stacks, step.outcomes, 1).files[ctx.planFile(stack)]
      == first.plan.value;
    assert after.files[ctx.planFile(stack)] == second.plan.value;
  }
}
