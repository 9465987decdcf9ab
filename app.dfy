/** The editor's top level: it loads the engine, holds the chosen files
    and the job status, and runs the trim and merge jobs as a fixed series
    of engine calls that stops at the first failure. */
module App {
  import opened Wrappers
  import opened Media
  import opened Commands
  import opened Engine

  datatype Status = Idle | Processing | Completed | Error

  datatype Mode = TrimMode | MergeMode

  /** What the component does that the outside can observe: the state it
      shows, each engine call with its outcome, each download it starts. */
  datatype Effect =
    | StatusSet(status: Status)
    | ProgressSet(progress: real)
    | ErrorSet(message: string)
    | Invoked(call: Call, ok: bool)
    | Downloaded(name: string)

  const TrimFailure: string := "Failed to trim video."
  const MergeFailure: string := "Failed to merge videos. Ensure they have same format/codecs."
  const LoadFailurePrefix: string := "Failed to load FFmpeg: "
  const MergedDownload: string := "merged-video.mp4"

  /** The name the trimmed clip is downloaded under. */
  function TrimDownload(file: MediaFile): (name: string)
    ensures |name| > |file.name| && name[|name| - |file.name|..] == file.name
    ensures name != MergedDownload
  {
    var name := "trimmed-" + file.name;
    assert name[0] == 't';
    name
  }

  // ---------------------------------------------------------------------
  // The jobs as plans of engine calls

  /** Stage the clip, cut it, read the result back. */
  function TrimPlan(file: MediaFile, startText: string, lengthText: string): (plan: seq<Call>)
    ensures |plan| == 3
    ensures plan[0].WriteFile? && plan[0].data == FileData(file)
    ensures plan[1].Exec? && plan[2].ReadFile?
  {
    [WriteFile(TrimInput, FileData(file)), Exec(TrimArgs(startText, lengthText)), ReadFile(TrimOutput)]
  }

  /** The trim plan stages the clip under the name the command reads as its
      input, and reads back the file the command names as its output. */
  lemma TrimPlanConnects(file: MediaFile, startText: string, lengthText: string)
    ensures var plan := TrimPlan(file, startText, lengthText);
            var inv := ParseInvocation(plan[1].args);
            && inv.Some?
            && plan[0] == WriteFile(inv.value.input, FileData(file))
            && plan[2] == ReadFile(inv.value.output)
  {
    TrimArgsMeaning(startText, lengthText);
  }

  /** The merge plan writes the manifest under the name the command reads as
      its input, and reads back the file the command names as its output. */
  lemma MergePlanConnects(files: seq<MediaFile>)
    ensures var plan := MergePlan(files);
            var inv := ParseInvocation(plan[|files| + 1].args);
            && inv.Some?
            && plan[|files|] == WriteFile(inv.value.input, TextData(Manifest(|files|)))
            && plan[|files| + 2] == ReadFile(inv.value.output)
  {
    MergeArgsMeaning();
  }

  /** Stage every clip under its generated name, in order. */
  function StagingCalls(files: seq<MediaFile>): (calls: seq<Call>)
    ensures |calls| == |files|
    ensures forall i :: 0 <= i < |files| ==> calls[i] == WriteFile(InputName(i), FileData(files[i]))
  {
    seq(|files|, i requires 0 <= i < |files| => WriteFile(InputName(i), FileData(files[i])))
  }

  /** Stage the clips, write the manifest, concatenate, read the result back. */
  function MergePlan(files: seq<MediaFile>): (plan: seq<Call>)
    ensures |plan| == |files| + 3
    ensures forall i :: 0 <= i < |files| ==> plan[i] == WriteFile(InputName(i), FileData(files[i]))
    ensures plan[|files|] == WriteFile(ListFile, TextData(Manifest(|files|)))
    ensures plan[|files| + 1] == Exec(MergeArgs) && plan[|files| + 2] == ReadFile(MergedOutput)
  {
    StagingCalls(files) + [WriteFile(ListFile, TextData(Manifest(|files|))), Exec(MergeArgs), ReadFile(MergedOutput)]
  }

  /** The outcomes of a run of a plan of `n` calls that stops at the first
      failure: every call but the last attempted one succeeded, and the run
      ended early only because its last call failed. */
  predicate StopsAtFirstFailure(outcomes: seq<bool>, n: nat) {
    && 1 <= |outcomes| <= n
    && (forall k :: 0 <= k < |outcomes| - 1 ==> outcomes[k])
    && (|outcomes| < n ==> !outcomes[|outcomes| - 1])
  }

  predicate AllTrue(outcomes: seq<bool>) {
    forall k :: 0 <= k < |outcomes| ==> outcomes[k]
  }

  predicate Succeeded(outcomes: seq<bool>, n: nat) {
    |outcomes| == n && AllTrue(outcomes)
  }

  /** Every call succeeded except the last, which failed. */
  predicate FailedLast(outcomes: seq<bool>) {
    && |outcomes| >= 1
    && (forall k :: 0 <= k < |outcomes| - 1 ==> outcomes[k])
    && !outcomes[|outcomes| - 1]
  }

  lemma Extend(outcomes: seq<bool>, ok: bool)
    requires AllTrue(outcomes)
    ensures ok ==> AllTrue(outcomes + [ok])
    ensures !ok ==> FailedLast(outcomes + [ok])
  {
  }

  lemma Concluded(outcomes: seq<bool>, n: nat)
    requires 1 <= |outcomes| <= n
    requires FailedLast(outcomes) || Succeeded(outcomes, n)
    ensures StopsAtFirstFailure(outcomes, n)
  {
  }

  /** The calls attempted, each with its outcome. */
  function Attempts(plan: seq<Call>, outcomes: seq<bool>): seq<Effect>
    requires |outcomes| <= |plan|
  {
    if outcomes == [] then []
    else Attempts(plan, outcomes[..|outcomes| - 1]) + [Invoked(plan[|outcomes| - 1], outcomes[|outcomes| - 1])]
  }

  const Prelude: seq<Effect> := [StatusSet(Processing), ProgressSet(0.0)]

  /** How a job ends: the download and `completed`, or the message and `error`. */
  function Conclusion(success: bool, download: string, failure: string): seq<Effect> {
    if success then [Downloaded(download), StatusSet(Completed)]
    else [ErrorSet(failure), StatusSet(Error)]
  }

  /** Everything one job does, given the engine's outcomes. */
  function JobEffects(plan: seq<Call>, outcomes: seq<bool>, download: string, failure: string): seq<Effect>
    requires |outcomes| <= |plan|
  {
    Prelude + Attempts(plan, outcomes) + Conclusion(Succeeded(outcomes, |plan|), download, failure)
  }

  // ---------------------------------------------------------------------
  // Views of an effect log

  function Select<U>(effects: seq<Effect>, pick: Effect -> Option<U>): seq<U> {
    if effects == [] then []
    else (match pick(effects[0]) case Some(u) => [u] case None => []) + Select(effects[1..], pick)
  }

  function CallOf(e: Effect): Option<Call> {
    if e.Invoked? then Some(e.call) else None
  }

  function DownloadOf(e: Effect): Option<string> {
    if e.Downloaded? then Some(e.name) else None
  }

  function StatusOf(e: Effect): Option<Status> {
    if e.StatusSet? then Some(e.status) else None
  }

  function ErrorOf(e: Effect): Option<string> {
    if e.ErrorSet? then Some(e.message) else None
  }

  /** The engine calls in a log, in order. */
  function Calls(effects: seq<Effect>): seq<Call> {
    Select(effects, CallOf)
  }

  function Downloads(effects: seq<Effect>): seq<string> {
    Select(effects, DownloadOf)
  }

  function Statuses(effects: seq<Effect>): seq<Status> {
    Select(effects, StatusOf)
  }

  function Errors(effects: seq<Effect>): seq<string> {
    Select(effects, ErrorOf)
  }

  lemma {:induction false} SelectAppend<U>(a: seq<Effect>, b: seq<Effect>, pick: Effect -> Option<U>)
    ensures Select(a + b, pick) == Select(a, pick) + Select(b, pick)
  {
    if a == [] {
      assert a + b == b;
    } else {
      assert (a + b)[0] == a[0];
      assert (a + b)[1..] == a[1..] + b;
      SelectAppend(a[1..], b, pick);
    }
  }

  lemma SelectTwo<U>(x: Effect, y: Effect, pick: Effect -> Option<U>)
    ensures Select([x, y], pick) == Select([x], pick) + Select([y], pick)
  {
    assert [x, y] == [x] + [y];
    SelectAppend([x], [y], pick);
  }

  lemma AttemptsSnoc(plan: seq<Call>, outcomes: seq<bool>, ok: bool)
    requires |outcomes| < |plan|
    ensures Attempts(plan, outcomes + [ok]) == Attempts(plan, outcomes) + [Invoked(plan[|outcomes|], ok)]
  {
    assert (outcomes + [ok])[..|outcomes|] == outcomes;
  }

  /** The attempted calls are the plan's first calls; attempts start no
      download and set no status and no message. */
  lemma {:induction false} AttemptsContain(plan: seq<Call>, outcomes: seq<bool>)
    requires |outcomes| <= |plan|
    ensures Calls(Attempts(plan, outcomes)) == plan[..|outcomes|]
    ensures Downloads(Attempts(plan, outcomes)) == []
    ensures Statuses(Attempts(plan, outcomes)) == []
    ensures Errors(Attempts(plan, outcomes)) == []
  {
    if outcomes != [] {
      var n := |outcomes| - 1;
      var last := [Invoked(plan[n], outcomes[n])];
      AttemptsContain(plan, outcomes[..n]);
      SelectAppend(Attempts(plan, outcomes[..n]), last, CallOf);
      SelectAppend(Attempts(plan, outcomes[..n]), last, DownloadOf);
      SelectAppend(Attempts(plan, outcomes[..n]), last, StatusOf);
      SelectAppend(Attempts(plan, outcomes[..n]), last, ErrorOf);
      assert plan[..n + 1] == plan[..n] + [plan[n]];
    }
  }

  lemma JobDecomposes<U>(plan: seq<Call>, outcomes: seq<bool>, download: string, failure: string, pick: Effect -> Option<U>)
    requires |outcomes| <= |plan|
    ensures Select(JobEffects(plan, outcomes, download, failure), pick)
            == Select(Prelude, pick) + Select(Attempts(plan, outcomes), pick)
               + Select(Conclusion(Succeeded(outcomes, |plan|), download, failure), pick)
  {
    var c := Conclusion(Succeeded(outcomes, |plan|), download, failure);
    SelectAppend(Prelude + Attempts(plan, outcomes), c, pick);
    SelectAppend(Prelude, Attempts(plan, outcomes), pick);
  }

  /** The pieces a handler logs, put together, are the job's effects. */
  lemma Assemble(e0: seq<Effect>, plan: seq<Call>, outcomes: seq<bool>, download: string, failure: string, ok: bool)
    requires |outcomes| <= |plan| && ok == Succeeded(outcomes, |plan|)
    ensures e0 + Prelude + Attempts(plan, outcomes) + Conclusion(ok, download, failure)
            == e0 + JobEffects(plan, outcomes, download, failure)
  {
  }

  lemma PreludeViews()
    ensures Calls(Prelude) == [] && Downloads(Prelude) == [] && Errors(Prelude) == []
    ensures Statuses(Prelude) == [Processing]
  {
    var p0, p1 := StatusSet(Processing), ProgressSet(0.0);
    SelectTwo(p0, p1, CallOf);
    SelectTwo(p0, p1, DownloadOf);
    SelectTwo(p0, p1, StatusOf);
    SelectTwo(p0, p1, ErrorOf);
  }

  lemma ConclusionViews(success: bool, download: string, failure: string)
    ensures Calls(Conclusion(success, download, failure)) == []
    ensures Downloads(Conclusion(success, download, failure)) == if success then [download] else []
    ensures Statuses(Conclusion(success, download, failure)) == [if success then Completed else Error]
    ensures Errors(Conclusion(success, download, failure)) == if success then [] else [failure]
  {
    var c := Conclusion(success, download, failure);
    SelectTwo(c[0], c[1], CallOf);
    SelectTwo(c[0], c[1], DownloadOf);
    SelectTwo(c[0], c[1], StatusOf);
    SelectTwo(c[0], c[1], ErrorOf);
  }

  /** A job calls the engine with exactly the plan's calls up to the one
      that failed (or all of them), in plan order. */
  lemma JobCalls(plan: seq<Call>, outcomes: seq<bool>, download: string, failure: string)
    requires |outcomes| <= |plan|
    ensures Calls(JobEffects(plan, outcomes, download, failure)) == plan[..|outcomes|]
  {
    var success := Succeeded(outcomes, |plan|);
    JobDecomposes(plan, outcomes, download, failure, CallOf);
    AttemptsContain(plan, outcomes);
    PreludeViews();
    ConclusionViews(success, download, failure);
    assert Calls(JobEffects(plan, outcomes, download, failure)) == [] + plan[..|outcomes|] + [];
  }

  /** A job starts exactly one download, the named one, when and only when
      every call succeeded, and none otherwise. */
  lemma JobDownloads(plan: seq<Call>, outcomes: seq<bool>, download: string, failure: string)
    requires |outcomes| <= |plan|
    ensures Downloads(JobEffects(plan, outcomes, download, failure))
            == if Succeeded(outcomes, |plan|) then [download] else []
  {
    var success := Succeeded(outcomes, |plan|);
    JobDecomposes(plan, outcomes, download, failure, DownloadOf);
    AttemptsContain(plan, outcomes);
    PreludeViews();
    ConclusionViews(success, download, failure);
    assert Downloads(JobEffects(plan, outcomes, download, failure))
           == [] + [] + Downloads(Conclusion(success, download, failure));
  }

  /** The status goes to `processing` and then to `completed` when every call
      succeeded, to `error` otherwise. */
  lemma JobStatuses(plan: seq<Call>, outcomes: seq<bool>, download: string, failure: string)
    requires |outcomes| <= |plan|
    ensures Statuses(JobEffects(plan, outcomes, download, failure))
            == [Processing, if Succeeded(outcomes, |plan|) then Completed else Error]
  {
    var success := Succeeded(outcomes, |plan|);
    JobDecomposes(plan, outcomes, download, failure, StatusOf);
    AttemptsContain(plan, outcomes);
    PreludeViews();
    ConclusionViews(success, download, failure);
    var last := if success then Completed else Error;
    assert Statuses(JobEffects(plan, outcomes, download, failure)) == [Processing] + [] + [last];
  }

  /** The error message is set once, to the job's message, exactly when the
      job failed. */
  lemma JobErrors(plan: seq<Call>, outcomes: seq<bool>, download: string, failure: string)
    requires |outcomes| <= |plan|
    ensures Errors(JobEffects(plan, outcomes, download, failure))
            == if Succeeded(outcomes, |plan|) then [] else [failure]
  {
    var success := Succeeded(outcomes, |plan|);
    JobDecomposes(plan, outcomes, download, failure, ErrorOf);
    AttemptsContain(plan, outcomes);
    PreludeViews();
    ConclusionViews(success, download, failure);
    assert Errors(JobEffects(plan, outcomes, download, failure))
           == [] + [] + Errors(Conclusion(success, download, failure));
  }

  /** Attempt k records plan call k with its outcome. */
  lemma {:induction false} AttemptsAt(plan: seq<Call>, outcomes: seq<bool>)
    requires |outcomes| <= |plan|
    ensures |Attempts(plan, outcomes)| == |outcomes|
    ensures forall k :: 0 <= k < |outcomes| ==> Attempts(plan, outcomes)[k] == Invoked(plan[k], outcomes[k])
  {
    if outcomes != [] {
      AttemptsAt(plan, outcomes[..|outcomes| - 1]);
    }
  }

  /** The status is `processing` and the progress 0 before the first engine
      call; the calls follow, and the job's end comes after the last one. */
  lemma ProcessingBeforeCalls(plan: seq<Call>, outcomes: seq<bool>, download: string, failure: string)
    requires |outcomes| <= |plan|
    ensures var e := JobEffects(plan, outcomes, download, failure);
            && |e| == |outcomes| + 4
            && e[0] == StatusSet(Processing) && e[1] == ProgressSet(0.0)
            && (forall k :: 0 <= k < |outcomes| ==> e[k + 2] == Invoked(plan[k], outcomes[k]))
            && !e[|e| - 2].Invoked? && !e[|e| - 1].Invoked?
  {
    AttemptsAt(plan, outcomes);
  }

  /** The manifest is written only once every clip has been staged
      successfully, and it lists each staged name on its own line, in the
      order of the clips. */
  lemma {:induction false} ManifestAfterStaging(files: seq<MediaFile>, outcomes: seq<bool>, download: string, failure: string)
    requires StopsAtFirstFailure(outcomes, |MergePlan(files)|)
    ensures var calls := Calls(JobEffects(MergePlan(files), outcomes, download, failure));
            forall k :: 0 <= k < |calls| && calls[k].WriteFile? && calls[k].name == ListFile ==>
              && k == |files| < |outcomes|
              && (forall i :: 0 <= i < |files| ==> outcomes[i] && calls[i] == WriteFile(InputName(i), FileData(files[i])))
              && calls[k].data == TextData(Manifest(|files|))
              && SplitLines(calls[k].data.text) == ManifestLines(|files|)
  {
    var plan := MergePlan(files);
    JobCalls(plan, outcomes, download, failure);
    ManifestHasOneLinePerInput(|files|);
  }

  // ---------------------------------------------------------------------
  // The component

  class App {
    const ffmpeg: FFmpeg
    /** How the page renders a number as text (`Number.prototype.toString`). */
    const show: real -> string
    var loaded: bool
    var mode: Mode
    var files: seq<MediaFile>
    var status: Status
    var progress: real
    var errorMessage: string
    ghost var effects: seq<Effect>

    /** The page only believes the engine is loaded when it is. */
    ghost predicate Valid()
      reads this, ffmpeg
    {
      loaded ==> ffmpeg.loaded
    }

    constructor(show: real -> string)
      ensures fresh(ffmpeg) && !ffmpeg.loaded && this.show == show
      ensures !loaded && mode == TrimMode && files == [] && status == Idle
      ensures progress == 0.0 && errorMessage == "" && effects == []
      ensures Valid()
    {
      ffmpeg := new FFmpeg();
      this.show := show;
      loaded, mode, files := false, TrimMode, [];
      status, progress, errorMessage := Idle, 0.0, "";
      effects := [];
    }

    /** `load`: on success the page knows the engine is loaded; on failure
        it shows the engine's message after a fixed prefix. */
    method Load() returns (result: LoadResult)
      requires Valid()
      modifies this, ffmpeg
      ensures Valid()
      ensures ffmpeg.loaded == (old(ffmpeg.loaded) || result == Loaded)
      ensures mode == old(mode) && files == old(files) && progress == old(progress)
      ensures result == Loaded ==>
                loaded && status == old(status) && errorMessage == old(errorMessage) && effects == old(effects)
      ensures result.LoadFailed? ==>
                && loaded == old(loaded) && status == Error
                && errorMessage == LoadFailurePrefix + result.message
                && effects == old(effects) + [ErrorSet(LoadFailurePrefix + result.message), StatusSet(Error)]
    {
      result := ffmpeg.Load();
      if result == Loaded {
        loaded := true;
      } else {
        errorMessage := LoadFailurePrefix + result.message;
        status := Error;
        effects := effects + [ErrorSet(errorMessage), StatusSet(Error)];
      }
    }

    /** The engine's progress event, a fraction, shown as a percentage. */
    method Progress(fraction: real)
      modifies this
      ensures progress == fraction * 100.0
      ensures effects == old(effects) + [ProgressSet(fraction * 100.0)]
      ensures loaded == old(loaded) && mode == old(mode) && files == old(files)
      ensures status == old(status) && errorMessage == old(errorMessage)
    {
      progress := fraction * 100.0;
      effects := effects + [ProgressSet(progress)];
    }

    /** One engine call, logged with its outcome. */
    method Invoke(call: Call) returns (ok: bool)
      requires Valid()
      modifies this
      ensures Valid()
      ensures !ffmpeg.loaded ==> !ok
      ensures effects == old(effects) + [Invoked(call, ok)]
      ensures loaded == old(loaded) && mode == old(mode) && files == old(files)
      ensures status == old(status) && progress == old(progress) && errorMessage == old(errorMessage)
    {
      ok := ffmpeg.Perform(call);
      effects := effects + [Invoked(call, ok)];
    }

    /** The end of a job: the download and `completed`, or the message and `error`. */
    method Conclude(success: bool, download: string, failure: string)
      modifies this
      ensures effects == old(effects) + Conclusion(success, download, failure)
      ensures status == if success then Completed else Error
      ensures errorMessage == if success then old(errorMessage) else failure
      ensures loaded == old(loaded) && mode == old(mode) && files == old(files) && progress == old(progress)
    {
      if success {
        effects := effects + [Downloaded(download)];
        status := Completed;
        effects := effects + [StatusSet(Completed)];
      } else {
        errorMessage := failure;
        effects := effects + [ErrorSet(failure)];
        status := Error;
        effects := effects + [StatusSet(Error)];
      }
    }

    /** One call of a job inside its `try`: made only while every earlier
        call succeeded; after a failure the rest of the job is skipped. */
    method Step(ok: bool, call: Call, ghost plan: seq<Call>, ghost outcomes: seq<bool>, ghost base: seq<Effect>)
      returns (ok': bool, ghost outcomes': seq<bool>)
      requires Valid()
      requires |outcomes| <= |plan| && effects == base + Attempts(plan, outcomes)
      requires ok ==> AllTrue(outcomes) && |outcomes| < |plan| && plan[|outcomes|] == call
      requires !ok ==> FailedLast(outcomes)
      modifies this
      ensures Valid()
      ensures |outcomes'| <= |plan| && effects == base + Attempts(plan, outcomes')
      ensures ok ==> outcomes' == outcomes + [ok']
      ensures !ok ==> outcomes' == outcomes && !ok'
      ensures ok' ==> AllTrue(outcomes')
      ensures !ok' ==> FailedLast(outcomes')
      ensures loaded == old(loaded) && mode == old(mode) && files == old(files)
      ensures status == old(status) && progress == old(progress) && errorMessage == old(errorMessage)
    {
      ok', outcomes' := ok, outcomes;
      if ok {
        ok' := Invoke(call);
        AttemptsSnoc(plan, outcomes, ok');
        Extend(outcomes, ok');
        outcomes' := outcomes + [ok'];
      }
    }

    /** `handleTrim`: nothing without a loaded engine or a file; otherwise the
        three-call trim job on the first file, with the start and the length
        of the range rendered by `show`. */
    method HandleTrim(start: real, end: real) returns (ghost outcomes: seq<bool>)
      requires Valid()
      modifies this
      ensures Valid()
      ensures loaded == old(loaded) && mode == old(mode) && files == old(files)
      ensures !old(loaded) || old(files) == [] ==>
                && outcomes == [] && status == old(status) && progress == old(progress)
                && errorMessage == old(errorMessage) && effects == old(effects)
      ensures old(loaded) && old(files) != [] ==>
                var plan := TrimPlan(old(files)[0], show(start), show(end - start));
                && StopsAtFirstFailure(outcomes, |plan|)
                && effects == old(effects) + JobEffects(plan, outcomes, TrimDownload(old(files)[0]), TrimFailure)
                && status == (if Succeeded(outcomes, |plan|) then Completed else Error)
                && errorMessage == (if Succeeded(outcomes, |plan|) then old(errorMessage) else TrimFailure)
                && progress == 0.0
    {
      outcomes := [];
      if !loaded || |files| == 0 {
        return;
      }
      status := Processing;
      progress := 0.0;
      effects := effects + Prelude;
      var file := files[0];
      var plan := TrimPlan(file, show(start), show(end - start));
      ghost var before := effects;

      var ok := true;
      ok, outcomes := Step(ok, WriteFile(TrimInput, FileData(file)), plan, outcomes, before);
      ok, outcomes := Step(ok, Exec(TrimArgs(show(start), show(end - start))), plan, outcomes, before);
      ok, outcomes := Step(ok, ReadFile(TrimOutput), plan, outcomes, before);
      Concluded(outcomes, |plan|);
      assert ok == Succeeded(outcomes, |plan|);
      Conclude(ok, TrimDownload(file), TrimFailure);
      Assemble(old(effects), plan, outcomes, TrimDownload(file), TrimFailure, ok);
    }

    /** The staging loop of `handleMerge`: write each clip under its
        generated name and append its manifest line, stopping at the first
        failed write. */
    method StageClips(filesToMerge: seq<MediaFile>) returns (ok: bool, content: string, ghost outcomes: seq<bool>)
      requires Valid()
      modifies this
      ensures Valid()
      ensures |outcomes| <= |filesToMerge|
      ensures effects == old(effects) + Attempts(MergePlan(filesToMerge), outcomes)
      ensures ok ==> Succeeded(outcomes, |filesToMerge|) && content == Manifest(|filesToMerge|)
      ensures !ok ==> FailedLast(outcomes)
      ensures loaded == old(loaded) && mode == old(mode) && files == old(files)
      ensures status == old(status) && progress == old(progress) && errorMessage == old(errorMessage)
    {
      ghost var plan := MergePlan(filesToMerge);
      var n := |filesToMerge|;
      outcomes := [];
      content := "";
      ok := true;
      var i := 0;
      while i < n
        invariant 0 <= i <= n
        invariant ok && |outcomes| == i && (forall k :: 0 <= k < i ==> outcomes[k])
        invariant content == Manifest(i)
        invariant effects == old(effects) + Attempts(plan, outcomes)
        invariant Valid() && loaded == old(loaded) && mode == old(mode) && files == old(files)
        invariant status == old(status) && progress == old(progress) && errorMessage == old(errorMessage)
      {
        var fileName := InputName(i);
        ok := Invoke(WriteFile(fileName, FileData(filesToMerge[i])));
        AttemptsSnoc(plan, outcomes, ok);
        Extend(outcomes, ok);
        outcomes := outcomes + [ok];
        if !ok {
          return;
        }
        ManifestGrows(i);
        content := content + ("file '" + fileName + "'") + "\n";
        i := i + 1;
      }
    }

    /** `handleMerge`: nothing without a loaded engine or below two clips;
        otherwise the merge job: stage every clip while building the
        manifest line by line, then write it, concatenate and read back. */
    method HandleMerge(filesToMerge: seq<MediaFile>) returns (ghost outcomes: seq<bool>)
      requires Valid()
      modifies this
      ensures Valid()
      ensures loaded == old(loaded) && mode == old(mode) && files == old(files)
      ensures !old(loaded) || |filesToMerge| < 2 ==>
                && outcomes == [] && status == old(status) && progress == old(progress)
                && errorMessage == old(errorMessage) && effects == old(effects)
      ensures old(loaded) && |filesToMerge| >= 2 ==>
                var plan := MergePlan(filesToMerge);
                && StopsAtFirstFailure(outcomes, |plan|)
                && effects == old(effects) + JobEffects(plan, outcomes, MergedDownload, MergeFailure)
                && status == (if Succeeded(outcomes, |plan|) then Completed else Error)
                && errorMessage == (if Succeeded(outcomes, |plan|) then old(errorMessage) else MergeFailure)
                && progress == 0.0
    {
      outcomes := [];
      if !loaded || |filesToMerge| < 2 {
        return;
      }
      status := Processing;
      progress := 0.0;
      effects := effects + Prelude;
      ghost var plan := MergePlan(filesToMerge);
      ghost var before := effects;
      var ok, content;
      ok, content, outcomes := StageClips(filesToMerge);
      ok, outcomes := Step(ok, WriteFile(ListFile, TextData(content)), plan, outcomes, before);
      ok, outcomes := Step(ok, Exec(MergeArgs), plan, outcomes, before);
      ok, outcomes := Step(ok, ReadFile(MergedOutput), plan, outcomes, before);
      Concluded(outcomes, |plan|);
      assert ok == Succeeded(outcomes, |plan|);
      Conclude(ok, MergedDownload, MergeFailure);
      Assemble(old(effects), plan, outcomes, MergedDownload, MergeFailure, ok);
    }

    /** `reset`: back to the uploader; the last error message is kept. */
    method Reset()
      modifies this
      ensures files == [] && status == Idle && progress == 0.0
      ensures effects == old(effects) + [StatusSet(Idle), ProgressSet(0.0)]
      ensures loaded == old(loaded) && mode == old(mode) && errorMessage == old(errorMessage)
    {
      files := [];
      status := Idle;
      effects := effects + [StatusSet(Idle)];
      progress := 0.0;
      effects := effects + [ProgressSet(0.0)];
    }

    /** The status overlay's dismiss button: only the status goes back to idle. */
    method DismissStatus()
      modifies this
      ensures status == Idle && effects == old(effects) + [StatusSet(Idle)]
      ensures loaded == old(loaded) && mode == old(mode) && files == old(files)
      ensures progress == old(progress) && errorMessage == old(errorMessage)
    {
      status := Idle;
      effects := effects + [StatusSet(Idle)];
    }

    /** The Trim and Merge tabs: switch the mode, then reset. */
    method SwitchMode(m: Mode)
      modifies this
      ensures mode == m && files == [] && status == Idle && progress == 0.0
      ensures effects == old(effects) + [StatusSet(Idle), ProgressSet(0.0)]
      ensures loaded == old(loaded) && errorMessage == old(errorMessage)
    {
      mode := m;
      Reset();
    }

    /** The uploader's `onUpload`, which replaces the files. */
    method Upload(chosen: seq<MediaFile>)
      modifies this
      ensures files == chosen
      ensures loaded == old(loaded) && mode == old(mode) && status == old(status)
      ensures progress == old(progress) && errorMessage == old(errorMessage) && effects == old(effects)
    {
      files := chosen;
    }

    /** The merge editor's `onAddFiles`: append to the files. */
    method AddFiles(added: seq<MediaFile>)
      modifies this
      ensures files == old(files) + added
      ensures loaded == old(loaded) && mode == old(mode) && status == old(status)
      ensures progress == old(progress) && errorMessage == old(errorMessage) && effects == old(effects)
    {
      files := files + added;
    }
  }
}
