/**
 * The component's session state and its handlers: file selection and the
 * upload gate, the simulated analysis progress, publishing a score,
 * popping red flags and restarting.
 *
 * Storage, the clock and randomness are parameters: `today` is a day
 * number, `now` and `monthLater` are instants (`monthLater` stands for
 * now plus one calendar month), `step` is one progress increment and
 * `jitter` the score's random part.
 */
module Session {
  import opened Wrappers
  import opened Scoring
  import opened UsageGate

  datatype AppState = Onboarding | Upload | Analyzing | Roasting | Results | Error

  /** A selected file, as far as the handlers look at it. */
  datatype File = File(name: string, mimeType: string)

  /** What one gated file selection came to. */
  datatype UploadOutcome = NoFile | LimitLocked | LimitReached | NotAnImage | Reading

  /** Progress runs in hundredths of a percent up to 100%. */
  const FullProgress: int := 10000

  /** The MIME prefix an upload must carry. */
  const ImagePrefix: string := "image/"

  // ---------------------------------------------------------------------
  // Pure operations

  /** `file.type.startsWith('image/')` */
  predicate IsImageMime(mimeType: string)
  {
    ImagePrefix <= mimeType
  }

  /** One progress tick: add the step, cap at 100%; done when the uncapped sum reaches 100%. */
  function NextProgress(prev: int, step: nat): (r: (int, bool))
    ensures r.0 <= FullProgress
    ensures prev <= FullProgress ==> prev <= r.0
    ensures r.1 <==> r.0 == FullProgress
  {
    var next := prev + step;
    (Min(next, FullProgress), next >= FullProgress)
  }

  /** Popping flag id: every flag with that id is marked exploded, the rest are kept as they are. */
  function Explode(flags: seq<RedFlag>, id: int): (r: seq<RedFlag>)
    ensures |r| == |flags|
    ensures forall i :: 0 <= i < |r| ==>
      && r[i].id == flags[i].id
      && r[i].text == flags[i].text
      && r[i].exploded == (flags[i].exploded || flags[i].id == id)
  {
    seq(|flags|, i requires 0 <= i < |flags| =>
      if flags[i].id == id then flags[i].(exploded := true) else flags[i])
  }

  function Sum(steps: seq<nat>): nat
  {
    if steps == [] then 0 else steps[0] + Sum(steps[1..])
  }

  /** Progress after a run of ticks, ticking on after completion as the capped updater would. */
  function ProgressAfter(prev: int, steps: seq<nat>): int
    decreases |steps|
  {
    if steps == [] then prev else ProgressAfter(NextProgress(prev, steps[0]).0, steps[1..])
  }

  // ---------------------------------------------------------------------
  // Properties of the pure operations

  /** An accepted MIME type is exactly "image/" followed by anything. */
  lemma ImageMimeIsPrefix(mimeType: string)
    ensures IsImageMime(mimeType) <==> exists subtype :: mimeType == ImagePrefix + subtype
  {
    if IsImageMime(mimeType) {
      assert mimeType == ImagePrefix + mimeType[|ImagePrefix|..];
    }
  }

  /** Progress is the running sum of the steps, capped at 100%. */
  lemma {:induction false} ProgressIsCappedSum(prev: int, steps: seq<nat>)
    requires 0 <= prev <= FullProgress
    ensures ProgressAfter(prev, steps) == Min(prev + Sum(steps), FullProgress)
    decreases |steps|
  {
    if steps != [] {
      var p := NextProgress(prev, steps[0]).0;
      ProgressIsCappedSum(p, steps[1..]);
    }
  }

  /** Popping the same flag twice is popping it once. */
  lemma ExplodeIdempotent(flags: seq<RedFlag>, id: int)
    ensures Explode(Explode(flags, id), id) == Explode(flags, id)
  {
  }

  /** Popping two flags gives the same list in either order. */
  lemma ExplodeCommutes(flags: seq<RedFlag>, a: int, b: int)
    ensures Explode(Explode(flags, a), b) == Explode(Explode(flags, b), a)
  {
  }

  /** Flags raised by the scoring engine start whole, so after one pop exactly the flags with that id are exploded. */
  lemma ExplodeAfterAnalysis(table: seq<(string, string, string)>, w: nat, h: nat, jitter: nat, id: int)
    requires |table| == BucketCount && jitter <= MaxJitter
    ensures var f := Explode(Analyze(table, w, h, jitter).flags, id);
      forall i :: 0 <= i < |f| ==> (f[i].exploded <==> f[i].id == id)
  {
  }

  // ---------------------------------------------------------------------
  // Properties of the reader callbacks

  /** A successful read starts the analysis from zero progress on the analyzing screen, with the image attached. */
  lemma LoadStartsAnalysis(s: Screen, dataUrl: string)
    ensures var t := ImageLoaded(s, Some(dataUrl));
      AnalysisRuns(t) && !Stalled(t) && t.uploadedImage == Some(dataUrl)
      && t.appState == Analyzing && t.analysisProgress == 0 && !t.isLoading
  {
  }

  /** As written, a failed read leaves the analyzing screen shown with no image and no analysis running, whatever the screen was. */
  lemma ReadFailureStalls(s: Screen)
    ensures Stalled(ReadFailed(s))
    ensures ReadFailed(s).uploadedImage == None && ReadFailed(s).isAnalyzing
    ensures ReadFailed(s) != ReadFailedIntended(s)
  {
  }

  /** As intended, a failed read returns to the upload step with the loader off, and never stalls. */
  lemma IntendedReadFailureReturnsToUpload(s: Screen)
    ensures var t := ReadFailedIntended(s);
      t.appState == Upload && !t.isLoading && !Stalled(t)
      && t.uploadedImage == s.uploadedImage && t.isAnalyzing == s.isAnalyzing
  {
  }

  // ---------------------------------------------------------------------
  // The component

  /** Everything the session shows, apart from the tier and the usage state. */
  datatype Screen = Screen(
    appState: AppState,
    cringeScore: int,
    roastResults: seq<RoastResult>,
    redFlags: seq<RedFlag>,
    uploadedImage: Option<string>,
    fileName: string,
    isLoading: bool,
    isAnalyzing: bool,
    analysisProgress: int,
    showShareCard: bool,
    isCardShattered: bool,
    lipSyncing: bool)

  /** The screen right after mount. */
  const InitialScreen := Screen(Onboarding, 0, [], [], None, "", false, false, 0, false, false, false)

  /** The screen after a restart: the initial screen, on the upload step instead of onboarding. */
  function RestartScreen(): (s: Screen)
    ensures s == InitialScreen.(appState := Upload)
  {
    Screen(Upload, 0, [], [], None, "", false, false, 0, false, false, false)
  }

  /** An accepted image: its name is shown and loading starts. */
  function ImageChosen(s: Screen, name: string): Screen
  {
    s.(fileName := name, isLoading := true)
  }

  /** No file, a non-image or a read failure: back to the upload step, loader off. */
  function BackToUpload(s: Screen): Screen
  {
    s.(appState := Upload, isLoading := false)
  }

  /**
   * The reader's `loadend`: its result (None when the read failed) becomes
   * the image, and analysis is switched on. The analysis effect, which
   * resets progress to zero, only starts when there is an image.
   */
  function ImageLoaded(s: Screen, result: Option<string>): Screen
  {
    s.(uploadedImage := result, isLoading := false, isAnalyzing := true,
       appState := Analyzing,
       analysisProgress := if result.Some? then 0 else s.analysisProgress)
  }

  /** The analysis effect's condition: analysing, with an image to analyse. */
  predicate AnalysisRuns(s: Screen)
  {
    s.isAnalyzing && s.uploadedImage.Some?
  }

  /** The analyzing screen is shown but no analysis runs, and nothing will ever leave it. */
  predicate Stalled(s: Screen)
  {
    s.appState == Analyzing && !AnalysisRuns(s)
  }

  /** A failed read as written: `onerror` returns to the upload step, then `loadend` follows with no result. */
  function ReadFailed(s: Screen): Screen
  {
    ImageLoaded(BackToUpload(s), None)
  }

  /** A failed read as evidently intended: only the return to the upload step. */
  function ReadFailedIntended(s: Screen): Screen
  {
    BackToUpload(s)
  }

  /** One progress tick: the capped progress, and analysis stops once it is done. */
  function Progressed(s: Screen, step: nat): Screen
  {
    var (p, done) := NextProgress(s.analysisProgress, step);
    s.(analysisProgress := p, isAnalyzing := s.isAnalyzing && !done)
  }

  /** The image has been scored: score, roasts and flags are shown on the roast screen, lip-sync on. */
  function Roasted(s: Screen, a: Analysis): Screen
  {
    s.(cringeScore := a.score, roastResults := a.roasts, redFlags := a.flags,
       appState := Roasting, lipSyncing := true)
  }

  /** A red flag was clicked. */
  function FlagPopped(s: Screen, id: int): Screen
  {
    s.(redFlags := Explode(s.redFlags, id))
  }

  class TruthCard {
    /** The roast texts, the source's table. */
    const roastTable: seq<(string, string, string)>
    var appState: AppState
    var cringeScore: int
    var roastResults: seq<RoastResult>
    var redFlags: seq<RedFlag>
    var uploadedImage: Option<string>
    var fileName: string
    var isLoading: bool
    var isAnalyzing: bool
    var analysisProgress: int
    var showShareCard: bool
    var isCardShattered: bool
    var lipSyncing: bool
    var currentTier: Tier
    var uploadCount: int
    var lastUploadDate: Option<int>
    var isLocked: bool
    var lockoutEndDate: Option<int>
    /** The `truthcard_usage` storage slot. */
    var storage: Option<UsageRecord>

    function View(): Screen
      reads this
    {
      Screen(appState, cringeScore, roastResults, redFlags, uploadedImage, fileName,
             isLoading, isAnalyzing, analysisProgress, showShareCard, isCardShattered, lipSyncing)
    }

    function Usage(): UsageGate.Usage
      reads this
    {
      UsageGate.Usage(uploadCount, lastUploadDate, isLocked, lockoutEndDate, storage)
    }

    /** Mount, with whatever storage holds. */
    constructor (stored: Option<UsageRecord>)
      ensures roastTable == RoastTable && |roastTable| == BucketCount
      ensures View() == InitialScreen
      ensures Usage() == Fresh(stored) && currentTier == Free
    {
      roastTable := RoastTable;
      appState := Onboarding;
      cringeScore := 0;
      roastResults, redFlags := [], [];
      uploadedImage, fileName := None, "";
      isLoading, isAnalyzing := false, false;
      analysisProgress := 0;
      showShareCard, isCardShattered, lipSyncing := false, false, false;
      currentTier := Free;
      uploadCount, lastUploadDate, isLocked, lockoutEndDate := 0, None, false, None;
      storage := stored;
    }

    /** The usage-initialisation effect run once after mount. */
    method ReconcileUsage(today: int, now: int)
      modifies this
      ensures Usage() == Reconciled(old(Usage()), today, now)
      ensures View() == old(View()) && currentTier == old(currentTier)
    {
      if storage.Some? {
        var r := storage.value;
        if r.locked && r.lockoutEnd.Some? && r.lockoutEnd.value > now {
          isLocked := true;
          lockoutEndDate := r.lockoutEnd;
        } else if r.date == today {
          uploadCount := r.count;
          lastUploadDate := Some(r.date);
        } else {
          uploadCount := 0;
          lastUploadDate := Some(today);
          storage := Some(UsageRecord(0, today, false, None));
        }
      }
    }

    /** `handleUploadLimit` */
    method HandleUploadLimit(today: int, now: int, monthLater: int) returns (ok: bool)
      requires now < monthLater
      modifies this
      ensures (Usage(), ok) == Authorized(old(Usage()), currentTier, today, now, monthLater)
      ensures View() == old(View()) && currentTier == old(currentTier)
    {
      if currentTier == Roaster {
        return true;
      }
      var newCount := uploadCount + 1;
      if newCount >= DailyLimit {
        storage := Some(UsageRecord(newCount, today, true, Some(monthLater)));
        isLocked := true;
        lockoutEndDate := Some(monthLater);
        return false;
      }
      storage := Some(UsageRecord(newCount, today, false, None));
      uploadCount := newCount;
      lastUploadDate := Some(today);
      return true;
    }

    /**
     * File selection through the gate: nothing selected does nothing; a
     * locked free session is refused; then the attempt is counted, and
     * only then is the MIME type checked, so a rejected non-image still
     * uses up an upload. An accepted image starts loading.
     */
    method SelectFileGated(files: seq<File>, today: int, now: int, monthLater: int) returns (outcome: UploadOutcome)
      requires now < monthLater
      modifies this
      ensures currentTier == old(currentTier)
      ensures files == [] ==> outcome == NoFile && Usage() == old(Usage()) && View() == old(View())
      ensures files != [] ==>
        var (u, o) := Attempt(old(Usage()), currentTier, today, now, monthLater);
        && Usage() == u
        && (o == DeniedLocked ==> outcome == LimitLocked)
        && (o == DeniedLimit ==> outcome == LimitReached)
        && (o == Granted && !IsImageMime(files[0].mimeType) ==> outcome == NotAnImage)
        && (o == Granted && IsImageMime(files[0].mimeType) ==> outcome == Reading)
      ensures outcome == Reading ==> View() == ImageChosen(old(View()), files[0].name)
      ensures outcome != Reading ==> View() == old(View())
    {
      if files == [] {
        return NoFile;
      }
      if isLocked && currentTier == Free {
        return LimitLocked;
      }
      var ok := HandleUploadLimit(today, now, monthLater);
      if !ok {
        return LimitReached;
      }
      var file := files[0];
      if !IsImageMime(file.mimeType) {
        return NotAnImage;
      }
      fileName := file.name;
      isLoading := true;
      outcome := Reading;
    }

    /** File selection without the gate: no file or a non-image returns to the upload step; an image starts loading. */
    method SelectFile(files: seq<File>) returns (accepted: bool)
      modifies this
      ensures accepted <==> files != [] && IsImageMime(files[0].mimeType)
      ensures accepted ==> View() == ImageChosen(old(View()), files[0].name)
      ensures !accepted ==> View() == BackToUpload(old(View()))
      ensures Usage() == old(Usage()) && currentTier == old(currentTier)
    {
      if files != [] {
        var file := files[0];
        if !IsImageMime(file.mimeType) {
          appState := Upload;
          isLoading := false;
          return false;
        }
        fileName := file.name;
        isLoading := true;
        return true;
      } else {
        appState := Upload;
        isLoading := false;
        return false;
      }
    }

    /**
     * The reader's `loadend` callback: the result is attached and analysis
     * is switched on; with an image the analysis effect resets progress.
     */
    method FileLoaded(result: Option<string>)
      modifies this
      ensures View() == ImageLoaded(old(View()), result)
      ensures Usage() == old(Usage()) && currentTier == old(currentTier)
    {
      uploadedImage := result;
      isLoading := false;
      isAnalyzing := true;
      appState := Analyzing;
      if result.Some? {
        analysisProgress := 0;
      }
    }

    /** The reader failed, as written: `onerror` runs, then `loadend` with no result. */
    method FileReadFailed()
      modifies this
      ensures View() == ReadFailed(old(View()))
      ensures Usage() == old(Usage()) && currentTier == old(currentTier)
    {
      appState := Upload;
      isLoading := false;
      FileLoaded(None);
    }

    /** The reader failed, as intended: only the return to the upload step. */
    method FileReadFailedIntended()
      modifies this
      ensures View() == ReadFailedIntended(old(View()))
      ensures Usage() == old(Usage()) && currentTier == old(currentTier)
    {
      appState := Upload;
      isLoading := false;
    }

    /** One tick of the analysis interval; when progress reaches 100% analysis stops and the image is scored. */
    method ProgressTick(step: nat) returns (done: bool)
      modifies this
      ensures (analysisProgress, done) == NextProgress(old(analysisProgress), step)
      ensures View() == Progressed(old(View()), step)
      ensures Usage() == old(Usage()) && currentTier == old(currentTier)
    {
      var next := analysisProgress + step;
      if next >= FullProgress {
        isAnalyzing := false;
      }
      analysisProgress := Min(next, FullProgress);
      done := next >= FullProgress;
    }

    /** The decoded image is scored and the roast screen is shown. */
    method ShowRoast(width: nat, height: nat, jitter: nat)
      requires |roastTable| == BucketCount && jitter <= MaxJitter
      modifies this
      ensures View() == Roasted(old(View()), Analyze(roastTable, width, height, jitter))
      ensures Usage() == old(Usage()) && currentTier == old(currentTier)
    {
      var a := Analyze(roastTable, width, height, jitter);
      cringeScore := a.score;
      roastResults := a.roasts;
      redFlags := a.flags;
      appState := Roasting;
      lipSyncing := true;
    }

    /** `handleRedFlagClick` */
    method HandleRedFlagClick(id: int)
      modifies this
      ensures View() == FlagPopped(old(View()), id)
      ensures Usage() == old(Usage()) && currentTier == old(currentTier)
    {
      redFlags := Explode(redFlags, id);
    }

    /** `handleRestart`: the whole screen is reset; the tier and the usage state are kept. */
    method HandleRestart()
      modifies this
      ensures View() == RestartScreen()
      ensures Usage() == old(Usage()) && currentTier == old(currentTier)
    {
      appState := Upload;
      cringeScore := 0;
      roastResults := [];
      redFlags := [];
      uploadedImage := None;
      fileName := "";
      isLoading := false;
      isAnalyzing := false;
      showShareCard := false;
      isCardShattered := false;
      analysisProgress := 0;
      lipSyncing := false;
    }
  }
}
