/**
 * Java resolution on the landing screen: the launch button's gate
 * (landing.js:76-143), the system scan (292-357) and the Java download
 * (359-414). The distribution index, the maintenance endpoint, the JVM
 * validation and discovery, the JDK metadata lookup, the download and the
 * extraction are collaborators; the model receives their answers as inputs.
 */
module JavaSetup {
  import opened Wrappers

  /** The one account allowed to launch while the maintenance flag is on (landing.js:101). */
  const AllowListedUuid := "b1bbccb3689d4d60bf3d8372a3d6bea3"

  datatype Account = Account(uuid: string, displayName: string)

  /** What a click on the launch button leads to. */
  datatype GateOutcome =
    | ShowFailure        // showLaunchFailure from the handler's own catch, before any scan
    | ScanFailed         // the awaited asyncSystemScan rejected inside the handler's try: the catch shows the failure
    | SystemScan         // asyncSystemScan(server.effectiveJavaOptions)
    | RunDlAsync         // dlAsync()
    | MaintenanceNotice  // the button reads 'Maintenance en cours'
    | Dropped            // an error reached the promise chain's catch: logged, nothing shown

  /** The outcomes that end with the launch failure dialog. */
  predicate ShowsFailure(r: GateOutcome) {
    r == ShowFailure || r == ScanFailed
  }

  /** The maintenance check lets this click through: the flag is off, or it is on and the allow-listed account is selected. */
  predicate Cleared(maintenance: Option<bool>, account: Option<Account>) {
    maintenance == Some(false) || (maintenance == Some(true) && account.Some? && account.value.uuid == AllowListedUuid)
  }

  /**
   * The launch button handler. `distribution` is None when reading the
   * distribution index throws, and otherwise says whether the selected server
   * was found in it; `maintenance` is None when fetching the maintenance flag
   * fails. When a Java executable is configured, everything runs inside the
   * maintenance promise chain, whose catch only logs: a missing server, a
   * missing account, or a later rejection of the scan or of dlAsync is
   * Dropped or stays silent. Without one, the handler awaits the scan inside
   * its own try: a missing server makes the scan's argument throw, and
   * `scanRejects` says whether the scan rejects (JVM discovery,
   * populateJavaExecDetails, or the dlAsync it awaits, such as a failed
   * version manifest load); both reach the catch and show the failure.
   */
  function LaunchGate(distribution: Option<bool>, javaExecutable: Option<string>, maintenance: Option<bool>,
                      account: Option<Account>, jvmValid: bool, scanRejects: bool): (r: GateOutcome)
    // the game is prepared exactly for a found server and a valid configured JVM that the maintenance check clears
    ensures r == RunDlAsync <==>
      distribution == Some(true) && javaExecutable.Some? && jvmValid && Cleared(maintenance, account)
    // with the flag on, every other account is turned away before its JVM is even looked at
    ensures r == MaintenanceNotice <==>
      distribution.Some? && javaExecutable.Some? && maintenance == Some(true) &&
      account.Some? && account.value.uuid != AllowListedUuid
    // a scan follows a missing executable, or a configured JVM that is cleared but invalid
    ensures r == SystemScan <==>
      distribution == Some(true) &&
      ((javaExecutable.None? && !scanRejects) || (javaExecutable.Some? && !jvmValid && Cleared(maintenance, account)))
    // the failure dialog appears exactly for errors the handler's own try catches
    ensures ShowsFailure(r) <==> distribution.None? || (javaExecutable.None? && (distribution == Some(false) || scanRejects))
    ensures r == ScanFailed <==> distribution == Some(true) && javaExecutable.None? && scanRejects
    // inside the promise chain a failed fetch, a missing account or a missing server is only logged
    ensures r == Dropped <==>
      distribution.Some? && javaExecutable.Some? &&
      (maintenance.None? || (maintenance == Some(true) && account.None?) || (Cleared(maintenance, account) && distribution == Some(false)))
  {
    match distribution
    case None => ShowFailure
    case Some(serverFound) =>
      if javaExecutable.None? then
        if !serverFound then ShowFailure
        else if scanRejects then ScanFailed
        else SystemScan
      else
        match maintenance
        case None => Dropped
        case Some(on) =>
          if on then
            match account
            case None => Dropped
            case Some(acc) =>
              if acc.uuid != AllowListedUuid then MaintenanceNotice
              else if !serverFound then Dropped
              else if jvmValid then RunDlAsync else SystemScan
          else if !serverFound then Dropped
          else if jvmValid then RunDlAsync else SystemScan
  }

  /** With the maintenance flag off, a valid configured JVM always proceeds to dlAsync, whoever is logged in. */
  lemma ValidJvmLaunches(javaExecutable: string, account: Option<Account>, scanRejects: bool)
    ensures LaunchGate(Some(true), Some(javaExecutable), Some(false), account, true, scanRejects) == RunDlAsync
  {
  }

  /** What asyncSystemScan does with the discovery result. */
  datatype ScanOutcome =
    | OfferJavaInstall                                  // the 'no compatible Java' overlay
    | JavaConfigured(executable: string, thenDlAsync: bool)

  /**
   * landing.js:292-357. `discovered` is the executable of the best JVM found
   * on the system, None when discovery found nothing.
   */
  function AsyncSystemScan(discovered: Option<string>, launchAfter: bool): (r: ScanOutcome)
    ensures r.OfferJavaInstall? <==> discovered.None?
    ensures r.JavaConfigured? ==> r.executable == discovered.value && r.thenDlAsync == launchAfter
  {
    match discovered
    case None => OfferJavaInstall
    case Some(exec) => JavaConfigured(exec, launchAfter)
  }

  /** What the player sees in the end after one click on the launch button. */
  datatype ClickResult =
    | GameDownload        // dlAsync runs, directly or after the scan configured a JVM
    | JavaInstallOverlay  // the scan found no JVM and offers to install one
    | MaintenanceShown    // the button reads 'Maintenance en cours'
    | FailureDialog       // showLaunchFailure
    | NothingShown        // the error was only logged

  /**
   * A click followed through: the gate's outcome and, when it scans, the
   * scan on the JVM that discovery finds. Every scan the gate starts uses
   * the default `launchAfter = true` (landing.js:82, 113, 131).
   */
  function LaunchClick(distribution: Option<bool>, javaExecutable: Option<string>, maintenance: Option<bool>,
                       account: Option<Account>, jvmValid: bool, scanRejects: bool,
                       discovered: Option<string>): (e: ClickResult)
    // the game is downloaded exactly for a cleared valid JVM, or after a scan that finds one
    ensures e == GameDownload <==>
      distribution == Some(true) &&
      ((javaExecutable.Some? && Cleared(maintenance, account) && (jvmValid || discovered.Some?)) ||
       (javaExecutable.None? && !scanRejects && discovered.Some?))
    // the install overlay appears exactly when a scan the gate starts finds no JVM
    ensures e == JavaInstallOverlay <==>
      distribution == Some(true) && discovered.None? &&
      ((javaExecutable.None? && !scanRejects) || (javaExecutable.Some? && !jvmValid && Cleared(maintenance, account)))
    ensures e == FailureDialog <==> distribution.None? || (javaExecutable.None? && (distribution == Some(false) || scanRejects))
    ensures e == NothingShown <==> LaunchGate(distribution, javaExecutable, maintenance, account, jvmValid, scanRejects) == Dropped
  {
    match LaunchGate(distribution, javaExecutable, maintenance, account, jvmValid, scanRejects)
    case RunDlAsync => GameDownload
    case SystemScan =>
      (match AsyncSystemScan(discovered, true)
       case OfferJavaInstall => JavaInstallOverlay
       case JavaConfigured(_, thenDlAsync) => if thenDlAsync then GameDownload else NothingShown)
    case ShowFailure => FailureDialog
    case ScanFailed => FailureDialog
    case MaintenanceNotice => MaintenanceShown
    case Dropped => NothingShown
  }

  type Positive = n: nat | n > 0 witness 1

  /** The JDK archive latestOpenJDK describes. */
  datatype Asset = Asset(id: string, url: string, path: string, size: Positive, algo: string, hash: string)

  datatype JavaDownloadError = NoJdkFound | DownloadRejected | Corrupted

  /**
   * What downloadJava did: the percentages it reported, whether it fell back
   * to the hash check, and the new Java executable or the error it threw.
   */
  datatype JavaDownload = JavaDownload(progress: seq<int>, hashChecked: bool, result: Result<string, JavaDownloadError>)

  /** `Math.trunc((transferred / size) * 100)`, in exact arithmetic. */
  function Percent(transferred: nat, size: Positive): nat {
    (transferred * 100) / size
  }

  function Percents(transfers: seq<nat>, size: Positive): (ps: seq<int>)
    ensures |ps| == |transfers|
    ensures forall i | 0 <= i < |ps| :: ps[i] == Percent(transfers[i], size)
  {
    if transfers == [] then [] else [Percent(transfers[0], size)] + Percents(transfers[1..], size)
  }

  /** The byte count the progress callback saw last, 0 when it never ran. */
  function Received(transfers: seq<nat>): nat {
    if transfers == [] then 0 else transfers[|transfers| - 1]
  }

  /**
   * landing.js:359-414 up to the extraction. `transfers` are the cumulative
   * byte counts downloadFile passes to the progress callback, `downloadOk`
   * whether downloadFile resolved, `hashMatches` the answer of
   * validateLocalFile and `extracted` the executable extractJdk returns.
   */
  function DownloadJava(asset: Option<Asset>, transfers: seq<nat>, downloadOk: bool, hashMatches: bool,
                        extracted: string): (d: JavaDownload)
    // no JDK: the error is thrown before anything is downloaded
    ensures asset.None? ==> d.progress == [] && !d.hashChecked && d.result == Failure(NoJdkFound)
    // one report per progress callback, then a final 100 once the download resolved
    ensures asset.Some? ==> |d.progress| >= |transfers| && d.progress[..|transfers|] == Percents(transfers, asset.value.size)
    ensures asset.Some? && downloadOk ==> |d.progress| == |transfers| + 1 && d.progress[|transfers|] == 100
    ensures asset.Some? && !downloadOk ==> |d.progress| == |transfers| && d.result == Failure(DownloadRejected)
    // the hash is consulted only when the byte count differs from the advertised size
    ensures d.hashChecked <==> asset.Some? && downloadOk && Received(transfers) != asset.value.size
    ensures d.result == Failure(Corrupted) <==> d.hashChecked && !hashMatches
    ensures d.result.Success? ==> d.result.value == extracted
  {
    match asset
    case None => JavaDownload([], false, Failure(NoJdkFound))
    case Some(a) =>
      var reported := Percents(transfers, a.size);
      if !downloadOk then JavaDownload(reported, false, Failure(DownloadRejected))
      else
        var checked := Received(transfers) != a.size;
        var result := if checked && !hashMatches then Failure(Corrupted) else Success(extracted);
        JavaDownload(reported + [100], checked, result)
  }

  /**
   * When the byte counts only grow and never pass the advertised size, the
   * reported percentages only grow, stay within [0, 100] and end at 100.
   */
  lemma {:induction false} DownloadProgressMonotone(asset: Asset, transfers: seq<nat>, hashMatches: bool, extracted: string)
    requires forall i, j | 0 <= i < j < |transfers| :: transfers[i] <= transfers[j]
    requires forall i | 0 <= i < |transfers| :: transfers[i] <= asset.size
    ensures var p := DownloadJava(Some(asset), transfers, true, hashMatches, extracted).progress;
      && p[|p| - 1] == 100
      && (forall i | 0 <= i < |p| :: 0 <= p[i] <= 100)
      && (forall i, j | 0 <= i < j < |p| :: p[i] <= p[j])
  {
    var p := DownloadJava(Some(asset), transfers, true, hashMatches, extracted).progress;
    var n := |transfers|;
    assert p[..n] == Percents(transfers, asset.size);
    forall i | 0 <= i < n ensures 0 <= p[i] <= 100 {
      assert p[i] == Percent(transfers[i], asset.size);
      PercentAtMostHundred(transfers[i], asset.size);
    }
    forall i, j | 0 <= i < j < |p| ensures p[i] <= p[j] {
      assert p[i] == Percent(transfers[i], asset.size);
      PercentAtMostHundred(transfers[i], asset.size);
      if j < n {
        assert p[j] == Percent(transfers[j], asset.size);
        PercentMonotone(transfers[i], transfers[j], asset.size);
      }
    }
  }

  lemma PercentAtMostHundred(t: nat, size: Positive)
    requires t <= size
    ensures Percent(t, size) <= 100
  {
    var q, r := (t * 100) / size, (t * 100) % size;
    assert t * 100 == size * q + r && 0 <= r;
    MulMonotone(100, t, size);
    if q > 100 {
      MulMonotone(size, 101, q);
      assert false;
    }
  }

  lemma PercentMonotone(t: nat, u: nat, size: Positive)
    requires t <= u
    ensures Percent(t, size) <= Percent(u, size)
  {
    DivMonotone(t * 100, u * 100, size);
  }

  lemma DivMonotone(a: nat, b: nat, c: Positive)
    requires a <= b
    ensures a / c <= b / c
  {
    var q, r := a / c, a % c;
    var q', r' := b / c, b % c;
    assert a == c * q + r && 0 <= r < c;
    assert b == c * q' + r' && 0 <= r' < c;
    if q > q' {
      assert c * q >= c * (q' + 1) by { MulMonotone(c, q' + 1, q); }
      assert false;
    }
  }

  lemma MulMonotone(c: nat, x: nat, y: nat)
    requires x <= y
    ensures c * x <= c * y
  {
  }

  /** What the 'install Java' overlay button leaves behind once the download settles. */
  datatype HandlerEffect = HandlerEffect(failureDialog: bool, unhandledRejection: bool)

  /**
   * landing.js:311-322 as written: downloadJava is an async function called
   * without `await`, so whatever it throws rejects the returned promise
   * instead of reaching the surrounding catch; the failure dialog is never
   * shown and the rejection goes unhandled.
   */
  function InstallJavaHandlerAsWritten(d: JavaDownload): (e: HandlerEffect)
    ensures !e.failureDialog
    ensures e.unhandledRejection <==> d.result.Failure?
  {
    HandlerEffect(false, d.result.Failure?)
  }

  /** A JDK lookup that finds nothing throws, yet the user is never told. */
  lemma MissingJdkGoesUnreported(transfers: seq<nat>, hashMatches: bool, extracted: string)
    ensures DownloadJava(None, transfers, false, hashMatches, extracted).result.Failure?
    ensures !InstallJavaHandlerAsWritten(DownloadJava(None, transfers, false, hashMatches, extracted)).failureDialog
  {
  }

  /** The handler as evidently intended: the download is awaited, so its errors reach the catch and its dialog. */
  function InstallJavaHandler(d: JavaDownload): (e: HandlerEffect)
    ensures e.failureDialog <==> d.result.Failure?
    ensures !e.unhandledRejection
  {
    HandlerEffect(d.result.Failure?, false)
  }

  /** Every way downloadJava can fail reaches the Java download failure dialog in the intended handler. */
  lemma EveryJavaDownloadFailureReported(asset: Option<Asset>, transfers: seq<nat>, downloadOk: bool,
                                         hashMatches: bool, extracted: string)
    ensures var d := DownloadJava(asset, transfers, downloadOk, hashMatches, extracted);
      InstallJavaHandler(d).failureDialog <==> (asset.None? || !downloadOk || (d.hashChecked && !hashMatches))
  {
  }
}
