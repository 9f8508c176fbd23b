/**
 * The launch suite of the landing screen: `dlAsync` (landing.js:422-605)
 * and the listeners it attaches to the game process. The whole observable
 * state of the screen is a `Suite` value; each event is a function from
 * suite to suite, and the class `Launcher` performs the same transitions
 * on its fields.
 */
module LaunchSuite {
  import opened Wrappers
  import opened Text
  import opened OutputClassifier
  import JavaSetup

  /** MIN_LINGER, in milliseconds (landing.js:420). */
  const MinLinger := 5000

  /** The delay of the timer that relabels the launch button 'Jouer' (landing.js:582-584). */
  const PlayRelabelDelay := 5000

  /** The labels dlAsync writes to the launch button, in its language table's terms. */
  datatype LaunchInfo =
    | LoadingServerInfo | PleaseWait | ValidatingFileIntegrity | DownloadingFiles
    | PreparingToLaunch | LaunchingGame | DoneEnjoyServer | Play

  /** The failure dialogs the launch suite raises. */
  datatype LaunchFailure =
    | DistributionIndexUnavailable   // landing.js:436
    | FileVerificationFailed         // landing.js:485
    | FileDownloadFailed             // landing.js:503
    | LaunchError                    // landing.js:600: building the process or starting Rich Presence threw
    | LaunchWrapperNotDownloaded     // landing.js:572
    | RepairProcessError             // landing.js:465
    | RepairProcessExit              // landing.js:470

  /** The three listeners dlAsync attaches to the game's output streams. */
  datatype Listener = TempListener | GameErrorListener | GameStateChange

  datatype TimerAction = ShowPlay | CompleteLoad
  /** A pending setTimeout: its delay from the moment it was set, and what it does. */
  datatype Timer = Timer(delay: nat, action: TimerAction)

  /** The landing screen's DOM: the launch button's label history, the download percentages shown, the failure dialogs raised. */
  datatype Screen = Screen(info: seq<LaunchInfo>, progress: seq<int>, failures: seq<LaunchFailure>)

  /**
   * The module-level `proc`: whether a game process is attached, its stdout
   * and stderr listeners in attachment order, and whether it carries the
   * Rich Presence 'close' handler.
   */
  datatype GameProcess = GameProcess(attached: bool, stdout: seq<Listener>, stderr: seq<Listener>, closeHook: bool)

  /** The module-level `hasRPC`, the details shown through Discord, and the shutdowns of Rich Presence. */
  datatype RichPresence = RichPresence(hasRPC: bool, presence: seq<Presence>, shutdowns: nat)

  /**
   * Everything the launch suite can change: the screen, the repair
   * receivers still open, the game process, Rich Presence, the pending
   * timers, and the launch time and display name the current attempt's
   * listeners close over.
   */
  datatype Suite = Suite(
    screen: Screen,
    openReceivers: nat,
    proc: GameProcess,
    rpc: RichPresence,
    timers: seq<Timer>,
    start: int,
    player: string)

  /** The launch button gets a new label. */
  function Label(s: Suite, l: LaunchInfo): Suite {
    s.(screen := s.screen.(info := s.screen.info + [l]))
  }

  /** A Rich Presence details update. */
  function Announce(s: Suite, p: Presence): Suite {
    s.(rpc := s.rpc.(presence := s.rpc.presence + [p]))
  }

  /** Whether the distribution names a Discord application and the selected server a Rich Presence configuration. */
  datatype DistroInfo = DistroInfo(distributionDiscord: bool, serverDiscord: bool)

  /**
   * The answers of dlAsync's collaborators during one attempt: the refreshed
   * distribution (None when refreshing throws), the selected account, the
   * number of invalid files (None when verification throws), the download's
   * progress reports and whether it resolved, whether the server and its
   * version manifests could be loaded, the clock at launch, whether the
   * process builder succeeded and whether Rich Presence started.
   */
  datatype LaunchOracles = LaunchOracles(
    distribution: Option<DistroInfo>,
    account: Option<JavaSetup.Account>,
    verification: Option<nat>,
    downloadPercents: seq<int>,
    downloadOk: bool,
    versionDataOk: bool,
    now: int,
    buildOk: bool,
    rpcOk: bool)

  /** Where one run of dlAsync stops. */
  datatype Stage =
    | DistributionUnavailable | NoAccount | VerificationFailed | DownloadFailed
    | VersionDataUnavailable | Prepared | BuildFailed | RpcFailed | Launched
  {
    /** The attempt got past the account check and spawned a repair receiver. */
    predicate Repairing() { !DistributionUnavailable? && !NoAccount? }
    /** Verification or the download failed. */
    predicate RepairFailed() { VerificationFailed? || DownloadFailed? }
    /** The attempt reached the process builder. */
    predicate ReachedBuild() { BuildFailed? || RpcFailed? || Launched? }
    /** The process was built. */
    predicate Built() { RpcFailed? || Launched? }
  }

  predicate RichPresenceConfigured(o: LaunchOracles)
    requires o.distribution.Some?
  {
    o.distribution.value.distributionDiscord && o.distribution.value.serverDiscord
  }

  /** The stage reached, read off the collaborators' answers in the order dlAsync consults them. */
  function StageReached(login: bool, o: LaunchOracles): (st: Stage)
    ensures st == NoAccount <==> o.distribution.Some? && login && o.account.None?
    ensures st.ReachedBuild() ==> login && o.account.Some?
    ensures st == Prepared ==> !login
    ensures st == DownloadFailed ==> o.verification.Some? && o.verification.value > 0 && !o.downloadOk
  {
    if o.distribution.None? then DistributionUnavailable
    else if login && o.account.None? then NoAccount
    else if o.verification.None? then VerificationFailed
    else if o.verification.value > 0 && !o.downloadOk then DownloadFailed
    else if !o.versionDataOk then VersionDataUnavailable
    else if !login then Prepared
    else if !o.buildOk then BuildFailed
    else if RichPresenceConfigured(o) && !o.rpcOk then RpcFailed
    else Launched
  }

  /** Whether the attempt got as far as downloading files. */
  predicate DownloadAttempted(login: bool, o: LaunchOracles) {
    StageReached(login, o).Repairing() && o.verification.Some? && o.verification.value > 0
  }

  /** The failure dialog a stage ends with, if any. */
  function FailureOf(st: Stage): Option<LaunchFailure> {
    match st
    case DistributionUnavailable => Some(DistributionIndexUnavailable)
    case VerificationFailed => Some(FileVerificationFailed)
    case DownloadFailed => Some(FileDownloadFailed)
    case BuildFailed => Some(LaunchError)
    case RpcFailed => Some(LaunchError)
    case _ => None
  }

  function OptionToSeq<T>(x: Option<T>): seq<T> {
    if x.Some? then [x.value] else []
  }

  /** The labels of the repair phase. */
  function RepairTrace(o: LaunchOracles): seq<LaunchInfo> {
    [PleaseWait, ValidatingFileIntegrity]
    + (if o.verification.Some? && o.verification.value > 0 then [DownloadingFiles] else [])
    + (if FilesAreReady(o) then [PreparingToLaunch] else [])
  }

  /** The labels dlAsync writes to the launch button before it stops at each stage. */
  function InfoTrace(login: bool, o: LaunchOracles): seq<LaunchInfo> {
    var st := StageReached(login, o);
    if !st.Repairing() then [LoadingServerInfo]
    else if !st.ReachedBuild() then [LoadingServerInfo] + RepairTrace(o)
    else if !st.Built() then [LoadingServerInfo] + RepairTrace(o) + [LaunchingGame]
    else [LoadingServerInfo] + RepairTrace(o) + [LaunchingGame] + [DoneEnjoyServer]
  }

  /** dlAsync(login) (landing.js:422-605). */
  function LaunchAttempt(s: Suite, login: bool, o: LaunchOracles): Suite {
    var s1 := Label(s, LoadingServerInfo);
    match o.distribution
    case None => Fail(s1, DistributionIndexUnavailable)
    case Some(distro) =>
      if login && o.account.None? then s1
      else
        var s4 := Repair(s1, o);
        if !FilesAreReady(o) || !o.versionDataOk || !login then s4
        else Spawn(s4, o, distro)
  }

  /** The four ways one attempt can go, each as the composition of its phases. */
  lemma LaunchAttemptCases(s: Suite, login: bool, o: LaunchOracles)
    ensures var s1 := Label(s, LoadingServerInfo);
      var r := LaunchAttempt(s, login, o);
      && (o.distribution.None? ==> r == Fail(s1, DistributionIndexUnavailable))
      && (o.distribution.Some? && login && o.account.None? ==> r == s1)
      && (o.distribution.Some? && !(login && o.account.None?) ==>
            r == if FilesAreReady(o) && o.versionDataOk && login then Spawn(Repair(s1, o), o, o.distribution.value) else Repair(s1, o))
  {
  }

  /** Whether verification and, when needed, the download succeed. */
  predicate FilesAreReady(o: LaunchOracles) {
    o.verification.Some? && (o.verification.value > 0 ==> o.downloadOk)
  }

  /** The repair phase of dlAsync (landing.js:448-514): verify, download what is invalid, release the receiver. */
  function Repair(s: Suite, o: LaunchOracles): Suite {
    var s2 := Receiving(s);
    match o.verification
    case None => Fail(s2, FileVerificationFailed)
    case Some(invalid) =>
      if invalid > 0 && !o.downloadOk then Fail(Downloading(s2, o.downloadPercents), FileDownloadFailed)
      else FilesReady(s2, invalid, o.downloadPercents)
  }

  /** A failure dialog is raised. */
  function Fail(s: Suite, f: LaunchFailure): Suite {
    s.(screen := s.screen.(failures := s.screen.failures + [f]))
  }

  /** A repair receiver is spawned and file verification announced (landing.js:448-476). */
  function Receiving(s: Suite): Suite {
    Label(Label(s, PleaseWait).(openReceivers := s.openReceivers + 1), ValidatingFileIntegrity)
  }

  /** The download is announced and its progress reports shown (landing.js:491-498). */
  function Downloading(s: Suite, percents: seq<int>): Suite {
    s.(screen := s.screen.(info := s.screen.info + [DownloadingFiles], progress := s.screen.progress + percents))
  }

  /**
   * The files are ready (landing.js:490-514): the download, when there was
   * one, ends at 100, and the receiver is destroyed.
   */
  function FilesReady(s: Suite, invalid: nat, percents: seq<int>): Suite
    requires s.openReceivers > 0
  {
    var s3 := if invalid > 0 then Downloaded(Downloading(s, percents)) else s;
    Released(s3)
  }

  function Downloaded(s: Suite): Suite {
    s.(screen := s.screen.(progress := s.screen.progress + [100]))
  }

  function Released(s: Suite): Suite
    requires s.openReceivers > 0
  {
    Label(s.(openReceivers := s.openReceivers - 1), PreparingToLaunch)
  }

  /**
   * What the repair phase shows and leaves: its labels, the dialog of a
   * failed verification or download, the download percentages, and a
   * receiver left open unless the files got ready; nothing else changes.
   */
  lemma RepairShows(s: Suite, o: LaunchOracles)
    ensures var r := Repair(s, o);
      var downloads := o.verification.Some? && o.verification.value > 0;
      && r.screen.info == s.screen.info + RepairTrace(o)
      && r.screen.failures == s.screen.failures +
           (if o.verification.None? then [FileVerificationFailed] else if !FilesAreReady(o) then [FileDownloadFailed] else [])
      && r.screen.progress == s.screen.progress + (if downloads then o.downloadPercents + (if o.downloadOk then [100] else []) else [])
      && r.openReceivers == s.openReceivers + (if FilesAreReady(o) then 0 else 1)
      && r == s.(screen := r.screen, openReceivers := r.openReceivers)
  {
    RepairInfo(s, o);
    RepairProgress(s, o);
  }

  /** The labels of the repair phase, case by case. */
  lemma RepairInfo(s: Suite, o: LaunchOracles)
    ensures Repair(s, o).screen.info == s.screen.info + RepairTrace(o)
  {
    var pre := s.screen.info + [PleaseWait] + [ValidatingFileIntegrity];
    assert Receiving(s).screen.info == pre;
    match o.verification
    case None =>
      assert RepairTrace(o) == [PleaseWait, ValidatingFileIntegrity];
    case Some(invalid) =>
      if invalid > 0 && !o.downloadOk {
        assert Repair(s, o).screen.info == pre + [DownloadingFiles];
        assert RepairTrace(o) == [PleaseWait, ValidatingFileIntegrity, DownloadingFiles];
      } else if invalid > 0 {
        assert Repair(s, o).screen.info == pre + [DownloadingFiles] + [PreparingToLaunch];
        assert RepairTrace(o) == [PleaseWait, ValidatingFileIntegrity, DownloadingFiles, PreparingToLaunch];
      } else {
        assert Repair(s, o).screen.info == pre + [PreparingToLaunch];
        assert RepairTrace(o) == [PleaseWait, ValidatingFileIntegrity, PreparingToLaunch];
      }
  }

  /** The percentages of the repair phase, case by case. */
  lemma RepairProgress(s: Suite, o: LaunchOracles)
    ensures Repair(s, o).screen.progress == s.screen.progress +
      (if o.verification.Some? && o.verification.value > 0 then o.downloadPercents + (if o.downloadOk then [100] else []) else [])
  {
    match o.verification
    case None =>
    case Some(invalid) =>
      if invalid > 0 && o.downloadOk {
        assert Repair(s, o).screen.progress == s.screen.progress + o.downloadPercents + [100];
      }
  }

  /** What the login branch shows: its labels and the dialog of a failed build or Rich Presence start. */
  lemma SpawnShows(s: Suite, o: LaunchOracles, distro: DistroInfo)
    requires o.account.Some?
    ensures var r := Spawn(s, o, distro);
      && r.screen.info == s.screen.info + [LaunchingGame] + (if o.buildOk then [DoneEnjoyServer] else [])
      && r.screen.failures == s.screen.failures +
           (if !o.buildOk || (distro.distributionDiscord && distro.serverDiscord && !o.rpcOk) then [LaunchError] else [])
      && r.screen.progress == s.screen.progress && r.openReceivers == s.openReceivers
      && r.rpc.presence == s.rpc.presence && r.rpc.shutdowns == s.rpc.shutdowns
  {
  }

  /** The labels one attempt writes are those of the stages it passes. */
  lemma LaunchAttemptLabels(s: Suite, login: bool, o: LaunchOracles)
    ensures LaunchAttempt(s, login, o).screen.info == s.screen.info + InfoTrace(login, o)
  {
    var st := StageReached(login, o);
    LaunchAttemptCases(s, login, o);
    if st.Repairing() {
      var s1 := Label(s, LoadingServerInfo);
      RepairShows(s1, o);
      var rt := RepairTrace(o);
      ConcatAssoc(s.screen.info, [LoadingServerInfo], rt);
      if st.ReachedBuild() {
        SpawnShows(Repair(s1, o), o, o.distribution.value);
        ConcatAssoc(s.screen.info, [LoadingServerInfo] + rt, [LaunchingGame]);
        if st.Built() {
          ConcatAssoc(s.screen.info, [LoadingServerInfo] + rt + [LaunchingGame], [DoneEnjoyServer]);
        }
      }
    }
  }

  /** One attempt raises at most one failure dialog: that of the stage it stops at. */
  lemma LaunchAttemptFailures(s: Suite, login: bool, o: LaunchOracles)
    ensures LaunchAttempt(s, login, o).screen.failures == s.screen.failures + OptionToSeq(FailureOf(StageReached(login, o)))
  {
    var st := StageReached(login, o);
    LaunchAttemptCases(s, login, o);
    if o.distribution.Some? && !(login && o.account.None?) {
      var s1 := Label(s, LoadingServerInfo);
      RepairShows(s1, o);
      if FilesAreReady(o) && o.versionDataOk && login {
        SpawnShows(Repair(s1, o), o, o.distribution.value);
        assert st.ReachedBuild();
      } else if o.verification.None? {
        assert st == VerificationFailed;
      } else if !FilesAreReady(o) {
        assert st == DownloadFailed;
      } else {
        assert FailureOf(st) == None;
      }
    }
  }

  /**
   * One attempt shows the download percentages exactly when it downloads,
   * ending at 100 when the download resolves, and leaves Rich Presence alone.
   */
  lemma LaunchAttemptProgress(s: Suite, login: bool, o: LaunchOracles)
    ensures var r := LaunchAttempt(s, login, o);
      && r.screen.progress == s.screen.progress +
           (if DownloadAttempted(login, o) then o.downloadPercents + (if o.downloadOk then [100] else []) else [])
      && r.rpc.presence == s.rpc.presence && r.rpc.shutdowns == s.rpc.shutdowns
  {
    LaunchAttemptCases(s, login, o);
    if o.distribution.Some? && !(login && o.account.None?) {
      var s1 := Label(s, LoadingServerInfo);
      RepairShows(s1, o);
      if FilesAreReady(o) && o.versionDataOk && login {
        SpawnShows(Repair(s1, o), o, o.distribution.value);
      }
    }
  }

  /** Files are downloaded exactly when verification reports invalid ones. */
  lemma DownloadIffInvalidFiles(login: bool, o: LaunchOracles)
    ensures DownloadingFiles in InfoTrace(login, o) <==>
      StageReached(login, o).Repairing() && o.verification.Some? && o.verification.value > 0
  {
  }

  /**
   * The repair receiver is spawned once the account check passes and is
   * released only when the files are ready: a failed verification or
   * download leaves it open.
   */
  lemma ReceiverReleasedOnlyWhenReady(s: Suite, login: bool, o: LaunchOracles)
    ensures LaunchAttempt(s, login, o).openReceivers ==
      s.openReceivers + (if StageReached(login, o).RepairFailed() then 1 else 0)
  {
    LaunchAttemptCases(s, login, o);
    if o.distribution.Some? && !(login && o.account.None?) {
      var s1 := Label(s, LoadingServerInfo);
      RepairShows(s1, o);
      if FilesAreReady(o) && o.versionDataOk && login {
        SpawnShows(Repair(s1, o), o, o.distribution.value);
      }
    }
  }

  /** Without a selected account the attempt stops after its first label, with no dialog. */
  lemma NoAccountStopsSilently(s: Suite, o: LaunchOracles)
    requires o.distribution.Some? && o.account.None?
    ensures LaunchAttempt(s, true, o) == Label(s, LoadingServerInfo)
  {
  }

  /**
   * Only a built process gets fresh listeners, the 'Jouer' timer and the
   * attempt's launch time and name; otherwise the previous process, its
   * listeners and the launch time and name they read are left as they
   * were, as the source keeps these per launch. Rich Presence is switched on only by a launch that starts it.
   */
  lemma LaunchAttemptProcess(s: Suite, login: bool, o: LaunchOracles)
    ensures var r := LaunchAttempt(s, login, o);
      StageReached(login, o).Built() ==>
        r.proc.attached && r.proc.stdout == [TempListener] && r.proc.stderr == [GameErrorListener] &&
        r.timers == s.timers + [Timer(PlayRelabelDelay, ShowPlay)] &&
        r.start == o.now && r.player == o.account.value.displayName
    ensures var r := LaunchAttempt(s, login, o);
      !StageReached(login, o).Built() ==>
        r.proc.attached == s.proc.attached && r.proc.stdout == s.proc.stdout && r.proc.stderr == s.proc.stderr &&
        r.proc.closeHook == s.proc.closeHook && r.timers == s.timers &&
        r.start == s.start && r.player == s.player
    ensures LaunchAttempt(s, login, o).rpc.hasRPC <==> s.rpc.hasRPC || (StageReached(login, o) == Launched && RichPresenceConfigured(o))
    ensures LaunchAttempt(s, login, o).proc.closeHook <==>
      (if StageReached(login, o).Built() then StageReached(login, o) == Launched && RichPresenceConfigured(o) else s.proc.closeHook)
  {
    LaunchAttemptCases(s, login, o);
    if o.distribution.Some? && !(login && o.account.None?) {
      var s1 := Label(s, LoadingServerInfo);
      RepairShows(s1, o);
      if FilesAreReady(o) && o.versionDataOk && login {
        SpawnProcess(Repair(s1, o), o, o.distribution.value);
      }
    }
  }

  /** The process-related effects of the login branch. */
  lemma SpawnProcess(s: Suite, o: LaunchOracles, distro: DistroInfo)
    requires o.account.Some?
    ensures var r := Spawn(s, o, distro);
      && (o.buildOk ==>
            r.start == o.now && r.player == o.account.value.displayName &&
            r.proc.attached && r.proc.stdout == [TempListener] && r.proc.stderr == [GameErrorListener] &&
            r.timers == s.timers + [Timer(PlayRelabelDelay, ShowPlay)] &&
            (r.rpc.hasRPC <==> s.rpc.hasRPC || (distro.distributionDiscord && distro.serverDiscord && o.rpcOk)) &&
            (r.proc.closeHook <==> distro.distributionDiscord && distro.serverDiscord && o.rpcOk))
      && (!o.buildOk ==>
            r.proc.attached == s.proc.attached && r.proc.stdout == s.proc.stdout && r.proc.stderr == s.proc.stderr &&
            r.proc.closeHook == s.proc.closeHook && r.timers == s.timers && r.rpc.hasRPC == s.rpc.hasRPC &&
            r.start == s.start && r.player == s.player)
  {
  }

  /** The login branch of dlAsync once the files are ready (landing.js:522-603). */
  function Spawn(s: Suite, o: LaunchOracles, distro: DistroInfo): Suite
    requires o.account.Some?
  {
    var s1 := BeginLaunch(s);
    if !o.buildOk then Fail(s1, LaunchError)
    else
      var s2 := Attach(s1, o);
      if !(distro.distributionDiscord && distro.serverDiscord) then s2
      else if !o.rpcOk then Fail(s2, LaunchError)
      else RichPresenceOn(s2)
  }

  /** The launch is announced (landing.js:532). */
  function BeginLaunch(s: Suite): Suite {
    Label(s, LaunchingGame)
  }

  /**
   * The built process replaces `proc`, with the two launch listeners and the
   * 'Jouer' timer (landing.js:576-585). From now on the listeners in `proc`
   * are this attempt's closures, so the launch time and the display name
   * they read are this attempt's.
   */
  function Attach(s: Suite, o: LaunchOracles): Suite
    requires o.account.Some?
  {
    s.(proc := GameProcess(true, [TempListener], [GameErrorListener], false),
       timers := s.timers + [Timer(PlayRelabelDelay, ShowPlay)], screen := s.screen.(info := s.screen.info + [DoneEnjoyServer]),
       start := o.now, player := o.account.value.displayName)
  }

  /** Rich Presence started: `hasRPC` is set and the process gets its 'close' handler (landing.js:588-597). */
  function RichPresenceOn(s: Suite): Suite {
    s.(rpc := s.rpc.(hasRPC := true), proc := s.proc.(closeHook := true))
  }

  /** EventEmitter.removeListener: drops the most recently attached instance, if any. */
  function RemoveLast(ls: seq<Listener>, l: Listener): (r: seq<Listener>)
    ensures l in ls ==> |r| == |ls| - 1
    ensures l !in ls ==> r == ls
  {
    if ls == [] then []
    else if ls[|ls| - 1] == l then ls[..|ls| - 1]
    else RemoveLast(ls[..|ls| - 1], l) + [ls[|ls| - 1]]
  }

  /** removeListener takes away exactly one instance of the listener and keeps the others. */
  lemma {:induction false} RemoveLastMultiset(ls: seq<Listener>, l: Listener)
    ensures multiset(RemoveLast(ls, l)) == multiset(ls) - multiset{l}
  {
    if ls != [] {
      var init, last := ls[..|ls| - 1], ls[|ls| - 1];
      assert ls == init + [last];
      if last != l {
        RemoveLastMultiset(init, l);
      }
    }
  }

  /**
   * onLoadComplete (landing.js:537-545). With Rich Presence it announces
   * loading and attaches gameStateChange; then it detaches tempListener and
   * gameErrorListener. `proc` is read when it runs: once the Rich Presence
   * close handler has cleared it, the call throws at the first access.
   */
  function LoadComplete(s: Suite): (r: Suite)
    ensures r.rpc.presence == s.rpc.presence + (if s.rpc.hasRPC then [Loading] else [])
    ensures r.screen.failures == s.screen.failures && r.timers == s.timers && r.screen.info == s.screen.info
  {
    var s1 := if s.rpc.hasRPC then Announce(s, Loading) else s;
    if !s.proc.attached then s1
    else
      var out := if s.rpc.hasRPC then s.proc.stdout + [GameStateChange] else s.proc.stdout;
      s1.(proc := s1.proc.(stdout := RemoveLast(out, TempListener), stderr := RemoveLast(s.proc.stderr, GameErrorListener)))
  }

  /**
   * On a live process onLoadComplete attaches gameStateChange exactly when
   * Rich Presence runs and detaches one tempListener and one
   * gameErrorListener; once `proc` is cleared it detaches nothing.
   */
  lemma LoadCompleteListeners(s: Suite)
    ensures var r := LoadComplete(s);
      s.proc.attached ==>
        && multiset(r.proc.stdout) == multiset(s.proc.stdout) + (if s.rpc.hasRPC then multiset{GameStateChange} else multiset{}) - multiset{TempListener}
        && multiset(r.proc.stderr) == multiset(s.proc.stderr) - multiset{GameErrorListener}
    ensures var r := LoadComplete(s); !s.proc.attached ==> r.proc.stdout == s.proc.stdout && r.proc.stderr == s.proc.stderr
  {
    if s.proc.attached {
      var out := if s.rpc.hasRPC then s.proc.stdout + [GameStateChange] else s.proc.stdout;
      RemoveLastMultiset(out, TempListener);
      RemoveLastMultiset(s.proc.stderr, GameErrorListener);
    }
  }

  /**
   * tempListener (landing.js:548-557): on the loader's launch banner,
   * onLoadComplete runs at once if MIN_LINGER has passed since the launch,
   * and otherwise is scheduled for when it will have.
   */
  function TempStep(s: Suite, chunk: string, now: int): Suite {
    if IsLaunchBanner(Trim(chunk)) then
      var diff := now - s.start;
      if diff < MinLinger then s.(timers := s.timers + [Timer(MinLinger - diff, CompleteLoad)])
      else LoadComplete(s)
    else s
  }

  /**
   * A chunk that is not a banner changes nothing; an early banner schedules
   * completion for when MIN_LINGER will have passed; a late one completes
   * loading.
   */
  lemma TempStepSpec(s: Suite, chunk: string, now: int)
    ensures var r := TempStep(s, chunk, now);
      && (!IsLaunchBanner(Trim(chunk)) ==> r == s)
      && (IsLaunchBanner(Trim(chunk)) && now - s.start < MinLinger ==>
            r == s.(timers := s.timers + [Timer(MinLinger - (now - s.start), CompleteLoad)]))
      && (IsLaunchBanner(Trim(chunk)) && now - s.start >= MinLinger ==> r == LoadComplete(s))
  {
  }

  /** gameStateChange (landing.js:559-566): the join announcement wins over the sound engine line. */
  function GameStateStep(s: Suite, chunk: string): Suite {
    match ClassifyGameState(s.player, chunk)
    case Some(p) => Announce(s, p)
    case None => s
  }

  /** Only the presence changes: Joined on the player's join line, else Joining on the sound engine line. */
  lemma GameStateStepSpec(s: Suite, chunk: string)
    ensures var r := GameStateStep(s, chunk);
      && (IsServerJoined(s.player, Trim(chunk)) ==> r.rpc.presence == s.rpc.presence + [Joined])
      && (!IsServerJoined(s.player, Trim(chunk)) && IsSoundEngineStarted(Trim(chunk)) ==>
            r.rpc.presence == s.rpc.presence + [Joining])
      && (!IsServerJoined(s.player, Trim(chunk)) && !IsSoundEngineStarted(Trim(chunk)) ==> r == s)
      && r == s.(rpc := s.rpc.(presence := r.rpc.presence))
  {
    ClassifyGameStateIff(s.player, chunk);
  }

  /** gameErrorListener (landing.js:568-574): every matching chunk raises the dialog again. */
  function GameErrorStep(s: Suite, chunk: string): Suite {
    if IsLaunchWrapperFailure(chunk) then Fail(s, LaunchWrapperNotDownloaded) else s
  }

  /** Only the failures change: one more LaunchWrapper dialog for each chunk whose trimmed text names the class. */
  lemma GameErrorStepSpec(s: Suite, chunk: string)
    ensures var r := GameErrorStep(s, chunk);
      && r.screen.failures == s.screen.failures + (if Contains(Trim(chunk), LaunchWrapperMissing) then [LaunchWrapperNotDownloaded] else [])
      && r == s.(screen := s.screen.(failures := r.screen.failures))
  {
  }

  function Apply(s: Suite, l: Listener, chunk: string, now: int): Suite {
    match l
    case TempListener => TempStep(s, chunk, now)
    case GameStateChange => GameStateStep(s, chunk)
    case GameErrorListener => GameErrorStep(s, chunk)
  }

  /**
   * Emitting a 'data' chunk: every listener attached when the emission
   * starts runs, in attachment order, even one an earlier listener detaches.
   */
  function Dispatch(s: Suite, ls: seq<Listener>, chunk: string, now: int): Suite
    decreases |ls|
  {
    if ls == [] then s else Apply(Dispatch(s, ls[..|ls| - 1], chunk, now), ls[|ls| - 1], chunk, now)
  }

  /** Dispatching one more listener of `ls` runs it on what the earlier ones left. */
  lemma DispatchNext(s: Suite, ls: seq<Listener>, i: nat, chunk: string, now: int)
    requires i < |ls|
    ensures Dispatch(s, ls[..i + 1], chunk, now) == Apply(Dispatch(s, ls[..i], chunk, now), ls[i], chunk, now)
  {
    assert ls[..i + 1][..i] == ls[..i];
  }

  /**
   * Emitting to the listeners `a + b` runs `a` first and then `b` on what
   * `a` left: each listener sees the state its predecessors produced, in
   * attachment order.
   */
  lemma {:induction false} DispatchConcat(s: Suite, a: seq<Listener>, b: seq<Listener>, chunk: string, now: int)
    ensures Dispatch(s, a + b, chunk, now) == Dispatch(Dispatch(s, a, chunk, now), b, chunk, now)
    decreases |b|
  {
    if b == [] {
      assert a + b == a;
    } else {
      var init := b[..|b| - 1];
      assert (a + b)[..|a + b| - 1] == a + init;
      assert (a + b)[|a + b| - 1] == b[|b| - 1];
      DispatchConcat(s, a, init, chunk, now);
    }
  }

  /** A timer firing: the k-th pending timer runs its action and is no longer pending. */
  function FireTimer(s: Suite, k: nat): (r: Suite)
    ensures k >= |s.timers| ==> r == s
    ensures k < |s.timers| ==> |r.timers| == |s.timers| - 1
    // exactly the k-th timer goes; the others stay pending in their order
    ensures k < |s.timers| ==> r.timers == s.timers[..k] + s.timers[k + 1..]
    ensures k < |s.timers| && s.timers[k].action == ShowPlay ==> r.screen.info == s.screen.info + [Play]
  {
    if k >= |s.timers| then s
    else
      var s1 := s.(timers := s.timers[..k] + s.timers[k + 1..]);
      match s.timers[k].action
      case ShowPlay => Label(s1, Play)
      case CompleteLoad => LoadComplete(s1)
  }

  /** The game process closing (landing.js:590-595): Rich Presence is shut down once and `proc` is cleared. */
  function ProcClosed(s: Suite): (r: Suite)
    ensures r.rpc.shutdowns == s.rpc.shutdowns + (if s.proc.closeHook then 1 else 0)
    ensures s.proc.closeHook ==> !r.rpc.hasRPC && !r.proc.attached && !r.proc.closeHook
    ensures !s.proc.closeHook ==> r == s
  {
    if s.proc.closeHook then
      s.(rpc := s.rpc.(shutdowns := s.rpc.shutdowns + 1, hasRPC := false), proc := s.proc.(attached := false, closeHook := false))
    else s
  }

  /** What the repair child process reports: an 'error' event, or 'close' with its exit code (None for a signal). */
  datatype RepairEvent = Errored | Closed(code: Option<int>)

  /** The repair child's handlers (landing.js:463-472): an error, or any exit other than code 0, raises a failure. */
  function RepairChildEvent(s: Suite, e: RepairEvent): (r: Suite)
    ensures |r.screen.failures| == |s.screen.failures| + (if e == Closed(Some(0)) then 0 else 1)
    ensures r == s.(screen := s.screen.(failures := r.screen.failures))
    ensures e == Errored ==> r.screen.failures == s.screen.failures + [RepairProcessError]
  {
    match e
    case Errored => Fail(s, RepairProcessError)
    case Closed(code) => if code != Some(0) then Fail(s, RepairProcessExit) else s
  }

  // ---------------------------------------------------------------------
  // Properties of a launch, across several events

  /** The listeners of a freshly launched game. */
  predicate JustLaunched(s: Suite) {
    s.proc.attached && s.proc.stdout == [TempListener] && s.proc.stderr == [GameErrorListener]
  }

  /** Emitting to a single listener runs just that listener. */
  lemma DispatchOne(s: Suite, l: Listener, chunk: string, now: int)
    ensures Dispatch(s, [l], chunk, now) == Apply(s, l, chunk, now)
  {
    assert [l][..0] == [];
  }

  /** What loading completion leaves behind on a freshly launched game. */
  predicate LoadedFrom(s: Suite, r: Suite) {
    && r.proc.stdout == (if s.rpc.hasRPC then [GameStateChange] else [])
    && r.proc.stderr == []
    && r.rpc.presence == s.rpc.presence + (if s.rpc.hasRPC then [Loading] else [])
    && r.screen.failures == s.screen.failures && r.player == s.player
  }

  lemma {:induction false} LoadCompleteOnFreshLaunch(s: Suite)
    requires JustLaunched(s)
    ensures LoadedFrom(s, LoadComplete(s))
  {
    var s1 := if s.rpc.hasRPC then Announce(s, Loading) else s;
    var s2 := if s.rpc.hasRPC then s1.(proc := s1.proc.(stdout := s1.proc.stdout + [GameStateChange])) else s1;
    if s.rpc.hasRPC {
      assert s2.proc.stdout == [TempListener, GameStateChange];
      assert s2.proc.stdout[..1] == [TempListener];
      assert RemoveLast(s2.proc.stdout, TempListener) == RemoveLast([TempListener], TempListener) + [GameStateChange];
    }
  }

  /** A launch banner seen once MIN_LINGER has passed completes loading at once. */
  lemma LateBannerCompletesLoad(s: Suite, chunk: string, now: int)
    requires JustLaunched(s) && IsLaunchBanner(Trim(chunk)) && now - s.start >= MinLinger
    ensures LoadedFrom(s, Dispatch(s, s.proc.stdout, chunk, now))
  {
    DispatchOne(s, TempListener, chunk, now);
    LoadCompleteOnFreshLaunch(s);
  }

  /**
   * A launch banner seen earlier schedules completion for exactly MIN_LINGER
   * after the launch, and that timer completes loading when it fires.
   */
  lemma EarlyBannerWaitsForLinger(s: Suite, chunk: string, now: int)
    requires JustLaunched(s) && IsLaunchBanner(Trim(chunk)) && now - s.start < MinLinger
    ensures var r := Dispatch(s, s.proc.stdout, chunk, now);
      && |r.timers| == |s.timers| + 1
      && now + r.timers[|s.timers|].delay == s.start + MinLinger
      && LoadedFrom(s, FireTimer(r, |s.timers|))
  {
    DispatchOne(s, TempListener, chunk, now);
    var t := Timer(MinLinger - (now - s.start), CompleteLoad);
    var r := s.(timers := s.timers + [t]);
    assert Dispatch(s, s.proc.stdout, chunk, now) == r;
    FireScheduled(s, t);
    LoadCompleteOnFreshLaunch(s);
  }

  /** Firing the timer just scheduled runs its action on the suite as it was before scheduling. */
  lemma FireScheduled(s: Suite, t: Timer)
    requires t.action == CompleteLoad
    ensures FireTimer(s.(timers := s.timers + [t]), |s.timers|) == LoadComplete(s)
  {
    var ts := s.timers + [t];
    assert ts[..|s.timers|] + ts[|s.timers| + 1..] == s.timers;
    assert s.(timers := s.timers + [t]).(timers := s.timers) == s;
  }

  /** Until loading completes, every chunk naming the missing LaunchWrapper class raises the dialog again. */
  lemma WrapperFailureReportedEachTime(s: Suite, chunk: string, now: int)
    requires JustLaunched(s) && IsLaunchWrapperFailure(chunk)
    ensures var once := Dispatch(s, s.proc.stderr, chunk, now);
      Dispatch(once, once.proc.stderr, chunk, now).screen.failures == s.screen.failures + [LaunchWrapperNotDownloaded, LaunchWrapperNotDownloaded]
  {
    DispatchOne(s, GameErrorListener, chunk, now);
    var once := Fail(s, LaunchWrapperNotDownloaded);
    assert Dispatch(s, s.proc.stderr, chunk, now) == once;
    DispatchOne(once, GameErrorListener, chunk, now);
  }

  /** Once loading has completed, stderr is no longer watched: no chunk raises the LaunchWrapper dialog. */
  lemma NoWrapperDialogAfterLoad(s: Suite, chunk: string, now: int)
    requires JustLaunched(s)
    ensures var r := LoadComplete(s); Dispatch(r, r.proc.stderr, chunk, now) == r
  {
    LoadCompleteOnFreshLaunch(s);
  }

  /** After loading with Rich Presence, the player's own join announcement shows as joined. */
  lemma JoinShownAfterLoad(s: Suite, tag: string, now: int)
    requires JustLaunched(s) && s.rpc.hasRPC
    requires tag != [] && NoLineTerminator(tag)
    ensures var r := LoadComplete(s);
      var line := Tagged(tag, "[CHAT] " + s.player + " joined the game");
      Dispatch(r, r.proc.stdout, line, now).rpc.presence == s.rpc.presence + [Loading, Joined]
  {
    var r := LoadComplete(s);
    LoadCompleteOnFreshLaunch(s);
    var line := Tagged(tag, "[CHAT] " + s.player + " joined the game");
    OwnJoinRecognised(tag, s.player);
    JoinedStep(r, line, now);
  }

  /** A chunk classified as the join announcement, emitted to a stdout watched only by gameStateChange. */
  lemma JoinedStep(r: Suite, line: string, now: int)
    requires r.proc.stdout == [GameStateChange] && ClassifyGameState(r.player, line) == Some(Joined)
    ensures Dispatch(r, r.proc.stdout, line, now).rpc.presence == r.rpc.presence + [Joined]
  {
    DispatchOne(r, GameStateChange, line, now);
  }

  /** Rich Presence is shut down at most once per launch: a second close event changes nothing. */
  lemma ShutdownOnce(s: Suite)
    ensures ProcClosed(ProcClosed(s)) == ProcClosed(s)
    ensures ProcClosed(ProcClosed(s)).rpc.shutdowns <= s.rpc.shutdowns + 1
  {
  }

  // ---------------------------------------------------------------------
  // The launcher's state, updated in place

  datatype Stream = Stdout | Stderr

  class Launcher {
    var screen: Screen
    var openReceivers: nat
    var proc: GameProcess
    var rpc: RichPresence
    var timers: seq<Timer>
    var start: int
    var player: string

    function Snapshot(): Suite
      reads this
    {
      Suite(screen, openReceivers, proc, rpc, timers, start, player)
    }

    /** The landing screen before any launch: no process, no Rich Presence. */
    constructor ()
      ensures Snapshot() == Suite(Screen([], [], []), 0, GameProcess(false, [], [], false), RichPresence(false, [], 0), [], 0, "")
    {
      screen, openReceivers := Screen([], [], []), 0;
      proc, rpc := GameProcess(false, [], [], false), RichPresence(false, [], 0);
      timers, start, player := [], 0, "";
    }

    method DlAsync(login: bool, o: LaunchOracles)
      modifies this
      ensures Snapshot() == LaunchAttempt(old(Snapshot()), login, o)
    {
      SetLabel(LoadingServerInfo);
      if o.distribution.None? {
        RaiseFailure(DistributionIndexUnavailable);
        return;
      }
      var distro := o.distribution.value;
      if login && o.account.None? {
        return;
      }
      var ready := RepairFiles(o);
      if !ready || !o.versionDataOk {
        return;
      }
      if login {
        LaunchGame(o, distro);
      }
    }

    /** setLaunchInfo. */
    method SetLabel(l: LaunchInfo)
      modifies this
      ensures Snapshot() == Label(old(Snapshot()), l)
    {
      screen := screen.(info := screen.info + [l]);
    }

    /** The repair phase; `ready` says whether dlAsync goes on. */
    method RepairFiles(o: LaunchOracles) returns (ready: bool)
      modifies this
      ensures ready == FilesAreReady(o)
      ensures Snapshot() == Repair(old(Snapshot()), o)
    {
      SetLabel(PleaseWait);
      openReceivers := openReceivers + 1;
      SetLabel(ValidatingFileIntegrity);
      if o.verification.None? {
        RaiseFailure(FileVerificationFailed);
        return false;
      }
      var invalidFileCount := o.verification.value;
      if invalidFileCount > 0 {
        screen := screen.(info := screen.info + [DownloadingFiles], progress := screen.progress + o.downloadPercents);
        if !o.downloadOk {
          RaiseFailure(FileDownloadFailed);
          return false;
        }
        screen := screen.(progress := screen.progress + [100]);
      }
      openReceivers := openReceivers - 1;
      SetLabel(PreparingToLaunch);
      return true;
    }

    method RaiseFailure(f: LaunchFailure)
      modifies this
      ensures Snapshot() == Fail(old(Snapshot()), f)
    {
      screen := screen.(failures := screen.failures + [f]);
    }

    /** The login branch of dlAsync once the files are ready (landing.js:522-603). */
    method LaunchGame(o: LaunchOracles, distro: DistroInfo)
      requires o.account.Some?
      modifies this
      ensures Snapshot() == Spawn(old(Snapshot()), o, distro)
    {
      SetLabel(LaunchingGame);
      if !o.buildOk {
        RaiseFailure(LaunchError);
        return;
      }
      proc := GameProcess(true, [TempListener], [GameErrorListener], false);
      start := o.now;
      player := o.account.value.displayName;
      timers := timers + [Timer(PlayRelabelDelay, ShowPlay)];
      SetLabel(DoneEnjoyServer);
      if distro.distributionDiscord && distro.serverDiscord {
        if !o.rpcOk {
          RaiseFailure(LaunchError);
          return;
        }
        rpc := rpc.(hasRPC := true);
        proc := proc.(closeHook := true);
      }
    }

    method OnLoadComplete()
      modifies this
      ensures Snapshot() == LoadComplete(old(Snapshot()))
    {
      if rpc.hasRPC {
        rpc := rpc.(presence := rpc.presence + [Loading]);
      }
      if !proc.attached {
        return;
      }
      if rpc.hasRPC {
        proc := proc.(stdout := proc.stdout + [GameStateChange]);
      }
      proc := proc.(stdout := RemoveLast(proc.stdout, TempListener));
      proc := proc.(stderr := RemoveLast(proc.stderr, GameErrorListener));
    }

    /** tempListener (landing.js:548-557). */
    method OnTempListener(chunk: string, now: int)
      modifies this
      ensures Snapshot() == TempStep(old(Snapshot()), chunk, now)
    {
      TempStepSpec(Snapshot(), chunk, now);
      if IsLaunchBanner(Trim(chunk)) {
        var diff := now - start;
        if diff < MinLinger {
          timers := timers + [Timer(MinLinger - diff, CompleteLoad)];
        } else {
          OnLoadComplete();
        }
      }
    }

    /** gameStateChange (landing.js:559-566). */
    method OnGameStateChange(chunk: string)
      modifies this
      ensures Snapshot() == GameStateStep(old(Snapshot()), chunk)
    {
      var p := ClassifyGameState(player, chunk);
      if p.Some? {
        rpc := rpc.(presence := rpc.presence + [p.value]);
      }
    }

    /** gameErrorListener (landing.js:568-574). */
    method OnGameErrorListener(chunk: string)
      modifies this
      ensures Snapshot() == GameErrorStep(old(Snapshot()), chunk)
    {
      if IsLaunchWrapperFailure(chunk) {
        RaiseFailure(LaunchWrapperNotDownloaded);
      }
    }

    method RunListener(l: Listener, chunk: string, now: int)
      modifies this
      ensures Snapshot() == Apply(old(Snapshot()), l, chunk, now)
    {
      match l
      case TempListener => OnTempListener(chunk, now);
      case GameStateChange => OnGameStateChange(chunk);
      case GameErrorListener => OnGameErrorListener(chunk);
    }

    /** The game writes a chunk to one of its streams. */
    method Emit(stream: Stream, chunk: string, now: int)
      modifies this
      ensures Snapshot() == Dispatch(old(Snapshot()), if stream == Stdout then old(proc.stdout) else old(proc.stderr), chunk, now)
    {
      var listeners := if stream == Stdout then proc.stdout else proc.stderr;
      ghost var s0 := Snapshot();
      var i := 0;
      while i < |listeners|
        invariant 0 <= i <= |listeners|
        invariant Snapshot() == Dispatch(s0, listeners[..i], chunk, now)
      {
        RunListener(listeners[i], chunk, now);
        DispatchNext(s0, listeners, i, chunk, now);
        i := i + 1;
      }
      assert listeners[..|listeners|] == listeners;
    }

    method OnTimer(k: nat)
      modifies this
      ensures Snapshot() == FireTimer(old(Snapshot()), k)
    {
      if k >= |timers| {
        return;
      }
      var action := timers[k].action;
      timers := timers[..k] + timers[k + 1..];
      match action
      case ShowPlay => SetLabel(Play);
      case CompleteLoad => OnLoadComplete();
    }

    method OnProcClose()
      modifies this
      ensures Snapshot() == ProcClosed(old(Snapshot()))
    {
      if proc.closeHook {
        rpc := rpc.(shutdowns := rpc.shutdowns + 1, hasRPC := false);
        proc := proc.(attached := false, closeHook := false);
      }
    }

    method OnRepairEvent(e: RepairEvent)
      modifies this
      ensures Snapshot() == RepairChildEvent(old(Snapshot()), e)
    {
      match e
      case Errored => RaiseFailure(RepairProcessError);
      case Closed(code) =>
        if code != Some(0) {
          RaiseFailure(RepairProcessExit);
        }
    }
  }
}
