/**
 * The QR-scanner controller (components/qr-scanner.tsx).
 *
 * Each async handler is split at its `await`s into methods that run one
 * uninterrupted segment, so any interleaving of handlers is a sequence of
 * method calls. What the camera and decoding library do (getUserMedia, the
 * html5-qrcode import, constructor, `start` and `stop`) arrives as method
 * parameters. Every html5-qrcode instance the component ever creates is an
 * entry of `devices`; `scannerRef` is an index into it.
 */
module QrScanner {
  import opened Wrappers
  import Text

  // ------------------------------------------------------------- messages

  const ProbeDeniedMessage := "Camera permission denied. Please allow camera access to scan QR codes."
  const StartDeniedMessage := "Camera permission denied. Please allow camera access."
  const NoCameraMessage := "No camera found on this device."
  const UnsupportedMessage := "Camera not supported on this device."
  const StartFailedMessage := "Failed to start camera."

  /** The error names that `startScanner` reports with a specific message. */
  predicate KnownStartError(name: string) {
    name == "NotAllowedError" || name == "NotFoundError" || name == "NotSupportedError"
  }

  /** The message set when starting throws an error with this `name`. */
  function StartErrorMessage(name: string): string {
    if name == "NotAllowedError" then StartDeniedMessage
    else if name == "NotFoundError" then NoCameraMessage
    else if name == "NotSupportedError" then UnsupportedMessage
    else StartFailedMessage
  }

  /**
   * Each known error name gets a message of its own; every other name gets the
   * generic message, so two names share a message exactly when they are equal
   * or both unknown.
   */
  lemma StartErrorIdentifiesCause(a: string, b: string)
    ensures StartErrorMessage(a) == StartFailedMessage <==> !KnownStartError(a)
    ensures StartErrorMessage(a) == StartErrorMessage(b) <==> a == b || (!KnownStartError(a) && !KnownStartError(b))
  {
  }

  // ------------------------------------------------------ per-frame misses

  /** The per-frame failure callback logs a message unless it is one of the routine "no code in view" misses. */
  predicate LogsFrameError(message: string) {
    !Text.Contains(message, "No MultiFormat Readers")
    && !Text.Contains(message, "QR code not found")
    && !Text.Contains(message, "NotFoundException")
  }

  /**
   * A message in which one of the routine miss texts occurs is never logged,
   * and a message shorter than all of them always is.
   */
  lemma FrameErrorFilter(message: string, i: int)
    ensures Text.OccursAt(message, "NotFoundException", i) ==> !LogsFrameError(message)
    ensures Text.OccursAt(message, "QR code not found", i) ==> !LogsFrameError(message)
    ensures Text.OccursAt(message, "No MultiFormat Readers", i) ==> !LogsFrameError(message)
    ensures |message| < 17 ==> LogsFrameError(message)
  {
    Text.ContainsIffOccurs(message, "NotFoundException");
    Text.ContainsIffOccurs(message, "QR code not found");
    Text.ContainsIffOccurs(message, "No MultiFormat Readers");
    if |message| < 17 {
      Text.ContainsNotLonger(message, "NotFoundException");
      Text.ContainsNotLonger(message, "QR code not found");
      Text.ContainsNotLonger(message, "No MultiFormat Readers");
    }
  }

  // ------------------------------------------------------------ demo scan

  const MockPrefix := "PLASTIC-QR-2025-"

  /**
   * The demo code for the random number `n` (0 to 9998): the fixed prefix and
   * `n` zero-padded to four digits, 20 characters in all, whose last four
   * read back as `n`.
   */
  function MockCode(n: nat): (code: string)
    requires n <= 9998
    ensures |code| == 20 && code[..16] == MockPrefix
    ensures Text.AllDigits(code[16..]) && Text.ParseDigits(code[16..]) == n
  {
    var digits := Text.NatToString(n);
    Text.NatToStringLength(n, 4);
    Text.ParseNatToString(n);
    var padded := Text.PadStartZeros(digits, 4);
    assert padded == Text.Zeros(4 - |digits|) + digits by {
      if |digits| == 4 {
        assert Text.Zeros(0) == [];
      }
    }
    Text.ParseLeadingZeros(4 - |digits|, digits);
    var code := MockPrefix + padded;
    assert code[16..] == padded;
    code
  }

  // ------------------------------------------------------------ the view

  datatype Control = StartButton | StopButton

  /** Which of the three renderings the component returns, and what the camera panel holds. */
  datatype Screen =
    | CheckingPermissions
    | CameraAccessRequired
    | CameraPanel(placeholder: bool, error: Option<string>, control: Control, controlDisabled: bool, aimingHint: bool)

  function ScreenFor(hasPermission: Option<bool>, isScanning: bool, error: Option<string>, cleaningUp: bool): Screen {
    if hasPermission.None? then CheckingPermissions
    else if hasPermission == Some(false) then CameraAccessRequired
    else CameraPanel(!isScanning, error, if isScanning then StopButton else StartButton, cleaningUp, isScanning)
  }

  /** `containerRef` is attached only while the camera panel is rendered. */
  predicate ContainerMounted(hasPermission: Option<bool>) {
    hasPermission == Some(true)
  }

  /** The guard at the top of `startScanner`. */
  predicate StartAdmitted(hasPermission: Option<bool>, isScanning: bool) {
    ContainerMounted(hasPermission) && hasPermission != Some(false) && !isScanning
  }

  /**
   * The Start button is on screen exactly in the states whose start passes the
   * guard; an error is only ever displayed inside the camera panel.
   */
  lemma StartOfferedIffAdmitted(hasPermission: Option<bool>, isScanning: bool, error: Option<string>, cleaningUp: bool)
    ensures var screen := ScreenFor(hasPermission, isScanning, error, cleaningUp);
      (screen.CameraPanel? && screen.control == StartButton) <==> StartAdmitted(hasPermission, isScanning)
    ensures var screen := ScreenFor(hasPermission, isScanning, error, cleaningUp);
      screen.CameraPanel? <==> ContainerMounted(hasPermission)
  {
    var screen := ScreenFor(hasPermission, isScanning, error, cleaningUp);
    match hasPermission
    case None =>
    case Some(granted) =>
      if granted {
        assert screen.CameraPanel?;
      } else {
        assert screen == CameraAccessRequired;
      }
  }

  // ------------------------------------------------------------- the class

  /** The life of one html5-qrcode instance. */
  datatype Device = Starting | Running | Stopped | FailedToStart

  /** How a call into the library settled. */
  datatype Outcome = Resolved | Threw(name: string)

  /** The error name that ends the segment after the 100 ms wait, if any. */
  function LaunchFailure(imported: Outcome, mounted: bool, constructed: Outcome): Option<string> {
    if imported.Threw? then Some(imported.name)
    else if !mounted then Some("TypeError")  // containerRef.current.querySelector on null
    else if constructed.Threw? then Some(constructed.name)
    else None
  }

  /** Stops every track of a probe stream (`stream.getTracks().forEach(track => track.stop())`). */
  method StopTracks(live: array<bool>)
    modifies live
    ensures forall i :: 0 <= i < live.Length ==> !live[i]
  {
    var i := 0;
    while i < live.Length
      invariant 0 <= i <= live.Length
      invariant forall k :: 0 <= k < i ==> !live[k]
    {
      live[i] := false;
      i := i + 1;
    }
  }

  class Scanner {
    // React state
    var hasPermission: Option<bool>
    var isScanning: bool
    var error: Option<string>
    // refs
    var scannerRef: Option<nat>
    var isCleaningUp: bool
    // the library's instances, and where suspended handlers wait
    var devices: seq<Device>
    var stopping: Option<nat>          // the instance whose stop() a suspended cleanup awaits
    var startAwaitingCleanup: bool     // a start waits at line 80 for that cleanup
    var startsAwaitingLaunch: nat      // starts waiting out the 100 ms delay and the import
    // what reaches the outside
    var scans: seq<string>             // arguments of onScan, in order
    var frameLog: seq<string>          // per-frame messages passed to console.warn

    ghost predicate Valid()
      reads this
    {
      && (scannerRef.Some? ==> scannerRef.value < |devices|)
      && (stopping.Some? ==> stopping.value < |devices|)
      && (isCleaningUp <==> stopping.Some?)
      && (startAwaitingCleanup ==> isCleaningUp)
    }

    /** The component as first rendered; the mount effect's probe completes in FinishPermissionProbe. */
    constructor ()
      ensures Valid()
      ensures hasPermission == None && !isScanning && error == None
      ensures scannerRef == None && !isCleaningUp && devices == [] && stopping == None
      ensures !startAwaitingCleanup && startsAwaitingLaunch == 0 && scans == [] && frameLog == []
    {
      hasPermission, isScanning, error := None, false, None;
      scannerRef, isCleaningUp := None, false;
      devices, stopping := [], None;
      startAwaitingCleanup, startsAwaitingLaunch := false, 0;
      scans, frameLog := [], [];
    }

    function View(): Screen
      reads this
    {
      ScreenFor(hasPermission, isScanning, error, isCleaningUp)
    }

    /** The instance in `scannerRef` reports `isScanning`, so cleanup must await its stop(). */
    predicate MustStopDevice()
      reads this
    {
      scannerRef.Some? && scannerRef.value < |devices| && devices[scannerRef.value] == Running
    }

    /**
     * What the synchronous part of `cleanupScanner` does: nothing when a
     * cleanup is already in progress; otherwise it either suspends on the
     * current instance's stop(), or clears the handle and ends with the flag
     * cleared and `isScanning` false.
     */
    twostate predicate CleanupBegun(proceeded: bool)
      reads this
    {
      && proceeded == !old(isCleaningUp)
      && (!proceeded ==>
            isCleaningUp && stopping == old(stopping) && scannerRef == old(scannerRef) && isScanning == old(isScanning))
      && (proceeded && old(MustStopDevice()) ==>
            isCleaningUp && stopping == old(scannerRef) && scannerRef == old(scannerRef) && isScanning == old(isScanning))
      && (proceeded && !old(MustStopDevice()) ==>
            !isCleaningUp && stopping == None && scannerRef == None && !isScanning)
    }

    /** `cleanupScanner`, up to its `await` (lines 31-44, or through the `finally` at 56-59 when nothing is awaited). */
    method Cleanup() returns (proceeded: bool)
      requires Valid()
      modifies this`isCleaningUp, this`stopping, this`scannerRef, this`isScanning
      ensures Valid() && CleanupBegun(proceeded)
      ensures !proceeded ==> unchanged(this)
    {
      if isCleaningUp {
        return false;
      }
      isCleaningUp := true;
      if MustStopDevice() {
        stopping := scannerRef;
        return true;
      }
      scannerRef := None;
      isCleaningUp := false;
      isScanning := false;
      return true;
    }

    /**
     * The rest of `cleanupScanner` once the awaited stop() settles. A resolved
     * stop releases that instance and clears `scannerRef`, whatever instance it
     * holds by now; a rejected stop skips the clearing. Either way the flag is
     * cleared and `isScanning` becomes false, and a start waiting on this
     * cleanup moves on to its delay.
     */
    method FinishCleanup(stop: Outcome)
      requires Valid() && isCleaningUp
      modifies this`devices, this`scannerRef, this`isCleaningUp, this`stopping, this`isScanning
      modifies this`startAwaitingCleanup, this`startsAwaitingLaunch
      ensures Valid()
      ensures devices == if stop.Resolved? then old(devices)[old(stopping).value := Stopped] else old(devices)
      ensures scannerRef == if stop.Resolved? then None else old(scannerRef)
      ensures !isCleaningUp && stopping == None && !isScanning
      ensures !startAwaitingCleanup
      ensures startsAwaitingLaunch == old(startsAwaitingLaunch) + if old(startAwaitingCleanup) then 1 else 0
    {
      if stop.Resolved? {
        devices := devices[stopping.value := Stopped];
        scannerRef := None;
      }
      isCleaningUp := false;
      stopping := None;
      isScanning := false;
      if startAwaitingCleanup {
        startAwaitingCleanup := false;
        startsAwaitingLaunch := startsAwaitingLaunch + 1;
      }
    }

    /** `stopScanner`: the Stop button, and the decode callback's way out. */
    method StopScanner() returns (proceeded: bool)
      requires Valid()
      modifies this`isCleaningUp, this`stopping, this`scannerRef, this`isScanning
      ensures Valid() && CleanupBegun(proceeded)
      ensures !proceeded ==> unchanged(this)
    {
      proceeded := Cleanup();
    }

    /**
     * `checkCameraPermissions` once getUserMedia settles: with a stream, every
     * probe track is stopped and permission is granted, leaving any earlier
     * error in place; without one, permission is denied with its message.
     */
    method FinishPermissionProbe(stream: Option<array<bool>>)
      requires Valid()
      modifies this`hasPermission, this`error, if stream.Some? then {stream.value} else {}
      ensures Valid()
      ensures stream.Some? ==> hasPermission == Some(true) && error == old(error)
      ensures stream.Some? ==> forall i :: 0 <= i < stream.value.Length ==> !stream.value[i]
      ensures stream.None? ==> hasPermission == Some(false) && error == Some(ProbeDeniedMessage)
    {
      if stream.Some? {
        StopTracks(stream.value);
        hasPermission := Some(true);
      } else {
        hasPermission := Some(false);
        error := Some(ProbeDeniedMessage);
      }
    }

    /**
     * `startScanner` up to `await cleanupScanner()` (lines 73-80). The guard
     * reads only the container, the permission and `isScanning`: when it fails
     * nothing changes, not even `error`. Past the guard the error is cleared
     * and a cleanup begins; if that cleanup suspends, this start waits for it,
     * and otherwise (including when another cleanup is already running and
     * this one returns at once) it goes straight on to its delay.
     */
    method StartScanner() returns (admitted: bool)
      requires Valid()
      modifies this`error, this`isCleaningUp, this`stopping, this`scannerRef, this`isScanning
      modifies this`startAwaitingCleanup, this`startsAwaitingLaunch
      ensures Valid()
      ensures admitted == StartAdmitted(old(hasPermission), old(isScanning))
      ensures !admitted ==> unchanged(this)
      ensures admitted ==> error == None && CleanupBegun(!old(isCleaningUp))
      ensures admitted && old(isCleaningUp) ==>
        startAwaitingCleanup == old(startAwaitingCleanup) && startsAwaitingLaunch == old(startsAwaitingLaunch) + 1
      ensures admitted && !old(isCleaningUp) && old(MustStopDevice()) ==>
        startAwaitingCleanup && startsAwaitingLaunch == old(startsAwaitingLaunch)
      ensures admitted && !old(isCleaningUp) && !old(MustStopDevice()) ==>
        !startAwaitingCleanup && startsAwaitingLaunch == old(startsAwaitingLaunch) + 1
    {
      if !StartAdmitted(hasPermission, isScanning) {
        return false;
      }
      admitted := true;
      error := None;
      var proceeded := Cleanup();
      if isCleaningUp && proceeded {
        startAwaitingCleanup := true;
      } else {
        startsAwaitingLaunch := startsAwaitingLaunch + 1;
      }
    }

    /**
     * `startScanner` after the 100 ms wait (lines 86-100): the import, the
     * container lookup and the constructor may throw, which ends the start in
     * the catch block; otherwise the new instance becomes `scannerRef` before
     * its `start` is awaited, replacing whatever handle was there.
     */
    method LaunchStart(imported: Outcome, constructed: Outcome) returns (instance: Option<nat>)
      requires Valid() && startsAwaitingLaunch > 0
      modifies this`devices, this`scannerRef, this`error, this`isScanning, this`startsAwaitingLaunch
      ensures Valid()
      ensures startsAwaitingLaunch == old(startsAwaitingLaunch) - 1
      ensures var failure := LaunchFailure(imported, ContainerMounted(hasPermission), constructed);
        failure.Some? ==>
          instance == None && devices == old(devices) && scannerRef == old(scannerRef)
          && error == Some(StartErrorMessage(failure.value)) && !isScanning
      ensures var failure := LaunchFailure(imported, ContainerMounted(hasPermission), constructed);
        failure.None? ==>
          instance == Some(|old(devices)|) && devices == old(devices) + [Starting] && scannerRef == instance
          && error == old(error) && isScanning == old(isScanning)
    {
      startsAwaitingLaunch := startsAwaitingLaunch - 1;
      var failure := LaunchFailure(imported, ContainerMounted(hasPermission), constructed);
      if failure.Some? {
        error := Some(StartErrorMessage(failure.value));
        isScanning := false;
        instance := None;
      } else {
        instance := Some(|devices|);
        devices := devices + [Starting];
        scannerRef := instance;
      }
    }

    /**
     * `startScanner` once the instance's `start` settles (lines 100-142):
     * `isScanning` becomes true only now; a rejection sets the classified error
     * and `isScanning` false but leaves `scannerRef` as line 98 set it.
     */
    method FinishStart(instance: nat, start: Outcome)
      requires Valid() && instance < |devices| && devices[instance] == Starting
      modifies this`devices, this`error, this`isScanning
      ensures Valid() && scannerRef == old(scannerRef)
      ensures start.Resolved? ==> devices == old(devices)[instance := Running] && isScanning && error == old(error)
      ensures start.Threw? ==>
        devices == old(devices)[instance := FailedToStart] && !isScanning && error == Some(StartErrorMessage(start.name))
    {
      if start.Resolved? {
        devices := devices[instance := Running];
        isScanning := true;
      } else {
        devices := devices[instance := FailedToStart];
        error := Some(StartErrorMessage(start.name));
        isScanning := false;
      }
    }

    /**
     * The decode-success callback of a running instance (lines 107-115): the
     * decoded text goes to `onScan` unchanged, then the stop path runs.
     */
    method DecodeSuccess(instance: nat, decodedText: string) returns (cleanupProceeded: bool)
      requires Valid() && instance < |devices| && devices[instance] == Running
      modifies this`scans, this`isCleaningUp, this`stopping, this`scannerRef, this`isScanning
      ensures Valid()
      ensures scans == old(scans) + [decodedText]
      ensures CleanupBegun(cleanupProceeded)
    {
      scans := scans + [decodedText];
      cleanupProceeded := StopScanner();
    }

    /**
     * The per-frame failure callback (lines 116-125): it may only log; the
     * error, `isScanning` and the instances are untouched.
     */
    method FrameFailure(instance: nat, message: string)
      requires Valid() && instance < |devices| && devices[instance] == Running
      modifies this`frameLog
      ensures frameLog == old(frameLog) + if LogsFrameError(message) then [message] else []
    {
      if LogsFrameError(message) {
        frameLog := frameLog + [message];
      }
    }

    /**
     * The demo button (lines 150-157), given the number `Math.random` produced:
     * it hands a mock code to `onScan` and changes nothing else.
     */
    method SimulateScan(n: nat)
      requires n <= 9998
      modifies this`scans
      ensures scans == old(scans) + [MockCode(n)]
    {
      scans := scans + [MockCode(n)];
    }
  }

  // ------------------------------------------------------------ the screen, on the state

  /**
   * The rendered screen offers Start exactly when a click would pass the
   * guard, and every button on the camera panel is disabled while a cleanup
   * is in progress.
   */
  lemma StartOfferedOnScreen(s: Scanner)
    ensures (s.View().CameraPanel? && s.View().control == StartButton) <==> StartAdmitted(s.hasPermission, s.isScanning)
    ensures s.View().CameraPanel? ==> (s.View().controlDisabled <==> s.isCleaningUp)
  {
    StartOfferedIffAdmitted(s.hasPermission, s.isScanning, s.error, s.isCleaningUp);
  }

  // ------------------------------------------------- interleavings, as written

  /**
   * Two presses of Start before the first acquisition resolves both pass the
   * guard, since `isScanning` is still false: two instances end up running,
   * and `scannerRef` holds only the second. The run takes the second
   * constructor call as succeeding, although the first launch has already
   * renamed the `#qr-reader` element, so the second instance is given an id
   * no element carries; whether html5-qrcode accepts that is outside this model.
   */
  method TwoStartsBothAcquire() returns (first: bool, second: bool, devices: seq<Device>, handle: Option<nat>)
    ensures first && second
    ensures devices == [Running, Running] && handle == Some(1)
  {
    var s := new Scanner();
    var tracks := new bool[1];
    s.FinishPermissionProbe(Some(tracks));
    first := s.StartScanner();
    second := s.StartScanner();
    var a := s.LaunchStart(Resolved, Resolved);
    var b := s.LaunchStart(Resolved, Resolved);
    s.FinishStart(0, Resolved);
    s.FinishStart(1, Resolved);
    devices, handle := s.devices, s.scannerRef;
  }

  /**
   * A start admitted while another start's cleanup is still awaiting stop()
   * does not wait for it: its own cleanup returns at once. When the older
   * cleanup's stop() resolves, it clears `scannerRef`, which by then holds the
   * newer instance. A later Stop finds no handle, so that instance keeps
   * running while the component shows it is not scanning. The first start is
   * still waiting out its delay (`pending`); whatever it does next, instance 1
   * stays without a handle. `error` stays
   * empty throughout, so no click needs a re-render to reach its button.
   * The run takes two library outcomes as given: a first stop() that rejects
   * and leaves its instance running, and a second constructor call that
   * succeeds after the `#qr-reader` element has been renamed.
   */
  method StaleCleanupOrphansInstance() returns (admittedDuringCleanup: bool, devices: seq<Device>, handle: Option<nat>, scanning: bool, shownError: Option<string>, pending: nat)
    ensures admittedDuringCleanup
    ensures devices == [Stopped, Running] && handle == None && !scanning && shownError == None
    ensures pending == 1
  {
    var s := new Scanner();
    var tracks := new bool[0];
    s.FinishPermissionProbe(Some(tracks));
    // one start runs instance 0; Stop's stop() rejects, so the handle stays
    var started := s.StartScanner();
    var i0 := s.LaunchStart(Resolved, Resolved);
    s.FinishStart(0, Resolved);
    var stopping := s.StopScanner();
    s.FinishCleanup(Threw("Error"));
    // a start suspends in its cleanup on instance 0; a second is admitted meanwhile
    var waiting := s.StartScanner();
    assert s.isCleaningUp && s.startAwaitingCleanup;
    admittedDuringCleanup := s.StartScanner();
    var i1 := s.LaunchStart(Resolved, Resolved);
    s.FinishCleanup(Resolved);
    s.FinishStart(1, Resolved);
    var stopped := s.StopScanner();
    devices, handle, scanning, shownError, pending := s.devices, s.scannerRef, s.isScanning, s.error, s.startsAwaitingLaunch;
  }
}
