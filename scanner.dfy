/** The border-control document scanner: camera permission and demo gate, the
    passport/QR capture with its delayed completion, manual entry, reset, and the
    QR auto-detection that polls while the scanner is armed. The camera request,
    the barcode detector and the delayed completions are inputs and events. */
module DocumentScanner {
  import opened Types
  import opened Text

  datatype ScanResult = Idle | Scanning | Success | Failed
  datatype Permission = Pending | Granted | Denied
  datatype CameraError = PermissionError | DeviceError
  datatype ScanMode = PassportMode | QrMode

  /** How the camera request ended: no media API at all, a stream (from the rear
      camera or from the fallback to any camera), or a failure with its error name. */
  datatype CameraOutcome = NoMediaApi | StreamOpened | StreamFailed(errorName: string)

  /** The machine-readable-zone record a passport capture shows. */
  datatype Mrz = Mrz(
    docType: string, country: string, surname: string, names: string,
    passportNumber: string, nationality: string, dob: string, sex: string,
    expiration: string, personalNumber: string, rawLine1: string, rawLine2: string)

  /** The fixed record every passport capture yields; nothing is read from the image. */
  function SampleMrz(): Mrz {
    Mrz("P", "COD", "MUKENDI", "JEAN-LUC", "OP1234567", "CONGOLESE", "1985-10-12", "M",
        "2030-01-15", "851012-001",
        "P<CODMUKENDI<<JEAN<LUC<<<<<<<<<<<<<<<<<<<<<<",
        "OP1234567<8COD8510125M3001158<<<<<<<<<<<<<<04")
  }

  const DefaultQrPayload := "DGM-PASS-TEMP-2024-X99"
  const PassportDetected := "PASSPORT DETECTED"

  /** `data || default`: a missing or empty QR payload falls back to the default. */
  function QrPayload(data: Option<string>): (r: string)
    ensures r != ""
    ensures data.Some? && data.value != "" ==> r == data.value
    ensures data.None? || data.value == "" ==> r == DefaultQrPayload
  {
    if data.Some? && data.value != "" then data.value else DefaultQrPayload
  }

  /** A refused permission prompt is a permission error; anything else is a device error. */
  function ClassifyCameraError(errorName: string): (e: CameraError)
    ensures e == PermissionError <==> errorName == "NotAllowedError" || errorName == "PermissionDeniedError"
  {
    if errorName == "NotAllowedError" || errorName == "PermissionDeniedError" then PermissionError
    else DeviceError
  }

  /** The live camera element is on the page only in camera view, with the
      permission granted and outside demo mode (demo mode shows a still image). */
  predicate VideoMounted(isManualMode: bool, permission: Permission, isDemoMode: bool) {
    !isManualMode && permission == Granted && !isDemoMode
  }

  /** The polling interval runs in QR mode outside manual entry; a detected code
      starts a scan only while idle and not already scanning. */
  predicate QrAutoScanArmed(scanMode: ScanMode, isScanning: bool, scanResult: ScanResult, isManualMode: bool) {
    scanMode == QrMode && !isScanning && scanResult == Idle && !isManualMode
  }

  /** A delayed completion, with what its closure captured. */
  datatype ScanTimer = CaptureTimer(mode: ScanMode, data: Option<string>) | ManualTimer(id: string)

  class Scanner {
    var isScanning: bool
    var scanResult: ScanResult
    var permission: Permission
    var errorType: Option<CameraError>
    var isDemoMode: bool
    var isManualMode: bool
    var scanMode: ScanMode
    var manualId: string
    var detectedData: Option<string>
    var mrz: Option<Mrz>

    /** Demo mode always comes with a granted permission, and an MRZ record is
        shown only on a successful capture. */
    ghost predicate Valid()
      reads this
    {
      && (isDemoMode ==> permission == Granted)
      && (mrz.Some? ==> scanResult == Success)
    }

    constructor ()
      ensures Valid()
      ensures !isScanning && scanResult == Idle && permission == Pending && errorType.None?
      ensures !isDemoMode && !isManualMode && scanMode == PassportMode
      ensures manualId == "" && detectedData.None? && mrz.None?
    {
      isScanning := false;
      scanResult := Idle;
      permission := Pending;
      errorType := None;
      isDemoMode := false;
      isManualMode := false;
      scanMode := PassportMode;
      manualId := "";
      detectedData := None;
      mrz := None;
    }

    /** Requests the camera and records how the request ended. */
    method StartCamera(outcome: CameraOutcome)
      requires Valid()
      modifies this`isDemoMode, this`errorType, this`permission
      ensures Valid() && !isDemoMode
      ensures outcome == NoMediaApi ==> permission == Denied && errorType == Some(DeviceError)
      ensures outcome == StreamOpened ==> permission == Granted && errorType.None?
      ensures outcome.StreamFailed? ==>
        permission == Denied && errorType == Some(ClassifyCameraError(outcome.errorName))
    {
      isDemoMode := false;
      errorType := None;
      match outcome
      case NoMediaApi =>
        permission := Denied;
        errorType := Some(DeviceError);
      case StreamOpened =>
        permission := Granted;
      case StreamFailed(name) =>
        permission := Denied;
        errorType := Some(ClassifyCameraError(name));
    }

    /** The simulation button is offered in camera view after a device error only. */
    method ActivateDemoMode()
      requires Valid() && !isManualMode && errorType == Some(DeviceError)
      modifies this`isDemoMode, this`permission
      ensures Valid() && isDemoMode && permission == Granted
    {
      isDemoMode := true;
      permission := Granted;
    }

    method SetScanMode(m: ScanMode)
      requires Valid()
      modifies this`scanMode
      ensures Valid() && scanMode == m
    {
      scanMode := m;
    }

    /** The manual-entry field keeps what is typed, upper-cased. */
    method EditManualId(raw: string)
      requires Valid()
      modifies this`manualId
      ensures Valid() && manualId == ToUpper(raw)
    {
      manualId := ToUpper(raw);
    }

    /** Starts a capture when the camera is granted or demo mode is on; otherwise
        nothing happens. */
    method HandleScan(data: Option<string>) returns (t: Option<ScanTimer>)
      requires Valid()
      modifies this`isScanning, this`scanResult, this`mrz
      ensures Valid()
      ensures permission != Granted && !isDemoMode ==>
        t.None? && isScanning == old(isScanning) && scanResult == old(scanResult) && mrz == old(mrz)
      ensures permission == Granted || isDemoMode ==>
        isScanning && scanResult == Scanning && mrz.None? && t == Some(CaptureTimer(scanMode, data))
    {
      if permission != Granted && !isDemoMode {
        return None;
      }
      isScanning := true;
      scanResult := Scanning;
      mrz := None;
      t := Some(CaptureTimer(scanMode, data));
    }

    /** One tick of the QR polling interval, given the detector's availability,
        whether a mounted video has data, and the codes it found. Without a
        mounted video (demo mode, manual entry, no permission) nothing is read. */
    method DetectQr(detectorAvailable: bool, videoReady: bool, codes: seq<string>) returns (t: Option<ScanTimer>)
      requires Valid()
      modifies this`isScanning, this`scanResult, this`mrz
      ensures Valid()
      ensures t.Some? ==>
        old(QrAutoScanArmed(scanMode, isScanning, scanResult, isManualMode)) && VideoMounted(isManualMode, permission, isDemoMode)
      ensures !(detectorAvailable && videoReady && VideoMounted(isManualMode, permission, isDemoMode)
                && old(QrAutoScanArmed(scanMode, isScanning, scanResult, isManualMode)) && |codes| > 0) ==>
        t.None? && isScanning == old(isScanning) && scanResult == old(scanResult) && mrz == old(mrz)
      ensures detectorAvailable && videoReady && VideoMounted(isManualMode, permission, isDemoMode)
              && old(QrAutoScanArmed(scanMode, isScanning, scanResult, isManualMode)) && |codes| > 0 ==>
        t == Some(CaptureTimer(QrMode, Some(codes[0]))) && isScanning && scanResult == Scanning
    {
      t := None;
      if detectorAvailable && videoReady && VideoMounted(isManualMode, permission, isDemoMode)
         && QrAutoScanArmed(scanMode, isScanning, scanResult, isManualMode) && |codes| > 0 {
        t := HandleScan(Some(codes[0]));
      }
    }

    /** Verifies a typed id: nothing happens when it is blank after trimming. */
    method HandleManualVerify() returns (t: Option<ScanTimer>)
      requires Valid()
      modifies this`scanResult, this`isManualMode, this`mrz
      ensures Valid()
      ensures IsBlank(manualId) ==>
        t.None? && scanResult == old(scanResult) && isManualMode == old(isManualMode) && mrz == old(mrz)
      ensures !IsBlank(manualId) ==>
        scanResult == Scanning && isManualMode && mrz.None? && t == Some(ManualTimer(manualId))
    {
      if IsBlank(manualId) {
        return None;
      }
      scanResult := Scanning;
      isManualMode := true;
      mrz := None;
      t := Some(ManualTimer(manualId));
    }

    /** Back to idle with the entry and the results cleared; both modes are kept. */
    method Reset()
      requires Valid()
      modifies this`scanResult, this`manualId, this`detectedData, this`mrz
      ensures Valid()
      ensures scanResult == Idle && manualId == "" && detectedData.None? && mrz.None?
    {
      scanResult := Idle;
      manualId := "";
      detectedData := None;
      mrz := None;
    }

    /** Switches between camera and manual entry, back at idle; the detected data is kept. */
    method ToggleManualMode()
      requires Valid()
      modifies this`isManualMode, this`scanResult, this`manualId, this`mrz
      ensures Valid()
      ensures isManualMode == !old(isManualMode)
      ensures scanResult == Idle && manualId == "" && mrz.None?
    {
      isManualMode := !isManualMode;
      scanResult := Idle;
      manualId := "";
      mrz := None;
    }

    /** Runs a delayed completion. */
    method Fire(t: ScanTimer)
      requires Valid()
      modifies this`isScanning, this`scanResult, this`detectedData, this`mrz
      ensures Valid()
      ensures scanResult == Success
      ensures t.CaptureTimer? && t.mode == QrMode ==>
        !isScanning && detectedData == Some(QrPayload(t.data)) && mrz == old(mrz)
      ensures t.CaptureTimer? && t.mode == PassportMode ==>
        !isScanning && detectedData == Some(PassportDetected) && mrz == Some(SampleMrz())
      ensures t.ManualTimer? ==>
        isScanning == old(isScanning) && detectedData == Some(t.id) && mrz == old(mrz)
    {
      match t
      case CaptureTimer(mode, data) =>
        isScanning := false;
        scanResult := Success;
        if mode == QrMode {
          detectedData := Some(QrPayload(data));
        } else {
          detectedData := Some(PassportDetected);
          mrz := Some(SampleMrz());
        }
      case ManualTimer(id) =>
        scanResult := Success;
        detectedData := Some(id);
    }
  }

  /** A refused camera (a permission error) blocks scanning. */
  method DeniedCameraBlocksScan() returns (blocked: bool, error: Option<CameraError>)
    ensures blocked
    ensures error == Some(PermissionError)
  {
    var s := new Scanner();
    s.StartCamera(StreamFailed("NotAllowedError"));
    error := s.errorType;
    var t := s.HandleScan(None);
    blocked := t.None? && s.scanResult == Idle;
  }

  /** With no usable camera device, simulation mode lets the scan button work: in
      QR mode it yields the default pass id, while the polling detector, which has
      no video to read in demo mode, never starts a scan. */
  method DeviceErrorThenDemoQr() returns (autoDetected: Option<ScanTimer>, detected: Option<string>)
    ensures autoDetected.None?
    ensures detected == Some(DefaultQrPayload)
  {
    var s := new Scanner();
    s.StartCamera(StreamFailed("NotFoundError"));
    s.ActivateDemoMode();
    s.SetScanMode(QrMode);
    autoDetected := s.DetectQr(true, true, ["DGM-PASS-0001"]);
    var t := s.HandleScan(None);
    s.Fire(t.value);
    detected := s.detectedData;
  }

  /** The two entries typed in the scenarios below, once upper-cased. */
  lemma TypedEntries()
    ensures IsBlank(ToUpper(" \t"))
    ensures ToUpper("cod-0042") == "COD-0042" && !IsBlank("COD-0042")
  {
    assert ToUpper(" \t") == " \t";
    assert ToUpper("cod-0042") == "COD-0042";
    assert !IsTrimmedSpace("COD-0042"[0]);
  }

  /** In manual entry, a typed id of only blanks (a space and a tab) starts nothing. */
  method BlankEntryIgnored() returns (ignored: bool, manual: bool)
    ensures ignored
    ensures manual
  {
    TypedEntries();
    var s := new Scanner();
    s.ToggleManualMode();
    s.EditManualId(" \t");
    var t := s.HandleManualVerify();
    ignored := t.None? && s.scanResult == Idle;
    manual := s.isManualMode;
  }

  /** In manual entry, a typed id is upper-cased and becomes the detected data. */
  method ManualEntry() returns (detected: Option<string>, manual: bool)
    ensures detected == Some("COD-0042")
    ensures manual
  {
    TypedEntries();
    var s := new Scanner();
    s.ToggleManualMode();
    s.EditManualId("cod-0042");
    var t := s.HandleManualVerify();
    s.Fire(t.value);
    detected := s.detectedData;
    manual := s.isManualMode;
  }
}
