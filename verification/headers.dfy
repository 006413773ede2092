/**
 * The two-level header vocabulary of the MMB Networks serial protocol.
 *
 * The primary header byte selects a functional domain; the meaning of the
 * secondary header byte depends on that domain.  The three code tables are
 * closed: every variant has exactly one code, and classification of a raw
 * byte is an explicit lookup that answers `None` for a byte outside the
 * table (the program reinterprets the raw byte instead, which is undefined
 * for such bytes).
 */
module Headers {
  import opened Wrappers

  /** An unsigned 8-bit value as it travels on the serial line. */
  newtype byte = b: int | 0 <= b < 0x100

  // ---------------------------------------------------------------------
  // Primary header
  // ---------------------------------------------------------------------

  datatype PrimaryHeader =
    | Utility
    | NetworkCommissioning
    | SecurityConfig
    | ZigbeeSupportConfig
    | ZdoMessages
    | ZclMessages
    | GeneralClusters
    | HaClusters
    | Bootload
    | OtaBootload
    | Diagnostics
  {
    /** The wire code of this primary header. */
    function Code(): byte {
      match this
      case Utility => 0x55
      case NetworkCommissioning => 0x01
      case SecurityConfig => 0x02
      case ZigbeeSupportConfig => 0x03
      case ZdoMessages => 0x04
      case ZclMessages => 0x05
      case GeneralClusters => 0x11
      case HaClusters => 0x12
      case Bootload => 0x0B
      case OtaBootload => 0xB0
      case Diagnostics => 0xD1
    }
  }

  /** Classifies a primary header byte; unmapped bytes give `None`. */
  function PrimaryFromCode(b: byte): (r: Option<PrimaryHeader>)
    ensures r.Some? ==> r.value.Code() == b
  {
    if b == 0x55 then Some(Utility)
    else if b == 0x01 then Some(NetworkCommissioning)
    else if b == 0x02 then Some(SecurityConfig)
    else if b == 0x03 then Some(ZigbeeSupportConfig)
    else if b == 0x04 then Some(ZdoMessages)
    else if b == 0x05 then Some(ZclMessages)
    else if b == 0x11 then Some(GeneralClusters)
    else if b == 0x12 then Some(HaClusters)
    else if b == 0x0B then Some(Bootload)
    else if b == 0xB0 then Some(OtaBootload)
    else if b == 0xD1 then Some(Diagnostics)
    else None
  }

  /** Classifying the code of a primary header gives that header back. */
  lemma PrimaryRoundTrip(p: PrimaryHeader)
    ensures PrimaryFromCode(p.Code()) == Some(p)
  {
  }

  /** Exactly the bytes that are no primary header's code are unmapped. */
  lemma PrimaryUnmapped(b: byte)
    ensures PrimaryFromCode(b).None? <==> forall p: PrimaryHeader :: p.Code() != b
  {
    forall p: PrimaryHeader ensures PrimaryFromCode(b).None? ==> p.Code() != b {
      PrimaryRoundTrip(p);
    }
  }

  /** No two primary headers share a code. */
  lemma PrimaryCodesDistinct(p: PrimaryHeader, q: PrimaryHeader)
    requires p.Code() == q.Code()
    ensures p == q
  {
    PrimaryRoundTrip(p);
    PrimaryRoundTrip(q);
  }

  // ---------------------------------------------------------------------
  // Secondary header under the Utility domain
  // ---------------------------------------------------------------------

  datatype HeaderUtility =
    | Reset
    | ModuleInfoRequest
    | ModuleInfoResponse
    | BootloaderVersionRequest
    | BootloaderVersionResponse
    | ApplicationVersionCountRequest
    | ApplicationVersionCountResponse
    | ApplicationVersionRequest
    | ApplicationVersionResponse
    | RestoreDefaults
    | HostStartupReady
    | StartupSyncRequest
    | StartupSyncComplete
    | AntennaConfigurationRequest
    | AntennaConfigurationResponse
    | AntennaConfigurationWrite
    | LedConfigurationRequest
    | LedConfigurationResponse
    | LedConfigurationWrite
    | SerialAckConfigWrite
    | SerialAckConfigRequest
    | SerialAckConfigResponse
    | ManufacturerIdRequest
    | ManufacturerIdResponse
    | ManufacturerIdWrite
    | SleepyParametersRequest
    | SleepyParametersResponse
    | SleepyParametersWrite
    | SleepyHibernateDurationRequest
    | SleepyHibernateDurationResponse
    | SleepyHibernateDurationWrite
    | StatusResponse
    | Error
  {
    /** The wire code of this Utility secondary header. */
    function Code(): byte {
      match this
      case Reset => 0x00
      case ModuleInfoRequest => 0x02
      case ModuleInfoResponse => 0x03
      case BootloaderVersionRequest => 0x04
      case BootloaderVersionResponse => 0x05
      case ApplicationVersionCountRequest => 0x06
      case ApplicationVersionCountResponse => 0x07
      case ApplicationVersionRequest => 0x08
      case ApplicationVersionResponse => 0x09
      case RestoreDefaults => 0x10
      case HostStartupReady => 0x20
      case StartupSyncRequest => 0x21
      case StartupSyncComplete => 0x22
      case AntennaConfigurationRequest => 0x23
      case AntennaConfigurationResponse => 0x24
      case AntennaConfigurationWrite => 0x25
      case LedConfigurationRequest => 0x26
      case LedConfigurationResponse => 0x27
      case LedConfigurationWrite => 0x28
      case SerialAckConfigWrite => 0x30
      case SerialAckConfigRequest => 0x31
      case SerialAckConfigResponse => 0x32
      case ManufacturerIdRequest => 0x40
      case ManufacturerIdResponse => 0x41
      case ManufacturerIdWrite => 0x42
      case SleepyParametersRequest => 0x50
      case SleepyParametersResponse => 0x51
      case SleepyParametersWrite => 0x52
      case SleepyHibernateDurationRequest => 0x53
      case SleepyHibernateDurationResponse => 0x54
      case SleepyHibernateDurationWrite => 0x55
      case StatusResponse => 0x80
      case Error => 0xE0
    }
  }

  /**
   * Classifies a secondary byte against the Utility table.  Unlike its two
   * siblings, its full soundness is the separate lemma UtilityFromCodeSound:
   * with 33 entries, checking it as an ensures here costs too much proof
   * effort; the ensures below name the two codes the dispatcher acts on.
   */
  function UtilityFromCode(b: byte): (r: Option<HeaderUtility>)
    ensures r == Some(StartupSyncRequest) <==> b == 0x21
    ensures r == Some(StartupSyncComplete) <==> b == 0x22
  {
    match b
    case 0x00 => Some(Reset)
    case 0x02 => Some(ModuleInfoRequest)
    case 0x03 => Some(ModuleInfoResponse)
    case 0x04 => Some(BootloaderVersionRequest)
    case 0x05 => Some(BootloaderVersionResponse)
    case 0x06 => Some(ApplicationVersionCountRequest)
    case 0x07 => Some(ApplicationVersionCountResponse)
    case 0x08 => Some(ApplicationVersionRequest)
    case 0x09 => Some(ApplicationVersionResponse)
    case 0x10 => Some(RestoreDefaults)
    case 0x20 => Some(HostStartupReady)
    case 0x21 => Some(StartupSyncRequest)
    case 0x22 => Some(StartupSyncComplete)
    case 0x23 => Some(AntennaConfigurationRequest)
    case 0x24 => Some(AntennaConfigurationResponse)
    case 0x25 => Some(AntennaConfigurationWrite)
    case 0x26 => Some(LedConfigurationRequest)
    case 0x27 => Some(LedConfigurationResponse)
    case 0x28 => Some(LedConfigurationWrite)
    case 0x30 => Some(SerialAckConfigWrite)
    case 0x31 => Some(SerialAckConfigRequest)
    case 0x32 => Some(SerialAckConfigResponse)
    case 0x40 => Some(ManufacturerIdRequest)
    case 0x41 => Some(ManufacturerIdResponse)
    case 0x42 => Some(ManufacturerIdWrite)
    case 0x50 => Some(SleepyParametersRequest)
    case 0x51 => Some(SleepyParametersResponse)
    case 0x52 => Some(SleepyParametersWrite)
    case 0x53 => Some(SleepyHibernateDurationRequest)
    case 0x54 => Some(SleepyHibernateDurationResponse)
    case 0x55 => Some(SleepyHibernateDurationWrite)
    case 0x80 => Some(StatusResponse)
    case 0xE0 => Some(Error)
    case _ => None
  }

  /** A Utility header is only ever classified from its own code. */
  lemma UtilityFromCodeSound(b: byte)
    ensures UtilityFromCode(b).Some? ==> UtilityFromCode(b).value.Code() == b
  {
  }

  /** Classifying the code of a Utility header gives that header back. */
  lemma UtilityRoundTrip(u: HeaderUtility)
    ensures UtilityFromCode(u.Code()) == Some(u)
  {
  }

  /** Exactly the bytes that are no Utility header's code are unmapped. */
  lemma UtilityUnmapped(b: byte)
    ensures UtilityFromCode(b).None? <==> forall u: HeaderUtility :: u.Code() != b
  {
    UtilityFromCodeSound(b);
    forall u: HeaderUtility ensures UtilityFromCode(b).None? ==> u.Code() != b {
      UtilityRoundTrip(u);
    }
  }

  /** No two Utility headers share a code. */
  lemma UtilityCodesDistinct(u: HeaderUtility, v: HeaderUtility)
    requires u.Code() == v.Code()
    ensures u == v
  {
    UtilityRoundTrip(u);
    UtilityRoundTrip(v);
  }

  // ---------------------------------------------------------------------
  // Secondary header under the Network-Commissioning domain
  // ---------------------------------------------------------------------

  datatype HeaderNetworkCommissioning =
    | JoinNetwork
    | FormNetwork
    | PermitJoin
    | LeaveNetwork
    | RejoinNetwork
    | NetworkStatusRequest
    | NetworkStatusResponse
    | TrustCenterDeviceUpdate
    | NetworkAutoJoin
    | NetworkResetAutoJoin
  {
    /** The wire code of this Network-Commissioning secondary header. */
    function Code(): byte {
      match this
      case JoinNetwork => 0x00
      case FormNetwork => 0x01
      case PermitJoin => 0x03
      case LeaveNetwork => 0x04
      case RejoinNetwork => 0x05
      case NetworkStatusRequest => 0x08
      case NetworkStatusResponse => 0x09
      case TrustCenterDeviceUpdate => 0x10
      case NetworkAutoJoin => 0x11
      case NetworkResetAutoJoin => 0x12
    }
  }

  /** Classifies a secondary byte against the Network-Commissioning table. */
  function NetworkCommissioningFromCode(b: byte): (r: Option<HeaderNetworkCommissioning>)
    ensures r.Some? ==> r.value.Code() == b
  {
    if b == 0x00 then Some(JoinNetwork)
    else if b == 0x01 then Some(FormNetwork)
    else if b == 0x03 then Some(PermitJoin)
    else if b == 0x04 then Some(LeaveNetwork)
    else if b == 0x05 then Some(RejoinNetwork)
    else if b == 0x08 then Some(NetworkStatusRequest)
    else if b == 0x09 then Some(NetworkStatusResponse)
    else if b == 0x10 then Some(TrustCenterDeviceUpdate)
    else if b == 0x11 then Some(NetworkAutoJoin)
    else if b == 0x12 then Some(NetworkResetAutoJoin)
    else None
  }

  /** Classifying the code of a Network-Commissioning header gives it back. */
  lemma NetworkCommissioningRoundTrip(n: HeaderNetworkCommissioning)
    ensures NetworkCommissioningFromCode(n.Code()) == Some(n)
  {
  }

  /** Exactly the bytes that are no Network-Commissioning header's code are unmapped. */
  lemma NetworkCommissioningUnmapped(b: byte)
    ensures NetworkCommissioningFromCode(b).None? <==> forall n: HeaderNetworkCommissioning :: n.Code() != b
  {
    forall n: HeaderNetworkCommissioning ensures NetworkCommissioningFromCode(b).None? ==> n.Code() != b {
      NetworkCommissioningRoundTrip(n);
    }
  }

  /** No two Network-Commissioning headers share a code. */
  lemma NetworkCommissioningCodesDistinct(n: HeaderNetworkCommissioning, m: HeaderNetworkCommissioning)
    requires n.Code() == m.Code()
    ensures n == m
  {
    NetworkCommissioningRoundTrip(n);
    NetworkCommissioningRoundTrip(m);
  }

  // ---------------------------------------------------------------------
  // Secondary header, dependent on the primary header
  // ---------------------------------------------------------------------

  /**
   * The secondary header: a Utility code, a Network-Commissioning code, or
   * the single "nothing" marker used under every other primary header.
   */
  datatype SecondaryHeader =
    | OfUtility(utility: HeaderUtility)
    | OfNetworkCommissioning(commissioning: HeaderNetworkCommissioning)
    | Nothing
  {
    /** The wire code; the "nothing" marker is the program's UNKNOWN = 0xFF. */
    function Code(): byte {
      match this
      case OfUtility(u) => u.Code()
      case OfNetworkCommissioning(n) => n.Code()
      case Nothing => 0xFF
    }
  }

  /** The secondary variant that belongs to primary header `p`. */
  predicate Fits(p: PrimaryHeader, s: SecondaryHeader) {
    match p
    case Utility => s.OfUtility?
    case NetworkCommissioning => s.OfNetworkCommissioning?
    case _ => s.Nothing?
  }

  /**
   * Classifies secondary byte `b` under primary header `p`: Utility and
   * Network-Commissioning use their own tables (an unmapped byte gives
   * `None`), every other primary gives the "nothing" marker whatever `b` is.
   */
  function SecondaryFrom(p: PrimaryHeader, b: byte): (r: Option<SecondaryHeader>)
    ensures r.Some? ==> Fits(p, r.value)
    ensures r.Some? && !r.value.Nothing? ==> r.value.Code() == b
    ensures r.None? <==>
      || (p == Utility && forall u: HeaderUtility :: u.Code() != b)
      || (p == NetworkCommissioning && forall n: HeaderNetworkCommissioning :: n.Code() != b)
    ensures p != Utility && p != NetworkCommissioning ==> r == Some(Nothing)
  {
    UtilityFromCodeSound(b);
    UtilityUnmapped(b);
    NetworkCommissioningUnmapped(b);
    match p
    case NetworkCommissioning =>
      (match NetworkCommissioningFromCode(b)
       case Some(n) => Some(OfNetworkCommissioning(n))
       case None => None)
    case Utility =>
      (match UtilityFromCode(b)
       case Some(u) => Some(OfUtility(u))
       case None => None)
    case _ => Some(Nothing)
  }

  /**
   * Classifying the code of a secondary header that fits its primary gives
   * that secondary header back (the "nothing" marker's code 0xFF included).
   */
  lemma SecondaryRoundTrip(p: PrimaryHeader, s: SecondaryHeader)
    requires Fits(p, s)
    ensures SecondaryFrom(p, s.Code()) == Some(s)
  {
    match s
    case OfUtility(u) => UtilityRoundTrip(u);
    case OfNetworkCommissioning(n) => NetworkCommissioningRoundTrip(n);
    case Nothing =>
  }
}
