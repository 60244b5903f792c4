/**
 Values shared by the run lifecycle: contexts, checkpoints, packets, drafts, reports,
 bundles and the bytes they serialise to.

 Canonical serialisation is injective with parsing as its inverse, so a byte string is
 represented by the value it decodes to (`RawBytes` when it decodes to none of them), and
 SHA-256 is an injective constructor over those bytes.
 */
module RunTypes {

  datatype Option<+T> = None | Some(value: T)

  /**
   Why an operation refused: by a check, by the cutoff rule, while publishing, or with one of
   the timeout, budget and calendar errors that preparation turns into an operational report.
   */
  datatype Failure = InvalidRequest | CutoffViolation | PublicationFailed | Aborted(code: ErrorCode)

  /** `Interrupted` is a call that never returned: its process died or its I/O failed. */
  datatype Result<+T> = Ok(value: T) | Rejected(failure: Failure) | Interrupted

  /** UTC instants, in microseconds. */
  type Instant = int

  datatype Execution =
    | Created | Collecting | Normalizing | Analyzing | AwaitingSynthesis
    | Validating | Published | Failed | Skipped

  datatype Quality = Pass | Degraded | Fail

  datatype Delivery = OnTime | Delayed | Manual | MissedWindow

  datatype Stage =
    | Created | ConfigFrozen | PriorPlansObserved | EvidenceCollected | EvidenceFrozen
    | Normalized | QualityEvaluated | Analyzed | PacketFrozen | Collecting | Normalizing
    | Analyzing | PreparationFailed | AwaitingSynthesis | Validating | Published
    | OtherStage(text: string)

  datatype ErrorCode =
    | SourceNotConfigured | ConfigurationInvalid | CredentialsMissing | PermissionDenied
    | MarketCalendarUnavailable | MissedWindowCode | ProviderUnavailable | ProviderNoData
    | ProviderMissingSession | ProviderDuplicateConflict | ProviderMalformedBar | ProviderStale
    | ProviderFutureOrIncompleteBar | ProviderSchemaDrift | InvalidResponse | InvalidRequestCode
    | EvidenceCutoffViolation | SourceConflict | StaleData | UnsupportedInstrument
    | SizingUnavailable | PortfolioHeatUnavailable | InvalidRunState | InternalError
    | ValidationFailed | PublicationFailedCode | PathNotAllowed | DeadlineExceeded

  datatype ReducedReason = SynthesisUnavailable | SynthesisTimeout | ValidationRepairExhausted

  datatype Origin = Synthesized | DeterministicReduced | Operational

  /** The versions of the twelve components a run records, in the order replay compares them. */
  type Versions = v: seq<string> | |v| == 12
    witness ["", "", "", "", "", "", "", "", "", "", "", ""]

  /** One run of the modelled market date; its identity within the date is its revision. */
  datatype RunContext = RunContext(
    revision: nat,
    invokedAt: Instant,
    cutoff: Option<Instant>,
    execution: Execution,
    quality: Quality,
    delivery: Delivery,
    versions: Versions,
    configuration: string)

  datatype Packet = Packet(run: RunContext, plans: seq<string>, body: string)

  datatype Draft = Draft(origin: Origin, body: string)

  datatype Report = Report(
    revision: nat,
    packetSha: Digest,
    valid: bool,
    repairable: bool,
    attempt: nat,
    issues: string)

  datatype Telemetry = Telemetry(counters: seq<nat>)

  datatype Collection = Collection(symbols: seq<string>, completedAt: Instant, body: string)

  datatype QualityResult = QualityResult(status: Quality, reasons: seq<ErrorCode>, body: string)

  datatype Payload =
    | PacketBytes(packet: Packet)
    | PacketContentBytes(content: Packet)   // the packet without its own identity fields
    | DraftBytes(draft: Draft)
    | ReportBytes(report: Report)
    | TelemetryBytes(telemetry: Telemetry)
    | CollectionBytes(collection: Collection)
    | QualityBytes(quality: QualityResult)
    | CodeBytes(code: ErrorCode)
    | ReasonBytes(reason: ReducedReason)
    | TextBytes(text: string)
    | BundleBytes(bundle: Bundle)
    | RawBytes(raw: seq<bv8>)

  datatype Digest = Sha256(of: Payload)

  /** What follows an artifact-name prefix: a digest's hex form, or any other text. */
  datatype Suffix = Hex(digest: Digest) | Text(text: string)

  datatype Name =
    | ResearchPacket | ReducedReport | ReducedReasonName | OperationalReason
    | MarketDataCollection | DataQuality
    | TelemetryName(suffix: Suffix)
    | BriefDraft(suffix: Suffix)
    | ValidationReport(suffix: Suffix)
    | OtherName(text: string)

  datatype Checkpoint = Checkpoint(
    revision: nat,
    stage: Stage,
    execution: Execution,
    quality: Quality,
    delivery: Delivery,
    writtenAt: Instant,
    cutoff: Option<Instant>,
    artifacts: map<Name, Digest>,
    resumable: bool)

  datatype BlockedPlan = BlockedPlan(plan: string, reason: ReducedReason)

  /** The report-specific half of a bundle, by the key set that identifies its origin. */
  datatype Contents =
    | SynthesizedContents(packet: Packet, draft: Draft, report: Report)
    | ReducedContents(packet: Packet, reason: ReducedReason, baseSha: Digest,
                      plans: seq<BlockedPlan>, reports: seq<Report>)
    | OperationalContents(code: ErrorCode)
    | UnknownContents(text: string)

  datatype Bundle = Bundle(
    run: RunContext,
    contents: Contents,
    telemetry: Option<Telemetry>,
    telemetrySha: Option<Digest>,
    markdown: string,
    markdownSha: Option<Digest>)

  /** The files of one run directory. */
  datatype RunDir = RunDir(
    context: Option<RunContext>,
    checkpoints: seq<Checkpoint>,
    freeze: Option<Instant>,
    artifacts: map<Name, Payload>,
    bundle: Option<Bundle>,
    report: Option<string>)

  datatype Stored = Stored(
    run: RunContext,
    checkpoints: seq<Checkpoint>,
    cutoff: Option<Instant>,
    published: bool)

  /** One line of the per-date publication index. */
  datatype Entry = Entry(bundleSha: Digest, markdownSha: Digest, publishedAt: Instant)

  datatype Receipt = Receipt(revision: nat, entry: Entry)

  /** Everything stored for one market date. An absent index file is the empty index. */
  datatype DateStore = DateStore(
    staging: map<nat, RunDir>,
    finals: map<nat, RunDir>,
    orphans: map<nat, RunDir>,
    index: map<nat, Entry>,
    latest: Option<nat>)

  /**
   The environment's choice for one call: it stops right after `writes` of its atomic
   writes took effect, either with the process (`Crash`) or with an `OSError` that the
   call's own handlers still see (`IoError`).
   */
  datatype Fault = NoFault | Crash(writes: nat) | IoError(writes: nat)
  {
    predicate StopsAt(n: nat) {
      !NoFault? && writes == n
    }

    /** The same fault as seen by a call that starts after `n` writes. */
    function After(n: nat): Fault {
      match this
      case NoFault => NoFault
      case Crash(k) => if k < n then NoFault else Crash(k - n)
      case IoError(k) => if k < n then NoFault else IoError(k - n)
    }
  }
}
