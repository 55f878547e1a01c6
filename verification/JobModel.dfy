/** Jobs, workers and reports as they are stored in Redis and sent between the servers. */
module JobModel {

  datatype VideoOutput = VideoOutput(codec: string, framerate: real, width: int, height: int,
                                     bitrate: string, maxBitrate: string, bufSize: string,
                                     preset: string, crf: int, threads: int)

  datatype AudioOutput = AudioOutput(codec: string, bitrate: string)

  datatype Drm = Drm(disableClearKey: int, protectionSystem: string, protectionScheme: string)

  datatype Detection = Detection(frameRate: real, height: int, width: int, bitrate: string,
                                 maxBitrate: string, bufSize: string,
                                 codec: string, preset: string, crf: int)

  datatype LiveJobSpec = LiveJobSpec(streamType: string, segmentFormat: string,
                                     segmentDuration: int, fragmentDuration: int,
                                     timeShiftBufferDepth: int, drm: Drm, detection: Detection,
                                     bucket: string,
                                     videoOutputs: seq<VideoOutput>, audioOutputs: seq<AudioOutput>)

  const NO_DETECTION := Detection(0.0, 0, 0, "", "", "", "", "", 0)

  predicate NeedObjectDetection(spec: LiveJobSpec) {
    spec.detection != NO_DETECTION
  }

  datatype JobState = Created | Running | Streaming | Stopped

  /** The part of job.LiveJob that the servers read back; assignedWorker is "" when there is none. */
  datatype LiveJob = LiveJob(id: string, state: JobState,
                             lastReportMs: int, bandwidth: int, cpu: string,
                             bytesIngested: int, upSeconds: int, activeSeconds: int,
                             rtmpPort: int, spec: LiveJobSpec,
                             createdMs: int, receivedMs: int,
                             assignedWorker: string, stop: bool, delete: bool)

  datatype JobStats = JobStats(id: string, bandwidth: int, cpu: string)

  datatype WorkerJobReport = WorkerJobReport(workerId: string, stoppedJobs: seq<string>, stats: seq<JobStats>)

  /** Workers register as idle and become loaded; nothing ever stores "notavailable". */
  datatype WorkerStatus = Idle | Loaded | NotAvailable

  datatype WorkerInfo = WorkerInfo(cpuCapacity: int, bandwidthCapacity: int, heartbeatIntervalNs: int)

  datatype LiveWorker = LiveWorker(id: string, status: WorkerStatus, info: WorkerInfo, lastHeartbeatMs: int)

  datatype JobLoad = JobLoad(id: string, cpu: int, bandwidth: int)

  datatype WorkerLoad = WorkerLoad(id: string, jobs: seq<JobLoad>, cpu: int, bandwidth: int)

  const INGEST_BANDWIDTH_THRESHOLD_KBPS := 10
  const JOB_CPU_LOAD := 1000
  const JOB_BANDWIDTH_LOAD := 20000
  const MAX_MISSING_HEARTBEATS := 10

  /** Go's integer division, which truncates toward zero. */
  function TruncDiv(a: int, b: int): int
    requires b > 0
  {
    if a >= 0 then a / b else -((-a) / b)
  }
}
