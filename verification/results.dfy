/** The values the scanner produces and stores: findings, scan results and
    the errors a scan call can end with. */
module ScanResults {

  /** One event the scan engine reports; the scanner never looks inside it. */
  datatype Finding = Finding(name: string, severity: string, host: string)

  /** A clock reading. `ZeroTime` is Go's zero `time.Time`, which the empty
      result carries; every real reading is a `Clock` value. */
  datatype Timestamp = ZeroTime | Clock(reading: nat)

  /** `cache.ScanResult`: the target scanned, its findings in arrival order,
      and when the scan finished. */
  datatype ScanResult = ScanResult(target: string, findings: seq<Finding>, scanTime: Timestamp)

  /** `cache.ScanResult{}`, returned beside every error. */
  const EmptyResult := ScanResult("", [], ZeroTime)

  /** Why a scan call failed. An engine error, whether from building the
      engine, loading its templates or executing it, is passed on verbatim. */
  datatype ScanError =
    | ReadDirFailed(dir: string, cause: string)
    | NoTemplatesFound(dir: string)
    | BasicTemplateMissing(path: string)
    | EngineFailed(cause: string)
}
