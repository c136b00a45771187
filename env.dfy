/** The four status values the watchdog reports, and the strings that name them. */
module Env {

  datatype StatusKind = Healthy | HealthyUnknown | Lagging | Offline

  /** The string constant of each status (`STATUS_HEALTHY` and the others). */
  function StatusName(k: StatusKind): (name: string)
    ensures |name| > 0
  {
    match k
    case Healthy => "healthy"
    case HealthyUnknown => "healthy unknown"
    case Lagging => "lagging"
    case Offline => "offline"
  }

  /**
   * The source stores and compares statuses as these strings; comparing
   * kinds instead is sound because no two kinds share a name.
   */
  lemma StatusNameInjective(j: StatusKind, k: StatusKind)
    ensures StatusName(j) == StatusName(k) <==> j == k
  {
    if j != k {
      var a, b := StatusName(j), StatusName(k);
      if |a| == |b| {
        // "healthy" and "lagging" are the only two names of equal length
        assert a[0] != b[0];
      }
    }
  }
}
