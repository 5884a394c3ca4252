/** The record and enumeration types of the engine (src/types.rs). */
module Types {

  import opened Wrappers

  /** One OHLCV input bar; the timestamp is an opaque string. */
  datatype Bar = Bar(ts: string, open: real, high: real, low: real, close: real, volume: real)

  /** Robustly normalised features of one bar. */
  datatype Normed = Normed(u: real, v: real, a: real)

  /** The three residual channels and the combined residual `r`. */
  datatype Residuals = Residuals(rVol: real, rLiq: real, rAcc: real, r: real)

  /** The six mutually exclusive rupture states. */
  datatype RuptureState =
    | Stable
    | Stressed
    | Critical
    | CandidateRupture
    | ConfirmedRupture
    | Recovery

  /** The text a state is displayed as (the `Display` implementation). */
  function Label(s: RuptureState): string
  {
    match s
    case Stable => "Stable"
    case Stressed => "Stressed"
    case Critical => "Critical"
    case CandidateRupture => "Candidate"
    case ConfirmedRupture => "Confirmed"
    case Recovery => "Recovery"
  }

  /** Every state is exactly one of the six variants. */
  lemma SixStates(s: RuptureState)
    ensures s == Stable || s == Stressed || s == Critical
         || s == CandidateRupture || s == ConfirmedRupture || s == Recovery
    ensures |{Stable, Stressed, Critical, CandidateRupture, ConfirmedRupture, Recovery}| == 6
  {
  }

  /** The two rupture states have short labels; the others show their own names. */
  lemma LabelValues()
    ensures Label(CandidateRupture) == "Candidate" && Label(ConfirmedRupture) == "Confirmed"
    ensures Label(Stable) == "Stable" && Label(Stressed) == "Stressed"
    ensures Label(Critical) == "Critical" && Label(Recovery) == "Recovery"
  {
  }

  /** Distinct states are displayed as distinct strings. */
  lemma LabelInjective(s: RuptureState, t: RuptureState)
    ensures Label(s) == Label(t) <==> s == t
  {
  }

  /** One closed candidate episode in the event log. */
  datatype RuptureEvent = RuptureEvent(
    candidateIndex: nat,
    candidateTimestamp: string,
    confirmedIndex: Option<nat>,
    confirmedTimestamp: Option<string>,
    peakRho: real,
    confirmationK: nat,
    confirmationM: nat)

  /** The output row emitted for one bar. */
  datatype EngineOutputRow = EngineOutputRow(
    timestamp: string,
    close: real,
    volume: real,
    rVol: real,
    rLiq: real,
    rAcc: real,
    rCombined: real,
    strain: real,
    capacity: real,
    rho: real,
    state: string,
    candidateFlag: bool,
    confirmedFlag: bool)
}
