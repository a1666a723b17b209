/** Simulated cases and their potential outcomes (simulator/generator.py), and the matrices built from
    them (ml/dataset.py). */
module Simulator {

  datatype Profile = Profile(reason: string, source: string, base: real, link: real, update: real, delay: real)

  const FAILURE_PROFILES: seq<Profile> := [
    Profile("payment_timed_out", "gateway", 0.08, 0.24, 0.05, 0.18),
    Profile("bank_error", "bank", 0.03, 0.22, 0.04, 0.15),
    Profile("insufficient_funds", "customer", -0.18, 0.05, 0.08, 0.20),
    Profile("authentication_failed", "customer", -0.07, 0.10, 0.20, 0.03),
    Profile("payment_cancelled", "customer", -0.12, 0.08, 0.11, 0.04),
    Profile("issuer_declined", "bank", -0.15, 0.10, 0.15, 0.07)
  ]

  datatype Intervention = NoIntervention | RecoveryLink | UpdatePrompt | Delay

  /** The column order: the keys of ACTION_TARGETS. */
  const COLUMNS: seq<Intervention> := [NoIntervention, RecoveryLink, UpdatePrompt, Delay]

  /** What the generator drew for one case. */
  datatype Drawn = Drawn(
    profile: Profile, engagement: real, successes: nat, failures: nat, methods: nat, age: nat, attempts: nat, draw: real)

  /** The ranges the generator draws from. */
  predicate Drawable(c: Drawn) {
    && c.profile in FAILURE_PROFILES && 0.0 <= c.engagement <= 1.0 && 1 <= c.methods <= 4
    && c.age <= 13 && 1 <= c.attempts <= 4 && 0.0 <= c.draw < 1.0
  }

  function Clamp(value: real): (r: real)
    ensures 0.01 <= r <= 0.95
    ensures 0.01 <= value <= 0.95 ==> r == value
    ensures value < 0.01 ==> r == 0.01
    ensures value > 0.95 ==> r == 0.95
  {
    var low := if value > 0.01 then value else 0.01;
    if low < 0.95 then low else 0.95
  }

  function HistoryRate(c: Drawn): real {
    if c.successes + c.failures > 0 then c.successes as real / (c.successes + c.failures) as real else 0.5
  }

  function Base(c: Drawn): real {
    0.08 + c.engagement * 0.38 + HistoryRate(c) * 0.24 + c.profile.base
    - c.age as real * 0.012 - (c.attempts as real - 1.0) * 0.025
  }

  function Lift(c: Drawn, a: Intervention): real {
    var options := if c.methods > 1 then 0.04 else 0.0;
    match a
    case NoIntervention => 0.0
    case RecoveryLink => c.profile.link + options
    case UpdatePrompt => c.profile.update + options
    case Delay => c.profile.delay
  }

  /** The latent probability of recovery under an intervention. */
  function Chance(c: Drawn, a: Intervention): (p: real)
    ensures 0.01 <= p <= 0.95
  {
    Clamp(Base(c) + Lift(c, a))
  }

  /** The potential outcome: all four share one draw. */
  predicate WouldRecover(c: Drawn, a: Intervention) {
    c.draw < Chance(c, a)
  }

  // ---------------------------------------------------------------- hidden rows

  /** How a probability is written to the file and read back. */
  type Format = real -> real

  datatype HiddenRow = HiddenRow(
    recoversWithout: bool, recoversWithLink: bool, recoversWithUpdate: bool, recoversAfterDelay: bool,
    pWithout: real, pLink: real, pUpdate: real, pDelay: real)

  function Hidden(c: Drawn, format: Format): HiddenRow {
    HiddenRow(
      WouldRecover(c, NoIntervention), WouldRecover(c, RecoveryLink), WouldRecover(c, UpdatePrompt), WouldRecover(c, Delay),
      format(Chance(c, NoIntervention)), format(Chance(c, RecoveryLink)), format(Chance(c, UpdatePrompt)),
      format(Chance(c, Delay)))
  }

  /** ACTION_TARGETS. */
  function Target(row: HiddenRow, a: Intervention): bool {
    match a
    case NoIntervention => row.recoversWithout
    case RecoveryLink => row.recoversWithLink
    case UpdatePrompt => row.recoversWithUpdate
    case Delay => row.recoversAfterDelay
  }

  /** ACTION_PROBABILITY_FIELDS. */
  function ProbabilityField(row: HiddenRow, a: Intervention): real {
    match a
    case NoIntervention => row.pWithout
    case RecoveryLink => row.pLink
    case UpdatePrompt => row.pUpdate
    case Delay => row.pDelay
  }

  function OutcomeRow(row: HiddenRow): (r: seq<bool>)
    ensures |r| == |COLUMNS|
  {
    seq(|COLUMNS|, k requires 0 <= k < |COLUMNS| => Target(row, COLUMNS[k]))
  }

  function ProbabilityRow(row: HiddenRow): (r: seq<real>)
    ensures |r| == |COLUMNS|
  {
    seq(|COLUMNS|, k requires 0 <= k < |COLUMNS| => ProbabilityField(row, COLUMNS[k]))
  }

  /** The columns of both matrices line up: a recorded outcome is a recovery exactly when the draw is
      below the probability recorded, before formatting, in the same column. */
  lemma ColumnsAligned(c: Drawn, format: Format, k: nat)
    requires k < |COLUMNS|
    ensures OutcomeRow(Hidden(c, format))[k] <==> c.draw < Chance(c, COLUMNS[k])
    ensures ProbabilityRow(Hidden(c, format))[k] == format(Chance(c, COLUMNS[k]))
  {
  }
}
