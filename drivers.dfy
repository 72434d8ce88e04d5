/** The closed set of worry drivers (`DRIVERS` in the analyzer and the
    router) and their names on the wire. */
module Drivers {

  import opened Wrappers

  datatype Driver = JobLoss | ValueThreat | SkillErosion

  function Name(d: Driver): string {
    match d
    case JobLoss => "job_loss"
    case ValueThreat => "value_threat"
    case SkillErosion => "skill_erosion"
  }

  /** `s in DRIVERS`, giving the driver it names */
  function Parse(s: string): (r: Option<Driver>)
    ensures r.Some? ==> Name(r.value) == s
    ensures r.None? <==> forall d: Driver :: Name(d) != s
  {
    if s == "job_loss" then Some(JobLoss)
    else if s == "value_threat" then Some(ValueThreat)
    else if s == "skill_erosion" then Some(SkillErosion)
    else None
  }

  /** Every driver's name is accepted and read back as that driver. */
  lemma ParseName(d: Driver)
    ensures Parse(Name(d)) == Some(d)
  {
  }
}
