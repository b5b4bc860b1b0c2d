/** The three proficiency levels and the thresholds that assign them. */
module Levels {

  /** The `proficiency_level` enumeration of the database. */
  datatype Level = Developmental | Satisfactory | Mastery

  /**
    Mastery from 85 per cent up, satisfactory from 60 up to 85, developmental
    below 60; each percentage gets exactly one level and both bounds are
    inclusive lower bounds.
  */
  function GetMasteryLevel(percentage: real): (level: Level)
    ensures level == Mastery <==> percentage >= 85.0
    ensures level == Satisfactory <==> 60.0 <= percentage < 85.0
    ensures level == Developmental <==> percentage < 60.0
  {
    if percentage >= 85.0 then Mastery
    else if percentage >= 60.0 then Satisfactory
    else Developmental
  }
}
