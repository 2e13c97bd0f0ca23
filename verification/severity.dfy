/** Symptom severity bands on the 1-10 scale: the dashboard's symptom check
    (Good / Moderate / High) and the traffic-light colour of the symptom
    list, which uses a lower upper cut-off. */
module Severity {

  datatype Band = Good | Moderate | High

  /** Position of a band from mildest to worst. */
  function BandRank(b: Band): nat {
    match b
    case Good => 0
    case Moderate => 1
    case High => 2
  }

  /** The symptom-check band: at most 3 is Good, at most 7 Moderate,
      anything above High. */
  function SymptomBand(severity: int): (b: Band)
    ensures b == Good <==> severity <= 3
    ensures b == Moderate <==> 4 <= severity <= 7
    ensures b == High <==> 8 <= severity
  {
    if severity <= 3 then Good
    else if severity <= 7 then Moderate
    else High
  }

  /** A worse severity never gets a milder band. */
  lemma SymptomBandMonotone(a: int, b: int)
    requires a <= b
    ensures BandRank(SymptomBand(a)) <= BandRank(SymptomBand(b))
  {
  }

  datatype Colour = Green | Yellow | Red

  function ColourRank(c: Colour): nat {
    match c
    case Green => 0
    case Yellow => 1
    case Red => 2
  }

  /** The symptom-list colour: at most 3 is green, at most 6 yellow,
      anything above red. */
  function SeverityColour(severity: int): (c: Colour)
    ensures c == Green <==> severity <= 3
    ensures c == Yellow <==> 4 <= severity <= 6
    ensures c == Red <==> 7 <= severity
  {
    if severity <= 3 then Green
    else if severity <= 6 then Yellow
    else Red
  }

  /** A worse severity never gets a milder colour. */
  lemma SeverityColourMonotone(a: int, b: int)
    requires a <= b
    ensures ColourRank(SeverityColour(a)) <= ColourRank(SeverityColour(b))
  {
  }

  /** The two scales agree everywhere except at severity 7, which the
      symptom check calls Moderate and the symptom list colours red. */
  lemma ScalesDifferOnlyAtSeven(severity: int)
    ensures ColourRank(SeverityColour(severity)) == BandRank(SymptomBand(severity)) <==> severity != 7
    ensures severity == 7 ==> SymptomBand(severity) == Moderate && SeverityColour(severity) == Red
  {
  }
}
