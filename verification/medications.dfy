/** Medication reminders: adding, marking taken, and the adherence figures
    of the medications page and the dashboard's "Meds Today" metric. */
module Medications {
  import opened Outcomes
  import opened Records
  import Seqs

  /** A medication record. Optional fields are the dictionary keys that
      records added by the user do not have. */
  datatype Medication = Medication(
    id: RecordId,
    name: string,
    dosage: Option<string>,
    time: string,
    takenToday: bool,
    frequency: Option<string>,
    purpose: Option<string>)

  /** `add_medication`: append a not-yet-taken reminder whose id is the
      current list length. It stores only id, name, time and the taken flag. */
  function AddMedication(meds: seq<Medication>, name: string, time: string): (r: seq<Medication>)
    ensures |r| == |meds| + 1 && r[..|meds|] == meds
    ensures r[|meds|].id == Index(|meds|) && r[|meds|].name == name && !r[|meds|].takenToday
    ensures r[|meds|].frequency.None?
  {
    meds + [Medication(Index(|meds|), name, None, time, false, None, None)]
  }

  /** The medication with its taken flag negated. */
  function Flip(m: Medication): Medication {
    m.(takenToday := !m.takenToday)
  }

  /** `toggle_medication`: negate the taken flag of every medication whose
      id is `id`. */
  function ToggleMedication(meds: seq<Medication>, id: RecordId): (r: seq<Medication>)
    ensures |r| == |meds|
    ensures forall i :: 0 <= i < |meds| && meds[i].id == id ==>
      r[i].takenToday == !meds[i].takenToday && r[i] == Flip(meds[i])
    ensures forall i :: 0 <= i < |meds| && meds[i].id != id ==> r[i] == meds[i]
    ensures forall i :: 0 <= i < |meds| ==> r[i].id == meds[i].id && r[i].frequency == meds[i].frequency
  {
    if |meds| == 0 then []
    else [if meds[0].id == id then Flip(meds[0]) else meds[0]] + ToggleMedication(meds[1..], id)
  }

  /** Toggling twice restores the list. */
  lemma ToggleMedicationTwice(meds: seq<Medication>, id: RecordId)
    ensures ToggleMedication(ToggleMedication(meds, id), id) == meds
  {
    var r := ToggleMedication(ToggleMedication(meds, id), id);
    assert forall i :: 0 <= i < |meds| ==> r[i] == meds[i];
  }

  /** The error Python raises when a dictionary key is missing. */
  datatype LookupError = KeyError(key: string)

  /** The non-PRN filter as written: it reads `m['frequency']` of every
      record, so one record without the key aborts the whole page. */
  function ScheduledAsWritten(meds: seq<Medication>): (r: Result<seq<Medication>, LookupError>)
    ensures r.Err? <==> exists i :: 0 <= i < |meds| && meds[i].frequency.None?
    ensures r.Ok? ==> r.value == Scheduled(meds)
  {
    if |meds| == 0 then Ok([])
    else
      match meds[0].frequency
      case None => Err(KeyError("frequency"))
      case Some(f) =>
        match ScheduledAsWritten(meds[1..])
        case Err(e) => Err(e)
        case Ok(rest) => Ok(if f != "PRN" then [meds[0]] + rest else rest)
  }

  /** Every medication added through the form breaks the adherence figures
      as written, whatever the list held before. */
  lemma AddedMedicationBreaksAdherence(meds: seq<Medication>, name: string, time: string)
    ensures ScheduledAsWritten(AddMedication(meds, name, time)) == Err(KeyError("frequency"))
  {
    var r := AddMedication(meds, name, time);
    assert r[|meds|].frequency.None?;
    ScheduledFailsAtFirstMissing(r);
  }

  /** The error, when there is one, is always the missing frequency key. */
  lemma {:induction false} ScheduledFailsAtFirstMissing(meds: seq<Medication>)
    ensures ScheduledAsWritten(meds).Err? ==> ScheduledAsWritten(meds) == Err(KeyError("frequency"))
  {
    if |meds| > 0 {
      ScheduledFailsAtFirstMissing(meds[1..]);
    }
  }

  /** The frequency a medication is treated as having: its own, or "Daily"
      when the record has none, as the medication list displays it. */
  function FrequencyOf(m: Medication): (f: string)
    ensures m.frequency.Some? ==> f == m.frequency.value
    ensures m.frequency.None? ==> f == "Daily"
  {
    m.frequency.GetOr("Daily")
  }

  /** A medication taken on a schedule, not "as needed". */
  predicate IsScheduled(m: Medication) {
    FrequencyOf(m) != "PRN"
  }

  /** The scheduled (non-PRN) medications, in list order. */
  function Scheduled(meds: seq<Medication>): (r: seq<Medication>)
    ensures forall m :: m in r <==> m in meds && FrequencyOf(m) != "PRN"
  {
    Seqs.Filter(meds, IsScheduled)
  }

  /** Taken and total counts of scheduled medications. */
  datatype Tally = Tally(taken: nat, scheduled: nat)

  /** The medications page's adherence counts: PRN medications count in
      neither figure, no more can be taken than are scheduled, and the two
      are equal exactly when every scheduled medication is marked taken. */
  function Adherence(meds: seq<Medication>): (r: Tally)
    ensures r.taken <= r.scheduled <= |meds|
    ensures r.scheduled == Seqs.Count(meds, IsScheduled)
    ensures r.taken == r.scheduled <==> forall m :: m in meds && IsScheduled(m) ==> m.takenToday
  {
    var s := Scheduled(meds);
    Seqs.FilterFullIffAll(s, (m: Medication) => m.takenToday);
    Tally(Seqs.Count(s, (m: Medication) => m.takenToday), |s|)
  }

  /** With a missing frequency read as "Daily", a medication added through
      the form is scheduled and not yet taken: it raises the denominator by
      one and leaves the taken count alone. */
  lemma AddedMedicationIsScheduled(meds: seq<Medication>, name: string, time: string)
    ensures Adherence(AddMedication(meds, name, time)) ==
      Tally(Adherence(meds).taken, Adherence(meds).scheduled + 1)
  {
    var m := AddMedication(meds, name, time)[|meds|];
    var taken := (m: Medication) => m.takenToday;
    assert AddMedication(meds, name, time) == meds + [m];
    assert FrequencyOf(m) == "Daily";
    assert Seqs.Filter([m], IsScheduled) == [m];
    assert Seqs.Filter([m], taken) == [];
    Seqs.FilterConcat(meds, [m], IsScheduled);
    assert Scheduled(meds + [m]) == Scheduled(meds) + [m];
    Seqs.FilterConcat(Scheduled(meds), [m], taken);
  }

  /** The dashboard's "Meds Today" counts, filtering the whole list by
      "not PRN and taken" in one pass. */
  function MedsToday(meds: seq<Medication>): (r: Tally)
    ensures r.taken <= r.scheduled <= |meds|
  {
    Seqs.FilterFilter(meds, IsScheduled, (m: Medication) => m.takenToday,
                      (m: Medication) => IsScheduled(m) && m.takenToday);
    Tally(Seqs.Count(meds, (m: Medication) => IsScheduled(m) && m.takenToday), Seqs.Count(meds, IsScheduled))
  }

  /** The dashboard and the medications page show the same counts. */
  lemma MedsTodayAgrees(meds: seq<Medication>)
    ensures MedsToday(meds) == Adherence(meds)
  {
    Seqs.FilterFilter(meds, IsScheduled, (m: Medication) => m.takenToday,
                      (m: Medication) => IsScheduled(m) && m.takenToday);
  }

  /** A PRN medication, wherever it sits in the list, changes neither count. */
  lemma PrnNeverCounts(front: seq<Medication>, m: Medication, back: seq<Medication>)
    requires FrequencyOf(m) == "PRN"
    ensures Adherence(front + [m] + back) == Adherence(front + back)
  {
    var keep := IsScheduled;
    calc {
      Seqs.Filter(front + [m] + back, keep);
      { Seqs.FilterConcat(front + [m], back, keep); }
      Seqs.Filter(front + [m], keep) + Seqs.Filter(back, keep);
      { Seqs.FilterConcat(front, [m], keep); assert Seqs.Filter([m], keep) == []; }
      Seqs.Filter(front, keep) + Seqs.Filter(back, keep);
      { Seqs.FilterConcat(front, back, keep); }
      Seqs.Filter(front + back, keep);
    }
  }

  /** Marking medications taken or not never changes how many are scheduled. */
  lemma {:induction false} ToggleKeepsScheduled(meds: seq<Medication>, id: RecordId)
    ensures Adherence(ToggleMedication(meds, id)).scheduled == Adherence(meds).scheduled
  {
    if |meds| > 0 {
      var t := ToggleMedication(meds, id);
      assert t[1..] == ToggleMedication(meds[1..], id);
      ToggleKeepsScheduled(meds[1..], id);
    }
  }

  /** A factor whose product with a positive number is non-negative is
      itself non-negative. */
  lemma NonNegativeFactor(x: real, y: real)
    requires y > 0.0 && x * y >= 0.0
    ensures x >= 0.0
  {
  }

  /** `taken / scheduled * 100` lies between 0 and 100 and reaches 100 only
      when the two counts are equal. */
  lemma PercentBounds(taken: nat, scheduled: nat)
    requires taken <= scheduled && scheduled > 0
    ensures 0.0 <= taken as real / scheduled as real * 100.0 <= 100.0
    ensures taken as real / scheduled as real * 100.0 == 100.0 <==> taken == scheduled
  {
    var t, s := taken as real, scheduled as real;
    var q := t / s;
    assert q * s == t;
    NonNegativeFactor(q, s);
    assert (1.0 - q) * s == s - t;
    NonNegativeFactor(1.0 - q, s);
    if taken == scheduled {
      assert q == 1.0;
    }
  }

  /** The percentage on the medications page, shown only when some
      medication is scheduled: 100 exactly when every one is taken. */
  function AdherencePercent(meds: seq<Medication>): (r: Option<real>)
    ensures r.None? <==> Adherence(meds).scheduled == 0
    ensures r.Some? ==> 0.0 <= r.value <= 100.0
    ensures r.Some? ==> (r.value == 100.0 <==> Adherence(meds).taken == Adherence(meds).scheduled)
    ensures r.Some? ==> (r.value == 100.0 <==> forall m :: m in meds && IsScheduled(m) ==> m.takenToday)
  {
    var t := Adherence(meds);
    if t.scheduled > 0 then
      PercentBounds(t.taken, t.scheduled);
      Some(t.taken as real / t.scheduled as real * 100.0) else None
  }
}
