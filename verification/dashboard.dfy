/** The dashboard: the greeting, the taken and upcoming counters, and one row per
    medication. It holds no state; everything is a function of the list and the profile. */
module Dashboard {
  import opened Records
  import opened Text

  /** `medications.filter(m => m.taken)`: the taken medications, in list order. */
  function Taken(meds: seq<Medication>): (r: seq<Medication>)
    ensures |r| <= |meds|
    ensures forall k :: 0 <= k < |r| ==> r[k].taken
  {
    if meds == [] then []
    else
      var init, last := meds[..|meds| - 1], meds[|meds| - 1];
      if last.taken then Taken(init) + [last] else Taken(init)
  }

  /** The "Taken Today" counter. */
  function TakenToday(meds: seq<Medication>): (n: nat)
    ensures n <= |meds|
  {
    |Taken(meds)|
  }

  /** The "Upcoming" counter: the medications not counted as taken. */
  function Upcoming(meds: seq<Medication>): (n: nat)
    ensures n + TakenToday(meds) == |meds|
  {
    |meds| - TakenToday(meds)
  }

  /** The positions of the taken medications. */
  ghost function TakenPositions(meds: seq<Medication>): set<nat> {
    set i: nat | i < |meds| && meds[i].taken
  }

  /** "Taken Today" is the number of list positions whose medication is taken. */
  lemma {:induction false} TakenTodayCountsPositions(meds: seq<Medication>)
    ensures TakenToday(meds) == |TakenPositions(meds)|
  {
    if meds != [] {
      var init, last := meds[..|meds| - 1], meds[|meds| - 1];
      TakenTodayCountsPositions(init);
      assert meds == init + [last];
      if last.taken {
        assert TakenPositions(meds) == TakenPositions(init) + {|init|};
      } else {
        assert TakenPositions(meds) == TakenPositions(init);
      }
    }
  }

  /** Filtering a concatenation filters each part. */
  lemma {:induction false} TakenConcat(a: seq<Medication>, b: seq<Medication>)
    ensures Taken(a + b) == Taken(a) + Taken(b)
  {
    if b == [] {
      assert a + b == a;
    } else {
      var init, last := b[..|b| - 1], b[|b| - 1];
      TakenConcat(a, init);
      assert a + b == (a + init) + [last];
      assert (a + b)[..|a + b| - 1] == a + init;
    }
  }

  /** A medication put in front of the list adds one to "Taken Today" if it is taken
      and one to "Upcoming" otherwise. */
  lemma CountersAfterPrepend(m: Medication, meds: seq<Medication>)
    ensures TakenToday([m] + meds) == TakenToday(meds) + (if m.taken then 1 else 0)
    ensures Upcoming([m] + meds) == Upcoming(meds) + (if m.taken then 0 else 1)
  {
    TakenConcat([m], meds);
    assert [m][..0] == [];
  }

  /** An empty list shows zero on both counters. */
  lemma EmptyCounters(meds: seq<Medication>)
    requires meds == []
    ensures TakenToday(meds) == 0 && Upcoming(meds) == 0
  {
  }

  /** The first name in the greeting: `profile?.name?.split(' ')[0] || 'User'`. It is the
      longest space-free prefix of the name, or "User" when there is no profile, no name, or
      that prefix is empty. */
  function Greeting(profile: Option<Profile>): (g: string)
    ensures g != ""
    ensures profile.None? || NameOf(profile.value).None? ==> g == "User"
    ensures profile.Some? && NameOf(profile.value).Some? ==>
      var n := NameOf(profile.value).value;
      if n == "" || n[0] == ' ' then g == "User"
      else g <= n && ' ' !in g && (|g| == |n| || n[|g|] == ' ')
  {
    match profile
    case None => "User"
    case Some(p) =>
      match NameOf(p)
      case None => "User"
      case Some(n) =>
        var first := Split(n, ' ')[0];
        if first == "" then "User" else first
  }

  /** The "Next dose" cell: `ai_schedule.schedule[0].time`, or "—" when any step is
      missing or the time is empty. */
  function NextDose(m: Medication): (t: string)
    ensures t != ""
    ensures t != "—" ==>
      m.aiSchedule.Some? && m.aiSchedule.value.schedule.Some? && |m.aiSchedule.value.schedule.value| > 0
      && m.aiSchedule.value.schedule.value[0].time == Some(t)
    ensures m.aiSchedule.Some? && m.aiSchedule.value.schedule.Some? && |m.aiSchedule.value.schedule.value| > 0
      && m.aiSchedule.value.schedule.value[0].time.Some? && m.aiSchedule.value.schedule.value[0].time.value != ""
      ==> t == m.aiSchedule.value.schedule.value[0].time.value
  {
    match m.aiSchedule
    case None => "—"
    case Some(s) =>
      match s.schedule
      case None => "—"
      case Some(doses) =>
        if |doses| == 0 then "—"
        else
          match doses[0].time
          case Some(time) => if time == "" then "—" else time
          case None => "—"
  }

  /** One row of the list; clicking it reports `clickId`. */
  datatype Row = Row(clickId: string, drugName: string, dosage: string, instructions: string, nextDose: string)

  /** The list area: the empty-state message, or the rows. */
  datatype Listing = EmptyMessage | Rows(rows: seq<Row>)

  /** `medications.map(...)`: one row per medication, in list order. */
  function RowsOf(meds: seq<Medication>): (rows: seq<Row>)
    ensures |rows| == |meds|
    ensures forall i :: 0 <= i < |meds| ==>
      rows[i].clickId == meds[i].id && rows[i].drugName == meds[i].drugName
      && rows[i].dosage == meds[i].dosage && rows[i].instructions == meds[i].instructions
      && rows[i].nextDose == NextDose(meds[i])
  {
    if meds == [] then []
    else [Row(meds[0].id, meds[0].drugName, meds[0].dosage, meds[0].instructions, NextDose(meds[0]))] + RowsOf(meds[1..])
  }

  /** The list area for a medication list. */
  function ListingOf(meds: seq<Medication>): (l: Listing)
    ensures l.EmptyMessage? <==> meds == []
    ensures l.Rows? ==> |l.rows| == |meds| && forall i :: 0 <= i < |meds| ==> l.rows[i].clickId == meds[i].id
  {
    if |meds| == 0 then EmptyMessage else Rows(RowsOf(meds))
  }
}
