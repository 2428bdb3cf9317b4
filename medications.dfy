/** The medication reminder list of the medication screen: its seeded state,
    the guarded add of a new medication from the draft form, and the toggle
    of a medication's enabled flag by id. */
module Medications {
  import opened JsString

  /** One row of the list. `id` is a JavaScript number; the ids the screen
      hands out are integers (the seed's 1 and `Date.now()` milliseconds). */
  datatype Medication = Medication(id: int, name: string, time: string, enabled: bool)

  /** The add form's draft: the typed name and the value of the time input. */
  datatype Draft = Draft(name: string, time: string)

  /** The marker the form appends to every stored time: a space and the
      Arabic letter Sad, the abbreviation for "morning". */
  const MorningMarker: string := " \U{0635}"

  /** The draft the screen starts with and resets to after an add. */
  const InitialDraft: Draft := Draft("", "09:00")

  /** The one medication the list is seeded with. */
  const SeedMedication: Medication :=
    Medication(1, "\U{0623} \U{0645}\U{0644}\U{0648}\U{062F}\U{064A}\U{0628}\U{064A}\U{064A}\U{0646}",
               "09:00" + MorningMarker, true)

  /** The add handler's guard `if (newMedication.name.trim())`: it holds
      exactly when the name has a non-whitespace character. */
  predicate AcceptsName(name: string)
    ensures AcceptsName(name) <==> exists i :: 0 <= i < |name| && !IsWhitespace(name[i])
  {
    TrimTruthyIffVisible(name);
    Truthy(Trim(name))
  }

  predicate EndsWith(s: string, suffix: string) {
    |suffix| <= |s| && s[|s| - |suffix|..] == suffix
  }

  /** What the list guarantees of each of its rows: a name with a visible
      character and a time carrying the morning marker. */
  ghost predicate WellFormed(meds: seq<Medication>) {
    forall i :: 0 <= i < |meds| ==> AcceptsName(meds[i].name) && EndsWith(meds[i].time, MorningMarker)
  }

  /** The row a successful add creates from the draft: enabled, with the
      given id, the name as typed and the draft time carrying the marker. */
  function NewEntry(draft: Draft, id: int): (m: Medication)
    ensures m.enabled && m.id == id && m.name == draft.name
    ensures |m.time| == |draft.time| + |MorningMarker|
    ensures m.time[..|draft.time|] == draft.time && EndsWith(m.time, MorningMarker)
  {
    Medication(id, draft.name, draft.time + MorningMarker, true)
  }

  /** The list after a successful add: the old rows, then the new one. */
  function Added(meds: seq<Medication>, draft: Draft, id: int): (r: seq<Medication>)
    ensures |r| == |meds| + 1
    ensures r[..|meds|] == meds
    ensures r[|meds|] == NewEntry(draft, id)
  {
    meds + [NewEntry(draft, id)]
  }

  /** One row under `toggleMedication(id)`: the enabled flag changes
      exactly when the row's id is `id`, and no other field changes. */
  function Flipped(m: Medication, id: int): (r: Medication)
    ensures r.enabled != m.enabled <==> m.id == id
    ensures r.id == m.id && r.name == m.name && r.time == m.time
  {
    if m.id == id then m.(enabled := !m.enabled) else m
  }

  /** The list after `toggleMedication(id)`: every row whose id equals `id`
      has its enabled flag negated, every other row is kept, and the order
      and the other fields of all rows are kept. */
  function Toggled(meds: seq<Medication>, id: int): (r: seq<Medication>)
    ensures |r| == |meds|
    ensures forall i :: 0 <= i < |meds| && meds[i].id == id ==> r[i] == meds[i].(enabled := !meds[i].enabled)
    ensures forall i :: 0 <= i < |meds| && meds[i].id != id ==> r[i] == meds[i]
    ensures forall i :: 0 <= i < |meds| ==>
      r[i].id == meds[i].id && r[i].name == meds[i].name && r[i].time == meds[i].time
  {
    if meds == [] then [] else [Flipped(meds[0], id)] + Toggled(meds[1..], id)
  }

  /** The new row is enabled, keeps the name exactly as typed (untrimmed)
      and stores the draft time followed by the morning marker, whatever
      the hour of that time. It gathers, for the reader, what `Added` and
      `NewEntry` already promise about the added row. */
  lemma AddedEntry(meds: seq<Medication>, draft: Draft, id: int)
    ensures Added(meds, draft, id)[|meds|].enabled
    ensures Added(meds, draft, id)[|meds|].id == id
    ensures Added(meds, draft, id)[|meds|].name == draft.name
    ensures Added(meds, draft, id)[|meds|].time == draft.time + MorningMarker
    ensures EndsWith(Added(meds, draft, id)[|meds|].time, MorningMarker)
  {
    var t := draft.time + MorningMarker;
    assert t[|t| - |MorningMarker|..] == MorningMarker;
  }

  /** Toggling the same id twice restores the list. */
  lemma {:induction false} ToggledTwice(meds: seq<Medication>, id: int)
    ensures Toggled(Toggled(meds, id), id) == meds
  {
    if meds != [] {
      ToggledTwice(meds[1..], id);
      assert Toggled(Toggled(meds, id), id) == [meds[0]] + Toggled(Toggled(meds[1..], id), id);
    }
  }

  /** Toggling an id that no row carries changes nothing. */
  lemma {:induction false} ToggledAbsent(meds: seq<Medication>, id: int)
    requires forall i :: 0 <= i < |meds| ==> meds[i].id != id
    ensures Toggled(meds, id) == meds
  {
    if meds != [] {
      ToggledAbsent(meds[1..], id);
    }
  }

  /** Toggles of two ids commute. */
  lemma {:induction false} ToggledCommute(meds: seq<Medication>, a: int, b: int)
    ensures Toggled(Toggled(meds, a), b) == Toggled(Toggled(meds, b), a)
  {
    if meds != [] {
      ToggledCommute(meds[1..], a, b);
      assert Toggled(Toggled(meds, a), b) == [Flipped(Flipped(meds[0], a), b)] + Toggled(Toggled(meds[1..], a), b);
      assert Toggled(Toggled(meds, b), a) == [Flipped(Flipped(meds[0], b), a)] + Toggled(Toggled(meds[1..], b), a);
    }
  }

  /** The seeded list is well formed. */
  lemma SeedWellFormed()
    ensures WellFormed([SeedMedication])
  {
    VisibleAccepted(SeedMedication.name, 0);
    assert EndsWith("09:00" + MorningMarker, MorningMarker);
  }

  /** A name with a visible character at `k` passes the add guard. */
  lemma VisibleAccepted(name: string, k: nat)
    requires k < |name| && !IsWhitespace(name[k])
    ensures AcceptsName(name)
  {
    TrimTruthyIffVisible(name);
  }

  /** An accepted add keeps the list well formed. */
  lemma AddedWellFormed(meds: seq<Medication>, draft: Draft, id: int)
    requires WellFormed(meds)
    requires AcceptsName(draft.name)
    ensures WellFormed(Added(meds, draft, id))
  {
    AddedEntry(meds, draft, id);
    var r := Added(meds, draft, id);
    forall i | 0 <= i < |r|
      ensures AcceptsName(r[i].name) && EndsWith(r[i].time, MorningMarker)
    {
      if i < |meds| {
        assert r[i] == r[..|meds|][i] == meds[i];
      }
    }
  }

  /** A toggle keeps the list well formed. */
  lemma ToggledWellFormed(meds: seq<Medication>, id: int)
    requires WellFormed(meds)
    ensures WellFormed(Toggled(meds, id))
  {
  }

  /** The state of the medication screen. */
  class MedicationReminder {
    var medications: seq<Medication>
    var showAddForm: bool
    var newMedication: Draft

    ghost predicate Valid()
      reads this
    {
      WellFormed(medications)
    }

    /** The initial state: the seeded medication, the form hidden and an
        empty draft with time 09:00. */
    constructor ()
      ensures Valid()
      ensures medications == [SeedMedication]
      ensures !showAddForm
      ensures newMedication == InitialDraft
    {
      medications := [SeedMedication];
      showAddForm := false;
      newMedication := InitialDraft;
      SeedWellFormed();
    }

    /** `handleAddMedication`, with `id` standing for the `Date.now()` the
        source reads. A blank name changes nothing; otherwise the list grows
        by the new row, the draft is reset and the form is closed. */
    method HandleAddMedication(id: int)
      requires Valid()
      modifies this
      ensures Valid()
      ensures AcceptsName(old(newMedication.name)) ==>
        && medications == Added(old(medications), old(newMedication), id)
        && newMedication == InitialDraft
        && !showAddForm
      ensures !AcceptsName(old(newMedication.name)) ==>
        && medications == old(medications)
        && newMedication == old(newMedication)
        && showAddForm == old(showAddForm)
    {
      if AcceptsName(newMedication.name) {
        AddedWellFormed(medications, newMedication, id);
        medications := Added(medications, newMedication, id);
        newMedication := InitialDraft;
        showAddForm := false;
      }
    }

    /** `toggleMedication(id)`: only the list changes. */
    method ToggleMedication(id: int)
      requires Valid()
      modifies this
      ensures Valid()
      ensures medications == Toggled(old(medications), id)
      ensures showAddForm == old(showAddForm) && newMedication == old(newMedication)
    {
      ToggledWellFormed(medications, id);
      medications := Toggled(medications, id);
    }

    /** The "add medication" button: shows the form. */
    method OpenAddForm()
      requires Valid()
      modifies this
      ensures Valid()
      ensures showAddForm
      ensures medications == old(medications) && newMedication == old(newMedication)
    {
      showAddForm := true;
    }

    /** The cancel button: hides the form and keeps the draft. */
    method CancelAddForm()
      requires Valid()
      modifies this
      ensures Valid()
      ensures !showAddForm
      ensures medications == old(medications) && newMedication == old(newMedication)
    {
      showAddForm := false;
    }

    /** Typing in the name input: replaces the draft's name only. */
    method EditDraftName(name: string)
      requires Valid()
      modifies this
      ensures Valid()
      ensures newMedication == old(newMedication).(name := name)
      ensures medications == old(medications) && showAddForm == old(showAddForm)
    {
      newMedication := newMedication.(name := name);
    }

    /** Changing the time input: replaces the draft's time only. */
    method EditDraftTime(time: string)
      requires Valid()
      modifies this
      ensures Valid()
      ensures newMedication == old(newMedication).(time := time)
      ensures medications == old(medications) && showAddForm == old(showAddForm)
    {
      newMedication := newMedication.(time := time);
    }
  }
}
