/** The travel form: four text fields, a submit guard that needs all four,
    and the record it hands to the page. */
module TravelForm {
  import opened Schema

  /** The month options of the month picker. */
  const MONTHS: seq<string> := [
    "January", "February", "March", "April", "May", "June",
    "July", "August", "September", "October", "November", "December"
  ]

  /** The mood options of the mood picker. */
  const MOOD_OPTIONS: seq<string> := ["Relaxing", "Adventurous", "Cultural", "Romantic"]

  /** The pickers offer twelve distinct months, and exactly the moods the validator accepts. */
  lemma OptionsMatchValidator()
    ensures |MONTHS| == 12
    ensures forall i, j :: 0 <= i < j < |MONTHS| ==> MONTHS[i] != MONTHS[j]
    ensures MOOD_OPTIONS == MOODS
    ensures forall m :: m in MOOD_OPTIONS <==> InvalidMood !in Issues(Preferences(0.0, 1.0, "", m))
  {
  }

  /** The form component's state: the four fields as the user has left them.
      A number field holds whatever text was typed; a picker holds "" until
      an option is picked. */
  class Form {
    var budget: string
    var duration: string
    var month: string
    var mood: string

    /** The pickers only ever hold "" or one of their options. */
    ghost predicate Valid()
      reads this
    {
      (month == "" || month in MONTHS) && (mood == "" || mood in MOOD_OPTIONS)
    }

    /** Every field starts empty. */
    constructor ()
      ensures Valid()
      ensures budget == "" && duration == "" && month == "" && mood == ""
    {
      budget, duration, month, mood := "", "", "", "";
    }

    method ChangeBudget(text: string)
      requires Valid()
      modifies this
      ensures Valid()
      ensures budget == text && duration == old(duration) && month == old(month) && mood == old(mood)
    {
      budget := text;
    }

    method ChangeDuration(text: string)
      requires Valid()
      modifies this
      ensures Valid()
      ensures duration == text && budget == old(budget) && month == old(month) && mood == old(mood)
    {
      duration := text;
    }

    /** Picking a month: the picker offers only the twelve names. */
    method PickMonth(m: string)
      requires Valid() && m in MONTHS
      modifies this
      ensures Valid()
      ensures month == m && budget == old(budget) && duration == old(duration) && mood == old(mood)
    {
      month := m;
    }

    /** Picking a mood: the picker offers only the four moods. */
    method PickMood(m: string)
      requires Valid() && m in MOOD_OPTIONS
      modifies this
      ensures Valid()
      ensures mood == m && budget == old(budget) && duration == old(duration) && month == old(month)
    {
      mood := m;
    }

    /** Every field holds some text: exactly when submitting builds a record. */
    function IsFormValid(): (valid: bool)
      reads this
      ensures valid <==> forall b: real, d: real :: HandleSubmit(b, d).Some?
    {
      assert HandleSubmit(0.0, 0.0).Some? ==> month != "";
      budget != "" && duration != "" && month != "" && mood != ""
    }

    /** Submitting the form: nothing when a field is empty, otherwise the
        record built from the fields. `budgetNumber` and `durationNumber`
        are the numbers the two number fields' texts convert to. */
    function HandleSubmit(budgetNumber: real, durationNumber: real): (r: Option<Preferences>)
      reads this
      ensures r.Some? <==> budget != "" && duration != "" && month != "" && mood != ""
      ensures r.Some? ==> r.value.month == month && r.value.mood == mood
      ensures r.Some? ==> r.value.budget == budgetNumber && r.value.duration == durationNumber
    {
      if budget == "" || duration == "" || month == "" || mood == "" then None
      else Some(Preferences(budgetNumber, durationNumber, month, mood))
    }

    /** The submit button is disabled while the form is incomplete or a request is loading. */
    function SubmitDisabled(isLoading: bool): (disabled: bool)
      reads this
      ensures !disabled <==> !isLoading && HandleSubmit(0.0, 0.0).Some?
    {
      !IsFormValid() || isLoading
    }
  }

  /** An enabled button never meets the early return, and what it submits
      always passes the validator's month and mood checks. */
  lemma EnabledSubmitReachesPage(f: Form, isLoading: bool, budgetNumber: real, durationNumber: real)
    requires f.Valid()
    requires !f.SubmitDisabled(isLoading)
    ensures f.HandleSubmit(budgetNumber, durationNumber).Some?
    ensures f.HandleSubmit(budgetNumber, durationNumber).value.month in MONTHS
    ensures InvalidMood !in Issues(f.HandleSubmit(budgetNumber, durationNumber).value)
  {
    OptionsMatchValidator();
  }
}
