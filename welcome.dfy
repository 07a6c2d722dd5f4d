/** The welcome page: an intro step, then a step asking for a name and a
    table number; submitting or skipping marks the welcome as seen. The
    animations and the navigation home are not modelled. */
module WelcomePage {
  import opened Util
  import opened Text
  import opened UserStore

  /** The preferences after submitting `name` and `tableNumber`: both trimmed
      and merged when the trimmed name is non-empty, nothing otherwise. */
  function Submitted(p: Preferences, name: string, tableNumber: string): Preferences {
    if Trim(name) != "" then Merge(p, ProfilePatch(Some(Trim(name)), None, Some(Trim(tableNumber)))) else p
  }

  /** A name that is not blank is stored trimmed together with the trimmed
      table number, and the phone and favourites are kept; a blank name keeps
      the preferences exactly, whatever table number was entered. */
  lemma SubmittedSpec(p: Preferences, name: string, tableNumber: string)
    ensures !AllSpace(name) ==>
      var r := Submitted(p, name, tableNumber);
      r.name == Trim(name) && r.name != "" && r.tableNumber == Trim(tableNumber)
      && r.phone == p.phone && r.favoriteItems == p.favoriteItems
    ensures AllSpace(name) ==> Submitted(p, name, tableNumber) == p
  {
    TrimEmptyIffBlank(name);
  }

  /** Submitting the same entries twice is submitting them once. */
  lemma SubmittedTwice(p: Preferences, name: string, tableNumber: string)
    ensures Submitted(Submitted(p, name, tableNumber), name, tableNumber) == Submitted(p, name, tableNumber)
  {
    MergeThen(p, ProfilePatch(Some(Trim(name)), None, Some(Trim(tableNumber))),
                 ProfilePatch(Some(Trim(name)), None, Some(Trim(tableNumber))));
  }

  class Welcome {
    /** 0 is the intro, 1 the name-and-table step. */
    var step: int
    var name: string
    var tableNumber: string

    constructor()
      ensures step == 0 && name == "" && tableNumber == ""
    {
      step := 0;
      name := "";
      tableNumber := "";
    }

    method SetName(value: string)
      modifies this
      ensures name == value && step == old(step) && tableNumber == old(tableNumber)
    {
      name := value;
    }

    method SetTableNumber(value: string)
      modifies this
      ensures tableNumber == value && step == old(step) && name == old(name)
    {
      tableNumber := value;
    }

    /** `handleGetStarted`: the intro gives way to the second step once its
        fade-out completes. It is the only handler that changes the step. */
    method HandleGetStarted()
      modifies this
      ensures step == 1 && name == old(name) && tableNumber == old(tableNumber)
    {
      step := 1;
    }

    /** `handleSubmit`. */
    method HandleSubmit(user: User)
      modifies user
      ensures user.preferences == Submitted(old(user.preferences), name, tableNumber)
      ensures user.hasSeenWelcome
      ensures user.user == old(user.user) && user.isLoggedIn == old(user.isLoggedIn)
      ensures user.orderHistory == old(user.orderHistory)
      ensures old(user.Valid()) ==> user.Valid()
    {
      if Trim(name) != "" {
        user.UpdatePreferences(ProfilePatch(Some(Trim(name)), None, Some(Trim(tableNumber))));
      }
      user.SetHasSeenWelcome(true);
    }

    /** `handleSkip`: only the welcome flag changes. */
    method HandleSkip(user: User)
      modifies user
      ensures user.hasSeenWelcome
      ensures user.preferences == old(user.preferences)
      ensures user.user == old(user.user) && user.isLoggedIn == old(user.isLoggedIn)
      ensures user.orderHistory == old(user.orderHistory)
      ensures old(user.Valid()) ==> user.Valid()
    {
      user.SetHasSeenWelcome(true);
    }
  }
}
