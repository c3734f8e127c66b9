/**
 * The session state of the calculator page: the working inputs, the result
 * on display, the error line, the theme, the explosion alert, the history
 * and its copy in local storage, and the handlers that change them.
 */
module Session {
  import opened Wrappers
  import opened Evaluator
  import opened HistoryList

  /** Why a submission is refused. */
  datatype ValidationError = EarnedExceedsTotal | ZeroTotal | NegativeValue

  function ErrorText(k: ValidationError): (s: string)
    ensures s != ""
  {
    match k
    case EarnedExceedsTotal => "Points earned cannot be greater than total points"
    case ZeroTotal => "Total points cannot be zero"
    case NegativeValue => "Values cannot be negative"
  }

  /**
   * The checks of the calculate handler, in their order: earned above total,
   * then a zero total, then a negative value. A submission passes exactly when
   * 0 <= earned <= total and total > 0. Because earned <= total is already
   * known at the last check, a negative total is always caught through a
   * negative earned value as well.
   */
  function Validate(earned: real, total: real): (r: Option<ValidationError>)
    ensures r == None <==> 0.0 <= earned <= total && total > 0.0
    ensures r == Some(EarnedExceedsTotal) <==> earned > total
    ensures r == Some(ZeroTotal) <==> earned <= total && total == 0.0
    ensures r == Some(NegativeValue) <==> earned < 0.0 && earned <= total && total != 0.0
  {
    if earned > total then Some(EarnedExceedsTotal)
    else if total == 0.0 then Some(ZeroTotal)
    else if earned < 0.0 || total < 0.0 then Some(NegativeValue)
    else None
  }

  datatype Theme = Green | Blue

  /** The other theme. */
  function Flip(t: Theme): (r: Theme)
    ensures r != t
  {
    if t == Green then Blue else Green
  }

  /** Toggling the theme twice restores it. */
  lemma FlipInvolution(t: Theme)
    ensures Flip(Flip(t)) == t
  {
  }

  /** The state of the calculator page component. */
  class Home {
    var earned: real
    var total: real
    var currentGrade: Option<TestEntry>
    var history: seq<TestEntry>
    var error: string
    var theme: Theme
    var showExplosion: bool
    /** The `testHistory` key of local storage; None when the key is absent. */
    var storage: Option<seq<TestEntry>>

    /** What a reload would read back from storage. */
    function Stored(): seq<TestEntry>
      reads this
    {
      if storage.Some? then storage.value else []
    }

    /**
     * Storage mirrors the history; a displayed result is a well-formed entry
     * and never shown together with an error; the error line is empty or one
     * of the validation messages.
     */
    ghost predicate Valid()
      reads this
    {
      Stored() == history &&
      (currentGrade.Some? ==> error == "" && WellFormed(currentGrade.value)) &&
      (error == "" || error == ErrorText(EarnedExceedsTotal) ||
       error == ErrorText(ZeroTotal) || error == ErrorText(NegativeValue))
    }

    /**
     * The page as it is after mounting: empty inputs, green theme, and the
     * history loaded from what storage held under its key.
     */
    constructor (saved: Option<seq<TestEntry>>)
      ensures Valid()
      ensures earned == 0.0 && total == 0.0 && currentGrade == None && error == ""
      ensures theme == Green && !showExplosion
      ensures storage == saved && history == (if saved.Some? then saved.value else [])
    {
      earned, total := 0.0, 0.0;
      currentGrade := None;
      error := "";
      theme := Green;
      showExplosion := false;
      storage := saved;
      history := if saved.Some? then saved.value else [];
    }

    /** The earned-points input, after its text has been parsed. */
    method SetEarned(x: real)
      requires Valid()
      modifies this`earned
      ensures Valid()
      ensures earned == x
    {
      earned := x;
    }

    /** The total-points input, after its text has been parsed. */
    method SetTotal(x: real)
      requires Valid()
      modifies this`total
      ensures Valid()
      ensures total == x
    {
      total := x;
    }

    /**
     * The calculate button. A refused submission shows its error, drops the
     * displayed result and changes nothing else. An accepted one shows the new
     * entry, puts it at the head of the history, writes the history through to
     * storage, raises the explosion alert when the percentage is at most 50
     * (`explode`) and asks for the celebration page when it is exactly 100
     * (`celebrate`). The identifier and date of the entry are parameters.
     */
    method HandleCalculate(id: string, date: string) returns (explode: bool, celebrate: bool)
      requires Valid()
      modifies this
      ensures Valid()
      ensures earned == old(earned) && total == old(total) && theme == old(theme)
      ensures showExplosion == (old(showExplosion) || explode)
      ensures !(explode && celebrate)
      ensures Validate(earned, total).Some? ==>
        error == ErrorText(Validate(earned, total).value) &&
        currentGrade == None && !explode && !celebrate &&
        history == old(history) && storage == old(storage)
      ensures Validate(earned, total).None? ==>
        var e := CalculateGrade(earned, total, id, date);
        error == "" && currentGrade == Some(e) &&
        history == [e] + old(history) && storage == Some(history) &&
        0.0 <= e.percentage <= 100.0 &&
        explode == (e.percentage <= 50.0) && celebrate == (e.percentage == 100.0)
    {
      error := "";
      explode, celebrate := false, false;
      var check := Validate(earned, total);
      if check.Some? {
        error := ErrorText(check.value);
        currentGrade := None;
        return;
      }
      var grade := CalculateGrade(earned, total, id, date);
      currentGrade := Some(grade);
      var newHistory := [grade] + history;
      history := newHistory;
      storage := Some(newHistory);
      if grade.percentage <= 50.0 {
        showExplosion := true;
        explode := true;
      }
      if grade.percentage == 100.0 {
        celebrate := true;
      }
    }

    /** The confirmed "clear all" button: empties the history and removes the storage key. */
    method ClearHistory(confirmed: bool)
      requires Valid()
      modifies this
      ensures Valid()
      ensures confirmed ==> history == [] && storage == None
      ensures !confirmed ==> history == old(history) && storage == old(storage)
      ensures earned == old(earned) && total == old(total) && currentGrade == old(currentGrade)
      ensures error == old(error) && theme == old(theme) && showExplosion == old(showExplosion)
    {
      if confirmed {
        history := [];
        storage := None;
      }
    }

    /** The delete button of one history row: drops every entry with that identifier. */
    method DeleteEntry(id: string)
      requires Valid()
      modifies this
      ensures Valid()
      ensures history == WithoutId(old(history), id) && storage == Some(history)
      ensures (forall e :: e in old(history) ==> e.id != id) ==> history == old(history)
      ensures earned == old(earned) && total == old(total) && currentGrade == old(currentGrade)
      ensures error == old(error) && theme == old(theme) && showExplosion == old(showExplosion)
    {
      ghost var before := history;
      if forall e :: e in before ==> e.id != id {
        WithoutAbsentId(before, id);
      }
      var newHistory := WithoutId(history, id);
      history := newHistory;
      storage := Some(newHistory);
    }

    /** The clear button of the inputs: zero inputs, no result, no error; history untouched. */
    method ClearInputs()
      requires Valid()
      modifies this
      ensures Valid()
      ensures earned == 0.0 && total == 0.0 && currentGrade == None && error == ""
      ensures history == old(history) && storage == old(storage)
      ensures theme == old(theme) && showExplosion == old(showExplosion)
    {
      earned := 0.0;
      total := 0.0;
      currentGrade := None;
      error := "";
    }

    /** The theme button. */
    method ToggleTheme()
      requires Valid()
      modifies this`theme
      ensures Valid()
      ensures theme == Flip(old(theme))
    {
      theme := Flip(theme);
    }

    /** The close button of the explosion alert. */
    method DismissExplosion()
      requires Valid()
      modifies this`showExplosion
      ensures Valid()
      ensures !showExplosion
    {
      showExplosion := false;
    }
  }

  /**
   * A session as a user would drive it: a perfect score, then a failing one,
   * then a refused one; each property follows from the handlers' contracts.
   */
  method Walkthrough()
  {
    var page := new Home(None);
    page.SetEarned(10.0);
    page.SetTotal(10.0);
    var explode, celebrate := page.HandleCalculate("first", "today");
    PerfectPercentage(10.0, 10.0);
    assert celebrate && !explode;
    assert page.currentGrade.value.letterGrade == "A+";
    var first := page.currentGrade.value;

    page.SetEarned(4.0);
    explode, celebrate := page.HandleCalculate("second", "today");
    assert RawPercentage(4.0, 10.0) == 40.0;
    Round2Whole(40);
    assert page.currentGrade.value.percentage == 40.0;
    assert explode && !celebrate && page.showExplosion;
    assert page.currentGrade.value.letterGrade == "F";
    assert page.history == [page.currentGrade.value, first];

    page.SetEarned(11.0);
    var before := page.history;
    explode, celebrate := page.HandleCalculate("third", "today");
    assert page.error == ErrorText(EarnedExceedsTotal);
    assert page.history == before && page.Stored() == before;

    page.DeleteEntry("first");
    assert page.history == WithoutId(before, "first");
    page.ClearHistory(true);
    assert page.Stored() == [];
  }
}
