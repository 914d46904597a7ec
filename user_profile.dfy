/**
 * The profile editor (`UserProfileModal`): a name and a starting amount
 * of money, copied from the page whenever it opens, checked on save, with
 * the money field accepting only non-negative numbers.
 */
module UserProfile {
  import opened Common

  /** What pressing "Save" ends in: the values handed to the page, or a rejection. */
  datatype SaveResult = Saved(name: string, money: real) | Rejected

  /** The save test: a name with something other than whitespace, and money not below 0. */
  predicate Acceptable(name: string, money: real) {
    Trim(name) != [] && money >= 0.0
  }

  /** A name that is only whitespace never passes, whatever the money. */
  lemma BlankNameRejected(name: string, money: real)
    requires Blank(name)
    ensures !Acceptable(name, money)
  {
  }

  /** The trimmed name a save hands over is the name without its surrounding whitespace. */
  lemma SavedNameIsTrimmed(name: string)
    requires Trim(name) != []
    ensures var t := Trim(name);
      !IsSpace(t[0]) && !IsSpace(t[|t| - 1]) && Trim(t) == t
  {
    var t := Trim(name);
    assert TrimOffset(t) == 0 by {
      assert TrimStart(t) == t;
    }
    assert TrimEnd(t) == t;
  }

  class Editor {
    var name: string
    var money: real
    var isValid: bool

    constructor (currentName: string, currentMoney: real)
      ensures name == currentName && money == currentMoney && isValid
    {
      name := currentName;
      money := currentMoney;
      isValid := true;
    }

    /** The effect that copies the page's values in whenever they change or the editor opens. */
    method Resync(currentName: string, currentMoney: real)
      modifies this
      ensures name == currentName && money == currentMoney && isValid == old(isValid)
    {
      name := currentName;
      money := currentMoney;
    }

    /**
     * `handleSave`: acceptable input is handed over trimmed (and the editor
     * closes); anything else marks the form invalid and hands nothing over.
     */
    method HandleSave() returns (r: SaveResult)
      modifies this
      ensures r.Saved? <==> Acceptable(old(name), old(money))
      ensures r.Saved? ==> r == Saved(Trim(old(name)), old(money)) && isValid == old(isValid)
      ensures r.Rejected? ==> !isValid
      ensures name == old(name) && money == old(money)
    {
      var trimmed := Trim(name);
      if trimmed != [] && money >= 0.0 {
        r := Saved(trimmed, money);
      } else {
        isValid := false;
        r := Rejected;
      }
    }

    /** Two seconds after a rejection the form is shown as valid again. */
    method ValidityTimeout()
      modifies this
      ensures isValid && name == old(name) && money == old(money)
    {
      isValid := true;
    }

    /**
     * `handleMoneyChange`, given the input text and what `parseFloat` read
     * from it (`None` for NaN, which is what an empty text gives): a
     * non-negative number is taken, an empty field means 0, and anything
     * else is ignored. No upper bound is enforced here.
     */
    method HandleMoneyChange(value: string, parsed: Option<real>)
      requires value == "" ==> parsed.None?
      modifies this
      ensures parsed.Some? && parsed.value >= 0.0 ==> money == parsed.value
      ensures value == "" ==> money == 0.0
      ensures !(parsed.Some? && parsed.value >= 0.0) && value != "" ==> money == old(money)
      ensures old(money) >= 0.0 ==> money >= 0.0
      ensures name == old(name) && isValid == old(isValid)
    {
      if parsed.Some? && parsed.value >= 0.0 {
        money := parsed.value;
      } else if value == "" {
        money := 0.0;
      }
    }
  }
}
