/**
 * The rating filter dialog of components/FilterRating.tsx.
 *
 * The dialog edits a text buffer (`tempRating`) and commits a number to the
 * parent's `ratingFilter` (held here in tenths, since every value it can
 * commit has one decimal). The value computations of the handlers are
 * functions; the dialog itself is a class with one method per handler.
 */
module FilterRating {
  import opened Types
  import opened JsNumbers

  // ----- the typed-input gate (components/FilterRating.tsx:50-55) -----

  /**
   * `/^\d*\.?\d*$/.test(val)`: exactly the strings of digits with at most
   * one '.', however many digits follow it (the regex puts no limit on decimals).
   */
  predicate InputAccepted(val: string): (ok: bool)
    ensures ok <==>
      (forall i :: 0 <= i < |val| ==> IsDigit(val[i]) || val[i] == '.') && DotCount(val) <= 1
  {
    DecimalShapeIff(val);
    DecimalShape(val)
  }

  function DotCount(s: string): nat {
    if s == [] then 0 else (if s[0] == '.' then 1 else 0) + DotCount(s[1..])
  }

  lemma {:induction false} DotCountAppend(a: string, b: string)
    ensures DotCount(a + b) == DotCount(a) + DotCount(b)
  {
    if a == [] {
      assert a + b == b;
    } else {
      assert (a + b)[1..] == a[1..] + b;
      DotCountAppend(a[1..], b);
    }
  }

  lemma {:induction false} DotCountDigits(d: string)
    requires AllDigits(d)
    ensures DotCount(d) == 0
  {
    if d != [] {
      assert IsDigit(d[0]);
      DotCountDigits(d[1..]);
    }
  }

  lemma {:induction false} DotCountSeesDot(s: string, k: nat)
    requires k < |s| && s[k] == '.'
    ensures DotCount(s) >= 1
  {
    if k > 0 {
      DotCountSeesDot(s[1..], k - 1);
    }
  }

  /** Splits s at the end of its leading digits; the digits hold no '.'. */
  lemma SplitAtLeadingDigits(s: string)
    ensures var i := LeadingDigits(s);
      s == s[..i] + s[i..] && DotCount(s) == DotCount(s[i..])
  {
    var i := LeadingDigits(s);
    assert s == s[..i] + s[i..];
    DotCountAppend(s[..i], s[i..]);
    DotCountDigits(s[..i]);
  }

  lemma ShapeHasDigitsAndOneDot(val: string)
    requires DecimalShape(val)
    ensures forall j :: 0 <= j < |val| ==> IsDigit(val[j]) || val[j] == '.'
    ensures DotCount(val) <= 1
  {
    var i := LeadingDigits(val);
    SplitAtLeadingDigits(val);
    if i < |val| {
      var tail := val[i + 1..];
      assert val[i..] == [val[i]] + tail;
      assert DotCount(val[i..]) == 1 + DotCount(tail) by {
        assert val[i..][1..] == tail;
      }
      DotCountDigits(tail);
      forall j | 0 <= j < |val|
        ensures IsDigit(val[j]) || val[j] == '.'
      {
        if j < i {
          assert val[j] == val[..i][j];
        } else if j > i {
          assert val[j] == tail[j - i - 1];
        }
      }
    } else {
      assert val[..i] == val;
    }
  }

  lemma DigitsAndOneDotHaveShape(val: string)
    requires forall j :: 0 <= j < |val| ==> IsDigit(val[j]) || val[j] == '.'
    requires DotCount(val) <= 1
    ensures DecimalShape(val)
  {
    var i := LeadingDigits(val);
    SplitAtLeadingDigits(val);
    if i < |val| {
      var tail := val[i + 1..];
      assert val[i] == '.';
      assert DotCount(val[i..]) == 1 + DotCount(tail) by {
        assert val[i..][1..] == tail;
      }
      if !AllDigits(tail) {
        var k :| 0 <= k < |tail| && !IsDigit(tail[k]);
        assert tail[k] == val[i + 1 + k];
        DotCountSeesDot(tail, k);
        assert false;
      }
    }
  }

  /** The regex shape is exactly: digits and '.' only, with at most one '.'. */
  lemma DecimalShapeIff(val: string)
    ensures DecimalShape(val) <==>
      (forall i :: 0 <= i < |val| ==> IsDigit(val[i]) || val[i] == '.') && DotCount(val) <= 1
  {
    if DecimalShape(val) {
      ShapeHasDigitsAndOneDot(val);
    } else if forall j :: 0 <= j < |val| ==> IsDigit(val[j]) || val[j] == '.' {
      if DotCount(val) <= 1 {
        DigitsAndOneDotHaveShape(val);
      }
    }
  }

  /** The gate lets through more than one decimal place; Apply then rounds to one. */
  lemma InputAllowsTwoDecimals()
    ensures InputAccepted("4.56")
    ensures ApplyValue("4.56") == Some(46)
  {
    assert LeadingDigits("4.56") == 1 by {
      assert "4.56"[1..] == ".56";
    }
    assert "4.56"[2..] == "56";
    assert LeadingDigits("56") == 2 by {
      assert "56"[1..] == "6";
      assert "6"[1..] == "";
    }
    assert "56"[..2] == "56" && "4.56"[..1] == "4";
    assert DigitsValue("56") == 56 by {
      assert "56"[..1] == "5";
      assert "5"[..0] == "";
    }
    assert DigitsValue("4") == 4 by {
      assert "4"[..0] == "";
    }
    assert Pow10(2) == 100;
    assert ParseFloat("4.56") == Finite(4.56);
    DecimalShapeIff("4.56");
    assert DotCount("4.56") == 1 by {
      assert "4.56"[1..] == ".56";
      assert ".56"[1..] == "56";
      assert "56"[1..] == "6";
      assert "6"[1..] == "";
    }
  }

  // ----- the value computations -----

  /** `ratingFilter ? ratingFilter.toString() : ""`: the text the buffer is reset to. */
  function ResetText(filter: Option<nat>): (s: string)
    ensures DecimalShape(s)
    ensures filter.Some? && filter.value != 0 ==> ParseFloat(s) == Finite(filter.value as real / 10.0)
    ensures (filter.None? || filter.value == 0) ==> s == ""
  {
    if filter.Some? && filter.value != 0 then
      ParseFloatTenthsToString(filter.value);
      TenthsToString(filter.value)
    else ""
  }

  /**
   * What handleApply commits, in tenths: a parsed value in [1, 5] rounded to
   * one decimal; None (`null`) for text that is not a number or is out of range.
   */
  function ApplyValue(text: string): (r: Option<nat>)
    ensures r.Some? <==> ParseFloat(text).Finite? && 1.0 <= ParseFloat(text).value <= 5.0
    ensures r.Some? ==> 10 <= r.value <= 50
    ensures r.Some? ==> -0.05 < r.value as real / 10.0 - ParseFloat(text).value <= 0.05
  {
    var num := ParseFloat(text);
    if num.Finite? && 1.0 <= num.value <= 5.0 then Some(RoundToTenths(num.value) as nat) else None
  }

  /** The tenths increment writes: `Math.min((parseFloat(t) || 0) + 0.1, 5).toFixed(1)`. */
  function IncrementTenths(text: string): (t: nat)
    ensures 1 <= t <= 50
  {
    var current := OrElse(ParseFloat(text), 0.0);
    RoundToTenths(Min(current + 0.1, 5.0)) as nat
  }

  /** The tenths decrement writes: `Math.max((parseFloat(t) || 1) - 0.1, 1).toFixed(1)`. */
  function DecrementTenths(text: string): (t: nat)
    ensures t >= 10
  {
    var current := OrElse(ParseFloat(text), 1.0);
    RoundToTenths(Max(current - 0.1, 1.0)) as nat
  }

  // ----- lemmas about the handlers' values -----

  /** Apply commits a one-decimal text unchanged if it is within [1, 5], and null otherwise. */
  lemma ApplyToFixed1(k: nat)
    ensures ApplyValue(ToFixed1(k)) == if 10 <= k <= 50 then Some(k) else None
  {
    ParseFloatToFixed1(k);
    RoundToTenthsExact(k);
  }

  /** Opening the dialog and applying at once keeps any filter Apply could have committed. */
  lemma ReopenThenApplyKeepsFilter(filter: Option<nat>)
    requires filter.Some? ==> 10 <= filter.value <= 50
    ensures ApplyValue(ResetText(filter)) == filter
  {
    if filter.Some? {
      RoundToTenthsExact(filter.value);
    }
  }

  /**
   * Increment adds one tenth to any buffer parseFloat reads as k/10 (a typed
   * "4", the quick-select "3", a reset "4.5" or "4.0") and stops at 5.0;
   * a buffer reading as 0 counts as 0.
   */
  lemma IncrementByTenth(text: string, k: nat)
    requires ParseFloat(text) == Finite(k as real / 10.0)
    ensures IncrementTenths(text) == if k < 50 then k + 1 else 50
  {
    if k < 50 {
      assert k as real / 10.0 + 0.1 == (k + 1) as real / 10.0;
      RoundToTenthsExact(k + 1);
    } else {
      assert 5.0 == 50 as real / 10.0;
      RoundToTenthsExact(50);
    }
  }

  /**
   * Decrement takes one tenth off any buffer parseFloat reads as k/10 and
   * stops at 1.0; a buffer reading as 0 counts as 1.
   */
  lemma DecrementByTenth(text: string, k: nat)
    requires ParseFloat(text) == Finite(k as real / 10.0)
    ensures DecrementTenths(text) == if k > 10 then k - 1 else 10
  {
    if k > 10 {
      assert k as real / 10.0 - 0.1 == (k - 1) as real / 10.0;
      RoundToTenthsExact(k - 1);
    } else {
      assert 1.0 == 10 as real / 10.0;
      RoundToTenthsExact(10);
    }
  }

  /** A buffer that is not a number (such as "" or ".") counts as 0: increment writes 0.1. */
  lemma IncrementFromNaN(text: string)
    requires ParseFloat(text).NaN?
    ensures IncrementTenths(text) == 1
  {
    RoundToTenthsExact(1);
  }

  /** A buffer that is not a number (such as "" or ".") counts as 1: decrement writes 1.0. */
  lemma DecrementFromNaN(text: string)
    requires ParseFloat(text).NaN?
    ensures DecrementTenths(text) == 10
  {
    RoundToTenthsExact(10);
  }

  /** From an empty buffer, increment writes "0.1", which Apply then rejects. */
  lemma IncrementFromEmptyIsRejected()
    ensures IncrementTenths("") == 1 && ToFixed1(IncrementTenths("")) == "0.1"
    ensures ApplyValue(ToFixed1(IncrementTenths(""))) == None
  {
    assert ParseFloat("") == NaN;
    IncrementFromNaN("");
    ApplyToFixed1(1);
  }

  /** From an empty buffer, decrement writes "1.0". */
  lemma DecrementFromEmpty()
    ensures DecrementTenths("") == 10
  {
    assert ParseFloat("") == NaN;
    DecrementFromNaN("");
  }

  /**
   * On any numeric buffer (typed text such as "4.56" included), increment
   * writes the tenth nearest to `min(v + 0.1, 5)`.
   */
  lemma IncrementNearNextTenth(text: string)
    requires ParseFloat(text).Finite?
    ensures var v := ParseFloat(text).value;
      -0.5 < IncrementTenths(text) as real - 10.0 * Min(v + 0.1, 5.0) <= 0.5
  {
  }

  /**
   * On any numeric buffer, decrement writes the tenth nearest to
   * `max(v - 0.1, 1)`; a buffer reading 0 counts as 1, which gives the same.
   */
  lemma DecrementNearPreviousTenth(text: string)
    requires ParseFloat(text).Finite?
    ensures var v := ParseFloat(text).value;
      -0.5 < DecrementTenths(text) as real - 10.0 * Max(v - 0.1, 1.0) <= 0.5
  {
  }

  /** After a quick-select of v, increment writes v + 0.1 (5.0 stays 5.0). */
  lemma IncrementAfterQuickSelect(v: nat)
    requires 1 <= v <= 5
    ensures IncrementTenths(NatToDigits(v)) == if v < 5 then 10 * v + 1 else 50
  {
    ParseFloatNat(v);
    assert v as real == (10 * v) as real / 10.0;
    IncrementByTenth(NatToDigits(v), 10 * v);
  }

  /** A quick-select value v is read back as v (the button it came from is highlighted) and applies as v. */
  lemma QuickSelectApplies(v: nat)
    requires 1 <= v <= 5
    ensures StrictEquals(ParseFloat(NatToDigits(v)), Finite(v as real))
    ensures ApplyValue(NatToDigits(v)) == Some(10 * v)
  {
    ParseFloatNat(v);
    RoundToTenthsExact(10 * v);
    assert (10 * v) as real / 10.0 == v as real;
  }

  // ----- the dialog -----

  class RatingDialog {
    var tempRating: string
    /** The parent's `ratingFilter`, in tenths; changed through `setRatingFilter`. */
    var ratingFilter: Option<nat>
    /** The parent's `visible` flag; changed through `setVisible`. */
    var visible: bool

    /** The buffer only ever holds text the input gate would accept. */
    ghost predicate Valid()
      reads this
    {
      DecimalShape(tempRating)
    }

    /** `useState(ratingFilter ? ratingFilter.toString() : "")` */
    constructor (ratingFilter: Option<nat>, visible: bool)
      ensures Valid()
      ensures this.ratingFilter == ratingFilter && this.visible == visible
      ensures tempRating == ResetText(ratingFilter)
    {
      this.ratingFilter := ratingFilter;
      this.visible := visible;
      tempRating := ResetText(ratingFilter);
    }

    /**
     * The parent opens a hidden dialog: the effect, which runs when `visible`
     * changes, resets the buffer to the committed filter.
     */
    method Open()
      requires !visible
      modifies this
      ensures Valid()
      ensures visible && tempRating == ResetText(ratingFilter)
      ensures ratingFilter == old(ratingFilter)
    {
      visible := true;
      tempRating := ResetText(ratingFilter);
    }

    /** The close icon, the backdrop and the back button: `setVisible(false)`. */
    method Dismiss()
      requires Valid()
      modifies this`visible
      ensures Valid()
      ensures !visible
    {
      visible := false;
    }

    /** handleApply: commit the parsed buffer (or null) and close. */
    method Apply()
      requires Valid()
      modifies this`ratingFilter, this`visible
      ensures Valid()
      ensures ratingFilter == ApplyValue(tempRating) && !visible
      ensures ratingFilter.Some? ==> 10 <= ratingFilter.value <= 50
    {
      ratingFilter := ApplyValue(tempRating);
      visible := false;
    }

    /** increment: the buffer becomes the next tenth up, at most "5.0". */
    method Increment()
      requires Valid()
      modifies this`tempRating
      ensures Valid()
      ensures tempRating == ToFixed1(IncrementTenths(old(tempRating)))
      ensures ParseFloat(tempRating).Finite? && ParseFloat(tempRating).value <= 5.0
    {
      var t := IncrementTenths(tempRating);
      ParseFloatToFixed1(t);
      tempRating := ToFixed1(t);
    }

    /** decrement: the buffer becomes the next tenth down, at least "1.0". */
    method Decrement()
      requires Valid()
      modifies this`tempRating
      ensures Valid()
      ensures tempRating == ToFixed1(DecrementTenths(old(tempRating)))
      ensures ParseFloat(tempRating).Finite? && ParseFloat(tempRating).value >= 1.0
    {
      var t := DecrementTenths(tempRating);
      ParseFloatToFixed1(t);
      tempRating := ToFixed1(t);
    }

    /** handleInputChange: typed text replaces the buffer only if the gate accepts it. */
    method InputChange(val: string)
      requires Valid()
      modifies this`tempRating
      ensures Valid()
      ensures tempRating == if InputAccepted(val) then val else old(tempRating)
    {
      if InputAccepted(val) {
        tempRating := val;
      }
    }

    /** handleQuickSelect: the buffer becomes `val.toString()`. */
    method QuickSelect(val: nat)
      requires Valid()
      modifies this`tempRating
      ensures Valid()
      ensures tempRating == NatToDigits(val)
      ensures ParseFloat(tempRating) == Finite(val as real)
    {
      ParseFloatNat(val);
      tempRating := NatToDigits(val);
    }

    /** The Clear button: empty buffer, no filter, dialog closed. */
    method Clear()
      modifies this
      ensures Valid()
      ensures tempRating == "" && ratingFilter == None && !visible
    {
      tempRating := "";
      ratingFilter := None;
      visible := false;
    }
  }
}
