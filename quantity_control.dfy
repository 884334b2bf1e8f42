/**
 * components/QuantityControl.tsx: the editable quantity of one bill line. The
 * component keeps two pieces of state, `isEditing` and `inputValue`; its
 * `quantity` prop is the line's quantity, and `onQuantityChange` is the
 * callback the bill passes in. A call of that callback is returned by the
 * handlers as `Some(n)`; `None` means it was not called.
 */
module QuantityControl {
  import opened Wrappers
  import Ledger
  import PointOfSale

  // ----- parseInt(s, 10) and Number.prototype.toString for integers -----

  /** The characters ECMAScript's parseInt skips first: white space and line terminators. */
  predicate IsWhiteSpace(c: char)
  {
    || c == ' ' || c == '\t' || c == '\n' || c == '\r' || c == '\U{B}' || c == '\U{C}'
    || c == '\U{A0}' || c == '\U{1680}' || ('\U{2000}' <= c <= '\U{200A}')
    || c == '\U{2028}' || c == '\U{2029}' || c == '\U{202F}' || c == '\U{205F}'
    || c == '\U{3000}' || c == '\U{FEFF}'
  }

  predicate IsDigit(c: char)
  {
    '0' <= c <= '9'
  }

  predicate AllDigits(s: string)
  {
    forall i | 0 <= i < |s| :: IsDigit(s[i])
  }

  /** `s` without its leading white space. */
  function TrimStart(s: string): (r: string)
    ensures r == [] || !IsWhiteSpace(r[0])
    ensures |r| <= |s| && r == s[|s| - |r|..]
    ensures forall i | 0 <= i < |s| - |r| :: IsWhiteSpace(s[i])
  {
    if s != [] && IsWhiteSpace(s[0]) then TrimStart(s[1..]) else s
  }

  /** The length of the run of decimal digits at the start of `s`. */
  function DigitRun(s: string): (n: nat)
    ensures n <= |s| && AllDigits(s[..n])
    ensures n < |s| ==> !IsDigit(s[n])
  {
    if s != [] && IsDigit(s[0]) then
      var n := 1 + DigitRun(s[1..]);
      assert forall i | 1 <= i < n :: s[..n][i] == s[1..][..n - 1][i - 1];
      n
    else 0
  }

  /** The number a string of decimal digits denotes, most significant digit first. */
  function DigitsValue(ds: string): nat
    requires AllDigits(ds)
  {
    if ds == [] then 0
    else
      assert AllDigits(ds[..|ds| - 1]) by {
        assert forall i | 0 <= i < |ds| - 1 :: ds[..|ds| - 1][i] == ds[i];
      }
      DigitsValue(ds[..|ds| - 1]) * 10 + (ds[|ds| - 1] as int - '0' as int)
  }

  /**
   * `parseInt(s, 10)`, with NaN as None: skip leading white space, read an
   * optional sign, then the longest run of decimal digits; whatever follows
   * is ignored, and without a digit there is no number.
   */
  function ParseInt(s: string): (r: Option<int>)
    ensures r.Some? ==> exists i | 0 <= i < |s| :: IsDigit(s[i])
    ensures r.Some? && r.value < 0 ==> exists i | 0 <= i < |s| :: s[i] == '-'
  {
    var t := TrimStart(s);
    var r := ParseSigned(t);
    assert r.Some? ==> exists i | 0 <= i < |s| :: IsDigit(s[i]) by {
      if r.Some? {
        var i :| 0 <= i < |t| && IsDigit(t[i]);
        assert s[|s| - |t| + i] == t[i];
      }
    }
    assert t != [] ==> s[|s| - |t|] == t[0];
    r
  }

  /** What parseInt reads after the white space: an optional sign, then the digit run. */
  function ParseSigned(t: string): (r: Option<int>)
    ensures r.Some? ==> exists i | 0 <= i < |t| :: IsDigit(t[i])
    ensures r.Some? && r.value < 0 ==> t != [] && t[0] == '-'
  {
    var negative := t != [] && t[0] == '-';
    var u := if t != [] && (t[0] == '-' || t[0] == '+') then t[1..] else t;
    var n := DigitRun(u);
    if n == 0 then None
    else
      var v: int := DigitsValue(u[..n]);
      assert u[0] == t[|t| - |u|];
      Some(if negative then -v else v)
  }

  function DigitChar(d: nat): (c: char)
    requires d < 10
    ensures IsDigit(c) && c as int - '0' as int == d
  {
    ('0' as int + d) as char
  }

  /** The decimal digits of `n`, without leading zeros. */
  function NatToString(n: nat): (s: string)
    ensures |s| >= 1 && AllDigits(s)
    ensures DigitsValue(s) == n
    ensures s[0] == '0' ==> n == 0 && |s| == 1
  {
    if n < 10 then
      assert [DigitChar(n)][..0] == [];
      [DigitChar(n)]
    else
      var init := NatToString(n / 10);
      var s := init + [DigitChar(n % 10)];
      assert s[..|s| - 1] == init;
      s
  }

  /** `quantity.toString()` for an integer quantity. */
  function IntToString(n: int): (s: string)
    ensures s != [] && !IsWhiteSpace(s[0])
    ensures s[0] == '-' <==> n < 0
    ensures AllDigits(if n < 0 then s[1..] else s) && (n < 0 ==> |s| >= 2)
    ensures DigitsValue(if n < 0 then s[1..] else s) == if n < 0 then -n else n
  {
    if n < 0 then
      assert ("-" + NatToString(-n))[1..] == NatToString(-n);
      "-" + NatToString(-n)
    else NatToString(n)
  }

  lemma {:induction false} DigitRunOfDigits(ds: string, rest: string)
    requires AllDigits(ds)
    requires rest == [] || !IsDigit(rest[0])
    ensures DigitRun(ds + rest) == |ds|
  {
    if ds != [] {
      assert (ds + rest)[1..] == ds[1..] + rest;
      DigitRunOfDigits(ds[1..], rest);
    } else {
      assert ds + rest == rest;
    }
  }

  /**
   * parseInt reads back what toString writes, even with trailing text that
   * does not start with a digit (as in "12 kg" or "3.5").
   */
  lemma {:induction false} ParseIntOfDecimal(n: int, rest: string)
    requires rest == [] || !IsDigit(rest[0])
    ensures ParseInt(IntToString(n) + rest) == Some(n)
  {
    var s := IntToString(n) + rest;
    var sign, ds := if n < 0 then "-" else "", NatToString(if n < 0 then -n else n);
    assert s == sign + ds + rest;
    assert !IsWhiteSpace(s[0]) by {
      assert s[0] == IntToString(n)[0];
    }
    ParseSignedDigits(sign, ds, rest);
    ParseIntTrimmed(s);
  }

  /** Text that starts with no white space is parsed from its first character. */
  lemma {:induction false} ParseIntTrimmed(s: string)
    requires s == [] || !IsWhiteSpace(s[0])
    ensures ParseInt(s) == ParseSigned(s)
  {
    assert TrimStart(s) == s;
  }

  /** After an optional sign, parseInt reads exactly the digits `ds`. */
  lemma {:induction false} ParseSignedDigits(sign: string, ds: string, rest: string)
    requires sign == "" || sign == "-" || sign == "+"
    requires ds != [] && AllDigits(ds)
    requires rest == [] || !IsDigit(rest[0])
    ensures ParseSigned(sign + ds + rest) == Some(if sign == "-" then -(DigitsValue(ds) as int) else DigitsValue(ds))
  {
    var t := sign + ds + rest;
    if sign == "" {
      assert t == ds + rest && t[0] == ds[0];
    } else {
      assert t[0] == sign[0] && t[1..] == ds + rest;
    }
    DigitsOf(ds, rest);
  }

  /** The digit run of `ds + rest` is `ds` itself when `rest` does not start with a digit. */
  lemma {:induction false} DigitsOf(ds: string, rest: string)
    requires AllDigits(ds)
    requires rest == [] || !IsDigit(rest[0])
    ensures DigitRun(ds + rest) == |ds| && (ds + rest)[..|ds|] == ds
  {
    DigitRunOfDigits(ds, rest);
    assert (ds + rest)[..|ds|] == ds;
  }

  /** Leading white space never changes what parseInt reads. */
  lemma {:induction false} ParseIntSkipsWhiteSpace(w: string, s: string)
    requires forall i | 0 <= i < |w| :: IsWhiteSpace(w[i])
    ensures ParseInt(w + s) == ParseInt(s)
  {
    TrimStartSkips(w, s);
  }

  lemma {:induction false} TrimStartSkips(w: string, s: string)
    requires forall i | 0 <= i < |w| :: IsWhiteSpace(w[i])
    ensures TrimStart(w + s) == TrimStart(s)
  {
    if w != [] {
      assert (w + s)[1..] == w[1..] + s;
      TrimStartSkips(w[1..], s);
    } else {
      assert w + s == s;
    }
  }

  /** An explicit plus sign is read and dropped: "+12" is 12. */
  lemma {:induction false} ParseIntPlusSign(n: nat, rest: string)
    requires rest == [] || !IsDigit(rest[0])
    ensures ParseInt("+" + NatToString(n) + rest) == Some(n)
  {
    var s := "+" + NatToString(n) + rest;
    assert s[0] == '+';
    assert ParseSigned(s) == Some(n) by {
      ParseSignedDigits("+", NatToString(n), rest);
    }
    ParseIntTrimmed(s);
  }

  /** A sign that is not followed by a digit gives no number, as in "-", "- 5" or "--1". */
  lemma {:induction false} ParseIntSignWithoutDigit(s: string)
    requires s != [] && (s[0] == '+' || s[0] == '-')
    requires |s| == 1 || !IsDigit(s[1])
    ensures ParseInt(s) == None
  {
    NoDigitAfterSign(s);
    ParseIntTrimmed(s);
  }

  lemma {:induction false} NoDigitAfterSign(s: string)
    requires s != [] && (s[0] == '+' || s[0] == '-')
    requires |s| == 1 || !IsDigit(s[1])
    ensures ParseSigned(s) == None
  {
    assert |s| > 1 ==> s[1..][0] == s[1];
    assert DigitRun(s[1..]) == 0;
  }

  /** Text whose first character is not white space, a sign or a digit is not a number, as in "a12". */
  lemma {:induction false} ParseIntNotANumber(s: string)
    requires s != [] && !IsWhiteSpace(s[0]) && s[0] != '+' && s[0] != '-' && !IsDigit(s[0])
    ensures ParseInt(s) == None
  {
    ParseIntTrimmed(s);
    assert ParseSigned(s) == None;
  }

  // ----- handleCommit -----

  /**
   * The callback `handleCommit` makes for the field text `text` when the line
   * has quantity `quantity`: only a positive number that differs from it.
   */
  function CommitChange(text: string, quantity: int): (r: Option<int>)
    ensures r.Some? ==> r.value >= 1 && r.value != quantity && ParseInt(text) == Some(r.value)
    ensures r.None? ==> ParseInt(text).None? || ParseInt(text).value <= 0 || ParseInt(text).value == quantity
  {
    match ParseInt(text)
    case Some(n) => if n > 0 && n != quantity then Some(n) else None
    case None => None
  }

  /** The text the field is reset to holds the quantity, so committing it changes nothing. */
  lemma ResetTextCommitsNothing(quantity: int)
    ensures CommitChange(IntToString(quantity), quantity) == None
  {
    ParseIntOfDecimal(quantity, []);
    assert IntToString(quantity) + [] == IntToString(quantity);
  }

  class QuantityEditor {
    /** The `quantity` prop. */
    var quantity: int
    var isEditing: bool
    var inputValue: string

    /** The first render: a closed field showing the quantity. */
    constructor (quantity: int)
      ensures this.quantity == quantity && !isEditing && inputValue == IntToString(quantity)
    {
      this.quantity := quantity;
      isEditing := false;
      inputValue := IntToString(quantity);
    }

    /**
     * A render with quantity `q`, followed by the effect that runs when the
     * quantity or `isEditing` has changed: a closed field shows `q` again.
     */
    method Render(q: int)
      modifies this
      ensures quantity == q && isEditing == old(isEditing)
      ensures inputValue == if isEditing then old(inputValue) else IntToString(q)
    {
      quantity := q;
      if !isEditing {
        inputValue := IntToString(quantity);
      }
    }

    /** A click on the quantity opens the field. */
    method StartEditing()
      modifies this
      ensures isEditing && quantity == old(quantity) && inputValue == old(inputValue)
    {
      isEditing := true;
    }

    /** A change event: the field now holds `text`. */
    method Change(text: string)
      modifies this
      ensures inputValue == text && isEditing == old(isEditing) && quantity == old(quantity)
    {
      inputValue := text;
    }

    /**
     * `handleCommit` (also the blur handler): forward a positive, changed
     * number; reset the text when it is not a positive number; close the field.
     */
    method Commit() returns (change: Option<int>)
      modifies this
      ensures change == CommitChange(old(inputValue), quantity)
      ensures change.Some? ==> change.value >= 1
      ensures inputValue == match ParseInt(old(inputValue))
        case Some(n) => if n > 0 then old(inputValue) else IntToString(quantity)
        case None => IntToString(quantity)
      ensures !isEditing && quantity == old(quantity)
    {
      change := None;
      var parsed := ParseInt(inputValue);
      if parsed.Some? && parsed.value > 0 {
        if parsed.value != quantity {
          change := Some(parsed.value);
        }
      } else {
        inputValue := IntToString(quantity);
      }
      isEditing := false;
    }

    /** `handleKeyDown`: Enter commits, Escape abandons the edit, any other key does nothing. */
    method KeyDown(key: string) returns (change: Option<int>)
      modifies this
      ensures key == "Enter" ==> change == CommitChange(old(inputValue), quantity) && !isEditing
      ensures key == "Enter" ==> inputValue == match ParseInt(old(inputValue))
        case Some(n) => if n > 0 then old(inputValue) else IntToString(quantity)
        case None => IntToString(quantity)
      ensures key == "Escape" ==> change == None && inputValue == IntToString(quantity) && !isEditing
      ensures key != "Enter" && key != "Escape" ==>
        change == None && inputValue == old(inputValue) && isEditing == old(isEditing)
      ensures quantity == old(quantity)
    {
      change := None;
      if key == "Enter" {
        change := Commit();
      } else if key == "Escape" {
        inputValue := IntToString(quantity);
        isEditing := false;
      }
    }
  }

  /**
   * components/BillingSection.tsx passes `n => onUpdateQuantity(item.id, n)`
   * as `onQuantityChange`: a commit from a line's editor can change that
   * line's quantity but never removes a line from the bill.
   */
  method CommitLine(app: PointOfSale.App, editor: QuantityEditor, id: int)
    modifies app, editor
    ensures Ledger.Ids(app.billItems) == Ledger.Ids(old(app.billItems))
    ensures app.savedBills == old(app.savedBills) && app.stored == old(app.stored)
  {
    var change := editor.Commit();
    if change.Some? {
      app.UpdateQuantity(id, change.value);
    }
  }
}
