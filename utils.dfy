/** lib/utils.ts: the error-message picker, the address shortener and the
    sanitiser applied to a typed token amount. (`cn`, a wrapper around two CSS
    class-name libraries, is not part of this model.) */
module Utils {
  import opened Wrappers
  import opened JsRuntime

  // ---------------------------------------------------------------- getErrorMessage

  /** The message an error value carries of its own: a thrown string, an Error's
      message, or an object's string `message` property. */
  function CarriedMessage(error: Thrown): Option<string> {
    match error
    case StringValue(s) => Some(s)
    case ErrorInstance(m) => Some(m)
    case PlainObject(_, m) => m
    case _ => None
  }

  /** `error?.message` when it is a string. */
  function MessageProperty(error: Thrown): Option<string> {
    match error
    case ErrorInstance(m) => Some(m)
    case PlainObject(_, m) => m
    case _ => None
  }

  /** Picks a readable message out of an unknown error value: the error's own
      message when it is a non-empty string, the fallback otherwise. */
  function GetErrorMessage(error: Thrown, fallbackMessage: string): (r: string)
    ensures Truthy(CarriedMessage(error)) ==> r == CarriedMessage(error).value
    ensures !Truthy(CarriedMessage(error)) ==> r == fallbackMessage
  {
    if error.StringValue? && |error.text| > 0 then error.text
    else if error.ErrorInstance? && |error.message| > 0 then error.message
    else if MessageProperty(error).Some? && |MessageProperty(error).value| > 0 then MessageProperty(error).value
    else fallbackMessage
  }

  /** The documented cases of getErrorMessage. */
  lemma GetErrorMessageCases()
    ensures GetErrorMessage(StringValue("test error"), "fallback") == "test error"
    ensures GetErrorMessage(ErrorInstance("error object message"), "fallback") == "error object message"
    ensures GetErrorMessage(PlainObject(None, Some("object message")), "fallback") == "object message"
    ensures GetErrorMessage(StringValue(""), "fallback") == "fallback"
    ensures GetErrorMessage(Nullish, "fallback") == "fallback"
    ensures GetErrorMessage(PlainObject(None, None), "fallback") == "fallback"
  {
  }

  // ---------------------------------------------------------------- middleEllipsis

  /** Shortens an address to "0x", the `len` characters after the prefix, "..."
      and the last `len` characters. */
  function MiddleEllipsis(str: string, len: int): (r: string)
    ensures r == "" <==> str == ""
    ensures str != "" ==> StartsWith(r, "0x") && 5 <= |r| <= 2 * |str| + 5
    ensures str != "" && 0 <= len && len + 2 <= |str| ==>
      && |r| == 2 * len + 5
      && r[2..len + 2] == str[2..len + 2]
      && r[len + 2..len + 5] == "..."
      && r[len + 5..] == str[|str| - len..]
  {
    if str == "" then ""
    else "0x" + Substring(str, 2, len + 2) + "..." + Substring(str, |str| - len, |str|)
  }

  /** A length beyond the text makes both slices clamp: the whole text
      appears after the "0x" prefix's slice and again at the end. */
  lemma MiddleEllipsisClampsLongLength(v: string)
    requires v == "0x12"
    ensures MiddleEllipsis(v, 4) == "0x12...0x12"
  {
    assert Substring(v, 2, 6) == "12";
    assert Substring(v, 0, 4) == v;
  }

  /** A negative length swaps the first slice's ends and empties the second. */
  lemma MiddleEllipsisSwapsNegativeLength(v: string)
    requires v == "0xabcdef"
    ensures MiddleEllipsis(v, -1) == "0xx..."
  {
    assert Substring(v, 2, 1) == "x";
    assert Substring(v, 9, 8) == "";
  }

  // ---------------------------------------------------------------- formatValueOnInputChange

  predicate IsAmountChar(c: char) {
    '0' <= c <= '9' || c == '.'
  }

  /** What `replace(/[^0-9.]/g, ...)` leaves when every match is replaced by
      the empty string: the digits and dots of `s`, in order. */
  function KeepDigitsAndDots(s: string): (r: string)
    ensures |r| <= |s|
    ensures forall i :: 0 <= i < |r| ==> IsAmountChar(r[i])
  {
    if s == [] then []
    else KeepDigitsAndDots(s[..|s| - 1]) + (if IsAmountChar(s[|s| - 1]) then [s[|s| - 1]] else [])
  }

  /** `s.replace(/\./g, '')`. */
  function WithoutDots(s: string): (r: string)
    ensures |r| <= |s|
    ensures '.' !in r
    ensures (forall i :: 0 <= i < |s| ==> IsAmountChar(s[i])) ==> forall i :: 0 <= i < |r| ==> IsAmountChar(r[i])
  {
    if s == [] then [] else (if s[0] == '.' then [] else [s[0]]) + WithoutDots(s[1..])
  }

  /** Removing the dots keeps every other character as often as it occurs. */
  lemma {:induction false} WithoutDotsCounts(s: string, c: char)
    ensures multiset(WithoutDots(s))[c] == if c == '.' then 0 else multiset(s)[c]
  {
    if s != [] {
      WithoutDotsCounts(s[1..], c);
      assert s == [s[0]] + s[1..];
    }
  }

  /** Prepending a character to the text shifts every position by one. */
  lemma EmbeddedUnderCons(a: string, c: char, b: string, idx: seq<int>) returns (shifted: seq<int>)
    requires EmbeddedAt(a, b, idx)
    ensures EmbeddedAt(a, [c] + b, shifted)
    ensures EmbeddedAt([c] + a, [c] + b, [0] + shifted)
  {
    shifted := seq(|idx|, i requires 0 <= i < |idx| => idx[i] + 1);
  }

  /** The positions of the input that `WithoutDots` keeps, in increasing order. */
  lemma {:induction false} WithoutDotsPositions(s: string) returns (idx: seq<int>)
    ensures EmbeddedAt(WithoutDots(s), s, idx)
  {
    if s == [] {
      idx := [];
    } else {
      var rest := WithoutDotsPositions(s[1..]);
      var shifted := EmbeddedUnderCons(WithoutDots(s[1..]), s[0], s[1..], rest);
      assert [s[0]] + s[1..] == s;
      idx := if s[0] == '.' then shifted else [0] + shifted;
    }
  }

  /** Removing the dots keeps the other characters in their order. */
  lemma WithoutDotsKeepsOrder(s: string)
    ensures IsSubsequence(WithoutDots(s), s)
  {
    var idx := WithoutDotsPositions(s);
  }

  /** No character follows a dot that is itself a dot. */
  predicate AtMostOneDot(s: string) {
    forall i, j :: 0 <= i < j < |s| && s[i] == '.' ==> s[j] != '.'
  }

  /** Cuts the text after the first dot down to `decimals` characters. */
  function TrimFraction(t: string, decimals: nat): string {
    var k := IndexOf(t, '.');
    if k != -1 && |t| - (k + 1) > decimals then t[..k + 1 + decimals] else t
  }

  /** Removes one leading '0' from a string longer than one character that
      does not start with "0.". */
  function DropLeadingZero(t: string): string {
    if |t| > 1 && StartsWith(t, "0") && !StartsWith(t, "0.") then t[1..] else t
  }

  /** The sanitised amount: filter, trim the fraction, drop one leading zero. */
  function FormattedAmount(value: string, decimals: nat): string {
    DropLeadingZero(TrimFraction(KeepDigitsAndDots(value), decimals))
  }

  /** An amount the sanitiser returns unchanged. */
  predicate IsSettledAmount(value: string, decimals: nat) {
    && (forall i :: 0 <= i < |value| ==> IsAmountChar(value[i]))
    && (IndexOf(value, '.') != -1 ==> |value| - IndexOf(value, '.') - 1 <= decimals)
    && !(|value| > 1 && StartsWith(value, "0") && !StartsWith(value, "0."))
  }

  /** Only digits and dots. */
  predicate AmountOnly(s: string) {
    forall i :: 0 <= i < |s| ==> IsAmountChar(s[i])
  }

  /** Keeping the text up to the first dot and removing the dots after it
      leaves exactly one dot, shortens nothing else and adds no character. */
  lemma KeepFirstDot(p: string, k: int)
    requires k == IndexOf(p, '.') && k != -1
    ensures var q := p[..k + 1] + WithoutDots(p[k + 1..]);
      |q| <= |p| && '.' in q && AtMostOneDot(q) && (AmountOnly(p) ==> AmountOnly(q))
  {
    var tail := p[k + 1..];
    var q := p[..k + 1] + WithoutDots(tail);
    assert q[k] == '.';
    forall i, j | 0 <= i < j < |q| && q[i] == '.' ensures q[j] != '.' {
      assert i == k;
      assert q[j] == WithoutDots(tail)[j - k - 1];
    }
    if AmountOnly(p) {
      assert AmountOnly(tail) by {
        forall i | 0 <= i < |tail| ensures IsAmountChar(tail[i]) { assert tail[i] == p[k + 1 + i]; }
      }
      forall i | 0 <= i < |q| ensures IsAmountChar(q[i]) {
        if i > k { assert q[i] == WithoutDots(tail)[i - k - 1]; }
      }
    }
  }

  /** Cutting a prefix, and dropping a first character, keep a string with at
      most one dot, and made of digits and dots, as it was. */
  lemma PrefixAndSuffixKeep(p: string, n: nat)
    requires n <= |p|
    ensures AtMostOneDot(p) ==> AtMostOneDot(p[..n])
    ensures AmountOnly(p) ==> AmountOnly(p[..n])
    ensures |p| > 0 && AtMostOneDot(p) ==> AtMostOneDot(p[1..])
    ensures |p| > 0 && AmountOnly(p) ==> AmountOnly(p[1..])
  {
    if |p| > 0 {
      assert forall i :: 0 <= i < |p[1..]| ==> p[1..][i] == p[i + 1];
    }
  }

  /** The first sanitising pass (filter, keep the first dot only, trim the
      fraction, drop one leading zero), whose result the caller discards. */
  method FirstPass(value: string, decimals: nat) returns (processedValue: string)
    ensures |processedValue| <= |value|
    ensures AtMostOneDot(processedValue)
    ensures AmountOnly(processedValue)
  {
    processedValue := value;
    if processedValue != "" && processedValue != "." {
      processedValue := KeepDigitsAndDots(processedValue);
    }
    assert AmountOnly(processedValue);
    var decimalPointIndex := IndexOf(processedValue, '.');
    if decimalPointIndex != -1 {
      KeepFirstDot(processedValue, decimalPointIndex);
      processedValue := processedValue[..decimalPointIndex + 1] + WithoutDots(processedValue[decimalPointIndex + 1..]);
    }
    assert AtMostOneDot(processedValue);
    if decimalPointIndex != -1 {
      var decimalPart := Substring(processedValue, decimalPointIndex + 1, |processedValue|);
      if |decimalPart| > decimals {
        PrefixAndSuffixKeep(processedValue, decimalPointIndex + 1 + decimals);
        processedValue := Substring(processedValue, 0, decimalPointIndex + 1 + decimals);
      }
    }
    if |processedValue| > 1 && StartsWith(processedValue, "0") && !StartsWith(processedValue, "0.") {
      PrefixAndSuffixKeep(processedValue, 0);
      processedValue := processedValue[1..];
    }
  }

  /** The second pass's `replace(/[^0-9.]/g, callback)`: every character
      outside 0-9 and '.' is handed to the callback, which keeps it only when
      it is the first dot of the text, so no handed character is kept. */
  method ReplaceOutsideAmountChars(tempValue: string) returns (filtered: string)
    ensures filtered == KeepDigitsAndDots(tempValue)
  {
    filtered := "";
    var offset := 0;
    while offset < |tempValue|
      invariant 0 <= offset <= |tempValue|
      invariant filtered == KeepDigitsAndDots(tempValue[..offset])
    {
      var ch := tempValue[offset];
      if !IsAmountChar(ch) {
        var keep := ch == '.' && IndexOf(tempValue, '.') == offset;
        filtered := filtered + (if keep then "." else "");
      } else {
        filtered := filtered + [ch];
      }
      assert tempValue[..offset + 1][..offset] == tempValue[..offset];
      offset := offset + 1;
    }
    assert tempValue[..offset] == tempValue;
  }

  /** Sanitises a typed amount. The first pass (filter, single dot, trim, leading
      zero) is computed and then discarded: only the second pass, a character
      filter whose "keep the first dot" callback can never fire, a fraction trim
      and a single leading-zero drop, decides the result. */
  method FormatValueOnInputChange(value: string, decimals: nat) returns (r: string)
    ensures r == FormattedAmount(value, decimals)
    ensures forall i :: 0 <= i < |r| ==> IsAmountChar(r[i])
    ensures IsSubsequence(r, value)
    ensures IndexOf(r, '.') != -1 ==> |r| - IndexOf(r, '.') - 1 <= decimals
  {
    // First pass; its value is overwritten below.
    var processedValue := FirstPass(value, decimals);

    // Second pass.
    var tempValue := ReplaceOutsideAmountChars(value);

    var newDecimalPointIndex := IndexOf(tempValue, '.');
    if newDecimalPointIndex != -1 {
      var decimalPart := Substring(tempValue, newDecimalPointIndex + 1, |tempValue|);
      if |decimalPart| > decimals {
        tempValue := Substring(tempValue, 0, newDecimalPointIndex + 1 + decimals);
      }
    }

    assert tempValue == TrimFraction(KeepDigitsAndDots(value), decimals);
    ghost var trimmed := tempValue;

    if |tempValue| > 1 && StartsWith(tempValue, "0") && !StartsWith(tempValue, "0.") {
      tempValue := tempValue[1..];
    }
    assert tempValue == DropLeadingZero(trimmed);

    processedValue := tempValue;
    r := processedValue;
    FormattedAmountOnly(value, decimals);
    FormattedAmountIsSubsequence(value, decimals);
    FormattedFractionWithinLimit(value, decimals);
  }

  // ---------------------------------------------------------------- properties of the sanitiser

  /** `a` is `b` with some characters deleted: `idx` lists, in increasing order,
      the positions of `b` that make up `a`. */
  ghost predicate EmbeddedAt(a: string, b: string, idx: seq<int>) {
    && |idx| == |a|
    && (forall i :: 0 <= i < |idx| ==> 0 <= idx[i] < |b| && b[idx[i]] == a[i])
    && (forall i, j :: 0 <= i < j < |idx| ==> idx[i] < idx[j])
  }

  ghost predicate IsSubsequence(a: string, b: string) {
    exists idx :: EmbeddedAt(a, b, idx)
  }

  /** The positions of `s` that hold a digit or a dot, in increasing order. */
  function AmountPositions(s: string): seq<int> {
    if s == [] then []
    else AmountPositions(s[..|s| - 1]) + (if IsAmountChar(s[|s| - 1]) then [|s| - 1] else [])
  }

  lemma {:induction false} FilterEmbedded(s: string)
    ensures EmbeddedAt(KeepDigitsAndDots(s), s, AmountPositions(s))
  {
    if s != [] {
      var p := s[..|s| - 1];
      FilterEmbedded(p);
    }
  }

  /** The filter removes every character outside 0-9 and '.', and keeps every
      digit and every dot of the input: the "first dot only" callback is dead. */
  lemma {:induction false} FilterCounts(s: string, c: char)
    ensures multiset(KeepDigitsAndDots(s))[c] == if IsAmountChar(c) then multiset(s)[c] else 0
  {
    if s != [] {
      var p := s[..|s| - 1];
      FilterCounts(p, c);
      assert s == p + [s[|s| - 1]];
    }
  }

  /** The filter leaves a string of digits and dots as it is. */
  lemma {:induction false} FilterKeepsAmountChars(s: string)
    requires forall i :: 0 <= i < |s| ==> IsAmountChar(s[i])
    ensures KeepDigitsAndDots(s) == s
  {
    if s != [] {
      FilterKeepsAmountChars(s[..|s| - 1]);
    }
  }

  /** A filter that removes nothing was given digits and dots only. */
  lemma {:induction false} FilterShortensOtherwise(s: string)
    requires |KeepDigitsAndDots(s)| == |s|
    ensures forall i :: 0 <= i < |s| ==> IsAmountChar(s[i])
  {
    if s != [] {
      var p := s[..|s| - 1];
      FilterShortensOtherwise(p);
      forall i | 0 <= i < |s| ensures IsAmountChar(s[i]) {
        if i < |s| - 1 { assert s[i] == p[i]; }
      }
    }
  }

  /** The sanitised amount is a contiguous piece of the filtered input. */
  lemma FormattedIsPieceOfFiltered(value: string, decimals: nat)
    ensures exists lo, hi ::
      (0 <= lo <= hi <= |KeepDigitsAndDots(value)| && FormattedAmount(value, decimals) == KeepDigitsAndDots(value)[lo..hi])
  {
    var f := KeepDigitsAndDots(value);
    var t := TrimFraction(f, decimals);
    var hi := |t|;
    assert t == f[..hi];
    if DropLeadingZero(t) == t {
      assert FormattedAmount(value, decimals) == f[0..hi];
    } else {
      assert FormattedAmount(value, decimals) == f[1..hi];
    }
  }

  /** The sanitised amount holds only digits and dots. */
  lemma FormattedAmountOnly(value: string, decimals: nat)
    ensures AmountOnly(FormattedAmount(value, decimals))
  {
    FormattedIsPieceOfFiltered(value, decimals);
    var f := KeepDigitsAndDots(value);
    var lo, hi :| 0 <= lo <= hi <= |f| && FormattedAmount(value, decimals) == f[lo..hi];
    assert forall i :: 0 <= i < hi - lo ==> f[lo..hi][i] == f[lo + i];
  }

  /** The sanitised amount is obtained from the input by deleting characters,
      so it is never longer than the input. */
  lemma FormattedAmountIsSubsequence(value: string, decimals: nat)
    ensures IsSubsequence(FormattedAmount(value, decimals), value)
    ensures |FormattedAmount(value, decimals)| <= |value|
  {
    var f := KeepDigitsAndDots(value);
    var idx := AmountPositions(value);
    FilterEmbedded(value);
    FormattedIsPieceOfFiltered(value, decimals);
    var lo, hi :| 0 <= lo <= hi <= |f| && FormattedAmount(value, decimals) == f[lo..hi];
    EmbeddedSlice(f, value, idx, lo, hi);
  }

  /** A slice of an embedded string is embedded at the same slice of positions. */
  lemma EmbeddedSlice(a: string, b: string, idx: seq<int>, lo: int, hi: int)
    requires EmbeddedAt(a, b, idx)
    requires 0 <= lo <= hi <= |a|
    ensures EmbeddedAt(a[lo..hi], b, idx[lo..hi])
  {
  }

  /** After the first dot at most `decimals` characters remain. */
  lemma FormattedFractionWithinLimit(value: string, decimals: nat)
    ensures var r := FormattedAmount(value, decimals);
      IndexOf(r, '.') != -1 ==> |r| - IndexOf(r, '.') - 1 <= decimals
  {
    var t := TrimFraction(KeepDigitsAndDots(value), decimals);
    var k := IndexOf(t, '.');
    if k != -1 {
      var f := KeepDigitsAndDots(value);
      var kf := IndexOf(f, '.');
      if t != f {
        assert t[..kf] == f[..kf];
        assert t[kf] == '.';
      }
      assert |t| - k - 1 <= decimals;
      if DropLeadingZero(t) != t {
        var u := t[1..];
        assert t[0] == '0';
        assert k >= 1;
        assert u[k - 1] == '.';
        assert u[..k - 1] == t[1..k];
      }
    }
  }

  /** An amount comes back unchanged exactly when it is already settled: only
      digits and dots, a fraction within the limit, and no removable leading zero. */
  lemma SettledAmountsAreFixedPoints(value: string, decimals: nat)
    ensures FormattedAmount(value, decimals) == value <==> IsSettledAmount(value, decimals)
  {
    var f := KeepDigitsAndDots(value);
    var t := TrimFraction(f, decimals);
    if FormattedAmount(value, decimals) == value {
      assert |t| <= |f| <= |value|;
      assert |DropLeadingZero(t)| == |value|;
      FilterShortensOtherwise(value);
      FilterKeepsAmountChars(value);
      assert t == value;
    }
    if IsSettledAmount(value, decimals) {
      FilterKeepsAmountChars(value);
    }
  }

  // Where an example below takes its input as a parameter fixed by
  // `requires`, the form with the literal written into the `ensures` is too
  // costly for the solver.

  /** Both dots of "1.2.3" survive: the input is already settled. */
  lemma MultipleDotsKept()
    ensures FormattedAmount("1.2.3", 18) == "1.2.3"
  {
    var v := "1.2.3";
    assert IndexOf(v, '.') == 1 by { assert v[1] == '.'; }
    SettledAmountsAreFixedPoints(v, 18);
  }

  /** "05" loses its zero. */
  lemma LeadingZeroDropped(v: string)
    requires v == "05"
    ensures FormattedAmount(v, 6) == "5"
  {
    FilterKeepsAmountChars(v);
    assert IndexOf(v, '.') == -1;
  }

  /** "0.5" keeps its zero. */
  lemma ZeroBeforeDotKept(v: string)
    requires v == "0.5"
    ensures FormattedAmount(v, 6) == v
  {
    FilterKeepsAmountChars(v);
    assert IndexOf(v, '.') == 1 by { assert v[1] == '.' && v[0] != '.'; }
    assert StartsWith(v, "0.");
  }

  /** Only one of several leading zeros is dropped per call. */
  lemma OnlyOneLeadingZeroDropped(v: string)
    requires v == "005"
    ensures FormattedAmount(v, 6) == "05"
  {
    FilterKeepsAmountChars(v);
    assert IndexOf(v, '.') == -1;
    assert TrimFraction(v, 6) == v;
  }

  /** The same holds in front of a fraction. */
  lemma OnlyOneLeadingZeroDroppedBeforeFraction(v: string)
    requires v == "000.5001"
    ensures FormattedAmount(v, 6) == "00.5001"
  {
    assert KeepDigitsAndDots(v) == v by { FilterKeepsAmountChars(v); }
    assert IndexOf(v, '.') == 3 by { assert v[3] == '.' && v[..3] == "000"; }
    assert TrimFraction(v, 6) == v;
    assert DropLeadingZero(v) == "00.5001" by { assert v[..2] == "00"; }
  }

  /** Excess fraction digits are cut. */
  lemma FractionTrimmed(v: string)
    requires v == "1.2345678"
    ensures FormattedAmount(v, 6) == "1.234567"
  {
    FilterKeepsAmountChars(v);
    assert IndexOf(v, '.') == 1 by { assert v[1] == '.' && v[0] != '.'; }
    assert TrimFraction(v, 6) == v[..8];
  }

  /** Characters other than digits and dots are removed. */
  lemma ForeignCharactersRemoved(v: string)
    requires v == "1a,5"
    ensures FormattedAmount(v, 6) == "15"
  {
    assert KeepDigitsAndDots(v[..1]) == "1";
    assert v[..2][..1] == v[..1];
    assert KeepDigitsAndDots(v[..2]) == "1";
    assert v[..3][..2] == v[..2];
    assert KeepDigitsAndDots(v[..3]) == "1";
    assert v[..3] == v[..|v| - 1];
    assert KeepDigitsAndDots(v) == "15";
    assert IndexOf("15", '.') == -1;
  }

  /** Sanitising is not idempotent: a second pass over "05" (the result for
      "005") drops another zero. */
  lemma FormattedAmountNotIdempotent(v: string)
    requires v == "005"
    ensures FormattedAmount(FormattedAmount(v, 6), 6) != FormattedAmount(v, 6)
  {
    OnlyOneLeadingZeroDropped(v);
    LeadingZeroDropped("05");
  }
}
