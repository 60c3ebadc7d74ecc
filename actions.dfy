/**
 * rasa-bot/actions/actions.py: the slot validators of the sell-property and
 * property-search forms, and the filter cleaning and result rendering of the search
 * action. A validator's dict result `{slot: value}` is the value it sets the slot to,
 * None clearing the slot; the dispatcher messages are left out.
 */
module Actions {
  import opened Wrappers
  import opened Values
  import opened Text
  import opened Seqs

  // ---------------------------------------------------------------------------
  // Text slots

  /**
   * `value.strip()` when `value` is a non-empty string whose stripped length is at least
   * `min`, otherwise None.
   */
  function ValidateText(value: Value, min: nat): Option<string>
  {
    if value.Str? && value.s != "" && |Strip(value.s)| >= min then Some(Strip(value.s)) else None
  }

  /** `validate_property_id`: at least 3 characters. */
  function ValidatePropertyId(value: Value): Option<string>
  {
    ValidateText(value, 3)
  }

  /** `validate_unitId`: at least 1 character. */
  function ValidateUnitId(value: Value): Option<string>
  {
    ValidateText(value, 1)
  }

  /** `validate_location`: at least 2 characters. */
  function ValidateLocation(value: Value): Option<string>
  {
    ValidateText(value, 2)
  }

  /** `validate_description`: at least 5 characters. */
  function ValidateDescription(value: Value): Option<string>
  {
    ValidateText(value, 5)
  }

  /**
   * A text slot is accepted exactly when the value is a string whose stripped form has
   * at least `min` characters (an empty string is refused even when `min` is 0), and then
   * holds that stripped form: a slice of the input with only whitespace cut on each side
   * and none left at either end.
   */
  lemma ValidateTextAccepts(value: Value, min: nat)
    ensures ValidateText(value, min).Some? <==> value.Str? && value.s != "" && |Strip(value.s)| >= min
    ensures ValidateText(value, min).Some? ==>
      var r := ValidateText(value, min).value;
      |r| >= min && Stripped(r) && exists i | 0 <= i <= |value.s| - |r| :: OccursAt(value.s, r, i)
  {
    if value.Str? {
      StripIsTrimmedSlice(value.s);
    }
  }

  /** Validating an accepted value again accepts it unchanged. */
  lemma ValidateTextIdempotent(value: Value, min: nat)
    requires ValidateText(value, min).Some?
    requires min >= 1
    ensures ValidateText(Str(ValidateText(value, min).value), min) == ValidateText(value, min)
  {
    StripIdempotent(value.s);
  }

  // ---------------------------------------------------------------------------
  // validate_property_type

  /** `VALID_TYPES`. */
  const ValidTypes: set<string> := {
    "c\U{0103}n h\U{1ED9}", "nh\U{00E0} \U{1EDF}", "nh\U{00E0} m\U{1EB7}t ti\U{1EC1}n", "studio",
    "nh\U{00E0} v\U{00F9}ng ven"}

  /** `str(value).lower().strip()` when `value` is truthy, otherwise the empty string. */
  function NormalForm(py: Builtins, value: Value): string
  {
    if Truthy(value) then Strip(Lower(ToStr(py, value))) else ""
  }

  /** `validate_property_type`: the normal form of the value, accepted when it is one of the valid types. */
  function ValidatePropertyType(py: Builtins, value: Value): (r: Option<string>)
  {
    var v := NormalForm(py, value);
    if v in ValidTypes then Some(v) else None
  }

  /** A valid type is lower case, with no surrounding whitespace, so it is its own normal form. */
  lemma NormalType(py: Builtins, t: string)
    requires t in ValidTypes
    ensures NormalForm(py, Str(t)) == t
  {
    ValidTypeLower(t);
    ValidTypeStripped(t);
    StrippedIsFixed(t);
  }

  /** A valid type has no upper-case letter. */
  lemma ValidTypeLower(t: string)
    requires t in ValidTypes
    ensures Lower(t) == t
  {
    assert forall i | 0 <= i < |t| :: LowerChar(t[i]) == t[i];
  }

  /** A valid type has no whitespace at either end. */
  lemma ValidTypeStripped(t: string)
    requires t in ValidTypes
    ensures t != "" && Stripped(t)
  {
  }

  /** Every valid type, given as it is, is accepted unchanged. */
  lemma ValidTypeAccepted(py: Builtins, t: string)
    requires t in ValidTypes
    ensures ValidatePropertyType(py, Str(t)) == Some(t)
  {
    NormalType(py, t);
  }

  /** Case does not matter: "NHÀ Ở" is accepted as the valid type "nhà ở". */
  lemma UpperCaseTypeAccepted(py: Builtins)
    ensures ValidatePropertyType(py, Str("NH\U{00C0} \U{1EDE}")) == Some("nh\U{00E0} \U{1EDF}")
  {
    var t := "nh\U{00E0} \U{1EDF}";
    assert Lower("NH\U{00C0} \U{1EDE}") == t;
    assert t in ValidTypes;
    ValidTypeStripped(t);
    StrippedIsFixed(t);
  }

  /** An accepted property type is a valid type, and validating it again accepts it unchanged. */
  lemma ValidatePropertyTypeIdempotent(py: Builtins, value: Value)
    requires ValidatePropertyType(py, value).Some?
    ensures ValidatePropertyType(py, value).value in ValidTypes
    ensures ValidatePropertyType(py, Str(ValidatePropertyType(py, value).value)) == ValidatePropertyType(py, value)
  {
    ValidTypeAccepted(py, ValidatePropertyType(py, value).value);
  }

  // ---------------------------------------------------------------------------
  // Numbers in free text: re.search(r"(\d+)") and re.search(r"(\d+(?:\.\d+)?)")

  /** The longest prefix of `s` made of digits. */
  function DigitRun(s: string): (r: string)
    ensures AllDigits(r) && |r| <= |s| && r == s[..|r|]
    ensures |r| < |s| ==> !IsDigit(s[|r|])
  {
    if s != [] && IsDigit(s[0]) then [s[0]] + DigitRun(s[1..]) else []
  }

  /** The position of the first digit of `s`, if any. */
  function FirstDigitAt(s: string): (r: Option<nat>)
    ensures r.None? <==> forall i | 0 <= i < |s| :: !IsDigit(s[i])
    ensures r.Some? ==> r.value < |s| && IsDigit(s[r.value]) && forall i | 0 <= i < r.value :: !IsDigit(s[i])
  {
    if s == [] then None
    else if IsDigit(s[0]) then Some(0)
    else
      var r := FirstDigitAt(s[1..]);
      if r.Some? then Some(r.value + 1) else None
  }

  /** What `(\d+)` matches in `s`: the first run of digits, taken whole. */
  function FirstDigits(s: string): Option<string>
  {
    match FirstDigitAt(s)
    case None => None
    case Some(i) => Some(DigitRun(s[i..]))
  }

  /**
   * `(\d+)` finds a match exactly when `s` holds a digit; the match is the leftmost
   * run of digits, not empty, starting after a stretch free of digits and not
   * followed by a digit.
   */
  lemma FirstDigitsIsLeftmostRun(s: string)
    ensures FirstDigits(s).None? <==> forall i | 0 <= i < |s| :: !IsDigit(s[i])
    ensures FirstDigits(s).Some? ==>
      var m := FirstDigits(s).value; var i := FirstDigitAt(s).value;
      |m| >= 1 && AllDigits(m) && OccursAt(s, m, i)
      && (forall j | 0 <= j < i :: !IsDigit(s[j]))
      && (i + |m| < |s| ==> !IsDigit(s[i + |m|]))
  {
  }

  /** What `(\d+(?:\.\d+)?)` matches at a digit: its run, then a dot and a run when a digit follows the dot. */
  function NumberAt(s: string): string
  {
    var a := DigitRun(s);
    var rest := s[|a|..];
    if |rest| >= 2 && rest[0] == '.' && IsDigit(rest[1]) then a + "." + DigitRun(rest[1..]) else a
  }

  /** What `(\d+(?:\.\d+)?)` matches in `s`. */
  function FirstNumber(s: string): Option<string>
  {
    match FirstDigitAt(s)
    case None => None
    case Some(i) => Some(NumberAt(s[i..]))
  }

  /** `10^n`. */
  function Pow10(n: nat): (r: real)
    ensures r >= 1.0
  {
    if n == 0 then 1.0 else 10.0 * Pow10(n - 1)
  }

  /** The number a match of `\d+(?:\.\d+)?` denotes: `float(m)` without rounding. */
  function NumberValue(m: string): real
  {
    var a := DigitRun(m);
    var rest := m[|a|..];
    if |rest| >= 2 && rest[0] == '.' then
      var b := DigitRun(rest[1..]);
      DigitsValue(a) as real + DigitsValue(b) as real / Pow10(|b|)
    else DigitsValue(a) as real
  }

  /** A number found in text is never negative. */
  lemma NumberValueNonNegative(m: string)
    ensures NumberValue(m) >= 0.0
  {
  }

  /**
   * The decimal match at a digit extends the digit run there: it is that run, or that run
   * followed by a dot and a further run of digits; either way it is a prefix of the text.
   */
  lemma NumberAtShape(t: string)
    ensures var m := NumberAt(t); var d := DigitRun(t);
      && |d| <= |m| <= |t| && t[..|m|] == m && m[..|d|] == d
      && (m == d || (|m| >= |d| + 2 && m[|d|] == '.' && AllDigits(m[|d| + 1..])))
  {
    var a := DigitRun(t);
    var rest := t[|a|..];
    if |rest| >= 2 && rest[0] == '.' && IsDigit(rest[1]) {
      FractionShape(t, a, DigitRun(rest[1..]));
    }
  }

  /** A run, a dot and a further run of digits read off the front of `t` form a prefix of `t`. */
  lemma FractionShape(t: string, a: string, b: string)
    requires |a| + 1 <= |t| && t[..|a|] == a && t[|a|] == '.'
    requires |b| <= |t| - |a| - 1 && b == t[|a| + 1..][..|b|] && AllDigits(b) && |b| >= 1
    ensures var m := a + "." + b;
      && |m| <= |t| && t[..|m|] == m && m[..|a|] == a
      && |m| >= |a| + 2 && m[|a|] == '.' && AllDigits(m[|a| + 1..])
  {
    var m := a + "." + b;
    assert m[|a| + 1..] == b;
    assert forall k | 0 <= k < |m| :: t[k] == m[k] by {
      forall k | 0 <= k < |m|
        ensures t[k] == m[k]
      {
        if k > |a| {
          assert t[k] == t[|a| + 1..][..|b|][k - |a| - 1];
        }
      }
    }
  }

  /**
   * `(\d+(?:\.\d+)?)` finds a match exactly when `(\d+)` does, at the same position, and
   * the match extends the digit match by at most a fraction.
   */
  lemma FirstNumberExtendsDigits(s: string)
    ensures FirstNumber(s).Some? <==> FirstDigits(s).Some?
    ensures FirstNumber(s).Some? ==>
      var m := FirstNumber(s).value; var d := FirstDigits(s).value;
      && OccursAt(s, m, FirstDigitAt(s).value)
      && |d| <= |m| && m[..|d|] == d
      && (m == d || (|m| >= |d| + 2 && m[|d|] == '.' && AllDigits(m[|d| + 1..])))
  {
    if FirstNumber(s).Some? {
      var i := FirstDigitAt(s).value;
      NumberAtShape(s[i..]);
      PrefixOfSuffixOccurs(s, i, NumberAt(s[i..]));
    }
  }

  /** A prefix of the text from `i` on occurs in the text at `i`. */
  lemma PrefixOfSuffixOccurs(s: string, i: nat, m: string)
    requires i <= |s| && |m| <= |s| - i && s[i..][..|m|] == m
    ensures OccursAt(s, m, i)
  {
    assert s[i..i + |m|] == s[i..][..|m|];
  }

  /** The value of a whole-number match is the number its digits denote. */
  lemma WholeNumberValue(m: string)
    requires |m| >= 1 && AllDigits(m)
    ensures NumberValue(m) == DigitsValue(m) as real
  {
    assert DigitRun(m) == m by {
      DigitRunOfDigits(m);
    }
  }

  /** At a whole number, the decimal match is the whole number. */
  lemma NumberAtOfDigits(m: string)
    requires AllDigits(m)
    ensures NumberAt(m) == m
  {
    DigitRunOfDigits(m);
  }

  /** A string of digits is its own digit run. */
  lemma {:induction false} DigitRunOfDigits(m: string)
    requires AllDigits(m)
    ensures DigitRun(m) == m
  {
    if m != [] {
      DigitRunOfDigits(m[1..]);
    }
  }

  // ---------------------------------------------------------------------------
  // Number slots

  /** What a validator does: set the slot (None clears it), or raise. */
  datatype Outcome<T> = Returns(slot: Option<T>) | Raises

  /**
   * `validate_bedrooms` as written: a value that reads as a number strictly between 0 and
   * 10 is taken; otherwise the first run of digits of the latest message. When `float(value)`
   * raises, `v` is unbound at `print(v)`, so the validator raises.
   */
  function ValidateBedroomsAsWritten(py: Builtins, value: Value, latest: Option<string>): Outcome<real>
  {
    var v := PyFloat(py, value);
    if v.None? then Raises
    else if 0.0 < v.value < 10.0 then Returns(Some(v.value))
    else BedroomsFromText(latest)
  }

  /** The fallback of `validate_bedrooms`: the first run of digits of the latest message, as a number. */
  function BedroomsFromText(latest: Option<string>): Outcome<real>
  {
    match FirstDigits(latest.GetOr(""))
    case Some(m) => Returns(Some(DigitsValue(m) as real))
    case None => Returns(None)
  }

  /** `validate_bedrooms` as evidently intended: an unreadable value also falls back to the message. */
  function ValidateBedrooms(py: Builtins, value: Value, latest: Option<string>): Outcome<real>
  {
    var v := PyFloat(py, value);
    if v.Some? && 0.0 < v.value < 10.0 then Returns(Some(v.value))
    else BedroomsFromText(latest)
  }

  /** An unreadable bedrooms value makes the validator raise instead of reading the message. */
  lemma BedroomsUnreadableRaises(py: Builtins, value: Value, latest: Option<string>)
    requires PyFloat(py, value).None?
    ensures ValidateBedroomsAsWritten(py, value, latest).Raises?
    ensures ValidateBedrooms(py, value, latest) == BedroomsFromText(latest)
  {
  }

  /** `validate_bedrooms(None)` after the message "2" raises, where reading the message gives 2. */
  lemma BedroomsNoneExample(py: Builtins)
    ensures ValidateBedroomsAsWritten(py, Null, Some("2")) == Raises
    ensures ValidateBedrooms(py, Null, Some("2")) == Returns(Some(2.0))
  {
    assert FirstDigitAt("2") == Some(0);
    assert DigitRun("2") == "2";
  }

  /**
   * The intended validator never raises and agrees with the written one wherever the
   * value reads as a number; what it sets is in (0, 10) or the whole number of the first
   * digit run of the message.
   */
  lemma ValidateBedroomsSpec(py: Builtins, value: Value, latest: Option<string>)
    ensures ValidateBedrooms(py, value, latest).Returns?
    ensures PyFloat(py, value).Some? ==> ValidateBedrooms(py, value, latest) == ValidateBedroomsAsWritten(py, value, latest)
    ensures var r := ValidateBedrooms(py, value, latest);
      r.slot.Some? ==>
        (0.0 < r.slot.value < 10.0 && PyFloat(py, value) == Some(r.slot.value))
        || (FirstDigits(latest.GetOr("")).Some? && r.slot.value == DigitsValue(FirstDigits(latest.GetOr("")).value) as real)
  {
    FirstDigitsIsLeftmostRun(latest.GetOr(""));
  }

  /** The number found in the latest message with its commas removed, if any. */
  function NumberInText(latest: Option<string>): Option<real>
  {
    match FirstNumber(RemoveAll(latest.GetOr(""), ','))
    case Some(m) => Some(NumberValue(m))
    case None => None
  }

  /** `validate_price`: a positive value is taken, otherwise the number in the latest message. */
  function ValidatePrice(py: Builtins, value: Value, latest: Option<string>): (r: Option<real>)
  {
    var v := PyFloat(py, value);
    if v.Some? && v.value > 0.0 then Some(v.value) else NumberInText(latest)
  }

  /**
   * A positive value is taken as it is; otherwise the price is the first number of the
   * message with its commas removed, and there is none when the message has no digit.
   * A price set this way is never negative.
   */
  lemma ValidatePriceSpec(py: Builtins, value: Value, latest: Option<string>)
    ensures ValidatePrice(py, value, latest).Some? ==> ValidatePrice(py, value, latest).value >= 0.0
    ensures PyFloat(py, value).Some? && PyFloat(py, value).value > 0.0 ==> ValidatePrice(py, value, latest) == PyFloat(py, value)
    ensures !(PyFloat(py, value).Some? && PyFloat(py, value).value > 0.0)
            && FirstNumber(RemoveAll(latest.GetOr(""), ',')).Some? ==>
      ValidatePrice(py, value, latest) == Some(NumberValue(FirstNumber(RemoveAll(latest.GetOr(""), ',')).value))
    ensures ValidatePrice(py, value, latest).None? <==>
      !(PyFloat(py, value).Some? && PyFloat(py, value).value > 0.0) && FirstDigitAt(RemoveAll(latest.GetOr(""), ',')).None?
  {
    var m := FirstNumber(RemoveAll(latest.GetOr(""), ','));
    if m.Some? {
      NumberValueNonNegative(m.value);
    }
  }

  /** Thousands separators do not cut a number: "1,500" reads as 1500. */
  lemma PriceWithCommas(py: Builtins)
    ensures ValidatePrice(py, Null, Some("1,500")) == Some(1500.0)
  {
    CommasRemoved();
    Number1500();
  }

  /** Removing the separator from "1,500". */
  lemma CommasRemoved()
    ensures RemoveAll("1,500", ',') == "1500"
  {
  }

  /** The number read from "1500". */
  lemma Number1500()
    ensures FirstNumber("1500") == Some("1500") && NumberValue("1500") == 1500.0
  {
    assert FirstDigitAt("1500") == Some(0);
    assert "1500"[0..] == "1500";
    NumberAtOfDigits("1500");
    WholeNumberValue("1500");
    assert "1500"[..3] == "150" && "150"[..2] == "15" && "15"[..1] == "1";
  }

  /** `extract_budget`: the number in the latest message with its commas removed; None stands for `{}`. */
  function ExtractBudget(latest: Option<string>): Option<real>
  {
    NumberInText(latest)
  }

  /** `validate_budget`: a value that reads as a positive number, else None. */
  function ValidateBudget(py: Builtins, value: Value): Option<real>
  {
    var v := PyFloat(py, value);
    if v.Some? && v.value > 0.0 then Some(v.value) else None
  }

  /**
   * A budget is accepted exactly when it reads as a positive number, and is that number;
   * a budget extracted from text is accepted back unless it is zero.
   */
  lemma ValidateBudgetSpec(py: Builtins, value: Value, latest: Option<string>)
    ensures ValidateBudget(py, value).Some? <==> PyFloat(py, value).Some? && PyFloat(py, value).value > 0.0
    ensures ValidateBudget(py, value).Some? ==> ValidateBudget(py, value) == PyFloat(py, value)
    ensures ExtractBudget(latest).Some? && ExtractBudget(latest).value != 0.0 ==>
      ValidateBudget(py, Float(ExtractBudget(latest).value)) == ExtractBudget(latest)
  {
    var m := FirstNumber(RemoveAll(latest.GetOr(""), ','));
    if m.Some? {
      NumberValueNonNegative(m.value);
    }
  }

  // ---------------------------------------------------------------------------
  // ActionSearchProperties.run

  /** Whether a filter survives cleaning: its value is neither None nor `""`. */
  function KeepFilter(p: (string, Value)): Option<(string, Value)>
  {
    if p.1 == Null || p.1 == Str("") then None else Some(p)
  }

  /** The filter dict built from the location, property_type, budget and bedrooms slots. */
  function SlotFilters(location: Value, propertyType: Value, budget: Value, bedrooms: Value): seq<(string, Value)>
  {
    [("location", location), ("property_type", propertyType), ("budget_max", budget), ("bedrooms", bedrooms)]
  }

  /** `{k: v for k, v in filters.items() if v not in (None, "")}`. */
  method CleanFilters(filters: seq<(string, Value)>) returns (r: seq<(string, Value)>)
    ensures r == Collect(KeepFilter, filters)
  {
    r := [];
    for i := 0 to |filters|
      invariant r == Collect(KeepFilter, filters[..i])
    {
      CollectStep(KeepFilter, filters, i);
      var (k, v) := filters[i];
      if !(v == Null || v == Str("")) {
        r := r + [(k, v)];
      }
    }
    assert filters[..|filters|] == filters;
  }

  /**
   * Cleaning keeps, in order, exactly the filters whose value is neither None nor `""`;
   * other falsy values such as 0 stay.
   */
  lemma CleanFiltersKeeps(filters: seq<(string, Value)>)
    ensures var r := Collect(KeepFilter, filters); var src := Sources(KeepFilter, filters);
      && |r| == |src|
      && (forall k | 0 <= k < |r| :: r[k] == filters[src[k]] && r[k].1 != Null && r[k].1 != Str(""))
      && (forall j | 0 <= j < |filters| :: filters[j].1 != Null && filters[j].1 != Str("") ==> j in src)
  {
    CollectSources(KeepFilter, filters);
  }

  /** A zero bedrooms slot is kept as a filter. */
  lemma ZeroKept(location: Value, propertyType: Value, budget: Value)
    requires location == Null && propertyType == Str("") && budget == Null
    ensures Collect(KeepFilter, SlotFilters(location, propertyType, budget, Int(0))) == [("bedrooms", Int(0))]
  {
    var f := SlotFilters(location, propertyType, budget, Int(0));
    assert f[..0] == [];
    CollectStep(KeepFilter, f, 0);
    CollectStep(KeepFilter, f, 1);
    CollectStep(KeepFilter, f, 2);
    CollectStep(KeepFilter, f, 3);
    assert f[..4] == f;
  }

  /** The cut-off of a rendered description. */
  const DescriptionLimit: nat := 180

  /** `(meta.get("description") or "").strip()`, cut to 180 characters plus `…`; None where `.strip()` raises. */
  function Description(meta: seq<(string, Value)>): Option<string>
  {
    var d := Or(GetOr(meta, "description", Null), Str(""));
    if d.Str? then Some(Ellipsize(Strip(d.s), DescriptionLimit)) else None
  }

  /** A rendered description has at most 181 characters; a longer one is its first 180 and `…`. */
  lemma DescriptionCut(meta: seq<(string, Value)>)
    requires Description(meta).Some?
    ensures |Description(meta).value| <= DescriptionLimit + 1
    ensures var s := Strip(Or(GetOr(meta, "description", Null), Str("")).s);
      if |s| > DescriptionLimit then Description(meta).value == s[..DescriptionLimit] + [Ellipsis]
      else Description(meta).value == s
  {
  }

  /** `title`, or "<property_type> in <location>" when it is missing or empty. */
  function Title(py: Builtins, meta: seq<(string, Value)>): string
  {
    var fallback := ToStr(py, GetOr(meta, "property_type", Str("Property"))) + " in " + ToStr(py, GetOr(meta, "location", Str("?")));
    ToStr(py, Or(GetOr(meta, "title", Null), Str(fallback)))
  }

  /** The line shown for one result. */
  function RenderLine(py: Builtins, meta: seq<(string, Value)>): Option<string>
  {
    match Description(meta)
    case None => None
    case Some(desc) =>
      Some("\U{2022} " + Title(py, meta) + " \U{2014} " + ToStr(py, GetOr(meta, "bedrooms", Null)) + " BR \U{2014} $"
           + ToStr(py, GetOr(meta, "price", Null)) + "\n " + desc)
  }

  /** The line of each result. */
  function LineOf(py: Builtins): seq<(string, Value)> -> Option<string>
  {
    (meta: seq<(string, Value)>) => RenderLine(py, meta)
  }

  /** The render loop of `run`, over the results' metadata dicts; None where a result raises. */
  method RenderLines(py: Builtins, metas: seq<seq<(string, Value)>>) returns (lines: Option<seq<string>>)
    ensures lines == AllSome(LineOf(py), metas)
  {
    var ls: seq<string> := [];
    for i := 0 to |metas|
      invariant AllSome(LineOf(py), metas[..i]) == Some(ls)
    {
      AllSomeStep(LineOf(py), metas, i);
      var line := RenderLine(py, metas[i]);
      if line.None? {
        AllSomeNoneStays(LineOf(py), metas, i + 1);
        return None;
      }
      ls := ls + [line.value];
    }
    assert metas[..|metas|] == metas;
    lines := Some(ls);
  }

  /**
   * Rendering succeeds exactly when every result renders, and then gives one line per
   * result, in order.
   */
  lemma RenderedLines(py: Builtins, metas: seq<seq<(string, Value)>>)
    ensures AllSome(LineOf(py), metas).Some? <==> forall i | 0 <= i < |metas| :: Description(metas[i]).Some?
    ensures AllSome(LineOf(py), metas).Some? ==>
      |AllSome(LineOf(py), metas).value| == |metas| &&
      forall i | 0 <= i < |metas| :: RenderLine(py, metas[i]) == Some(AllSome(LineOf(py), metas).value[i])
  {
    AllSomeValues(LineOf(py), metas);
    assert forall i | 0 <= i < |metas| :: LineOf(py)(metas[i]) == RenderLine(py, metas[i]);
  }
}
