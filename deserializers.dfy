/**
 * The tolerant Gson deserializers used for override files: booleans, integers
 * and doubles that accept several spellings and fold "unknown" to absence, and
 * the case-insensitive item-kind lookup that defaults to `ITEM`.  All four are
 * total: every exception inside them is caught.
 */
module Deserializers {
  import opened Wrappers
  import opened KotlinText
  import opened Json
  import opened Models

  /** The string spellings `FlexibleBooleanDeserializer` reads as true, after lower-casing. */
  const TrueSpellings: set<string> := {"true", "yes", "1"}
  /** The string spellings it reads as false, after lower-casing. */
  const FalseSpellings: set<string> := {"false", "no", "0"}

  /** `FlexibleBooleanDeserializer.deserialize`. */
  function DeserializeBoolean(j: Json): (r: Option<bool>)
    ensures r == Some(true) <==> j == JBool(true) || (j.JString? && Lower(j.s) in TrueSpellings)
    ensures r == Some(false) <==> j == JBool(false) || (j.JString? && Lower(j.s) in FalseSpellings)
  {
    match j
    case JBool(b) => Some(b)
    case JString(s) =>
      var str := Lower(s);
      if str in TrueSpellings then Some(true)
      else if str in FalseSpellings then Some(false)
      else None      // "unknown", "" and every other spelling
    case _ => None   // JSON null, numbers, arrays, objects
  }

  /** The tolerant string spellings that mean "no value": "unknown" in any case, and "". */
  predicate IsUnknown(s: string) {
    Lower(s) == "unknown" || s == ""
  }

  /** `FlexibleIntDeserializer.deserialize`. */
  function DeserializeInt(j: Json): (r: Option<int>)
    ensures r.Some? ==> IsInt32(r.value)
    ensures j.JNumber? ==> r == Some(Wrap32(j.n.truncated))
    ensures j.JString? ==> r == if IsUnknown(j.s) then None else ParseInt(j.s)
    ensures !j.JNumber? && !j.JString? ==> r.None?
  {
    match j
    case JNumber(n) => AsInt(j)
    case JString(s) => if IsUnknown(s) then None else ParseInt(s)
    case _ => None
  }

  /**
   * `FlexibleDoubleDeserializer.deserialize`, with the JVM's decimal parser
   * (`Double.parseDouble` behind `getAsDouble`, and `String.toDoubleOrNull`,
   * which is absent where that parser throws) given as `parseDouble`.
   */
  function DeserializeDouble(j: Json, parseDouble: string -> Option<Double>): (r: Option<Double>)
    ensures j.JNumber? ==> r == parseDouble(j.n.text)
    ensures j.JString? ==> r == if IsUnknown(j.s) then None else parseDouble(j.s)
    ensures !j.JNumber? && !j.JString? ==> r.None?
  {
    match j
    case JNumber(n) => AsDouble(j, parseDouble)
    case JString(s) => if IsUnknown(s) then None else parseDouble(s)
    case _ => None
  }

  /**
   * `ItemDetailTypeDeserializer.deserialize`: `valueOf(json.asString.uppercase())`,
   * and `ITEM` when either step throws.
   */
  function DeserializeItemDetailType(j: Json): (t: ItemDetailType)
    ensures t != ITEM ==> AsString(j).Some? && Upper(AsString(j).value) == Name(t)
    ensures forall c :: AsString(j).Some? && Upper(AsString(j).value) == Name(c) ==> t == c
  {
    NamesResolve();
    match AsString(j)
    case None => ITEM
    case Some(s) => ValueOf(Upper(s)).GetOr(ITEM)
  }

  // ---------------------------------------------------------------------------
  // Properties
  // ---------------------------------------------------------------------------

  /** Native booleans are returned unchanged, and every spelling the tests use reads as intended. */
  lemma BooleanSpellings()
    ensures DeserializeBoolean(JBool(true)) == Some(true) && DeserializeBoolean(JBool(false)) == Some(false)
    ensures DeserializeBoolean(JString("true")) == Some(true)
    ensures DeserializeBoolean(JString("Yes")) == Some(true)
    ensures DeserializeBoolean(JString("1")) == Some(true)
    ensures DeserializeBoolean(JString("FALSE")) == Some(false)
    ensures DeserializeBoolean(JString("no")) == Some(false)
    ensures DeserializeBoolean(JString("0")) == Some(false)
    ensures DeserializeBoolean(JString("Unknown")).None?
    ensures DeserializeBoolean(JString("")).None?
    ensures DeserializeBoolean(JString("maybe")).None?
    ensures DeserializeBoolean(JNull).None?
  {
    assert Lower("Yes") == "yes";
    assert Lower("FALSE") == "false";
    assert Lower("Unknown") == "unknown";
    assert Lower("maybe") == "maybe";
    assert Lower("true") == "true" && Lower("1") == "1";
    assert Lower("no") == "no" && Lower("0") == "0";
  }

  /** Numbers, even 1 and 0, are not booleans to this deserializer. */
  lemma BooleanIgnoresNumbers(n: Number)
    ensures DeserializeBoolean(JNumber(n)).None?
  {
  }

  /** The boolean reading of a string does not depend on its letter case. */
  lemma BooleanCaseInsensitive(s: string)
    ensures DeserializeBoolean(JString(s)) == DeserializeBoolean(JString(Lower(s)))
    ensures DeserializeBoolean(JString(s)) == DeserializeBoolean(JString(Upper(s)))
  {
    assert Lower(Lower(s)) == Lower(s);
    assert Lower(Upper(s)) == Lower(s);
  }

  /** Strings printed by `Int.toString` read back as the same integer. */
  lemma IntRoundTrip(i: int)
    requires IsInt32(i)
    ensures DeserializeInt(JString(IntToString(i))) == Some(i)
  {
    ParseIntToString(i);
    var s := IntToString(i);
    assert s[0] == '-' || IsDigit(s[0]);
    assert Lower(s)[0] != 'u';
  }

  /** "unknown" in any case and "" are absent; "42" is 42; "not_a_number" is absent. */
  lemma IntSpellings()
    ensures DeserializeInt(JString("unknown")).None? && DeserializeInt(JString("UNKNOWN")).None?
    ensures DeserializeInt(JString("")).None? && DeserializeInt(JNull).None?
    ensures DeserializeInt(JString("42")) == Some(42)
    ensures DeserializeInt(JString("not_a_number")).None?
  {
    assert Lower("UNKNOWN") == "unknown";
    assert DecimalValue("42"[..1]) == 4;
    assert !AllDigits("not_a_number") by { assert !IsDigit("not_a_number"[0]); }
  }

  /** Every constant's own name, upper or lower case, deserializes to that constant. */
  lemma ItemDetailTypeRoundTrip(t: ItemDetailType)
    ensures DeserializeItemDetailType(JString(Name(t))) == t
    ensures DeserializeItemDetailType(JString(Lower(Name(t)))) == t
  {
    NameShape(t);
    UpperOfLower(Name(t));
    ValueOfName(t);
  }

  /** "WEAPON" and "ammo" from the tests; an unrecognised string gives ITEM. */
  lemma ItemDetailTypeExamples()
    ensures DeserializeItemDetailType(JString("WEAPON")) == WEAPON
    ensures DeserializeItemDetailType(JString("ammo")) == AMMO
    ensures DeserializeItemDetailType(JString("Weapon")) == WEAPON
    ensures DeserializeItemDetailType(JString("invalid_type")) == ITEM
  {
    assert Upper("ammo") == "AMMO";
    assert Upper("invalid_type") == "INVALID_TYPE";
  }

  /** No constant's name starts with a digit, a sign, a dot or `E`. */
  lemma ValueOfNumberText(s: string)
    requires s != "" && (IsDigit(s[0]) || s[0] in "+-.E")
    ensures ValueOf(s).None?
  {
    if ValueOf(s).Some? {
      NameShape(ValueOf(s).value);
      assert false;
    }
  }

  /** Non-string JSON gives ITEM: null, booleans, objects, arrays of other than one element, and numbers. */
  lemma ItemDetailTypeNonString(j: Json)
    requires j.JNull? || j.JBool? || j.JObject? || (j.JArray? && |j.items| != 1)
             || (j.JNumber? && IsNumberText(j.n.text))
    ensures DeserializeItemDetailType(j) == ITEM
  {
    if j.JBool? {
      assert Upper("true") == "TRUE";
      assert Upper("false") == "FALSE";
    } else if j.JNumber? {
      var c := j.n.text[0];
      assert c in "0123456789+-.eE";
      assert IsDigit(UpperChar(c)) || UpperChar(c) in "+-.E";
      ValueOfNumberText(Upper(j.n.text));
    }
  }
}
