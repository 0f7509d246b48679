/**
 * The phone-number field: a country button (flag and calling code), a text
 * input that passes on digits only, and the `+<calling code><number>` text it
 * pushes to its parent. Phone-number validity is the library's verdict,
 * passed in as a predicate.
 */
module PhoneInput {
  import opened Options
  import opened JsString
  import opened Seqs
  import opened CountryPicker

  /** The index of the first record whose code equals `code` ignoring case, or `|all|` when there is none. */
  function FirstCodeMatch(all: seq<CountryRecord>, code: string): (i: nat)
    ensures i <= |all|
    ensures forall j :: 0 <= j < i ==> !EqualsIgnoreCase(all[j].countryCode, code)
    ensures i < |all| ==> EqualsIgnoreCase(all[i].countryCode, code)
  {
    if all == [] then 0
    else if EqualsIgnoreCase(all[0].countryCode, code) then 0
    else 1 + FirstCodeMatch(all[1..], code)
  }

  /** `findCountryByCode`: the first record whose code equals `code` ignoring case, if any. */
  function FindCountryByCode(all: seq<CountryRecord>, code: string): (r: Option<CountryRecord>)
    ensures r.None? <==> forall j :: 0 <= j < |all| ==> !EqualsIgnoreCase(all[j].countryCode, code)
    ensures r.Some? ==> r.value == all[FirstCodeMatch(all, code)]
  {
    var i := FirstCodeMatch(all, code);
    if i < |all| then Some(all[i]) else None
  }

  /** Looking a code up is blind to its case. */
  lemma {:induction false} FindIgnoresCase(all: seq<CountryRecord>, a: string, b: string)
    requires EqualsIgnoreCase(a, b)
    ensures FindCountryByCode(all, a) == FindCountryByCode(all, b)
  {
    FirstMatchIgnoresCase(all, a, b);
  }

  lemma {:induction false} FirstMatchIgnoresCase(all: seq<CountryRecord>, a: string, b: string)
    requires EqualsIgnoreCase(a, b)
    ensures FirstCodeMatch(all, a) == FirstCodeMatch(all, b)
  {
    if all != [] {
      FirstMatchIgnoresCase(all[1..], a, b);
    }
  }

  /** Selecting a row of the picker always finds a record, one whose code is the row's up to case. */
  lemma SelectedRowIsFound(all: seq<CountryRecord>, k: nat)
    requires k < |all|
    ensures FindCountryByCode(all, CountryData(all)[k].code).Some?
    ensures EqualsIgnoreCase(FindCountryByCode(all, CountryData(all)[k].code).value.countryCode, all[k].countryCode)
  {
    assert EqualsIgnoreCase(all[k].countryCode, CountryData(all)[k].code);
  }

  predicate IsDigit(c: char) {
    '0' <= c <= '9'
  }

  /** `text.replace(/[^0-9]/g, '')`. */
  function DigitsOnly(text: string): (r: string)
    ensures |r| <= |text|
    ensures forall k :: 0 <= k < |r| ==> IsDigit(r[k])
  {
    if text == [] then []
    else if IsDigit(text[0]) then [text[0]] + DigitsOnly(text[1..])
    else DigitsOnly(text[1..])
  }

  /** The digits come out in the order they went in, nothing added. */
  lemma {:induction false} DigitsOnlyKeepsOrder(text: string)
    ensures IsSubsequence(DigitsOnly(text), text)
  {
    if text != [] {
      DigitsOnlyKeepsOrder(text[1..]);
      var rest := DigitsOnly(text[1..]);
      if IsDigit(text[0]) {
        assert ([text[0]] + rest)[1..] == rest;
      } else if rest != [] {
        assert rest[0] != text[0];
      }
    }
  }

  /** Text of digits only passes through unchanged. */
  lemma {:induction false} DigitsOnlyKeepsDigits(text: string)
    requires forall k :: 0 <= k < |text| ==> IsDigit(text[k])
    ensures DigitsOnly(text) == text
  {
    if text != [] {
      DigitsOnlyKeepsDigits(text[1..]);
      assert [text[0]] + text[1..] == text;
    }
  }

  /** Filtering twice is filtering once. */
  lemma DigitsOnlyIdempotent(text: string)
    ensures DigitsOnly(DigitsOnly(text)) == DigitsOnly(text)
  {
    DigitsOnlyKeepsDigits(DigitsOnly(text));
  }

  /** Every digit of the input survives, as often as it occurs; no other character does. */
  lemma {:induction false} DigitsOnlyCounts(text: string, c: char)
    ensures multiset(DigitsOnly(text))[c] == if IsDigit(c) then multiset(text)[c] else 0
  {
    if text != [] {
      DigitsOnlyCounts(text[1..], c);
      assert text == [text[0]] + text[1..];
      assert multiset(text) == multiset([text[0]]) + multiset(text[1..]);
      if IsDigit(text[0]) {
        assert multiset(DigitsOnly(text)) == multiset([text[0]]) + multiset(DigitsOnly(text[1..]));
      }
    }
  }

  /** The text the field pushes to `onChangeFormattedText` while a country is selected. */
  function FormattedNumber(country: CountryRecord, value: string): (r: string)
    ensures |r| == 1 + |country.countryCallingCode| + |value|
    ensures r[0] == '+' && r[1..1 + |country.countryCallingCode|] == country.countryCallingCode
    ensures r[1 + |country.countryCallingCode|..] == value
  {
    "+" + country.countryCallingCode + value
  }

  class PhoneField {
    /** The country table, as the library lists it. */
    const countries: seq<CountryRecord>
    /** The `value` prop: the digits the parent keeps. */
    var value: string
    var selectedCountry: Option<CountryRecord>
    var modalVisible: bool

    /** Mounted with the United States selected. */
    constructor (table: seq<CountryRecord>, initialValue: string)
      ensures countries == table && value == initialValue
      ensures selectedCountry == FindCountryByCode(table, "US") && !modalVisible
    {
      countries := table;
      value := initialValue;
      selectedCountry := FindCountryByCode(table, "US");
      modalVisible := false;
    }

    /** The text input changed: exactly its digits, all of them and in order, reach `onChangeText`. */
    method HandleTextChange(text: string) returns (emitted: string)
      ensures emitted == DigitsOnly(text)
      ensures forall k :: 0 <= k < |emitted| ==> IsDigit(emitted[k])
      ensures IsSubsequence(emitted, text)
      ensures (forall k :: 0 <= k < |text| ==> IsDigit(text[k])) ==> emitted == text
    {
      emitted := DigitsOnly(text);
      DigitsOnlyKeepsOrder(text);
      if forall k :: 0 <= k < |text| ==> IsDigit(text[k]) {
        DigitsOnlyKeepsDigits(text);
      }
    }

    /** The parent passed a new `value`. */
    method SetValue(v: string)
      modifies this`value
      ensures value == v
    {
      value := v;
    }

    /** What the formatting effect pushes: `+<calling code><value>` with a country selected, nothing without. */
    function FormattedText(): (r: Option<string>)
      reads this
      ensures r.Some? <==> selectedCountry.Some?
      ensures r.Some? ==> r.value == FormattedNumber(selectedCountry.value, value)
    {
      if selectedCountry.Some? then Some(FormattedNumber(selectedCountry.value, value)) else None
    }

    /** `isValid`: false with no country selected, otherwise the library's verdict for the value and the country code. */
    function IsValid(isValidPhoneNumber: (string, string) -> bool): (r: bool)
      reads this
      ensures selectedCountry.None? ==> !r
      ensures selectedCountry.Some? ==> r == isValidPhoneNumber(value, selectedCountry.value.countryCode)
    {
      selectedCountry.Some? && isValidPhoneNumber(value, selectedCountry.value.countryCode)
    }

    /** The country button's flag: the selected country's, or a white flag with none selected. */
    function ButtonFlag(): (r: string)
      reads this
      ensures selectedCountry.Some? ==> r == FlagEmoji(selectedCountry.value.countryCode)
      ensures selectedCountry.None? ==> r == "\U{1F3F3}\U{FE0F}"
    {
      if selectedCountry.Some? then FlagEmoji(selectedCountry.value.countryCode) else "\U{1F3F3}\U{FE0F}"
    }

    /** The country button's dial code: `+<calling code>`, or "+1" with none selected. */
    function ButtonDialCode(): (r: string)
      reads this
      ensures |r| >= 1 && r[0] == '+'
      ensures selectedCountry.Some? ==> r[1..] == selectedCountry.value.countryCallingCode
      ensures selectedCountry.None? ==> r == "+1"
      ensures FormattedText().Some? ==> FormattedText().value == r + value
    {
      if selectedCountry.Some? then "+" + selectedCountry.value.countryCallingCode else "+1"
    }

    /** The country button opens the picker. */
    method OpenPicker()
      modifies this`modalVisible
      ensures modalVisible
    {
      modalVisible := true;
    }

    /** The picker's own close. */
    method ClosePicker()
      modifies this`modalVisible
      ensures !modalVisible
    {
      modalVisible := false;
    }

    /** A country was picked: look its code up again in the table, and close the picker. */
    method SelectCountry(country: Country)
      modifies this`selectedCountry, this`modalVisible
      ensures selectedCountry == FindCountryByCode(countries, country.code) && !modalVisible
    {
      selectedCountry := FindCountryByCode(countries, country.code);
      modalVisible := false;
    }
  }
}
