/**
 * The country picker: the country table turned into rows with flags, a
 * case-insensitive name search over them, and select-then-close on a tap.
 */
module CountryPicker {
  import opened JsString
  import opened Seqs

  /** A record of the country table: ISO 3166-1 alpha-2 code, English name, calling code. */
  datatype CountryRecord = CountryRecord(countryCode: string, countryNameEn: string, countryCallingCode: string)

  /** A row of the picker. */
  datatype Country = Country(code: string, name: string, flag: string)

  /** What a tapped row calls on its parent. */
  datatype PickerCall = OnSelect(country: Country) | OnClose

  /** The distance from 'A' (U+0041) to REGIONAL INDICATOR SYMBOL LETTER A (U+1F1E6). */
  const RegionalIndicatorOffset := 127397

  /** The UTF-16 code units of one character, as `split('')` yields them. */
  function Utf16(c: char): (r: seq<int>)
    ensures 1 <= |r| <= 2
    ensures forall k :: 0 <= k < |r| ==> 0 <= r[k] < 0x1_0000
    ensures c as int < 0x1_0000 ==> r == [c as int]
    ensures c as int >= 0x1_0000 ==> |r| == 2 && 0xD800 <= r[0] < 0xDC00 <= r[1] < 0xE000
                                     && (r[0] - 0xD800) * 0x400 + (r[1] - 0xDC00) + 0x1_0000 == c as int
  {
    var v := c as int;
    if v < 0x1_0000 then [v] else [0xD800 + (v - 0x1_0000) / 0x400, 0xDC00 + (v - 0x1_0000) % 0x400]
  }

  /** The UTF-16 code units of a string. */
  function CodeUnits(s: string): (r: seq<int>)
    ensures forall k :: 0 <= k < |r| ==> 0 <= r[k] < 0x1_0000
  {
    if s == [] then [] else Utf16(s[0]) + CodeUnits(s[1..])
  }

  /** A code unit moved into the regional-indicator block. */
  function Shifted(u: int): char
    requires 0 <= u < 0x1_0000
  {
    (RegionalIndicatorOffset + u) as char
  }

  /** `getFlagEmoji`: one code point per code unit of the upper-cased code, each shifted by 127397. */
  function FlagEmoji(code: string): (r: string)
    ensures |r| == |CodeUnits(ToUpperCase(code))|
    ensures forall k :: 0 <= k < |r| ==> r[k] as int == RegionalIndicatorOffset + CodeUnits(ToUpperCase(code))[k]
  {
    var units := CodeUnits(ToUpperCase(code));
    seq(|units|, k requires 0 <= k < |units| => Shifted(units[k]))
  }

  /** An ISO 3166-1 alpha-2 code as the table writes it, in either case. */
  predicate IsAlpha2(code: string) {
    |code| == 2 && forall k :: 0 <= k < 2 ==> ('A' <= code[k] <= 'Z' || 'a' <= code[k] <= 'z')
  }

  /** Codes equal ignoring case get the same flag; `"us"` and `"US"` agree. */
  lemma FlagIgnoresCase(a: string, b: string)
    requires EqualsIgnoreCase(a, b)
    ensures FlagEmoji(a) == FlagEmoji(b)
  {
    EqualsIgnoreCaseSameUpper(a, b);
  }

  /**
   * The flag of a two-letter code is the pair of regional indicator symbols
   * U+1F1E6..U+1F1FF for its letters (section 22.10 of The Unicode Standard).
   */
  lemma Alpha2Flag(code: string)
    requires IsAlpha2(code)
    ensures |FlagEmoji(code)| == 2
    ensures forall k :: 0 <= k < 2 ==>
      FlagEmoji(code)[k] as int == 0x1_F1E6 + (UpperChar(code[k]) as int - 'A' as int)
    ensures forall k :: 0 <= k < 2 ==> '\U{1F1E6}' <= FlagEmoji(code)[k] <= '\U{1F1FF}'
  {
    var up := ToUpperCase(code);
    assert up == [UpperChar(code[0]), UpperChar(code[1])];
    assert up[0] as int < 0x1_0000 && up[1] as int < 0x1_0000;
    assert CodeUnits(up) == [up[0] as int, up[1] as int] by {
      assert up[1..] == [up[1]];
      assert up[1..][1..] == [];
      assert CodeUnits(up[1..]) == Utf16(up[1]) + CodeUnits([]);
      assert CodeUnits(up) == Utf16(up[0]) + CodeUnits(up[1..]);
    }
  }

  /** Two-letter codes with the same flag are the same code up to case. */
  lemma Alpha2FlagInjective(a: string, b: string)
    requires IsAlpha2(a) && IsAlpha2(b)
    requires FlagEmoji(a) == FlagEmoji(b)
    ensures EqualsIgnoreCase(a, b)
  {
    Alpha2Flag(a);
    Alpha2Flag(b);
    assert FlagEmoji(a)[0] == FlagEmoji(b)[0] && FlagEmoji(a)[1] == FlagEmoji(b)[1];
    assert UpperChar(a[0]) == UpperChar(b[0]) && UpperChar(a[1]) == UpperChar(b[1]);
  }

  /** `countryData`: the table in its order, each row flagged by its own code. */
  function CountryData(all: seq<CountryRecord>): (r: seq<Country>)
    ensures |r| == |all|
    ensures forall k :: 0 <= k < |r| ==>
      r[k].code == all[k].countryCode && r[k].name == all[k].countryNameEn && r[k].flag == FlagEmoji(all[k].countryCode)
  {
    if all == [] then []
    else [Country(all[0].countryCode, all[0].countryNameEn, FlagEmoji(all[0].countryCode))] + CountryData(all[1..])
  }

  /** The search test: the lower-cased name contains the lower-cased search text. */
  predicate NameMatches(item: Country, search: string) {
    Includes(ToLowerCase(item.name), ToLowerCase(search))
  }

  /** `countryData.filter(...)` with the search test. */
  function FilterByName(rows: seq<Country>, search: string): (r: seq<Country>)
    ensures |r| <= |rows|
    ensures forall item :: item in r ==> item in rows && NameMatches(item, search)
    ensures forall item :: item in rows && NameMatches(item, search) ==> item in r
  {
    if rows == [] then []
    else if NameMatches(rows[0], search) then [rows[0]] + FilterByName(rows[1..], search)
    else FilterByName(rows[1..], search)
  }

  /**
   * `filteredData`: an empty search shows every row without filtering, any
   * other keeps the matching rows; either way the rows shown are the filter's.
   */
  function FilteredData(search: string, rows: seq<Country>): (r: seq<Country>)
    ensures r == FilterByName(rows, search)
  {
    if search == "" then
      EmptySearchMatchesAll(rows);
      rows
    else FilterByName(rows, search)
  }

  /** The filter keeps the rows it keeps in their original order. */
  lemma {:induction false} FilterKeepsOrder(rows: seq<Country>, search: string)
    ensures IsSubsequence(FilterByName(rows, search), rows)
  {
    if rows != [] {
      FilterKeepsOrder(rows[1..], search);
      var rest := FilterByName(rows[1..], search);
      if NameMatches(rows[0], search) {
        assert ([rows[0]] + rest)[1..] == rest;
      } else if rest != [] {
        assert rest[0] in rows[1..];
        assert rest[0] != rows[0];
      }
    }
  }

  /** The filter drops no matching row: each row is kept as often as it occurs when it matches, and never otherwise. */
  lemma {:induction false} FilterCounts(rows: seq<Country>, search: string, x: Country)
    ensures multiset(FilterByName(rows, search))[x] == if NameMatches(x, search) then multiset(rows)[x] else 0
  {
    if rows != [] {
      FilterCounts(rows[1..], search, x);
      assert rows == [rows[0]] + rows[1..];
      assert multiset(rows) == multiset([rows[0]]) + multiset(rows[1..]);
      if NameMatches(rows[0], search) {
        assert multiset(FilterByName(rows, search)) == multiset([rows[0]]) + multiset(FilterByName(rows[1..], search));
      }
    }
  }

  /** The empty-search shortcut agrees with the filter itself: the empty text is in every name. */
  lemma {:induction false} EmptySearchMatchesAll(rows: seq<Country>)
    ensures FilterByName(rows, "") == rows
  {
    if rows != [] {
      IncludesEmpty(ToLowerCase(rows[0].name));
      assert ToLowerCase("") == "";
      EmptySearchMatchesAll(rows[1..]);
      assert [rows[0]] + rows[1..] == rows;
    }
  }

  /** The search ignores case (on ASCII letters). */
  lemma {:induction false} FilterIgnoresCase(rows: seq<Country>, a: string, b: string)
    requires EqualsIgnoreCase(a, b)
    ensures FilterByName(rows, a) == FilterByName(rows, b)
  {
    if rows != [] {
      FilterIgnoresCase(rows[1..], a, b);
    }
  }

  class Picker {
    /** The country table, as the library lists it. */
    const countries: seq<CountryRecord>
    /** The search field. */
    var search: string

    constructor (table: seq<CountryRecord>)
      ensures countries == table && search == ""
    {
      countries := table;
      search := "";
    }

    /** The rows on screen. */
    function Rows(): (r: seq<Country>)
      reads this
      ensures forall item :: item in r ==> item in CountryData(countries) && NameMatches(item, search)
      ensures forall item :: item in CountryData(countries) && NameMatches(item, search) ==> item in r
      ensures r == FilterByName(CountryData(countries), search)
    {
      FilteredData(search, CountryData(countries))
    }

    /** The user typed in the search field. */
    method SetSearch(text: string)
      modifies this
      ensures search == text
    {
      search := text;
    }

    /** A row was tapped: `onSelect` with that row, then `onClose`. */
    method Tap(k: nat) returns (calls: seq<PickerCall>)
      requires k < |Rows()|
      ensures calls == [OnSelect(Rows()[k]), OnClose]
      ensures Rows()[k] in CountryData(countries)
    {
      calls := [OnSelect(Rows()[k]), OnClose];
    }
  }
}
