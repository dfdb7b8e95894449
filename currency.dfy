/**
 * Currency display helpers (src/utils/formatCurrency.js): the currency-code to
 * locale table with its fallback, and the symbol obtained by formatting zero and
 * stripping digits, separators and white space.
 *
 * `Intl.NumberFormat` is not modelled: the formatter is a parameter, a function
 * of (locale, currency code, minimum fraction digits, amount).
 */
module Currency {

  /** A currency formatter in a locale: locale, currency code, minimum fraction digits and amount to the formatted text. */
  type NumberFormat = (string, string, nat, real) -> string

  /** `localeMap` (formatCurrency.js:2-8). */
  const LocaleMap: map<string, string> :=
    map["USD" := "en-US", "EUR" := "en-DE", "GBP" := "en-GB", "KES" := "en-KE", "CHF" := "de-CH"]

  /** The locale for a currency code (line 10): its table entry, or en-US when there is none. */
  function Locale(currencyCode: string): string
  {
    if currencyCode in LocaleMap && LocaleMap[currencyCode] != "" then LocaleMap[currencyCode] else "en-US"
  }

  /** `formatCurrency` (lines 1-16), with the defaults `currencyCode = 'USD'` and `minimumFractionDigits = 2`. */
  function FormatCurrency(format: NumberFormat, amount: real, currencyCode: string := "USD", minimumFractionDigits: nat := 2): string
  {
    format(Locale(currencyCode), currencyCode, minimumFractionDigits, amount)
  }

  /** The five table entries. */
  lemma LocaleTable()
    ensures Locale("USD") == "en-US" && Locale("EUR") == "en-DE" && Locale("GBP") == "en-GB"
    ensures Locale("KES") == "en-KE" && Locale("CHF") == "de-CH"
  {
  }

  /** Any other code is formatted in the en-US locale, and the code itself still goes to the formatter. */
  lemma UnknownCodeFallsBack(format: NumberFormat, amount: real, currencyCode: string, minimumFractionDigits: nat)
    requires currencyCode !in {"USD", "EUR", "GBP", "KES", "CHF"}
    ensures FormatCurrency(format, amount, currencyCode, minimumFractionDigits) == format("en-US", currencyCode, minimumFractionDigits, amount)
  {
  }

  /** Without arguments beyond the amount, US dollars with two fraction digits in the en-US locale. */
  lemma FormatDefaults(format: NumberFormat, amount: real)
    ensures FormatCurrency(format, amount) == format("en-US", "USD", 2, amount)
  {
  }

  /** A character matched by `\s` in an ECMAScript regular expression: white space and line terminators. */
  predicate IsJsWhitespace(c: char)
  {
    || c == '\t' || c == '\n' || c == '\U{000B}' || c == '\U{000C}' || c == '\r' || c == ' '
    || c == '\U{00A0}' || c == '\U{1680}' || ('\U{2000}' <= c <= '\U{200A}')
    || c == '\U{2028}' || c == '\U{2029}' || c == '\U{202F}' || c == '\U{205F}'
    || c == '\U{3000}' || c == '\U{FEFF}'
  }

  /** A character of the class `[\d.,\s]` (line 19); `\d` is ASCII 0-9 only. */
  predicate IsStripped(c: char)
  {
    ('0' <= c <= '9') || c == '.' || c == ',' || IsJsWhitespace(c)
  }

  /** `s` with every digit, period, comma and white-space character removed (line 19). */
  function StripSymbol(s: string): (r: string)
    ensures |r| <= |s|
    ensures forall i :: 0 <= i < |r| ==> !IsStripped(r[i])
  {
    if s == [] then [] else (if IsStripped(s[0]) then [] else [s[0]]) + StripSymbol(s[1..])
  }

  /** `getCurrencySymbol` (lines 18-20): zero formatted in the currency, stripped. */
  function GetCurrencySymbol(format: NumberFormat, currencyCode: string): (symbol: string)
    ensures forall i :: 0 <= i < |symbol| ==> !IsStripped(symbol[i])
    ensures |symbol| <= |FormatCurrency(format, 0.0, currencyCode)|
  {
    StripSymbol(FormatCurrency(format, 0.0, currencyCode))
  }

  /** Stripping works character by character, keeping the order of what it keeps. */
  lemma {:induction false} StripConcat(a: string, b: string)
    ensures StripSymbol(a + b) == StripSymbol(a) + StripSymbol(b)
  {
    if a == [] {
      assert a + b == b;
    } else {
      assert (a + b)[1..] == a[1..] + b;
      StripConcat(a[1..], b);
    }
  }

  /** A string holding none of the stripped characters comes through unchanged. */
  lemma {:induction false} StripKeepsClean(s: string)
    requires forall i :: 0 <= i < |s| ==> !IsStripped(s[i])
    ensures StripSymbol(s) == s
  {
    if s != [] {
      StripKeepsClean(s[1..]);
    }
  }

  /** Stripping twice is stripping once. */
  lemma StripIdempotent(s: string)
    ensures StripSymbol(StripSymbol(s)) == StripSymbol(s)
  {
    StripKeepsClean(StripSymbol(s));
  }

  /** Exactly the stripped characters are removed: every other character keeps its number of occurrences. */
  lemma {:induction false} StripCounts(s: string, c: char)
    ensures multiset(StripSymbol(s))[c] == if IsStripped(c) then 0 else multiset(s)[c]
  {
    if s != [] {
      StripCounts(s[1..], c);
      assert s == [s[0]] + s[1..];
      assert multiset(s) == multiset([s[0]]) + multiset(s[1..]);
    }
  }
}
