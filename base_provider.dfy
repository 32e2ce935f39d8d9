/** `Trackdown::Providers::BaseProvider`: the provider interface and the helpers every provider shares. */
module BaseProvider {
  import opened Wrappers
  import opened Text
  import opened Errors
  import opened LocationResults

  const REGIONAL_INDICATOR_A: int := 0x1F1E6

  predicate IsRegionalIndicator(c: char) {
    REGIONAL_INDICATOR_A <= c as int < REGIONAL_INDICATOR_A + 26
  }

  /** The character `tr('A-Z', "\u{1F1E6}-\u{1F1FF}")` puts in place of `c`. */
  function FlagChar(c: char): char {
    if IsUpperAscii(c) then (REGIONAL_INDICATOR_A + (c as int - 'A' as int)) as char else c
  }

  /** The character a flag character stands for: the inverse of `FlagChar`. */
  function CodeChar(c: char): char {
    if IsRegionalIndicator(c) then ('A' as int + (c as int - REGIONAL_INDICATOR_A)) as char else c
  }

  /**
   * `get_emoji_flag`: each capital ASCII letter of the code becomes the
   * matching regional-indicator symbol and the rest is kept; no code at all
   * gives the white flag.
   */
  function EmojiFlag(code: Option<string>): (r: string)
    ensures code.None? ==> r == WHITE_FLAG
    ensures code.Some? ==> |r| == |code.value|
    ensures code.Some? ==> forall i :: 0 <= i < |r| ==> (IsRegionalIndicator(r[i]) <==> IsUpperAscii(code.value[i]) || IsRegionalIndicator(code.value[i]))
    ensures code.Some? ==> forall i :: 0 <= i < |r| && !IsUpperAscii(code.value[i]) ==> r[i] == code.value[i]
    ensures code.Some? ==> forall i :: 0 <= i < |r| && IsUpperAscii(code.value[i]) ==>
                                 r[i] as int == REGIONAL_INDICATOR_A + (code.value[i] as int - 'A' as int)
  {
    match code
    case None => WHITE_FLAG
    case Some(c) => seq(|c|, i requires 0 <= i < |c| => FlagChar(c[i]))
  }

  /** Reading a flag back gives the code, for any code that holds no regional-indicator symbol itself. */
  lemma FlagRoundTrip(code: string)
    requires forall i :: 0 <= i < |code| ==> !IsRegionalIndicator(code[i])
    ensures |EmojiFlag(Some(code))| == |code|
    ensures forall i :: 0 <= i < |code| ==> CodeChar(EmojiFlag(Some(code))[i]) == code[i]
  {
  }

  /** Different ASCII codes get different flags. */
  lemma FlagInjective(c1: string, c2: string)
    requires forall i :: 0 <= i < |c1| ==> !IsRegionalIndicator(c1[i])
    requires forall i :: 0 <= i < |c2| ==> !IsRegionalIndicator(c2[i])
    requires EmojiFlag(Some(c1)) == EmojiFlag(Some(c2))
    ensures c1 == c2
  {
    FlagRoundTrip(c1);
    FlagRoundTrip(c2);
    assert forall i :: 0 <= i < |c1| ==> c1[i] == CodeChar(EmojiFlag(Some(c1))[i]) == c2[i];
  }

  /** A two-letter upper-case code never gets the white flag: that is kept for "no code". */
  lemma CountryFlagIsNotWhiteFlag(code: string)
    requires |code| == 2 && IsUpperAscii(code[0]) && IsUpperAscii(code[1])
    ensures EmojiFlag(Some(code)) != WHITE_FLAG
  {
    assert IsRegionalIndicator(EmojiFlag(Some(code))[0]);
  }

  /** "US" becomes 🇺🇸 (regional indicators U and S). */
  lemma UsFlag()
    ensures EmojiFlag(Some("US")) == ['\U{1F1FA}', '\U{1F1F8}']
  {
  }

  /**
   * `get_country_name`: `"Unknown"` without a code; otherwise the name the
   * `countries` gem gives (`lookup`), or `"Unknown"` when it gives none or raises.
   */
  function CountryName(lookup: string -> Option<string>, code: Option<string>): (r: string)
    ensures code.None? ==> r == "Unknown"
    ensures code.Some? ==> r == lookup(code.value).GetOr("Unknown")
  {
    if code.None? then "Unknown" else lookup(code.value).GetOr("Unknown")
  }

  /** `BaseProvider.available?`: always raises `NotImplementedError`, naming the class. */
  function AbstractAvailable(className: string): (r: Result<bool, Error>)
    ensures r.Err? && r.error.kind == NotImplemented && !IsStandardError(r.error.kind)
    ensures r.error.message == className + " must implement .available?"
  {
    Err(Error(NotImplemented, className + " must implement .available?"))
  }

  /** `BaseProvider.locate`: always raises `NotImplementedError`, naming the class. */
  function AbstractLocate(className: string, ip: Option<string>): (r: Result<LocationResult, Error>)
    ensures r.Err? && r.error.kind == NotImplemented && !IsStandardError(r.error.kind)
    ensures r.error.message == className + " must implement .locate"
  {
    Err(Error(NotImplemented, className + " must implement .locate"))
  }
}
