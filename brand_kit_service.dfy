/**
 * Colour and list normalisation for brand kits, and the checks and palette
 * merge of buildBrandKitPayload (src/services/brandKitService.ts).
 *
 * The CSS named-colour table of the `color-name` package is a parameter.
 * Palette extraction from an uploaded image, the upload handling, the user
 * upsert and the database insert are outside the model: their results are
 * parameters.
 */
module BrandKitService {
  import opened Wrappers
  import opened Text
  import opened Seqs
  import opened ScorecardTypes

  type Channel = c: int | 0 <= c < 256
  type Rgb = (Channel, Channel, Channel)
  /** Lower-case colour names to their red, green and blue channels. */
  type ColorTable = map<string, Rgb>

  // ---------------------------------------------------------------------
  // Hex colours

  /** The digits of a colour written with or without a leading '#'. */
  function HexBody(s: string): string {
    if |s| > 0 && s[0] == '#' then s[1..] else s
  }

  /** isHexColor: an optional '#' followed by 3 to 8 hexadecimal digits of either case. */
  predicate IsHexColor(s: string) {
    var digits := HexBody(s);
    3 <= |digits| <= 8 && forall i :: 0 <= i < |digits| ==> IsHexDigit(digits[i])
  }

  function HexDigitChar(d: nat): (ch: char)
    requires d < 16
    ensures IsHexDigit(ch)
  {
    if d < 10 then DigitChar(d) else ('a' as int + d - 10) as char
  }

  function HexDigitValue(ch: char): nat
    requires IsHexDigit(ch)
  {
    if IsDigit(ch) then DigitValue(ch)
    else if 'a' <= ch <= 'f' then ch as int - 'a' as int + 10
    else ch as int - 'A' as int + 10
  }

  /** `channel.toString(16)`: lower-case hexadecimal without leading zeros. */
  function ChannelToHex(c: Channel): (r: string)
    ensures 1 <= |r| <= 2
  {
    if c < 16 then [HexDigitChar(c)] else [HexDigitChar(c / 16), HexDigitChar(c % 16)]
  }

  /** `s.padStart(2, '0')`. */
  function PadStart2(s: string): string {
    if |s| < 2 then seq(2 - |s|, _ => '0') + s else s
  }

  /** '#' followed by hexadecimal digits of either case. */
  predicate IsHashedHex(h: string) {
    |h| >= 1 && h[0] == '#' && forall i :: 1 <= i < |h| ==> IsHexDigit(h[i])
  }

  /** A colour as the normaliser writes it: '#' and upper-case hexadecimal digits. */
  predicate IsNormalHex(h: string) {
    |h| >= 1 && h[0] == '#' && forall i :: 1 <= i < |h| ==> IsUpperHexDigit(h[i])
  }

  lemma UpperHashedHex(h: string)
    requires IsHashedHex(h)
    ensures IsNormalHex(ToUpper(h)) && |ToUpper(h)| == |h|
  {
    var u := ToUpper(h);
    forall i | 1 <= i < |h| ensures IsUpperHexDigit(u[i]) {
      assert u[i] == UpperChar(h[i]);
    }
  }

  function PaddedChannel(c: Channel): (r: string)
    ensures |r| == 2 && IsHexDigit(r[0]) && IsHexDigit(r[1])
  {
    PadStart2(ChannelToHex(c))
  }

  /** The `#RRGGBB` form of a named colour. */
  function RgbHex(rgb: Rgb): (r: string)
    ensures |r| == 7 && IsNormalHex(r)
  {
    var h := "#" + PaddedChannel(rgb.0) + PaddedChannel(rgb.1) + PaddedChannel(rgb.2);
    assert h == ['#', h[1], h[2], h[3], h[4], h[5], h[6]];
    UpperHashedHex(h);
    ToUpper(h)
  }

  /** The hexadecimal path of normalizeHex: add a missing '#', expand the 3-digit shorthand,
      keep at most 6 digits, upper-case. */
  function HexPath(trimmed: string): (r: string)
    requires IsHexColor(trimmed)
    ensures IsNormalHex(r) && 5 <= |r| <= 7
  {
    var hex := if |trimmed| > 0 && trimmed[0] == '#' then trimmed else "#" + trimmed;
    assert hex[1..] == HexBody(trimmed);
    assert IsHashedHex(hex) by {
      forall i | 1 <= i < |hex| ensures IsHexDigit(hex[i]) {
        assert hex[i] == hex[1..][i - 1];
      }
    }
    var picked := if |hex| == 4 then ['#', hex[1], hex[1], hex[2], hex[2], hex[3], hex[3]]
      else if |hex| <= 7 then hex else hex[..7];
    UpperHashedHex(picked);
    ToUpper(picked)
  }

  /** normalizeHex, with the named-colour lookup restricted to the table's own names. */
  function NormalizeHex(table: ColorTable, value: string): (r: Option<string>)
    ensures r.Some? ==> IsNormalHex(r.value) && 5 <= |r.value| <= 7
    ensures r.None? <==> !IsHexColor(Trim(value)) && ToLower(Trim(value)) !in table
  {
    var trimmed := Trim(value);
    if IsHexColor(trimmed) then Some(HexPath(trimmed))
    else
      var key := ToLower(trimmed);
      if key in table then Some(RgbHex(table[key])) else None
  }

  /** The two hexadecimal digits written for a named colour's channel read back as that channel. */
  lemma ChannelRoundTrip(c: Channel)
    ensures var h := ToUpper(PadStart2(ChannelToHex(c)));
      |h| == 2 && IsUpperHexDigit(h[0]) && IsUpperHexDigit(h[1])
      && HexDigitValue(h[0]) * 16 + HexDigitValue(h[1]) == c
  {
    var h := ToUpper(PadStart2(ChannelToHex(c)));
    if c < 16 {
      assert PadStart2(ChannelToHex(c)) == ['0', HexDigitChar(c)];
    } else {
      assert PadStart2(ChannelToHex(c)) == [HexDigitChar(c / 16), HexDigitChar(c % 16)];
    }
  }

  /** The digit pairs of `#RRGGBB` read back as the three channels. */
  lemma RgbHexChannels(rgb: Rgb)
    ensures var h := RgbHex(rgb);
      && HexDigitValue(h[1]) * 16 + HexDigitValue(h[2]) == rgb.0
      && HexDigitValue(h[3]) * 16 + HexDigitValue(h[4]) == rgb.1
      && HexDigitValue(h[5]) * 16 + HexDigitValue(h[6]) == rgb.2
  {
    var r, g, b := PaddedChannel(rgb.0), PaddedChannel(rgb.1), PaddedChannel(rgb.2);
    ChannelRoundTrip(rgb.0);
    ChannelRoundTrip(rgb.1);
    ChannelRoundTrip(rgb.2);
    assert "#" + r + g + b == ['#', r[0], r[1], g[0], g[1], b[0], b[1]];
  }

  /** A named colour becomes `#RRGGBB` whose three digit pairs read back as its channels. */
  lemma NamedColorEncodesChannels(table: ColorTable, value: string)
    requires !IsHexColor(Trim(value)) && ToLower(Trim(value)) in table
    ensures var rgb := table[ToLower(Trim(value))];
      var h := NormalizeHex(table, value).value;
      && |h| == 7 && IsNormalHex(h)
      && HexDigitValue(h[1]) * 16 + HexDigitValue(h[2]) == rgb.0
      && HexDigitValue(h[3]) * 16 + HexDigitValue(h[4]) == rgb.1
      && HexDigitValue(h[5]) * 16 + HexDigitValue(h[6]) == rgb.2
  {
    var rgb := table[ToLower(Trim(value))];
    assert NormalizeHex(table, value) == Some(RgbHex(rgb));
    RgbHexChannels(rgb);
  }

  /** Surrounding whitespace never matters: the value is trimmed before it is looked at. */
  lemma NormalizeTrimsFirst(table: ColorTable, value: string)
    ensures NormalizeHex(table, value) == NormalizeHex(table, Trim(value))
  {
    TrimIdentity(Trim(value));
  }

  /** A trimmed hexadecimal colour takes the hexadecimal path. */
  lemma HexColorTakesHexPath(table: ColorTable, s: string)
    requires IsTrimmed(s) && IsHexColor(s)
    ensures NormalizeHex(table, s) == Some(HexPath(s))
  {
    TrimIdentity(s);
  }

  /** A missing '#' is added before the digits are looked at. */
  lemma HexPathAddsHash(s: string)
    requires IsHexColor(s) && |s| > 0 && s[0] != '#'
    ensures IsHexColor("#" + s) && HexPath(s) == HexPath("#" + s)
  {
    assert HexBody("#" + s) == s;
  }

  /** The digits of a 3-digit shorthand, each written twice and upper-cased. */
  function Doubled(d: string): string
    requires |d| == 3
  {
    ['#', UpperChar(d[0]), UpperChar(d[0]), UpperChar(d[1]), UpperChar(d[1]), UpperChar(d[2]), UpperChar(d[2])]
  }

  lemma HexPathShorthand(d: string)
    requires |d| == 3 && forall i :: 0 <= i < 3 ==> IsHexDigit(d[i])
    ensures IsHexColor("#" + d) && HexPath("#" + d) == Doubled(d)
  {
    var hashed := "#" + d;
    assert HexBody(hashed) == d;
    var doubled := ['#', d[0], d[0], d[1], d[1], d[2], d[2]];
    assert HexPath(hashed) == ToUpper(doubled);
    assert UpperChar('#') == '#';
    forall i | 0 <= i < 7 ensures ToUpper(doubled)[i] == Doubled(d)[i] {
    }
  }

  /** The 3-digit shorthand expands by doubling each digit (#abc becomes #AABBCC), with or
      without the '#'. */
  lemma ShorthandExpands(table: ColorTable, d: string)
    requires |d| == 3 && forall i :: 0 <= i < 3 ==> IsHexDigit(d[i])
    ensures NormalizeHex(table, "#" + d) == Some(Doubled(d))
    ensures NormalizeHex(table, d) == Some(Doubled(d))
  {
    HexPathShorthand(d);
    assert IsHexColor(d) by {
      assert HexBody(d) == d;
    }
    HexColorTakesHexPath(table, "#" + d);
    HexColorTakesHexPath(table, d);
    HexPathAddsHash(d);
  }

  /** The hexadecimal path leaves a normalised colour as it is. */
  lemma HexPathIdentity(h: string)
    requires IsNormalHex(h) && 5 <= |h| <= 7
    ensures IsHexColor(h) && HexPath(h) == h
  {
    assert HexBody(h) == h[1..];
    assert IsHexColor(h) by {
      forall i | 0 <= i < |h[1..]| ensures IsHexDigit(h[1..][i]) {
        assert h[1..][i] == h[i + 1];
      }
    }
    assert HexPath(h) == ToUpper(h);
    forall i | 0 <= i < |h| ensures ToUpper(h)[i] == h[i] {
    }
  }

  /** Normalising a normalised colour changes nothing. */
  lemma NormalizeIdempotent(table: ColorTable, value: string)
    requires NormalizeHex(table, value).Some?
    ensures var h := NormalizeHex(table, value).value; NormalizeHex(table, h) == Some(h)
  {
    var h := NormalizeHex(table, value).value;
    HexPathIdentity(h);
    assert IsTrimmed(h) by {
      assert IsUpperHexDigit(h[|h| - 1]);
    }
    HexColorTakesHexPath(table, h);
  }

  /** Hex digits are read before names: "bad" is the shorthand #BAD, not a colour name. */
  lemma HexBeforeName(table: ColorTable)
    ensures NormalizeHex(table, "bad") == Some("#BBAADD")
  {
    var d := "bad";
    ShorthandExpands(table, d);
    assert Doubled(d) == "#BBAADD";
  }

  lemma HexPathKeepsSixDigits(s: string)
    requires IsHexColor(s) && |HexBody(s)| != 3
    ensures var digits := HexBody(s);
      HexPath(s) == ToUpper("#" + digits[..if |digits| < 6 then |digits| else 6])
  {
    var digits := HexBody(s);
    var hex := if |s| > 0 && s[0] == '#' then s else "#" + s;
    assert hex == "#" + digits;
    if |hex| > 7 {
      assert hex[..7] == "#" + digits[..6];
    } else {
      assert "#" + digits[..|digits|] == hex;
    }
  }

  /** Any other hexadecimal colour keeps at most its first six digits: 4 and 5 digits give a
      shorter result, 7 and 8 digits are cut. */
  lemma LongHexKeepsSixDigits(table: ColorTable, s: string)
    requires IsTrimmed(s) && IsHexColor(s) && |HexBody(s)| != 3
    ensures var digits := HexBody(s);
      NormalizeHex(table, s) == Some(ToUpper("#" + digits[..if |digits| < 6 then |digits| else 6]))
  {
    HexColorTakesHexPath(table, s);
    HexPathKeepsSixDigits(s);
  }

  // ---------------------------------------------------------------------
  // Comma-separated lists

  /** parseCommaSeparated: the trimmed non-empty comma-separated entries, absent when there are none. */
  function ParseCommaSeparated(value: Option<string>): Option<seq<string>> {
    if value.None? || value.value == "" then None
    else
      var tokens := TrimmedTokens(value.value, ',');
      if |tokens| > 0 then Some(tokens) else None
  }

  /** Every entry is non-empty, trimmed and free of commas, and there is at least one. */
  lemma ParseCommaSeparatedWellFormed(value: Option<string>)
    requires ParseCommaSeparated(value).Some?
    ensures var ts := ParseCommaSeparated(value).value;
      |ts| > 0 && forall t :: t in ts ==> t != "" && IsTrimmed(t) && ',' !in t
  {
    TokensWellFormed(value.value, ',');
  }

  /** Joining well-formed entries with commas and parsing gives the entries back. */
  lemma ParseCommaSeparatedRoundTrip(ks: seq<string>)
    requires |ks| > 0 && forall i :: 0 <= i < |ks| ==> ks[i] != "" && IsTrimmed(ks[i]) && ',' !in ks[i]
    ensures ParseCommaSeparated(Some(Join(ks, ","))) == Some(ks)
  {
    TokensRoundTrip(ks, ',');
    JoinEmpty(ks, ",");
  }

  /** NormalizeHex over a fixed colour table, as a function value for `map`. */
  function Normalizer(table: ColorTable): string -> Option<string> {
    token => NormalizeHex(table, token)
  }

  /** Applying the function value is calling NormalizeHex. */
  lemma NormalizerApplies(table: ColorTable, token: string)
    ensures Normalizer(table)(token) == NormalizeHex(table, token)
  {
  }

  /** collectManualHex: the distinct normalised colours of a comma-separated list, in first-seen
      order, absent when none normalises. */
  function CollectManualHex(table: ColorTable, raw: Option<string>): (r: Option<seq<string>>)
    ensures raw.None? || raw.value == "" ==> r.None?
    ensures r.Some? ==> |r.value| > 0 && NoDup(r.value)
  {
    if raw.None? || raw.value == "" then None
    else
      var normalized := FilterMap(Normalizer(table), Split(raw.value, ','));
      if |normalized| > 0 then Some(Dedup(normalized)) else None
  }

  /** A colour is collected exactly when some comma-separated piece of the list normalises to it. */
  lemma CollectManualHexMembers(table: ColorTable, raw: string, h: string)
    requires raw != ""
    ensures (CollectManualHex(table, Some(raw)).Some? && h in CollectManualHex(table, Some(raw)).value)
      <==> exists j :: 0 <= j < |Split(raw, ',')| && NormalizeHex(table, Split(raw, ',')[j]) == Some(h)
  {
    var collected := CollectManualHex(table, Some(raw));
    if collected.Some? && h in collected.value {
      CollectedHasSource(table, raw, h);
    }
    if exists j :: 0 <= j < |Split(raw, ',')| && NormalizeHex(table, Split(raw, ',')[j]) == Some(h) {
      var j :| 0 <= j < |Split(raw, ',')| && NormalizeHex(table, Split(raw, ',')[j]) == Some(h);
      SourceIsCollected(table, raw, h, j);
    }
  }

  /** Every collected colour comes from some piece of the list. */
  lemma CollectedHasSource(table: ColorTable, raw: string, h: string)
    requires raw != ""
    requires CollectManualHex(table, Some(raw)).Some? && h in CollectManualHex(table, Some(raw)).value
    ensures exists j :: 0 <= j < |Split(raw, ',')| && NormalizeHex(table, Split(raw, ',')[j]) == Some(h)
  {
    var tokens := Split(raw, ',');
    FilterMapDedupMembers(Normalizer(table), tokens, h);
    var j :| 0 <= j < |tokens| && Normalizer(table)(tokens[j]) == Some(h);
    NormalizerApplies(table, tokens[j]);
  }

  /** Every piece that normalises contributes its colour. */
  lemma SourceIsCollected(table: ColorTable, raw: string, h: string, j: nat)
    requires raw != ""
    requires j < |Split(raw, ',')| && NormalizeHex(table, Split(raw, ',')[j]) == Some(h)
    ensures CollectManualHex(table, Some(raw)).Some? && h in CollectManualHex(table, Some(raw)).value
  {
    NormalizerApplies(table, Split(raw, ',')[j]);
    FilterMapKeeps(Normalizer(table), Split(raw, ','), j, h);
    assert CollectManualHex(table, Some(raw)) == Some(Dedup(FilterMap(Normalizer(table), Split(raw, ','))));
  }

  // ---------------------------------------------------------------------
  // The named-colour lookup as written

  /** What `colorName[key]` yields in JavaScript: one of the table's own entries, a value every
      plain object inherits from Object.prototype, or undefined. */
  datatype Property = Own(rgb: Rgb) | Inherited | Undefined

  /** The lower-case names of the properties a plain object inherits ("constructor" and "__proto__";
      the other inherited names contain upper-case letters and cannot equal a lower-cased key). */
  predicate IsInheritedKey(key: string) {
    key == "constructor" || key == "__proto__"
  }

  function PropertyOf(table: ColorTable, key: string): Property {
    if key in table then Own(table[key]) else if IsInheritedKey(key) then Inherited else Undefined
  }

  /** normalizeHex as written: an inherited value is truthy, so it reaches `const [r, g, b] = rgb`,
      which throws because that value is not iterable. */
  function NormalizeHexAsWritten(table: ColorTable, value: string): Result<Option<string>, string> {
    var trimmed := Trim(value);
    if IsHexColor(trimmed) then Success(Some(HexPath(trimmed)))
    else
      match PropertyOf(table, ToLower(trimmed))
      case Undefined => Success(None)
      case Inherited => Failure("rgb is not iterable")
      case Own(rgb) => Success(Some(RgbHex(rgb)))
  }

  /** The as-written normaliser over a list: the first token that throws aborts the whole list. */
  function NormalizeAllAsWritten(table: ColorTable, tokens: seq<string>): Result<seq<string>, string>
    decreases |tokens|
  {
    if |tokens| == 0 then Success([])
    else
      var first :- NormalizeHexAsWritten(table, tokens[0]);
      var rest :- NormalizeAllAsWritten(table, tokens[1..]);
      Success(if first.Some? then [first.value] + rest else rest)
  }

  function CollectManualHexAsWritten(table: ColorTable, raw: Option<string>): Result<Option<seq<string>>, string> {
    if raw.None? || raw.value == "" then Success(None)
    else
      var normalized :- NormalizeAllAsWritten(table, Split(raw.value, ','));
      Success(if |normalized| > 0 then Some(Dedup(normalized)) else None)
  }

  /** Where the lookup finds one of the table's own entries or nothing, the two normalisers agree. */
  lemma AsWrittenAgreesOnOwnKeys(table: ColorTable, value: string)
    requires !IsInheritedKey(ToLower(Trim(value))) || ToLower(Trim(value)) in table
    ensures NormalizeHexAsWritten(table, value) == Success(NormalizeHex(table, value))
  {
  }

  lemma {:induction false} AsWrittenFailsOnSuffix(table: ColorTable, tokens: seq<string>, t: string)
    requires NormalizeHexAsWritten(table, t).Failure?
    ensures NormalizeAllAsWritten(table, tokens + [t]).Failure?
    decreases |tokens|
  {
    if |tokens| == 0 {
      assert [t][0] == t;
    } else {
      assert (tokens + [t])[1..] == tokens[1..] + [t];
      assert (tokens + [t])[0] == tokens[0];
      AsWrittenFailsOnSuffix(table, tokens[1..], t);
    }
  }

  /** As written, one token that throws aborts the whole list. */
  lemma ThrowingTokenAborts(table: ColorTable, s: string, t: string)
    requires ',' !in t && NormalizeHexAsWritten(table, t).Failure?
    ensures CollectManualHexAsWritten(table, Some(s + [','] + t)).Failure?
  {
    SplitAppend(s, ',', t);
    AsWrittenFailsOnSuffix(table, Split(s, ','), t);
  }

  /** As written, a list of manual colours that ends in the token "constructor" aborts brand-kit
      creation, whatever the colours before it. */
  lemma ConstructorTokenThrows(table: ColorTable, s: string)
    requires "constructor" !in table
    ensures CollectManualHexAsWritten(table, Some(s + "," + "constructor")).Failure?
  {
    ConstructorIsDropped(table);
    ThrowingTokenAborts(table, s, "constructor");
  }

  /** A trimmed token that is not hexadecimal and whose lower-case form is an inherited name the
      table lacks: the corrected normaliser drops it, the one as written throws. */
  lemma InheritedNameThrows(table: ColorTable, t: string)
    requires IsTrimmed(t) && !IsHexColor(t) && IsInheritedKey(ToLower(t)) && ToLower(t) !in table
    ensures NormalizeHex(table, t).None?
    ensures NormalizeHexAsWritten(table, t).Failure?
  {
    TrimIdentity(t);
  }

  /** The token "constructor" is trimmed, not a hex colour, and its own lower-case form. */
  lemma ConstructorToken()
    ensures IsTrimmed("constructor") && !IsHexColor("constructor") && ',' !in "constructor"
    ensures ToLower("constructor") == "constructor"
  {
    var t := "constructor";
    forall i | 0 <= i < |t| ensures t[i] != ',' {
    }
    assert HexBody(t) == t;
    assert !IsHexDigit(t[1]);
    forall i | 0 <= i < |t| ensures ToLower(t)[i] == t[i] {
    }
  }

  lemma ConstructorIsDropped(table: ColorTable)
    requires "constructor" !in table
    ensures ',' !in "constructor"
    ensures NormalizeHex(table, "constructor").None?
    ensures NormalizeHexAsWritten(table, "constructor").Failure?
  {
    ConstructorToken();
    InheritedNameThrows(table, "constructor");
  }

  /** Corrected, a token that names no colour is dropped: appending it changes nothing. */
  lemma UnknownTokenDropped(table: ColorTable, s: string, t: string)
    requires s != "" && ',' !in t && NormalizeHex(table, t).None?
    ensures CollectManualHex(table, Some(s + [','] + t)) == CollectManualHex(table, Some(s))
  {
    var f := Normalizer(table);
    assert f(t).None?;
    SplitAppend(s, ',', t);
    FilterMapAppendNone(f, Split(s, ','), t);
    assert FilterMap(f, Split(s + [','] + t, ',')) == FilterMap(f, Split(s, ','));
  }

  // ---------------------------------------------------------------------
  // Palette merge

  /** The manual colours followed by the colours extracted from the palette image, without
      repeats, first occurrence kept; absent when there are none. */
  function DerivedPalette(manual: Option<seq<string>>, image: seq<string>): Option<seq<string>> {
    var merged := Dedup(manual.GetOr([]) + image);
    if |merged| > 0 then Some(merged) else None
  }

  /** The merged palette lists the distinct manual colours first, in their order, then the new
      image colours; it holds every colour of either list and nothing else, once. */
  lemma DerivedPaletteOrder(manual: Option<seq<string>>, image: seq<string>)
    ensures DerivedPalette(manual, image).None? <==> manual.GetOr([]) + image == []
    ensures DerivedPalette(manual, image).Some? ==>
      var d := DerivedPalette(manual, image).value;
      && NoDup(d)
      && Dedup(manual.GetOr([])) <= d
      && (forall c :: c in d <==> c in manual.GetOr([]) || c in image)
  {
    var all := manual.GetOr([]) + image;
    DedupPrefix(manual.GetOr([]), image);
    if all != [] {
      assert all[0] in Dedup(all);
    }
    forall c | c in all ensures c in Dedup(all) {
      var i :| 0 <= i < |all| && all[i] == c;
    }
    forall c | c in Dedup(all) ensures c in all {
      var i :| 0 <= i < |Dedup(all)| && Dedup(all)[i] == c;
    }
  }

  /** Manual colours that are already distinct (as collectManualHex returns them) open the palette unchanged. */
  lemma ManualColorsFirst(manual: seq<string>, image: seq<string>)
    requires |manual| > 0 && NoDup(manual)
    ensures DerivedPalette(Some(manual), image).Some?
    ensures manual <= DerivedPalette(Some(manual), image).value
  {
    DerivedPaletteOrder(Some(manual), image);
    NoDupUnchanged(manual);
  }

  // ---------------------------------------------------------------------
  // buildBrandKitPayload

  /** An HTTP request header: absent, one value, or repeated. */
  datatype Header = NoHeader | One(value: string) | Many(values: seq<string>)

  datatype BrandKitBody = BrandKitBody(
    name: Option<string>,
    toneDescription: Option<string>,
    prohibitedPhrases: Option<string>,
    targetAudience: Option<string>,
    primaryCallToAction: Option<string>,
    manualHexColors: Option<string>)

  datatype BrandKitRequest = BrandKitRequest(userId: Header, userEmail: Header, body: Option<BrandKitBody>)

  datatype BrandKitError = MissingUserId | MissingName

  /** The owner and the e-mail address the user record is ensured with, and the brand kit to store. */
  datatype BrandKitPayload = BrandKitPayload(ownerEmail: string, kit: BrandKit)

  /** The caller, when the X-User-Id header is a single non-empty value. */
  function OwnerOf(h: Header): (r: Option<string>)
    ensures r.Some? <==> h.One? && h.value != ""
  {
    if h.One? && h.value != "" then Some(h.value) else None
  }

  /** The X-User-Email header when it is a single non-empty value, else `<owner>@local.user`. */
  function OwnerEmail(owner: string, h: Header): string {
    if h.One? && |h.value| > 0 then h.value else owner + "@local.user"
  }

  /** An uploaded palette image: its relative path and the colours extracted from it. */
  datatype PaletteUpload = PaletteUpload(path: string, colors: seq<string>)

  /** The checks and the palette merge of buildBrandKitPayload. `id` is the generated identifier,
      `logoPath` the relative path of the uploaded logo, and `palette` the uploaded palette image. */
  function BuildBrandKitPayload(
    table: ColorTable, request: BrandKitRequest, id: string,
    logoPath: Option<string>, palette: Option<PaletteUpload>)
    : (r: Result<BrandKitPayload, BrandKitError>)
    ensures r == Failure(MissingUserId) <==> OwnerOf(request.userId).None?
    ensures r == Failure(MissingName) <==>
      OwnerOf(request.userId).Some? && (request.body.None? || request.body.value.name.None? || request.body.value.name.value == "")
    ensures r.Success? ==>
      var body := request.body.value;
      && r.value.kit.ownerId == request.userId.value != ""
      && r.value.kit.name == body.name.value != ""
      && r.value.kit.derivedPaletteHex == DerivedPalette(
           CollectManualHex(table, body.manualHexColors), if palette.Some? then palette.value.colors else [])
      && r.value.kit.prohibitedPhrases == ParseCommaSeparated(body.prohibitedPhrases)
  {
    match OwnerOf(request.userId)
    case None => Failure(MissingUserId)
    case Some(owner) =>
      var email := OwnerEmail(owner, request.userEmail);
      if request.body.None? || request.body.value.name.None? || request.body.value.name.value == "" then
        Failure(MissingName)
      else
        var body := request.body.value;
        var manual := CollectManualHex(table, body.manualHexColors);
        var imageColors := if palette.Some? then palette.value.colors else [];
        Success(BrandKitPayload(email, BrandKit(
          id, owner, body.name.value, logoPath,
          if palette.Some? then Some(palette.value.path) else None,
          DerivedPalette(manual, imageColors),
          body.toneDescription, ParseCommaSeparated(body.prohibitedPhrases),
          body.targetAudience, body.primaryCallToAction)))
  }

  /** A stored brand kit lists its valid manual colours first, in the order typed, and holds no
      colour twice; without a palette image its palette is exactly the manual colours. */
  lemma PayloadPalette(
    table: ColorTable, request: BrandKitRequest, id: string,
    logoPath: Option<string>, palette: Option<PaletteUpload>)
    requires BuildBrandKitPayload(table, request, id, logoPath, palette).Success?
    ensures var kit := BuildBrandKitPayload(table, request, id, logoPath, palette).value.kit;
      var manual := CollectManualHex(table, request.body.value.manualHexColors);
      && (kit.derivedPaletteHex.Some? ==> NoDup(kit.derivedPaletteHex.value))
      && (manual.Some? ==> kit.derivedPaletteHex.Some? && manual.value <= kit.derivedPaletteHex.value)
      && (palette.None? ==> kit.derivedPaletteHex == manual)
  {
    var kit := BuildBrandKitPayload(table, request, id, logoPath, palette).value.kit;
    var manual := CollectManualHex(table, request.body.value.manualHexColors);
    var imageColors := if palette.Some? then palette.value.colors else [];
    DerivedPaletteOrder(manual, imageColors);
    if manual.Some? {
      ManualColorsFirst(manual.value, imageColors);
    }
    if palette.None? {
      assert manual.GetOr([]) + [] == manual.GetOr([]);
      if manual.Some? {
        NoDupUnchanged(manual.value);
      }
    }
  }
}
