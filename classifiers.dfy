/** The string classifiers of the schema generator: the binary-payload
    heuristic and the email, URL, date/time and UUID recognisers. Each regular
    expression of the source is written out as a predicate on the whole string,
    with `\s` and `\d` matching what they match in Python's str patterns. */
module Classifiers {
  import opened Json

  predicate IsDigit(c: char) { '0' <= c <= '9' }

  predicate IsLetter(c: char) { 'a' <= c <= 'z' || 'A' <= c <= 'Z' }

  /** `[A-Za-z0-9+/]` */
  predicate IsBase64Char(c: char) { IsLetter(c) || IsDigit(c) || c == '+' || c == '/' }

  /** `[A-Fa-f0-9]` */
  predicate IsHexChar(c: char) { IsDigit(c) || 'a' <= c <= 'f' || 'A' <= c <= 'F' }

  /** `\s` in a str pattern: the characters for which Python's `str.isspace` holds. */
  predicate IsWhitespace(c: char) {
    ('\t' <= c <= '\r') || ('\U{1C}' <= c <= ' ') || c == '\U{85}' || c == '\U{A0}'
    || c == '\U{1680}' || ('\U{2000}' <= c <= '\U{200A}') || c == '\U{2028}' || c == '\U{2029}'
    || c == '\U{202F}' || c == '\U{205F}' || c == '\U{3000}'
  }

  /** `\d` in a str pattern: a decimal digit of any script (Unicode category
      Nd, as of Unicode 15.0). Each script's digits zero to nine are ten
      consecutive code points. */
  predicate IsDecimal(c: char) {
       ('0' <= c <= '9') || ('\U{660}' <= c <= '\U{669}') || ('\U{6F0}' <= c <= '\U{6F9}')
    || ('\U{7C0}' <= c <= '\U{7C9}') || ('\U{966}' <= c <= '\U{96F}') || ('\U{9E6}' <= c <= '\U{9EF}')
    || ('\U{A66}' <= c <= '\U{A6F}') || ('\U{AE6}' <= c <= '\U{AEF}') || ('\U{B66}' <= c <= '\U{B6F}')
    || ('\U{BE6}' <= c <= '\U{BEF}') || ('\U{C66}' <= c <= '\U{C6F}') || ('\U{CE6}' <= c <= '\U{CEF}')
    || ('\U{D66}' <= c <= '\U{D6F}') || ('\U{DE6}' <= c <= '\U{DEF}') || ('\U{E50}' <= c <= '\U{E59}')
    || ('\U{ED0}' <= c <= '\U{ED9}') || ('\U{F20}' <= c <= '\U{F29}') || ('\U{1040}' <= c <= '\U{1049}')
    || ('\U{1090}' <= c <= '\U{1099}') || ('\U{17E0}' <= c <= '\U{17E9}') || ('\U{1810}' <= c <= '\U{1819}')
    || ('\U{1946}' <= c <= '\U{194F}') || ('\U{19D0}' <= c <= '\U{19D9}') || ('\U{1A80}' <= c <= '\U{1A89}')
    || ('\U{1A90}' <= c <= '\U{1A99}') || ('\U{1B50}' <= c <= '\U{1B59}') || ('\U{1BB0}' <= c <= '\U{1BB9}')
    || ('\U{1C40}' <= c <= '\U{1C49}') || ('\U{1C50}' <= c <= '\U{1C59}') || ('\U{A620}' <= c <= '\U{A629}')
    || ('\U{A8D0}' <= c <= '\U{A8D9}') || ('\U{A900}' <= c <= '\U{A909}') || ('\U{A9D0}' <= c <= '\U{A9D9}')
    || ('\U{A9F0}' <= c <= '\U{A9F9}') || ('\U{AA50}' <= c <= '\U{AA59}') || ('\U{ABF0}' <= c <= '\U{ABF9}')
    || ('\U{FF10}' <= c <= '\U{FF19}') || ('\U{104A0}' <= c <= '\U{104A9}') || ('\U{10D30}' <= c <= '\U{10D39}')
    || ('\U{11066}' <= c <= '\U{1106F}') || ('\U{110F0}' <= c <= '\U{110F9}') || ('\U{11136}' <= c <= '\U{1113F}')
    || ('\U{111D0}' <= c <= '\U{111D9}') || ('\U{112F0}' <= c <= '\U{112F9}') || ('\U{11450}' <= c <= '\U{11459}')
    || ('\U{114D0}' <= c <= '\U{114D9}') || ('\U{11650}' <= c <= '\U{11659}') || ('\U{116C0}' <= c <= '\U{116C9}')
    || ('\U{11730}' <= c <= '\U{11739}') || ('\U{118E0}' <= c <= '\U{118E9}') || ('\U{11950}' <= c <= '\U{11959}')
    || ('\U{11C50}' <= c <= '\U{11C59}') || ('\U{11D50}' <= c <= '\U{11D59}') || ('\U{11DA0}' <= c <= '\U{11DA9}')
    || ('\U{11F50}' <= c <= '\U{11F59}') || ('\U{16A60}' <= c <= '\U{16A69}') || ('\U{16AC0}' <= c <= '\U{16AC9}')
    || ('\U{16B50}' <= c <= '\U{16B59}') || ('\U{1D7CE}' <= c <= '\U{1D7D7}') || ('\U{1D7D8}' <= c <= '\U{1D7E1}')
    || ('\U{1D7E2}' <= c <= '\U{1D7EB}') || ('\U{1D7EC}' <= c <= '\U{1D7F5}') || ('\U{1D7F6}' <= c <= '\U{1D7FF}')
    || ('\U{1E140}' <= c <= '\U{1E149}') || ('\U{1E2F0}' <= c <= '\U{1E2F9}') || ('\U{1E4F0}' <= c <= '\U{1E4F9}')
    || ('\U{1E950}' <= c <= '\U{1E959}') || ('\U{1FBF0}' <= c <= '\U{1FBF9}')
  }

  predicate AllBase64(s: string) { forall i :: 0 <= i < |s| ==> IsBase64Char(s[i]) }

  /** The first of the binary patterns; the schema builders also emit it as a
      `pattern` keyword. */
  const Base64Pattern := "^[A-Za-z0-9+/]*={0,2}$"

  /** `^[A-Za-z0-9+/]*={0,2}$`: base64 characters followed by at most two `=`. */
  predicate Base64Shaped(s: string) {
    AllBase64(s)
    || (|s| >= 1 && s[|s| - 1] == '=' && AllBase64(s[..|s| - 1]))
    || (|s| >= 2 && s[|s| - 2] == '=' && s[|s| - 1] == '=' && AllBase64(s[..|s| - 2]))
  }

  /** `^[A-Fa-f0-9]+$` */
  predicate HexShaped(s: string) {
    |s| > 0 && forall i :: 0 <= i < |s| ==> IsHexChar(s[i])
  }

  /** `len(set(value))` */
  function DistinctChars(s: string): nat {
    |set i | 0 <= i < |s| :: s[i]|
  }

  /** `_is_likely_binary`: the empty string never; then either binary pattern
      (base64 first, then hex); then the entropy test `len > 20` and
      `unique/len > 0.8`, which is `5 * unique > 4 * len`. */
  predicate IsLikelyBinary(s: string) {
    if s == [] then false
    else if Base64Shaped(s) then true
    else if HexShaped(s) then true
    else |s| > 20 && 5 * DistinctChars(s) > 4 * |s|
  }

  /** Every hexadecimal string already has the base64 shape, so the hex
      pattern never decides anything the base64 pattern has not. */
  lemma HexIsBase64(s: string)
    requires HexShaped(s)
    ensures Base64Shaped(s)
  {
    assert AllBase64(s);
  }

  /** `_is_likely_binary`, case by case: below 21 characters only the base64
      shape decides; above, the entropy test admits what the shape does not. */
  lemma LikelyBinaryCases(s: string)
    ensures s == [] ==> !IsLikelyBinary(s)
    ensures s != [] && (Base64Shaped(s) || HexShaped(s)) ==> IsLikelyBinary(s)
    ensures |s| <= 20 ==> (IsLikelyBinary(s) <==> s != [] && Base64Shaped(s))
    ensures !Base64Shaped(s) ==> (IsLikelyBinary(s) <==> |s| > 20 && 5 * DistinctChars(s) > 4 * |s|)
  {
    if HexShaped(s) {
      HexIsBase64(s);
    }
  }

  /** The number of distinct characters never exceeds the length, so the
      entropy test needs more than four fifths of the characters distinct. */
  lemma {:induction false} DistinctCharsBound(s: string)
    ensures DistinctChars(s) <= |s|
    ensures s != [] ==> DistinctChars(s) >= 1
  {
    if s != [] {
      var t := s[..|s| - 1];
      DistinctCharsBound(t);
      var a := set i | 0 <= i < |t| :: t[i];
      var b := set i | 0 <= i < |s| :: s[i];
      assert b == a + {s[|s| - 1]};
      assert s[0] in b;
    }
  }

  // ---- email: ^[a-zA-Z0-9._%+-]+@[a-zA-Z0-9.-]+\.[a-zA-Z]{2,}$

  predicate IsLocalChar(c: char) {
    IsLetter(c) || IsDigit(c) || c == '.' || c == '_' || c == '%' || c == '+' || c == '-'
  }

  predicate IsDomainChar(c: char) { IsLetter(c) || IsDigit(c) || c == '.' || c == '-' }

  predicate AllLocal(s: string) { forall i :: 0 <= i < |s| ==> IsLocalChar(s[i]) }

  predicate AllDomain(s: string) { forall i :: 0 <= i < |s| ==> IsDomainChar(s[i]) }

  predicate AllLetters(s: string) { forall i :: 0 <= i < |s| ==> IsLetter(s[i]) }

  /** The email expression read as a regular expression: some `@` at `at`
      and some `.` at `dot` split the string into a non-empty local part,
      a non-empty domain and a top-level domain of at least two letters. */
  ghost predicate EmailSplit(s: string, at: int, dot: int) {
    0 < at && at + 1 < dot && dot + 2 < |s|
    && s[at] == '@' && s[dot] == '.'
    && AllLocal(s[..at]) && AllDomain(s[at + 1..dot]) && AllLetters(s[dot + 1..])
  }

  ghost predicate EmailShaped(s: string) {
    exists at, dot :: EmailSplit(s, at, dot)
  }

  function LastIndexOf(s: string, c: char): (r: Option<nat>)
    ensures r.Some? ==> r.value < |s| && s[r.value] == c && forall k :: r.value < k < |s| ==> s[k] != c
    ensures r.None? ==> forall k :: 0 <= k < |s| ==> s[k] != c
  {
    if s == [] then None
    else if s[|s| - 1] == c then Some(|s| - 1)
    else LastIndexOf(s[..|s| - 1], c)
  }

  function FirstIndexOf(s: string, c: char): (r: Option<nat>)
    ensures r.Some? ==> r.value < |s| && s[r.value] == c && forall k :: 0 <= k < r.value ==> s[k] != c
    ensures r.None? ==> forall k :: 0 <= k < |s| ==> s[k] != c
  {
    if s == [] then None
    else if s[0] == c then Some(0)
    else match FirstIndexOf(s[1..], c)
      case None => None
      case Some(k) => Some(k + 1)
  }

  /** `_is_email`: the top-level domain follows the last `.` and the local
      part ends at the first `@`, since neither part may contain that character. */
  predicate IsEmail(s: string) {
    match LastIndexOf(s, '.')
    case None => false
    case Some(dot) =>
      dot + 2 < |s| && AllLetters(s[dot + 1..])
      && match FirstIndexOf(s[..dot], '@')
         case None => false
         case Some(at) => 0 < at && at + 1 < dot && AllLocal(s[..at]) && AllDomain(s[at + 1..dot])
  }

  /** The executable recogniser accepts exactly the strings the email
      regular expression matches. */
  lemma EmailMatchesRegex(s: string)
    ensures IsEmail(s) <==> EmailShaped(s)
  {
    if IsEmail(s) {
      var dot := LastIndexOf(s, '.').value;
      var at := FirstIndexOf(s[..dot], '@').value;
      assert EmailSplit(s, at, dot);
    }
    if EmailShaped(s) {
      var at, dot :| EmailSplit(s, at, dot);
      // the top-level domain holds letters only, so `dot` is the last '.'
      assert forall k :: dot < k < |s| ==> s[k] == s[dot + 1..][k - dot - 1];
      var last := LastIndexOf(s, '.');
      assert last == Some(dot);
      // the local part holds no '@', so `at` is the first '@' before `dot`
      assert forall k :: 0 <= k < at ==> s[..dot][k] == s[..at][k];
      var first := FirstIndexOf(s[..dot], '@');
      assert first == Some(at);
      assert s[..dot][..at] == s[..at];
      assert s[..dot][at + 1..dot] == s[at + 1..dot];
    }
  }

  // ---- URL: ^https?://[^\s/$.?#].[^\s]*$

  predicate UrlRest(r: string) {
    |r| >= 2
    && !IsWhitespace(r[0]) && r[0] != '/' && r[0] != '$' && r[0] != '.' && r[0] != '?' && r[0] != '#'
    && r[1] != '\n'
    && forall k :: 2 <= k < |r| ==> !IsWhitespace(r[k])
  }

  /** `_is_url` */
  predicate IsUrl(s: string) {
    (|s| >= 7 && s[..7] == "http://" && UrlRest(s[7..]))
    || (|s| >= 8 && s[..8] == "https://" && UrlRest(s[8..]))
  }

  /** Whitespace is rejected everywhere except at the one position after
      the host's first character, where the expression's `.` takes anything
      but a newline. */
  lemma UrlWhitespace(s: string)
    requires IsUrl(s)
    ensures var n := if s[4] == 's' then 8 else 7;
      && n + 2 <= |s|
      && s[..n] == (if n == 8 then "https://" else "http://")
      && s[n + 1] != '\n'
      && forall k :: 0 <= k < |s| && k != n + 1 ==> !IsWhitespace(s[k])
  {
    var n := if |s| >= 8 && s[..8] == "https://" then 8 else 7;
    var scheme := if n == 8 then "https://" else "http://";
    assert s[4] == scheme[4];
    assert forall k :: 0 <= k < n ==> s[k] == scheme[k];
    assert forall k :: n <= k < |s| ==> s[k] == s[n..][k - n];
  }

  /** `http://a b` is a URL; a space anywhere else is not allowed. */
  lemma UrlSpaceExamples()
    ensures IsUrl("http://a b")
    ensures !IsUrl("http://ab c") && !IsUrl("http:// ab") && !IsUrl("https://a\nb")
  {
    assert "http://a b"[..7] == "http://";
    assert "http://a b"[7..] == "a b";
    var t := "http://ab c";
    UrlWhitespaceAt(t, 9);
    var u := "http:// ab";
    UrlWhitespaceAt(u, 7);
    var w := "https://a\nb";
    assert w[8..] == "a\nb";
  }

  /** A URL holds no whitespace at `k` unless `k` is the position the
      expression's `.` takes. */
  lemma UrlWhitespaceAt(s: string, k: nat)
    requires k < |s| && IsWhitespace(s[k]) && k != (if |s| > 4 && s[4] == 's' then 9 else 8)
    ensures !IsUrl(s)
  {
    if IsUrl(s) {
      UrlWhitespace(s);
    }
  }

  // ---- date/time and UUID: fixed-width templates

  /** `s` fits `t` character by character: `#` stands for `\d`, `x` for
      `[0-9a-f]`, any other character for itself. */
  predicate FitsTemplate(s: string, t: string) {
    |s| == |t|
    && forall i :: 0 <= i < |t| ==>
         if t[i] == '#' then IsDecimal(s[i])
         else if t[i] == 'x' then IsDigit(s[i]) || 'a' <= s[i] <= 'f'
         else s[i] == t[i]
  }

  const IsoPrefix := "####-##-##T##:##:##"
  const DateOnly := "####-##-##"
  const SlashDate := "##/##/####"
  const DashDate := "##-##-####"
  const UuidTemplate := "xxxxxxxx-xxxx-xxxx-xxxx-xxxxxxxxxxxx"

  /** `_is_date_time`: the ISO pattern has no `$`, so it only tests a prefix;
      the three date patterns are anchored at both ends. */
  predicate IsDateTime(s: string) {
    (|s| >= |IsoPrefix| && FitsTemplate(s[..|IsoPrefix|], IsoPrefix))
    || FitsTemplate(s, DateOnly)
    || FitsTemplate(s, SlashDate)
    || FitsTemplate(s, DashDate)
  }

  /** Only the ISO pattern leaves the end open: a date/time is exactly ten
      characters long, or has a `T` at position 10 and at least 19
      characters, and then only its first 19 characters are tested. */
  lemma DateTimeShape(s: string)
    ensures IsDateTime(s) ==> |s| == 10 || (|s| >= 19 && s[10] == 'T')
    ensures |s| >= 19 ==> (IsDateTime(s) <==> IsDateTime(s[..19]))
  {
    if IsDateTime(s) && |s| != 10 {
      assert FitsTemplate(s[..19], IsoPrefix);
      assert s[10] == s[..19][10];
    }
    if |s| >= 19 {
      assert s[..19][..19] == s[..19];
    }
  }

  /** A space instead of the `T` is not a date/time; anything after the
      nineteenth character is ignored. */
  lemma DateTimeExamples()
    ensures !IsDateTime("2024-01-01 10:00:00")
    ensures IsDateTime("2024-01-01T10:00:00 trailing text")
    ensures IsDateTime("01/31/2024") && !IsDateTime("2024-1-01")
    ensures IsDateTime("\U{662}\U{660}\U{662}\U{664}-\U{660}\U{661}-\U{660}\U{661}")
  {
    assert FitsTemplate("\U{662}\U{660}\U{662}\U{664}-\U{660}\U{661}-\U{660}\U{661}", DateOnly);
    DateTimeShape("2024-01-01 10:00:00");
    var s := "2024-01-01T10:00:00 trailing text";
    assert s[..19] == "2024-01-01T10:00:00";
    assert FitsTemplate(s[..19], IsoPrefix);
    assert FitsTemplate("01/31/2024", SlashDate);
    DateTimeShape("2024-1-01");
  }

  /** `str.lower()` on the characters that matter here. */
  function Lower(s: string): (r: string)
    ensures |r| == |s|
    ensures forall i :: 0 <= i < |s| ==> r[i] == LowerChar(s[i])
  {
    seq(|s|, i requires 0 <= i < |s| => LowerChar(s[i]))
  }

  function LowerChar(c: char): char {
    if 'A' <= c <= 'Z' then (c as int + 32) as char else c
  }

  /** `_is_uuid`: the lowercased string fits the 8-4-4-4-12 template. */
  predicate IsUuid(s: string) {
    FitsTemplate(Lower(s), UuidTemplate)
  }

  /** Because the test runs on the lowercased string, a UUID is recognised
      in either case: 36 characters, dashes at 8, 13, 18 and 23, hex digits
      of any case elsewhere. */
  lemma UuidIgnoresCase(s: string)
    ensures IsUuid(s) <==>
      |s| == 36
      && forall i :: 0 <= i < 36 ==>
           if i == 8 || i == 13 || i == 18 || i == 23 then s[i] == '-' else IsHexChar(s[i])
  {
    var t := UuidTemplate;
    assert forall i :: 0 <= i < 36 ==> (t[i] == '-' <==> i == 8 || i == 13 || i == 18 || i == 23);
    assert forall i :: 0 <= i < 36 ==> (t[i] == 'x' <==> !(i == 8 || i == 13 || i == 18 || i == 23));
  }

  datatype Pattern = Email | Url | DateTime | Uuid

  /** The one pattern `_analyze_string_field` records for a string: email,
      else URL, else date/time, else UUID. */
  function ClassifyPattern(s: string): Option<Pattern> {
    if IsEmail(s) then Some(Email)
    else if IsUrl(s) then Some(Url)
    else if IsDateTime(s) then Some(DateTime)
    else if IsUuid(s) then Some(Uuid)
    else None
  }

  /** The classification follows the priority email > URL > date/time > UUID:
      a pattern is recorded exactly when its recogniser accepts and no
      stronger one does. */
  lemma ClassifyPriority(s: string, p: Pattern)
    ensures ClassifyPattern(s) == Some(p) <==>
      match p
      case Email => IsEmail(s)
      case Url => !IsEmail(s) && IsUrl(s)
      case DateTime => !IsEmail(s) && !IsUrl(s) && IsDateTime(s)
      case Uuid => !IsEmail(s) && !IsUrl(s) && !IsDateTime(s) && IsUuid(s)
    ensures ClassifyPattern(s) == None <==> !IsEmail(s) && !IsUrl(s) && !IsDateTime(s) && !IsUuid(s)
  {
  }
}
