/**
 * The validators of utils/helper_functions.py: `validate_email`,
 * `validate_phone`, `validate_zip_code` and `sanitize_sneaker_name`. The
 * regular expressions are ASCII-only here (see `Text`). `re.match` with a
 * final `$` also accepts one trailing newline, and so does the model.
 */
module HelperValidation {
  import opened Wrappers
  import opened Text
  import opened HelperText

  predicate AllDigits(s: string) {
    forall i :: 0 <= i < |s| ==> IsDigit(s[i])
  }

  /** The text a final `$` lets through: the whole string, or all of it but one trailing newline. */
  predicate EndsAt(s: string, body: string) {
    s == body || s == body + "\n"
  }

  // ---- validate_phone ---------------------------------------------------------------

  /** `re.sub(r'\D', '', phone)` */
  function Digits(s: string): (d: string)
    ensures AllDigits(d) && |d| <= |s|
    ensures AllDigits(s) ==> d == s
    decreases |s|
  {
    if |s| == 0 then []
    else Digits(s[..|s| - 1]) + (if IsDigit(s[|s| - 1]) then [s[|s| - 1]] else [])
  }

  lemma {:induction false} DigitsAppend(a: string, b: string)
    ensures Digits(a + b) == Digits(a) + Digits(b)
    decreases |b|
  {
    if |b| == 0 {
      assert a + b == a;
    } else {
      DigitsAppend(a, b[..|b| - 1]);
      assert (a + b)[..|a + b| - 1] == a + b[..|b| - 1];
    }
  }

  /** `validate_phone`: exactly ten or eleven digit characters, whatever else the text holds. */
  predicate ValidatePhone(phone: string) {
    |Digits(phone)| == 10 || |Digits(phone)| == 11
  }

  /** Inserting a non-digit anywhere never changes the verdict. */
  lemma PhoneIgnoresNonDigits(a: string, c: char, b: string)
    requires !IsDigit(c)
    ensures ValidatePhone(a + [c] + b) == ValidatePhone(a + b)
  {
    DigitsAppend(a + [c], b);
    DigitsAppend(a, [c]);
    DigitsAppend(a, b);
    assert Digits([c]) == Digits([]) + [];
  }

  /** A phone number is valid iff its digits alone are. */
  lemma PhoneDigitsOnly(phone: string)
    ensures ValidatePhone(phone) <==> ValidatePhone(Digits(phone))
  {
  }

  // ---- validate_zip_code -------------------------------------------------------------------

  /**
   * The automaton of `^\d{5}(-\d{4})?$`: states 0-5 count the first five
   * digits, 6-10 the dash and up to four more digits, 11 the trailing
   * newline, and -1 is the dead state.
   */
  function ZipStep(state: int, c: char): int {
    if 0 <= state < 5 && IsDigit(c) then state + 1
    else if state == 5 && c == '-' then 6
    else if 6 <= state < 10 && IsDigit(c) then state + 1
    else if (state == 5 || state == 10) && c == '\n' then 11
    else -1
  }

  function ZipRun(state: int, s: string): int
    decreases |s|
  {
    if |s| == 0 then state else ZipRun(ZipStep(state, s[0]), s[1..])
  }

  predicate ZipAccepts(state: int) {
    state == 5 || state == 10 || state == 11
  }

  /** `validate_zip_code`: `re.match(r'^\d{5}(-\d{4})?$', zip_code)` */
  predicate ValidateZipCode(zip: string) {
    ZipAccepts(ZipRun(0, zip))
  }

  /** Five digits, optionally a dash and four digits. */
  predicate ZipBody(p: string) {
    (|p| == 5 && AllDigits(p)) || (|p| == 10 && AllDigits(p[..5]) && p[5] == '-' && AllDigits(p[6..]))
  }

  lemma {:induction false} ZipDead(s: string)
    ensures ZipRun(-1, s) == -1
    decreases |s|
  {
    if |s| > 0 {
      ZipDead(s[1..]);
    }
  }

  lemma ZipAfterNewline(s: string)
    ensures ZipAccepts(ZipRun(11, s)) <==> |s| == 0
  {
    if |s| > 0 {
      ZipDead(s[1..]);
    }
  }

  /** From state k in 6..10 the automaton wants 10 - k digits, then optionally a newline. */
  lemma {:induction false} ZipSecondGroup(k: int, s: string)
    requires 6 <= k <= 10
    ensures ZipAccepts(ZipRun(k, s)) <==>
              (|s| == 10 - k && AllDigits(s))
              || (|s| == 11 - k && AllDigits(s[..10 - k]) && s[10 - k] == '\n')
    decreases |s|
  {
    if |s| > 0 {
      var t := s[1..];
      if k < 10 && IsDigit(s[0]) {
        ZipSecondGroup(k + 1, t);
        if |s| == 11 - k {
          assert s[..10 - k] == [s[0]] + t[..9 - k];
          assert s[10 - k] == t[9 - k];
        }
      } else if k == 10 && s[0] == '\n' {
        ZipAfterNewline(t);
      } else {
        ZipDead(t);
        if k < 10 && |s| >= 10 - k {
          assert s[..10 - k][0] == s[0];
        }
      }
    }
  }

  /** From state k in 0..5 the automaton wants 5 - k digits, then optionally a dash and four digits, then optionally a newline. */
  lemma {:induction false} ZipFirstGroup(k: int, s: string)
    requires 0 <= k <= 5
    ensures var n := 5 - k;
            ZipAccepts(ZipRun(k, s)) <==>
              (|s| == n && AllDigits(s))
              || (|s| == n + 1 && AllDigits(s[..n]) && s[n] == '\n')
              || (|s| == n + 5 && AllDigits(s[..n]) && s[n] == '-' && AllDigits(s[n + 1..]))
              || (|s| == n + 6 && AllDigits(s[..n]) && s[n] == '-' && AllDigits(s[n + 1..n + 5]) && s[n + 5] == '\n')
    decreases |s|
  {
    var n := 5 - k;
    if |s| > 0 {
      var t := s[1..];
      if k < 5 && IsDigit(s[0]) {
        ZipFirstGroup(k + 1, t);
        if |s| >= n + 1 {
          assert s[..n] == [s[0]] + t[..n - 1];
          assert s[n] == t[n - 1];
        }
        if |s| >= n + 5 {
          assert s[n + 1..] == t[n..];
          assert s[n + 1..n + 5] == t[n..n + 4];
        }
        if |s| >= n + 6 {
          assert s[n + 5] == t[n + 4];
        }
      } else if k == 5 && s[0] == '-' {
        ZipSecondGroup(6, t);
        assert s[1..] == t;
        if |s| == 6 {
          assert s[1..5] == t[..4];
        }
      } else if k == 5 && s[0] == '\n' {
        ZipAfterNewline(t);
      } else {
        ZipDead(t);
        if k < 5 && |s| >= n {
          assert s[..n][0] == s[0];
        }
      }
    }
  }

  /** The automaton accepts exactly a ZIP or ZIP+4 code, optionally followed by one newline. */
  lemma ZipCodeMeaning(zip: string)
    ensures ValidateZipCode(zip) <==>
              ZipBody(zip) || (|zip| > 0 && zip[|zip| - 1] == '\n' && ZipBody(zip[..|zip| - 1]))
  {
    ZipFirstGroup(0, zip);
    if |zip| == 6 || |zip| == 11 {
      var p := zip[..|zip| - 1];
      assert p[..5] == zip[..5];
      if |zip| == 11 {
        assert p[5] == zip[5];
        assert p[6..] == zip[6..10];
      }
    }
  }

  // ---- validate_email ------------------------------------------------------------------

  /** `[a-zA-Z0-9._%+-]` */
  predicate LocalChar(c: char) {
    IsLetter(c) || IsDigit(c) || c == '.' || c == '_' || c == '%' || c == '+' || c == '-'
  }

  /** `[a-zA-Z0-9.-]` */
  predicate DomainChar(c: char) {
    IsLetter(c) || IsDigit(c) || c == '.' || c == '-'
  }

  predicate Each(s: string, p: char -> bool) {
    forall i :: 0 <= i < |s| ==> p(s[i])
  }

  /** The first position of `c` in `s`. */
  function IndexOf(s: string, c: char): (r: Option<nat>)
    ensures r.None? <==> c !in s
    ensures r.Some? ==> r.value < |s| && s[r.value] == c && c !in s[..r.value]
  {
    if |s| == 0 then None
    else if s[0] == c then Some(0)
    else
      var rest := IndexOf(s[1..], c);
      assert s == [s[0]] + s[1..];
      if rest.None? then None
      else
        assert s[..rest.value + 1] == [s[0]] + s[1..][..rest.value];
        Some(rest.value + 1)
  }

  /** The last position of `c` in `s`. */
  function LastIndexOf(s: string, c: char): (r: Option<nat>)
    ensures r.None? <==> c !in s
    ensures r.Some? ==> r.value < |s| && s[r.value] == c && c !in s[r.value + 1..]
    decreases |s|
  {
    if |s| == 0 then None
    else if s[|s| - 1] == c then Some(|s| - 1)
    else
      var rest := LastIndexOf(s[..|s| - 1], c);
      assert s == s[..|s| - 1] + [s[|s| - 1]];
      if rest.None? then None
      else
        assert s[rest.value + 1..] == s[..|s| - 1][rest.value + 1..] + [s[|s| - 1]];
        Some(rest.value)
  }

  /** `local@domain.tld` split at the given '@' and '.' positions, as the pattern demands. */
  predicate EmailSplit(b: string, i: int, j: int) {
    && 0 < i && i + 1 < j && j + 3 <= |b|
    && Each(b[..i], LocalChar) && b[i] == '@'
    && Each(b[i + 1..j], DomainChar) && b[j] == '.'
    && Each(b[j + 1..], IsLetter)
  }

  /** The text matched by `[a-zA-Z0-9._%+-]+@[a-zA-Z0-9.-]+\.[a-zA-Z]{2,}`. */
  ghost predicate EmailBody(b: string) {
    exists i, j :: EmailSplit(b, i, j)
  }

  /** The domain after the '@': a last '.' with at least two letters after it and domain characters before. */
  predicate DomainOk(d: string) {
    var dot := LastIndexOf(d, '.');
    dot.Some? && dot.value > 0 && |d| - dot.value - 1 >= 2
    && Each(d[..dot.value], DomainChar) && Each(d[dot.value + 1..], IsLetter)
  }

  /** A deterministic matcher for the pattern: split at the first '@' and the last '.'. */
  predicate MatchEmailBody(b: string) {
    var at := IndexOf(b, '@');
    at.Some? && at.value > 0 && Each(b[..at.value], LocalChar) && DomainOk(b[at.value + 1..])
  }

  /** `validate_email`: `re.match(pattern, email) is not None`. */
  predicate ValidateEmail(email: string) {
    MatchEmailBody(email) || (|email| > 0 && email[|email| - 1] == '\n' && MatchEmailBody(email[..|email| - 1]))
  }

  /** An occurrence with no earlier one is the first. */
  lemma FirstAt(b: string, c: char, i: nat)
    requires i < |b| && b[i] == c && forall m :: 0 <= m < i ==> b[m] != c
    ensures IndexOf(b, c) == Some(i)
  {
    var at := IndexOf(b, c);
    assert at.Some?;
    assert forall m :: 0 <= m < at.value ==> b[m] != c by {
      forall m | 0 <= m < at.value ensures b[m] != c {
        assert b[..at.value][m] == b[m];
      }
    }
  }

  /** An '@' after a run of local characters is the first '@'. */
  lemma AtIsFirst(b: string, i: nat)
    requires i < |b| && b[i] == '@' && Each(b[..i], LocalChar)
    ensures IndexOf(b, '@') == Some(i)
  {
    assert forall m :: 0 <= m < i ==> b[m] != '@' by {
      forall m | 0 <= m < i ensures b[m] != '@' {
        assert LocalChar(b[..i][m]);
      }
    }
    FirstAt(b, '@', i);
  }

  /** A '.' followed only by letters is the last '.'. */
  lemma DotIsLast(d: string, k: nat)
    requires k < |d| && d[k] == '.' && Each(d[k + 1..], IsLetter)
    ensures LastIndexOf(d, '.') == Some(k)
  {
    assert forall m :: k < m < |d| ==> d[m] != '.' by {
      forall m | k < m < |d| ensures d[m] != '.' {
        assert IsLetter(d[k + 1..][m - k - 1]);
      }
    }
    var dot := LastIndexOf(d, '.');
    assert dot.Some?;
    assert forall m :: dot.value < m < |d| ==> d[m] != '.' by {
      forall m | dot.value < m < |d| ensures d[m] != '.' {
        assert d[dot.value + 1..][m - dot.value - 1] == d[m];
      }
    }
  }

  lemma MatchGivesSplit(b: string)
    requires MatchEmailBody(b)
    ensures EmailBody(b)
  {
    var i := IndexOf(b, '@').value;
    var d := b[i + 1..];
    var dot := LastIndexOf(d, '.').value;
    var j := i + 1 + dot;
    assert b[i + 1..j] == d[..dot];
    assert b[j + 1..] == d[dot + 1..];
    assert EmailSplit(b, i, j);
  }

  lemma SplitGivesMatch(b: string, i: int, j: int)
    requires EmailSplit(b, i, j)
    ensures MatchEmailBody(b)
  {
    AtIsFirst(b, i);
    var d := b[i + 1..];
    var k := j - i - 1;
    assert d[..k] == b[i + 1..j];
    assert d[k + 1..] == b[j + 1..];
    DomainAtDot(d, k);
  }

  /** A domain split at a '.' followed only by two or more letters is accepted. */
  lemma DomainAtDot(d: string, k: nat)
    requires 0 < k < |d| && d[k] == '.' && |d| - k - 1 >= 2
    requires Each(d[..k], DomainChar) && Each(d[k + 1..], IsLetter)
    ensures DomainOk(d)
  {
    DotIsLast(d, k);
  }

  /** Splitting at the first '@' and the last '.' finds a match whenever one exists. */
  lemma MatchEmailBodyIff(b: string)
    ensures MatchEmailBody(b) <==> EmailBody(b)
  {
    if MatchEmailBody(b) {
      MatchGivesSplit(b);
    }
    if EmailBody(b) {
      var i, j :| EmailSplit(b, i, j);
      SplitGivesMatch(b, i, j);
    }
  }

  /**
   * The pattern is simpler than the addr-spec of section 3.4.1 of RFC 5322:
   * it accepts consecutive dots in the local part, which a dot-atom forbids.
   */
  lemma EmailAcceptsDoubleDot()
    ensures ValidateEmail("a..b@example.com")
  {
    var good := "a..b@example.com";
    assert Each(good[..4], LocalChar);
    assert Each(good[5..12], DomainChar);
    assert Each(good[13..], IsLetter);
    SplitGivesMatch(good, 4, 12);
  }

  /** A non-local character before the first '@' rules out a match. */
  lemma LocalPartRejected(b: string, i: nat, m: nat)
    requires i < |b| && b[i] == '@' && (forall k :: 0 <= k < i ==> b[k] != '@')
    requires m < i && !LocalChar(b[m])
    ensures !MatchEmailBody(b)
  {
    FirstAt(b, '@', i);
    assert b[..i][m] == b[m];
  }

  /** It also rejects characters such as the apostrophe, which the atext of section 3.2.3 of RFC 5322 allows. */
  lemma EmailRejectsApostrophe(q: string)
    requires q == "o'neil@example.com"
    ensures !ValidateEmail(q)
  {
    LocalPartRejected(q, 6, 1);
    assert q[|q| - 1] == 'm';
  }

  // ---- sanitize_sneaker_name -------------------------------------------------------------

  /** `[\w\s-]`: the characters the first substitution keeps. */
  predicate NameChar(c: char) {
    IsWordChar(c) || IsSpace(c) || c == '-'
  }

  /** `re.sub(r'[^\w\s-]', '', name)` */
  function KeepNameChars(name: string): (r: string)
    ensures |r| <= |name|
    ensures forall i :: 0 <= i < |r| ==> NameChar(r[i])
    ensures |name| == 1 ==> r == if NameChar(name[0]) then name else []
  {
    if |name| == 0 then [] else (if NameChar(name[0]) then [name[0]] else []) + KeepNameChars(name[1..])
  }

  /**
   * Filtering a concatenation is filtering each part; with the one-character
   * case of `KeepNameChars`, every `NameChar` of the name is kept, in order,
   * and nothing else.
   */
  lemma {:induction false} KeepNameCharsAppend(a: string, b: string)
    ensures KeepNameChars(a + b) == KeepNameChars(a) + KeepNameChars(b)
    decreases |a|
  {
    if |a| == 0 {
      assert a + b == b;
    } else {
      assert (a + b)[0] == a[0] && (a + b)[1..] == a[1..] + b;
      KeepNameCharsAppend(a[1..], b);
    }
  }

  /** `re.sub(r'\s+', ' ', s)`: every maximal run of whitespace becomes one space. */
  function CollapseSpaces(s: string): string
    decreases |s|
  {
    if |s| == 0 then []
    else if IsSpace(s[0]) then
      TrimLeftSpec(s[1..]);
      " " + CollapseSpaces(TrimLeft(s[1..]))
    else [s[0]] + CollapseSpaces(s[1..])
  }

  /** `sanitize_sneaker_name`: drop other characters, collapse whitespace runs, strip. */
  function SanitizeSneakerName(name: string): string {
    Strip(CollapseSpaces(KeepNameChars(name)))
  }

  lemma {:induction false} CollapseWord(w: string, r: string)
    requires forall i :: 0 <= i < |w| ==> !IsSpace(w[i])
    ensures CollapseSpaces(w + r) == w + CollapseSpaces(r)
    decreases |w|
  {
    if |w| > 0 {
      CollapseWord(w[1..], r);
      assert (w + r)[1..] == w[1..] + r;
      assert w == [w[0]] + w[1..];
    } else {
      assert w + r == r;
    }
  }

  lemma {:induction false} WordsSkipSpaces(r: string)
    ensures Words(r) == Words(TrimLeft(r))
    decreases |r|
  {
    if |r| > 0 && IsSpace(r[0]) {
      WordsSkipSpaces(r[1..]);
    }
  }

  /** A whitespace gap collapses to one space before the rest, and contributes no word. */
  lemma CollapseGap(r: string)
    requires |r| > 0 && IsSpace(r[0])
    ensures CollapseSpaces(r) == " " + CollapseSpaces(TrimLeft(r))
    ensures Words(r) == Words(TrimLeft(r))
    ensures |TrimLeft(r)| < |r|
    ensures |TrimLeft(r)| > 0 ==> !IsSpace(TrimLeft(r)[0]) && TrimLeft(r)[|TrimLeft(r)| - 1] == r[|r| - 1]
    ensures |TrimLeft(r)| == 0 ==> IsSpace(r[|r| - 1])
  {
    TrimLeftSpec(r);
    TrimLeftSpec(r[1..]);
    WordsSkipSpaces(r);
  }

  lemma JoinCons(w: string, ws: seq<string>)
    requires |ws| > 0
    ensures Join([w] + ws, " ") == w + " " + Join(ws, " ")
  {
    assert ([w] + ws)[1..] == ws;
  }

  /** A string with no leading whitespace collapses to its words joined by spaces, plus one space if it ends in whitespace. */
  lemma {:induction false} CollapseShape(t: string)
    requires |t| == 0 || !IsSpace(t[0])
    ensures CollapseSpaces(t) == Join(Words(t), " ") + (if |t| > 0 && IsSpace(t[|t| - 1]) then " " else "")
    ensures |t| > 0 ==> |Words(t)| > 0
    decreases |t|
  {
    if |t| > 0 {
      var n := WordLen(t);
      var w := t[..n];
      var r := t[n..];
      assert t == w + r;
      CollapseWord(w, r);
      assert Words(t) == [w] + Words(r);
      if |r| == 0 {
        assert t == w;
      } else {
        assert t[|t| - 1] == r[|r| - 1];
        CollapseGap(r);
        var r' := TrimLeft(r);
        if |r'| == 0 {
          assert CollapseSpaces(r') == [];
          assert Words(r') == [];
          assert [w] + Words(r') == [w];
        } else {
          CollapseShape(r');
          var tail := if IsSpace(r'[|r'| - 1]) then " " else "";
          JoinConsTail(w, Words(r'), tail);
        }
      }
    }
  }

  lemma JoinConsTail(w: string, ws: seq<string>, tail: string)
    requires |ws| > 0
    ensures w + (" " + (Join(ws, " ") + tail)) == Join([w] + ws, " ") + tail
  {
    JoinCons(w, ws);
    Regroup(w, Join(ws, " "), tail);
  }

  lemma Regroup(w: string, j: string, tail: string)
    ensures w + (" " + (j + tail)) == (w + " " + j) + tail
  {
  }

  lemma TrimLeftSpaceThen(m: string)
    ensures TrimLeft(" " + m) == TrimLeft(m)
  {
    assert (" " + m)[1..] == m;
  }

  lemma {:induction false} TrimRightThenSpace(m: string)
    ensures TrimRight(m + " ") == TrimRight(m)
  {
    assert (m + " ")[..|m|] == m;
  }

  /** Collapsing whitespace runs and stripping gives exactly `' '.join(s.split())`. */
  lemma StripCollapseIsClean(s: string)
    ensures Strip(CollapseSpaces(s)) == CleanWhitespace(s)
  {
    TrimLeftSpec(s);
    var t := TrimLeft(s);
    WordsSkipSpaces(s);
    CollapseShape(t);
    var j := Join(Words(t), " ");
    JoinNormalised(Words(t));
    if |s| > 0 && IsSpace(s[0]) {
      TrimLeftSpec(s[1..]);
      assert t == TrimLeft(s[1..]);
      assert CollapseSpaces(s) == " " + CollapseSpaces(t);
      TrimLeftSpaceThen(CollapseSpaces(t));
    } else {
      assert t == s;
    }
    // Both branches leave TrimLeft(CollapseSpaces(s)) == TrimLeft(CollapseSpaces(t)).
    if |t| == 0 {
      assert CollapseSpaces(t) == [];
    } else {
      assert |j| > 0 && !IsSpace(j[0]);
      if IsSpace(t[|t| - 1]) {
        assert CollapseSpaces(t) == j + " ";
        assert TrimLeft(j + " ") == j + " " by {
          assert (j + " ")[0] == j[0];
        }
        TrimRightThenSpace(j);
      } else {
        assert CollapseSpaces(t) == j + "";
        assert j + "" == j;
      }
    }
  }

  /** The sanitised name is the cleaned text of the kept characters: normalised, and made of name characters and single spaces only. */
  lemma SanitizeSneakerNameShape(name: string)
    ensures SanitizeSneakerName(name) == CleanWhitespace(KeepNameChars(name))
    ensures Normalised(SanitizeSneakerName(name))
    ensures NonSpace(SanitizeSneakerName(name)) == NonSpace(KeepNameChars(name))
  {
    StripCollapseIsClean(KeepNameChars(name));
    CleanWhitespaceNormalised(KeepNameChars(name));
    CleanWhitespaceKeepsContent(KeepNameChars(name));
  }
}
