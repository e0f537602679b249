/**
 * The text-processing helpers of utils/helper_functions.py:
 * `clean_whitespace` and `truncate_string`.
 */
module HelperText {
  import opened Text

  // ---- clean_whitespace --------------------------------------------------------

  /** `' '.join(text.split())` */
  function CleanWhitespace(text: string): (r: string) {
    Join(Words(text), " ")
  }

  /** The non-whitespace characters of `s`, in order. */
  function NonSpace(s: string): (r: string)
    ensures |r| <= |s|
    ensures forall i :: 0 <= i < |r| ==> !IsSpace(r[i])
  {
    if |s| == 0 then [] else (if IsSpace(s[0]) then [] else [s[0]]) + NonSpace(s[1..])
  }

  /** `''.join(ws)` */
  function Concat(ws: seq<string>): string {
    if |ws| == 0 then [] else ws[0] + Concat(ws[1..])
  }

  /** No whitespace at either end and no two whitespace characters in a row; every whitespace is ' '. */
  predicate Normalised(m: string) {
    && (|m| > 0 ==> !IsSpace(m[0]) && !IsSpace(m[|m| - 1]))
    && (forall i :: 0 <= i < |m| && IsSpace(m[i]) ==> m[i] == ' ')
    && (forall i :: 0 <= i < |m| - 1 ==> !(IsSpace(m[i]) && IsSpace(m[i + 1])))
  }

  predicate AllWords(ws: seq<string>) {
    forall k :: 0 <= k < |ws| ==> IsWord(ws[k])
  }

  lemma {:induction false} NonSpaceAppend(a: string, b: string)
    ensures NonSpace(a + b) == NonSpace(a) + NonSpace(b)
    decreases |a|
  {
    if |a| > 0 {
      NonSpaceAppend(a[1..], b);
      assert (a + b)[1..] == a[1..] + b;
    } else {
      assert a + b == b;
    }
  }

  lemma {:induction false} NonSpaceOfNonSpace(w: string)
    requires forall i :: 0 <= i < |w| ==> !IsSpace(w[i])
    ensures NonSpace(w) == w
    decreases |w|
  {
    if |w| > 0 {
      NonSpaceOfNonSpace(w[1..]);
    }
  }

  /** Splitting keeps every non-whitespace character, in order. */
  lemma {:induction false} NonSpaceIsConcatOfWords(t: string)
    ensures NonSpace(t) == Concat(Words(t))
    decreases |t|
  {
    if |t| > 0 {
      if IsSpace(t[0]) {
        NonSpaceIsConcatOfWords(t[1..]);
      } else {
        var n := WordLen(t);
        NonSpaceIsConcatOfWords(t[n..]);
        assert t == t[..n] + t[n..];
        NonSpaceAppend(t[..n], t[n..]);
        NonSpaceOfNonSpace(t[..n]);
      }
    }
  }

  /** Joining words with single spaces loses no character of the words. */
  lemma {:induction false} NonSpaceOfJoin(ws: seq<string>)
    requires AllWords(ws)
    ensures NonSpace(Join(ws, " ")) == Concat(ws)
    decreases |ws|
  {
    if |ws| == 1 {
      NonSpaceOfNonSpace(ws[0]);
      assert Concat(ws) == ws[0] + [];
    } else if |ws| > 1 {
      NonSpaceOfJoin(ws[1..]);
      var rest := Join(ws[1..], " ");
      assert Join(ws, " ") == ws[0] + (" " + rest);
      NonSpaceAppend(ws[0], " " + rest);
      NonSpaceOfNonSpace(ws[0]);
      NonSpaceSkipsSpace(rest);
    }
  }

  lemma NonSpaceSkipsSpace(rest: string)
    ensures NonSpace(" " + rest) == NonSpace(rest)
  {
    assert (" " + rest)[1..] == rest;
  }

  /** `clean_whitespace` keeps exactly the non-whitespace characters of its input, in order. */
  lemma CleanWhitespaceKeepsContent(text: string)
    ensures NonSpace(CleanWhitespace(text)) == NonSpace(text)
  {
    NonSpaceIsConcatOfWords(text);
    NonSpaceOfJoin(Words(text));
  }

  lemma {:induction false} WordLenBeforeSpace(w: string, r: string)
    requires IsWord(w) && (|r| == 0 || IsSpace(r[0]))
    ensures WordLen(w + r) == |w|
    decreases |w|
  {
    if |w| > 1 {
      assert (w + r)[1..] == w[1..] + r;
      WordLenBeforeSpace(w[1..], r);
    } else {
      assert (w + r)[1..] == r;
    }
  }

  /** A word followed by whitespace (or nothing) splits off as the first word. */
  lemma WordsOfWordThen(w: string, r: string)
    requires IsWord(w) && (|r| == 0 || IsSpace(r[0]))
    ensures Words(w + r) == [w] + Words(r)
  {
    WordLenBeforeSpace(w, r);
    assert (w + r)[..|w|] == w;
    assert (w + r)[|w|..] == r;
  }

  /** Splitting words joined by single spaces gives the words back. */
  lemma {:induction false} WordsOfJoin(ws: seq<string>)
    requires AllWords(ws)
    ensures Words(Join(ws, " ")) == ws
    decreases |ws|
  {
    if |ws| == 1 {
      WordsOfWordThen(ws[0], "");
      assert ws[0] + "" == ws[0];
    } else if |ws| > 1 {
      var rest := Join(ws[1..], " ");
      WordsOfJoin(ws[1..]);
      assert Join(ws, " ") == ws[0] + (" " + rest);
      WordsOfWordThen(ws[0], " " + rest);
      assert (" " + rest)[1..] == rest;
    }
  }

  /** Cleaning twice is cleaning once. */
  lemma CleanWhitespaceIdempotent(text: string)
    ensures CleanWhitespace(CleanWhitespace(text)) == CleanWhitespace(text)
  {
    WordsOfJoin(Words(text));
  }

  /** Words joined by single spaces form a normalised string. */
  lemma {:induction false} JoinNormalised(ws: seq<string>)
    requires AllWords(ws)
    ensures Normalised(Join(ws, " "))
    ensures |ws| > 0 ==> |Join(ws, " ")| > 0
    decreases |ws|
  {
    if |ws| > 1 {
      JoinNormalised(ws[1..]);
      var w := ws[0];
      var rest := Join(ws[1..], " ");
      var m := Join(ws, " ");
      assert m == w + " " + rest;
      forall i | 0 <= i < |m| - 1 ensures !(IsSpace(m[i]) && IsSpace(m[i + 1])) {
        if i < |w| - 1 {
          assert m[i] == w[i];
        } else if i == |w| - 1 {
          assert m[i] == w[i];
        } else if i == |w| {
          assert m[i + 1] == rest[0];
        } else {
          assert m[i] == rest[i - |w| - 1] && m[i + 1] == rest[i - |w|];
        }
      }
      forall i | 0 <= i < |m| && IsSpace(m[i]) ensures m[i] == ' ' {
        if i > |w| {
          assert m[i] == rest[i - |w| - 1];
        }
      }
      assert m[|m| - 1] == rest[|rest| - 1];
    }
  }

  /** `clean_whitespace` leaves no whitespace at the ends and only single spaces inside. */
  lemma CleanWhitespaceNormalised(text: string)
    ensures Normalised(CleanWhitespace(text))
  {
    JoinNormalised(Words(text));
  }

  // ---- truncate_string ---------------------------------------------------------------

  /** Python's `s[:k]`: a negative bound counts from the end, and the bound is clamped to the string. */
  function PyPrefix(s: string, k: int): (r: string)
    ensures 0 <= k ==> r == s[..if k < |s| then k else |s|]
    ensures k < 0 ==> r == s[..if |s| + k > 0 then |s| + k else 0]
  {
    if k >= 0 then s[..if k < |s| then k else |s|]
    else s[..if |s| + k > 0 then |s| + k else 0]
  }

  /**
   * `truncate_string` as written: text within the limit is returned as is;
   * otherwise the first `max_length - len(suffix)` characters plus the suffix.
   */
  function TruncateAsWritten(text: string, maxLength: int, suffix: string): (r: string)
    ensures |text| <= maxLength ==> r == text
    ensures |text| > maxLength >= |suffix| ==>
              |r| == maxLength && r == text[..maxLength - |suffix|] + suffix
  {
    if |text| <= maxLength then text else PyPrefix(text, maxLength - |suffix|) + suffix
  }

  /**
   * With a limit below the suffix length the slice bound is negative and
   * counts from the end, so the "truncated" text is longer than the input.
   */
  lemma TruncateAsWrittenGrows()
    ensures TruncateAsWritten("abcdef", 2, "...") == "abcde..."
    ensures |TruncateAsWritten("abcdef", 2, "...")| > |"abcdef"|
  {
    assert PyPrefix("abcdef", -1) == "abcde";
  }

  /** `truncate_string` with the slice bound kept non-negative and the result kept within the limit. */
  function Truncate(text: string, maxLength: int, suffix: string): (r: string)
    ensures |text| <= maxLength ==> r == text
    ensures |text| > maxLength >= |suffix| ==>
              |r| == maxLength && r == text[..maxLength - |suffix|] + suffix
    ensures |text| > maxLength ==> |r| <= if maxLength > 0 then maxLength else 0
    ensures |r| <= |text|
  {
    if |text| <= maxLength then text
    else if maxLength >= |suffix| then text[..maxLength - |suffix|] + suffix
    else suffix[..if maxLength > 0 then maxLength else 0]
  }

  /** Wherever the written version keeps its promise, the corrected one agrees with it. */
  lemma TruncateAgrees(text: string, maxLength: int, suffix: string)
    requires |text| <= maxLength || maxLength >= |suffix|
    ensures Truncate(text, maxLength, suffix) == TruncateAsWritten(text, maxLength, suffix)
  {
  }
}
