/**
 * The two ways the extraction handlers salvage a JSON candidate from the AI's
 * free text before handing it to `JSON.parse`.
 *
 * Brace-substring: the text from the first `{` through the last `}`, computed with
 * `indexOf`, `lastIndexOf` + 1 and `substring`, so that absent braces and reversed
 * bounds follow `substring`'s clamping and swapping.
 *
 * Fence-stripping: every "```json" removed, then every "```", then `trim`.
 */
module Recovery {
  import opened Js

  const Fence: string := "```"
  const JsonFence: string := "```json"

  /** The brace-substring candidate. */
  function BraceCandidate(text: string): (r: string)
    ensures |r| <= |text|
  {
    var startIndex := IndexOf(text, '{');
    var endIndex := LastIndexOf(text, '}') + 1;
    Substring(text, startIndex, endIndex)
  }

  /** When the first `{` comes before the last `}`, the candidate is exactly the span between them, inclusive. */
  lemma BraceSpan(text: string, i: int, j: int)
    requires FirstAt(text, '{', i) && LastAt(text, '}', j) && i < j
    ensures BraceCandidate(text) == text[i..j + 1]
    ensures BraceCandidate(text)[0] == '{' && BraceCandidate(text)[j - i] == '}'
  {
    IndexOfFirst(text, '{', i);
    LastIndexOfLast(text, '}', j);
  }

  /** Recovering again from a span candidate gives the same candidate. */
  lemma BraceSpanIdempotent(text: string, i: int, j: int)
    requires FirstAt(text, '{', i) && LastAt(text, '}', j) && i < j
    ensures BraceCandidate(BraceCandidate(text)) == BraceCandidate(text)
  {
    BraceSpan(text, i, j);
    var c := text[i..j + 1];
    assert c[..0] == [];
    assert c[j - i + 1..] == [];
    BraceSpan(c, 0, j - i);
  }

  /** With no brace at all, both bounds come out as 0 and the candidate is empty. */
  lemma BraceNone(text: string)
    requires '{' !in text && '}' !in text
    ensures BraceCandidate(text) == ""
  {
  }

  /**
   * With a `{` but no `}`, the end bound is 0, `substring` swaps the bounds, and the
   * candidate is the text before the first `{`, which holds no `{`.
   */
  lemma BraceOpenOnly(text: string, i: int)
    requires FirstAt(text, '{', i) && '}' !in text
    ensures BraceCandidate(text) == text[..i]
    ensures '{' !in BraceCandidate(text)
  {
    IndexOfFirst(text, '{', i);
  }

  /** With a `}` but no `{`, the start bound -1 is clamped to 0: the candidate is everything through the last `}`. */
  lemma BraceCloseOnly(text: string, j: int)
    requires '{' !in text && LastAt(text, '}', j)
    ensures BraceCandidate(text) == text[..j + 1]
  {
    LastIndexOfLast(text, '}', j);
  }

  /** When the last `}` comes before the first `{`, the bounds are swapped: the candidate lies strictly between them. */
  lemma BraceReversed(text: string, i: int, j: int)
    requires FirstAt(text, '{', i) && LastAt(text, '}', j) && j < i
    ensures BraceCandidate(text) == text[j + 1..i]
  {
    IndexOfFirst(text, '{', i);
    LastIndexOfLast(text, '}', j);
  }

  /**
   * Prose before the object and a trailer after it are both dropped, provided the
   * prose holds no `{` and the trailer no `}`: recovery from the wrapped text equals
   * recovery from the bare object, which is the object itself.
   */
  lemma BraceIgnoresWrapping(prose: string, obj: string, trailer: string)
    requires '{' !in prose && '}' !in trailer
    requires |obj| >= 2 && obj[0] == '{' && obj[|obj| - 1] == '}'
    ensures BraceCandidate(prose + obj + trailer) == BraceCandidate(obj) == obj
  {
    var text := prose + obj + trailer;
    var i, j := |prose|, |prose| + |obj| - 1;
    assert text[..i] == prose;
    assert text[j + 1..] == trailer;
    BraceSpan(text, i, j);
    assert text[i..j + 1] == obj;
    assert obj[..0] == [] && obj[|obj|..] == [];
    BraceSpan(obj, 0, |obj| - 1);
  }

  /** The fence-stripped candidate. */
  function StripFences(text: string): (r: string)
    ensures !Occurs(Fence, r)
    ensures Trimmed(r)
  {
    var noJsonFence := RemoveAll(text, JsonFence);
    var noFence := RemoveAll(noJsonFence, Fence);
    FenceFree(noJsonFence);
    TrimKeepsAbsence(Fence, noFence);
    Trim(noFence)
  }

  /** A backtick that survives removal of "```" was a backtick in the input, at the same place. */
  lemma LeadingTickSurvives(t: string)
    requires |RemoveAll(t, Fence)| >= 1 && RemoveAll(t, Fence)[0] == '`'
    ensures |t| >= 1 && t[0] == '`'
  {
  }

  /** Two leading backticks after removal of "```" were two leading backticks before it. */
  lemma LeadingTicksSurvive(t: string)
    requires |RemoveAll(t, Fence)| >= 2
    requires RemoveAll(t, Fence)[0] == '`' && RemoveAll(t, Fence)[1] == '`'
    ensures |t| >= 2 && t[0] == '`' && t[1] == '`'
  {
    if !(Fence <= t) {
      assert RemoveAll(t, Fence) == [t[0]] + RemoveAll(t[1..], Fence);
      LeadingTickSurvives(t[1..]);
    }
  }

  /** Removing every "```" leaves no "```": the scan never joins backticks across a removed fence. */
  lemma {:induction false} FenceFree(s: string)
    ensures !Occurs(Fence, RemoveAll(s, Fence))
    decreases |s|
  {
    if s == [] {
    } else if Fence <= s {
      FenceFree(s[3..]);
    } else {
      var rest := RemoveAll(s[1..], Fence);
      FenceFree(s[1..]);
      var r := [s[0]] + rest;
      assert r[1..] == rest;
      if Fence <= r {
        LeadingTicksSurvive(s[1..]);
      }
    }
  }

  /** A piece of a string holds no occurrence the whole string lacks. */
  lemma {:induction false} PrefixKeepsAbsence(pat: string, s: string, n: nat)
    requires n <= |s| && !Occurs(pat, s)
    ensures !Occurs(pat, s[..n])
    decreases |s|
  {
    if s != [] {
      if n > 0 {
        PrefixKeepsAbsence(pat, s[1..], n - 1);
        assert s[..n][1..] == s[1..][..n - 1];
      }
    }
  }

  lemma {:induction false} TrimStartKeepsAbsence(pat: string, s: string)
    requires !Occurs(pat, s)
    ensures !Occurs(pat, TrimStart(s))
    decreases |s|
  {
    if s != [] && IsSpace(s[0]) {
      TrimStartKeepsAbsence(pat, s[1..]);
    }
  }

  lemma TrimKeepsAbsence(pat: string, s: string)
    requires !Occurs(pat, s)
    ensures !Occurs(pat, Trim(s))
  {
    TrimStartKeepsAbsence(pat, s);
    var t := TrimStart(s);
    PrefixKeepsAbsence(pat, t, |TrimEnd(t)|);
  }

  /** Removing a pattern that does not occur changes nothing. */
  lemma {:induction false} RemoveAbsent(s: string, pat: string)
    requires pat != [] && !Occurs(pat, s)
    ensures RemoveAll(s, pat) == s
    decreases |s|
  {
    if s != [] {
      RemoveAbsent(s[1..], pat);
    }
  }

  /** A string with no "```" has no "```json" either. */
  lemma {:induction false} NoFenceNoJsonFence(s: string)
    requires !Occurs(Fence, s)
    ensures !Occurs(JsonFence, s)
    decreases |s|
  {
    if s != [] {
      NoFenceNoJsonFence(s[1..]);
    }
  }

  /** A trimmed string is its own trim. */
  lemma TrimTrimmed(s: string)
    requires Trimmed(s)
    ensures Trim(s) == s
  {
  }

  /** Fence-stripping its own output changes nothing. */
  lemma StripFencesIdempotent(text: string)
    ensures StripFences(StripFences(text)) == StripFences(text)
  {
    var x := StripFences(text);
    NoFenceNoJsonFence(x);
    RemoveAbsent(x, JsonFence);
    RemoveAbsent(x, Fence);
    TrimTrimmed(x);
  }

  /** No backtick occurs in a string that holds no backtick character. */
  lemma {:induction false} NoTickNoOccurrence(s: string, pat: string)
    requires pat != [] && pat[0] == '`' && '`' !in s
    ensures !Occurs(pat, s)
    decreases |s|
  {
    if s != [] {
      NoTickNoOccurrence(s[1..], pat);
    }
  }

  /** Text without backticks and without surrounding white space passes through unchanged. */
  lemma StripFencesIdentity(text: string)
    requires '`' !in text && Trimmed(text)
    ensures StripFences(text) == text
  {
    NoTickNoOccurrence(text, JsonFence);
    NoTickNoOccurrence(text, Fence);
    RemoveAbsent(text, JsonFence);
    RemoveAbsent(text, Fence);
    TrimTrimmed(text);
  }

  /** A pattern longer than the string does not occur in it. */
  lemma {:induction false} TooShortToOccur(s: string, pat: string)
    requires |s| < |pat|
    ensures !Occurs(pat, s)
    decreases |s|
  {
    if s != [] {
      TooShortToOccur(s[1..], pat);
    }
  }

  /** Characters before the first backtick are kept as they are by either removal. */
  lemma {:induction false} RemoveAllSkipsPlain(a: string, b: string, pat: string)
    requires pat != [] && pat[0] !in a
    ensures RemoveAll(a + b, pat) == a + RemoveAll(b, pat)
    decreases |a|
  {
    if a == [] {
      assert a + b == b;
    } else {
      assert (a + b)[0] == a[0];
      assert (a + b)[1..] == a[1..] + b;
      RemoveAllSkipsPlain(a[1..], b, pat);
    }
  }

  /**
   * Fenced output with prose around it: the fences go but the prose stays, so
   * "Sure! ```json" + body + "```" becomes the trim of "Sure! " + body.
   */
  lemma StripFencesKeepsProse(prose: string, body: string)
    requires '`' !in prose && '`' !in body
    ensures StripFences(prose + JsonFence + body + Fence) == Trim(prose + body)
  {
    var text := prose + JsonFence + body + Fence;
    // First pass: the single "```json" is removed, the closing "```" is too short to match.
    assert text == prose + (JsonFence + body + Fence);
    RemoveAllSkipsPlain(prose, JsonFence + body + Fence, JsonFence);
    assert (JsonFence + body + Fence)[|JsonFence|..] == body + Fence;
    RemoveAllSkipsPlain(body, Fence, JsonFence);
    TooShortToOccur(Fence, JsonFence);
    RemoveAbsent(Fence, JsonFence);
    var first := prose + body + Fence;
    assert RemoveAll(text, JsonFence) == first;
    // Second pass: the closing "```" is removed.
    assert first == (prose + body) + Fence;
    RemoveAllSkipsPlain(prose + body, Fence, Fence);
    assert Fence[|Fence|..] == [];
    assert RemoveAll(Fence, Fence) == [];
    assert RemoveAll(first, Fence) == prose + body;
  }

  /** A single trailing newline is all that `trim` removes from text with non-blank ends. */
  lemma TrimOneNewline(kept: string)
    requires kept != [] && !IsSpace(kept[0]) && !IsSpace(kept[|kept| - 1])
    ensures Trim(kept + ['\n']) == kept
  {
    var s := kept + ['\n'];
    assert TrimStart(s) == s;
    assert s[..|s| - 1] == kept;
  }

  /** A fenced reply with nothing around the fences comes back as the bare text inside them. */
  lemma FencesAloneStripped(obj: string)
    requires '`' !in obj && Trimmed(obj)
    ensures StripFences(JsonFence + obj + Fence) == obj
  {
    var none: string := [];
    StripFencesKeepsProse(none, obj);
    assert none + JsonFence == JsonFence;
    assert none + obj == obj;
    TrimTrimmed(obj);
  }

  /**
   * A reply of the form prose + "```json\n" + object + "\n```" becomes prose + "\n" + object:
   * the fences go, the prose before them stays in the candidate.
   */
  lemma FencedReplyKeepsProse(prose: string, obj: string)
    requires '`' !in prose && '`' !in obj
    requires prose != [] && !IsSpace(prose[0])
    requires obj != [] && !IsSpace(obj[|obj| - 1])
    ensures StripFences(prose + JsonFence + "\n" + obj + "\n" + Fence) == prose + "\n" + obj
  {
    var body := "\n" + obj + "\n";
    var kept := prose + "\n" + obj;
    FencedShape(prose, obj);
    StripFencesKeepsProse(prose, body);
    TrimOneNewline(kept);
  }

  /** How the reply of `FencedReplyKeepsProse` splits into prose, fences and body. */
  lemma FencedShape(prose: string, obj: string)
    ensures prose + JsonFence + "\n" + obj + "\n" + Fence == prose + JsonFence + ("\n" + obj + "\n") + Fence
    ensures prose + ("\n" + obj + "\n") == (prose + "\n" + obj) + ['\n']
  {
  }

  /** The reply "Sure! ```json\n{...}\n```" under brace recovery: the prose and the fences are both dropped. */
  lemma BracedProseExample(text: string)
    requires text == "Sure! ```json\n{\"vendor\":{}}\n```"
    ensures BraceCandidate(text) == "{\"vendor\":{}}"
  {
    var prose, obj, trailer := "Sure! ```json\n", "{\"vendor\":{}}", "\n```";
    assert text == prose + obj + trailer;
    BraceIgnoresWrapping(prose, obj, trailer);
  }
}
