/** `sanitize_filename` of api/helpers.py: the file name an output image is
    logged under, the current date followed by a dash and the first ten
    characters of the prompt with every non-alphanumeric character replaced
    by an underscore. The clock is a parameter: the formatted date. */
module ApiHelpers {
  import opened Common

  /** `str.isalnum()` on one character, for ASCII letters and digits. */
  predicate IsAlnum(c: char)
  {
    'a' <= c <= 'z' || 'A' <= c <= 'Z' || '0' <= c <= '9'
  }

  /** `"".join(c if c.isalnum() else "_" for c in prompt)`. */
  function Sanitized(prompt: string): (s: string)
    ensures |s| == |prompt|
    ensures forall i :: 0 <= i < |s| ==> IsAlnum(s[i]) || s[i] == '_'
  {
    if prompt == [] then []
    else [if IsAlnum(prompt[0]) then prompt[0] else '_'] + Sanitized(prompt[1..])
  }

  /** Character i of the sanitised prompt is prompt[i] when that is
      alphanumeric and an underscore otherwise. */
  lemma {:induction false} SanitizedPositions(prompt: string)
    ensures forall i :: 0 <= i < |prompt| ==>
              Sanitized(prompt)[i] == if IsAlnum(prompt[i]) then prompt[i] else '_'
  {
    if prompt != [] {
      SanitizedPositions(prompt[1..]);
      forall i | 0 <= i < |prompt|
        ensures Sanitized(prompt)[i] == if IsAlnum(prompt[i]) then prompt[i] else '_'
      {
        if i > 0 {
          assert Sanitized(prompt)[i] == Sanitized(prompt[1..])[i - 1];
          assert prompt[i] == prompt[1..][i - 1];
        }
      }
    }
  }

  /** Longest suffix taken from the prompt. */
  const SuffixLength: nat := 10

  /** `date + "-" + sanitised[:10]`. */
  function SanitizeFilename(date: string, prompt: string): (name: string)
    ensures |name| == |date| + 1 + Min(SuffixLength, |prompt|)
    ensures name[..|date|] == date && name[|date|] == '-'
  {
    var s := Sanitized(prompt);
    date + "-" + s[..Min(SuffixLength, |s|)]
  }

  /** The suffix after the date and the dash: at most ten characters, each
      an alphanumeric character of the prompt in its own position or an
      underscore in place of any other character. */
  lemma SanitizeFilenameSuffix(date: string, prompt: string)
    ensures var name := SanitizeFilename(date, prompt);
      forall i :: 0 <= i < Min(SuffixLength, |prompt|) ==>
        && (IsAlnum(name[|date| + 1 + i]) || name[|date| + 1 + i] == '_')
        && name[|date| + 1 + i] == if IsAlnum(prompt[i]) then prompt[i] else '_'
  {
    SanitizedPositions(prompt);
    var name := SanitizeFilename(date, prompt);
    var s := Sanitized(prompt);
    forall i | 0 <= i < Min(SuffixLength, |prompt|)
      ensures name[|date| + 1 + i] == s[i]
    {
      assert name == date + "-" + s[..Min(SuffixLength, |s|)];
    }
  }

  /** A prompt of letters and digits keeps its first ten characters. */
  lemma SanitizeFilenameKeepsAlnum(date: string, prompt: string)
    requires forall i :: 0 <= i < |prompt| ==> IsAlnum(prompt[i])
    ensures SanitizeFilename(date, prompt) == date + "-" + prompt[..Min(SuffixLength, |prompt|)]
  {
    SanitizedPositions(prompt);
    assert Sanitized(prompt) == prompt;
  }
}
