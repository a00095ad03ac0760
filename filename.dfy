// File names derived from user or model text in the older runtime: the input is trimmed, every
// maximal run of characters outside [A-Za-z0-9._-] becomes one "_", and an empty result
// becomes "file".

module Filename {
  import JsBuiltins

  /** A character the file name may keep: `[a-zA-Z0-9._-]`. */
  predicate IsSafe(c: char)
  {
    ('a' <= c <= 'z') || ('A' <= c <= 'Z') || ('0' <= c <= '9') || c == '.' || c == '_' || c == '-'
  }

  predicate AllSafe(s: string)
  {
    forall i :: 0 <= i < |s| ==> IsSafe(s[i])
  }

  /** The input with its leading run of unsafe characters removed. */
  function DropUnsafe(s: string): (r: string)
    ensures |r| <= |s| && r == s[|s| - |r|..]
    ensures r == [] || IsSafe(r[0])
    ensures forall i :: 0 <= i < |s| - |r| ==> !IsSafe(s[i])
  {
    if s != [] && !IsSafe(s[0]) then
      var r := DropUnsafe(s[1..]);
      assert s[1..][|s| - 1 - |r|..] == s[|s| - |r|..];
      assert forall i :: 1 <= i < |s| - |r| ==> s[i] == s[1..][i - 1];
      r
    else s
  }

  /** `s.replace(/[^a-zA-Z0-9._-]+/g, "_")`: left to right, a safe character is kept and a
      maximal run of unsafe ones becomes a single "_". */
  function ReplaceUnsafeRuns(s: string): (r: string)
    ensures AllSafe(r)
    ensures |r| <= |s|
    decreases |s|
  {
    if s == [] then []
    else if IsSafe(s[0]) then [s[0]] + ReplaceUnsafeRuns(s[1..])
    else "_" + ReplaceUnsafeRuns(DropUnsafe(s[1..]))
  }

  /** `sanitizeFilename`. */
  function SanitizeFilename(input: string): (r: string)
    ensures r != [] && AllSafe(r)
  {
    var safe := ReplaceUnsafeRuns(JsBuiltins.Trim(input));
    if |safe| > 0 then safe else "file"
  }

  /** A string of safe characters passes the replacement unchanged. */
  lemma {:induction false} ReplaceKeepsSafe(s: string)
    requires AllSafe(s)
    ensures ReplaceUnsafeRuns(s) == s
  {
    if s != [] {
      assert IsSafe(s[0]);
      ReplaceKeepsSafe(s[1..]);
    }
  }

  /** A maximal run of unsafe characters, followed by a safe character or the end, turns into
      exactly one "_" in front of the replacement of the rest. */
  lemma {:induction false} UnsafeRunBecomesOneUnderscore(run: string, rest: string)
    requires run != [] && forall i :: 0 <= i < |run| ==> !IsSafe(run[i])
    requires rest == [] || IsSafe(rest[0])
    ensures ReplaceUnsafeRuns(run + rest) == "_" + ReplaceUnsafeRuns(rest)
  {
    var s := run + rest;
    assert s[1..] == run[1..] + rest;
    DropUnsafeRun(run[1..], rest);
  }

  lemma {:induction false} DropUnsafeRun(run: string, rest: string)
    requires forall i :: 0 <= i < |run| ==> !IsSafe(run[i])
    requires rest == [] || IsSafe(rest[0])
    ensures DropUnsafe(run + rest) == rest
  {
    if run == [] {
      assert run + rest == rest;
    } else {
      assert (run + rest)[0] == run[0];
      assert (run + rest)[1..] == run[1..] + rest;
      DropUnsafeRun(run[1..], rest);
    }
  }

  /** A safe character is kept in place. */
  lemma SafeCharKept(c: char, rest: string)
    requires IsSafe(c)
    ensures ReplaceUnsafeRuns([c] + rest) == [c] + ReplaceUnsafeRuns(rest)
  {
    assert ([c] + rest)[1..] == rest;
  }

  /** Input that is blank after trimming yields "file". */
  lemma BlankIsFile(input: string)
    requires forall i :: 0 <= i < |input| ==> JsBuiltins.IsJsWhitespace(input[i])
    ensures SanitizeFilename(input) == "file"
  {
    JsBuiltins.TrimOfAllWhitespace(input);
  }

  /** A safe character is never whitespace. */
  lemma SafeIsNotWhitespace(s: string)
    requires AllSafe(s)
    ensures JsBuiltins.NoWhitespace(s)
  {
    forall i | 0 <= i < |s| ensures !JsBuiltins.IsJsWhitespace(s[i]) {
      assert IsSafe(s[i]);
    }
  }

  /** A non-empty string of safe characters is its own file name. */
  lemma SafeNameUnchanged(input: string)
    requires input != [] && AllSafe(input)
    ensures SanitizeFilename(input) == input
  {
    SafeIsNotWhitespace(input);
    JsBuiltins.TrimOfNoWhitespace(input);
    ReplaceKeepsSafe(input);
  }

  /** Sanitizing twice gives the same name as sanitizing once. */
  lemma SanitizeIdempotent(input: string)
    ensures SanitizeFilename(SanitizeFilename(input)) == SanitizeFilename(input)
  {
    SafeNameUnchanged(SanitizeFilename(input));
  }
}
