/** Letters: what the round engine does to a single string — normalising a
    submission, finding a letter in the base word, and the letter-multiset
    rule that decides whether a word can be built from the base word. */
module Letters {

  datatype Option<T> = None | Some(value: T)

  // ---------------------------------------------------------------------
  // Normalisation: lowercased().trimmingCharacters(in: .whitespacesAndNewlines)
  // ---------------------------------------------------------------------

  predicate IsUpper(c: char) {
    'A' <= c <= 'Z'
  }

  /** ASCII approximation of lowercasing one character. */
  function LowerChar(c: char): (d: char)
    ensures !IsUpper(d)
    ensures IsUpper(c) ==> d as int == c as int + 32
    ensures !IsUpper(c) ==> d == c
  {
    if IsUpper(c) then (c as int + 32) as char else c
  }

  predicate NoUpper(s: string) {
    forall i :: 0 <= i < |s| ==> !IsUpper(s[i])
  }

  function Lower(s: string): (r: string)
    ensures |r| == |s|
    ensures NoUpper(r)
    ensures forall i :: 0 <= i < |s| ==> r[i] == LowerChar(s[i])
  {
    seq(|s|, i requires 0 <= i < |s| => LowerChar(s[i]))
  }

  /** An approximation of CharacterSet.whitespacesAndNewlines: the Unicode
      space separators (general category Zs) together with U+200B, the line
      and paragraph separators, the controls U+0009 to U+000D, and U+0085. */
  predicate IsWhitespace(c: char) {
    c == ' ' || '\t' <= c <= '\r' || c == '\U{85}' || c == '\U{A0}' ||
    c == '\U{1680}' || '\U{2000}' <= c <= '\U{200B}' ||
    c == '\U{2028}' || c == '\U{2029}' || c == '\U{202F}' ||
    c == '\U{205F}' || c == '\U{3000}'
  }

  /** Drops the longest whitespace prefix. */
  function TrimStart(s: string): (r: string) {
    if s != [] && IsWhitespace(s[0]) then TrimStart(s[1..]) else s
  }

  /** Drops the longest whitespace suffix. */
  function TrimEnd(s: string): (r: string) {
    if s != [] && IsWhitespace(s[|s| - 1]) then TrimEnd(s[..|s| - 1]) else s
  }

  /** TrimStart keeps a suffix, cuts only whitespace, and stops at the first
      character that is not whitespace. */
  lemma {:induction false} TrimStartSpec(s: string)
    ensures |TrimStart(s)| <= |s| && TrimStart(s) == s[|s| - |TrimStart(s)|..]
    ensures forall i :: 0 <= i < |s| - |TrimStart(s)| ==> IsWhitespace(s[i])
    ensures TrimStart(s) != [] ==> !IsWhitespace(TrimStart(s)[0])
  {
    if s != [] && IsWhitespace(s[0]) {
      TrimStartSpec(s[1..]);
    }
  }

  /** TrimEnd keeps a prefix, cuts only whitespace, and stops at the last
      character that is not whitespace. */
  lemma {:induction false} TrimEndSpec(s: string)
    ensures |TrimEnd(s)| <= |s| && TrimEnd(s) == s[..|TrimEnd(s)|]
    ensures forall i :: |TrimEnd(s)| <= i < |s| ==> IsWhitespace(s[i])
    ensures TrimEnd(s) != [] ==> !IsWhitespace(TrimEnd(s)[|TrimEnd(s)| - 1])
  {
    if s != [] && IsWhitespace(s[|s| - 1]) {
      TrimEndSpec(s[..|s| - 1]);
    }
  }

  function Trim(s: string): (r: string) {
    TrimEnd(TrimStart(s))
  }

  /** The answer that the engine derives from the raw text field. */
  function Normalize(raw: string): (answer: string) {
    Trim(Lower(raw))
  }

  /** Trimming cuts only the ends, so it keeps a string free of upper case,
      and the result has no whitespace at either end. */
  lemma TrimShape(s: string)
    ensures NoUpper(s) ==> NoUpper(Trim(s))
    ensures Trim(s) != [] ==> !IsWhitespace(Trim(s)[0]) && !IsWhitespace(Trim(s)[|Trim(s)| - 1])
  {
    var t := TrimStart(s);
    TrimStartSpec(s);
    TrimEndSpec(t);
    if Trim(s) != [] {
      assert Trim(s)[0] == t[0];
    }
  }

  lemma LowerFixed(s: string)
    requires NoUpper(s)
    ensures Lower(s) == s
  {
  }

  lemma {:induction false} TrimStartFixed(s: string)
    requires s == [] || !IsWhitespace(s[0])
    ensures TrimStart(s) == s
  {
  }

  lemma {:induction false} TrimEndFixed(s: string)
    requires s == [] || !IsWhitespace(s[|s| - 1])
    ensures TrimEnd(s) == s
  {
  }

  /** An answer is already in normal form: submitting it again as typed
      yields the same answer. */
  lemma NormalizeIdempotent(raw: string)
    ensures Normalize(Normalize(raw)) == Normalize(raw)
  {
    var t := Normalize(raw);
    TrimShape(Lower(raw));
    LowerFixed(t);
    TrimStartFixed(t);
    TrimEndFixed(t);
  }

  /** A normalised answer is lowercase and has no whitespace at its ends. */
  lemma NormalizeShape(raw: string)
    ensures NoUpper(Normalize(raw))
    ensures Normalize(raw) != [] ==>
      !IsWhitespace(Normalize(raw)[0]) && !IsWhitespace(Normalize(raw)[|Normalize(raw)| - 1])
  {
    TrimShape(Lower(raw));
  }

  // ---------------------------------------------------------------------
  // Letters of the base word
  // ---------------------------------------------------------------------

  /** String.firstIndex(of:): the position of the first occurrence of c. */
  function FirstIndex(s: string, c: char): (r: Option<nat>)
    ensures r.None? <==> c !in s
    ensures r.Some? ==> r.value < |s| && s[r.value] == c &&
                        forall j :: 0 <= j < r.value ==> s[j] != c
  {
    if s == [] then None
    else if s[0] == c then Some(0)
    else match FirstIndex(s[1..], c)
      case None => None
      case Some(p) => Some(p + 1)
  }

  /** Number of occurrences of c in s: the reference definition of "how many
      times a letter is available". */
  function Count(s: string, c: char): (n: nat) {
    if s == [] then 0 else (if s[0] == c then 1 else 0) + Count(s[1..], c)
  }

  /** The letter rule: every letter of word is matched to its own occurrence
      in base, so each letter of base is usable at most once. */
  predicate Possible(word: string, base: string) {
    multiset(word) <= multiset(base)
  }

  lemma {:induction false} CountIsMultiplicity(s: string, c: char)
    ensures Count(s, c) == multiset(s)[c]
  {
    if s != [] {
      CountIsMultiplicity(s[1..], c);
      assert s == [s[0]] + s[1..];
    }
  }

  /** Possible compares letter counts, one letter at a time. */
  lemma PossibleIffCounts(word: string, base: string)
    ensures Possible(word, base) <==> forall c :: Count(word, c) <= Count(base, c)
  {
    forall c ensures Count(word, c) == multiset(word)[c] && Count(base, c) == multiset(base)[c] {
      CountIsMultiplicity(word, c);
      CountIsMultiplicity(base, c);
    }
    if !Possible(word, base) {
      var c :| multiset(word)[c] > multiset(base)[c];
      assert Count(word, c) > Count(base, c);
    }
  }

  /** Removing the letter at position p removes exactly one copy of it. */
  lemma RemoveAt(s: string, p: nat)
    requires p < |s|
    ensures multiset(s[..p] + s[p + 1..]) + multiset{s[p]} == multiset(s)
  {
    assert s == s[..p] + [s[p]] + s[p + 1..];
  }

  /** "tin" can be built from "listen". */
  lemma ListenExample()
    ensures Possible("tin", "listen")
  {
  }

  /** The multiplicity boundary: "aardvark" holds three a's, so "raaa" can
      be built from it and "aaaa" cannot. */
  lemma AardvarkExample()
    ensures Possible("raaa", "aardvark")
    ensures !Possible("aaaa", "aardvark")
  {
  }
}
