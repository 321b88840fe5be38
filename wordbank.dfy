/** WordBank: the list of candidate base words and the choice of one of
    them. Reading the bundled resource is I/O and stays outside; this module
    starts from the text that was read. */
module WordBank {

  /** What the engine falls back to when there is no word to choose. */
  const Fallback: string := "mahmoudf"

  /** components(separatedBy: "\n"): the pieces of text between newlines,
      in order, including empty ones; there is always at least one piece. */
  function SplitLines(text: string): (lines: seq<string>)
    ensures |lines| >= 1
    ensures forall i :: 0 <= i < |lines| ==> '\n' !in lines[i]
  {
    if text == [] then [""]
    else
      var rest := SplitLines(text[1..]);
      if text[0] == '\n' then [""] + rest
      else [[text[0]] + rest[0]] + rest[1..]
  }

  /** The inverse of SplitLines: the pieces glued back with newlines. */
  function JoinLines(lines: seq<string>): (text: string)
    requires |lines| >= 1
  {
    if |lines| == 1 then lines[0] else lines[0] + "\n" + JoinLines(lines[1..])
  }

  /** Splitting loses nothing: the pieces and the newlines make up the text. */
  lemma {:induction false} JoinSplitLines(text: string)
    ensures JoinLines(SplitLines(text)) == text
  {
    if text != [] {
      JoinSplitLines(text[1..]);
      var rest := SplitLines(text[1..]);
      if text[0] == '\n' {
        assert text == [text[0]] + text[1..];
      } else {
        assert text == [text[0]] + text[1..];
        if |rest| > 1 {
          assert JoinLines(rest) == rest[0] + "\n" + JoinLines(rest[1..]);
        }
      }
    }
  }

  /** Splitting the joined pieces gives back the same pieces, provided no
      piece holds a newline. */
  lemma {:induction false} SplitJoinLines(lines: seq<string>)
    requires |lines| >= 1
    requires forall i :: 0 <= i < |lines| ==> '\n' !in lines[i]
    ensures SplitLines(JoinLines(lines)) == lines
  {
    if |lines| == 1 {
      SplitLineFree(lines[0], "", [""]);
      assert lines[0] + "" == lines[0];
      assert lines == [lines[0]];
    } else {
      SplitJoinLines(lines[1..]);
      var tail := "\n" + JoinLines(lines[1..]);
      assert tail[0] == '\n' && tail[1..] == JoinLines(lines[1..]);
      SplitLineFree(lines[0], tail, [""] + lines[1..]);
      assert JoinLines(lines) == lines[0] + tail;
      assert lines[0] + "" == lines[0];
      assert lines == [lines[0]] + lines[1..];
    }
  }

  /** A newline-free prefix joins the first piece of what follows it. */
  lemma {:induction false} SplitLineFree(w: string, tail: string, pieces: seq<string>)
    requires '\n' !in w
    requires |pieces| >= 1 && SplitLines(tail) == pieces
    ensures SplitLines(w + tail) == [w + pieces[0]] + pieces[1..]
  {
    if w != [] {
      SplitLineFree(w[1..], tail, pieces);
      assert (w + tail)[1..] == w[1..] + tail;
      assert [w[0]] + (w[1..] + pieces[0]) == w + pieces[0];
    } else {
      assert w + tail == tail;
      assert w + pieces[0] == pieces[0];
      assert pieces == [pieces[0]] + pieces[1..];
    }
  }

  /** A word list whose text ends in a newline has an empty last piece, so
      the empty string is among the candidate base words. */
  lemma {:induction false} TrailingNewline(text: string)
    requires text != [] && text[|text| - 1] == '\n'
    ensures |SplitLines(text)| >= 2
    ensures SplitLines(text)[|SplitLines(text)| - 1] == ""
  {
    if |text| > 1 {
      TrailingNewline(text[1..]);
    }
  }

  /** randomElement() ?? "mahmoudf": some element of the list, whichever,
      or the fallback when the list is empty. */
  method PickBaseWord(words: seq<string>) returns (w: string)
    ensures words == [] ==> w == Fallback
    ensures words != [] ==> w in words
  {
    if words == [] {
      w := Fallback;
    } else {
      var i :| 0 <= i < |words|;
      w := words[i];
    }
  }
}
