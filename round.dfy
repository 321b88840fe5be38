/** RoundEngine: the state of one game screen and the pipeline that accepts
    or rejects a submitted word. */
module RoundEngine {
  import opened Letters
  import opened WordBank

  /** Why a submission is refused, named after the check that failed. The
      titles shown for the second and third checks are the other way round
      from what the checks test: a word that cannot be built from the base
      word is reported as "not recognized", a word the spell checker refuses
      as "not possible". */
  datatype Reason = UsedAlready | NotPossible | NotReal {
    function Title(): string {
      match this
      case UsedAlready => "Word used already"
      case NotPossible => "Word not recognized"
      case NotReal => "Word not possible"
    }

    function Message(): string {
      match this
      case UsedAlready => "Be more original"
      case NotPossible => "You can't just make them up, you know!"
      case NotReal => "That isn't a real word."
    }
  }

  /** What one submission leads to: nothing at all, an error alert, or a new
      entry at the head of the used-word list. */
  datatype Verdict = Ignored | Rejected(reason: Reason) | Accepted(answer: string)

  /** The decision of one submission of the raw text field contents, given
      the used words, the base word and the spell checker. The duplicate
      test looks at the raw text, the other two at the normalised answer. */
  function Judge(raw: string, used: seq<string>, base: string, isReal: string -> bool): (v: Verdict) {
    var answer := Normalize(raw);
    if answer == [] then Ignored
    else if raw in used then Rejected(UsedAlready)
    else if !Possible(answer, base) then Rejected(NotPossible)
    else if !isReal(answer) then Rejected(NotReal)
    else Accepted(answer)
  }

  /** What every recorded word satisfies: non-empty, in normal form, built
      from the base word's letters and accepted by the spell checker. */
  predicate Admissible(w: string, base: string, isReal: string -> bool) {
    w != [] && Normalize(w) == w && Possible(w, base) && isReal(w)
  }

  ghost predicate AllAdmissible(words: seq<string>, base: string, isReal: string -> bool) {
    forall i :: 0 <= i < |words| ==> Admissible(words[i], base, isReal)
  }

  /** A submission is accepted exactly when its answer is non-empty, the raw
      text is not among the used words, the answer can be built from the
      base word and the spell checker accepts it; what is recorded is the
      answer, and it is admissible. */
  lemma AcceptedExactly(raw: string, used: seq<string>, base: string, isReal: string -> bool)
    ensures Judge(raw, used, base, isReal).Accepted? <==>
      Normalize(raw) != [] && raw !in used && Possible(Normalize(raw), base) && isReal(Normalize(raw))
    ensures Judge(raw, used, base, isReal).Accepted? ==>
      Judge(raw, used, base, isReal).answer == Normalize(raw) &&
      Admissible(Judge(raw, used, base, isReal).answer, base, isReal)
  {
    NormalizeIdempotent(raw);
  }

  /** Recording an accepted answer keeps every recorded word admissible. */
  lemma AcceptKeepsAdmissible(raw: string, used: seq<string>, base: string, isReal: string -> bool)
    requires Judge(raw, used, base, isReal).Accepted?
    ensures AllAdmissible(used, base, isReal) ==>
      AllAdmissible([Judge(raw, used, base, isReal).answer] + used, base, isReal)
  {
    AcceptedExactly(raw, used, base, isReal);
  }

  /** The checks run in a fixed order and the first one that fails decides
      the alert title, whatever the later checks would have said. */
  lemma FirstFailureDecides(raw: string, used: seq<string>, base: string, isReal: string -> bool)
    ensures Normalize(raw) == [] <==> Judge(raw, used, base, isReal) == Ignored
    ensures Normalize(raw) != [] && raw in used ==>
      Judge(raw, used, base, isReal).Rejected? &&
      Judge(raw, used, base, isReal).reason.Title() == "Word used already"
    ensures Normalize(raw) != [] && raw !in used && !Possible(Normalize(raw), base) ==>
      Judge(raw, used, base, isReal).Rejected? &&
      Judge(raw, used, base, isReal).reason.Title() == "Word not recognized"
    ensures Normalize(raw) != [] && raw !in used && Possible(Normalize(raw), base) && !isReal(Normalize(raw)) ==>
      Judge(raw, used, base, isReal).Rejected? &&
      Judge(raw, used, base, isReal).reason.Title() == "Word not possible"
  {
  }

  /** Because the duplicate test compares the raw text with normalised
      entries, a word that is already recorded is recorded again whenever it
      is typed in a different form. */
  lemma RawDuplicateTest(raw: string, used: seq<string>, base: string, isReal: string -> bool)
    requires Normalize(raw) != [] && raw !in used && Normalize(raw) in used
    requires Possible(Normalize(raw), base) && isReal(Normalize(raw))
    ensures Judge(raw, used, base, isReal) == Accepted(Normalize(raw))
  {
  }

  lemma NormalizeCat()
    ensures Normalize("cat") == "cat"
    ensures Normalize("CAT") == "cat"
  {
  }

  /** "CAT" typed after "cat" was accepted is not reported as used: it is
      accepted again as "cat". */
  lemma CaseVariantAccepted(base: string, isReal: string -> bool)
    requires Possible("cat", base) && isReal("cat")
    ensures Judge("CAT", ["cat"], base, isReal) == Accepted("cat")
  {
    NormalizeCat();
  }

  /** The state of the game screen. The spell checker is a capability handed
      in at creation: the engine only ever asks it whether a word is real. */
  class Round {
    const checker: string -> bool
    var allWords: seq<string>
    var usedWords: seq<string>
    var originalWord: string
    var newWord: string
    var errorTitle: string
    var errorMessage: string
    var showingError: bool

    /** Every recorded word is admissible for the current base word. */
    ghost predicate Valid()
      reads this
    {
      AllAdmissible(usedWords, originalWord, checker)
    }

    constructor (checker: string -> bool)
      ensures this.checker == checker
      ensures allWords == [] && usedWords == [] && originalWord == "" && newWord == ""
      ensures errorTitle == "" && errorMessage == "" && !showingError
      ensures Valid()
    {
      this.checker := checker;
      allWords, usedWords := [], [];
      originalWord, newWord := "", "";
      errorTitle, errorMessage := "", "";
      showingError := false;
    }

    /** The duplicate test, on the raw text field contents. Recorded words
        are in normal form, so while the invariant holds any text that is
        not in normal form passes the test, whatever its answer is. */
    predicate IsNotUsed()
      reads this
      ensures Valid() && Normalize(newWord) != newWord ==> IsNotUsed()
    {
      newWord !in usedWords
    }

    /** The letter test: consume one matching letter of a scratch copy of the
        base word for each letter of word, failing at the first letter that
        has no copy left. */
    method IsPossible(word: string) returns (r: bool)
      ensures r == Possible(word, originalWord)
    {
      var tempWord := originalWord;
      for i := 0 to |word|
        invariant multiset(tempWord) + multiset(word[..i]) == multiset(originalWord)
      {
        var letter := word[i];
        assert word[..i + 1] == word[..i] + [letter];
        match FirstIndex(tempWord, letter)
        case Some(pos) =>
          RemoveAt(tempWord, pos);
          tempWord := tempWord[..pos] + tempWord[pos + 1..];
        case None =>
          assert word == word[..i + 1] + word[i + 1..];
          assert multiset(word)[letter] > multiset(originalWord)[letter];
          return false;
      }
      assert word[..|word|] == word;
      return true;
    }

    /** The spell checker's verdict. */
    predicate IsReal(word: string) {
      checker(word)
    }

    method ShowError(title: string, message: string)
      modifies this
      ensures errorTitle == title && errorMessage == message
      ensures showingError == !old(showingError)
      ensures allWords == old(allWords) && usedWords == old(usedWords)
      ensures originalWord == old(originalWord) && newWord == old(newWord)
    {
      errorTitle := title;
      errorMessage := message;
      showingError := !showingError;
    }

    /** Submission of the text field. An empty answer changes nothing; a
        rejection changes only the alert fields, and leaves the state such
        that submitting again gets the same verdict; an acceptance puts the
        answer in front of the used words and clears the text field. */
    method AddNewWord()
      modifies this
      ensures allWords == old(allWords) && originalWord == old(originalWord)
      ensures match Judge(old(newWord), old(usedWords), originalWord, checker)
        case Ignored =>
          usedWords == old(usedWords) && newWord == old(newWord) &&
          errorTitle == old(errorTitle) && errorMessage == old(errorMessage) &&
          showingError == old(showingError)
        case Rejected(reason) =>
          usedWords == old(usedWords) && newWord == old(newWord) &&
          errorTitle == reason.Title() && errorMessage == reason.Message() &&
          showingError == !old(showingError) &&
          Judge(newWord, usedWords, originalWord, checker) == Rejected(reason)
        case Accepted(answer) =>
          usedWords == [answer] + old(usedWords) && newWord == "" &&
          errorTitle == old(errorTitle) && errorMessage == old(errorMessage) &&
          showingError == old(showingError)
      ensures old(Valid()) ==> Valid()
    {
      ghost var verdict := Judge(newWord, usedWords, originalWord, checker);
      var answer := Normalize(newWord);
      if answer == [] {
        assert verdict == Ignored;
        return;
      }
      if !IsNotUsed() {
        assert verdict == Rejected(UsedAlready);
        ShowError("Word used already", "Be more original");
        return;
      }
      var possible := IsPossible(answer);
      if !possible {
        assert verdict == Rejected(NotPossible);
        ShowError("Word not recognized", "You can't just make them up, you know!");
        return;
      }
      if !IsReal(answer) {
        assert verdict == Rejected(NotReal);
        ShowError("Word not possible", "That isn't a real word.");
        return;
      }
      assert verdict == Accepted(answer);
      AcceptKeepsAdmissible(newWord, usedWords, originalWord, checker);
      usedWords := [answer] + usedWords;
      newWord := "";
    }

    /** Game start, from the text of the bundled word list (None when it could
        not be read, which leaves everything as it was). */
    method StartGame(contents: Option<string>)
      modifies this
      ensures contents.None? ==> allWords == old(allWords) && originalWord == old(originalWord)
      ensures contents.Some? ==> allWords == SplitLines(contents.value) && originalWord in allWords
      ensures usedWords == old(usedWords) && newWord == old(newWord)
      ensures errorTitle == old(errorTitle) && errorMessage == old(errorMessage)
      ensures showingError == old(showingError)
    {
      if contents.Some? {
        allWords := SplitLines(contents.value);
        originalWord := PickBaseWord(allWords);
      }
    }

    /** New game: forget the used words and the text field, and pick a base
        word from the word list (the fallback literal when it is empty). */
    method RefreshGame()
      modifies this
      ensures usedWords == [] && newWord == ""
      ensures allWords == [] ==> originalWord == Fallback
      ensures allWords != [] ==> originalWord in allWords
      ensures allWords == old(allWords)
      ensures errorTitle == old(errorTitle) && errorMessage == old(errorMessage)
      ensures showingError == old(showingError)
      ensures Valid()
    {
      usedWords := [];
      originalWord := PickBaseWord(allWords);
      newWord := "";
    }
  }

  /** The two verdicts of the session below. */
  lemma CatsSession(isReal: string -> bool)
    requires isReal("cat")
    ensures SplitLines("cats") == ["cats"]
    ensures Judge("cat", [], "cats", isReal) == Accepted("cat")
    ensures Judge("CAT", ["cat"], "cats", isReal) == Accepted("cat")
  {
    SplitJoinLines(["cats"]);
    assert Possible("cat", "cats") by {
      assert multiset("cat") == multiset{'c', 'a', 't'};
      assert multiset("cats") == multiset{'c', 'a', 't', 's'};
    }
    NormalizeCat();
    CaseVariantAccepted("cats", isReal);
  }

  /** A session on the base word "cats" with a spell checker that knows
      "cat": "cat" and then "CAT" are both accepted, so the used-word list
      ends up holding the same word twice. */
  method CaseVariantSession(round: Round)
    requires round.originalWord == "cats" && round.usedWords == [] && round.checker("cat")
    modifies round
    ensures round.usedWords == ["cat", "cat"]
  {
    CatsSession(round.checker);
    round.newWord := "cat";
    round.AddNewWord();
    round.newWord := "CAT";
    round.AddNewWord();
  }

  /** The session above, from game start on a word list holding only "cats":
      the used-word list it leaves behind. */
  method CaseVariantScenario() returns (used: seq<string>)
    ensures used == ["cat", "cat"]
  {
    var round := new Round(w => true);
    CatsSession(round.checker);
    round.StartGame(Some("cats"));
    CaseVariantSession(round);
    used := round.usedWords;
  }
}
