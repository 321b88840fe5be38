# Word Scramble round engine, in Dafny

Word Scramble is a one-screen game. The player is shown a base word and types
words made from its letters. Each submission goes through a fixed pipeline
(`addNewWord` in `ContentView.swift`):

1. The text field is lowercased and trimmed. An empty answer is dropped without a message.
2. The raw text field must not already be among the used words.
3. The answer must be buildable from the base word, each base letter used at most once.
4. A spell checker must accept the answer.
5. An accepted answer goes to the front of the used-word list, and the text field is cleared.

A rejection sets an alert title and message and toggles the alert flag.
"New Game" clears the list and the text field and draws a new base word from the word list.

The project has three modules:

- `Letters` (`letters.dfy`): how the answer is normalised, `firstIndex(of:)`, and the letter rule.
  The rule is `Possible(word, base)`: the letter multiset of `word` is contained in that of `base`.
  It is also characterised letter by letter through an independent count function.
- `WordBank` (`wordbank.dfy`): splitting the word-list text at newlines, with its inverse.
  It also holds the choice of a base word, and the `"mahmoudf"` fallback for an empty list.
- `RoundEngine` (`round.dfy`): the `Round` class, whose fields are the screen's state variables.
  `Judge` states the decision of one submission as a function of the raw text, the used words,
  the base word and the spell checker. `AddNewWord` is proved to update the state exactly as
  `Judge` says. Lemmas about `Judge` give the order of the checks, acceptance, and the
  raw-text duplicate test.

Two behaviours of the code are reproduced as written:

- The duplicate test compares the raw text field with the used words (`ContentView.swift:100`).
  The list, however, stores normalised answers (`ContentView.swift:83`). So "CAT" typed after
  "cat" is accepted again, and the list holds "cat" twice (`RawDuplicateTest`,
  `CaseVariantAccepted`, `CaseVariantSession`). That is why `Round.Valid()` does not require
  the used words to be distinct.
- The alert titles of the second and third checks are swapped relative to what they test.
  A word that cannot be built from the base word is reported as "Word not recognized".
  A word the spell checker refuses is reported as "Word not possible" (`Reason.Title`,
  `FirstFailureDecides`).

A duplicate test on the normalised answer would reject "CAT" after "cat". The code tests the
raw text field instead, and the model follows the code and proves the behaviour it has.

The spell checker (`UITextChecker`) is the constant `Round.checker: string -> bool`, given to
the constructor. Nothing is assumed about it. Reading the word list is I/O: `StartGame` takes
the text that was read, or `None` when reading failed. The random choice is a nondeterministic
choice of some element (`PickBaseWord`).

## Model

| member | source | states |
|---|---|---|
| `Letters.LowerChar` | ContentView.swift:62 | lowercasing one character gives no upper-case letter, maps A-Z to a-z and leaves every other character alone |
| `Letters.Lower` | ContentView.swift:62 | `lowercased()` keeps the length, lowercases each position and leaves no upper-case letter |
| `Letters.TrimStartSpec` | ContentView.swift:62 | trimming the front keeps a suffix, cuts only whitespace, and the result does not start with whitespace |
| `Letters.TrimEndSpec` | ContentView.swift:62 | trimming the back keeps a prefix, cuts only whitespace, and the result does not end with whitespace |
| `Letters.TrimShape` | ContentView.swift:62 | trimming keeps a string free of upper case and leaves no whitespace at either end |
| `Letters.NormalizeShape` | ContentView.swift:62 | a normalised answer is lowercase and has no whitespace at either end |
| `Letters.NormalizeIdempotent` | ContentView.swift:62 | normalising an answer again gives the same answer, so the stored word is in normal form |
| `Letters.FirstIndex` | ContentView.swift:106 | `firstIndex(of:)` is absent exactly when the letter does not occur, and otherwise is the position of its first occurrence |
| `Letters.RemoveAt` | ContentView.swift:107 | `remove(at:)` takes exactly one copy of the letter at that position out of the letter multiset |
| `Letters.CountIsMultiplicity` | ContentView.swift:103-113 | the occurrence count of a letter equals its multiplicity in the string's letter multiset |
| `Letters.PossibleIffCounts` | ContentView.swift:103-113 | the letter rule holds exactly when every letter occurs in the word at most as often as in the base word |
| `Letters.ListenExample` | ContentView.swift:103-113 | "tin" can be built from "listen" |
| `Letters.AardvarkExample` | ContentView.swift:103-113 | from "aardvark" (three a's) "raaa" can be built and "aaaa" cannot |
| `WordBank.SplitLines` | ContentView.swift:91 | splitting at "\n" always gives at least one piece, and no piece holds a newline |
| `WordBank.JoinSplitLines` | ContentView.swift:91 | joining the pieces with newlines gives back the text |
| `WordBank.SplitJoinLines` | ContentView.swift:91 | splitting newline-free pieces joined with newlines gives back the pieces |
| `WordBank.TrailingNewline` | ContentView.swift:91 | a word-list text ending in a newline yields at least two pieces, the last of them empty |
| `WordBank.PickBaseWord` | ContentView.swift:92 | the chosen base word is an element of the list, or "mahmoudf" when the list is empty |
| `RoundEngine.AcceptedExactly` | ContentView.swift:62-84 | a submission is accepted exactly when its answer is non-empty, the raw text is unused, the answer is buildable and real; the recorded word is the answer and is admissible |
| `RoundEngine.AcceptKeepsAdmissible` | ContentView.swift:83 | inserting an accepted answer keeps every recorded word non-empty, normalised, buildable and real |
| `RoundEngine.FirstFailureDecides` | ContentView.swift:62-81 | an empty answer is ignored; otherwise the first failing check decides the title: used, then "Word not recognized" for the letter check, then "Word not possible" for the spell check |
| `RoundEngine.RawDuplicateTest` | ContentView.swift:99-101 | an answer already recorded in normal form is accepted again when the raw text differs from it |
| `RoundEngine.CaseVariantAccepted` | ContentView.swift:99-101 | with "cat" recorded, typing "CAT" is accepted as "cat" rather than rejected as used |
| `RoundEngine.CatsSession` | ContentView.swift:60-101 | on the word list "cats", the submissions "cat" and then "CAT" are both accepted |
| `RoundEngine.CaseVariantScenario` | ContentView.swift:60-97 | a game started on the word list "cats", with a spell checker that accepts everything, ends with the used-word list ["cat", "cat"] after "cat" and then "CAT" are submitted |
| `RoundEngine.CaseVariantSession` | ContentView.swift:60-85 | a round on "cats" that receives "cat" and then "CAT" ends with the used-word list ["cat", "cat"] |
| `RoundEngine.Round.constructor` | ContentView.swift:12-18 | a new screen has an empty word list and used-word list, empty strings, no alert, and satisfies the invariant |
| `RoundEngine.Round.IsNotUsed` | ContentView.swift:99-101 | because the test is on the raw text field and recorded words are normalised, while the invariant holds any text not in normal form passes the duplicate test |
| `RoundEngine.Round.IsPossible` | ContentView.swift:103-113 | the letter-consuming loop returns true exactly when the word's letter multiset is contained in the base word's; it changes no field |
| `RoundEngine.Round.ShowError` | ContentView.swift:123-127 | sets the alert title and message, flips the alert flag, and changes nothing else |
| `RoundEngine.Round.AddNewWord` | ContentView.swift:60-85 | ignored: nothing changes; rejected: only title, message and flag change, the title is the failing check's, and a resubmission gets the same verdict; accepted: the answer is put in front and the field cleared; the invariant is kept |
| `RoundEngine.Round.StartGame` | ContentView.swift:87-97 | on a successful read, the word list is the split text and the base word is one of its lines; on a failed read nothing changes; used words, field and alert are untouched |
| `RoundEngine.Round.RefreshGame` | ContentView.swift:129-133 | the used-word list and the field become empty, the base word comes from the word list (or is "mahmoudf"), and the invariant holds |

## Left out

- The SwiftUI `body` (`ContentView.swift:21-58`) and `ContentView_Previews` (`ContentView.swift:136-140`): navigation, text field, list and alert presentation are UI.
  The text field binding is modelled as assignment to `Round.newWord`.
  The alert's dismissal writing `showingError` back through its binding is not modelled.
- `isReal` (`ContentView.swift:115-121`): `UITextChecker` and its `NSRange` are a foreign library. The model asks the uninterpreted oracle `Round.checker` instead.
- Reading the bundled `start.txt` and the `fatalError` when it is missing (`ContentView.swift:88-96`) are I/O. `StartGame` receives the text, or `None` for a failed read. The process-terminating path is not modelled.
- `randomElement()`: the model chooses some element and says nothing about the distribution.
- `Letters.LowerChar`: lowercases only ASCII A-Z, not Unicode, because Foundation's full case mapping is outside the model.
- `Letters.IsWhitespace`: approximates `CharacterSet.whitespacesAndNewlines` with a fixed list of characters, because Foundation's exact set is outside the model.
- Swift `Character` values are grapheme clusters, and Swift compares strings and characters by canonical equivalence. The model works on Unicode scalar values (`char`) and compares them exactly. So a letter built from several scalars counts as several letters. Also, the duplicate test (`ContentView.swift:100`) and `firstIndex(of:)` (`ContentView.swift:106`) treat differently encoded but canonically equal text as different.
- `RoundEngine.Round.StartGame`: does not promise the invariant `Valid()`. Like the source, it changes the base word without clearing the used words, so if it ran mid-round, earlier answers could stop being buildable from the new base word.
