# dewordler core in Dafny

This project models the logic of the dewordler helper, a tool for a
five-letter word-guessing game. The player enters guesses and tags each
letter slot blank, yellow or green. Two pieces are modelled:

- **`WordSearch`** (`word_search.dfy`, from `src/word-search.tsx`):
  - the letter-code test;
  - the five-slot guess and its "filled" test;
  - the constraint builder. It turns the filled guesses into three lists per position: blank, green and yellow letters.
  - the word-list loader. It turns newline-separated text into one flat sequence of letter codes, or fails.
- **`App`** (`app.dfy`, from `src/App.tsx`):
  - the guess editor: three guesses and a cursor `(word, letter)`;
  - the keydown handler, which moves the cursor, types and erases letters and sets slot colours;
  - the keyboard-letter reader.

`Wrappers` (`wrappers.dfy`) holds `Option` and `Result`.

The parts that compute values are functions with lemmas. The parts that work step by step are methods:
- The constraint builder is a method with a nested loop over arrays of letter lists. It is proved equal to the reference function `Collect`.
- The loader's generator is a method with a loop and a line-length counter. It is proved against declarative predicates: `WellFormed`, `FirstFault` and `LetterCodes`.
- The editor's store is the class `App.Editor`. Its fields (`words`, `activeWord`, `activeLetter`) are updated in place by `Listener`.

## Model

| member | source | states |
|---|---|---|
| `WordSearch.CharCodeIsLetter` | src/word-search.tsx:7-9 | a value passes the letter test exactly when it is integral and its integer value lies in 97..122 |
| `WordSearch.AllPresent` | src/word-search.tsx:33-35 | the `every` test holds exactly when no slot is empty (`None !in ls`) |
| `WordSearch.Slots.IsFilled` | src/word-search.tsx:33-35 | a guess is filled exactly when every one of its letter slots holds a letter |
| `WordSearch.NewWord` | src/word-search.tsx:23-31 | a new guess has five empty slots, all blank, and is not filled |
| `WordSearch.MakeConstraints` | src/word-search.tsx:48-75 | for every position p, the blank, green and yellow lists are exactly `Collect(words, p, colour)`: the letters at p of the filled guesses of that colour at p, in guess order; every list family has five entries |
| `WordSearch.AddLetters` | src/word-search.tsx:58-71 | the inner loop appends a filled guess's letter at each position to the list of that slot's colour and to no other list |
| `WordSearch.CollectSnoc` | src/word-search.tsx:55-71 | one more guess appends its letter to one list at a position if it is filled and has that colour there, and appends nothing otherwise |
| `WordSearch.CollectAppend` | src/word-search.tsx:55-71 | the lists built from `a + b` are the lists of `a` followed by those of `b` |
| `WordSearch.CollectNoneFilled` | src/word-search.tsx:49-56 | with no filled guess (the empty list included) all fifteen lists are empty |
| `WordSearch.CollectSkipsUnfilled` | src/word-search.tsx:56 | inserting an unfilled guess anywhere changes no list |
| `WordSearch.CollectLengthsSum` | src/word-search.tsx:58-71 | at every position the blank, yellow and green lists are together as long as the number of filled guesses: each one goes to exactly one list |
| `WordSearch.CollectAt` | src/word-search.tsx:55-67 | the letter of each contributing guess j sits in the list at index (number of contributions of guesses before j), so every green letter is kept and in order, not just the last |
| `WordSearch.CollectFrom` | src/word-search.tsx:58-71 | every letter in a list is the letter at that position of some filled guess with that colour there |
| `WordSearch.TrailingRun` | src/word-search.tsx:84-94 | the letter counter of the generator: the last n characters are all non-line-breaks and the one before them, if any, is a line break |
| `WordSearch.ParseLetters` | src/word-search.tsx:83-104 | succeeds iff no character is faulty (a non-letter that is not a line break, or a line break ending a line of neither 0 nor 5 letters); on success it returns the codes of all non-line-break characters in order, each in 97..122; on failure it returns the error of the first faulty position |
| `WordSearch.LoadWordList` | src/word-search.tsx:83-109 | the loader as written: succeeds iff the generator succeeds and the letter count is a multiple of 5; generator errors come first, then the total-length error |
| `WordSearch.UnterminatedLineAccepted` | src/word-search.tsx:86-109 | the ten-letter text "abcdefghij" without a line break is accepted, although its only line is not five letters long |
| `WordSearch.UnterminatedLineIsOneLine` | src/word-search.tsx:84-109 | that accepted text has a single non-empty line but ten letters, so it is not one word per line |
| `WordSearch.AppendBreakWellFormed` | src/word-search.tsx:86-92 | appending a line break leaves the letter codes unchanged and makes the generator accept exactly the texts whose every line, the last included, has 0 or 5 letters |
| `WordSearch.StrictWholeWords` | src/word-search.tsx:107-109 | when every line has 0 or 5 letters, the letter count is a multiple of five |
| `WordSearch.LineCodes` | src/word-search.tsx:84-94 | the non-empty lines as the generator counts them: every line has at least one letter, and a text ending in an unfinished line ends with a line of exactly `TrailingRun` letters |
| `WordSearch.OneLine` | src/word-search.tsx:84-94 | a non-empty text without line breaks is exactly one line |
| `WordSearch.LinesSoFar` | src/word-search.tsx:84-101 | while no character is faulty, the letters read so far are the lines read so far laid end to end, and every line except an unfinished last one has five letters |
| `WordSearch.FlattenChunks` | src/word-search.tsx:107-109 | lines of five letters laid end to end are five times as many codes, and chunk k, codes 5k..5k+4, is line k |
| `WordSearch.StrictOneWordPerLine` | src/word-search.tsx:84-109 | when every line has 0 or 5 letters, every non-empty line has five letters, the letter count is five times the number of non-empty lines, and chunk k of the codes is the k-th non-empty line |
| `WordSearch.LoadWordListStrict` | src/word-search.tsx:83-109 | the corrected loader: succeeds iff every line, the last included, has 0 or 5 letters and every character is a letter or line break; the output is the letter codes, in 97..122, five per non-empty line, and chunk k, codes 5k..5k+4, is the k-th non-empty line |
| `App.MakeWord` | src/App.tsx:22-28 | the new guess has the given letters (five empty slots by default) and all five colours blank |
| `App.FirstUpper` | src/App.tsx:102-105 | the index of the first part whose first code point is in 65..90, or the length if there is none |
| `App.ReadLetter` | src/App.tsx:97-106 | nothing unless the NFKC form is one character; otherwise the first upper-cased part starting with 'A'..'Z'; a result always starts with a code in 65..90 |
| `App.IsFilled` | src/App.tsx:81 | the `every` test after a letter is typed: no letter slot of the guess is empty |
| `App.KeyColor` | src/App.tsx:61-67 | space sets blank, '-' sets yellow and '=' sets green, and each colour comes from exactly that key |
| `App.Clamp` | src/App.tsx:41-46 | `max(lo, min(hi, x))` lies in `lo..hi`, is `x` inside that range and the nearer bound outside it |
| `App.Editor.constructor` | src/App.tsx:31-36 | three blank guesses, cursor at (0, 0) |
| `App.Editor.Listener` | src/App.tsx:38-89 | every key keeps the cursor within 0..words-1 × 0..4. Tab and unreadable keys change nothing. The arrows move the word or letter index by one, clamped. Delete and Ctrl+Backspace empty the active guess and move to letter 0. Backspace steps back one slot (wrapping to letter 4 of the previous guess; staying put at the very last slot and at the first) and then empties the slot under the new cursor. Space, '-' and '=' set only the active slot's colour to blank, yellow or green. A letter is written at the active slot; then the cursor goes to the next guess's first slot if this guess is now filled and not the last, else one slot right unless at slot 4 |
| `App.Editor.ClearActiveWord` | src/App.tsx:47-50 | all five letters of the active guess are emptied, its colours, the other guesses and the active word are kept, and the letter index becomes 0 |

## Left out

- Fetching the word-list file (`fetch`, top-level `await`) is network I/O. The loader is modelled over an in-memory string.
- Publishing the word list on `globalThis` is ambient global state with no logic.
- The type-level helpers `Enumerate`, `IntRange` and `FixedSizeArray` are replaced by the subset types `Letter` (97..122), `Position` (0..4) and `Word` (five letters, five colours).
- The `Uint8Array` wrapping of the loader's output is not modelled; the output is a `seq<int>`. Every value is proved to lie in 97..122, so no byte wrap-around can occur.
- Laziness of the generator is not modelled: the loader returns a `Result`. The array constructor consumes the whole generator, so bytes yielded before an error are never visible anyway.
- `WordSearch.CharCodeIsLetter`: its argument is a real, so NaN and the infinities are not modelled. The source rejects them too.
- `WordSearch.ParseLetters`: an `InvalidChar` error carries the character's code point. For a character outside the Basic Multilingual Plane the source reports a UTF-16 surrogate instead. Such a character is rejected in both.
- `WordSearch.LoadWordList`: the total-length error carries the letter count, not the fractional word count in the source's message. Error message texts are not modelled.
- The program has no dictionary search or filtering code; none is modelled.
- `green[i]` is a list that keeps every green letter seen at position i (src/word-search.tsx:44, 65-67), not a single letter; the model keeps that list.
- `readLetter`'s Unicode normalisation (NFKC, NFKD) and `toUpperCase` are foreign library calls. Their results are the parameters of `App.ReadLetter`, carried by the key `Other`.
- The typed letter is the whole upper-cased part, as the source's `find` returns it. That part can be longer than one character.
- Rendering (JSX, `For`, `classList`) and `src/index.tsx` are UI and are not part of this model.
- Registering and removing the keydown listener, `preventDefault` and `activeElement.blur()` are DOM plumbing. Only each key's effect on the state is modelled.
- `App.Editor.Listener` holds for any non-empty list of guesses; the source always has three.

## Findings

| source | as written | input that shows it | evidently intended | confidence | as-written member | corrected member |
|---|---|---|---|---|---|---|
| src/word-search.tsx:86-109 | a line's length is checked only when a `\n` or `\r` ends it; the last line, if nothing ends it, meets only the check that the total letter count is a multiple of 5 | `"abcdefghij"` with no final line break loads as the two words "abcde" and "fghij" | every non-empty line, the last included, is exactly five letters; the total check is a defensive re-check that can never fail | medium, not executed | `WordSearch.UnterminatedLineAccepted` | `WordSearch.LoadWordListStrict` |
