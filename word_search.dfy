/**
 * The feedback model of the word-guessing helper: letters as character
 * codes, five-slot guesses with a colour per slot, the per-position
 * constraint lists built from the filled guesses, and the loader that turns
 * the newline-separated word list into one flat sequence of letter codes.
 */
module WordSearch {
  import opened Wrappers

  /** A lowercase letter, represented by its character code. */
  type Letter = n: int | 97 <= n <= 122 witness 97

  /** A slot index of a five-letter word. */
  type Position = p: int | 0 <= p < 5

  /**
   * The letter test of the loader. The argument is a JavaScript number, so it
   * is taken as a real: a letter is an integral value from 97 to 122.
   */
  predicate CharCodeIsLetter(n: real)
    ensures CharCodeIsLetter(n) <==> n == n.Floor as real && 97 <= n.Floor <= 122
  {
    n.Floor as real == n && 97.0 <= n <= 122.0
  }

  /** The feedback tag of one slot. */
  datatype Color = Blank | Yellow | Green

  datatype Slots = Slots(letters: seq<Option<Letter>>, colors: seq<Color>)
  {
    /** A guess is filled when none of its letter slots is empty. */
    predicate IsFilled()
      ensures IsFilled() <==> forall i :: 0 <= i < |letters| ==> letters[i].Some?
    {
      AllPresent(letters)
    }
  }

  /** A guess: five optional letters and five colours. */
  type Word = w: Slots | |w.letters| == 5 && |w.colors| == 5
    witness Slots([None, None, None, None, None], [Blank, Blank, Blank, Blank, Blank])

  /** Every element of `ls` holds a letter (the `every` test of `isFilled`). */
  function AllPresent(ls: seq<Option<Letter>>): (r: bool)
    ensures r <==> None !in ls
  {
    |ls| == 0 || (ls[0].Some? && AllPresent(ls[1..]))
  }

  /** The state of a freshly constructed guess. */
  function NewWord(): (w: Word)
    ensures !w.IsFilled()
    ensures forall i :: 0 <= i < 5 ==> w.letters[i] == None && w.colors[i] == Blank
  {
    Slots([None, None, None, None, None], [Blank, Blank, Blank, Blank, Blank])
  }

  // ---------------------------------------------------------------------------
  // Constraints
  // ---------------------------------------------------------------------------

  /** Five letter lists per colour, one for each position. */
  datatype Constraints = Constraints(blank: seq<seq<Letter>>, green: seq<seq<Letter>>, yellow: seq<seq<Letter>>)

  /** Whether `w` adds its letter at position `p` to the list of colour `k`. */
  predicate Contributes(w: Word, p: Position, k: Color)
  {
    w.IsFilled() && w.colors[p] == k
  }

  /**
   * The reference list for position `p` and colour `k`: the letters at `p`
   * of the filled guesses whose colour at `p` is `k`, in guess order.
   */
  function Collect(words: seq<Word>, p: Position, k: Color): seq<Letter>
  {
    if words == [] then []
    else
      var w := words[|words| - 1];
      Collect(words[..|words| - 1], p, k) + Contribution(w, p, k)
  }

  /** The letter a single guess adds to the list of position `p` and colour `k`. */
  function Contribution(w: Word, p: Position, k: Color): seq<Letter>
  {
    if Contributes(w, p, k) then [w.letters[p].value] else []
  }

  /** Appending one guess appends its contribution, if any. */
  lemma CollectSnoc(ws: seq<Word>, w: Word, p: Position, k: Color)
    ensures Collect(ws + [w], p, k) == Collect(ws, p, k) + Contribution(w, p, k)
  {
  }

  /** The number of filled guesses in `words`. */
  function CountFilled(words: seq<Word>): nat
  {
    if words == [] then 0
    else CountFilled(words[..|words| - 1]) + (if words[|words| - 1].IsFilled() then 1 else 0)
  }

  /**
   * Builds the constraints from the guesses: every filled guess appends, at
   * every position, its letter to the blank, green or yellow list of that
   * position according to the colour of that slot; other guesses are skipped.
   */
  method MakeConstraints(words: seq<Word>) returns (c: Constraints)
    ensures |c.blank| == 5 && |c.green| == 5 && |c.yellow| == 5
    ensures forall p: Position ::
      c.blank[p] == Collect(words, p, Blank) &&
      c.green[p] == Collect(words, p, Green) &&
      c.yellow[p] == Collect(words, p, Yellow)
  {
    var blank := new seq<Letter>[5](_ => []);
    var green := new seq<Letter>[5](_ => []);
    var yellow := new seq<Letter>[5](_ => []);
    var n := 0;
    while n < |words|
      invariant 0 <= n <= |words|
      invariant forall p: Position ::
        blank[p] == Collect(words[..n], p, Blank) &&
        green[p] == Collect(words[..n], p, Green) &&
        yellow[p] == Collect(words[..n], p, Yellow)
    {
      var word := words[n];
      assert words[..n + 1] == words[..n] + [word];
      forall p: Position, k: Color
        ensures Collect(words[..n + 1], p, k) == Collect(words[..n], p, k) + Contribution(word, p, k)
      {
        CollectSnoc(words[..n], word, p, k);
      }
      if word.IsFilled() {
        AddLetters(word, blank, green, yellow);
      }
      n := n + 1;
    }
    assert words[..n] == words;
    c := Constraints(blank[..], green[..], yellow[..]);
  }

  /** The inner loop of MakeConstraints: one filled guess, position by position. */
  method AddLetters(word: Word, blank: array<seq<Letter>>, green: array<seq<Letter>>, yellow: array<seq<Letter>>)
    requires word.IsFilled()
    requires blank.Length == 5 && green.Length == 5 && yellow.Length == 5
    requires blank != green && green != yellow && blank != yellow
    modifies blank, green, yellow
    ensures forall p: Position ::
      blank[p] == old(blank[p]) + Contribution(word, p, Blank) &&
      green[p] == old(green[p]) + Contribution(word, p, Green) &&
      yellow[p] == old(yellow[p]) + Contribution(word, p, Yellow)
  {
    var i := 0;
    while i < 5
      invariant 0 <= i <= 5
      invariant forall p: Position :: p < i ==>
        blank[p] == old(blank[p]) + Contribution(word, p, Blank) &&
        green[p] == old(green[p]) + Contribution(word, p, Green) &&
        yellow[p] == old(yellow[p]) + Contribution(word, p, Yellow)
      invariant forall p: Position :: i <= p ==>
        blank[p] == old(blank[p]) && green[p] == old(green[p]) && yellow[p] == old(yellow[p])
    {
      var color := word.colors[i];
      var letter := word.letters[i].value;
      if color == Blank {
        blank[i] := blank[i] + [letter];
      }
      if color == Green {
        green[i] := green[i] + [letter];
      }
      if color == Yellow {
        yellow[i] := yellow[i] + [letter];
      }
      i := i + 1;
    }
  }

  /** The constraint lists of a concatenation are the concatenated lists. */
  lemma {:induction false} CollectAppend(a: seq<Word>, b: seq<Word>, p: Position, k: Color)
    ensures Collect(a + b, p, k) == Collect(a, p, k) + Collect(b, p, k)
    decreases |b|
  {
    if b == [] {
      assert a + b == a;
    } else {
      var b' := b[..|b| - 1];
      assert (a + b)[..|a + b| - 1] == a + b';
      CollectAppend(a, b', p, k);
    }
  }

  /** Guesses that are not filled contribute nothing, whatever their colours. */
  lemma {:induction false} CollectNoneFilled(words: seq<Word>, p: Position, k: Color)
    requires forall j :: 0 <= j < |words| ==> !words[j].IsFilled()
    ensures Collect(words, p, k) == []
    ensures CountFilled(words) == 0
  {
    if words != [] {
      CollectNoneFilled(words[..|words| - 1], p, k);
    }
  }

  /** Removing a guess that is not filled leaves every list as it was. */
  lemma CollectSkipsUnfilled(a: seq<Word>, w: Word, b: seq<Word>, p: Position, k: Color)
    requires !w.IsFilled()
    ensures Collect(a + [w] + b, p, k) == Collect(a + b, p, k)
  {
    assert Collect([w], p, k) == [] by {
      CollectSnoc([], w, p, k);
      assert [] + [w] == [w];
    }
    assert Collect(a + [w], p, k) == Collect(a, p, k) by {
      CollectSnoc(a, w, p, k);
    }
    calc {
      Collect(a + [w] + b, p, k);
      { CollectAppend(a + [w], b, p, k); }
      Collect(a + [w], p, k) + Collect(b, p, k);
      Collect(a, p, k) + Collect(b, p, k);
      { CollectAppend(a, b, p, k); }
      Collect(a + b, p, k);
    }
  }

  /**
   * Each filled guess lands in exactly one of the three lists at every
   * position, so the three lengths add up to the number of filled guesses.
   */
  lemma {:induction false} CollectLengthsSum(words: seq<Word>, p: Position)
    ensures |Collect(words, p, Blank)| + |Collect(words, p, Yellow)| + |Collect(words, p, Green)|
            == CountFilled(words)
  {
    if words != [] {
      CollectLengthsSum(words[..|words| - 1], p);
    }
  }

  /**
   * The lists keep every contributing letter in guess order: the letter of
   * guess `j` sits right after the letters of the guesses before it.
   */
  lemma CollectAt(words: seq<Word>, j: nat, p: Position, k: Color)
    requires j < |words| && Contributes(words[j], p, k)
    ensures |Collect(words[..j], p, k)| < |Collect(words, p, k)|
    ensures Collect(words, p, k)[|Collect(words[..j], p, k)|] == words[j].letters[p].value
  {
    assert words == words[..j] + [words[j]] + words[j + 1..];
    CollectAppend(words[..j] + [words[j]], words[j + 1..], p, k);
    CollectAppend(words[..j], [words[j]], p, k);
    assert [words[j]][..0] == [];
  }

  /** Every letter in a list comes from a contributing guess at that position. */
  lemma {:induction false} CollectFrom(words: seq<Word>, p: Position, k: Color, x: Letter)
    requires x in Collect(words, p, k)
    ensures exists j :: 0 <= j < |words| && Contributes(words[j], p, k) && words[j].letters[p] == Some(x)
  {
    var init := words[..|words| - 1];
    var w := words[|words| - 1];
    if x in Collect(init, p, k) {
      CollectFrom(init, p, k, x);
      var j :| 0 <= j < |init| && Contributes(init[j], p, k) && init[j].letters[p] == Some(x);
      assert words[j] == init[j];
    } else {
      assert Contributes(w, p, k) && w.letters[p] == Some(x);
    }
  }

  // ---------------------------------------------------------------------------
  // Word list loader
  // ---------------------------------------------------------------------------

  datatype ParseError =
    | BadLineLength(length: nat)          // a terminated line of neither 0 nor 5 letters
    | InvalidChar(ch: char, code: int)    // a character that is neither a line break nor a letter
    | BadTotalLength(length: nat)         // the letter count is not a multiple of 5

  predicate IsLineBreak(c: char)
  {
    c == '\n' || c == '\r'
  }

  /** The number of non-line-break characters at the end of `s`. */
  function TrailingRun(s: string): (n: nat)
    ensures n <= |s|
    ensures forall j :: |s| - n <= j < |s| ==> !IsLineBreak(s[j])
    ensures n < |s| ==> IsLineBreak(s[|s| - n - 1])
  {
    if s == [] || IsLineBreak(s[|s| - 1]) then 0 else TrailingRun(s[..|s| - 1]) + 1
  }

  /** The codes of the characters of `s` other than line breaks, in order. */
  function LetterCodes(s: string): seq<int>
  {
    if s == [] then []
    else LetterCodes(s[..|s| - 1]) + (if IsLineBreak(s[|s| - 1]) then [] else [s[|s| - 1] as int])
  }

  /**
   * Position `j` makes the loader fail: a line break that ends a line of a
   * length other than 0 and 5, or a character that is not a letter.
   */
  predicate Faulty(text: string, j: nat)
    requires j < |text|
  {
    if IsLineBreak(text[j]) then TrailingRun(text[..j]) != 0 && TrailingRun(text[..j]) != 5
    else !CharCodeIsLetter(text[j] as int as real)
  }

  /** The error reported for a faulty position. */
  function FaultAt(text: string, j: nat): ParseError
    requires j < |text|
  {
    if IsLineBreak(text[j]) then BadLineLength(TrailingRun(text[..j]))
    else InvalidChar(text[j], text[j] as int)
  }

  /** No position of `text` is faulty. */
  predicate WellFormed(text: string)
  {
    forall j :: 0 <= j < |text| ==> !Faulty(text, j)
  }

  /** `j` is the first faulty position of `text`. */
  predicate FirstFault(text: string, j: nat)
  {
    j < |text| && Faulty(text, j) && forall i :: 0 <= i < j ==> !Faulty(text, i)
  }

  /**
   * The generator of the loader: scans the text once, counting the letters of
   * the current line, and yields the code of every letter. It fails at the
   * first character that is not a letter or line break, and at the first line
   * break that ends a line whose length is neither 0 nor 5.
   */
  method ParseLetters(text: string) returns (r: Result<seq<int>, ParseError>)
    ensures r.Success? <==> WellFormed(text)
    ensures r.Success? ==> r.value == LetterCodes(text)
    ensures r.Success? ==> forall b :: b in r.value ==> 97 <= b <= 122
    ensures r.Failure? ==> exists j :: FirstFault(text, j) && r.error == FaultAt(text, j)
  {
    var nLetters := 0;
    var out: seq<int> := [];
    var i := 0;
    while i < |text|
      invariant 0 <= i <= |text|
      invariant nLetters == TrailingRun(text[..i])
      invariant out == LetterCodes(text[..i])
      invariant forall b :: b in out ==> 97 <= b <= 122
      invariant forall j :: 0 <= j < i ==> !Faulty(text, j)
    {
      var ch := text[i];
      assert text[..i + 1][..i] == text[..i];
      if IsLineBreak(ch) {
        if nLetters != 5 && nLetters != 0 {
          assert FirstFault(text, i);
          return Failure(BadLineLength(nLetters));
        }
        nLetters := 0;
      } else {
        nLetters := nLetters + 1;
        var c := ch as int;
        if !CharCodeIsLetter(c as real) {
          assert FirstFault(text, i);
          return Failure(InvalidChar(ch, c));
        }
        out := out + [c];
      }
      i := i + 1;
    }
    assert text[..i] == text;
    r := Success(out);
  }

  /** The loader accepts `text`: no faulty position and whole five-letter words. */
  predicate LoadAccepts(text: string)
  {
    WellFormed(text) && |LetterCodes(text)| % 5 == 0
  }

  /**
   * The whole loader as written: the generator, then the check that the number
   * of letters is a multiple of five.
   */
  method LoadWordList(text: string) returns (r: Result<seq<int>, ParseError>)
    ensures r.Success? <==> LoadAccepts(text)
    ensures r.Success? ==> r.value == LetterCodes(text) && |r.value| % 5 == 0
    ensures r.Success? ==> forall b :: b in r.value ==> 97 <= b <= 122
    ensures r.Failure? && !WellFormed(text) ==> exists j :: FirstFault(text, j) && r.error == FaultAt(text, j)
    ensures r.Failure? && WellFormed(text) ==> r.error == BadTotalLength(|LetterCodes(text)|)
  {
    r := ParseLetters(text);
    if r.Success? && |r.value| % 5 != 0 {
      r := Failure(BadTotalLength(|r.value|));
    }
  }

  /** Every line of `text`, the last one included, has 0 or 5 letters. */
  predicate StrictlyWellFormed(text: string)
  {
    WellFormed(text) && (TrailingRun(text) == 0 || TrailingRun(text) == 5)
  }

  /**
   * A last line without a line break escapes the length check of the
   * generator: ten letters with no line break are accepted as two words.
   */
  lemma UnterminatedLineAccepted()
    ensures LoadAccepts("abcdefghij")
    ensures !StrictlyWellFormed("abcdefghij")
  {
    var t := "abcdefghij";
    forall j | 0 <= j < |t| ensures !Faulty(t, j) {
      assert !IsLineBreak(t[j]);
      assert 97 <= t[j] as int <= 122;
    }
    assert TrailingRun(t) == 10 by { TrailingRunNoBreaks(t); }
    assert LetterCodes(t) == [97, 98, 99, 100, 101, 102, 103, 104, 105, 106] by {
      LetterCodesNoBreaks(t);
    }
  }

  /** ... yet that text has a single non-empty line, of ten letters. */
  lemma UnterminatedLineIsOneLine()
    ensures |LineCodes("abcdefghij")| == 1
    ensures |LetterCodes("abcdefghij")| == 10
  {
    var t := "abcdefghij";
    assert forall j :: 0 <= j < |t| ==> !IsLineBreak(t[j]);
    OneLine(t);
    LetterCodesNoBreaks(t);
  }

  /** A non-empty string without line breaks is one line. */
  lemma {:induction false} OneLine(s: string)
    requires s != [] && forall j :: 0 <= j < |s| ==> !IsLineBreak(s[j])
    ensures |LineCodes(s)| == 1
  {
    var init := s[..|s| - 1];
    if init == [] {
      assert LineCodes(s) == LineCodes(init) + [[s[0] as int]];
    } else {
      OneLine(init);
      TrailingRunNoBreaks(init);
    }
  }

  /** Without line breaks the trailing run is the whole string. */
  lemma {:induction false} TrailingRunNoBreaks(s: string)
    requires forall j :: 0 <= j < |s| ==> !IsLineBreak(s[j])
    ensures TrailingRun(s) == |s|
  {
    if s != [] {
      TrailingRunNoBreaks(s[..|s| - 1]);
    }
  }

  /** Without line breaks the letter codes are the codes of every character. */
  lemma {:induction false} LetterCodesNoBreaks(s: string)
    requires forall j :: 0 <= j < |s| ==> !IsLineBreak(s[j])
    ensures LetterCodes(s) == seq(|s|, (j: int) requires 0 <= j < |s| => s[j] as int)
  {
    if s != [] {
      LetterCodesNoBreaks(s[..|s| - 1]);
    }
  }

  /** Appending a line break: the earlier positions are judged as before. */
  lemma AppendBreakPrefix(text: string, j: nat)
    requires j < |text|
    ensures (text + "\n")[j] == text[j] && (text + "\n")[..j] == text[..j]
    ensures Faulty(text + "\n", j) == Faulty(text, j)
    ensures FaultAt(text + "\n", j) == FaultAt(text, j)
  {
    assert (text + "\n")[..j] == text[..j];
  }

  /** Terminating the last line makes the generator check it too. */
  lemma AppendBreakWellFormed(text: string)
    ensures WellFormed(text + "\n") <==> StrictlyWellFormed(text)
    ensures LetterCodes(text + "\n") == LetterCodes(text)
  {
    var t := text + "\n";
    assert t[..|text|] == text;
    assert t[..|t| - 1] == text;
    forall j | 0 <= j < |text| ensures Faulty(t, j) == Faulty(text, j) {
      AppendBreakPrefix(text, j);
    }
    assert Faulty(t, |text|) <==> TrailingRun(text) != 0 && TrailingRun(text) != 5;
    if WellFormed(t) {
      assert !Faulty(t, |text|);
    }
    if StrictlyWellFormed(text) {
      forall j | 0 <= j < |t| ensures !Faulty(t, j) {
        if j < |text| {
          assert !Faulty(text, j);
        }
      }
    }
  }

  /**
   * In a text without faults, the letters seen so far are whole words plus
   * the letters of the current line.
   */
  lemma {:induction false} WordsSoFar(text: string, i: nat)
    requires i <= |text|
    requires forall j :: 0 <= j < i ==> !Faulty(text, j)
    ensures |LetterCodes(text[..i])| % 5 == TrailingRun(text[..i]) % 5
  {
    if i > 0 {
      WordsSoFar(text, i - 1);
      assert text[..i][..i - 1] == text[..i - 1];
      assert !Faulty(text, i - 1);
    }
  }

  /** When every line is checked, the letter count is a multiple of five. */
  lemma StrictWholeWords(text: string)
    requires StrictlyWellFormed(text)
    ensures |LetterCodes(text)| % 5 == 0
  {
    WordsSoFar(text, |text|);
    assert text[..|text|] == text;
  }

  /**
   * The letter codes of the non-empty lines of `s`, line by line; a line is
   * ended by a line break or by the end of `s`.
   */
  function LineCodes(s: string): (ls: seq<seq<int>>)
    ensures forall k :: 0 <= k < |ls| ==> |ls[k]| > 0
    ensures TrailingRun(s) > 0 ==> |ls| > 0 && |ls[|ls| - 1]| == TrailingRun(s)
  {
    if s == [] then []
    else
      var init, c := s[..|s| - 1], s[|s| - 1];
      var ls := LineCodes(init);
      if IsLineBreak(c) then ls
      else if TrailingRun(init) == 0 then ls + [[c as int]]
      else ls[..|ls| - 1] + [ls[|ls| - 1] + [c as int]]
  }

  /** The lines laid end to end. */
  function Flatten(ls: seq<seq<int>>): seq<int>
  {
    if ls == [] then [] else Flatten(ls[..|ls| - 1]) + ls[|ls| - 1]
  }

  /**
   * The letters of `s` are its lines laid end to end, and every line but an
   * unfinished last one has five letters.
   */
  predicate LinesInv(s: string)
  {
    LetterCodes(s) == Flatten(LineCodes(s)) &&
    forall k :: 0 <= k < |LineCodes(s)| - (if TrailingRun(s) > 0 then 1 else 0) ==> |LineCodes(s)[k]| == 5
  }

  /** A line break that ends a line of 0 or 5 letters keeps the invariant. */
  lemma LinesStepBreak(p: string, c: char)
    requires LinesInv(p) && IsLineBreak(c) && (TrailingRun(p) == 0 || TrailingRun(p) == 5)
    ensures LinesInv(p + [c])
  {
    var q := p + [c];
    assert q[..|q| - 1] == p;
  }

  /** A letter that starts a new line keeps the invariant. */
  lemma LinesStepStart(p: string, c: char)
    requires LinesInv(p) && !IsLineBreak(c) && TrailingRun(p) == 0
    ensures LinesInv(p + [c])
  {
    var q := p + [c];
    assert q[..|q| - 1] == p;
    var ls := LineCodes(p);
    assert LineCodes(q) == ls + [[c as int]];
    assert (ls + [[c as int]])[..|ls|] == ls;
  }

  /** A letter that extends the current line keeps the invariant. */
  lemma LinesStepExtend(p: string, c: char)
    requires LinesInv(p) && !IsLineBreak(c) && TrailingRun(p) > 0
    ensures LinesInv(p + [c])
  {
    var q := p + [c];
    assert q[..|q| - 1] == p;
    var ls := LineCodes(p);
    var n := |ls|;
    var last := ls[n - 1];
    var ls' := ls[..n - 1] + [last + [c as int]];
    assert LineCodes(q) == ls';
    assert ls'[..n - 1] == ls[..n - 1];
    assert ls == ls[..n - 1] + [last];
    assert Flatten(ls) == Flatten(ls[..n - 1]) + last;
    assert Flatten(ls') == Flatten(ls[..n - 1]) + (last + [c as int]);
  }

  /**
   * In a text without faults, the letters seen so far are the lines seen so
   * far laid end to end, and every line but the current one has five letters.
   */
  lemma {:induction false} LinesSoFar(text: string, i: nat)
    requires i <= |text|
    requires forall j :: 0 <= j < i ==> !Faulty(text, j)
    ensures LinesInv(text[..i])
  {
    if i == 0 {
      assert text[..0] == [];
    } else {
      var p := text[..i - 1];
      var c := text[i - 1];
      LinesSoFar(text, i - 1);
      assert text[..i] == p + [c];
      assert !Faulty(text, i - 1);
      if IsLineBreak(c) {
        LinesStepBreak(p, c);
      } else if TrailingRun(p) == 0 {
        LinesStepStart(p, c);
      } else {
        LinesStepExtend(p, c);
      }
    }
  }

  /** Lines of five letters each, laid end to end: chunk k is line k. */
  lemma {:induction false} FlattenChunks(ls: seq<seq<int>>)
    requires forall k :: 0 <= k < |ls| ==> |ls[k]| == 5
    ensures |Flatten(ls)| == 5 * |ls|
    ensures forall k :: 0 <= k < |ls| ==> Flatten(ls)[5 * k..5 * k + 5] == ls[k]
  {
    if ls != [] {
      var init := ls[..|ls| - 1];
      FlattenChunks(init);
      forall k | 0 <= k < |ls| ensures Flatten(ls)[5 * k..5 * k + 5] == ls[k] {
        if k < |init| {
          assert Flatten(ls)[5 * k..5 * k + 5] == Flatten(init)[5 * k..5 * k + 5];
        }
      }
    }
  }

  /**
   * When every line is checked, the letters are the non-empty lines, five
   * letters each, in order: chunk k of the output is the k-th non-empty line.
   */
  lemma StrictOneWordPerLine(text: string)
    requires StrictlyWellFormed(text)
    ensures forall k :: 0 <= k < |LineCodes(text)| ==> |LineCodes(text)[k]| == 5
    ensures |LetterCodes(text)| == 5 * |LineCodes(text)|
    ensures forall k :: 0 <= k < |LineCodes(text)| ==> LetterCodes(text)[5 * k..5 * k + 5] == LineCodes(text)[k]
  {
    LinesSoFar(text, |text|);
    assert text[..|text|] == text;
    assert LinesInv(text);
    FlattenChunks(LineCodes(text));
  }

  /**
   * The loader with the last line checked like the others: the generator runs
   * on the text with a line break appended, and the total-length check can
   * then never fail.
   */
  method LoadWordListStrict(text: string) returns (r: Result<seq<int>, ParseError>)
    ensures r.Success? <==> StrictlyWellFormed(text)
    ensures r.Success? ==> r.value == LetterCodes(text) && |r.value| % 5 == 0
    ensures r.Success? ==> forall b :: b in r.value ==> 97 <= b <= 122
    ensures r.Success? ==> |r.value| == 5 * |LineCodes(text)|
    ensures r.Success? ==> forall k :: 0 <= k < |LineCodes(text)| ==> r.value[5 * k..5 * k + 5] == LineCodes(text)[k]
    ensures r.Failure? ==> exists j :: FirstFault(text + "\n", j) && r.error == FaultAt(text + "\n", j)
  {
    AppendBreakWellFormed(text);
    r := ParseLetters(text + "\n");
    if r.Success? {
      StrictWholeWords(text);
      StrictOneWordPerLine(text);
      assert |r.value| % 5 == 0;
    }
  }
}
