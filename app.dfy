/**
 * The guess editor of the word-guessing helper: three five-slot guesses, a
 * cursor (word, letter), and the keyboard handler that moves the cursor,
 * types and erases letters and sets the colour of a slot.
 */
module App {
  import opened Wrappers

  /** The feedback tag of one slot. */
  datatype Color = Blank | Yellow | Green

  /** In the editor a letter is the string the keyboard reader returned. */
  datatype Slots = Slots(letters: seq<Option<string>>, colors: seq<Color>)

  /** A guess: five optional letters and five colours. */
  type Word = w: Slots | |w.letters| == 5 && |w.colors| == 5
    witness Slots([None, None, None, None, None], [Blank, Blank, Blank, Blank, Blank])

  /** The five letter slots of a guess. */
  type LetterRow = s: seq<Option<string>> | |s| == 5 witness [None, None, None, None, None]

  const NoLetters: LetterRow := [None, None, None, None, None]

  /** A guess with the given letters (by default none) and every colour blank. */
  function MakeWord(letters: LetterRow := NoLetters): (w: Word)
    ensures w.letters == letters
    ensures forall i :: 0 <= i < 5 ==> w.colors[i] == Blank
  {
    Slots(letters, [Blank, Blank, Blank, Blank, Blank])
  }

  /** Every letter slot of `w` holds a letter. */
  predicate IsFilled(w: Word)
    ensures IsFilled(w) <==> None !in w.letters
  {
    forall i :: 0 <= i < 5 ==> w.letters[i].Some?
  }

  /** `w` with the letter at slot `i` replaced. */
  function WithLetter(w: Word, i: int, l: Option<string>): Word
    requires 0 <= i < 5
  {
    w.(letters := w.letters[i := l])
  }

  /** `w` with the colour at slot `i` replaced. */
  function WithColor(w: Word, i: int, c: Color): Word
    requires 0 <= i < 5
  {
    w.(colors := w.colors[i := c])
  }

  // ---------------------------------------------------------------------------
  // Reading a letter from a key
  // ---------------------------------------------------------------------------

  /** `codePointAt(0) ?? 0`: the first code point of `s`, or 0 if it is empty. */
  function FirstCode(s: string): int
  {
    if |s| == 0 then 0 else s[0] as int
  }

  /** The test of the letter search: a string starting with 'A' to 'Z'. */
  predicate StartsUpper(s: string)
  {
    65 <= FirstCode(s) <= 90
  }

  /** The index of the first part that starts with an uppercase letter, or |parts|. */
  function FirstUpper(parts: seq<string>): (k: nat)
    ensures k <= |parts|
    ensures k < |parts| ==> StartsUpper(parts[k])
    ensures forall j :: 0 <= j < k ==> !StartsUpper(parts[j])
  {
    if parts == [] then 0
    else if StartsUpper(parts[0]) then 0
    else 1 + FirstUpper(parts[1..])
  }

  /**
   * The letter a key types. The Unicode normalisations and upper-casing are
   * not modelled: `normalizedLength` is the length of the key's NFKC form and
   * `upperedParts` are its NFKD code points, each upper-cased. A key types
   * something only if its NFKC form is one character long, and it types the
   * first upper-cased part that starts with 'A' to 'Z'.
   */
  function ReadLetter(normalizedLength: nat, upperedParts: seq<string>): (r: Option<string>)
    ensures normalizedLength != 1 ==> r == None
    ensures r.Some? ==> StartsUpper(r.value)
    ensures r.Some? ==> exists k :: 0 <= k < |upperedParts| && upperedParts[k] == r.value &&
                                    forall j :: 0 <= j < k ==> !StartsUpper(upperedParts[j])
    ensures normalizedLength == 1 && r.None? ==>
              forall j :: 0 <= j < |upperedParts| ==> !StartsUpper(upperedParts[j])
  {
    if normalizedLength != 1 then None
    else
      var k := FirstUpper(upperedParts);
      if k < |upperedParts| then Some(upperedParts[k]) else None
  }

  // ---------------------------------------------------------------------------
  // Keys and the editor
  // ---------------------------------------------------------------------------

  /** The keys the handler tells apart; any other key goes to ReadLetter. */
  datatype Key =
    | Tab
    | ArrowUp | ArrowDown | ArrowLeft | ArrowRight
    | Delete
    | Backspace(ctrlKey: bool)
    | Space | Minus | Equals
    | Other(normalizedLength: nat, upperedParts: seq<string>)

  /** The colour a colour key sets: '-' yellow, '=' green, space blank. */
  function KeyColor(key: Key): (c: Color)
    requires key.Space? || key.Minus? || key.Equals?
    ensures key.Space? <==> c == Blank
    ensures key.Minus? <==> c == Yellow
    ensures key.Equals? <==> c == Green
  {
    if key.Minus? then Yellow else if key.Equals? then Green else Blank
  }

  /** `Math.max(lo, Math.min(hi, x))`. */
  function Clamp(lo: int, hi: int, x: int): (r: int)
    requires lo <= hi
    ensures lo <= r <= hi
    ensures lo <= x <= hi ==> r == x
    ensures x < lo ==> r == lo
    ensures hi < x ==> r == hi
  {
    if x < lo then lo else if hi < x then hi else x
  }

  /** The state of the editor: the guesses and the active slot. */
  class Editor {
    var words: seq<Word>
    var activeWord: int
    var activeLetter: int

    /** The cursor is on an existing slot. */
    ghost predicate Valid()
      reads this
    {
      |words| > 0 && 0 <= activeWord < |words| && 0 <= activeLetter <= 4
    }

    /** The cursor as one index over all slots, guess after guess. */
    ghost function Slot(): int
      reads this
    {
      activeWord * 5 + activeLetter
    }

    /** Three empty guesses with the cursor on the first slot. */
    constructor ()
      ensures Valid()
      ensures words == [MakeWord(), MakeWord(), MakeWord()]
      ensures activeWord == 0 && activeLetter == 0
    {
      words := [MakeWord(), MakeWord(), MakeWord()];
      activeWord, activeLetter := 0, 0;
    }

    /** The keydown handler. */
    method Listener(key: Key)
      requires Valid()
      modifies this
      ensures Valid() && |words| == old(|words|)
      ensures key.Tab? ==>
        words == old(words) && activeWord == old(activeWord) && activeLetter == old(activeLetter)
      ensures key.ArrowUp? || key.ArrowDown? ==>
        words == old(words) && activeLetter == old(activeLetter) &&
        activeWord == Clamp(0, |words| - 1, old(activeWord) + if key.ArrowUp? then -1 else 1)
      ensures key.ArrowLeft? || key.ArrowRight? ==>
        words == old(words) && activeWord == old(activeWord) &&
        activeLetter == Clamp(0, 4, old(activeLetter) + if key.ArrowLeft? then -1 else 1)
      ensures key.Delete? || key == Backspace(true) ==>
        activeWord == old(activeWord) && activeLetter == 0 &&
        words == old(words)[activeWord := old(words)[activeWord].(letters := NoLetters)]
      ensures key == Backspace(false) ==>
        Slot() == (if old(Slot()) == 5 * |words| - 1 then old(Slot()) else if old(Slot()) == 0 then 0 else old(Slot()) - 1)
      ensures key == Backspace(false) ==>
        words == old(words)[activeWord := WithLetter(old(words)[activeWord], activeLetter, None)]
      ensures key.Space? || key.Minus? || key.Equals? ==>
        activeWord == old(activeWord) && activeLetter == old(activeLetter) &&
        words == old(words)[activeWord := WithColor(old(words)[activeWord], activeLetter, KeyColor(key))]
      ensures key.Other? && ReadLetter(key.normalizedLength, key.upperedParts).None? ==>
        words == old(words) && activeWord == old(activeWord) && activeLetter == old(activeLetter)
      ensures key.Other? && ReadLetter(key.normalizedLength, key.upperedParts).Some? ==>
        words == old(words)[old(activeWord) := WithLetter(old(words)[old(activeWord)], old(activeLetter),
                                                         ReadLetter(key.normalizedLength, key.upperedParts))]
      ensures key.Other? && ReadLetter(key.normalizedLength, key.upperedParts).Some? ==>
        if old(activeWord) < |words| - 1 && IsFilled(words[old(activeWord)]) then
          activeWord == old(activeWord) + 1 && activeLetter == 0
        else
          activeWord == old(activeWord) &&
          activeLetter == (if old(activeLetter) != 4 then old(activeLetter) + 1 else 4)
    {
      match key {
        case Tab =>
        case ArrowUp =>
          activeWord := Clamp(0, |words| - 1, activeWord - 1);
        case ArrowDown =>
          activeWord := Clamp(0, |words| - 1, activeWord + 1);
        case ArrowLeft =>
          activeLetter := Clamp(0, 4, activeLetter - 1);
        case ArrowRight =>
          activeLetter := Clamp(0, 4, activeLetter + 1);
        case Delete =>
          ClearActiveWord();
        case Backspace(ctrl) =>
          if ctrl {
            ClearActiveWord();
          } else {
            if activeWord == |words| - 1 && activeLetter == 4 {
              // the last slot stays put
            } else if activeLetter > 0 {
              activeLetter := activeLetter - 1;
            } else if activeWord > 0 {
              activeLetter := 4;
              activeWord := activeWord - 1;
            }
            words := words[activeWord := WithLetter(words[activeWord], activeLetter, None)];
          }
        case Space =>
          words := words[activeWord := WithColor(words[activeWord], activeLetter, KeyColor(key))];
        case Minus =>
          words := words[activeWord := WithColor(words[activeWord], activeLetter, KeyColor(key))];
        case Equals =>
          words := words[activeWord := WithColor(words[activeWord], activeLetter, KeyColor(key))];
        case Other(normalizedLength, upperedParts) =>
          var letter := ReadLetter(normalizedLength, upperedParts);
          if letter.Some? {
            words := words[activeWord := WithLetter(words[activeWord], activeLetter, letter)];
            if activeWord < |words| - 1 && IsFilled(words[activeWord]) {
              activeWord := activeWord + 1;
              activeLetter := 0;
            } else if activeLetter != 4 {
              activeLetter := activeLetter + 1;
            }
          }
      }
    }

    /** Delete, or Ctrl+Backspace: empty every letter of the active guess. */
    method ClearActiveWord()
      requires Valid()
      modifies this
      ensures Valid()
      ensures activeWord == old(activeWord) && activeLetter == 0
      ensures words == old(words)[activeWord := old(words)[activeWord].(letters := NoLetters)]
    {
      words := words[activeWord := words[activeWord].(letters := NoLetters)];
      activeLetter := 0;
    }
  }
}
