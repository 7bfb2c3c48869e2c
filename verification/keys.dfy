/** The board's six holes and the keyboard table that names them.

    A key press is routed on the upper-cased key name: the space bar, "ESCAPE",
    or one of the six letters Q W E A S D, which select hole1 .. hole6.
 */
module Keys {

  /** Number of holes on the board. */
  const HoleCount := 6

  /** A hole by zero-based position: position i is the element with id "hole<i+1>". */
  type Hole = i: int | 0 <= i < HoleCount

  datatype Option<T> = None | Some(value: T)

  /** The key-map letters in hole order: KeyLetters[i] selects hole i. */
  const KeyLetters: string := "QWEASD"

  /** Upper case of one character, as `toUpperCase` yields it for every character
      whose upper case is a single ASCII letter: a-z, dotless i and long s. */
  function UpperChar(c: char): char
  {
    if 'a' <= c <= 'z' then (c as int - 32) as char
    else if c == '\U{0131}' then 'I'
    else if c == '\U{017F}' then 'S'
    else c
  }

  /** Upper-cases a key name character by character. */
  function ToUpper(s: string): (u: string)
    ensures |u| == |s|
    ensures forall i :: 0 <= i < |s| ==> u[i] == UpperChar(s[i])
  {
    if |s| == 0 then [] else [UpperChar(s[0])] + ToUpper(s[1..])
  }

  /** Upper-casing a second time changes nothing. */
  lemma ToUpperIdempotent(s: string)
    ensures ToUpper(ToUpper(s)) == ToUpper(s)
  {
  }

  /** The key table, looked up with an already upper-cased key name. */
  function KeyMap(k: string): Option<Hole>
  {
    if k == "Q" then Some(0)
    else if k == "W" then Some(1)
    else if k == "E" then Some(2)
    else if k == "A" then Some(3)
    else if k == "S" then Some(4)
    else if k == "D" then Some(5)
    else None
  }

  /** The hole a key press names, if any: the table looked up on the upper-cased key. */
  function HoleForKey(key: string): Option<Hole>
  {
    KeyMap(ToUpper(key))
  }

  /** The table is a bijection between the six one-letter names in KeyLetters and
      the six holes: each letter selects its own hole and nothing else selects one. */
  lemma KeyMapBijective(k: string, h: Hole)
    ensures KeyMap(k) == Some(h) <==> k == [KeyLetters[h]]
  {
  }

  /** Distinct holes have distinct letters, so no key selects two holes. */
  lemma KeyLettersDistinct(h1: Hole, h2: Hole)
    ensures KeyLetters[h1] == KeyLetters[h2] <==> h1 == h2
  {
  }

  /** Lower-case partner of a key-map letter. */
  function LowerLetter(h: Hole): char
  {
    (KeyLetters[h] as int + 32) as char
  }

  /** A character upper-cases to a key-map letter exactly when it is that letter,
      its lower-case form, or (for S only) the long s. */
  lemma UpperCharToLetter(c: char, h: Hole)
    ensures UpperChar(c) == KeyLetters[h]
        <==> c == KeyLetters[h] || c == LowerLetter(h) || (h == 4 && c == '\U{017F}')
  {
  }

  /** Key routing is case-insensitive: a key selects hole h exactly when it is one
      character long and that character is h's letter in either case (or long s for S). */
  lemma HoleForKeyCases(key: string, h: Hole)
    ensures HoleForKey(key) == Some(h)
        <==> |key| == 1 && (key[0] == KeyLetters[h] || key[0] == LowerLetter(h)
                            || (h == 4 && key[0] == '\U{017F}'))
  {
  }

  /** Upper-casing the key first does not change the hole it selects. */
  lemma HoleForKeyCaseInsensitive(key: string)
    ensures HoleForKey(ToUpper(key)) == HoleForKey(key)
  {
  }
}
