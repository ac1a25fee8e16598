/**
 * The fixed 12-name chromatic list that every core file repeats as a local
 * `noteNames` (or `notes`) array, and the two JavaScript primitives the note
 * arithmetic relies on: `Array.prototype.indexOf` and the `%` operator.
 */
module Notes {

  /** Sharp spellings only: flat names such as "Bb" are not in the list. */
  const NoteNames: seq<string> := ["C", "C#", "D", "D#", "E", "F", "F#", "G", "G#", "A", "A#", "B"]

  /** `names.indexOf(x)`: the first index holding `x`, or -1 when there is none (see `IndexOfSpec`). */
  function IndexOf(names: seq<string>, x: string): (r: int)
    ensures -1 <= r < |names|
  {
    if names == [] then -1
    else if names[0] == x then 0
    else
      var k := IndexOf(names[1..], x);
      if k == -1 then -1 else k + 1
  }

  /** `IndexOf` finds the first occurrence, and gives -1 exactly for a name not in the list. */
  lemma {:induction false} IndexOfSpec(names: seq<string>, x: string)
    ensures var r := IndexOf(names, x);
      r >= 0 ==> names[r] == x && forall j :: 0 <= j < r ==> names[j] != x
    ensures IndexOf(names, x) == -1 <==> x !in names
  {
    if names != [] && names[0] != x {
      IndexOfSpec(names[1..], x);
      assert names == [names[0]] + names[1..];
    }
  }

  /** The chromatic index of a natural letter, -1 for any other character. */
  function LetterChroma(c: char): int
  {
    if c == 'C' then 0 else if c == 'D' then 2 else if c == 'E' then 4 else if c == 'F' then 5
    else if c == 'G' then 7 else if c == 'A' then 9 else if c == 'B' then 11 else -1
  }

  /**
   * `noteNames.indexOf(note)`: the chromatic index of a note name, -1 for a
   * name outside the list. It is computed from the letter and an optional
   * sharp (E and B have none), which `ChromaIsIndexOf` proves is the same
   * as searching the list.
   */
  function Chroma(note: string): (r: int)
    ensures -1 <= r < 12
  {
    if |note| == 1 then LetterChroma(note[0])
    else if |note| == 2 && note[1] == '#' && LetterChroma(note[0]) >= 0 && note[0] != 'E' && note[0] != 'B'
    then LetterChroma(note[0]) + 1
    else -1
  }

  /** A name with an index is the list's name at that index. */
  lemma NameAtChroma(note: string)
    ensures Chroma(note) >= 0 ==> NoteNames[Chroma(note)] == note
  {
    if Chroma(note) >= 0 {
      var c := note[0];
      if |note| == 1 {
        assert note == [c];
      } else {
        assert note == [c, '#'];
      }
    }
  }

  /** The letter-and-sharp computation agrees with `noteNames.indexOf(note)` on every string. */
  lemma ChromaIsIndexOf(note: string)
    ensures Chroma(note) == IndexOf(NoteNames, note)
  {
    IndexOfSpec(NoteNames, note);
    var r := IndexOf(NoteNames, note);
    if r >= 0 {
      ChromaOfName(r);
    } else {
      NameAtChroma(note);
    }
  }

  /**
   * JavaScript's `a % 12`: the remainder truncates toward zero, so it takes
   * the sign of `a` (unlike Dafny's Euclidean `%`). Every modulus in the core
   * is 12, the length of the note list and of the key catalog.
   */
  function Rem(a: int): (r: int)
    ensures -12 < r < 12
    ensures (a - r) % 12 == 0
    ensures a >= 0 ==> r >= 0
    ensures a < 0 ==> r <= 0
  {
    if a >= 0 then a % 12 else -((-a) % 12)
  }

  /** The semitones up from index `from` to index `to`, in 0..11. */
  function Interval(from: int, to: int): (d: int)
    requires 0 <= from < 12 && 0 <= to < 12
    ensures 0 <= d < 12
    ensures d == 0 <==> from == to
  {
    if to >= from then to - from else to - from + 12
  }

  /** Going up `Interval(from, to)` semitones from `from` lands on `to`. */
  lemma IntervalLands(from: int, to: int)
    requires 0 <= from < 12 && 0 <= to < 12
    ensures Rem(from + Interval(from, to)) == to
    ensures Interval(from, to) == (to - from) % 12
  {
  }

  /** On a non-negative operand JavaScript's `%` is Dafny's. */
  lemma RemOfNonNegative(a: int)
    requires a >= 0
    ensures Rem(a) == a % 12
  {
  }

  /** No name appears twice in the list. */
  lemma NoteNamesDistinct()
    ensures forall i, j :: 0 <= i < j < |NoteNames| ==> NoteNames[i] != NoteNames[j]
  {
  }

  /** Every name of the list is found at its own index: the names are distinct. */
  lemma ChromaOfName(i: int)
    requires 0 <= i < |NoteNames|
    ensures Chroma(NoteNames[i]) == i
  {
  }

  /** A name is in the list exactly when its chromatic index is not -1, and then it is at that index. */
  lemma ChromaKnown(note: string)
    ensures Chroma(note) >= 0 <==> note in NoteNames
    ensures Chroma(note) >= 0 ==> NoteNames[Chroma(note)] == note
  {
    ChromaIsIndexOf(note);
    IndexOfSpec(NoteNames, note);
  }
}
