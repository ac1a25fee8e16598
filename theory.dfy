/**
 * The music-theory data and lookups of the application object
 * (miniprogram/app.js): the catalog of 12 major keys, the six open strings,
 * `getKeyInfo`, and the fret locator `getNotePositions`.
 */
module Theory {
  import opened Wrappers
  import opened Notes

  /** One entry of `circleOfFifths`. */
  datatype Key = Key(
    name: string,
    note: string,
    scale: seq<string>,
    chords: seq<string>,
    sharps: int,
    flats: int,
    angle: int)

  /** One entry of `guitarStrings`; `baseFret` is kept but never read by the core. */
  datatype GuitarString = GuitarString(stringNumber: int, openNote: string, baseFret: int)

  /** An object pushed by the locator. */
  datatype Position = Position(stringNumber: int, fret: int, note: string)

  /** The locator scans frets 0..MaxFret inclusive. */
  const MaxFret := 12

  /**
   * `circleOfFifths`, in the source's array order: C G D A E B F# at indices
   * 0..6, then F Bb Eb Ab Db at 7..11, whose angles run back down from 330.
   */
  function Catalog(): (c: seq<Key>)
    ensures |c| == 12
  {
    [
      Key("C大调", "C", ["C", "D", "E", "F", "G", "A", "B"],
          ["C", "Dm", "Em", "F", "G", "Am", "Bdim"], 0, 0, 0),
      Key("G大调", "G", ["G", "A", "B", "C", "D", "E", "F#"],
          ["G", "Am", "Bm", "C", "D", "Em", "F#dim"], 1, 0, 30),
      Key("D大调", "D", ["D", "E", "F#", "G", "A", "B", "C#"],
          ["D", "Em", "F#m", "G", "A", "Bm", "C#dim"], 2, 0, 60),
      Key("A大调", "A", ["A", "B", "C#", "D", "E", "F#", "G#"],
          ["A", "Bm", "C#m", "D", "E", "F#m", "G#dim"], 3, 0, 90),
      Key("E大调", "E", ["E", "F#", "G#", "A", "B", "C#", "D#"],
          ["E", "F#m", "G#m", "A", "B", "C#m", "D#dim"], 4, 0, 120),
      Key("B大调", "B", ["B", "C#", "D#", "E", "F#", "G#", "A#"],
          ["B", "C#m", "D#m", "E", "F#", "G#m", "A#dim"], 5, 0, 150),
      Key("F#大调", "F#", ["F#", "G#", "A#", "B", "C#", "D#", "E#"],
          ["F#", "G#m", "A#m", "B", "C#", "D#m", "E#dim"], 6, 0, 180),
      Key("F大调", "F", ["F", "G", "A", "Bb", "C", "D", "E"],
          ["F", "Gm", "Am", "Bb", "C", "Dm", "Edim"], 0, 1, 330),
      Key("Bb大调", "Bb", ["Bb", "C", "D", "Eb", "F", "G", "A"],
          ["Bb", "Cm", "Dm", "Eb", "F", "Gm", "Adim"], 0, 2, 300),
      Key("Eb大调", "Eb", ["Eb", "F", "G", "Ab", "Bb", "C", "D"],
          ["Eb", "Fm", "Gm", "Ab", "Bb", "Cm", "Ddim"], 0, 3, 270),
      Key("Ab大调", "Ab", ["Ab", "Bb", "C", "Db", "Eb", "F", "G"],
          ["Ab", "Bbm", "Cm", "Db", "Eb", "Fm", "Gdim"], 0, 4, 240),
      Key("Db大调", "Db", ["Db", "Eb", "F", "Gb", "Ab", "Bb", "C"],
          ["Db", "Ebm", "Fm", "Gb", "Ab", "Bbm", "Cdim"], 0, 5, 210)
    ]
  }

  /** `guitarStrings`: standard tuning, string 1 (high E) to string 6 (low E). */
  function Strings(): (s: seq<GuitarString>)
    ensures |s| == 6
    ensures forall i :: 0 <= i < |s| ==> s[i].stringNumber == i + 1
    ensures KnownOpenNotes(s)
  {
    [
      GuitarString(1, "E", 64),
      GuitarString(2, "B", 59),
      GuitarString(3, "G", 55),
      GuitarString(4, "D", 50),
      GuitarString(5, "A", 45),
      GuitarString(6, "E", 40)
    ]
  }

  /** `k` has the shape of every catalog entry: 7 scale notes and 7 chords. */
  predicate WellFormedKey(k: Key)
  {
    |k.scale| == 7 && |k.chords| == 7
  }

  /** Every open note of the table is one of the 12 names. */
  predicate KnownOpenNotes(strings: seq<GuitarString>)
  {
    forall i :: 0 <= i < |strings| ==> strings[i].openNote in NoteNames
  }

  /** A table shaped like `guitarStrings`: strings numbered 1..6 in order. */
  predicate NumberedStrings(strings: seq<GuitarString>)
  {
    |strings| == 6 && forall i :: 0 <= i < 6 ==> strings[i].stringNumber == i + 1
  }

  // ---------------------------------------------------------------------------
  // Catalog facts

  /**
   * Every entry has a 7-note scale and 7 chords, its name is its root note
   * followed by "大调" (major), and both its scale and its chords start on
   * that root.
   */
  lemma CatalogShape()
    ensures forall i :: 0 <= i < 12 ==> |Catalog()[i].scale| == 7 && |Catalog()[i].chords| == 7
    ensures forall i :: 0 <= i < 12 ==>
      Catalog()[i].name == Catalog()[i].note + "大调" &&
      Catalog()[i].scale[0] == Catalog()[i].note && Catalog()[i].chords[0] == Catalog()[i].note
  {
  }

  /** At most one of the accidental counts is nonzero, and only C has neither. */
  lemma CatalogAccidentals()
    ensures forall i :: 0 <= i < 12 ==> Catalog()[i].sharps >= 0 && Catalog()[i].flats >= 0
    ensures forall i :: 0 <= i < 12 ==> Catalog()[i].sharps == 0 || Catalog()[i].flats == 0
    ensures forall i :: 0 <= i < 12 ==> (Catalog()[i].sharps == 0 && Catalog()[i].flats == 0 <==> i == 0)
  {
  }

  /** Indices 0..6 sit at 30 degrees apart from 0; indices 7..11 run back down from 330. */
  lemma CatalogAngles()
    ensures forall i :: 0 <= i < 7 ==> Catalog()[i].angle == 30 * i
    ensures forall i :: 7 <= i < 12 ==> Catalog()[i].angle == 330 - 30 * (i - 7)
  {
  }

  /** A table shaped like `circleOfFifths`: 12 well-formed keys. */
  predicate CatalogShaped(keys: seq<Key>)
  {
    |keys| == 12 && forall i :: 0 <= i < 12 ==> WellFormedKey(keys[i])
  }

  /** The catalog has that shape. */
  lemma CatalogIsShaped()
    ensures CatalogShaped(Catalog())
  {
    CatalogShape();
  }

  /** The angles are distinct multiples of 30 in [0, 330]. */
  lemma AnglesDistinct()
    ensures forall i :: 0 <= i < 12 ==> 0 <= Catalog()[i].angle <= 330 && Catalog()[i].angle % 30 == 0
    ensures forall i, j :: 0 <= i < j < 12 ==> Catalog()[i].angle != Catalog()[j].angle
  {
    CatalogAngles();
  }

  /**
   * Array order is not angle order: the entry after F# (index 6, angle 180)
   * is F at angle 330, and the entry before C is Db at angle 210.
   */
  lemma ArrayOrderIsNotAngleOrder()
    ensures Catalog()[6].angle == 180 && Catalog()[7].angle == 330
    ensures Catalog()[11].angle == 210
    ensures exists i :: 0 <= i < 11 && Catalog()[i + 1].angle != Catalog()[i].angle + 30
  {
    assert Catalog()[7].angle != Catalog()[6].angle + 30;
  }

  /** No two entries share a name. */
  lemma CatalogNamesDistinct()
    ensures forall i, j :: 0 <= i < j < 12 ==> Catalog()[i].name != Catalog()[j].name
  {
    var c := Catalog();
    CatalogShape();
    forall i, j | 0 <= i < j < 12 ensures c[i].name != c[j].name {
      assert c[i].note != c[j].note;
      assert c[i].name[..|c[i].note|] == c[i].note;
      if |c[i].note| == |c[j].note| {
        assert c[j].name[..|c[j].note|] == c[j].note;
      } else {
        assert |c[i].name| != |c[j].name|;
      }
    }
  }

  // ---------------------------------------------------------------------------
  // getKeyInfo

  /** `keys.findIndex(k => k.name === name)`: the first index with that name, or -1. */
  function FindKeyIndex(keys: seq<Key>, name: string): (r: int)
    ensures -1 <= r < |keys|
    ensures r >= 0 ==> keys[r].name == name && forall j :: 0 <= j < r ==> keys[j].name != name
    ensures r == -1 <==> forall j :: 0 <= j < |keys| ==> keys[j].name != name
  {
    if keys == [] then -1
    else if keys[0].name == name then 0
    else
      var k := FindKeyIndex(keys[1..], name);
      if k == -1 then -1 else k + 1
  }

  /** Each catalog entry is found, by name, at its own index. */
  lemma FindCatalogName(i: int)
    requires 0 <= i < 12
    ensures FindKeyIndex(Catalog(), Catalog()[i].name) == i
  {
    CatalogNamesDistinct();
  }

  /** `getKeyInfo(name)`: the first catalog entry named `name`, or nothing. */
  function GetKeyInfo(name: string): (r: Option<Key>)
    ensures r.Some? ==> r.value in Catalog() && r.value.name == name
    ensures r.None? <==> forall k :: k in Catalog() ==> k.name != name
  {
    var i := FindKeyIndex(Catalog(), name);
    if i == -1 then None else Some(Catalog()[i])
  }

  // ---------------------------------------------------------------------------
  // getNotePositions: specification

  /**
   * The test of the locator's inner loop, `(openNoteIndex + fret) % 12 ===
   * targetNoteIndex`, on the chromatic indices of the open note and the target.
   */
  predicate Sounds(open: int, fret: int, target: int)
  {
    Rem(open + fret) == target
  }

  /**
   * What the inner loop pushes for the string numbered `number`, whose open
   * note has index `open`, after scanning frets 0..k-1.
   */
  function FretScan(number: int, open: int, target: int, note: string, k: nat): seq<Position>
  {
    if k == 0 then []
    else
      FretScan(number, open, target, note, k - 1) +
      (if Sounds(open, k - 1, target) then [Position(number, k - 1, note)] else [])
  }

  /** Everything the inner loop pushes for string `s`. */
  function StringScan(s: GuitarString, note: string): seq<Position>
  {
    FretScan(s.stringNumber, Chroma(s.openNote), Chroma(note), note, MaxFret + 1)
  }

  /** What the outer loop has pushed after visiting every string of `strings`, in order. */
  function Locate(strings: seq<GuitarString>, note: string): seq<Position>
  {
    if strings == [] then []
    else Locate(strings[..|strings| - 1], note) + StringScan(strings[|strings| - 1], note)
  }

  lemma LocateStep(strings: seq<GuitarString>, i: int, note: string)
    requires 0 <= i < |strings|
    ensures Locate(strings[..i + 1], note) == Locate(strings[..i], note) + StringScan(strings[i], note)
  {
    assert strings[..i + 1][..i] == strings[..i];
  }

  // ---------------------------------------------------------------------------
  // getNotePositions: soundness, completeness, order and size

  /** Every match of one string is on that string, for that note, below `k`, and passes the test. */
  lemma {:induction false} FretScanSound(number: int, open: int, target: int, note: string, k: nat)
    ensures forall p :: p in FretScan(number, open, target, note, k) ==>
      p.stringNumber == number && p.note == note && 0 <= p.fret < k && Sounds(open, p.fret, target)
  {
    if k > 0 {
      FretScanSound(number, open, target, note, k - 1);
    }
  }

  /** Every fret below `k` that passes the test is reported. */
  lemma {:induction false} FretScanComplete(number: int, open: int, target: int, note: string, k: nat, fret: int)
    requires 0 <= fret < k && Sounds(open, fret, target)
    ensures Position(number, fret, note) in FretScan(number, open, target, note, k)
  {
    if fret < k - 1 {
      FretScanComplete(number, open, target, note, k - 1, fret);
    }
  }

  /** The frets of `ps` are strictly ascending. */
  predicate FretsAscending(ps: seq<Position>)
  {
    forall a, b :: 0 <= a < b < |ps| ==> ps[a].fret < ps[b].fret
  }

  /** Within one string the frets come out strictly ascending. */
  lemma {:induction false} FretScanAscending(number: int, open: int, target: int, note: string, k: nat)
    ensures FretsAscending(FretScan(number, open, target, note, k))
  {
    if k > 0 {
      var prev := FretScan(number, open, target, note, k - 1);
      FretScanAscending(number, open, target, note, k - 1);
      FretScanSound(number, open, target, note, k - 1);
      if Sounds(open, k - 1, target) {
        var r := prev + [Position(number, k - 1, note)];
        assert FretScan(number, open, target, note, k) == r;
        forall a, b | 0 <= a < b < |r| ensures r[a].fret < r[b].fret {
          assert r[a] == prev[a] && prev[a] in prev;
          if b < |prev| {
            assert r[b] == prev[b];
          }
        }
      } else {
        assert FretScan(number, open, target, note, k) == prev;
      }
    }
  }

  /**
   * Soundness: every located position lies on a string of the table, at a
   * fret in 0..12, carries the requested name, and passes the source's
   * `(openIndex + fret) % 12 === targetIndex` test.
   */
  lemma {:induction false} LocateSound(strings: seq<GuitarString>, note: string, p: Position)
    requires p in Locate(strings, note)
    ensures 0 <= p.fret <= MaxFret && p.note == note
    ensures exists i :: (0 <= i < |strings| && strings[i].stringNumber == p.stringNumber &&
      Sounds(Chroma(strings[i].openNote), p.fret, Chroma(note)))
  {
    var n := |strings| - 1;
    var last := strings[n];
    if p in Locate(strings[..n], note) {
      LocateSound(strings[..n], note, p);
      var i :| 0 <= i < n && strings[..n][i].stringNumber == p.stringNumber &&
        Sounds(Chroma(strings[..n][i].openNote), p.fret, Chroma(note));
      assert strings[i] == strings[..n][i];
    } else {
      FretScanSound(last.stringNumber, Chroma(last.openNote), Chroma(note), note, MaxFret + 1);
      assert strings[n].stringNumber == p.stringNumber;
    }
  }

  /**
   * Completeness: every (string, fret <= 12) of the table that passes the
   * test is located.
   */
  lemma {:induction false} LocateComplete(strings: seq<GuitarString>, note: string, i: int, fret: int)
    requires 0 <= i < |strings| && 0 <= fret <= MaxFret
    requires Sounds(Chroma(strings[i].openNote), fret, Chroma(note))
    ensures Position(strings[i].stringNumber, fret, note) in Locate(strings, note)
  {
    var n := |strings| - 1;
    if i < n {
      assert strings[..n][i] == strings[i];
      LocateComplete(strings[..n], note, i, fret);
    } else {
      FretScanComplete(strings[i].stringNumber, Chroma(strings[i].openNote), Chroma(note), note, MaxFret + 1, fret);
    }
  }

  /** Position `p` comes before `q` in string-table order, then ascending fret. */
  predicate Before(p: Position, q: Position)
  {
    p.stringNumber < q.stringNumber || (p.stringNumber == q.stringNumber && p.fret < q.fret)
  }

  /** Every position of `ps` comes before all later ones. */
  predicate Ordered(ps: seq<Position>)
  {
    forall a, b :: 0 <= a < b < |ps| ==> Before(ps[a], ps[b])
  }

  /** The table lists its strings by increasing number. */
  predicate NumbersIncrease(strings: seq<GuitarString>)
  {
    forall i, j :: 0 <= i < j < |strings| ==> strings[i].stringNumber < strings[j].stringNumber
  }

  /** Every position located on a table whose numbers lie below `bound` has a number below `bound`. */
  lemma {:induction false} LocateNumbersBelow(strings: seq<GuitarString>, note: string, bound: int)
    requires forall i :: 0 <= i < |strings| ==> strings[i].stringNumber < bound
    ensures forall p :: p in Locate(strings, note) ==> p.stringNumber < bound
  {
    if strings != [] {
      var n := |strings| - 1;
      var last := strings[n];
      LocateNumbersBelow(strings[..n], note, bound);
      FretScanSound(last.stringNumber, Chroma(last.openNote), Chroma(note), note, MaxFret + 1);
    }
  }

  /**
   * Order: when the table lists strings by increasing number (as
   * `guitarStrings` does), the result is sorted by string, then by fret.
   */
  lemma {:induction false} LocateOrdered(strings: seq<GuitarString>, note: string)
    requires NumbersIncrease(strings)
    ensures Ordered(Locate(strings, note))
  {
    if strings != [] {
      var n := |strings| - 1;
      var last := strings[n];
      var prev := Locate(strings[..n], note);
      var scan := FretScan(last.stringNumber, Chroma(last.openNote), Chroma(note), note, MaxFret + 1);
      assert NumbersIncrease(strings[..n]);
      LocateOrdered(strings[..n], note);
      FretScanAscending(last.stringNumber, Chroma(last.openNote), Chroma(note), note, MaxFret + 1);
      FretScanSound(last.stringNumber, Chroma(last.openNote), Chroma(note), note, MaxFret + 1);
      assert forall i :: 0 <= i < n ==> strings[..n][i].stringNumber < last.stringNumber;
      LocateNumbersBelow(strings[..n], note, last.stringNumber);
      var r := prev + scan;
      assert Locate(strings, note) == r;
      forall a, b | 0 <= a < b < |r| ensures Before(r[a], r[b]) {
        if b < |prev| {
          assert r[a] == prev[a] && r[b] == prev[b];
        } else if a >= |prev| {
          assert r[a] == scan[a - |prev|] && r[b] == scan[b - |prev|];
          assert r[a] in scan && r[b] in scan;
        } else {
          assert r[a] == prev[a] && r[b] == scan[b - |prev|];
          assert r[a] in prev && r[b] in scan;
        }
      }
    }
  }

  /**
   * A name outside the 12 sharp names (such as "Bb" or "E#") locates nothing
   * on a table of known open notes: -1 never equals `(open + fret) % 12`.
   */
  lemma {:induction false} LocateUnknownNote(strings: seq<GuitarString>, note: string)
    requires note !in NoteNames
    requires KnownOpenNotes(strings)
    ensures Locate(strings, note) == []
  {
    if strings != [] {
      var n := |strings| - 1;
      var last := strings[n];
      LocateUnknownNote(strings[..n], note);
      ChromaKnown(note);
      ChromaKnown(last.openNote);
      FretScanNegativeTarget(last.stringNumber, Chroma(last.openNote), Chroma(note), note, MaxFret + 1);
    }
  }

  /** A string with a known open note never sounds the index -1. */
  lemma {:induction false} FretScanNegativeTarget(number: int, open: int, target: int, note: string, k: nat)
    requires open >= 0 && target < 0
    ensures FretScan(number, open, target, note, k) == []
  {
    if k > 0 {
      FretScanNegativeTarget(number, open, target, note, k - 1);
    }
  }

  /** For known notes, fret `fret` in 0..12 sounds `target` exactly at the interval `d` or `d + 12`. */
  lemma SoundsAt(open: int, target: int, fret: int)
    requires 0 <= open < 12 && 0 <= target < 12 && 0 <= fret <= MaxFret
    ensures var d := Interval(open, target);
      Sounds(open, fret, target) <==> fret == d || fret == d + 12
  {
    RemOfNonNegative(open + fret);
  }

  /**
   * For known notes the scan of one string is exact: the single fret `d` in
   * 0..11 at which the string sounds the target, and fret 12 as well exactly
   * when `d` is 0 (the open string matched).
   */
  lemma {:induction false} FretScanExact(number: int, open: int, target: int, note: string, k: nat)
    requires 0 <= open < 12 && 0 <= target < 12 && k <= MaxFret + 1
    ensures var d := Interval(open, target);
      FretScan(number, open, target, note, k) ==
        (if d < k then [Position(number, d, note)] else []) +
        (if d == 0 && k == MaxFret + 1 then [Position(number, MaxFret, note)] else [])
  {
    if k > 0 {
      FretScanExact(number, open, target, note, k - 1);
      SoundsAt(open, target, k - 1);
    }
  }

  /** How many strings of `strings` have `note` as their open note. */
  function OpenCount(strings: seq<GuitarString>, note: string): nat
  {
    if strings == [] then 0
    else OpenCount(strings[..|strings| - 1], note) + (if strings[|strings| - 1].openNote == note then 1 else 0)
  }

  /**
   * Size: for a known name, each string contributes exactly one fret in
   * 0..11, plus fret 12 when its open note is that name.
   */
  lemma {:induction false} LocateCount(strings: seq<GuitarString>, note: string)
    requires note in NoteNames
    requires KnownOpenNotes(strings)
    ensures |Locate(strings, note)| == |strings| + OpenCount(strings, note)
  {
    if strings != [] {
      var n := |strings| - 1;
      LocateCount(strings[..n], note);
      StringScanCount(strings[n], note);
    }
  }

  /** One string with a known open note, scanned for a known name. */
  lemma StringScanCount(s: GuitarString, note: string)
    requires note in NoteNames && s.openNote in NoteNames
    ensures |StringScan(s, note)| == 1 + (if s.openNote == note then 1 else 0)
  {
    ChromaKnown(note);
    ChromaKnown(s.openNote);
    FretScanExact(s.stringNumber, Chroma(s.openNote), Chroma(note), note, MaxFret + 1);
    assert Chroma(s.openNote) == Chroma(note) <==> s.openNote == note;
  }

  lemma OpenCountStep(strings: seq<GuitarString>, i: int, note: string)
    requires 0 <= i < |strings|
    ensures OpenCount(strings[..i + 1], note) ==
      OpenCount(strings[..i], note) + (if strings[i].openNote == note then 1 else 0)
  {
    assert strings[..i + 1][..i] == strings[..i];
  }

  /** The open strings of the standard table, counted by name. */
  lemma StandardOpenCount(note: string)
    ensures OpenCount(Strings(), note) ==
      if note == "E" then 2 else if note in ["B", "G", "D", "A"] then 1 else 0
  {
    var t := Strings();
    assert t[..0] == [];
    OpenCountStep(t, 0, note);
    OpenCountStep(t, 1, note);
    OpenCountStep(t, 2, note);
    OpenCountStep(t, 3, note);
    OpenCountStep(t, 4, note);
    OpenCountStep(t, 5, note);
    assert t[..6] == t;
  }

  /**
   * On the standard table every known name is found 6 times plus once more
   * per open string of that name: 8 times for E, 7 for B, G, D and A, 6 otherwise.
   */
  lemma StandardCount(note: string)
    requires note in NoteNames
    ensures |Locate(Strings(), note)| == 6 + OpenCount(Strings(), note)
    ensures note == "E" ==> |Locate(Strings(), note)| == 8
    ensures note in ["B", "G", "D", "A"] ==> |Locate(Strings(), note)| == 7
    ensures note !in ["E", "B", "G", "D", "A"] ==> |Locate(Strings(), note)| == 6
  {
    LocateCount(Strings(), note);
    StandardOpenCount(note);
  }

  /** The exact scan of one string with a known open note, for a known name. */
  lemma StringScanExact(s: GuitarString, note: string)
    requires note in NoteNames && s.openNote in NoteNames
    ensures Chroma(note) >= 0 && Chroma(s.openNote) >= 0
    ensures var d := Interval(Chroma(s.openNote), Chroma(note));
      StringScan(s, note) ==
        [Position(s.stringNumber, d, note)] +
        (if d == 0 then [Position(s.stringNumber, MaxFret, note)] else [])
  {
    ChromaKnown(note);
    ChromaKnown(s.openNote);
    FretScanExact(s.stringNumber, Chroma(s.openNote), Chroma(note), note, MaxFret + 1);
  }

  /** The scans of the six standard strings for E. */
  lemma StandardScansOfE()
    ensures StringScan(Strings()[0], "E") == [Position(1, 0, "E"), Position(1, 12, "E")]
    ensures StringScan(Strings()[1], "E") == [Position(2, 5, "E")]
    ensures StringScan(Strings()[2], "E") == [Position(3, 9, "E")]
    ensures StringScan(Strings()[3], "E") == [Position(4, 2, "E")]
    ensures StringScan(Strings()[4], "E") == [Position(5, 7, "E")]
    ensures StringScan(Strings()[5], "E") == [Position(6, 0, "E"), Position(6, 12, "E")]
  {
    var t := Strings();
    ChromaOfName(2);
    ChromaOfName(4);
    ChromaOfName(7);
    ChromaOfName(9);
    ChromaOfName(11);
    StringScanExact(t[0], "E");
    StringScanExact(t[1], "E");
    StringScanExact(t[2], "E");
    StringScanExact(t[3], "E");
    StringScanExact(t[4], "E");
    StringScanExact(t[5], "E");
  }

  /** E on the standard table: both E strings open and at 12, B at 5, G at 9, D at 2, A at 7. */
  lemma LocateE()
    ensures Locate(Strings(), "E") == [
      Position(1, 0, "E"), Position(1, 12, "E"), Position(2, 5, "E"), Position(3, 9, "E"),
      Position(4, 2, "E"), Position(5, 7, "E"), Position(6, 0, "E"), Position(6, 12, "E")]
  {
    var t := Strings();
    StandardScansOfE();
    var e1, e2, e3 := Position(1, 0, "E"), Position(1, 12, "E"), Position(2, 5, "E");
    var e4, e5, e6 := Position(3, 9, "E"), Position(4, 2, "E"), Position(5, 7, "E");
    var e7, e8 := Position(6, 0, "E"), Position(6, 12, "E");
    assert t[..0] == [];
    LocateStep(t, 0, "E");
    assert Locate(t[..1], "E") == [e1, e2];
    LocateStep(t, 1, "E");
    assert Locate(t[..2], "E") == [e1, e2, e3];
    LocateStep(t, 2, "E");
    assert Locate(t[..3], "E") == [e1, e2, e3, e4];
    LocateStep(t, 3, "E");
    assert Locate(t[..4], "E") == [e1, e2, e3, e4, e5];
    LocateStep(t, 4, "E");
    assert Locate(t[..5], "E") == [e1, e2, e3, e4, e5, e6];
    LocateStep(t, 5, "E");
    assert t[..6] == t;
  }

  // ---------------------------------------------------------------------------
  // getNotePositions: the nested loop

  /**
   * The inner `for` of the `forEach` callback: frets 0..12 of the string
   * numbered `number`, whose open note has index `open`, tested against
   * `target`; the matches in ascending fret order.
   */
  method ScanFrets(number: int, open: int, target: int, note: string) returns (found: seq<Position>)
    ensures found == FretScan(number, open, target, note, MaxFret + 1)
  {
    found := [];
    var fret := 0;
    while fret <= MaxFret
      invariant 0 <= fret <= MaxFret + 1
      invariant found == FretScan(number, open, target, note, fret)
    {
      if Rem(open + fret) == target {
        found := found + [Position(number, fret, note)];
      }
      fret := fret + 1;
    }
  }

  /**
   * `getNotePositions(note)`: the `forEach` over the string table `strings`
   * (the application passes `guitarStrings`, see `Strings`), pushing each
   * string's matches after those of the strings before it.
   */
  method GetNotePositions(strings: seq<GuitarString>, note: string) returns (positions: seq<Position>)
    ensures positions == Locate(strings, note)
  {
    var target := Chroma(note);
    positions := [];
    var i := 0;
    while i < |strings|
      invariant 0 <= i <= |strings|
      invariant positions == Locate(strings[..i], note)
    {
      var s := strings[i];
      var open := Chroma(s.openNote);
      var found := ScanFrets(s.stringNumber, open, target, note);
      positions := positions + found;
      LocateStep(strings, i, note);
      i := i + 1;
    }
    assert strings[..|strings|] == strings;
  }
}
