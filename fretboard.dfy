/**
 * The fretboard page (miniprogram/pages/fretboard/fretboard.js): its second
 * copy of the locator, the touch guard and note naming, the mutually
 * exclusive note/interval labels, the highlight toggle, key changes, and the
 * colour and label chosen for each scale-tone marker.
 */
module Fretboard {
  import opened Wrappers
  import opened Notes
  import opened Theory
  import opened AppState

  // ---------------------------------------------------------------------------
  // playNote

  /** `guitarStrings.find(s => s.stringNumber === number)`. */
  function FindString(strings: seq<GuitarString>, number: int): (r: Option<GuitarString>)
    ensures r.Some? ==> r.value in strings && r.value.stringNumber == number
    ensures r.Some? ==> exists i :: (0 <= i < |strings| && strings[i] == r.value &&
      forall j :: 0 <= j < i ==> strings[j].stringNumber != number)
    ensures r.None? <==> forall i :: 0 <= i < |strings| ==> strings[i].stringNumber != number
  {
    if strings == [] then None
    else if strings[0].stringNumber == number then Some(strings[0])
    else FindString(strings[1..], number)
  }

  /**
   * The note `playNote(string, fret)` announces: `noteNames[(open + fret) % 12]`
   * for the string of `strings` (the page passes `guitarStrings`) with that
   * number, nothing for an unknown number. The only caller passes a fret in 0..12.
   */
  function PlayNote(strings: seq<GuitarString>, stringNumber: int, fret: int): (r: Option<string>)
    requires KnownOpenNotes(strings) && fret >= 0
    ensures r.None? <==> forall i :: 0 <= i < |strings| ==> strings[i].stringNumber != stringNumber
  {
    match FindString(strings, stringNumber)
    case None => None
    case Some(s) =>
      ChromaKnown(s.openNote);
      Some(NoteNames[Rem(Chroma(s.openNote) + fret)])
  }

  /**
   * The announced note is one of the 12 sharp names, and it is the note the
   * locator's test finds at that fret of the string `find` picks: the first
   * one with that number.
   */
  lemma PlayNoteSounds(strings: seq<GuitarString>, stringNumber: int, fret: int)
    requires KnownOpenNotes(strings) && fret >= 0
    ensures var r := PlayNote(strings, stringNumber, fret);
      r.Some? ==> (r.value in NoteNames &&
        Sounds(Chroma(FindString(strings, stringNumber).value.openNote), fret, Chroma(r.value)))
  {
    var f := FindString(strings, stringNumber);
    if f.Some? {
      var s := f.value;
      FoundStringKnown(strings, stringNumber);
      var open := Chroma(s.openNote);
      var k := Rem(open + fret);
      assert PlayNote(strings, stringNumber, fret) == Some(NoteNames[k]);
      NameOfIndex(k);
    }
  }

  /** The string `find` picks from a table of known open notes has an index. */
  lemma FoundStringKnown(strings: seq<GuitarString>, number: int)
    requires KnownOpenNotes(strings)
    ensures FindString(strings, number).Some? ==> Chroma(FindString(strings, number).value.openNote) >= 0
  {
    var f := FindString(strings, number);
    if f.Some? {
      var i :| 0 <= i < |strings| && strings[i] == f.value;
      ChromaKnown(strings[i].openNote);
    }
  }

  /** The name at index `k` is one of the 12, and its index is `k`. */
  lemma NameOfIndex(k: int)
    requires 0 <= k < |NoteNames|
    ensures NoteNames[k] in NoteNames && Chroma(NoteNames[k]) == k
  {
    ChromaOfName(k);
  }

  /**
   * Round trip: the note played at any (string 1..6, fret 0..12) is
   * announced, and locating it on the fretboard finds that very position.
   */
  lemma PlayNoteLocates(stringNumber: int, fret: int)
    requires 1 <= stringNumber <= 6 && 0 <= fret <= MaxFret
    ensures PlayNote(Strings(), stringNumber, fret).Some?
    ensures var n := PlayNote(Strings(), stringNumber, fret).value;
      Position(stringNumber, fret, n) in Locate(Strings(), n)
  {
    var t := Strings();
    assert t[stringNumber - 1].stringNumber == stringNumber;
    PlayNoteSounds(t, stringNumber, fret);
    var n := PlayNote(t, stringNumber, fret).value;
    var s := FindString(t, stringNumber).value;
    var i :| 0 <= i < |t| && t[i] == s;
    LocateComplete(t, n, i, fret);
  }

  // ---------------------------------------------------------------------------
  // drawNotePositions: colour and label of one marker

  /** The three fills of a marker circle, by priority. */
  datatype Fill = RootFill | HighlightFill | PlainFill

  /** The canvas colour of each fill: red for a root, near-black for a highlight, white otherwise. */
  function FillColour(f: Fill): (c: string)
    ensures c == "#FF4444" <==> f == RootFill
    ensures c == "#1A1A1A" <==> f == HighlightFill
    ensures c == "#FFFFFF" <==> f == PlainFill
  {
    match f
    case RootFill => "#FF4444"
    case HighlightFill => "#1A1A1A"
    case PlainFill => "#FFFFFF"
  }

  /** The text colour: white on a root or highlighted marker, dark grey on a plain one. */
  function TextColour(f: Fill): (c: string)
    ensures c == "#FFFFFF" <==> f != PlainFill
    ensures f == PlainFill ==> c == "#333333"
  {
    if f == PlainFill then "#333333" else "#FFFFFF"
  }

  /** `scaleDegrees`, the labels in interval mode. */
  const ScaleDegrees: seq<string> := ["1", "2", "3", "4", "5", "6", "7"]

  /** A marker drawn at a located position for the scale tone at `scaleIndex`. */
  datatype Marker = Marker(pos: Position, scaleIndex: int, fill: Fill, caption: Option<string>)

  /**
   * The marker for `note`, the scale tone at `scaleIndex`, drawn at `pos`.
   * Fill priority is root over highlighted over plain; the label is the note
   * in note mode, the degree `scaleIndex + 1` in interval mode, none when
   * both are off.
   */
  function MarkerStyle(pos: Position, scaleIndex: int, note: string, highlighted: Option<string>,
                       showNotes: bool, showIntervals: bool): (m: Marker)
    requires 0 <= scaleIndex < |ScaleDegrees|
    ensures m.pos == pos && m.scaleIndex == scaleIndex
    ensures m.fill == RootFill <==> scaleIndex == 0
    ensures m.fill == HighlightFill <==> scaleIndex != 0 && highlighted == Some(note)
    ensures m.fill == PlainFill <==> scaleIndex != 0 && highlighted != Some(note)
    ensures showNotes ==> m.caption == Some(note)
    ensures !showNotes && showIntervals ==> m.caption.Some? && m.caption.value == ScaleDegrees[scaleIndex]
    ensures !showNotes && !showIntervals ==> m.caption.None?
  {
    var isHighlighted := highlighted == Some(note);
    var isRoot := scaleIndex == 0;
    var fill := if isRoot then RootFill else if isHighlighted then HighlightFill else PlainFill;
    var caption := if showNotes then Some(note) else if showIntervals then Some(ScaleDegrees[scaleIndex]) else None;
    Marker(pos, scaleIndex, fill, caption)
  }

  /**
   * The colours a drawn marker gets: a red circle exactly for the root, a
   * near-black one exactly for a highlighted non-root tone, white otherwise;
   * white text exactly on a root or highlighted tone, dark grey otherwise.
   */
  lemma MarkerColours(pos: Position, scaleIndex: int, note: string, highlighted: Option<string>,
                      showNotes: bool, showIntervals: bool)
    requires 0 <= scaleIndex < |ScaleDegrees|
    ensures var m := MarkerStyle(pos, scaleIndex, note, highlighted, showNotes, showIntervals);
      (FillColour(m.fill) == "#FF4444" <==> scaleIndex == 0) &&
      (FillColour(m.fill) == "#1A1A1A" <==> scaleIndex != 0 && highlighted == Some(note)) &&
      (FillColour(m.fill) == "#FFFFFF" <==> scaleIndex != 0 && highlighted != Some(note)) &&
      (TextColour(m.fill) == "#FFFFFF" <==> scaleIndex == 0 || highlighted == Some(note)) &&
      (TextColour(m.fill) == "#333333" <==> scaleIndex != 0 && highlighted != Some(note))
  {
  }

  /** The degree label of scale tone `i` is the digit `i + 1`. */
  lemma DegreeLabel(i: int)
    requires 0 <= i < |ScaleDegrees|
    ensures |ScaleDegrees[i]| == 1 && ScaleDegrees[i][0] as int == '1' as int + i
  {
  }

  /** The markers for the positions `ps` of one scale tone, in order. */
  function PositionMarkers(ps: seq<Position>, scaleIndex: int, note: string, highlighted: Option<string>,
                           showNotes: bool, showIntervals: bool): seq<Marker>
    requires 0 <= scaleIndex < |ScaleDegrees|
  {
    if ps == [] then []
    else
      PositionMarkers(ps[..|ps| - 1], scaleIndex, note, highlighted, showNotes, showIntervals) +
      [MarkerStyle(ps[|ps| - 1], scaleIndex, note, highlighted, showNotes, showIntervals)]
  }

  /** The markers for the first `n` tones of `scale`, each located on the table `strings`. */
  function ScaleMarkers(strings: seq<GuitarString>, scale: seq<string>, n: nat, highlighted: Option<string>,
                        showNotes: bool, showIntervals: bool): seq<Marker>
    requires n <= |scale| <= |ScaleDegrees|
  {
    if n == 0 then []
    else
      ScaleMarkers(strings, scale, n - 1, highlighted, showNotes, showIntervals) +
      PositionMarkers(Locate(strings, scale[n - 1]), n - 1, scale[n - 1], highlighted, showNotes, showIntervals)
  }

  lemma {:induction false} PositionMarkersAt(ps: seq<Position>, scaleIndex: int, note: string,
                                             highlighted: Option<string>, showNotes: bool, showIntervals: bool)
    requires 0 <= scaleIndex < |ScaleDegrees|
    ensures var ms := PositionMarkers(ps, scaleIndex, note, highlighted, showNotes, showIntervals);
      |ms| == |ps| &&
      forall j :: 0 <= j < |ms| ==> ms[j] == MarkerStyle(ps[j], scaleIndex, note, highlighted, showNotes, showIntervals)
  {
    if ps != [] {
      PositionMarkersAt(ps[..|ps| - 1], scaleIndex, note, highlighted, showNotes, showIntervals);
    }
  }

  /** Every marker drawn for one tone's positions stands on one of them, with that tone's index. */
  lemma PositionMarkersSound(ps: seq<Position>, scaleIndex: int, note: string, highlighted: Option<string>,
                             showNotes: bool, showIntervals: bool)
    requires 0 <= scaleIndex < |ScaleDegrees|
    ensures forall m :: m in PositionMarkers(ps, scaleIndex, note, highlighted, showNotes, showIntervals) ==>
      m.scaleIndex == scaleIndex && m.pos in ps && (m.fill == RootFill <==> scaleIndex == 0)
  {
    var ms := PositionMarkers(ps, scaleIndex, note, highlighted, showNotes, showIntervals);
    PositionMarkersAt(ps, scaleIndex, note, highlighted, showNotes, showIntervals);
    forall m | m in ms
      ensures m.scaleIndex == scaleIndex && m.pos in ps && (m.fill == RootFill <==> scaleIndex == 0)
    {
      var j :| 0 <= j < |ms| && ms[j] == m;
      assert ps[j] in ps;
    }
  }

  /**
   * Every marker drawn for a scale stands on a located position of one of
   * its tones; it is red exactly when that tone is the root.
   */
  lemma {:induction false} ScaleMarkersSound(strings: seq<GuitarString>, scale: seq<string>, n: nat,
                                             highlighted: Option<string>, showNotes: bool, showIntervals: bool)
    requires n <= |scale| <= |ScaleDegrees|
    ensures forall m :: m in ScaleMarkers(strings, scale, n, highlighted, showNotes, showIntervals) ==>
      0 <= m.scaleIndex < n && m.pos.note == scale[m.scaleIndex] &&
      m.pos in Locate(strings, scale[m.scaleIndex]) &&
      (m.fill == RootFill <==> m.scaleIndex == 0)
  {
    if n > 0 {
      ScaleMarkersSound(strings, scale, n - 1, highlighted, showNotes, showIntervals);
      var prev := ScaleMarkers(strings, scale, n - 1, highlighted, showNotes, showIntervals);
      var ps := Locate(strings, scale[n - 1]);
      var ms := PositionMarkers(ps, n - 1, scale[n - 1], highlighted, showNotes, showIntervals);
      forall m: Marker | m in prev + ms
        ensures 0 <= m.scaleIndex < n && m.pos.note == scale[m.scaleIndex] &&
          m.pos in Locate(strings, scale[m.scaleIndex]) &&
          (m.fill == RootFill <==> m.scaleIndex == 0)
      {
        if m !in prev {
          PositionMarkersSound(ps, n - 1, scale[n - 1], highlighted, showNotes, showIntervals);
          assert m.scaleIndex == n - 1 && m.pos in ps;
          LocateSound(strings, scale[n - 1], m.pos);
        }
      }
    }
  }

  /**
   * Only tones spelled with one of the 12 sharp names get markers: a flat
   * tone such as the "Bb" of F major, or the "E#" of F# major, is never drawn.
   */
  lemma MarkedTonesAreSharpNames(scale: seq<string>, highlighted: Option<string>,
                                 showNotes: bool, showIntervals: bool)
    requires |scale| <= |ScaleDegrees|
    ensures forall m :: m in ScaleMarkers(Strings(), scale, |scale|, highlighted, showNotes, showIntervals) ==>
      m.pos.note in NoteNames
  {
    var ms := ScaleMarkers(Strings(), scale, |scale|, highlighted, showNotes, showIntervals);
    ScaleMarkersSound(Strings(), scale, |scale|, highlighted, showNotes, showIntervals);
    forall m | m in ms ensures m.pos.note in NoteNames {
      var note := scale[m.scaleIndex];
      if note !in NoteNames {
        LocateUnknownNote(Strings(), note);
        assert false;
      }
    }
  }

  // ---------------------------------------------------------------------------
  // The page

  class FretboardPage {
    /** `getApp()`. */
    const app: App
    var currentKey: Option<Key>
    var selectedKeyIndex: int
    var keyNames: seq<string>
    var showNotes: bool
    var showIntervals: bool
    var highlightedNote: Option<string>

    /**
     * The shared catalog has 12 well-formed entries, the shared strings
     * table is numbered 1..6 in order, note and interval labels are never
     * both on, and the current key is shaped like a catalog entry (it always
     * is one).
     */
    ghost predicate Valid()
      reads this
    {
      CatalogShaped(app.circleOfFifths) && NumberedStrings(app.guitarStrings) &&
      !(showNotes && showIntervals) &&
      (currentKey.Some? ==> WellFormedKey(currentKey.value))
    }

    /** The page's initial `data`. */
    constructor (app: App)
      requires CatalogShaped(app.circleOfFifths) && NumberedStrings(app.guitarStrings)
      ensures this.app == app && Valid()
      ensures currentKey.None? && selectedKeyIndex == 0 && keyNames == []
      ensures showNotes && !showIntervals && highlightedNote.None?
    {
      this.app := app;
      currentKey := None;
      selectedKeyIndex := 0;
      keyNames := [];
      showNotes := true;
      showIntervals := false;
      highlightedNote := None;
    }

    /** `initData`: the picker's key names and the first key of the catalog. */
    method InitData()
      requires Valid()
      modifies this`keyNames, this`currentKey
      ensures Valid()
      ensures |keyNames| == 12 && forall i :: 0 <= i < |keyNames| ==> keyNames[i] == app.circleOfFifths[i].name
      ensures currentKey == Some(app.circleOfFifths[0])
    {
      var c := app.circleOfFifths;
      keyNames := seq(|c|, i requires 0 <= i < |c| => c[i].name);
      currentKey := Some(c[0]);
    }

    /**
     * `onShow`: restore the key named in the shared settings; the index and
     * key change only when that name is found in the catalog.
     */
    method OnShow()
      requires Valid()
      modifies this`selectedKeyIndex, this`currentKey
      ensures Valid()
      ensures var i := RestoredIndex(app.circleOfFifths, app.userSettings);
        i == -1 ==> selectedKeyIndex == old(selectedKeyIndex) && currentKey == old(currentKey)
      ensures var i := RestoredIndex(app.circleOfFifths, app.userSettings);
        i != -1 ==> selectedKeyIndex == i && currentKey == Some(app.circleOfFifths[i])
    {
      var keyIndex := RestoredIndex(app.circleOfFifths, app.userSettings);
      if keyIndex != -1 {
        var c := app.circleOfFifths;
        selectedKeyIndex := keyIndex;
        currentKey := Some(c[keyIndex]);
      }
    }

    /**
     * `onKeyChange`: select catalog entry `index`, clear the highlight and
     * record the key's name in the shared settings, which are then saved.
     * The source reads `key.name` unchecked, so `index` must be in range.
     */
    method OnKeyChange(index: int)
      requires Valid()
      requires 0 <= index < 12
      modifies this`selectedKeyIndex, this`currentKey, this`highlightedNote, app
      ensures Valid()
      ensures selectedKeyIndex == index && currentKey == Some(app.circleOfFifths[index]) && highlightedNote.None?
      ensures app.userSettings == old(app.userSettings)["selectedKey" := Text(app.circleOfFifths[index].name)]
      ensures app.storage == Some(app.userSettings)
    {
      var key := app.circleOfFifths[index];
      selectedKeyIndex := index;
      currentKey := Some(key);
      highlightedNote := None;
      app.userSettings := app.userSettings["selectedKey" := Text(key.name)];
      app.SaveUserSettings();
    }

    /** `toggleNotes`: flip the note labels and turn the interval labels off. */
    method ToggleNotes()
      requires Valid()
      modifies this`showNotes, this`showIntervals
      ensures Valid()
      ensures showNotes == !old(showNotes) && !showIntervals
    {
      showNotes, showIntervals := !showNotes, false;
    }

    /** `toggleIntervals`: flip the interval labels and turn the note labels off. */
    method ToggleIntervals()
      requires Valid()
      modifies this`showNotes, this`showIntervals
      ensures Valid()
      ensures showIntervals == !old(showIntervals) && !showNotes
    {
      showIntervals, showNotes := !showIntervals, false;
    }

    /** `startIntervalTraining`: switch to interval labels. */
    method StartIntervalTraining()
      requires Valid()
      modifies this`showNotes, this`showIntervals
      ensures Valid()
      ensures !showNotes && showIntervals
    {
      showNotes, showIntervals := false, true;
    }

    /** `highlightNote`: tapping the highlighted note clears it, any other note becomes highlighted. */
    method HighlightNote(note: string)
      requires Valid()
      modifies this`highlightedNote
      ensures Valid()
      ensures old(highlightedNote) == Some(note) ==> highlightedNote.None?
      ensures old(highlightedNote) != Some(note) ==> highlightedNote == Some(note)
    {
      highlightedNote := if highlightedNote == Some(note) then None else Some(note);
    }

    /** `getNotePositionsOnFretboard`: the page's own copy of the locator, over `guitarStrings`. */
    method GetNotePositionsOnFretboard(note: string) returns (positions: seq<Position>)
      requires Valid()
      ensures positions == Locate(app.guitarStrings, note)
    {
      var strings := app.guitarStrings;
      var target := Chroma(note);
      positions := [];
      var i := 0;
      while i < |strings|
        invariant 0 <= i <= |strings|
        invariant positions == Locate(strings[..i], note)
      {
        var s := strings[i];
        var found := ScanFrets(s.stringNumber, Chroma(s.openNote), target, note);
        positions := positions + found;
        LocateStep(strings, i, note);
        i := i + 1;
      }
      assert strings[..|strings|] == strings;
    }

    /**
     * `onFretboardTouch`, from the already-rounded fret and string: a touch
     * plays a note exactly when the fret is in 0..12 and the string in 1..6;
     * any other touch does nothing. The page's state is not changed.
     */
    method OnFretboardTouch(fret: int, stringNumber: int) returns (played: Option<string>)
      requires Valid() && KnownOpenNotes(app.guitarStrings)
      ensures played.Some? <==> 0 <= fret <= MaxFret && 1 <= stringNumber <= 6
      ensures played.Some? ==> played == PlayNote(app.guitarStrings, stringNumber, fret)
    {
      if fret >= 0 && fret <= MaxFret && stringNumber >= 1 && stringNumber <= 6 {
        played := PlayNote(app.guitarStrings, stringNumber, fret);
        assert app.guitarStrings[stringNumber - 1].stringNumber == stringNumber;
      } else {
        played := None;
      }
    }

    /** The inner loop of `drawNotePositions`: one marker per position of scale tone `scaleIndex`, in order. */
    method MarkPositions(positions: seq<Position>, scaleIndex: int, note: string) returns (markers: seq<Marker>)
      requires 0 <= scaleIndex < |ScaleDegrees|
      ensures markers == PositionMarkers(positions, scaleIndex, note, highlightedNote, showNotes, showIntervals)
    {
      markers := [];
      var j := 0;
      while j < |positions|
        invariant 0 <= j <= |positions|
        invariant markers == PositionMarkers(positions[..j], scaleIndex, note, highlightedNote, showNotes, showIntervals)
      {
        assert positions[..j + 1][..j] == positions[..j];
        markers := markers + [MarkerStyle(positions[j], scaleIndex, note, highlightedNote, showNotes, showIntervals)];
        j := j + 1;
      }
      assert positions[..j] == positions;
    }

    /**
     * The markers `drawNotePositions` draws: for each tone of the current
     * key's scale, in order, one marker per located position; none without a key.
     */
    method DrawNotePositions() returns (markers: seq<Marker>)
      requires Valid()
      ensures currentKey.None? ==> markers == []
      ensures currentKey.Some? ==>
        markers == ScaleMarkers(app.guitarStrings, currentKey.value.scale, |currentKey.value.scale|,
                                highlightedNote, showNotes, showIntervals)
    {
      if currentKey.None? {
        return [];
      }
      var key := currentKey.value;
      markers := [];
      var scaleIndex := 0;
      while scaleIndex < |key.scale|
        invariant 0 <= scaleIndex <= |key.scale|
        invariant markers == ScaleMarkers(app.guitarStrings, key.scale, scaleIndex, highlightedNote, showNotes, showIntervals)
      {
        var note := key.scale[scaleIndex];
        var positions := GetNotePositionsOnFretboard(note);
        var drawn := MarkPositions(positions, scaleIndex, note);
        markers := markers + drawn;
        scaleIndex := scaleIndex + 1;
      }
    }
  }

  /** The key name `onShow` looks for: the stored `selectedKey` when it is a non-empty string. */
  function StoredKeyName(settings: Settings): (r: Option<string>)
    ensures r.Some? <==> "selectedKey" in settings && settings["selectedKey"].Text? && settings["selectedKey"].text != ""
    ensures r.Some? ==> r.value == settings["selectedKey"].text
  {
    if "selectedKey" in settings && settings["selectedKey"].Text? && settings["selectedKey"].text != ""
    then Some(settings["selectedKey"].text)
    else None
  }

  /**
   * The index into `keys` that `onShow` restores: the first entry named by the
   * stored key, or -1 when no usable name is stored or no entry has it.
   */
  function RestoredIndex(keys: seq<Key>, settings: Settings): (r: int)
    ensures -1 <= r < |keys|
    ensures r != -1 ==> StoredKeyName(settings) == Some(keys[r].name)
    ensures r == -1 <==>
      StoredKeyName(settings).None? ||
      forall j :: 0 <= j < |keys| ==> keys[j].name != StoredKeyName(settings).value
  {
    var name := StoredKeyName(settings);
    if name.Some? then FindKeyIndex(keys, name.value) else -1
  }
}
