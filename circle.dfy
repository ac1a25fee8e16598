/**
 * The circle-of-fifths page (miniprogram/pages/circle/circle.js): related
 * keys, the relative minor, the click areas recorded while drawing, the
 * hit test of a touch against them, and the selection it triggers.
 */
module Circle {
  import opened Wrappers
  import opened Notes
  import opened Theory
  import opened AppState

  // ---------------------------------------------------------------------------
  // getRelatedKeys and getRelativeMinor

  /**
   * An entry of `relatedKeys`: a catalog key spread with a `relation` tag,
   * or the name-only relative minor.
   */
  datatype RelatedKey =
    | RelatedMajor(key: Key, relation: string)
    | RelatedMinor(name: string, note: string, relation: string)

  const DominantTag := "属调 (V)"
  const SubdominantTag := "下属调 (IV)"
  const RelativeMinorTag := "相对小调"

  /** `(selectedIndex + 1) % keys.length`: the next catalog index, wrapping 11 to 0. */
  function DominantIndex(i: int): (r: int)
    requires -1 <= i < 12
    ensures 0 <= r < 12
    ensures i < 11 ==> r == i + 1
    ensures i == 11 ==> r == 0
  {
    Rem(i + 1)
  }

  /**
   * `(selectedIndex - 1 + keys.length) % keys.length`: the previous catalog
   * index, wrapping 0 to 11 (and the -1 of a name not found to 10).
   */
  function SubdominantIndex(i: int): (r: int)
    requires -1 <= i < 12
    ensures 0 <= r < 12
    ensures i > 0 ==> r == i - 1
    ensures i == 0 ==> r == 11
    ensures i == -1 ==> r == 10
  {
    Rem(i - 1 + 12)
  }

  /** On catalog indices the two steps undo each other. */
  lemma DominantSubdominantInverse(i: int)
    requires 0 <= i < 12
    ensures SubdominantIndex(DominantIndex(i)) == i
    ensures DominantIndex(SubdominantIndex(i)) == i
  {
  }

  /**
   * `getRelativeMinor(note)`: the name 3 semitones below `note` (index m
   * gives `notes[(m + 9) % 12]`). A name outside the list has index -1,
   * which always gives "G#".
   */
  function GetRelativeMinor(majorNote: string): string
  {
    NoteNames[Rem(Chroma(majorNote) - 3 + 12)]
  }

  /**
   * The relative minor is always one of the 12 names; for a known name it
   * is the name at index (m + 9) mod 12, and for any other name it is "G#".
   */
  lemma RelativeMinorSpec(majorNote: string)
    ensures GetRelativeMinor(majorNote) in NoteNames
    ensures majorNote in NoteNames ==>
      Chroma(GetRelativeMinor(majorNote)) == (Chroma(majorNote) + 9) % 12
    ensures majorNote !in NoteNames ==> GetRelativeMinor(majorNote) == "G#"
  {
    ChromaKnown(majorNote);
    var m := Rem(Chroma(majorNote) - 3 + 12);
    RemOfNonNegative(Chroma(majorNote) - 3 + 12);
    ChromaOfName(m);
  }

  /** For a known name the relative minor lies 3 semitones below it. */
  lemma RelativeMinorThreeBelow(majorNote: string)
    requires majorNote in NoteNames
    ensures (Chroma(GetRelativeMinor(majorNote)) + 3) % 12 == Chroma(majorNote)
  {
    ChromaKnown(majorNote);
    RelativeMinorSpec(majorNote);
    NineUpIsThreeDown(Chroma(majorNote));
  }

  /** Going up 9 semitones and then 3 more comes back to the start. */
  lemma NineUpIsThreeDown(c: int)
    requires 0 <= c < 12
    ensures ((c + 9) % 12 + 3) % 12 == c
  {
  }

  /**
   * The flat keys Bb, Eb, Ab and Db (catalog indices 8..11) all get "G#" as
   * relative minor; the keys at 0..7 get the name 3 semitones below their root.
   */
  lemma CatalogRelativeMinors(i: int)
    requires 0 <= i < 12
    ensures 8 <= i ==> GetRelativeMinor(Catalog()[i].note) == "G#"
    ensures i < 8 ==> (Chroma(GetRelativeMinor(Catalog()[i].note)) + 3) % 12 == Chroma(Catalog()[i].note)
  {
    var c := Catalog();
    if i < 8 {
      assert c[i].note in NoteNames;
      RelativeMinorThreeBelow(c[i].note);
    } else {
      assert c[i].note !in NoteNames;
      RelativeMinorSpec(c[i].note);
    }
  }

  /**
   * `getRelatedKeys(key)` over the 12-entry table `keys`: exactly three
   * entries, in the order dominant, subdominant, relative minor. The first
   * two are the neighbours of the ARRAY index where the key's name is
   * found (entries 0 and 10 when it is not found), the third only a name.
   */
  function GetRelatedKeys(keys: seq<Key>, selected: Key): (r: seq<RelatedKey>)
    requires |keys| == 12
    ensures |r| == 3
    ensures var i := FindKeyIndex(keys, selected.name);
      r[0] == RelatedMajor(keys[DominantIndex(i)], DominantTag) &&
      r[1] == RelatedMajor(keys[SubdominantIndex(i)], SubdominantTag)
    ensures r[2].RelatedMinor? && r[2].relation == RelativeMinorTag
    ensures r[2].note == GetRelativeMinor(selected.note) && r[2].name == r[2].note + "小调"
  {
    var selectedIndex := FindKeyIndex(keys, selected.name);
    var minor := GetRelativeMinor(selected.note);
    [
      RelatedMajor(keys[DominantIndex(selectedIndex)], DominantTag),
      RelatedMajor(keys[SubdominantIndex(selectedIndex)], SubdominantTag),
      RelatedMinor(minor + "小调", minor, RelativeMinorTag)
    ]
  }

  /**
   * For a catalog key the dominant is the next entry of the array and the
   * subdominant the previous one, and each undoes the other: the dominant's
   * subdominant and the subdominant's dominant are the key itself.
   */
  lemma RelatedKeysCycle(i: int)
    requires 0 <= i < 12
    ensures GetRelatedKeys(Catalog(), Catalog()[i])[0].key == Catalog()[(i + 1) % 12]
    ensures GetRelatedKeys(Catalog(), Catalog()[i])[1].key == Catalog()[(i + 11) % 12]
    ensures GetRelatedKeys(Catalog(), GetRelatedKeys(Catalog(), Catalog()[i])[0].key)[1].key == Catalog()[i]
    ensures GetRelatedKeys(Catalog(), GetRelatedKeys(Catalog(), Catalog()[i])[1].key)[0].key == Catalog()[i]
  {
    FindCatalogName(i);
    FindCatalogName(DominantIndex(i));
    FindCatalogName(SubdominantIndex(i));
    DominantSubdominantInverse(i);
  }

  /** The relative minor of G is E. */
  lemma RelativeMinorOfG()
    ensures GetRelativeMinor("G") == "E"
  {
    ChromaOfName(7);
    var r := GetRelativeMinor(NoteNames[7]);
    RelativeMinorSpec(NoteNames[7]);
    ChromaKnown(r);
    assert Chroma(r) == 4;
  }

  /**
   * Selecting G major: dominant D major and subdominant C major (its
   * relative minor is E, by `RelativeMinorOfG`, named "E小调").
   */
  lemma RelatedKeysOfG()
    ensures var r := GetRelatedKeys(Catalog(), Catalog()[1]);
      r[0].key.name == "D大调" && r[1].key.name == "C大调"
  {
    RelatedKeysCycle(1);
  }

  /**
   * Array order is not angle order: the subdominant of C is Db, the last
   * entry (drawn at 210 degrees), not F (at 330, a fifth below C on the
   * drawn circle). In the same way the dominant of F# is F.
   */
  lemma SubdominantOfC()
    ensures GetRelatedKeys(Catalog(), Catalog()[0])[1].key.name == "Db大调"
  {
    RelatedKeysCycle(0);
  }

  // ---------------------------------------------------------------------------
  // Click areas and the hit test

  /** The radius `drawKey` gives every key circle. */
  const KeyRadius := 25

  /** An entry of `keyClickAreas`: a circle's centre, radius and key. */
  datatype ClickArea = ClickArea(x: int, y: int, radius: int, key: Key)

  /** The touch lies within the area's radius (squared distances, in integers). */
  predicate Hits(area: ClickArea, px: int, py: int)
  {
    (px - area.x) * (px - area.x) + (py - area.y) * (py - area.y) <= area.radius * area.radius
  }

  /** A touch at an area's centre hits it. */
  lemma HitAtCentre(area: ClickArea)
    ensures Hits(area, area.x, area.y)
  {
  }

  /** A touch at distance radius + 1 or more misses. */
  lemma MissBeyondRadius(area: ClickArea, px: int, py: int)
    requires area.radius >= 0
    requires (px - area.x) * (px - area.x) + (py - area.y) * (py - area.y) >= (area.radius + 1) * (area.radius + 1)
    ensures !Hits(area, px, py)
  {
  }

  /**
   * The key of the LAST area hit by the touch, or nothing: `onCanvasTouch`
   * calls `selectKey` for every hit in index order, so the last one wins.
   */
  function LastHit(areas: seq<Option<ClickArea>>, px: int, py: int): Option<Key>
  {
    if areas == [] then None
    else
      var last := areas[|areas| - 1];
      if last.Some? && Hits(last.value, px, py) then Some(last.value.key)
      else LastHit(areas[..|areas| - 1], px, py)
  }

  /**
   * `LastHit` finds nothing exactly when no area is hit, and otherwise the
   * key of a hit area after which no area is hit.
   */
  lemma {:induction false} LastHitSpec(areas: seq<Option<ClickArea>>, px: int, py: int)
    ensures var r := LastHit(areas, px, py);
      r.None? <==> forall i :: 0 <= i < |areas| && areas[i].Some? ==> !Hits(areas[i].value, px, py)
    ensures var r := LastHit(areas, px, py);
      r.Some? ==> exists i :: (0 <= i < |areas| && areas[i].Some? && Hits(areas[i].value, px, py) &&
        areas[i].value.key == r.value &&
        forall j :: i < j < |areas| && areas[j].Some? ==> !Hits(areas[j].value, px, py))
  {
    if areas != [] {
      var n := |areas| - 1;
      var prefix := areas[..n];
      LastHitSpec(prefix, px, py);
      if !(areas[n].Some? && Hits(areas[n].value, px, py)) {
        assert forall i :: 0 <= i < n ==> areas[i] == prefix[i];
        var r := LastHit(prefix, px, py);
        if r.Some? {
          var i :| 0 <= i < n && prefix[i].Some? && Hits(prefix[i].value, px, py) &&
            prefix[i].value.key == r.value &&
            forall j :: i < j < n && prefix[j].Some? ==> !Hits(prefix[j].value, px, py);
          assert areas[i] == prefix[i];
        }
      }
    }
  }

  /** Scanning one more area: a hit on it wins, otherwise the earlier result stands. */
  lemma LastHitStep(areas: seq<Option<ClickArea>>, i: int, px: int, py: int)
    requires 0 <= i < |areas|
    ensures LastHit(areas[..i + 1], px, py) ==
      if areas[i].Some? && Hits(areas[i].value, px, py) then Some(areas[i].value.key)
      else LastHit(areas[..i], px, py)
  {
    assert areas[..i + 1][..i] == areas[..i];
  }

  /** `drawKey` shows a key as selected exactly when the selected key has its name. */
  predicate IsSelected(selectedKey: Option<Key>, key: Key)
  {
    selectedKey.Some? && selectedKey.value.name == key.name
  }

  /** With a catalog key selected, exactly that catalog entry is drawn as selected. */
  lemma OneKeyDrawnSelected(j: int, i: int)
    requires 0 <= j < 12 && 0 <= i < 12
    ensures IsSelected(Some(Catalog()[j]), Catalog()[i]) <==> i == j
  {
    CatalogNamesDistinct();
  }

  // ---------------------------------------------------------------------------
  // The page

  class CirclePage {
    /** `getApp()`. */
    const app: App
    var selectedKey: Option<Key>
    var relatedKeys: seq<RelatedKey>
    /** `this.keyClickAreas`; `None` is a hole of the JavaScript array. */
    var keyClickAreas: seq<Option<ClickArea>>

    /**
     * The shared catalog has 12 well-formed entries, every key the page holds
     * is shaped like one of them (it always is one), and there is at most
     * one area per catalog entry.
     */
    ghost predicate Valid()
      reads this
    {
      CatalogShaped(app.circleOfFifths) &&
      (selectedKey.Some? ==> WellFormedKey(selectedKey.value)) &&
      |keyClickAreas| <= 12 &&
      forall i :: 0 <= i < |keyClickAreas| && keyClickAreas[i].Some? ==> WellFormedKey(keyClickAreas[i].value.key)
    }

    /** The page's initial `data`; `keyClickAreas` starts out undefined, which iterates like []. */
    constructor (app: App)
      requires CatalogShaped(app.circleOfFifths)
      ensures this.app == app && Valid()
      ensures selectedKey.None? && relatedKeys == [] && keyClickAreas == []
    {
      this.app := app;
      selectedKey := None;
      relatedKeys := [];
      keyClickAreas := [];
    }

    /**
     * The bookkeeping of `drawKey(ctx, key, index)`: slot `index` of
     * `keyClickAreas` gets the circle at (x, y) of radius 25 and the key,
     * the array grows (with holes) when it was shorter, and the other slots
     * stay. It returns whether the key is drawn as selected. The centre comes
     * from the trigonometric layout, which is left out.
     */
    method DrawKey(key: Key, index: int, x: int, y: int) returns (selected: bool)
      requires Valid() && WellFormedKey(key) && 0 <= index < 12
      modifies this`keyClickAreas
      ensures Valid()
      ensures selected == IsSelected(selectedKey, key)
      ensures |keyClickAreas| == if index < |old(keyClickAreas)| then |old(keyClickAreas)| else index + 1
      ensures keyClickAreas[index] == Some(ClickArea(x, y, KeyRadius, key))
      ensures forall j :: 0 <= j < |keyClickAreas| && j != index ==>
        keyClickAreas[j] == if j < |old(keyClickAreas)| then old(keyClickAreas)[j] else None
    {
      selected := selectedKey.Some? && selectedKey.value.name == key.name;
      var area := Some(ClickArea(x, y, KeyRadius, key));
      if index < |keyClickAreas| {
        keyClickAreas := keyClickAreas[index := area];
      } else {
        keyClickAreas := keyClickAreas + seq(index - |keyClickAreas|, _ => None) + [area];
      }
    }

    /**
     * The bookkeeping of `drawCircle`: `drawKey` for every catalog entry in
     * order, with `centres[i]` the laid-out centre of entry i. Afterwards
     * slot i holds the area of catalog entry i.
     */
    method DrawCircle(centres: seq<(int, int)>)
      requires Valid() && |centres| == 12
      modifies this`keyClickAreas
      ensures Valid()
      ensures |keyClickAreas| == 12
      ensures forall i :: 0 <= i < 12 ==>
        keyClickAreas[i] == Some(ClickArea(centres[i].0, centres[i].1, KeyRadius, app.circleOfFifths[i]))
    {
      var keys := app.circleOfFifths;
      var i := 0;
      while i < |keys|
        invariant 0 <= i <= |keys|
        invariant Valid()
        invariant |keyClickAreas| == if i <= |old(keyClickAreas)| then |old(keyClickAreas)| else i
        invariant forall j :: 0 <= j < i ==> keyClickAreas[j] == Some(ClickArea(centres[j].0, centres[j].1, KeyRadius, keys[j]))
      {
        var _ := DrawKey(keys[i], i, centres[i].0, centres[i].1);
        i := i + 1;
      }
    }

    /**
     * `selectKey(key)`: select the key, compute its related keys, and record
     * its name in the shared settings, which are then saved.
     */
    method SelectKey(key: Key)
      requires Valid() && WellFormedKey(key)
      modifies this`selectedKey, this`relatedKeys, app
      ensures Valid()
      ensures selectedKey == Some(key) && relatedKeys == GetRelatedKeys(app.circleOfFifths, key)
      ensures app.userSettings == old(app.userSettings)["selectedKey" := Text(key.name)]
      ensures app.storage == Some(app.userSettings)
    {
      var related := GetRelatedKeys(app.circleOfFifths, key);
      selectedKey := Some(key);
      relatedKeys := related;
      app.userSettings := app.userSettings["selectedKey" := Text(key.name)];
      app.SaveUserSettings();
    }

    /** One pass of the `onCanvasTouch` loop: a hit area selects its key; anything else changes nothing. */
    method TouchArea(area: Option<ClickArea>, px: int, py: int) returns (hit: bool)
      requires Valid() && (area.Some? ==> WellFormedKey(area.value.key))
      modifies this`selectedKey, this`relatedKeys, app
      ensures Valid()
      ensures hit <==> area.Some? && Hits(area.value, px, py)
      ensures !hit ==>
        selectedKey == old(selectedKey) && relatedKeys == old(relatedKeys) &&
        app.userSettings == old(app.userSettings) && app.storage == old(app.storage)
      ensures hit ==>
        selectedKey == Some(area.value.key) && relatedKeys == GetRelatedKeys(app.circleOfFifths, area.value.key) &&
        app.userSettings == old(app.userSettings)["selectedKey" := Text(area.value.key.name)] &&
        app.storage == Some(app.userSettings)
    {
      hit := false;
      match area {
        case Some(a) =>
          if Hits(a, px, py) {
            SelectKey(a.key);
            hit := true;
          }
        case None =>
      }
    }

    /**
     * `onCanvasTouch` at canvas point (px, py): every area the touch hits
     * selects its key, in index order, so the last hit decides the new
     * state; a touch that hits nothing changes nothing.
     */
    method OnCanvasTouch(px: int, py: int)
      requires Valid()
      modifies this`selectedKey, this`relatedKeys, app
      ensures Valid()
      ensures var hit := LastHit(keyClickAreas, px, py);
        hit.None? ==>
          selectedKey == old(selectedKey) && relatedKeys == old(relatedKeys) &&
          app.userSettings == old(app.userSettings) && app.storage == old(app.storage)
      ensures var hit := LastHit(keyClickAreas, px, py);
        hit.Some? ==>
          selectedKey == hit && relatedKeys == GetRelatedKeys(app.circleOfFifths, hit.value) &&
          app.userSettings == old(app.userSettings)["selectedKey" := Text(hit.value.name)] &&
          app.storage == Some(app.userSettings)
    {
      var areas := keyClickAreas;
      var i := 0;
      ghost var last: Option<Key> := None;
      while i < |areas|
        invariant 0 <= i <= |areas| && areas == keyClickAreas
        invariant Valid()
        invariant last == LastHit(areas[..i], px, py)
        invariant last.None? ==>
          selectedKey == old(selectedKey) && relatedKeys == old(relatedKeys) &&
          app.userSettings == old(app.userSettings) && app.storage == old(app.storage)
        invariant last.Some? ==>
          selectedKey == last && relatedKeys == GetRelatedKeys(app.circleOfFifths, last.value) &&
          app.userSettings == old(app.userSettings)["selectedKey" := Text(last.value.name)] &&
          app.storage == Some(app.userSettings)
      {
        LastHitStep(areas, i, px, py);
        ghost var before := app.userSettings;
        var hit := TouchArea(areas[i], px, py);
        if hit {
          assert before["selectedKey" := Text(areas[i].value.key.name)] ==
            old(app.userSettings)["selectedKey" := Text(areas[i].value.key.name)];
          last := Some(areas[i].value.key);
        }
        i := i + 1;
      }
      assert areas[..i] == areas;
    }

    /**
     * `practiceChords`: nothing without a selected key; otherwise the
     * progression chords[0] - chords[5] - chords[3] - chords[4] (I vi IV V)
     * of the selected key's chord list.
     */
    method PracticeChords() returns (progression: Option<seq<string>>)
      requires Valid()
      ensures selectedKey.None? ==> progression.None?
      ensures selectedKey.Some? ==> progression.Some? && |progression.value| == 4
      ensures selectedKey.Some? ==> var c := selectedKey.value.chords;
        progression.value == [c[0], c[5], c[3], c[4]]
    {
      if selectedKey.None? {
        return None;
      }
      var key := selectedKey.value;
      progression := Some([key.chords[0], key.chords[5], key.chords[3], key.chords[4]]);
    }

    /** `goToFretboard`: record the selected key's name and save, only when a key is selected. */
    method GoToFretboard()
      requires Valid()
      modifies app
      ensures selectedKey.None? ==> app.userSettings == old(app.userSettings) && app.storage == old(app.storage)
      ensures selectedKey.Some? ==>
        app.userSettings == old(app.userSettings)["selectedKey" := Text(selectedKey.value.name)] &&
        app.storage == Some(app.userSettings)
    {
      if selectedKey.Some? {
        app.userSettings := app.userSettings["selectedKey" := Text(selectedKey.value.name)];
        app.SaveUserSettings();
      }
    }
  }
}
