# guru-guitar: music-theory core and page state, in Dafny

This project models the logic of the guru-guitar WeChat miniprogram, a guitar-practice tool, and proves properties of that model. The logic covered:

- the application object (`miniprogram/app.js`):
  - the catalog of 12 major keys (`circleOfFifths`);
  - the six open strings (`guitarStrings`);
  - the key lookup `getKeyInfo`;
  - the fret locator `getNotePositions`;
  - the shared `userSettings` record, which `loadUserSettings` merges from storage and `saveUserSettings` writes back.
- the fretboard page (`miniprogram/pages/fretboard/fretboard.js`):
  - its own copy of the locator;
  - the touch guard and the note a touched position plays;
  - the show-notes / show-intervals toggles and the highlight toggle;
  - key changes and the key restored on `onShow`;
  - the colour and label of each scale-tone marker.
- the circle-of-fifths page (`miniprogram/pages/circle/circle.js`):
  - the related keys (dominant, subdominant, relative minor);
  - the click areas `drawKey` records and the hit test in `onCanvasTouch`;
  - `selectKey`, `practiceChords` and `goToFretboard`.

Layout:

| file | module | what it holds |
|---|---|---|
| `wrappers.dfy` | `Wrappers` | `Option` |
| `notes.dfy` | `Notes` | the 12 sharp note names, `indexOf`, JavaScript's truncating `%` |
| `theory.dfy` | `Theory` | the key catalog, the string table, `getKeyInfo`, the locator as a specification function and as the source's nested loop, and the locator lemmas |
| `settings.dfy` | `AppState` | the settings record, the merge, and the `App` class holding the shared tables, `userSettings` and the storage blob |
| `fretboard.dfy` | `Fretboard` | `playNote`, the marker style, and the `FretboardPage` class |
| `circle.dfy` | `Circle` | related keys, the relative minor, the hit test, and the `CirclePage` class |

Modelling choices:

- The pages' `data` fields are fields of a class, and each handler that changes page or application state is a method with a `modifies` clause. The application object is a class `App`; a page reaches it through a `const app` field, just as `getApp()` returns one shared object.
- The key catalog and the string table are `const` fields of `App`, since nothing reassigns them. The App constructor sets them to `Catalog()` and `Strings()`.
- `noteNames.indexOf(n)` is `Chroma`, which is computed from the letter and an optional sharp. `ChromaIsIndexOf` proves that it equals a search of the list (`IndexOf`).
- JavaScript's `%` truncates toward zero and is modelled by `Rem`. This matters only when `indexOf` returned -1.
- Storage is the field `App.storage`. `None` stands for "nothing stored", the falsy value `wx.getStorageSync` returns then.
- Canvas coordinates are integers. The hit test compares squared distances: dx² + dy² ≤ r² is the same test as `sqrt(dx² + dy²) <= r`.

In these places the code behaves in ways a reader might not expect, and the model follows the code:

- `getRelatedKeys` uses the catalog's array index, not angle order. The subdominant of C is therefore Db (`SubdominantOfC`), and the dominant of F# is F.
- A touch that lies inside several click areas calls `selectKey` for each of them in index order, so the **last** hit decides the new state, not the first (`LastHit`, `OnCanvasTouch`).
- A note name outside the 12 sharp names (`Bb`, `Eb`, `Ab`, `Db`, `E#`) is not an error. The locator returns an empty list for it (`LocateUnknownNote`), and `getRelativeMinor` returns `G#` for it (`RelativeMinorSpec`).
- A lookup miss is not an error either: `getKeyInfo` yields `undefined`, modelled as `None`, and `onShow` leaves the page unchanged.

## Model

| member | source | states |
|---|---|---|
| Theory.Catalog | miniprogram/app.js:5-114 | the key catalog has exactly 12 entries |
| Theory.CatalogShape | miniprogram/app.js:5-114 | every entry has 7 scale notes and 7 chords; its name is its root followed by "大调"; its scale and chords both start on the root |
| Theory.CatalogIsShaped | miniprogram/app.js:5-114 | the catalog meets the shape invariant the pages rely on (12 entries, each with 7 notes and 7 chords) |
| Theory.CatalogAccidentals | miniprogram/app.js:5-114 | sharps and flats are non-negative, at most one of them is non-zero, and both are zero only for C (index 0) |
| Theory.CatalogAngles | miniprogram/app.js:5-114 | indices 0..6 have angle 30·i; indices 7..11 have angle 330 − 30·(i − 7) |
| Theory.AnglesDistinct | miniprogram/app.js:5-114 | all angles are multiples of 30 in 0..330, and no two entries share one |
| Theory.ArrayOrderIsNotAngleOrder | miniprogram/app.js:5-114 | array order is not angle order: F# is at 180, F (index 7) at 330 and Db (index 11) at 210, so some neighbour is not 30 degrees further |
| Theory.CatalogNamesDistinct | miniprogram/app.js:5-114 | no two catalog entries share a name |
| Theory.Strings | miniprogram/app.js:117-124 | six strings, numbered 1..6 in table order, every open note one of the 12 names |
| Notes.IndexOf | miniprogram/app.js:178-179 | `indexOf` yields -1 or an index of the list |
| Notes.IndexOfSpec | miniprogram/app.js:178-179 | `indexOf` finds the first occurrence, and gives -1 exactly when the name is absent |
| Notes.Chroma | miniprogram/app.js:178-182 | a note's chromatic index is -1 or in 0..11 |
| Notes.NameAtChroma | miniprogram/app.js:178-179 | a name with an index is the list's name at that index |
| Notes.ChromaIsIndexOf | miniprogram/app.js:178-179 | the letter-and-sharp computation equals `noteNames.indexOf(note)` for every string |
| Notes.ChromaKnown | miniprogram/app.js:178-179 | the index is not -1 exactly when the name is in the list, and then the name is at that index |
| Notes.ChromaOfName | miniprogram/app.js:178 | each of the 12 names is found at its own index |
| Notes.NoteNamesDistinct | miniprogram/app.js:178 | no name appears twice in the list |
| Notes.Rem | miniprogram/app.js:184 | JavaScript `% 12`: the result lies strictly between -12 and 12, differs from the operand by a multiple of 12, and has the operand's sign |
| Notes.RemOfNonNegative | miniprogram/app.js:184 | on a non-negative operand the JavaScript remainder is the mathematical one |
| Notes.Interval | miniprogram/app.js:183-185 | the upward distance between two indices is in 0..11, and it is 0 exactly when they are equal |
| Notes.IntervalLands | miniprogram/app.js:183-185 | going up that many frets from the open index reaches the target index |
| Theory.FindKeyIndex | miniprogram/pages/circle/circle.js:179 | `findIndex` by name: the first index holding the name, or -1 exactly when no entry has it |
| Theory.FindCatalogName | miniprogram/pages/circle/circle.js:179 | each catalog entry is found by name at its own index |
| Theory.GetKeyInfo | miniprogram/app.js:171-173 | `getKeyInfo` returns a catalog entry with that name, or nothing exactly when no entry has it |
| Theory.LocateStep | miniprogram/app.js:181-193 | scanning one more string appends exactly that string's matches |
| Theory.FretScanSound | miniprogram/app.js:183-191 | every match of one string has that string's number, the asked note, a fret below the bound, and passes the `%` test |
| Theory.FretScanComplete | miniprogram/app.js:183-191 | every fret below the bound that passes the test is reported |
| Theory.FretScanAscending | miniprogram/app.js:183-191 | one string's matches come in strictly ascending fret order |
| Theory.LocateSound | miniprogram/app.js:176-196 | every reported position has a fret in 0..12 and the asked note, and a string of the table with that number sounds it there |
| Theory.LocateComplete | miniprogram/app.js:176-196 | every (string of the table, fret 0..12) that sounds the note is reported |
| Theory.LocateNumbersBelow | miniprogram/app.js:181-193 | every position located on strings whose numbers are all below a bound carries a string number below that bound |
| Theory.LocateOrdered | miniprogram/app.js:176-196 | with strings numbered in increasing order, results are ordered by string, then by ascending fret |
| Theory.LocateUnknownNote | miniprogram/app.js:179-185 | a name outside the 12 (Bb, E#, …) yields an empty list, because -1 never equals the remainder |
| Theory.FretScanNegativeTarget | miniprogram/app.js:183-185 | a target index of -1 matches no fret when the open note is known |
| Theory.SoundsAt | miniprogram/app.js:183-185 | for known indices, fret f in 0..12 sounds the target exactly when f is the upward interval, or 12 when that interval is 0 |
| Theory.FretScanExact | miniprogram/app.js:183-191 | one string's matches are exactly the interval fret, plus fret 12 when the interval is 0 |
| Theory.StringScanExact | miniprogram/app.js:181-193 | the same, stated for a string of the table and a known name |
| Theory.StringScanCount | miniprogram/app.js:181-193 | for a known name, one string yields one position, or two when its open note is that name |
| Theory.LocateCount | miniprogram/app.js:176-196 | for a known name, the number of positions is the number of strings plus the number of open strings with that name |
| Theory.OpenCountStep | miniprogram/app.js:117-124 | counting open strings one more string at a time |
| Theory.StandardOpenCount | miniprogram/app.js:117-124 | on the standard table, E is open on two strings; B, G, D and A on one; every other name on none |
| Theory.StandardCount | miniprogram/app.js:176-196 | on the standard table a known name is found 8 times (E), 7 times (B, G, D, A) or 6 times (any other) |
| Theory.StandardScansOfE | miniprogram/app.js:181-193 | each standard string's exact matches for E |
| Theory.LocateE | miniprogram/app.js:176-196 | E is at frets 0 and 12 of strings 1 and 6, fret 5 of string 2, 9 of string 3, 2 of string 4 and 7 of string 5, in that order |
| Theory.ScanFrets | miniprogram/app.js:183-192 | the inner `for` loop collects exactly the specified matches of one string |
| Theory.GetNotePositions | miniprogram/app.js:176-196 | the nested loop returns exactly the specified locator result for the given table |
| AppState.MergeSettings | miniprogram/app.js:155-160 | with a stored blob, its fields override and fields only in the current settings keep their values, with no other fields; with none, the settings are unchanged |
| AppState.MergeSaved | miniprogram/app.js:155-168 | loading what was just saved leaves the settings as they were |
| AppState.MergeTwice | miniprogram/app.js:155-160 | merging the same blob twice is the same as merging it once |
| AppState.MergeKeepsDefault | miniprogram/app.js:126-133 | a field missing from the stored blob keeps its default |
| AppState.App.constructor | miniprogram/app.js:3-134 | the application starts with the catalog, the string table and the default settings |
| AppState.App.OnLaunch | miniprogram/app.js:136-140 | launching merges the stored blob over the settings |
| AppState.App.LoadUserSettings | miniprogram/app.js:155-160 | the new settings are the merge of the stored blob over the old ones |
| AppState.App.SaveUserSettings | miniprogram/app.js:163-168 | storage afterwards holds the whole current settings record |
| Fretboard.FindString | miniprogram/pages/fretboard/fretboard.js:280 | `find` by string number: the first entry of the table with that number, or nothing exactly when none has it |
| Fretboard.PlayNote | miniprogram/pages/fretboard/fretboard.js:277-285 | a note is named exactly when the table has a string with that number |
| Fretboard.PlayNoteSounds | miniprogram/pages/fretboard/fretboard.js:280-285 | the named note is one of the 12, and the string `find` picks (the first with that number) sounds it at that fret by the locator's test |
| Fretboard.PlayNoteLocates | miniprogram/pages/fretboard/fretboard.js:277-285 | round trip: for string 1..6 and fret 0..12 a note is always named, and locating it finds that very position |
| Fretboard.FillColour | miniprogram/pages/fretboard/fretboard.js:157-163 | the circle is `#FF4444` exactly for a root fill, `#1A1A1A` exactly for a highlight fill, `#FFFFFF` exactly for a plain fill |
| Fretboard.TextColour | miniprogram/pages/fretboard/fretboard.js:172 | marker text is `#FFFFFF` exactly on a root or highlighted marker, and `#333333` on a plain one |
| Fretboard.MarkerColours | miniprogram/pages/fretboard/fretboard.js:152-172 | a drawn marker's circle is red exactly for the root, near-black exactly for a highlighted non-root tone, white otherwise; its text is white exactly for a root or highlighted tone, dark grey otherwise |
| Fretboard.MarkerStyle | miniprogram/pages/fretboard/fretboard.js:152-180 | fill priority is root over highlighted over plain; the label is the note with notes on, degree scaleIndex + 1 with only intervals on, and none with both off |
| Fretboard.DegreeLabel | miniprogram/pages/fretboard/fretboard.js:12 | the degree label of scale tone i is the digit i + 1 |
| Fretboard.PositionMarkersAt | miniprogram/pages/fretboard/fretboard.js:148-181 | one marker per position, in order, each styled for that position |
| Fretboard.PositionMarkersSound | miniprogram/pages/fretboard/fretboard.js:148-181 | every marker of one tone stands on one of its positions, carries its index, and is red exactly for the root |
| Fretboard.ScaleMarkersSound | miniprogram/pages/fretboard/fretboard.js:145-182 | every drawn marker stands on a located position of its scale tone, with that tone's note, and is red exactly for the first tone |
| Fretboard.MarkedTonesAreSharpNames | miniprogram/pages/fretboard/fretboard.js:186-190 | only tones spelled with one of the 12 sharp names get markers on the standard table; flat tones are never drawn |
| Fretboard.StoredKeyName | miniprogram/pages/fretboard/fretboard.js:26-27 | the name `onShow` looks for exists exactly when the stored `selectedKey` is a non-empty string |
| Fretboard.RestoredIndex | miniprogram/pages/fretboard/fretboard.js:26-29 | the restored index names the stored key, and it is -1 exactly when no usable name is stored or no entry has it |
| Fretboard.FretboardPage.constructor | miniprogram/pages/fretboard/fretboard.js:5-17 | the initial page data: no key, index 0, notes shown, intervals hidden, nothing highlighted |
| Fretboard.FretboardPage.InitData | miniprogram/pages/fretboard/fretboard.js:40-58 | the picker lists the 12 catalog names in order, and the first entry becomes the current key |
| Fretboard.FretboardPage.OnShow | miniprogram/pages/fretboard/fretboard.js:24-35 | the index and key change only when the stored name is found, and then to that entry |
| Fretboard.FretboardPage.OnKeyChange | miniprogram/pages/fretboard/fretboard.js:209-221 | selects entry i, clears the highlight, records and saves the key's name, and touches no other field |
| Fretboard.FretboardPage.ToggleNotes | miniprogram/pages/fretboard/fretboard.js:227-233 | flips note labels, clears interval labels, and keeps them from both being on |
| Fretboard.FretboardPage.ToggleIntervals | miniprogram/pages/fretboard/fretboard.js:236-242 | flips interval labels, clears note labels, and keeps them from both being on |
| Fretboard.FretboardPage.StartIntervalTraining | miniprogram/pages/fretboard/fretboard.js:319-323 | switches to interval labels only |
| Fretboard.FretboardPage.HighlightNote | miniprogram/pages/fretboard/fretboard.js:245-249 | tapping the highlighted note clears the highlight; any other note becomes highlighted |
| Fretboard.FretboardPage.GetNotePositionsOnFretboard | miniprogram/pages/fretboard/fretboard.js:186-206 | the page's copy of the locator returns exactly what the application's locator returns for the same table |
| Fretboard.FretboardPage.OnFretboardTouch | miniprogram/pages/fretboard/fretboard.js:264-269 | a note is played exactly when the fret is in 0..12 and the string in 1..6, and it is the `playNote` note |
| Fretboard.FretboardPage.MarkPositions | miniprogram/pages/fretboard/fretboard.js:148-181 | the inner `forEach` draws exactly the specified markers of one tone |
| Fretboard.FretboardPage.DrawNotePositions | miniprogram/pages/fretboard/fretboard.js:136-182 | no markers without a key; otherwise exactly the markers of every scale tone, in scale order |
| Circle.DominantIndex | miniprogram/pages/circle/circle.js:183 | the next array index, wrapping 11 to 0 |
| Circle.SubdominantIndex | miniprogram/pages/circle/circle.js:190 | the previous array index, wrapping 0 to 11 (and -1 to 10) |
| Circle.DominantSubdominantInverse | miniprogram/pages/circle/circle.js:183-190 | on catalog indices the two steps undo each other |
| Circle.RelativeMinorSpec | miniprogram/pages/circle/circle.js:208-213 | the relative minor is always one of the 12 names: index (m + 9) mod 12 for a known name, `G#` for any other |
| Circle.RelativeMinorThreeBelow | miniprogram/pages/circle/circle.js:208-213 | for a known name the relative minor lies 3 semitones below it |
| Circle.CatalogRelativeMinors | miniprogram/pages/circle/circle.js:208-213 | the flat keys Bb, Eb, Ab and Db all get `G#`; the others get the name 3 semitones below their root |
| Circle.GetRelatedKeys | miniprogram/pages/circle/circle.js:177-205 | exactly three entries, in order: the key at the next array index tagged V, at the previous index tagged IV, then the relative minor, name only |
| Circle.RelatedKeysCycle | miniprogram/pages/circle/circle.js:179-194 | for a catalog key the dominant is the next entry and the subdominant the previous one, and each undoes the other |
| Circle.RelativeMinorOfG | miniprogram/pages/circle/circle.js:208-213 | the relative minor of G is E |
| Circle.RelatedKeysOfG | miniprogram/pages/circle/circle.js:177-194 | selecting G major gives dominant D major and subdominant C major |
| Circle.SubdominantOfC | miniprogram/pages/circle/circle.js:190-194 | the subdominant of C is Db (array order), not F |
| Circle.HitAtCentre | miniprogram/pages/circle/circle.js:138-142 | a touch at an area's centre hits it |
| Circle.MissBeyondRadius | miniprogram/pages/circle/circle.js:138-142 | a touch at distance radius + 1 or more misses |
| Circle.LastHitSpec | miniprogram/pages/circle/circle.js:136-146 | no key is selected exactly when no area is hit; otherwise it is the key of a hit area with no hit area after it |
| Circle.LastHitStep | miniprogram/pages/circle/circle.js:137-145 | one more area: a hit on it wins, otherwise the earlier result stands |
| Circle.OneKeyDrawnSelected | miniprogram/pages/circle/circle.js:95 | with a catalog key selected, exactly that catalog entry is drawn as selected |
| Circle.CirclePage.constructor | miniprogram/pages/circle/circle.js:5-13 | the page starts with no selected key, no related keys and no click areas |
| Circle.CirclePage.DrawKey | miniprogram/pages/circle/circle.js:85-124 | slot `index` gets the area of radius 25 with that key, the array grows with holes, other slots stay, and the key is drawn as selected exactly when the selected key has its name |
| Circle.CirclePage.DrawCircle | miniprogram/pages/circle/circle.js:68-70 | afterwards slot i holds the area of catalog entry i, for all 12 |
| Circle.CirclePage.SelectKey | miniprogram/pages/circle/circle.js:154-170 | selects the key, sets its related keys, records and saves its name |
| Circle.CirclePage.TouchArea | miniprogram/pages/circle/circle.js:137-145 | one pass of the loop: a hit area selects its key; a hole or a miss changes nothing |
| Circle.CirclePage.OnCanvasTouch | miniprogram/pages/circle/circle.js:127-147 | with no hit nothing changes; otherwise the state is exactly that of selecting the last hit key |
| Circle.CirclePage.PracticeChords | miniprogram/pages/circle/circle.js:238-248 | nothing without a selected key; otherwise the progression chords[0], chords[5], chords[3], chords[4] |
| Circle.CirclePage.GoToFretboard | miniprogram/pages/circle/circle.js:251-261 | records and saves the selected key's name only when a key is selected |

## Left out

- Canvas drawing (`ctx.*`, `drawFretboard`, the fret and marker dots, the central title) is rendering only. The model keeps the decisions drawing depends on: the marker style, the click areas and the selected flag.
- Floating-point geometry is left out: the trigonometric placement of key circles, the `Math.sqrt` distance, spacing divisions and `Math.round`. Centres and touch points are integer parameters, and the touch guard starts from the already-rounded fret and string.
- Platform calls are left out: `wx.showToast`, `showModal`, `vibrateShort`, `switchTab`, the `createSelectorQuery` callbacks and `onShareAppMessage`. `wx.getStorageSync` and `wx.setStorage` are the `App.storage` field.
- AppState.App.SaveUserSettings: writes `storage` at once. `wx.setStorage` is asynchronous, so in the source a read soon after a save may still see the older blob; that window is not modelled.
- The touch-coordinate translation of `onCanvasTouch` (subtracting `currentTarget.left` and `top`) depends on the platform's event shape; the method takes canvas coordinates.
- Fretboard.PlayNote: requires a non-negative fret, the only kind its caller passes. In the source a fret below minus the open note's index makes `(openNoteIndex + fret) % 12` negative, and the toast then announces `undefined`; a smaller negative fret names a real note below the open one. Neither path is modelled.
- Fretboard.PlayNote: also requires every open note of the table to be one of the 12 names, as `guitarStrings` guarantees (`Theory.Strings`). With an unknown open note `indexOf` gives -1, and at fret 0 the source would announce `noteNames[-1]`, which is `undefined`; that path is not modelled.
- Fretboard.FretboardPage.OnKeyChange: requires an index in 0..11, which the 12-entry picker always supplies. With any other index the source first runs `setData`, so `selectedKeyIndex` becomes the index, `currentKey` becomes `undefined` and the highlight `null`, and only then throws on `key.name` before touching the settings. That path is not modelled.
- Fretboard.FretboardPage.Valid and Circle.CirclePage.Valid only record the catalog's shape (12 entries of 7 notes and 7 chords), not that the held keys are catalog entries.
- Circle.CirclePage.SelectKey: the redraw `selectKey` triggers is left out. It rewrites every click area with the same centre and key, so the areas the touch loop walks stay the same.
- Fretboard.StoredKeyName: treats a stored non-string `selectedKey` as absent. In the source a truthy boolean is looked up and never matches a name, so the page is unchanged either way.
- `startNoteFinding`, `startScalePractice`, `playChord` and `goToScales` only open a dialog or switch tabs.
- `onLoad`, `initCanvas`, `onHide`, `onError` and the empty touch-end handlers have no logic of their own.
- `wechat_miniprogram/pages/index/index.js` is a web-view wrapper that only forwards to platform calls and is not part of this model.
- The `fretMarkers` list `initData` builds (fret i at i/12·100 percent) is a floating-point display list and is not modelled.
