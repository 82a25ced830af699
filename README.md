# Open Collab: a verified model of its playback, recording and remix core

Open Collab is an iOS app for making video collabs. A collab is a grid of one to six short clips ("fragments") that loop together in sync. Users add takes of their own, recorded against the looping clips. This project models, in Dafny, the logic behind that app:

- **Fragment windows and their editing.** A fragment is a clip with a trim window `[playbackStartTime, playbackEndTime]`. The window stays inside the asset and lasts at least the Collab minimum. It covers `FragmentHost`, `PlaybackEditor`, `PlaybackDataModel`, and the nudge, trim, waveform and slider-handle controllers. Proposals move the window by 20/600 s.
- **Takes and exports.**
  - `TakeGenerator` turns loop start times into padded export intervals inside the recording.
  - `AssetComposer` checks ranges and intersects track ranges.
  - `AssetCopier` fills its fragment slots one export at a time.
  - `TakeViewController` keeps the take counter, limits and thumbnails.
  - `CaptureViewController` chooses the format, flips the camera and applies the sample cut-off.
- **Loop scheduling.**
  - `HotLooper` keeps the loop clock, the loop count and the attached loopers.
  - `QueuePlayerLooper` swaps its current and buffer players.
  - `CoordinatedLooperGroup` is ready only when all its members are.
  - `HotPlayer` makes the schedule and catch-up decisions.
  - `RecordActionViewController` finds the next metronome beat, and `ClickTrackComposer` lays out and accents the clicks.
- **Remix state.**
  - `RemixViewController` has its record and creation state machines and keeps three parallel rank arrays.
  - The slideshow, the clips tray and the radio tab bar manage arrays and selection.
  - `MulticlipType` sets the grid layouts.
- **Layout and strings.** Aspect-ratio fitting, the rasterizer's grid offsets and render size, label sanitising, and the volume clamp.
- **Device state.** The app mute switch, headphone routing and request tokens, recording authorisation, the metronome tempo bounds, and colour decoding.

Conventions:
- A `CMTime` is an integer number of 1/600 s ticks. `.positiveInfinity` is a separate `Limit` value. The headphone offsets are kept at their own timescale of 10000.
- `CGFloat` and `Double` geometry is `real`.
- AVFoundation objects are abstract values carrying the flags the code reads.
- Calls made into players, delegates and the capture session are recorded as event sequences. The answers of the system (clock, file system, permission prompts, random choices) are parameters.
- Each asynchronous completion is one atomic step.

The files map to the code as follows:
- Each Swift file of the core is one Dafny module in a file of the same name.
- `wrappers.dfy` (Option), `collections.dfy` (`firstIndex`, `remove(at:)`) and `strings.dfy` (integer interpolation) hold the few Swift library operations several files share.
- A Swift struct or enum becomes a `datatype`.
- A class whose fields change becomes a Dafny `class`. Its state is a `View()` value. Each method is proved to perform a step function on that value, and the step functions carry the lemmas.

## Model

| member | source | states |
|---|---|---|
| Extensions.Compare | OpenCollab/Sources/Util/Extensions.swift:16-17 | `CMTimeCompare` answers -1, 0 or 1 exactly when the first time is below, equal to or above the second |
| Extensions.AbsoluteDifference | OpenCollab/Sources/Util/Extensions.swift:15-23 | the difference is never negative and is the larger time minus the smaller |
| Extensions.AbsoluteDifferenceSymmetric | OpenCollab/Sources/Util/Extensions.swift:15-23 | swapping the two times gives the same difference |
| Extensions.AbsoluteDifferenceZeroIffEqual | OpenCollab/Sources/Util/Extensions.swift:15-23 | the difference is zero if and only if the times are equal |
| Extensions.CollabLimits | OpenCollab/Sources/Util/Extensions.swift:97-109 | the minimum fragment is 3 s (1800 ticks), the maximum uses the longer 25 s limit (15000 ticks), the minimum lies below the maximum, and a collab needs at least one clip |
| AssetInfoModel.IsEmpty | OpenCollab/Sources/Util/AssetInfo.swift:15-22 | true exactly for the empty asset |
| AssetInfoModel.LoggingID | OpenCollab/Sources/Util/AssetInfo.swift:24-33 | "empty_fragment" for the empty asset, the fragment's id for a download, the URL's absolute string for a recording |
| AssetInfoModel.UserRecordedURL | OpenCollab/Sources/Util/AssetInfo.swift:35-43 | a URL exactly for a user recording, and it is that recording's URL |
| AssetInfoModel.IsUserRecorded | OpenCollab/Sources/Util/AssetInfo.swift:45-47 | true exactly for a user recording |
| AssetInfoModel.DownloadedFragmentOf | OpenCollab/Sources/Util/AssetInfo.swift:49-57 | a fragment exactly for a download, and it is that download's fragment |
| AssetInfoModel.Create | OpenCollab/Sources/Util/AssetInfo.swift:59-64 | the created asset is the given downloaded fragment and logs under its id |
| AssetInfoModel.AccessorsPartition | OpenCollab/Sources/Util/AssetInfo.swift:15-57 | every asset is reported by exactly one of `isEmpty`, `isUserRecorded` and `downloadedFragment` |
| FragmentHostModel.Init | OpenCollab/Sources/VideoPlayback/FragmentHost.swift:44-58 | a missing start defaults to zero and a missing end to the asset duration; every other field is the argument given, with no thumbnail and no placeholder flag |
| FragmentHostModel.InitWithDefaults | OpenCollab/Sources/VideoPlayback/FragmentHost.swift:44-58 | with every default, volume is 1, the window is the whole asset, the minimum is zero and the maximum infinite, and that window is well formed exactly when the duration is not negative |
| FragmentHostModel.Copy | OpenCollab/Sources/VideoPlayback/FragmentHost.swift:60-70 | the copy keeps every field, thumbnail and placeholder flag included |
| FragmentHostModel.Cropped | OpenCollab/Sources/VideoPlayback/FragmentHost.swift:72-80 | the new fragment is a user recording at the cropped URL with the original's volume, window and limits, no thumbnail and no placeholder flag, and its window is well formed exactly when the original's is |
| FragmentHostModel.PlaybackDuration | OpenCollab/Sources/VideoPlayback/FragmentHost.swift:29-33 | start plus duration is the end |
| FragmentHostModel.PairValidIffWindow | OpenCollab/Sources/VideoPlayback/FragmentHost.swift:195-204 | a start/end pair passes the check exactly when the fragment with that window satisfies the window invariant (0 <= start <= end <= asset duration, length at least the minimum) |
| FragmentHostModel.PairValidIgnoresMax | OpenCollab/Sources/VideoPlayback/FragmentHost.swift:195-204 | the pair check does not depend on `maxPlaybackDuration` |
| FragmentHostModel.SingleEndChecksAgreeWithPair | OpenCollab/Sources/VideoPlayback/FragmentHost.swift:171-204 | on a well-formed window, `startTimeIsValid` and `endTimeIsValid` give the same answer as the pair check against the other, current end |
| FragmentHostModel.SetPlaybackTimes | OpenCollab/Sources/VideoPlayback/FragmentHost.swift:156-166 | a nil argument keeps the current time; a valid resulting pair is applied, an invalid one leaves the fragment unchanged; no other field changes |
| FragmentHostModel.SetPlaybackTimesPreservesWindow | OpenCollab/Sources/VideoPlayback/FragmentHost.swift:156-166 | a well-formed window stays well formed after any edit |
| FragmentHostModel.SetPlaybackTimesAcceptsValidPair | OpenCollab/Sources/VideoPlayback/FragmentHost.swift:156-166 | a valid pair is always applied and leaves a well-formed window |
| FragmentHostModel.TranslateToPlaybackTime | OpenCollab/Sources/VideoPlayback/FragmentHost.swift:209-213 | the window start plus the playback time is the asset time |
| FragmentHostModel.TranslateToAssetTime | OpenCollab/Sources/VideoPlayback/FragmentHost.swift:215-219 | the asset time minus the window start is the playback time |
| FragmentHostModel.TranslationsAreInverse | OpenCollab/Sources/VideoPlayback/FragmentHost.swift:209-219 | the two translations undo each other in both orders |
| FragmentHostModel.WindowInvariant | OpenCollab/Sources/VideoPlayback/FragmentHost.swift:195-204 | the well-formed window the checks guard: inside the asset, start before end, at least the minimum long; PairValidIffWindow proves the pair check is exactly this invariant on the new window |
| FragmentHostModel.StartTimeIsValid | OpenCollab/Sources/VideoPlayback/FragmentHost.swift:171-181 | `startTimeIsValid(time:)`; StartValidIffWindow and SingleEndChecksAgreeWithPair prove it passes exactly the starts that keep the window well formed |
| FragmentHostModel.EndTimeIsValid | OpenCollab/Sources/VideoPlayback/FragmentHost.swift:183-193 | `endTimeIsValid(time:)`; EndValidIffWindow and SingleEndChecksAgreeWithPair prove it passes exactly the ends that keep the window well formed |
| FragmentHostModel.StartEndTimePairIsValid | OpenCollab/Sources/VideoPlayback/FragmentHost.swift:195-204 | `startEndTimePairIsValid(startTime:endTime:)`; PairValidIffWindow and PairValidIgnoresMax prove it is the window invariant on the new pair and never looks at the maximum |
| FragmentHostModel.StartValidIffWindow | OpenCollab/Sources/VideoPlayback/FragmentHost.swift:171-181 | with the end inside the asset, a start passes exactly when moving the start there leaves a well-formed window |
| FragmentHostModel.EndValidIffWindow | OpenCollab/Sources/VideoPlayback/FragmentHost.swift:183-193 | with a start at or after zero, an end passes exactly when moving the end there leaves a well-formed window |
| PlaybackData.CombinedFragments | OpenCollab/Sources/Models/PlaybackDataModel.swift:135-138 | the combined order is the record placeholder if any, then the takes newest first, then the pool, and nothing else (also lines 35-37) |
| PlaybackData.FirstMatch | OpenCollab/Sources/Models/PlaybackDataModel.swift:146-163 | the answer is the first position holding the same clip (placeholder for placeholder, equal URL for a recording, equal id for a download), and nil only when no position does |
| PlaybackData.EmptyClipNeverMatches | OpenCollab/Sources/Models/PlaybackDataModel.swift:149-162 | an empty, non-placeholder selection is found nowhere |
| PlaybackData.PlaybackDataModel.FromRecording | OpenCollab/Sources/Models/PlaybackDataModel.swift:92-104 | one take, also the one selection, spanning the whole recording with the 3 s and 25 s limits; the model's duration is the recording's; nothing is notified |
| PlaybackData.PlaybackDataModel.FromCameraRollVideo | OpenCollab/Sources/Models/PlaybackDataModel.swift:106-119 | one user-recorded take at volume 1, also the one selection, spanning the whole video with the 3 s and 25 s limits |
| PlaybackData.PlaybackDataModel.FromTrimmerModel | OpenCollab/Sources/Models/PlaybackDataModel.swift:121-129 | `minClipsPerCollab` copies of the trimmer's first selection are selected, the first of them is the one take, and the duration is the trimmer's |
| PlaybackData.PlaybackDataModel.SetSelectedFragments | OpenCollab/Sources/Models/PlaybackDataModel.swift:27-33 | the selection is replaced, with one `selectedFragmentsChanged` exactly when `canNotify` is set |
| PlaybackData.PlaybackDataModel.SetCanNotify | OpenCollab/Sources/Models/PlaybackDataModel.swift:44 | the flag takes the value given |
| PlaybackData.PlaybackDataModel.SetRecordFragment | OpenCollab/Sources/Models/PlaybackDataModel.swift:15 | the record placeholder takes the value given |
| PlaybackData.PlaybackDataModel.AddTakeFragments | OpenCollab/Sources/Models/PlaybackDataModel.swift:21-25 | the fragments are appended to the takes in order, and one `availableFragmentsChanged` follows (also lines 131-133) |
| PlaybackData.PlaybackDataModel.BuildCombinedFragments | OpenCollab/Sources/Models/PlaybackDataModel.swift:135-138 | returns the combined order, one entry per placeholder, take and pool fragment |
| PlaybackData.PlaybackDataModel.GetSelectedIndex | OpenCollab/Sources/Models/PlaybackDataModel.swift:140-166 | nil for a rank past the selection; otherwise the first combined position holding the selected clip, and nil only when none does |
| PlaybackData.PlaybackDataModel.RandomClip | OpenCollab/Sources/Models/PlaybackDataModel.swift:168-174 | nil exactly when there are no takes and no pool fragments; otherwise one of them |
| PlaybackData.PlaybackDataModel.AdjustTrimTimes | OpenCollab/Sources/Models/PlaybackDataModel.swift:176-181 | only the indexed selection changes, by `setPlaybackTimes` with the range; the duration becomes the range's length even when the range is refused; the reassignment notifies as any other |
| PlaybackData.Reversed | OpenCollab/Sources/Models/PlaybackDataModel.swift:137 | `reversed()`: the same length, element `i` being the one `i` places from the end |
| PlaybackData.SameClip | OpenCollab/Sources/Models/PlaybackDataModel.swift:146-163 | the match `getSelectedIndex` looks for: the placeholder by its flag, a recording by its URL, a downloaded fragment by its id; FirstMatch and EmptyClipNeverMatches prove the index found is the first match and an empty clip never matches |
| PlaybackData.PlaybackDataModel.IsCFS | OpenCollab/Sources/Models/PlaybackDataModel.swift:40-42 | `isCFS`: the model holds no collab |
| PlaybackData.PlaybackDataModel.IsRandomClip | OpenCollab/Sources/Models/PlaybackDataModel.swift:168-174 | what `randomClip()` can answer: nil exactly when there are no takes and no pool fragments, otherwise one of them; RandomClip ensures it and the remix controller's selection, add and delete methods require it of the clip they are given |
| PlaybackEditorModel.ShiftDelta | OpenCollab/Sources/VideoPlayback/PlaybackEditor.swift:17-29 | the shift is a whole number of 20-tick increments, positive for a positive direction and negative for a negative one (also line 87) |
| PlaybackEditorModel.ShiftProposal | OpenCollab/Sources/VideoPlayback/PlaybackEditor.swift:84-94 | both ends are proposed, moved by the same delta, so the proposed window keeps the fragment's duration |
| PlaybackEditorModel.ShiftAppliedIffValid | OpenCollab/Sources/VideoPlayback/PlaybackEditor.swift:84-94 | a non-zero shift changes the fragment exactly when `shiftIsValid` holds, and then it moves the start by the delta and keeps the duration (also lines 137-145) |
| PlaybackEditorModel.PlaybackEditor.constructor | OpenCollab/Sources/VideoPlayback/PlaybackEditor.swift:49-55 | the editor holds the fragment and snapshots its window, with nothing proposed yet |
| PlaybackEditorModel.PlaybackEditor.Reset | OpenCollab/Sources/VideoPlayback/PlaybackEditor.swift:59-61 | proposes exactly the stored snapshot |
| PlaybackEditorModel.PlaybackEditor.StoreValues | OpenCollab/Sources/VideoPlayback/PlaybackEditor.swift:63-67 | the snapshot becomes the fragment's current window |
| PlaybackEditorModel.PlaybackEditor.SetPlaybackTimes | OpenCollab/Sources/VideoPlayback/PlaybackEditor.swift:69-72 | one proposal of both times |
| PlaybackEditorModel.PlaybackEditor.SetPlaybackStartTime | OpenCollab/Sources/VideoPlayback/PlaybackEditor.swift:74-77 | one proposal of the start only |
| PlaybackEditorModel.PlaybackEditor.SetPlaybackEndTime | OpenCollab/Sources/VideoPlayback/PlaybackEditor.swift:79-82 | one proposal of the end only |
| PlaybackEditorModel.PlaybackEditor.ShiftPlayback | OpenCollab/Sources/VideoPlayback/PlaybackEditor.swift:84-94 | one proposal of the shifted pair |
| PlaybackEditorModel.PlaybackEditor.ShiftPlaybackStartTime | OpenCollab/Sources/VideoPlayback/PlaybackEditor.swift:96-103 | one proposal of the start moved by the delta, with no end |
| PlaybackEditorModel.PlaybackEditor.ShiftPlaybackEndTime | OpenCollab/Sources/VideoPlayback/PlaybackEditor.swift:105-112 | one proposal of the end moved by the delta, with no start |
| PlaybackEditorModel.PlaybackEditor.SetPlaybackRange | OpenCollab/Sources/VideoPlayback/PlaybackEditor.swift:114-118 | one proposal of the range's two bounds |
| PlaybackEditorModel.PlaybackEditor.ShiftIsValid | OpenCollab/Sources/VideoPlayback/PlaybackEditor.swift:137-145 | true exactly when the fragment's pair check accepts both ends moved by `20 * direction` ticks |
| PlaybackEditorModel.PlaybackEditor.PlaybackChanged | OpenCollab/Sources/VideoPlayback/PlaybackEditor.swift:149-152 | the editor's copy becomes the announced fragment |
| PlaybackEditorModel.Apply | OpenCollab/Sources/VideoPlayback/FragmentHost.swift:156-166 | what the fragment does with an editor's proposal once the delegate passes it on; ShiftAppliedIffValid and NudgeView.NudgeIsUndoable prove a shift is applied exactly when it is valid and can be undone |
| PlaybackEditorModel.ShiftPairIsValid | OpenCollab/Sources/VideoPlayback/PlaybackEditor.swift:137-145 | `shiftIsValid(direction:)`; ShiftAppliedIffValid proves it predicts exactly whether the fragment accepts the shift |
| Strings.NatToString | OpenCollab/Sources/ViewControllers/NudgeViewController.swift:25 | `"\(n)"` for a count that is not negative: a non-empty string of decimal digits that starts with "0" only for zero; DecimalValue proves it spells the count |
| Strings.IntToString | OpenCollab/Sources/ViewControllers/NudgeViewController.swift:25 | `"\(n)"`: non-empty, with a leading minus sign exactly for a negative number; IntDecimalValue proves it spells the number |
| Strings.DecimalValue | OpenCollab/Sources/ViewControllers/NudgeViewController.swift:25 | reading the digits of `NatToString(n)` back, most significant first, gives `n` |
| Strings.IntDecimalValue | OpenCollab/Sources/ViewControllers/NudgeViewController.swift:25 | reading `IntToString(n)` back, minus sign included, gives `n` (also TakeViewController.swift line 346) |
| NudgeView.CounterLabel | OpenCollab/Sources/ViewControllers/NudgeViewController.swift:23-27 | the label is never empty, starts with "+" exactly for a positive count and with "-" exactly for a negative one, after the "+" it spells the count, and a count of zero or less is spelled by the whole label, minus sign included |
| NudgeView.NudgeViewController.constructor | OpenCollab/Sources/ViewControllers/NudgeViewController.swift:21-28 | a fresh controller holds the editor, counts zero, stores zero, is inactive and has called back nothing (also lines 134-138) |
| NudgeView.NudgeViewController.UpdateNudgeButtons | OpenCollab/Sources/ViewControllers/NudgeViewController.swift:271-286 | each button is enabled exactly when the editor says its one-increment shift is valid |
| NudgeView.NudgeViewController.Activate | OpenCollab/Sources/ViewControllers/NudgeViewController.swift:154-169 | shows the controls, refreshes both buttons and stores the current count |
| NudgeView.NudgeViewController.Deactivate | OpenCollab/Sources/ViewControllers/NudgeViewController.swift:171-182 | hides the controls and makes the editor's current window its snapshot |
| NudgeView.NudgeViewController.Reset | OpenCollab/Sources/ViewControllers/NudgeViewController.swift:184-188 | the count returns to the stored one, the editor proposes its snapshot, and the fragment the announcement brings back is the old one with that proposal applied |
| NudgeView.NudgeViewController.NudgeForward | OpenCollab/Sources/ViewControllers/NudgeViewController.swift:257-262 | proposes a shift of one increment later, which the fragment applies and announces back at once; counts one up; both buttons are then set from the shifted window |
| NudgeView.NudgeViewController.NudgeBackward | OpenCollab/Sources/ViewControllers/NudgeViewController.swift:264-269 | proposes a shift of one increment earlier, which the fragment applies and announces back at once; counts one down; both buttons are then set from the shifted window |
| NudgeView.NudgeViewController.DidTapSaveNudge | OpenCollab/Sources/ViewControllers/NudgeViewController.swift:289-293 | runs the save callback once and changes nothing else |
| NudgeView.NudgeViewController.DidTapCloseNudge | OpenCollab/Sources/ViewControllers/NudgeViewController.swift:295-300 | resets the count and the editor, with the snapshot applied to the fragment, then runs the save callback once |
| NudgeView.NudgeViewController.RoundTrip | OpenCollab/Sources/VideoPlayback/PlaybackEditor.swift:150-152 | the editor's copy of the fragment becomes the old one with the proposal applied, as the delegate's `setPlaybackTimes` and its announcement leave it (also FragmentHost.swift lines 156-166) |
| NudgeView.NudgeIsUndoable | OpenCollab/Sources/ViewControllers/NudgeViewController.swift:257-269 | after a nudge that moved a well-formed window, the opposite shift is valid and gives back the window there was |
| TrimmerSliderHandle.ClampedTime | OpenCollab/Sources/TrimmingSupport/TrimmerSliderHandleView.swift:248-255 | on a non-empty range the result lies in it, is the value itself when that lies inside, and is the lower bound below it |
| TrimmerSliderHandle.Clamped | OpenCollab/Sources/TrimmingSupport/TrimmerSliderHandleView.swift:248-255 | the same three facts for lengths |
| TrimmerSliderHandle.ScrubberWidth | OpenCollab/Sources/TrimmingSupport/TrimmerSliderHandleView.swift:120-129 | zero without a superview; for a share between 0 and 1, between zero and the width the two handles leave |
| TrimmerSliderHandle.BoundedWidth | OpenCollab/Sources/TrimmingSupport/TrimmerSliderHandleView.swift:134-139 | never above the upper bound, not below the lower one when the bounds are ordered, and the width itself when it lies between them |
| TrimmerSliderHandle.TouchBuffer | OpenCollab/Sources/TrimmingSupport/TrimmerSliderHandleView.swift:143-150 | the widening is 20 exactly when the handles' inner edges are at least 40 apart, and 0 otherwise |
| TrimmerSliderHandle.ClassifyIsMonotone | OpenCollab/Sources/TrimmingSupport/TrimmerSliderHandleView.swift:156-163 | a touch further right never grabs a grip further left |
| TrimmerSliderHandle.ClassifyZones | OpenCollab/Sources/TrimmingSupport/TrimmerSliderHandleView.swift:141-166 | trailing exactly from the widened trailing handle on, centre exactly between the widened handles, leading exactly before the widened leading handle's edge |
| TrimmerSliderHandle.LeadingMinPos | OpenCollab/Sources/TrimmingSupport/TrimmerSliderHandleView.swift:175 | the leading handle never goes left of its own width |
| TrimmerSliderHandle.TrailingRange | OpenCollab/Sources/TrimmingSupport/TrimmerSliderHandleView.swift:200-202 | the trailing drag's range is never empty, stays inside the superview and within the maximum scrubber width, and its lower end is at most the minimum-width position |
| TrimmerSliderHandle.TrimmerSliderHandleView.constructor | OpenCollab/Sources/TrimmingSupport/TrimmerSliderHandleView.swift:65-96 | a fresh view is outside any hierarchy, grabs the centre, allows centre drags and spans shares 0 to 1 (also lines 61, 117-119) |
| TrimmerSliderHandle.TrimmerSliderHandleView.SetTrimConstraints | OpenCollab/Sources/TrimmingSupport/TrimmerSliderHandleView.swift:104-107 | the two shares take the values given |
| TrimmerSliderHandle.TrimmerSliderHandleView.SetWidth | OpenCollab/Sources/TrimmingSupport/TrimmerSliderHandleView.swift:134-139 | the width is bounded by the scrubber widths plus the handles, never above the maximum, and at least the minimum when the shares are ordered and the superview fits the handles |
| TrimmerSliderHandle.TrimmerSliderHandleView.TouchesBegan | OpenCollab/Sources/TrimmingSupport/TrimmerSliderHandleView.swift:141-166 | without a touch or a superview nothing changes; otherwise the grip is classified, the start positions and frame are remembered and `dragStarted` is reported |
| TrimmerSliderHandle.TrimmerSliderHandleView.TouchesMoved | OpenCollab/Sources/TrimmingSupport/TrimmerSliderHandleView.swift:168-219 | leading: the origin and width follow the clamped leading edge with a haptic at either end; centre: the width is kept and the origin is clamped inside the superview, or nothing happens when the window does not fit or centre drags are off; trailing: the origin is kept and the width follows the clamped trailing edge; `isDragging` follows each real move |
| TrimmerSliderHandle.TrimmerSliderHandleView.MoveLeading | OpenCollab/Sources/TrimmingSupport/TrimmerSliderHandleView.swift:172-189 | the left edge goes to the touch clamped between the floored lower bound and the position the minimum width allows; the right edge stays put, with a haptic when the clamp hits either end (also line 217) |
| TrimmerSliderHandle.TrimmerSliderHandleView.MoveCenter | OpenCollab/Sources/TrimmingSupport/TrimmerSliderHandleView.swift:190-197 | the window keeps its width and its origin follows the touch, clamped inside the superview; nothing at all happens when the window does not fit or centre drags are off (also line 217) |
| TrimmerSliderHandle.TrimmerSliderHandleView.MoveTrailing | OpenCollab/Sources/TrimmingSupport/TrimmerSliderHandleView.swift:198-214 | the right edge goes to the touch clamped to a range that is never empty and never past the superview less a handle; the origin stays, with a haptic at either end (also line 217) |
| TrimmerSliderHandle.TrimmerSliderHandleView.TouchesEnded | OpenCollab/Sources/TrimmingSupport/TrimmerSliderHandleView.swift:221-227 | reports `dragEnded` for the current grip, for an ended or a cancelled touch |
| TrimmerSliderHandle.Classify | OpenCollab/Sources/TrimmingSupport/TrimmerSliderHandleView.swift:141-166 | which grip a touch grabs: trailing from the widened trailing handle on, centre between the widened handles, leading before; ClassifyZones states the three zones both ways and ClassifyIsMonotone their order |
| TrimmerSliderHandle.Rank | OpenCollab/Sources/TrimmingSupport/TrimmerSliderHandleView.swift:156-163 | the left-to-right order of the grips the touch tests are made in, leading, centre, trailing; ClassifyIsMonotone is stated with it |
| TrimmerSliderHandle.LeadingMaxPos | OpenCollab/Sources/TrimmingSupport/TrimmerSliderHandleView.swift:176 | the upper end of the leading drag's range, the original trailing edge less a handle and the minimum width; MoveLeading and TouchesMoved clamp to it |
| TrimmerSliderHandle.Haptic | OpenCollab/Sources/TrimmingSupport/TrimmerSliderHandleView.swift:183-185 | one impact exactly when the clamped position equals either end of its range, none otherwise; MoveLeading and MoveTrailing append it (also lines 209-211) |
| TrimmerSliderHandle.TrimmerSliderHandleView.MinScrubberWidth | OpenCollab/Sources/TrimmingSupport/TrimmerSliderHandleView.swift:120-124 | the minimum window width, the minimum share of the superview less both handles; ScrubberWidth's contract bounds it and SetWidth keeps the width above it plus the handles |
| TrimmerSliderHandle.TrimmerSliderHandleView.MaxScrubberWidth | OpenCollab/Sources/TrimmingSupport/TrimmerSliderHandleView.swift:125-129 | the maximum window width, the maximum share of the superview less both handles; SetWidth keeps the width below it plus the handles |
| TrimmerSliderHandle.TrimmerSliderHandleView.LeadingDragRangeIsValid | OpenCollab/Sources/TrimmingSupport/TrimmerSliderHandleView.swift:175-180 | the leading drag's `ClosedRange` has its lower end at or below its upper end, which Swift traps on otherwise; TouchesMoved and MoveLeading require it for a leading drag |
| WaveformTrimmer.IsValidTrimCases | OpenCollab/Sources/TrimmingSupport/WaveformTrimmerViewController.swift:84-90 | no fragment is never a valid trim; with no upper limit every fragment is; with a limit the window must be strictly shorter than it |
| WaveformTrimmer.NudgeButtonsFor | OpenCollab/Sources/TrimmingSupport/WaveformTrimmerViewController.swift:225-249 | each of the four buttons is enabled exactly when the start or end moved one 20-tick increment that way passes the fragment's single-end check |
| WaveformTrimmer.NudgeButtonsMatchPairCheck | OpenCollab/Sources/TrimmingSupport/WaveformTrimmerViewController.swift:225-249 | on a well-formed window, each button agrees with the pair check on the moved end and the other, current end |
| WaveformTrimmer.ClampToRange | OpenCollab/Sources/TrimmingSupport/WaveformTrimmerViewController.swift:254-256 | on an ordered range the result lies in it, and a time already inside is kept |
| WaveformTrimmer.ZoomRange | OpenCollab/Sources/TrimmingSupport/WaveformTrimmerViewController.swift:251-263 | zoomed in, the zoom goes out to the whole asset; either way the range stays inside the asset |
| WaveformTrimmer.ZoomInContainsWindow | OpenCollab/Sources/TrimmingSupport/WaveformTrimmerViewController.swift:251-263 | zooming in on a well-formed window gives a range that contains the window |
| WaveformTrimmer.WaveformTrimmerViewController.constructor | OpenCollab/Sources/TrimmingSupport/WaveformTrimmerViewController.swift:92-95 | no fragment, not zoomed, every button disabled, nothing requested or reported (also lines 20, 38, 47, 77) |
| WaveformTrimmer.WaveformTrimmerViewController.SetFragment | OpenCollab/Sources/TrimmingSupport/WaveformTrimmerViewController.swift:160-166 | holds the fragment and recomputes the nudge buttons from it |
| WaveformTrimmer.WaveformTrimmerViewController.PlaybackChanged | OpenCollab/Sources/TrimmingSupport/WaveformTrimmerViewController.swift:323-327 | the same as `setFragment` with the announced fragment |
| WaveformTrimmer.WaveformTrimmerViewController.SetNudgeButtonsEnabled | OpenCollab/Sources/TrimmingSupport/WaveformTrimmerViewController.swift:225-249 | without a fragment the buttons are kept; with one they are recomputed from it |
| WaveformTrimmer.WaveformTrimmerViewController.SetPrecisionTrimButtonEnabled | OpenCollab/Sources/TrimmingSupport/WaveformTrimmerViewController.swift:217-223 | without a fragment the button is kept; with one it is enabled exactly when more than 1.5 s lies before the start or after the end |
| WaveformTrimmer.WaveformTrimmerViewController.ResetRange | OpenCollab/Sources/TrimmingSupport/WaveformTrimmerViewController.swift:168-172 | back to unzoomed with the precision button off |
| WaveformTrimmer.WaveformTrimmerViewController.DidTapPrecision | OpenCollab/Sources/TrimmingSupport/WaveformTrimmerViewController.swift:251-263 | without a fragment nothing happens; with one the zoom range for the current zoom state is requested and the zoom flag flips |
| WaveformTrimmer.WaveformTrimmerViewController.DidNudgeStartForward | OpenCollab/Sources/TrimmingSupport/WaveformTrimmerViewController.swift:265-267 | reports a start nudge of direction -1 |
| WaveformTrimmer.WaveformTrimmerViewController.DidNudgeStartBackward | OpenCollab/Sources/TrimmingSupport/WaveformTrimmerViewController.swift:269-271 | reports a start nudge of direction +1 |
| WaveformTrimmer.WaveformTrimmerViewController.DidNudgeEndForward | OpenCollab/Sources/TrimmingSupport/WaveformTrimmerViewController.swift:273-275 | reports an end nudge of direction -1 |
| WaveformTrimmer.WaveformTrimmerViewController.DidNudgeEndBackward | OpenCollab/Sources/TrimmingSupport/WaveformTrimmerViewController.swift:277-279 | reports an end nudge of direction +1 |
| WaveformTrimmer.WaveformTrimmerViewController.ProgressDragStarted | OpenCollab/Sources/TrimmingSupport/WaveformTrimmerViewController.swift:303-306 | reports the start of a progress drag |
| WaveformTrimmer.WaveformTrimmerViewController.ProgressDragChangedValue | OpenCollab/Sources/TrimmingSupport/WaveformTrimmerViewController.swift:308-310 | reports the slider's time as the dragged progress |
| WaveformTrimmer.WaveformTrimmerViewController.ProgressDragEnded | OpenCollab/Sources/TrimmingSupport/WaveformTrimmerViewController.swift:312-314 | reports the slider's time as the end of the progress drag |
| WaveformTrimmer.WaveformTrimmerViewController.HandleScrubberChangedValue | OpenCollab/Sources/TrimmingSupport/WaveformTrimmerViewController.swift:285-295 | without both trim times nothing changes; otherwise the indicator moves to the dragged handle's time, which is reported, the precision button is recomputed for the dragged window, and the nudge buttons are recomputed from the stored fragment, which the drag has not changed |
| WaveformTrimmer.WaveformTrimmerViewController.HandleScrubberChangeEnded | OpenCollab/Sources/TrimmingSupport/WaveformTrimmerViewController.swift:297-301 | without both trim times or a fragment nothing is reported; otherwise the range from the start to the end clamped into the asset is reported |
| WaveformTrimmer.IsValidTrim | OpenCollab/Sources/TrimmingSupport/WaveformTrimmerViewController.swift:84-90 | a fragment is set and its window is strictly shorter than its maximum duration, none meaning no limit; IsValidTrimCases states each case both ways |
| WaveformTrimmer.PrecisionButtonEnabled | OpenCollab/Sources/TrimmingSupport/WaveformTrimmerViewController.swift:219-222 | zooming is offered exactly when more than two zoom buffers lie before the window's start or after its end inside the asset; SetPrecisionTrimButtonEnabled sets the button to it |
| TrimView.RestartTime | OpenCollab/Sources/ViewControllers/TrimViewController.swift:156-165 | when only the end moved, the preview restarts 2.5 s before the new end; otherwise at the new start |
| TrimView.NudgeStartRestartsAtNewStart | OpenCollab/Sources/ViewControllers/TrimViewController.swift:182-187 | nudging the start restarts the preview at the nudged start |
| TrimView.NudgeEndRestartsNearNewEnd | OpenCollab/Sources/ViewControllers/TrimViewController.swift:189-194 | a real end nudge restarts the preview 2.5 s before the nudged end |
| TrimView.InitialNextRuleIsValidTrim | OpenCollab/Sources/ViewControllers/TrimViewController.swift:26-30 | the rule the initialiser uses for "Next" (maximum above the duration) is the trimmer's `isValidTrim` (also lines 78-82) |
| TrimView.TrimViewController.constructor | OpenCollab/Sources/ViewControllers/TrimViewController.swift:14-42 | holds the model, sets the trimmer to the first selection and enables "Next" exactly when that window is below its maximum |
| TrimView.TrimViewController.Updated | OpenCollab/Sources/ViewControllers/TrimViewController.swift:203-209 | holds the announced model, hands its first selection to the trimmer, recomputes the nudge buttons and sets "Next" from `isValidTrim` |
| TrimView.TrimViewController.AdjustTime | OpenCollab/Sources/ViewControllers/TrimViewController.swift:156-176 | the first selection takes the range through the model, the duration becomes its length and the change is reported; the preview gets the range and restarts per `RestartTime`; the announcement hands the new fragment and its nudge buttons to the trimmer and sets "Next"; it writes nothing else, so the model's takes and pool and the trimmer's zoom stay |
| TrimView.TrimViewController.DidDragTrimmer | OpenCollab/Sources/ViewControllers/TrimViewController.swift:152-154 | every effect of `adjustTime` with the dragged range: model, duration, report, preview range and restart, trimmer fragment and nudge buttons, "Next"; nothing else is written |
| TrimView.TrimViewController.DidNudgeStartTime | OpenCollab/Sources/ViewControllers/TrimViewController.swift:182-187 | adjusts to the start moved by `direction` increments and the current end: the preview gets that range and restarts at the new start, and the trimmer, its nudge buttons and "Next" follow; the range must not cross, as a Swift `ClosedRange` traps |
| TrimView.TrimViewController.DidNudgeEndTime | OpenCollab/Sources/ViewControllers/TrimViewController.swift:189-194 | adjusts to the current start and the end moved by `direction` increments: the preview gets that range and restarts 2.5 s before the new end after a real nudge, or at the start for a zero step; the trimmer, its nudge buttons and "Next" follow; the range must not cross |
| TrimView.TrimViewController.DidSelectTrimDoneButton | OpenCollab/Sources/ViewControllers/TrimViewController.swift:138-150 | the captured thumbnail is stored on the first selection and the remix model holds one copy of it, thumbnail included |
| AssetComposerModel.RangeFromTo | OpenCollab/Sources/ViewControllers/TrimViewController.swift:166 | `CMTimeRange(start:end:)`: the range starts at the start and ends at the end |
| AssetComposerModel.RangeIsValid | OpenCollab/Sources/RecordingSupport/AssetComposer.swift:35-49 | `rangeIsValid`: the start is not before the range and the end not after it; RangeIsValidIsContainment proves it is containment of the interval from start to end, and RangeIsValidAcceptsReversedPair that the order is never checked |
| AssetComposerModel.RangeIsValidIsContainment | OpenCollab/Sources/RecordingSupport/AssetComposer.swift:35-49 | the check passes exactly when the range contains the interval running from the proposed start to the proposed end |
| AssetComposerModel.CommonRange | OpenCollab/Sources/RecordingSupport/AssetComposer.swift:22-28 | the loop's fold, intersecting the first range with each track's in turn; CommonRangeOfPair, CommonRangeOfAudioAndVideo and CommonRangeContained state what it gives |
| AssetComposerModel.RangeIsValidAcceptsReversedPair | OpenCollab/Sources/RecordingSupport/AssetComposer.swift:35-49 | the check never compares the start with the end: [400, 200] inside [0, 600] passes |
| AssetComposerModel.Intersection | OpenCollab/Sources/RecordingSupport/AssetComposer.swift:27 | the overlap never has a negative duration and, when not empty, lies inside both ranges |
| AssetComposerModel.IntersectionIsGreatest | OpenCollab/Sources/RecordingSupport/AssetComposer.swift:27 | every non-empty range inside both lies inside their intersection |
| AssetComposerModel.IntersectionIdempotent | OpenCollab/Sources/RecordingSupport/AssetComposer.swift:26-28 | a non-empty range intersected with itself is itself, so the loop's first step changes nothing |
| AssetComposerModel.CommonRangeOfPair | OpenCollab/Sources/RecordingSupport/AssetComposer.swift:22-28 | over two tracks the loop intersects the first range with each in turn |
| AssetComposerModel.CommonRangeOfAudioAndVideo | OpenCollab/Sources/RecordingSupport/AssetComposer.swift:22-28 | for a non-empty audio range, the common range of `[audio, video]` is their intersection |
| AssetComposerModel.GetAccurateAssetTimeRange | OpenCollab/Sources/RecordingSupport/AssetComposer.swift:10-33 | nil exactly when a video or an audio track is missing; otherwise the loop's common range, which is the intersection for a non-empty audio range and when not empty lies inside both tracks |
| AssetComposerModel.CommonRangeContained | OpenCollab/Sources/RecordingSupport/AssetComposer.swift:22-30 | a non-empty common range lies inside both tracks |
| AssetCopierModel.KeyOf | OpenCollab/Sources/RecordingSupport/AssetCopier.swift:73-89 | an export needs a copy exactly when its asset is a user recording, keyed by its interval and the recording's URL (also lines 43-52, 152-156) |
| AssetCopierModel.CopiedFragment | OpenCollab/Sources/RecordingSupport/AssetCopier.swift:56-63 | the copied fragment is a user recording at the new URL whose duration is the export interval's length and which keeps the original's volume and window |
| AssetCopierModel.Outcome | OpenCollab/Sources/RecordingSupport/AssetCopier.swift:43-69 | an empty or downloaded asset yields its fragment unchanged; a recording yields the copied fragment, or nothing when its copy fails |
| AssetCopierModel.Outcomes | OpenCollab/Sources/RecordingSupport/AssetCopier.swift:33-71 | when every copy succeeds, one fragment per export, in export order (also lines 27-31) |
| AssetCopierModel.InsertedCount | OpenCollab/Sources/RecordingSupport/AssetCopier.swift:43-48 | at most one inserted fragment per export |
| AssetCopierModel.CompactMapOfSlots | OpenCollab/Sources/RecordingSupport/AssetCopier.swift:23 | dropping the empty slots from filled slots followed by empty ones gives back the fragments in order (also lines 46, 65) |
| AssetCopierModel.FirstFailure | OpenCollab/Sources/RecordingSupport/AssetCopier.swift:33-71 | nil exactly when every export from the index on succeeds; otherwise the first one that fails, all before it succeeding |
| AssetCopierModel.AssetCopier.constructor | OpenCollab/Sources/RecordingSupport/AssetCopier.swift:19-25 | one empty slot per export, and no copy under way |
| AssetCopierModel.AssetCopier.GetActiveFutureOrCopyAsset | OpenCollab/Sources/RecordingSupport/AssetCopier.swift:73-89 | a copy starts only when none is under way for its key, and the key is then under way; each key is started at most once |
| AssetCopierModel.AssetCopier.ExecuteCopy | OpenCollab/Sources/RecordingSupport/AssetCopier.swift:33-71 | handles the exports from the index on in order and succeeds exactly when none fails; the slots then hold every outcome, or the outcomes up to the first failure; only the copies those exports need are started |
| AssetCopierModel.AssetCopier.FillStep | OpenCollab/Sources/RecordingSupport/AssetCopier.swift:53-69 | a copied export fills its own slot with the copied fragment |
| AssetCopierModel.AssetCopier.InsertStep | OpenCollab/Sources/RecordingSupport/AssetCopier.swift:43-48 | an empty or downloaded export is inserted at its index, growing the array by one |
| AssetCopierModel.AssetCopier.StartCopy | OpenCollab/Sources/RecordingSupport/AssetCopier.swift:27-31 | a result exactly when every copy succeeds; it has one entry per export plus one extra empty slot per inserted export, its present entries are the outcomes in export order, and no copy was started twice |
| AssetCopierModel.AssetCopier.CopyAndContinue | OpenCollab/Sources/RecordingSupport/AssetCopier.swift:49-69 | a user recording is copied once per key; a failed copy stops at that export, a successful one fills its slot and the rest go on as for the next index |
| AssetCopierModel.CompactMap | OpenCollab/Sources/RecordingSupport/TakeGenerator.swift:165 | `compactMap { $0 }` on the copier's slots: never longer than the slots; CompactMapOfSlots proves it gives back the fragments of filled slots followed by empty ones |
| TakeGeneratorModel.ExportFor | OpenCollab/Sources/RecordingSupport/TakeGenerator.swift:180-270 | an emitted export lies inside the recorded range, contains its whole take (which starts at the loop time less the record start), and carries a user-recorded fragment of the take's length whose window fits the exported interval |
| TakeGeneratorModel.ExportForAcceptsEveryTakeInsideRecording | OpenCollab/Sources/RecordingSupport/TakeGenerator.swift:184-204 | with non-negative take length and padding, a take is emitted exactly when its loop time is not before the record start and the unpadded take lies inside the recording; the two closing range checks never reject (also lines 252-267) |
| TakeGeneratorModel.ExportForPadsBothSidesWhenThereIsRoom | OpenCollab/Sources/RecordingSupport/TakeGenerator.swift:206-228 | with room on both sides, the export is the take widened by 60 ticks of frame padding and then the editing padding, and playback starts that far into it |
| TakeGeneratorModel.Candidates | OpenCollab/Sources/RecordingSupport/TakeGenerator.swift:180-182 | every loop time but the last starts a take |
| TakeGeneratorModel.ExportsAtMostOnePerTime | OpenCollab/Sources/RecordingSupport/TakeGenerator.swift:178-272 | never more exports than loop times |
| TakeGeneratorModel.ExportsFollowTimes | OpenCollab/Sources/RecordingSupport/TakeGenerator.swift:178-272 | each export comes from one of the loop times, and ascending loop times give takes in ascending order |
| TakeGeneratorModel.ExportsAreWithinRecording | OpenCollab/Sources/RecordingSupport/TakeGenerator.swift:178-272 | every export is sound: inside the recording and containing its take |
| TakeGeneratorModel.SingleTakeExport | OpenCollab/Sources/RecordingSupport/TakeGenerator.swift:138-152 | without a take duration, one export from the range start plus the countdown to the range end less 60 ticks, whose fragment spans it whole |
| TakeGeneratorModel.TakeGenerator.constructor | OpenCollab/Sources/RecordingSupport/TakeGenerator.swift:31-45 | the generator keeps its inputs, with the countdown in ticks |
| TakeGeneratorModel.TakeGenerator.ExportAt | OpenCollab/Sources/RecordingSupport/TakeGenerator.swift:180-270 | one pass of the loop computes exactly the export `ExportFor` sets for that loop time, or none where the loop skips it |
| TakeGeneratorModel.TakeGenerator.CalculateExportInfos | OpenCollab/Sources/RecordingSupport/TakeGenerator.swift:174-273 | the loop yields exactly the exports of `ExportFor` for every loop time but the last, in order |
| TakeGeneratorModel.TakeGenerator.ExportInfosFor | OpenCollab/Sources/RecordingSupport/TakeGenerator.swift:134-158 | the export list for the common range: one whole take without a take duration, the loop's exports otherwise |
| TakeGeneratorModel.TakeGenerator.GenerateTakes | OpenCollab/Sources/RecordingSupport/TakeGenerator.swift:134-172 | failure without both tracks or when a copy fails; otherwise one fragment per export, the copied takes in export order (also lines 47-72) |
| TakeGeneratorModel.TakeGenerator.ExportsFor | OpenCollab/Sources/RecordingSupport/TakeGenerator.swift:134-158 | the export list for a recording's common range: one export without a take duration, otherwise the loop's; ExportInfosFor computes it |
| TakeGeneratorModel.TakeGenerator.ExpectedOutcome | OpenCollab/Sources/RecordingSupport/TakeGenerator.swift:134-172 | what `generateTakes` reports: failure without both tracks or when a copy fails, otherwise the copied takes in export order; GenerateTakes ensures it |
| TakeGeneratorModel.ExportIsSound | OpenCollab/Sources/RecordingSupport/TakeGenerator.swift:183-268 | what a kept export satisfies: the loop time is after recording began, the export interval lies inside the recorded range and holds the whole take starting at the loop time's offset, and the playback window has the take duration and fits the export; ExportFor ensures every emitted export meets it (also lines 196-249) |
| TakeGeneratorModel.TakeStart | OpenCollab/Sources/RecordingSupport/TakeGenerator.swift:222-240 | where in the recording an export's take begins, the export start plus its playback start offset; ExportIsSound and ExportsFollowTimes state it against the loop time |
| TakeGeneratorModel.Sorted | OpenCollab/Sources/RecordingSupport/TakeGenerator.swift:178-182 | loop times in ascending order, the hypothesis under which ExportsFollowTimes proves the takes come out in ascending order |
| TakeGeneratorModel.TakeGenerator.Rule | OpenCollab/Sources/RecordingSupport/TakeGenerator.swift:174-178 | the recording parameters one pass of the loop reads: source, record start, padding, take duration and recorded range; ExportAt and CalculateExportInfos are stated through it |
| TakeGeneratorModel.Exports | OpenCollab/Sources/RecordingSupport/TakeGenerator.swift:178-272 | the loop's exports for the loop times in order; ExportsAtMostOnePerTime, ExportsFollowTimes and ExportsAreWithinRecording prove at most one per time, each from its own time and every one sound |
| TakeView.TakeLabelFor | OpenCollab/Sources/ViewControllers/TakeViewController.swift:344-347 | the final-take prefix is shown exactly at the take limit, with an empty number; otherwise the number is the take count plus the initial count, with a minus sign exactly when that is negative, and the label spells that sum in decimal |
| TakeView.TakeViewController.constructor | OpenCollab/Sources/ViewControllers/TakeViewController.swift:36-62 | the controller keeps its duration, countdown interval, padding and initial take count, and starts with no takes, no thumbnails and no discard (also lines 75-92) |
| TakeView.TakeViewController.StartRecordingAsWritten | OpenCollab/Sources/ViewControllers/TakeViewController.swift:316-325 | as written: the take count and start times are cleared, the sync offset is kept, capture starts and the countdown runs from 4, but the thumbnails of an earlier recording stay |
| TakeView.TakeViewController.StartRecording | OpenCollab/Sources/ViewControllers/TakeViewController.swift:316-325 | the same start with the thumbnail list cleared too |
| TakeView.TakeViewController.StartTake | OpenCollab/Sources/ViewControllers/TakeViewController.swift:327-351 | nothing without a duration; otherwise the take is counted and its time appended, a photo requested, and then either a stop scheduled past the limit or the label shown and the progress bar started for a non-zero duration |
| TakeView.TakeViewController.StopRecording | OpenCollab/Sources/ViewControllers/TakeViewController.swift:353-355 | the capture controller is told to stop with the discard flag |
| TakeView.TakeViewController.GetTakeThumbnail | OpenCollab/Sources/ViewControllers/TakeViewController.swift:371-375 | take `n` has the `n`-th thumbnail when there is one, and none exactly when there are fewer |
| TakeView.TakeViewController.Reset | OpenCollab/Sources/ViewControllers/TakeViewController.swift:377-385 | the take label is emptied and hidden and the delegate restores its UI (also lines 302-305) |
| TakeView.TakeViewController.DidEnterForeground | OpenCollab/Sources/ViewControllers/TakeViewController.swift:387-390 | resets exactly when capture is not recording, and changes nothing otherwise |
| TakeView.TakeViewController.CapturedPhoto | OpenCollab/Sources/ViewControllers/TakeViewController.swift:396-398 | thumbnails are appended in arrival order |
| TakeView.TakeViewController.ReadyToRecordCallback | OpenCollab/Sources/ViewControllers/TakeViewController.swift:400-402 | the readiness is passed on to the delegate |
| TakeView.TakeViewController.StoppedRecordingCallback | OpenCollab/Sources/ViewControllers/TakeViewController.swift:404-407 | the stop is passed on to the delegate |
| TakeView.TakeViewController.RecordingInterrupted | OpenCollab/Sources/ViewControllers/TakeViewController.swift:458-462 | a stop is requested exactly when capture is recording |
| TakeView.TakeViewController.ThumbnailedFragments | OpenCollab/Sources/ViewControllers/TakeViewController.swift:469-474 | fragment `i` gets thumbnail `i` while both exist; the rest are unchanged and the count is kept |
| TakeView.TakeViewController.GeneratedFragments | OpenCollab/Sources/ViewControllers/TakeViewController.swift:468-480 | a reset, then the thumbnailed fragments are delivered |
| TakeView.TakeViewController.FinishedRecording | OpenCollab/Sources/ViewControllers/TakeViewController.swift:409-456 | a discarded recording, a missing URL, a missing file or a missing start time only reset, removing the file where the source does; otherwise a generator is built from the takes, with the start shifted by the sync offset and the countdown padding only for a single take, and its outcome either resets or delivers thumbnailed fragments |
| TakeView.StaleThumbnailAfterRestart | OpenCollab/Sources/ViewControllers/TakeViewController.swift:316-318 | as written, the first take of a second recording is delivered with the first recording's photo (also lines 39, 397) |
| TakeView.FreshThumbnailAfterRestart | OpenCollab/Sources/ViewControllers/TakeViewController.swift:316-318 | with the list cleared at the start, that take gets its own photo (also lines 39, 397) |
| TakeView.TakeViewController.Deliver | OpenCollab/Sources/ViewControllers/TakeViewController.swift:467-484 | the generator's answer always resets the take label; a failure adds only the reset, generated fragments go to the delegate with their take thumbnails after it |
| TakeView.HasThumbnails | OpenCollab/Sources/ViewControllers/TakeViewController.swift:469-474 | the delivered fragments are the generated ones in the same order, fragment `i` carrying thumbnail `i` where one exists and untouched beyond the thumbnails; ThumbnailedFragments and GeneratedFragments ensure it |
| TakeView.TakeViewController.BuildAndRunGenerator | OpenCollab/Sources/ViewControllers/TakeViewController.swift:439-455 | the generator gets the URL, the take duration, the edit padding, the start time shifted by the sync offset, the take start times and the countdown padding (only without a take duration); it runs, and a failure only resets while generated fragments are delivered with the thumbnails laid over them |
| TakeView.TakeViewController.GenerateAndDeliver | OpenCollab/Sources/ViewControllers/TakeViewController.swift:454-455 | the generator runs and its answer comes back: a failure only resets, generated fragments go out with their thumbnails after a reset, exactly as the generator's expected outcome says (also lines 467-484) |
| CaptureView.HighestFrameRate | OpenCollab/Sources/ViewControllers/CaptureViewController.swift:621-632 | none exactly when no range has a positive maximum frame rate; otherwise a range whose rate no other range exceeds, the first visited among equals |
| CaptureView.ScanFormat | OpenCollab/Sources/ViewControllers/CaptureViewController.swift:626-631 | the inner loop extends the best pair found so far over the ranges of one more format |
| CaptureView.FlipTarget | OpenCollab/Sources/ViewControllers/CaptureViewController.swift:404-421 | the back camera flips to the front TrueDepth camera, and every other position to the back ultra-wide camera |
| CaptureView.FirstWithPosition | OpenCollab/Sources/ViewControllers/CaptureViewController.swift:428 | the first discovered device at a position, or none exactly when no device is there |
| CaptureView.FlipDevice | OpenCollab/Sources/ViewControllers/CaptureViewController.swift:422-430 | the new camera is at the target position, is the exact target device when that is discovered, and is missing exactly when no device is at that position |
| CaptureView.FirstAvailableIndex | OpenCollab/Sources/ViewControllers/CaptureViewController.swift:221-229 | the first preferred camera type that is available, or none exactly when none is |
| CaptureView.FirstAvailable | OpenCollab/Sources/ViewControllers/CaptureViewController.swift:221-230 | the chosen front camera is available, and missing exactly when no preferred type is |
| CaptureView.FrontCameraChoice | OpenCollab/Sources/ViewControllers/CaptureViewController.swift:221-229 | an ultra-wide front camera always wins, the dual camera is chosen only when nothing before it exists, and the TrueDepth camera is never chosen |
| CaptureView.CaptureViewController.constructor | OpenCollab/Sources/ViewControllers/CaptureViewController.swift:54-66 | a new controller is undetermined, not ready and not recording, with no cut-off and no flags set (also lines 88-91) |
| CaptureView.CaptureViewController.SetIsRecording | OpenCollab/Sources/ViewControllers/CaptureViewController.swift:54-60 | clearing the flag lifts the cut-off to positive infinity; setting it keeps the cut-off |
| CaptureView.CaptureViewController.AuthorizationResolved | OpenCollab/Sources/ViewControllers/CaptureViewController.swift:113-121 | authorized gives success, any other status is kept as not authorized |
| CaptureView.CaptureViewController.ConfigureSession | OpenCollab/Sources/ViewControllers/CaptureViewController.swift:203-356 | nothing after a failed configuration; a configuration failure when no front camera is available, when its input is refused, when the audio input cannot be made or added, or when the video, audio or photo output is refused; the preferred front camera, configured for its highest frame rate, becomes the device as soon as its input is in, even if a later step fails |
| CaptureView.CaptureViewController.ConfigureCameraForHighestFrameRate | OpenCollab/Sources/ViewControllers/CaptureViewController.swift:621-640 | the device is configured exactly when some range has a positive rate, and then with the best range's minimum frame duration |
| CaptureView.CaptureViewController.FlipCamera | OpenCollab/Sources/ViewControllers/CaptureViewController.swift:395-474 | refused when not ready; never completes while recording or with no camera at the target; otherwise the new camera replaces the old only when its input is made and accepted |
| CaptureView.CaptureViewController.StartRecordingAsWritten | OpenCollab/Sources/ViewControllers/CaptureViewController.swift:504-509 | as written: recording starts, but the cut-off flags keep their values from the last recording |
| CaptureView.CaptureViewController.StartRecording | OpenCollab/Sources/ViewControllers/CaptureViewController.swift:504-509 | recording starts with both cut-off flags cleared |
| CaptureView.CaptureViewController.FinishRecording | OpenCollab/Sources/ViewControllers/CaptureViewController.swift:527-539 | recording ends, the cut-off is lifted and the recorder is asked to finish |
| CaptureView.CaptureViewController.StopRecording | OpenCollab/Sources/ViewControllers/CaptureViewController.swift:511-525 | the stop is announced; a kept recording in progress gets the cut-off now plus 0.05 s and goes on, anything else finishes at once |
| CaptureView.CaptureViewController.SessionWasInterrupted | OpenCollab/Sources/ViewControllers/CaptureViewController.swift:611-615 | an interruption stops a recording in progress as kept, and finishes anything else as discarded |
| CaptureView.CaptureViewController.CaptureOutput | OpenCollab/Sources/ViewControllers/CaptureViewController.swift:645-671 | samples outside a recording change nothing; a sample up to the cut-off is appended; a later one marks its media type as complete, and the recording finishes exactly when both types are |
| CaptureView.CaptureViewController.AssetRecorderDidFinishPreparing | OpenCollab/Sources/ViewControllers/CaptureViewController.swift:690-695 | the recorder is ready and the delegate is told |
| CaptureView.CaptureViewController.AssetRecorderDidFinishRecording | OpenCollab/Sources/ViewControllers/CaptureViewController.swift:697-705 | the controller is no longer ready, and the delegate gets the saved temporary file and the start time |
| CaptureView.CaptureViewController.AssetRecorderError | OpenCollab/Sources/ViewControllers/CaptureViewController.swift:707-714 | the delegate gets a recording with neither file nor start time |
| CaptureView.SecondRecordingEndsOnFirstLateSample | OpenCollab/Sources/ViewControllers/CaptureViewController.swift:656-662 | as written, a second kept recording finishes on its first late video sample, before any late audio (also lines 62-63, 504-509) |
| CaptureView.SecondRecordingWaitsForBothTypes | OpenCollab/Sources/ViewControllers/CaptureViewController.swift:656-662 | with the flags cleared at the start, that recording is still running after the late video sample (also lines 62-63, 504-509) |
| CaptureView.CaptureViewController.IsReadyToRecord | OpenCollab/Sources/ViewControllers/CaptureViewController.swift:386-393 | `isReadyToRecord`: set up successfully and the recorder prepared; FlipCamera refuses to flip without it |
| RecordingAuthorizerModel.AuthorizedIffBothEndAuthorized | OpenCollab/Sources/RecordingSupport/RecordingAuthorizer.swift:7-45 | recording is authorized exactly when the camera and the microphone each either already were authorized or were undetermined and then granted |
| RecordingAuthorizerModel.StatusNamesAuthorizedDevices | OpenCollab/Sources/RecordingSupport/RecordingAuthorizer.swift:7-45 | the status names the devices that end up authorized, except that a refused camera request leaves an undetermined microphone unasked and gives both unauthorized |
| RecordingAuthorizerModel.SettledStatusIgnoresAnswers | OpenCollab/Sources/RecordingSupport/RecordingAuthorizer.swift:33-43 | with both permissions settled nothing is asked, so the answers make no difference (also lines 10-12) |
| RecordingAuthorizerModel.UnauthorizedDevice | OpenCollab/Sources/RecordingSupport/RecordingAuthorizer.swift:54-65 | a device is named exactly when the status is not authorized |
| RecordingAuthorizerModel.AlertMessage | OpenCollab/Sources/RecordingSupport/RecordingAuthorizer.swift:51-67 | no alert when authorized; otherwise the message with the missing device named |
| RecordingAuthorizerModel.AlertNamesMissingDevices | OpenCollab/Sources/RecordingSupport/RecordingAuthorizer.swift:59-64 | the alert names the camera exactly when the camera is missing, and the microphone exactly when the microphone is missing |
| RecordingAuthorizerModel.IsAuthorized | OpenCollab/Sources/RecordingSupport/RecordingAuthorizer.swift:7-45 | `isAuthorized()` given the prompts' answers; AuthorizedIffBothEndAuthorized and StatusNamesAuthorizedDevices prove it is fully authorized exactly when both devices end up usable and otherwise names the usable one |
| RecordingAuthorizerModel.Settled | OpenCollab/Sources/RecordingSupport/RecordingAuthorizer.swift:33-43 | the switch's last case, both permissions settled; SettledStatusIgnoresAnswers proves the answers then play no part |
| HotLooperModel.PlaybackTimeInLoop | OpenCollab/Sources/VideoPlayback/HotLooper.swift:357-375 | once the loop has begun, playback time lies in `[0, duration)`, and in the first loop it is the time since the start |
| HotLooperModel.PlaybackTimeIsPeriodic | OpenCollab/Sources/VideoPlayback/HotLooper.swift:357-375 | one duration later, playback is at the same point |
| HotLooperModel.StartTimeFor | OpenCollab/Sources/VideoPlayback/HotLooper.swift:377-379 | the start time plus the playback time is the given time |
| HotLooperModel.StartTimeRestoresPlaybackTime | OpenCollab/Sources/VideoPlayback/HotLooper.swift:357-379 | a loop restarted from a playback time is at that playback time at the moment of restarting (also lines 110-118) |
| HotLooperModel.RemainingInterval | OpenCollab/Sources/VideoPlayback/HotLooper.swift:381-391 | the rest of the interval runs from the given time to the interval start plus one duration |
| HotLooperModel.ClearAndPlayEach | OpenCollab/Sources/VideoPlayback/HotLooper.swift:119-122 | each looper in turn is cleared and then played at the item and sync time |
| HotLooperModel.PlayEach | OpenCollab/Sources/VideoPlayback/HotLooper.swift:315-322 | each looper in turn is played at the same item and sync time (also lines 484-486) |
| HotLooperModel.LoopEach | OpenCollab/Sources/VideoPlayback/HotLooper.swift:300-304 | each looper in turn loops at the same loop time and duration |
| HotLooperModel.DetachEach | OpenCollab/Sources/VideoPlayback/HotLooper.swift:139-151 | two calls for each looper detached (also lines 188-190) |
| HotLooperModel.DetachEachCalls | OpenCollab/Sources/VideoPlayback/HotLooper.swift:139-151 | looper by looper in list order, each is cleared and then loses its delegate (also lines 188-190) |
| HotLooperModel.RemoveFirst | OpenCollab/Sources/VideoPlayback/HotLooper.swift:394-405 | an id that is not there changes nothing; otherwise exactly its first occurrence is removed |
| HotLooperModel.RemoveFirstTakesOneOccurrence | OpenCollab/Sources/VideoPlayback/HotLooper.swift:394-405 | removal takes exactly one copy of the id out of the list |
| HotLooperModel.RemoveFirstOfDistinct | OpenCollab/Sources/VideoPlayback/HotLooper.swift:394-405 | in a list without duplicates, the removed id is gone and the list stays free of duplicates |
| HotLooperModel.Attached | OpenCollab/Sources/VideoPlayback/HotLooper.swift:193-235 | while active, a known looper changes nothing and a new one is appended, gets its delegate and is preheated or synced to the loop; in the background it waits for recovery with playback to resume from zero if nothing was observed; the looper list never gains a duplicate (also lines 127-137) |
| HotLooperModel.AttachedAllKeepsLoopersDistinct | OpenCollab/Sources/VideoPlayback/HotLooper.swift:209-235 | attaching any sequence of loopers never attaches one twice, loses none, and while active attaches every one (also lines 127-137) |
| HotLooperModel.DetachStep | OpenCollab/Sources/VideoPlayback/HotLooper.swift:185-190 | one step of the detach loop removes exactly the looper detached |
| HotLooperModel.DetachEachStep | OpenCollab/Sources/VideoPlayback/HotLooper.swift:188-190 | the detach calls for one more looper are those calls extended by one clear and one delegate removal |
| HotLooperModel.HotLooper.constructor | OpenCollab/Sources/VideoPlayback/HotLooper.swift:31-82 | a new hot looper keeps its duration and has no loop times, no start, no timer and no loopers |
| HotLooperModel.HotLooper.LoopCount | OpenCollab/Sources/VideoPlayback/HotLooper.swift:50-54 | the loop count is one less than the number of loop times, and zero without any |
| HotLooperModel.HotLooper.SetLoopStartTime | OpenCollab/Sources/VideoPlayback/HotLooper.swift:42-48 | setting a start time appends it to the loop times and reports it with the new loop count; clearing it does neither |
| HotLooperModel.HotLooper.AlgorithmicCurrentTimeAtLoop | OpenCollab/Sources/VideoPlayback/HotLooper.swift:345-355 | none without loop times; otherwise the first loop time plus one duration per loop time, which for regular loop times is the last one plus one duration |
| HotLooperModel.HotLooper.CurrentPlaybackTime | OpenCollab/Sources/VideoPlayback/HotLooper.swift:336-339 | none exactly before the loop starts; otherwise the playback time now, inside the loop |
| HotLooperModel.HotLooper.DispatchLoopEvent | OpenCollab/Sources/VideoPlayback/HotLooper.swift:253-281 | the start time is set and recorded, and the timer is scheduled for the rest of the loop less the 6-tick buffer |
| HotLooperModel.HotLooper.TriggerLoop | OpenCollab/Sources/VideoPlayback/HotLooper.swift:283-311 | nothing without loop times; otherwise every looper loops at the algorithmic loop time, which becomes the next start, the timer is set one duration less the buffer ahead, and regular loop times stay regular |
| HotLooperModel.HotLooper.ResetToPlaybackTime | OpenCollab/Sources/VideoPlayback/HotLooper.swift:110-125 | the loop times restart from the one start time that puts the given time at the playback time, every looper is cleared and played, and playback starting is reported |
| HotLooperModel.HotLooper.Attach | OpenCollab/Sources/VideoPlayback/HotLooper.swift:193-235 | the state becomes `Attached` of the old state (also lines 127-137) |
| HotLooperModel.HotLooper.AttachAll | OpenCollab/Sources/VideoPlayback/HotLooper.swift:173-175 | attaching a list of loopers in turn gives `AttachedAll` of the old state (also lines 427-429) |
| HotLooperModel.HotLooper.Detach | OpenCollab/Sources/VideoPlayback/HotLooper.swift:139-151 | the looper is cleared, its first occurrence removed and its delegate unset |
| HotLooperModel.HotLooper.ClearPlaybackState | OpenCollab/Sources/VideoPlayback/HotLooper.swift:241-249 | no start time, no loop times and no timer remain |
| HotLooperModel.HotLooper.ClearLoopersAndPlaybackState | OpenCollab/Sources/VideoPlayback/HotLooper.swift:185-191 | the playback state is cleared and every looper attached before is detached, in order, leaving none |
| HotLooperModel.HotLooper.Clear | OpenCollab/Sources/VideoPlayback/HotLooper.swift:180-183 | everything is detached and no looper waits for recovery (also lines 237-239) |
| HotLooperModel.HotLooper.Pause | OpenCollab/Sources/VideoPlayback/HotLooper.swift:153-158 | the playback time now and the playing loopers are remembered, then everything is detached |
| HotLooperModel.HotLooper.Unpause | OpenCollab/Sources/VideoPlayback/HotLooper.swift:161-178 | nothing without a time to resume from; otherwise the given or last observed time is scheduled and the paused loopers are attached again |
| HotLooperModel.HotLooper.DidEnterBackground | OpenCollab/Sources/VideoPlayback/HotLooper.swift:412-423 | nothing without loopers; otherwise the playback time and the loopers are kept for recovery and everything is detached |
| HotLooperModel.HotLooper.DidEnterForeground | OpenCollab/Sources/VideoPlayback/HotLooper.swift:425-433 | nothing unless there are loopers to recover and a playback time; then they are attached again and the loop restarts at that playback time now |
| HotLooperModel.HotLooper.IsBuffering | OpenCollab/Sources/VideoPlayback/HotLooper.swift:439-446 | the buffering count rises by one, and only the first buffering looper is reported |
| HotLooperModel.HotLooper.StoppedBuffering | OpenCollab/Sources/VideoPlayback/HotLooper.swift:448-455 | the buffering count falls by one, and the end is reported when it reaches zero |
| HotLooperModel.HotLooper.ReadyToLoop | OpenCollab/Sources/VideoPlayback/HotLooper.swift:457-487 | nothing once the loop has started; otherwise the loop starts at the scheduled playback time, which is used up, or now, playback starting is reported and every looper is synced |
| HotLooperModel.PlaybackTime | OpenCollab/Sources/VideoPlayback/HotLooper.swift:357-375 | `calculatePlaybackTime(currentTime:)`: zero before the loop starts, then the time since the start modulo the duration with Swift's remainder; PlaybackTimeInLoop and PlaybackTimeIsPeriodic prove it stays within one loop and repeats every duration |
| HotLooperModel.AttachedAll | OpenCollab/Sources/VideoPlayback/HotLooper.swift:173-175 | `attach(looper:)` for each looper in turn; AttachedAllKeepsLoopersDistinct proves no looper is attached twice and all are attached while active |
| HotPlayerModel.ForwardPlaybackEndTime | OpenCollab/Sources/VideoPlayback/HotPlayer.swift:289 | the item stops one playback duration after the playback start |
| HotPlayerModel.Notify | OpenCollab/Sources/VideoPlayback/HotPlayer.swift:63 | a delegate call is recorded exactly when there is a delegate, and nothing else changes (also lines 164, 265, 339, 490) |
| HotPlayerModel.Decide | OpenCollab/Sources/VideoPlayback/HotPlayer.swift:168-200 | play when ready exactly without a sync time or clock; nothing exactly when the clock is past the end of the window; a dispatch exactly when more than the 4 s preroll buffer is left, waiting until just the buffer is left; otherwise prepare now |
| HotPlayerModel.DispatchedWorkWakesWithPrerollBuffer | OpenCollab/Sources/VideoPlayback/HotPlayer.swift:190-199 | after the dispatched wait exactly the preroll buffer is left, so the same decision then prepares at once (also lines 202-211) |
| HotPlayerModel.ScheduledRate | OpenCollab/Sources/VideoPlayback/HotPlayer.swift:246-263 | the host time is the later of the sync time and now, and the item time stays the same distance ahead of it, so a late start plays in step |
| HotPlayerModel.CreatePlayerStep | OpenCollab/Sources/VideoPlayback/HotPlayer.swift:287-307 | a player exists afterwards, created with the window end and the current volume and mute, and recovery is watched |
| HotPlayerModel.PlaybackIsStuck | OpenCollab/Sources/VideoPlayback/HotPlayer.swift:401-423 | none exactly without a player; stuck exactly when the timebase has stopped strictly inside the playback window |
| HotPlayerModel.CurrentTime | OpenCollab/Sources/VideoPlayback/HotPlayer.swift:79-87 | none exactly without a player; otherwise the player's time less the playback start |
| HotPlayerModel.PreheatIgnoredOnceScheduled | OpenCollab/Sources/VideoPlayback/HotPlayer.swift:105-115 | preheating is ignored once scheduled; otherwise a preheating player is created |
| HotPlayerModel.PrepareToPlayKeepsSchedule | OpenCollab/Sources/VideoPlayback/HotPlayer.swift:213-225 | preparing to play never changes the schedule, and recovery is watched only on an existing player |
| HotPlayerModel.PreparePlaybackKeepsSchedule | OpenCollab/Sources/VideoPlayback/HotPlayer.swift:168-200 | the playback preparation never changes the schedule, and recovery is watched only on an existing player |
| HotPlayerModel.ScheduleStoresTimes | OpenCollab/Sources/VideoPlayback/HotPlayer.swift:117-133 | scheduling records the item and sync time; while preheating nothing else happens |
| HotPlayerModel.PastWindowDoesNothing | OpenCollab/Sources/VideoPlayback/HotPlayer.swift:182-188 | when the window is already over nothing is created or dispatched |
| HotPlayerModel.ScheduledPlayKeepsSync | OpenCollab/Sources/VideoPlayback/HotPlayer.swift:227-269 | a scheduled player starts with its rate set at the later of the sync time and now, the item time in step with the schedule, then tells the delegate it started playing, and is then meant to be playing |
| HotPlayerModel.ClearLeavesNothingRunning | OpenCollab/Sources/VideoPlayback/HotPlayer.swift:309-328 | after clearing there is no player, no pending work, no delegate and no recovery watch |
| HotPlayerModel.EndBufferingRunsOncePerEpisode | OpenCollab/Sources/VideoPlayback/HotPlayer.swift:504-524 | the buffering episode is over after the first observer fires, and the second then does nothing (also lines 332-345) |
| HotPlayerModel.ScheduleStepsKeepRecoveryNeedsPlayer | OpenCollab/Sources/VideoPlayback/HotPlayer.swift:105-225 | preheating, scheduling, the preroll's end and the dispatched work keep recovery watched only on an existing player |
| HotPlayerModel.CallbackStepsKeepRecoveryNeedsPlayer | OpenCollab/Sources/VideoPlayback/HotPlayer.swift:309-345 | the status callback, the end of buffering and clearing keep recovery watched only on an existing player (also lines 425-433, 463-485) |
| HotPlayerModel.PlayKeepsRecoveryNeedsPlayer | OpenCollab/Sources/VideoPlayback/HotPlayer.swift:271-283 | the internal play keeps recovery watched only on an existing player |
| HotPlayerModel.HotPlayer.constructor | OpenCollab/Sources/VideoPlayback/HotPlayer.swift:89-103 | a new player keeps its window, clock, volume and mute, with nothing scheduled and no player |
| HotPlayerModel.HotPlayer.SetVolume | OpenCollab/Sources/VideoPlayback/HotPlayer.swift:73-77 | the volume is stored and passed to the player when there is one |
| HotPlayerModel.HotPlayer.SetMuted | OpenCollab/Sources/VideoPlayback/HotPlayer.swift:67-71 | the mute is stored and passed to the player when there is one |
| HotPlayerModel.HotPlayer.GetCurrentTime | OpenCollab/Sources/VideoPlayback/HotPlayer.swift:79-87 | the time within the playback window, none exactly without a player |
| HotPlayerModel.HotPlayer.CreatePlayer | OpenCollab/Sources/VideoPlayback/HotPlayer.swift:287-307 | performs `CreatePlayerStep` |
| HotPlayerModel.HotPlayer.Preheat | OpenCollab/Sources/VideoPlayback/HotPlayer.swift:105-115 | ignored once scheduled, otherwise a preheating player is created |
| HotPlayerModel.HotPlayer.Schedule | OpenCollab/Sources/VideoPlayback/HotPlayer.swift:117-133 | the times are stored and playback is prepared unless preheating |
| HotPlayerModel.HotPlayer.PrerollPlayer | OpenCollab/Sources/VideoPlayback/HotPlayer.swift:136-145 | a preroll is requested of an existing player |
| HotPlayerModel.HotPlayer.PrerollFinished | OpenCollab/Sources/VideoPlayback/HotPlayer.swift:145-165 | an unfinished preroll changes nothing; otherwise preheating ends and playback is prepared when scheduled, or the delegate hears that the player is preheated |
| HotPlayerModel.HotPlayer.PreparePlayback | OpenCollab/Sources/VideoPlayback/HotPlayer.swift:168-200 | performs what `Decide` chose |
| HotPlayerModel.HotPlayer.DispatchPlayWork | OpenCollab/Sources/VideoPlayback/HotPlayer.swift:202-211 | the pending work is replaced by one with the new wait |
| HotPlayerModel.HotPlayer.PlayWorkFired | OpenCollab/Sources/VideoPlayback/HotPlayer.swift:205-207 | pending work prepares to play once and is used up |
| HotPlayerModel.HotPlayer.PrepareToPlay | OpenCollab/Sources/VideoPlayback/HotPlayer.swift:213-225 | an existing player plays at the scheduled time, otherwise one is created |
| HotPlayerModel.HotPlayer.PlayAtScheduledTime | OpenCollab/Sources/VideoPlayback/HotPlayer.swift:227-269 | nothing without a player; a plain play without a schedule or clock; otherwise the rate of `ScheduledRate`, the delegate told, and playing is expected |
| HotPlayerModel.HotPlayer.Play | OpenCollab/Sources/VideoPlayback/HotPlayer.swift:271-283 | preheating prerolls, a scheduled player plays at the scheduled time, anything else does nothing |
| HotPlayerModel.HotPlayer.Clear | OpenCollab/Sources/VideoPlayback/HotPlayer.swift:309-315 | the internal state is cleared and the delegate dropped |
| HotPlayerModel.HotPlayer.ClearInternalState | OpenCollab/Sources/VideoPlayback/HotPlayer.swift:317-328 | no pending work and no player remain, an existing one is paused, and recovery stops with it |
| HotPlayerModel.HotPlayer.EndBufferingObservationAndRestartPlayback | OpenCollab/Sources/VideoPlayback/HotPlayer.swift:332-345 | only while buffering is observed: the delegate is told it stopped, and playback restarts |
| HotPlayerModel.HotPlayer.OnItemRateChanged | OpenCollab/Sources/VideoPlayback/HotPlayer.swift:372-399 | only a stop of a watched, stuck player acts: an empty buffer starts buffering observation, otherwise the player recovers |
| HotPlayerModel.HotPlayer.Recover | OpenCollab/Sources/VideoPlayback/HotPlayer.swift:425-433 | the player is cleared and playback prepared again |
| HotPlayerModel.HotPlayer.PlayerStatusChanged | OpenCollab/Sources/VideoPlayback/HotPlayer.swift:463-485 | a failed item recovers; a ready one plays when buffered and otherwise observes buffering |
| HotPlayerModel.HotPlayer.BeginObservingBuffering | OpenCollab/Sources/VideoPlayback/HotPlayer.swift:487-525 | the delegate hears that buffering started; an item already buffered, or none, plays at once, otherwise both observers are started |
| HotPlayerModel.RateChangedKeepsRecoveryNeedsPlayer | OpenCollab/Sources/VideoPlayback/HotPlayer.swift:372-399 | the rate callback, whether it ignores the change, starts observing the buffer or recovers, keeps recovery watched only on an existing player; so do the volume and mute setters (also lines 67-77) |
| HotPlayerModel.StatusChangedKeepsRecoveryNeedsPlayer | OpenCollab/Sources/VideoPlayback/HotPlayer.swift:463-485 | the status callback, whether it recovers, plays or starts observing the buffer, keeps recovery watched only on an existing player |
| HotPlayerModel.EndBufferingKeepsRecoveryNeedsPlayer | OpenCollab/Sources/VideoPlayback/HotPlayer.swift:332-345 | ending the buffering observation keeps recovery watched only on an existing player |
| HotPlayerModel.RecoverKeepsRecoveryNeedsPlayer | OpenCollab/Sources/VideoPlayback/HotPlayer.swift:317-330 | recovering from a fresh player keeps recovery watched only on an existing player (also lines 425-433) |
| HotPlayerModel.BeginObservingKeepsRecoveryNeedsPlayer | OpenCollab/Sources/VideoPlayback/HotPlayer.swift:487-502 | starting to observe the buffer, or playing at once when it is already full, keeps recovery watched only on an existing player |
| HotPlayerModel.RecoveryNeedsPlayer | OpenCollab/Sources/VideoPlayback/HotPlayer.swift:287-307 | the invariant the player keeps: recovery is watched only while an AVPlayer exists; ScheduleStepsKeepRecoveryNeedsPlayer, CallbackStepsKeepRecoveryNeedsPlayer, RateChangedKeepsRecoveryNeedsPlayer and PlayKeepsRecoveryNeedsPlayer prove that every step keeps it |
| HotPlayerModel.SameSchedule | OpenCollab/Sources/VideoPlayback/HotPlayer.swift:117-133 | two states agree on the scheduled item time and sync time; PreheatIgnoredOnceScheduled, PrepareToPlayKeepsSchedule and PreparePlaybackKeepsSchedule prove those steps keep the schedule |
| HotPlayerModel.PlayAtScheduledTimeStep | OpenCollab/Sources/VideoPlayback/HotPlayer.swift:227-269 | `playAtScheduledTime()`; ScheduledPlayKeepsSync proves the rate is set at the item time that keeps the player in sync with the host clock |
| HotPlayerModel.PrepareToPlayStep | OpenCollab/Sources/VideoPlayback/HotPlayer.swift:213-225 | `prepareToPlay()`: play an existing player, otherwise create one; PrepareToPlayKeepsSchedule proves it keeps the schedule and the recovery invariant |
| HotPlayerModel.DispatchStep | OpenCollab/Sources/VideoPlayback/HotPlayer.swift:202-211 | `dispatchPlayWork(waitTime:)`: the pending work item is replaced by one for the new wait |
| HotPlayerModel.PreparePlaybackStep | OpenCollab/Sources/VideoPlayback/HotPlayer.swift:168-200 | `preparePlayback()`, doing what Decide chose; PastWindowDoesNothing and PreparePlaybackKeepsSchedule prove a past window does nothing and the schedule is kept |
| HotPlayerModel.PreheatStep | OpenCollab/Sources/VideoPlayback/HotPlayer.swift:105-115 | `preheat()`; PreheatIgnoredOnceScheduled proves it is ignored once a schedule exists |
| HotPlayerModel.ScheduleStep | OpenCollab/Sources/VideoPlayback/HotPlayer.swift:117-133 | `schedule(itemTime:syncTime:)`; ScheduleStoresTimes proves the times are recorded and playback prepared |
| HotPlayerModel.PrerollStep | OpenCollab/Sources/VideoPlayback/HotPlayer.swift:136-145 | `prerollPlayer()`: a preroll is requested of an existing player |
| HotPlayerModel.PlayStep | OpenCollab/Sources/VideoPlayback/HotPlayer.swift:271-283 | the private `play()`; PlayKeepsRecoveryNeedsPlayer proves it keeps the recovery invariant |
| HotPlayerModel.PrerollFinishedStep | OpenCollab/Sources/VideoPlayback/HotPlayer.swift:145-165 | the completion of `preroll(atRate:)`: nothing unless finished, then the item's play |
| HotPlayerModel.ClearInternalStep | OpenCollab/Sources/VideoPlayback/HotPlayer.swift:317-328 | `clearInternalState()`: pending work cancelled, the player paused and dropped |
| HotPlayerModel.ClearStep | OpenCollab/Sources/VideoPlayback/HotPlayer.swift:309-315 | `clear()`; ClearLeavesNothingRunning proves no player, no work and no recovery watch remain |
| HotPlayerModel.RecoverStep | OpenCollab/Sources/VideoPlayback/HotPlayer.swift:425-433 | `recover()`; RecoverKeepsRecoveryNeedsPlayer proves it keeps the recovery invariant |
| HotPlayerModel.BeginObservingBufferingStep | OpenCollab/Sources/VideoPlayback/HotPlayer.swift:487-525 | `beginObservingBuffering()`; BeginObservingKeepsRecoveryNeedsPlayer proves it keeps the recovery invariant |
| HotPlayerModel.EndBufferingStep | OpenCollab/Sources/VideoPlayback/HotPlayer.swift:332-345 | `endBufferingObservationAndRestartPlayback()`; EndBufferingRunsOncePerEpisode proves only the first of the two observers acts |
| HotPlayerModel.StatusChangedStep | OpenCollab/Sources/VideoPlayback/HotPlayer.swift:463-485 | the status callback; StatusChangedKeepsRecoveryNeedsPlayer proves it keeps the recovery invariant |
| HotPlayerModel.RateChangedStep | OpenCollab/Sources/VideoPlayback/HotPlayer.swift:372-399 | `onItemRateChanged(_:)` with its main-queue block: only a stop of a watched, stuck player recovers |
| HotPlayerModel.PlayWorkFiredStep | OpenCollab/Sources/VideoPlayback/HotPlayer.swift:205-207 | the dispatched work item firing: it prepares to play |
| HotPlayerModel.SetVolumeStep | OpenCollab/Sources/VideoPlayback/HotPlayer.swift:73-77 | the `volume` setter: stored, and passed to an existing player |
| HotPlayerModel.SetMutedStep | OpenCollab/Sources/VideoPlayback/HotPlayer.swift:67-71 | the `isMuted` setter: stored, and passed to an existing player |
| QueuePlayerLooperModel.PlayReusesCurrentAndQueuesBuffer | OpenCollab/Sources/VideoPlayback/QueuePlayerLooper.swift:92-114 | play keeps a current player made while preheating, or creates one, schedules it as asked, and queues a new buffer player from its start for when the window ends |
| QueuePlayerLooperModel.LoopWithoutBufferIsNoop | OpenCollab/Sources/VideoPlayback/QueuePlayerLooper.swift:124-127 | a loop without a buffer player does nothing |
| QueuePlayerLooperModel.LoopPromotesBuffer | OpenCollab/Sources/VideoPlayback/QueuePlayerLooper.swift:116-137 | a loop clears the current player, promotes the buffer player with the looper's volume and mute, and queues a new buffer for one loop later (also lines 180-195) |
| QueuePlayerLooperModel.ClearEmptiesSlots | OpenCollab/Sources/VideoPlayback/QueuePlayerLooper.swift:139-147 | clearing empties both slots and clears each player that was in one |
| QueuePlayerLooperModel.PreheatedOnlyForCurrentPlayer | OpenCollab/Sources/VideoPlayback/QueuePlayerLooper.swift:226-245 | a preheat report changes something exactly when it comes from the current player while preheating, which then makes the looper ready to loop |
| QueuePlayerLooperModel.VolumeAndMuteReachBothPlayers | OpenCollab/Sources/VideoPlayback/QueuePlayerLooper.swift:37-49 | a volume or mute change reaches each player in a slot |
| QueuePlayerLooperModel.MuteRules | OpenCollab/Sources/VideoPlayback/QueuePlayerLooper.swift:201-212 | the mute switch mutes exactly when the app is muted or the looper mutes without headphones; a headphone change matters only then, muting exactly when none are connected (also lines 51-55) |
| QueuePlayerLooperModel.StepsKeepSlotsValid | OpenCollab/Sources/VideoPlayback/QueuePlayerLooper.swift:86-195 | every step keeps the slots holding distinct players this looper created (also lines 226-245) |
| QueuePlayerLooperModel.QueuePlayerLooper.constructor | OpenCollab/Sources/VideoPlayback/QueuePlayerLooper.swift:12-82 | a new looper keeps its window, has no players, is neither preheating nor ready, and plays unmuted at full volume |
| QueuePlayerLooperModel.QueuePlayerLooper.SetDelegate | OpenCollab/Sources/VideoPlayback/QueuePlayerLooper.swift:33 | only the delegate changes |
| QueuePlayerLooperModel.QueuePlayerLooper.SetIsMuted | OpenCollab/Sources/VideoPlayback/QueuePlayerLooper.swift:37-42 | the mute is stored and passed to both players |
| QueuePlayerLooperModel.QueuePlayerLooper.SetVolume | OpenCollab/Sources/VideoPlayback/QueuePlayerLooper.swift:44-49 | the volume is stored and passed to both players |
| QueuePlayerLooperModel.QueuePlayerLooper.SetShouldMuteWithoutHeadphones | OpenCollab/Sources/VideoPlayback/QueuePlayerLooper.swift:51-55 | the flag is stored and the headphones are read again |
| QueuePlayerLooperModel.QueuePlayerLooper.Preheat | OpenCollab/Sources/VideoPlayback/QueuePlayerLooper.swift:86-90 | a new current player is created and preheated |
| QueuePlayerLooperModel.QueuePlayerLooper.Play | OpenCollab/Sources/VideoPlayback/QueuePlayerLooper.swift:92-114 | performs the play step |
| QueuePlayerLooperModel.QueuePlayerLooper.Loop | OpenCollab/Sources/VideoPlayback/QueuePlayerLooper.swift:116-137 | performs the loop step |
| QueuePlayerLooperModel.QueuePlayerLooper.Clear | OpenCollab/Sources/VideoPlayback/QueuePlayerLooper.swift:139-147 | performs the clear step |
| QueuePlayerLooperModel.QueuePlayerLooper.CreatePlayer | OpenCollab/Sources/VideoPlayback/QueuePlayerLooper.swift:149-159 | the next numbered player, created with the looper's volume and mute |
| QueuePlayerLooperModel.QueuePlayerLooper.AttachPlayer | OpenCollab/Sources/VideoPlayback/QueuePlayerLooper.swift:161-172 | the player becomes current with the looper's volume and mute |
| QueuePlayerLooperModel.QueuePlayerLooper.SetBufferPlayer | OpenCollab/Sources/VideoPlayback/QueuePlayerLooper.swift:174-178 | a new buffer player is scheduled from its start at the sync time |
| QueuePlayerLooperModel.QueuePlayerLooper.AttachBufferPlayer | OpenCollab/Sources/VideoPlayback/QueuePlayerLooper.swift:180-190 | the buffer player, if any, becomes current and the buffer slot empties |
| QueuePlayerLooperModel.QueuePlayerLooper.RemoveCurrentPlayer | OpenCollab/Sources/VideoPlayback/QueuePlayerLooper.swift:192-195 | the current player is cleared and its slot emptied |
| QueuePlayerLooperModel.QueuePlayerLooper.MuteStateChanged | OpenCollab/Sources/VideoPlayback/QueuePlayerLooper.swift:201-207 | mutes exactly when the app is muted or the looper mutes without headphones |
| QueuePlayerLooperModel.QueuePlayerLooper.HeadphoneStateChanged | OpenCollab/Sources/VideoPlayback/QueuePlayerLooper.swift:209-212 | only a looper that mutes without headphones changes, muted exactly when none are connected |
| QueuePlayerLooperModel.QueuePlayerLooper.BufferingStarted | OpenCollab/Sources/VideoPlayback/QueuePlayerLooper.swift:218-220 | buffering of either player is passed on to the delegate |
| QueuePlayerLooperModel.QueuePlayerLooper.BufferingStopped | OpenCollab/Sources/VideoPlayback/QueuePlayerLooper.swift:222-224 | the end of buffering is passed on to the delegate |
| QueuePlayerLooperModel.QueuePlayerLooper.PlayerPreheated | OpenCollab/Sources/VideoPlayback/QueuePlayerLooper.swift:226-245 | performs the preheat-report step |
| QueuePlayerLooperModel.QueuePlayerLooper.PlayerStartedPlaying | OpenCollab/Sources/VideoPlayback/QueuePlayerLooper.swift:247-250 | the host view, if any, gets the loading end time |
| QueuePlayerLooperModel.SlotsValid | OpenCollab/Sources/VideoPlayback/QueuePlayerLooper.swift:86-195 | the slots hold players this looper created and never the same one twice; StepsKeepSlotsValid proves every step keeps it |
| QueuePlayerLooperModel.NewPlayer | OpenCollab/Sources/VideoPlayback/QueuePlayerLooper.swift:149-159 | `createPlayer(syncClock:)`: the next numbered player, created with the looper's volume and mute |
| QueuePlayerLooperModel.PreheatStep | OpenCollab/Sources/VideoPlayback/QueuePlayerLooper.swift:86-90 | `preheat(syncClock:)`: a new current player is created and preheated; StepsKeepSlotsValid proves it keeps the slots valid |
| QueuePlayerLooperModel.AttachStep | OpenCollab/Sources/VideoPlayback/QueuePlayerLooper.swift:161-172 | `attachPlayer(player:)`: the player becomes current with the looper's volume and mute |
| QueuePlayerLooperModel.SetBufferStep | OpenCollab/Sources/VideoPlayback/QueuePlayerLooper.swift:174-178 | `setBufferPlayer(syncTime:syncClock:)`: a new buffer player scheduled from its start |
| QueuePlayerLooperModel.PlayStep | OpenCollab/Sources/VideoPlayback/QueuePlayerLooper.swift:92-114 | `play(itemTime:syncTime:syncClock:)`; PlayReusesCurrentAndQueuesBuffer proves it keeps an existing current player and queues a buffer player for the end of the remaining playback |
| QueuePlayerLooperModel.RemoveCurrentStep | OpenCollab/Sources/VideoPlayback/QueuePlayerLooper.swift:192-195 | `removeCurrentPlayer()`: the current player is cleared and dropped |
| QueuePlayerLooperModel.AttachBufferStep | OpenCollab/Sources/VideoPlayback/QueuePlayerLooper.swift:180-190 | `attachBufferPlayer()`: the buffer player, if any, becomes current and the buffer slot empties |
| QueuePlayerLooperModel.LoopStep | OpenCollab/Sources/VideoPlayback/QueuePlayerLooper.swift:116-137 | `loop(loopTime:loopDuration:syncClock:)`; LoopWithoutBufferIsNoop and LoopPromotesBuffer prove nothing happens without a buffer player and otherwise the buffer player is promoted and a new one queued |
| QueuePlayerLooperModel.ClearStep | OpenCollab/Sources/VideoPlayback/QueuePlayerLooper.swift:139-147 | `clear()`; ClearEmptiesSlots proves both slots empty and both players are cleared |
| QueuePlayerLooperModel.PlayerPreheatedStep | OpenCollab/Sources/VideoPlayback/QueuePlayerLooper.swift:226-245 | `playerPreheated(player:)`; PreheatedOnlyForCurrentPlayer proves only the current player's report, while preheating, makes the looper ready |
| QueuePlayerLooperModel.BufferingStartedStep | OpenCollab/Sources/VideoPlayback/QueuePlayerLooper.swift:217-219 | `bufferingStarted(player:)`: forwarded to the delegate for either player |
| QueuePlayerLooperModel.BufferingStoppedStep | OpenCollab/Sources/VideoPlayback/QueuePlayerLooper.swift:221-223 | `bufferingStopped(player:)`: forwarded to the delegate for either player |
| QueuePlayerLooperModel.PlayerStartedPlayingStep | OpenCollab/Sources/VideoPlayback/QueuePlayerLooper.swift:247-250 | `playerStartedPlaying(player:time:)`: the host view's loading end time is set when there is one |
| QueuePlayerLooperModel.SetMutedStep | OpenCollab/Sources/VideoPlayback/QueuePlayerLooper.swift:37-42 | the `isMuted` setter; VolumeAndMuteReachBothPlayers proves the mute reaches both players |
| QueuePlayerLooperModel.SetVolumeStep | OpenCollab/Sources/VideoPlayback/QueuePlayerLooper.swift:44-49 | the `volume` setter; VolumeAndMuteReachBothPlayers proves the volume reaches both players |
| QueuePlayerLooperModel.MuteStateChangedStep | OpenCollab/Sources/VideoPlayback/QueuePlayerLooper.swift:201-207 | `muteStateChanged()`; MuteRules proves it mutes exactly when the app is muted or the looper mutes without headphones |
| QueuePlayerLooperModel.HeadphoneStateChangedStep | OpenCollab/Sources/VideoPlayback/QueuePlayerLooper.swift:209-212 | `headphoneStateChanged()`; MuteRules proves only a looper that mutes without headphones follows them |
| QueuePlayerLooperModel.SetShouldMuteWithoutHeadphonesStep | OpenCollab/Sources/VideoPlayback/QueuePlayerLooper.swift:51-55 | the `shouldMuteWithoutHeadphones` setter, re-reading the headphones |
| CoordinatedLooperGroupModel.ReadyFlags | OpenCollab/Sources/VideoPlayback/CoordinatedLooperGroup.swift:60 | one flag per member, in order, each that member's readiness |
| CoordinatedLooperGroupModel.GroupReady | OpenCollab/Sources/VideoPlayback/CoordinatedLooperGroup.swift:59-61 | the group is ready exactly when every member is, so an empty group is ready |
| CoordinatedLooperGroupModel.CoordinatedLooperGroup.constructor | OpenCollab/Sources/VideoPlayback/CoordinatedLooperGroup.swift:20-27 | the group keeps its members and becomes the delegate of each, changing nothing else about them |
| CoordinatedLooperGroupModel.CoordinatedLooperGroup.SetDelegate | OpenCollab/Sources/VideoPlayback/CoordinatedLooperGroup.swift:16 | only the group's delegate changes |
| CoordinatedLooperGroupModel.CoordinatedLooperGroup.Preheat | OpenCollab/Sources/VideoPlayback/CoordinatedLooperGroup.swift:31-33 | every member performs its preheat step |
| CoordinatedLooperGroupModel.CoordinatedLooperGroup.Play | OpenCollab/Sources/VideoPlayback/CoordinatedLooperGroup.swift:35-41 | every member performs its play step with the same item and sync time |
| CoordinatedLooperGroupModel.CoordinatedLooperGroup.Loop | OpenCollab/Sources/VideoPlayback/CoordinatedLooperGroup.swift:43-49 | every member performs its loop step with the same loop time and duration |
| CoordinatedLooperGroupModel.CoordinatedLooperGroup.Clear | OpenCollab/Sources/VideoPlayback/CoordinatedLooperGroup.swift:51-57 | every member loses its delegate and is cleared, leaving no member with a player |
| CoordinatedLooperGroupModel.CoordinatedLooperGroup.IsBuffering | OpenCollab/Sources/VideoPlayback/CoordinatedLooperGroup.swift:67-69 | buffering of a member is passed on with the group as the looper |
| CoordinatedLooperGroupModel.CoordinatedLooperGroup.StoppedBuffering | OpenCollab/Sources/VideoPlayback/CoordinatedLooperGroup.swift:71-73 | the end of a member's buffering is passed on with the group as the looper |
| CoordinatedLooperGroupModel.CoordinatedLooperGroup.ReadyToLoop | OpenCollab/Sources/VideoPlayback/CoordinatedLooperGroup.swift:75-79 | readiness is passed on, with the group as the looper, exactly when every member is ready |
| RecordActionView.NextBeat | OpenCollab/Sources/ViewControllers/RecordActionViewController.swift:294-300 | the loop ends at the first beat, counting from the one after the start time, that is not before now: a beat at or after now, and no earlier such beat |
| RecordActionView.RecordActionViewController.constructor | OpenCollab/Sources/ViewControllers/RecordActionViewController.swift:37-49 | a new controller keeps the metronome setting, shows every button, enabled, and runs no animation (also lines 26-29) |
| RecordActionView.RecordActionViewController.ViewDidAppear | OpenCollab/Sources/ViewControllers/RecordActionViewController.swift:57-64 | a start request stored while off screen is forgotten and replayed as on screen: with its start time reached the overlay shows and pulses from the next beat of the stored start time, not in the past; with it still to come overlay and animation stay; without a stored request nothing changes (also lines 282-316) |
| RecordActionView.RecordActionViewController.ShowReplacementMessage | OpenCollab/Sources/ViewControllers/RecordActionViewController.swift:75-77 | the replacement message shows |
| RecordActionView.RecordActionViewController.HideReplacementMessage | OpenCollab/Sources/ViewControllers/RecordActionViewController.swift:79-81 | the replacement message is hidden |
| RecordActionView.RecordActionViewController.ShowRecordButton | OpenCollab/Sources/ViewControllers/RecordActionViewController.swift:83-93 | the record button shows |
| RecordActionView.RecordActionViewController.HideRecordButton | OpenCollab/Sources/ViewControllers/RecordActionViewController.swift:95-106 | the record button is hidden |
| RecordActionView.RecordActionViewController.ShowMetronomeButton | OpenCollab/Sources/ViewControllers/RecordActionViewController.swift:108-119 | the metronome button shows when the metronome is enabled, and nothing changes otherwise |
| RecordActionView.RecordActionViewController.HideMetronomeButton | OpenCollab/Sources/ViewControllers/RecordActionViewController.swift:121-137 | when the metronome is enabled, its button and the BPM editor are hidden; otherwise nothing changes |
| RecordActionView.RecordActionViewController.ShowFlipCameraButton | OpenCollab/Sources/ViewControllers/RecordActionViewController.swift:139-149 | the flip-camera button shows |
| RecordActionView.RecordActionViewController.HideFlipCameraButton | OpenCollab/Sources/ViewControllers/RecordActionViewController.swift:151-162 | the flip-camera button is hidden |
| RecordActionView.RecordActionViewController.ShowNextButton | OpenCollab/Sources/ViewControllers/RecordActionViewController.swift:164-177 | the next button shows and the capture buttons are hidden |
| RecordActionView.RecordActionViewController.HideNextButton | OpenCollab/Sources/ViewControllers/RecordActionViewController.swift:179-190 | the next button is hidden |
| RecordActionView.RecordActionViewController.ShowCaptureButtons | OpenCollab/Sources/ViewControllers/RecordActionViewController.swift:192-199 | the record and flip buttons show, the metronome button when enabled, and the camera-roll button when uploading from the camera roll is enabled |
| RecordActionView.RecordActionViewController.HideUI | OpenCollab/Sources/ViewControllers/RecordActionViewController.swift:201-204 | every button and the replacement message are hidden |
| RecordActionView.RecordActionViewController.HideCaptureButtons | OpenCollab/Sources/ViewControllers/RecordActionViewController.swift:206-210 | the record and flip buttons are hidden, and the metronome button and editor when the metronome is enabled |
| RecordActionView.RecordActionViewController.HideAllButtons | OpenCollab/Sources/ViewControllers/RecordActionViewController.swift:212-219 | every button and the BPM editor are hidden, whatever the metronome setting |
| RecordActionView.RecordActionViewController.DisableAllButtons | OpenCollab/Sources/ViewControllers/RecordActionViewController.swift:221-228 | the buttons stop taking touches |
| RecordActionView.RecordActionViewController.EnableAllButtons | OpenCollab/Sources/ViewControllers/RecordActionViewController.swift:230-237 | the buttons take touches again |
| RecordActionView.RecordActionViewController.UpdateRecordButtons | OpenCollab/Sources/ViewControllers/RecordActionViewController.swift:271-275 | the flip button is hidden exactly when not idle; the camera-roll button exactly while recording or waiting to record, or when the metronome is disabled |
| RecordActionView.RecordActionViewController.ToggleEditMetronome | OpenCollab/Sources/ViewControllers/RecordActionViewController.swift:277-280 | the BPM editor follows the request only while the metronome button shows |
| RecordActionView.PulsesFromNextBeat | OpenCollab/Sources/ViewControllers/RecordActionViewController.swift:293-314 | the animation's period is one beat and its first pulse, after a non-negative delay, falls on the first beat after the start time that is not earlier than now; StartMetronomeAnimation and ViewDidAppear ensure it |
| RecordActionView.RecordActionViewController.StartMetronomeAnimation | OpenCollab/Sources/ViewControllers/RecordActionViewController.swift:282-316 | off screen the request is stored and nothing else changes; on screen a start time still to come is refused; otherwise the overlay shows and pulses once a beat, its first pulse after a non-negative delay on the first beat after the start time that is not earlier than now |
| RecordActionView.RecordActionViewController.StopMetronomeAnimation | OpenCollab/Sources/ViewControllers/RecordActionViewController.swift:318-323 | the overlay and its animation go and any stored request is forgotten |
| RecordActionView.Beat | OpenCollab/Sources/ViewControllers/RecordActionViewController.swift:295-299 | beat `k` after the start time, the start plus `k` beat lengths; NextBeat ensures its result is the first such beat, from the first after the start, not before the current time |
| ClickTrackComposerModel.PlacedFromClicks | OpenCollab/Sources/Util/ClickTrackComposer.swift:40-70 | each placed click starts a whole number of beats on, is accented exactly when its beat is the accent beat of the bar, and starts and ends within the duration |
| ClickTrackComposerModel.PlacedFromStopsAtFirstMisfit | OpenCollab/Sources/Util/ClickTrackComposer.swift:44-55 | placing stops only when the next beat has reached the duration or its click would end past it |
| ClickTrackComposerModel.PlacedClick | OpenCollab/Sources/Util/ClickTrackComposer.swift:40-70 | click `i` of the track is beat `i + 1`, starts `i` beats in, and fits in the duration |
| ClickTrackComposerModel.NeverAccentedOutOfRange | OpenCollab/Sources/Util/ClickTrackComposer.swift:41 | beats count from 1, so an accent beat outside the range of remainders never sounds (also line 46) |
| ClickTrackComposerModel.AccentRepeatsEveryBar | OpenCollab/Sources/Util/ClickTrackComposer.swift:46 | with a positive bar length the accents repeat every bar |
| ClickTrackComposerModel.ComposeClickTrackFor | OpenCollab/Sources/Util/ClickTrackComposer.swift:9-73 | none when a click sound or the audio track is missing, or when an insertion throws; otherwise exactly the placed clicks |
| ClickTrackComposerModel.IsAccent | OpenCollab/Sources/Util/ClickTrackComposer.swift:46 | a beat is accented when its truncating remainder by the bar length is the accent beat; NeverAccentedOutOfRange and AccentRepeatsEveryBar state its consequences |
| ClickTrackComposerModel.ClickLength | OpenCollab/Sources/Util/ClickTrackComposer.swift:46-50 | the accent sound's duration on an accented beat, the standard one otherwise |
| ClickTrackComposerModel.PlacedFrom | OpenCollab/Sources/Util/ClickTrackComposer.swift:44-55 | the loop's clicks from a beat and time on; PlacedFromClicks and PlacedFromStopsAtFirstMisfit prove where each falls and where placing stops |
| ClickTrackComposerModel.Placed | OpenCollab/Sources/Util/ClickTrackComposer.swift:40-70 | the whole track, beat 1 at time zero; PlacedClick proves click `i` is beat `i + 1` placed `i` beats in |
| MetronomeEdit.ClickMovesByOne | OpenCollab/Sources/ViewControllers/MetronomeEditViewController.swift:154-170 | a click moves the tempo by exactly one, with no limit check of its own, and the label shows the new tempo (also lines 29-36) |
| MetronomeEdit.ClickEnablesByLimits | OpenCollab/Sources/ViewControllers/MetronomeEditViewController.swift:147-150 | after every click, minus is enabled exactly when the tempo is above 40 and plus exactly when it is below 220 (also lines 25-26) |
| MetronomeEdit.ClickInvalidatesTimerAtLimit | OpenCollab/Sources/ViewControllers/MetronomeEditViewController.swift:154-170 | the repeat timer survives a click exactly when it was running and the clicked button is still enabled |
| MetronomeEdit.ClickReportsOnlyWithoutTimer | OpenCollab/Sources/ViewControllers/MetronomeEditViewController.swift:154-170 | a click reports the new tempo to the delegate exactly when no valid timer exists (also lines 29-33) |
| MetronomeEdit.LongPressBeginPauses | OpenCollab/Sources/ViewControllers/MetronomeEditViewController.swift:184-191 | beginning a long press starts the timer, keeps the tempo and tells the delegate to pause the click track |
| MetronomeEdit.LongPressEndReportsFinal | OpenCollab/Sources/ViewControllers/MetronomeEditViewController.swift:192-197 | ending a long press stops the timer, clears the highlight and reports the tempo it ended on |
| MetronomeEdit.RepeatWhileTimerIsSilent | OpenCollab/Sources/ViewControllers/MetronomeEditViewController.swift:29-33 | clicks driven by a timer that is still valid report nothing to the delegate (also line 187) |
| MetronomeEdit.LongPressReportsOnce | OpenCollab/Sources/ViewControllers/MetronomeEditViewController.swift:182-200 | a whole long press, one whose timer fired only while valid and so also one whose last click reached a limit, tells the delegate to pause and then reports the final tempo exactly once |
| MetronomeEdit.RepeatKeepsDelegate | OpenCollab/Sources/ViewControllers/MetronomeEditViewController.swift:39 | timer-driven clicks never change the delegate |
| MetronomeEdit.MetronomeEditViewController.constructor | OpenCollab/Sources/ViewControllers/MetronomeEditViewController.swift:41-44 | the tempo is the given one, nothing is reported, no timer runs |
| MetronomeEdit.MetronomeEditViewController.SetDelegate | OpenCollab/Sources/ViewControllers/MetronomeEditViewController.swift:39 | only the delegate changes |
| MetronomeEdit.MetronomeEditViewController.SetBPM | OpenCollab/Sources/ViewControllers/MetronomeEditViewController.swift:29-36 | performs the observer step on the state |
| MetronomeEdit.MetronomeEditViewController.UpdateHasNext | OpenCollab/Sources/ViewControllers/MetronomeEditViewController.swift:147-150 | performs the enable step on the state |
| MetronomeEdit.MetronomeEditViewController.DidClickMinusButton | OpenCollab/Sources/ViewControllers/MetronomeEditViewController.swift:154-161 | performs the minus-click step on the state |
| MetronomeEdit.MetronomeEditViewController.DidClickPlusButton | OpenCollab/Sources/ViewControllers/MetronomeEditViewController.swift:163-170 | performs the plus-click step on the state |
| MetronomeEdit.MetronomeEditViewController.DidLongPressMinusButton | OpenCollab/Sources/ViewControllers/MetronomeEditViewController.swift:177-180 | performs the long-press step for the minus button |
| MetronomeEdit.MetronomeEditViewController.DidLongPressPlusButton | OpenCollab/Sources/ViewControllers/MetronomeEditViewController.swift:172-175 | performs the long-press step for the plus button |
| MetronomeEdit.MetronomeEditViewController.DidLongPressButton | OpenCollab/Sources/ViewControllers/MetronomeEditViewController.swift:182-200 | performs the long-press step for the gesture phase, ignoring other phases |
| MetronomeEdit.SetBPMStep | OpenCollab/Sources/ViewControllers/MetronomeEditViewController.swift:29-36 | `BPM`'s `didSet`: reported unless a long-press timer runs, and shown; ClickReportsOnlyWithoutTimer and RepeatWhileTimerIsSilent prove when it reports |
| MetronomeEdit.UpdateHasNextStep | OpenCollab/Sources/ViewControllers/MetronomeEditViewController.swift:147-150 | `updateHasNext()`; ClickEnablesByLimits proves the buttons are enabled exactly as the limits allow |
| MetronomeEdit.ClickMinusStep | OpenCollab/Sources/ViewControllers/MetronomeEditViewController.swift:154-161 | `didClickMinusButton(_:)`; ClickMovesByOne and ClickInvalidatesTimerAtLimit prove it lowers the tempo by one and stops the timer at the limit |
| MetronomeEdit.ClickPlusStep | OpenCollab/Sources/ViewControllers/MetronomeEditViewController.swift:163-170 | `didClickPlusButton(_:)`; ClickMovesByOne and ClickInvalidatesTimerAtLimit prove it raises the tempo by one and stops the timer at the limit |
| MetronomeEdit.Repeat | OpenCollab/Sources/ViewControllers/MetronomeEditViewController.swift:29-33 | the repeated clicks of a long-press timer; RepeatWhileTimerIsSilent and RepeatKeepsDelegate prove they report nothing and keep the delegate |
| MetronomeEdit.LongPressStep | OpenCollab/Sources/ViewControllers/MetronomeEditViewController.swift:182-200 | `didLongPressButton(gesture:button:selector:)`; LongPressBeginPauses, LongPressEndReportsFinal and LongPressReportsOnce prove a press pauses the click track once and reports the final tempo once |
| MetronomeEdit.EnabledMatchesLimits | OpenCollab/Sources/ViewControllers/MetronomeEditViewController.swift:147-150 | the buttons are enabled exactly as the limits allow: the state ClickEnablesByLimits proves every click leaves |
| MetronomeEdit.ClickStep | OpenCollab/Sources/ViewControllers/MetronomeEditViewController.swift:152-170 | a click on either step button, the minus or the plus handler; ClickEnablesByLimits, ClickInvalidatesTimerAtLimit and ClickReportsOnlyWithoutTimer state it for both |
| MetronomeEdit.Highlight | OpenCollab/Sources/ViewControllers/MetronomeEditViewController.swift:186-195 | the pressed button's highlight set or cleared, the other left alone; LongPressStep uses it |
| MetronomeEdit.TimerNeedsEnabled | OpenCollab/Sources/ViewControllers/MetronomeEditViewController.swift:154-170 | a repeat timer exists only while the button it clicks is enabled; ClickInvalidatesTimerAtLimit proves every click keeps it |
| MulticlipTypeModel.TypeForClipCount | OpenCollab/Sources/RemixSupport/MulticlipType.swift:44-47 | defined for one to six clips (the array index traps elsewhere), and the layout chosen is the one for exactly that many clips |
| MulticlipTypeModel.TypeForClipCountRoundTrip | OpenCollab/Sources/RemixSupport/MulticlipType.swift:5-13 | every layout is for one to six clips and is the one chosen for its own count (also lines 44-47) |
| MulticlipTypeModel.LastRowIsTheLastClips | OpenCollab/Sources/RemixSupport/MulticlipType.swift:14-29 | the bottom row is the last clip for one to three clips and the last two for four to six, each a valid clip index |
| MulticlipTypeModel.BottomPaddingByColumns | OpenCollab/Sources/RemixSupport/MulticlipType.swift:31-42 | single-column layouts pad one 8-point margin per clip below, two-column ones none |
| MulticlipTypeModel.ClipCount | OpenCollab/Sources/RemixSupport/MulticlipType.swift:5-13 | the number of clips a layout is for, one to six; TypeForClipCountRoundTrip proves `typeForClipCount` maps it back to the layout |
| MulticlipTypeModel.LastRowIndices | OpenCollab/Sources/RemixSupport/MulticlipType.swift:14-29 | `lastRowIndices`; LastRowIsTheLastClips proves the bottom row holds the last clip or clips of the layout |
| MulticlipTypeModel.RemixBottomPadding | OpenCollab/Sources/RemixSupport/MulticlipType.swift:31-42 | `remixBottomPadding`; BottomPaddingByColumns proves single-column layouts pad one margin per clip and the others none |
| RemixView.RecordFlowReachesDone | OpenCollab/Sources/ViewControllers/RemixViewController.swift:699-749 | the record flow prompts for headphones exactly from its start with none connected, always moves to the prompt or done, and is done within two steps |
| RemixView.CreationStateCycles | OpenCollab/Sources/ViewControllers/RemixViewController.swift:845-856 | the creation state never returns to none, alternates remix and record after the first step, and entering record clears invalidSingleClip |
| RemixView.TakeCells | OpenCollab/Sources/ViewControllers/RemixViewController.swift:1126-1131 | one cell per take, numbered from 1, editable except the first take of a from-scratch creation |
| RemixView.PoolCells | OpenCollab/Sources/ViewControllers/RemixViewController.swift:1132-1135 | one non-editable, unnumbered cell per pool fragment, in order |
| RemixView.RowLayout | OpenCollab/Sources/ViewControllers/RemixViewController.swift:1118-1140 | a row is the placeholder, then the takes newest first with their numbers, then the pool; without a record fragment it is empty |
| RemixView.InitialRanksAligned | OpenCollab/Sources/ViewControllers/RemixViewController.swift:263-288 | the initial matrix, selection and slideshows are aligned one per rank, no rank is selected, and every row has the placeholder slot (also lines 1032-1053, 1142-1156) |
| RemixView.InitialRowStartsWithPlaceholder | OpenCollab/Sources/ViewControllers/RemixViewController.swift:1036-1046 | every initial row starts with the record placeholder (also lines 1121-1124) |
| RemixView.NewTakeCells | OpenCollab/Sources/ViewControllers/RemixViewController.swift:1067-1074 | the new takes become editable cells numbered on from the given start |
| RemixView.ReversedAppend | OpenCollab/Sources/ViewControllers/RemixViewController.swift:1136 | reversing a concatenation reverses and swaps its parts |
| RemixView.NewTakesContinueRow | OpenCollab/Sources/ViewControllers/RemixViewController.swift:1118-1140 | inserting new takes into a row built from the earlier takes gives the row built from all of them, except for the very first take of a from-scratch creation (also lines 1066-1081) |
| RemixView.PlaceholderDisablesPreview | OpenCollab/Sources/ViewControllers/RemixViewController.swift:1712-1721 | while a rank shows the record placeholder, Preview stays off (also lines 1681-1686) |
| RemixView.ButtonRules | OpenCollab/Sources/ViewControllers/RemixViewController.swift:120-146 | Add is off exactly when six rows exist or interactions are locked; Delete is hidden exactly with one rank or when locked; Preview is off exactly when locked or a placeholder is selected (also lines 94-100, 1681-1704) |
| RemixView.SelectKeepsRanks | OpenCollab/Sources/ViewControllers/RemixViewController.swift:67-88 | selecting another slideshow keeps matrix and slideshows; only the clip of the rank it leaves may change, to the random clip when that rank showed the placeholder; afterwards the record preview is up exactly when the new rank shows the placeholder, and the record state is kept or reset to none (also lines 1596-1602) |
| RemixView.AddIsRefusedWhenFull | OpenCollab/Sources/ViewControllers/RemixViewController.swift:653-657 | with six clips selected, Add changes nothing |
| RemixView.AddAppendsToAllThree | OpenCollab/Sources/ViewControllers/RemixViewController.swift:1083-1098 | adding a rank appends the record placeholder, a freshly built row and a new slideshow together, keeps the arrays aligned and selects the new last rank |
| RemixView.AddSetsUpRecordPreview | OpenCollab/Sources/ViewControllers/RemixViewController.swift:1083-1098 | after adding a rank the record preview is up exactly when the record fragment is the placeholder, since the new selected rank shows it; the record state is kept or reset to none (also lines 498-502, 1591-1602) |
| RemixView.MoveSelectionOffKeepsRanks | OpenCollab/Sources/ViewControllers/RemixViewController.swift:1103-1107 | moving the selection off the rank about to be deleted changes no array shape and at most the clip of the rank it leaves |
| RemixView.DeleteRemovesFromAllThree | OpenCollab/Sources/ViewControllers/RemixViewController.swift:1100-1116 | deleting a rank removes exactly that entry from all three arrays, keeps them aligned and keeps the other clips |
| RemixView.RemoveRankRemoves | OpenCollab/Sources/ViewControllers/RemixViewController.swift:1109-1115 | the removals drop entry `rank` from every array, leave the selection where it was and run no report, so the record preview flag and the record state stay |
| RemixView.DeleteMovesSelection | OpenCollab/Sources/ViewControllers/RemixViewController.swift:1100-1107 | deleting the selected rank selects rank 0, or the new last rank when rank 0 went, or none when it was the only one; otherwise the same slideshow stays selected at its new index |
| RemixView.DeleteSyncsPreview | OpenCollab/Sources/ViewControllers/RemixViewController.swift:1100-1116 | deleting the selected rank leaves the record preview up exactly when the newly selected rank shows the placeholder; deleting another rank changes neither the preview flag nor the record state, because its assignment runs with notifications off |
| RemixView.FragmentControllerAt | OpenCollab/Sources/ViewControllers/RemixViewController.swift:584-595 | a controller exactly when rank and index are inside the matrix, and then the one stored there |
| RemixView.WithRecordPlaceholder | OpenCollab/Sources/ViewControllers/RemixViewController.swift:268-272 | the placeholder is appended below six clips and replaces the last clip otherwise; the clips before it are kept and there are never more than six |
| RemixView.RecordPlaceholder | OpenCollab/Sources/ViewControllers/RemixViewController.swift:264-265 | an empty clip over the whole collab duration, flagged as the placeholder |
| RemixView.RemixViewController.constructor | OpenCollab/Sources/ViewControllers/RemixViewController.swift:263-288 | the model gets the placeholder, one initial row per selected clip, aligned slideshows, and no rank selected |
| RemixView.RemixViewController.SetupUI | OpenCollab/Sources/ViewControllers/RemixViewController.swift:422-436 | steps the creation state and changes no rank |
| RemixView.RemixViewController.NextCreationStateStep | OpenCollab/Sources/ViewControllers/RemixViewController.swift:845-856 | performs the creation-state step |
| RemixView.RemixViewController.DidTapBack | OpenCollab/Sources/ViewControllers/RemixViewController.swift:858-861 | resets the creation state to none and changes no rank |
| RemixView.RemixViewController.Next | OpenCollab/Sources/ViewControllers/RemixViewController.swift:699-720 | performs the record-flow step for the headphone answer |
| RemixView.RemixViewController.SetupRecord | OpenCollab/Sources/ViewControllers/RemixViewController.swift:498-502 | does nothing while a record preview is active; otherwise activates it and restarts the record flow at none; no rank changes (the ranks are SetupRecordStep of the ranks before) |
| RemixView.RemixViewController.RemoveCaptureView | OpenCollab/Sources/ViewControllers/RemixViewController.swift:527-531 | with a selected rank the record preview is down afterwards; with none the flag is kept; the record state and every rank stay |
| RemixView.RemixViewController.SelectedFragmentsChanged | OpenCollab/Sources/ViewControllers/RemixViewController.swift:1595-1602 | the ranks after the delegate call are SelectionChangedStep of the ranks before, so the record preview follows the selected rank afterwards |
| RemixView.RemixViewController.AssignSelectedFragments | OpenCollab/Sources/Models/PlaybackDataModel.swift:27-33 | an assignment to the model's `selectedFragments` from the controller: the ranks afterwards are AssignSelected of the ranks before, the delegate call included while `canNotify` is set |
| RemixView.RemixViewController.SetInteractionsAreLocked | OpenCollab/Sources/ViewControllers/RemixViewController.swift:120-146 | refreshes Add, Preview and Delete for the lock and enables Close exactly when unlocked |
| RemixView.RemixViewController.SetSelectedSlideshow | OpenCollab/Sources/ViewControllers/RemixViewController.swift:67-88 | the ranks after the assignment, the preview flag and the record state included, are SelectSlideshow of the ranks before; it writes only the selected slideshow, the buttons, the two record flags and the model's selected clips and notifications, so the creation state stays |
| RemixView.RemixViewController.DidSelectAddButton | OpenCollab/Sources/ViewControllers/RemixViewController.swift:653-657 | the ranks afterwards, the record flags included, are DidSelectAdd of the ranks before; the creation state stays |
| RemixView.RemixViewController.AddNewRankToCollab | OpenCollab/Sources/ViewControllers/RemixViewController.swift:1083-1098 | the ranks afterwards, the record flags included, are AddNewRank of the ranks before, so the new rank's selection runs the delegate's record set-up; the creation state stays |
| RemixView.RemixViewController.AppendRecordRank | OpenCollab/Sources/ViewControllers/RemixViewController.swift:1086-1094 | with notifications off, the record placeholder is appended to the selection with notifications back on, its fragment row to the matrix and a new slideshow to the slideshows; the ranks afterwards are AppendRank of the ranks before |
| RemixView.RemixViewController.SetSelectedSlideshowUnchecked | OpenCollab/Sources/ViewControllers/RemixViewController.swift:67-88 | the ranks after the assignment, the record flags included, are SelectSlideshow of the ranks before, while rows may still differ in shape |
| RemixView.RemixViewController.DeleteRankFromCollab | OpenCollab/Sources/ViewControllers/RemixViewController.swift:1100-1116 | the ranks after the call, the record flags included, are DeleteRank of the ranks before; it writes only the matrix, the slideshows, the selection, the buttons, the two record flags and the model's selected clips, notification flag and notifications |
| RemixView.RemixViewController.RemoveRankFromArrays | OpenCollab/Sources/ViewControllers/RemixViewController.swift:1109-1115 | the ranks afterwards are RemoveRank of the ranks before |
| RemixView.RemixViewController.UpdateTakeFragmentsInMatrix | OpenCollab/Sources/ViewControllers/RemixViewController.swift:1066-1081 | every row gets the new takes after the placeholder, numbered on from the takes already counted; nothing else changes |
| RemixView.RemixViewController.UpdatePoolFragmentsInMatrix | OpenCollab/Sources/ViewControllers/RemixViewController.swift:1055-1064 | every row gets the added fragments at its end; nothing else changes |
| RemixView.RemixViewController.InsertNewRecordedClips | OpenCollab/Sources/ViewControllers/RemixViewController.swift:879-891 | the takes are added to the model and to every row, and the last one becomes the selected rank's clip; that assignment is reported while `canNotify` is set, so Preview is then computed from the new selection and the record preview is up exactly when the new clip is the placeholder; otherwise Preview keeps the value from before and the flags stay; without a selected rank only the model changes; the record state changes only to none with the preview up; every rank stays aligned (also lines 1591-1602) |
| RemixView.InsertedTakeExtends | OpenCollab/Sources/ViewControllers/RemixViewController.swift:1069-1076 | one more take inserted at index 1 goes before the takes inserted so far |
| RemixView.InsertTakes | OpenCollab/Sources/ViewControllers/RemixViewController.swift:1069-1079 | the row with the new takes after the placeholder, last one first |
| RemixView.AppendPool | OpenCollab/Sources/ViewControllers/RemixViewController.swift:1057-1062 | the row followed by one pool cell per added fragment |
| RemixView.BuildInitialFragmentMatrix | OpenCollab/Sources/ViewControllers/RemixViewController.swift:1032-1049 | one row per selected clip, an empty clip that is not the placeholder appended to its own row |
| RemixView.BuildSlideshows | OpenCollab/Sources/ViewControllers/RemixViewController.swift:1142-1156 | one distinct slideshow per row |
| RemixView.TakeCellsAppend | OpenCollab/Sources/ViewControllers/RemixViewController.swift:1118-1140 | the take cells of the earlier takes followed by new ones are those of the earlier takes, then the new takes numbered on from the earlier count and all editable (also lines 1066-1081) |
| RemixView.CalculateNextState | OpenCollab/Sources/ViewControllers/RemixViewController.swift:734-749 | `calculateNextState(currentState:)`: from the start the flow goes to done with headphones and to the headphone prompt without; every other state goes to done; RecordFlowReachesDone proves the prompt is reached only from the start without headphones and done within two steps |
| RemixView.NextCreationState | OpenCollab/Sources/ViewControllers/RemixViewController.swift:845-856 | `nextCreationState()`: none and record go to remix, remix goes to record and clears `invalidSingleClip`; CreationStateCycles proves none is never re-entered and remix and record alternate |
| RemixView.BuildFragmentMatrixRow | OpenCollab/Sources/ViewControllers/RemixViewController.swift:1118-1140 | `buildFragmentMatrixRow()`: empty without a record fragment, otherwise the placeholder, the takes newest first, then the pool; RowLayout states every cell's position, number and editability |
| RemixView.PlaceholderCell | OpenCollab/Sources/ViewControllers/RemixViewController.swift:1121-1123 | the record placeholder's cell: the record fragment, not editable, no take number, flagged as the placeholder; RowLayout and InitialRowStartsWithPlaceholder state it at slot 0 |
| RemixView.PoolCell | OpenCollab/Sources/ViewControllers/RemixViewController.swift:1132-1135 | a pool clip's cell: a copy of the clip, not editable, no take number, not the placeholder; PoolCells and RowLayout state it |
| RemixView.InitialRow | OpenCollab/Sources/ViewControllers/RemixViewController.swift:1036-1045 | the row `buildInitialFragmentMatrix` gives a selected clip: the built row, plus the clip itself at the end when it is an empty clip that is not the placeholder; InitialRowStartsWithPlaceholder and BuildInitialFragmentMatrix state it |
| RemixView.WithNewTakes | OpenCollab/Sources/ViewControllers/RemixViewController.swift:1066-1081 | the row after `updateTakeFragmentsInMatrix` inserts each new take at index 1 in turn: the placeholder, the new takes last first, then the old row; InsertTakes ensures it and NewTakesContinueRow proves it equals the rebuilt row |
| RemixView.Aligned | OpenCollab/Sources/ViewControllers/RemixViewController.swift:1083-1116 | the invariant the rank operations keep: the three per-rank arrays have one entry each per rank, the slideshows are distinct, and every slideshow and the selected one lie below the next fresh one; SelectKeepsRanks, AddAppendsToAllThree, DeleteRemovesFromAllThree and the class's Valid keep it |
| RemixView.Parallel | OpenCollab/Sources/ViewControllers/RemixViewController.swift:1083-1116 | one entry per rank in the selected clips, the matrix and the slideshows; Aligned includes it |
| RemixView.SelectedRank | OpenCollab/Sources/ViewControllers/RemixViewController.swift:90-92 | `selectedRank`: the first rank whose slideshow is the selected one, none when it is in no rank; DeleteMovesSelection and AddAppendsToAllThree state where it moves |
| RemixView.HasRecordPlaceholder | OpenCollab/Sources/ViewControllers/RemixViewController.swift:1712-1721 | some selected clip is the record placeholder, which `previewButtonVisibility()` forbids; PlaceholderDisablesPreview and ButtonRules are stated with it |
| RemixView.AddButtonEnabled | OpenCollab/Sources/ViewControllers/RemixViewController.swift:1688-1694 | Add is on exactly when fewer than six ranks exist and the caller enables it; ButtonRules states it both ways |
| RemixView.DeleteButtonsVisible | OpenCollab/Sources/ViewControllers/RemixViewController.swift:1696-1704 | the delete controls show exactly when at least two clips are selected and the caller enables them; ButtonRules states it both ways |
| RemixView.PreviewButtonEnabled | OpenCollab/Sources/ViewControllers/RemixViewController.swift:1681-1686 | Preview is on exactly when no selected clip is the placeholder and the caller enables it; ButtonRules and PlaceholderDisablesPreview state it |
| RemixView.RefreshButtons | OpenCollab/Sources/ViewControllers/RemixViewController.swift:94-100 | the three toggles the matrix observer and the lock observer run, with the same enabled flag; ButtonRules states every button's rule (also lines 134-141) |
| RemixView.AssignSelected | OpenCollab/Sources/Models/PlaybackDataModel.swift:27-33 | an assignment to `selectedFragments`, which reports the change only while `canNotify` is set, and then runs the delegate's SelectionChangedStep; its ensures state that no array shape and no selection changes; AddAppendsToAllThree and DeleteRemovesFromAllThree state the resulting clips |
| RemixView.SelectionChangedStep | OpenCollab/Sources/ViewControllers/RemixViewController.swift:1595-1602 | `selectedFragmentsChanged()`: Preview is refreshed from the selection, then a selected rank showing the placeholder sets the record preview up and any other selected rank takes it down; its ensures state that nothing else changes, and SelectionChangedSyncsPreview states the result |
| RemixView.SetupRecordStep | OpenCollab/Sources/ViewControllers/RemixViewController.swift:498-502 | `setupRecord(rank:)` on the flags: nothing while the preview is up, otherwise the preview goes up and the record flow restarts at none; SelectionChangedSyncsPreview states it |
| RemixView.RemoveCaptureViewStep | OpenCollab/Sources/ViewControllers/RemixViewController.swift:527-531 | `removeCaptureView()` on the flag: the preview goes down; SelectionChangedSyncsPreview states it |
| RemixView.PreviewFollowsSelection | OpenCollab/Sources/ViewControllers/RemixViewController.swift:1595-1602 | the record preview is up exactly while the selected rank shows the placeholder; SelectionChangedSyncsPreview, SelectKeepsRanks and DeleteSyncsPreview establish it |
| RemixView.SelectionChangedSyncsPreview | OpenCollab/Sources/ViewControllers/RemixViewController.swift:1595-1602 | after the delegate call the preview follows the selection; with no selected rank both flags stay; the record state changes only to none and only when the preview comes up; only Preview and the two flags change (also lines 498-502, 527-531) |
| RemixView.SelectSlideshow | OpenCollab/Sources/ViewControllers/RemixViewController.swift:67-88 | an assignment to `selectedSlideshow`: nothing for the same slideshow; otherwise LeaveRank, then the delegate call for the new rank; SelectKeepsRanks states it |
| RemixView.LeaveRank | OpenCollab/Sources/ViewControllers/RemixViewController.swift:68-79 | the `willSet`: a placeholder in the rank being left gives way to the random clip when there is one, in a reported assignment; no other clip and no array shape changes, and the record state is kept or reset to none |
| RemixView.AddNewRank | OpenCollab/Sources/ViewControllers/RemixViewController.swift:1083-1098 | `addNewRankToCollab()`: with notifications off and no record fragment nothing else happens; otherwise AppendRank and then the new rank is selected; AddAppendsToAllThree and AddSetsUpRecordPreview state it |
| RemixView.AppendRank | OpenCollab/Sources/ViewControllers/RemixViewController.swift:1085-1094 | the appends of `addNewRankToCollab()`: the record fragment to the selection without a report, then a new row and a new slideshow; its ensures state the new arrays and that the selection and record flags stay |
| RemixView.DidSelectAdd | OpenCollab/Sources/ViewControllers/RemixViewController.swift:653-657 | `didSelectAddButton(_:)`: refused from six selected clips on, otherwise a new rank; AddIsRefusedWhenFull and AddAppendsToAllThree state both sides |
| RemixView.DeleteRank | OpenCollab/Sources/ViewControllers/RemixViewController.swift:1100-1116 | `deleteRankFromCollab(rank:)`: nothing without a selected rank; otherwise the selection leaves the rank if needed and the rank's entry goes from all three arrays; DeleteRemovesFromAllThree and DeleteMovesSelection state it |
| RemixView.MoveSelectionOff | OpenCollab/Sources/ViewControllers/RemixViewController.swift:1103-1107 | leaving the rank about to be deleted: rank 0 is selected, or the last rank when rank 0 is the one deleted; MoveSelectionOffKeepsRanks and DeleteMovesSelection state it |
| RemixView.RemoveRank | OpenCollab/Sources/ViewControllers/RemixViewController.swift:1109-1115 | the removals of `deleteRankFromCollab(rank:)`: the entry at the rank goes from the selected clips, the matrix and the slideshows, and the buttons are refreshed; RemoveRankRemoves states it |
| Slideshow.CurrentIndex | OpenCollab/Sources/RemixSupport/SlideshowViewController.swift:83-86 | the rounded position clamped to the slides: inside them the rounded value, past the end the last slide, and 0 with no slides |
| Slideshow.CurrentIsNearest | OpenCollab/Sources/RemixSupport/SlideshowViewController.swift:313-323 | within the slides the current index is the slide nearest the scroll position (also lines 83-86) |
| Slideshow.ScrollToIndexGuard | OpenCollab/Sources/RemixSupport/SlideshowViewController.swift:88-92 | scrolling to the current index changes nothing; to another one records it as `setIndex`; slides and delegate calls are untouched |
| Slideshow.ScrollToIndexShowsIt | OpenCollab/Sources/RemixSupport/SlideshowViewController.swift:88-104 | after layout, with no inset or header padding, scrolling to an index brings exactly that slide into view (also lines 228-237) |
| Slideshow.AppendSlidesPlaces | OpenCollab/Sources/RemixSupport/SlideshowViewController.swift:106-128 | left slides go in front, right slides at the end after left ones or else at the current index, and `setIndex` becomes the number of left slides or 0, which selects the slide that was first before unless right slides were put in front of it |
| Slideshow.InsertSlidePlaces | OpenCollab/Sources/RemixSupport/SlideshowViewController.swift:130-137 | the new slide is at `index` and the others keep their order around it |
| Slideshow.RemoveUndoesInsert | OpenCollab/Sources/RemixSupport/SlideshowViewController.swift:130-131 | removing a slide just inserted at the same index gives back the slides there were (also lines 168-169) |
| Slideshow.AppendSlidePlaces | OpenCollab/Sources/RemixSupport/SlideshowViewController.swift:139-146 | appending puts the slide last and keeps the others |
| Slideshow.ReplaceSlideOnlyInRange | OpenCollab/Sources/RemixSupport/SlideshowViewController.swift:148-156 | in range exactly slide `index` is replaced; out of range nothing changes |
| Slideshow.RemoveSlideDropsOne | OpenCollab/Sources/RemixSupport/SlideshowViewController.swift:158-174 | removeSlides empties the slideshow; removeSlide drops exactly slide `index` |
| Slideshow.NotifyEventsAt | OpenCollab/Sources/RemixSupport/SlideshowViewController.swift:242-264 | slide `i` gets its progress and then a detach below 2 % visibility or an attach otherwise, in slide order |
| Slideshow.NotifyEventsLength | OpenCollab/Sources/RemixSupport/SlideshowViewController.swift:247-263 | two delegate calls per slide |
| Slideshow.ProgressSplitsBetweenTwo | OpenCollab/Sources/RemixSupport/SlideshowViewController.swift:244-254 | the current slide and the next share the view, their progresses in [0, 1] adding to 1, and every other slide has none |
| Slideshow.AtMostTwoAttached | OpenCollab/Sources/RemixSupport/SlideshowViewController.swift:249-262 | only the current slide and the next can be attached |
| Slideshow.ScrollEndSettles | OpenCollab/Sources/RemixSupport/SlideshowViewController.swift:285-288 | ending a scroll settles `setIndex` on an existing slide and tells the delegate the scroll ended, then notifies every slide (also lines 306-309) |
| Slideshow.NotifySlides | OpenCollab/Sources/RemixSupport/SlideshowViewController.swift:242-264 | the loop sends exactly the per-slide notifications, nothing without a delegate |
| Slideshow.SlideshowViewController.constructor | OpenCollab/Sources/RemixSupport/SlideshowViewController.swift:58-75 | slides, starting index, direction, padding and delegate as given; not selected, border clear |
| Slideshow.SlideshowViewController.SetSelected | OpenCollab/Sources/RemixSupport/SlideshowViewController.swift:42-46 | the border is white exactly while selected |
| Slideshow.SlideshowViewController.SetAdditionalHeaderPadding | OpenCollab/Sources/RemixSupport/SlideshowViewController.swift:48-53 | only the padding changes |
| Slideshow.SlideshowViewController.SetContentOffset | OpenCollab/Sources/RemixSupport/SlideshowViewController.swift:98-100 | only the content offset changes (also line 133) |
| Slideshow.SlideshowViewController.CurrentPagePortion | OpenCollab/Sources/RemixSupport/SlideshowViewController.swift:313-323 | the page portion of the current state |
| Slideshow.SlideshowViewController.CurrentIndexNow | OpenCollab/Sources/RemixSupport/SlideshowViewController.swift:83-86 | the current index, a slide that exists when there are any |
| Slideshow.SlideshowViewController.ScrollToIndex | OpenCollab/Sources/RemixSupport/SlideshowViewController.swift:88-104 | performs the scroll step |
| Slideshow.SlideshowViewController.AppendSlides | OpenCollab/Sources/RemixSupport/SlideshowViewController.swift:106-128 | performs the append step |
| Slideshow.SlideshowViewController.InsertSlide | OpenCollab/Sources/RemixSupport/SlideshowViewController.swift:130-137 | performs the insert step |
| Slideshow.SlideshowViewController.AppendSlide | OpenCollab/Sources/RemixSupport/SlideshowViewController.swift:139-146 | performs the append-one step |
| Slideshow.SlideshowViewController.ReplaceSlide | OpenCollab/Sources/RemixSupport/SlideshowViewController.swift:148-156 | performs the guarded replace step |
| Slideshow.SlideshowViewController.RemoveSlides | OpenCollab/Sources/RemixSupport/SlideshowViewController.swift:158-166 | empties the slides |
| Slideshow.SlideshowViewController.RemoveSlide | OpenCollab/Sources/RemixSupport/SlideshowViewController.swift:168-174 | performs the remove step |
| Slideshow.SlideshowViewController.EnableScrolling | OpenCollab/Sources/RemixSupport/SlideshowViewController.swift:176-178 | only scrolling is enabled |
| Slideshow.SlideshowViewController.DisableScrolling | OpenCollab/Sources/RemixSupport/SlideshowViewController.swift:180-182 | only scrolling is disabled |
| Slideshow.SlideshowViewController.ViewDidAppear | OpenCollab/Sources/RemixSupport/SlideshowViewController.swift:186-192 | clears viewDidDisappear once there are slides |
| Slideshow.SlideshowViewController.ViewDidLoad | OpenCollab/Sources/RemixSupport/SlideshowViewController.swift:194-212 | scrolls to the starting index |
| Slideshow.SlideshowViewController.ViewDidLayoutSubviews | OpenCollab/Sources/RemixSupport/SlideshowViewController.swift:214-238 | takes the frame and, when it has area, scrolls to `setIndex` |
| Slideshow.SlideshowViewController.Notify | OpenCollab/Sources/RemixSupport/SlideshowViewController.swift:242-264 | appends the notifications for every slide |
| Slideshow.SlideshowViewController.EndScroll | OpenCollab/Sources/RemixSupport/SlideshowViewController.swift:306-309 | performs the scroll-ended step |
| Slideshow.SlideshowViewController.ScrollViewDidScroll | OpenCollab/Sources/RemixSupport/SlideshowViewController.swift:266-269 | a preview-only notification |
| Slideshow.SlideshowViewController.ScrollViewWillBeginDragging | OpenCollab/Sources/RemixSupport/SlideshowViewController.swift:271-274 | tells the delegate the scroll started |
| Slideshow.SlideshowViewController.ScrollViewDidEndDragging | OpenCollab/Sources/RemixSupport/SlideshowViewController.swift:276-283 | ends the scroll and notifies only when the drag does not decelerate |
| Slideshow.SlideshowViewController.ScrollViewDidEndScrolling | OpenCollab/Sources/RemixSupport/SlideshowViewController.swift:285-304 | ends the scroll and notifies in full |
| Slideshow.SlideshowViewController.DidTapView | OpenCollab/Sources/RemixSupport/SlideshowViewController.swift:325-327 | tells the delegate the view was tapped |
| Slideshow.PagePortion | OpenCollab/Sources/RemixSupport/SlideshowViewController.swift:313-323 | `currentPagePortion()`: the scrolled distance in slide lengths, zero before layout; CurrentIsNearest proves the current index is the nearest slide to it |
| Slideshow.ScrollToIndexStep | OpenCollab/Sources/RemixSupport/SlideshowViewController.swift:88-104 | `scrollToIndex(index:animated:)`; ScrollToIndexGuard and ScrollToIndexShowsIt prove the current index is left alone and any other brings its slide to the start after layout |
| Slideshow.AppendSlidesStep | OpenCollab/Sources/RemixSupport/SlideshowViewController.swift:106-128 | `appendSlides(leftViews:rightViews:)`; AppendSlidesPlaces proves where left and right slides go and that `setIndex` selects the slide that was first before |
| Slideshow.InsertSlideStep | OpenCollab/Sources/RemixSupport/SlideshowViewController.swift:130-137 | `insertSlide(view:index:)`; InsertSlidePlaces and RemoveUndoesInsert prove the slide lands at the index, the others keep their order, and removing it restores them |
| Slideshow.AppendSlideStep | OpenCollab/Sources/RemixSupport/SlideshowViewController.swift:139-146 | `appendSlide(view:)`; AppendSlidePlaces proves the slide goes last and the others stay |
| Slideshow.ReplaceSlideStep | OpenCollab/Sources/RemixSupport/SlideshowViewController.swift:148-156 | `replaceSlide(view:index:)`; ReplaceSlideOnlyInRange proves only an index in range is replaced, and only that slide |
| Slideshow.RemoveSlidesStep | OpenCollab/Sources/RemixSupport/SlideshowViewController.swift:158-166 | `removeSlides()`; RemoveSlideDropsOne proves the slideshow is emptied |
| Slideshow.RemoveSlideStep | OpenCollab/Sources/RemixSupport/SlideshowViewController.swift:168-174 | `removeSlide(at:)`; RemoveSlideDropsOne proves exactly that slide goes and the others keep their order |
| Slideshow.Progress | OpenCollab/Sources/RemixSupport/SlideshowViewController.swift:244-254 | the progress `notify(previewOnly:)` reports for a slide; ProgressSplitsBetweenTwo proves the current slide and the next share it and the others get none |
| Slideshow.SlideNotification | OpenCollab/Sources/RemixSupport/SlideshowViewController.swift:247-263 | what `notify(previewOnly:)` tells the delegate about one slide; AtMostTwoAttached proves only the current slide and the next can be attached |
| Slideshow.NotifyEvents | OpenCollab/Sources/RemixSupport/SlideshowViewController.swift:242-264 | the notifications for the slides in order; NotifyEventsAt and NotifyEventsLength prove each slide gets its progress and then an attach or detach, two calls per slide |
| Slideshow.NotifyStep | OpenCollab/Sources/RemixSupport/SlideshowViewController.swift:242-264 | `notify(previewOnly:)`: the slides' notifications, when a delegate exists; NotifySlides proves the loop sends exactly them |
| Slideshow.ScrollEndedStep | OpenCollab/Sources/RemixSupport/SlideshowViewController.swift:306-309 | `scrollEnded()`; ScrollEndSettles proves `setIndex` settles on an existing slide and the delegate hears of it |
| Slideshow.LayoutStep | OpenCollab/Sources/RemixSupport/SlideshowViewController.swift:214-238 | `viewDidLayoutSubviews()`: the scroll view takes the frame and, when it has area, scrolls to `setIndex` |
| Slideshow.ViewDidAppearStep | OpenCollab/Sources/RemixSupport/SlideshowViewController.swift:186-192 | `viewDidAppear(_:)`: marks the view shown once it has slides |
| ClipsTray.UpdateSelectedIndexGuard | OpenCollab/Sources/RemixSupport/ClipsTrayCollectionViewController.swift:21-27 | an index past the clips or already selected changes nothing; any other index is selected and shown selected exactly when selection is enabled; a negative index passes the guard (also lines 124-128) |
| ClipsTray.DidSelectGate | OpenCollab/Sources/RemixSupport/ClipsTrayCollectionViewController.swift:94-97 | the delegate hears of a tapped row exactly when selection is enabled and the row is not the selected one; otherwise nothing changes |
| ClipsTray.ReloadReplacesAll | OpenCollab/Sources/RemixSupport/ClipsTrayCollectionViewController.swift:109-117 | reloading replaces every clip, keeps the selected row, and shows it selected again while selection is enabled |
| ClipsTray.InsertClipShifts | OpenCollab/Sources/RemixSupport/ClipsTrayCollectionViewController.swift:130-133 | the clip goes in at `index`, later ones move one right, and the selected row stays |
| ClipsTray.ClipsTrayCollectionViewController.constructor | OpenCollab/Sources/RemixSupport/ClipsTrayCollectionViewController.swift:50-53 | row 0 selected, no clips, selection enabled, no delegate |
| ClipsTray.ClipsTrayCollectionViewController.SetDelegate | OpenCollab/Sources/RemixSupport/ClipsTrayCollectionViewController.swift:34 | only the delegate changes |
| ClipsTray.ClipsTrayCollectionViewController.NumberOfItems | OpenCollab/Sources/RemixSupport/ClipsTrayCollectionViewController.swift:80-82 | the number of clips |
| ClipsTray.ClipsTrayCollectionViewController.CellForItem | OpenCollab/Sources/RemixSupport/ClipsTrayCollectionViewController.swift:84-90 | the row's slide, enabled exactly when selection is |
| ClipsTray.ClipsTrayCollectionViewController.SetSelectedIndex | OpenCollab/Sources/RemixSupport/ClipsTrayCollectionViewController.swift:21-27 | performs the selection step |
| ClipsTray.ClipsTrayCollectionViewController.DidSelectItem | OpenCollab/Sources/RemixSupport/ClipsTrayCollectionViewController.swift:94-97 | performs the tap step |
| ClipsTray.ClipsTrayCollectionViewController.ShouldSelectItem | OpenCollab/Sources/RemixSupport/ClipsTrayCollectionViewController.swift:99-101 | allowed exactly when selection is enabled |
| ClipsTray.ClipsTrayCollectionViewController.ShouldDeselectItem | OpenCollab/Sources/RemixSupport/ClipsTrayCollectionViewController.swift:103-105 | allowed exactly when selection is enabled |
| ClipsTray.ClipsTrayCollectionViewController.ReloadClips | OpenCollab/Sources/RemixSupport/ClipsTrayCollectionViewController.swift:109-117 | performs the reload step |
| ClipsTray.ClipsTrayCollectionViewController.ToggleClipSelectionEnabled | OpenCollab/Sources/RemixSupport/ClipsTrayCollectionViewController.swift:29-33 | only the selection flag changes (also lines 119-121) |
| ClipsTray.ClipsTrayCollectionViewController.UpdateSelectedIndex | OpenCollab/Sources/RemixSupport/ClipsTrayCollectionViewController.swift:124-128 | performs the guarded selection step |
| ClipsTray.ClipsTrayCollectionViewController.OptimisticallyInsertClip | OpenCollab/Sources/RemixSupport/ClipsTrayCollectionViewController.swift:130-133 | performs the insert step |
| ClipsTray.SetSelectedStep | OpenCollab/Sources/RemixSupport/ClipsTrayCollectionViewController.swift:20-26 | an assignment to `selectedIndex` with its `didSet`: the collection view follows it only while selection is enabled |
| ClipsTray.UpdateSelectedIndexStep | OpenCollab/Sources/RemixSupport/ClipsTrayCollectionViewController.swift:124-128 | `updateSelectedIndex(index:)`; UpdateSelectedIndexGuard proves which indices it ignores and how it selects the others |
| ClipsTray.DidSelectItemStep | OpenCollab/Sources/RemixSupport/ClipsTrayCollectionViewController.swift:94-97 | `collectionView(_:didSelectItemAt:)`; DidSelectGate proves the delegate hears of a row exactly when selection is enabled and the row is new |
| ClipsTray.ReloadClipsStep | OpenCollab/Sources/RemixSupport/ClipsTrayCollectionViewController.swift:109-117 | `reloadClips(slideViews:)`; ReloadReplacesAll proves every clip is replaced and the row kept |
| ClipsTray.InsertClipStep | OpenCollab/Sources/RemixSupport/ClipsTrayCollectionViewController.swift:130-133 | `optimisticallyInsertClip(index:slideView:)`; InsertClipShifts proves the clip lands at the index and the later ones move up by one |
| RadioTabBar.SelectMakesOnlyActive | CollabOpenSource/Sources/CustomComponents/RadioTabBarViewController.swift:24-34 | with every tab in the bar once, selecting another tab makes it the bar's only active tab; tabs outside the bar keep their flags |
| RadioTabBar.SelectOutOfRangeOrSameChangesNoFlag | CollabOpenSource/Sources/CustomComponents/RadioTabBarViewController.swift:26 | an index past the tabs or equal to the old one changes no flag |
| RadioTabBar.AddTabActivatesOnlyFirst | CollabOpenSource/Sources/CustomComponents/RadioTabBarViewController.swift:74-82 | the tab goes last and is activated only when it is the bar's first |
| RadioTabBar.TapReportsFirstPosition | CollabOpenSource/Sources/CustomComponents/RadioTabBarViewController.swift:84-93 | a tap reports the tab's first position in the bar, nothing for a tab not in it, and selects nothing itself |
| RadioTabBar.InitialAssignmentChangesNothing | CollabOpenSource/Sources/CustomComponents/RadioTabBarViewController.swift:54-59 | assigning 0 to an index already 0 is stopped by the guard, so the tabs keep their flags (also lines 24-26) |
| RadioTabBar.DeactivateOthers | CollabOpenSource/Sources/CustomComponents/RadioTabBarViewController.swift:27-32 | the tab at the index on and every other tab of the bar off |
| RadioTabBar.RadioTabBarControlView.constructor | CollabOpenSource/Sources/CustomComponents/RadioTabBarViewController.swift:36-41 | the given tabs, index 0, their flags unchanged, no delegate |
| RadioTabBar.RadioTabBarControlView.FromCoder | CollabOpenSource/Sources/CustomComponents/RadioTabBarViewController.swift:43-47 | no tabs, index 0 |
| RadioTabBar.RadioTabBarControlView.SetDelegate | CollabOpenSource/Sources/CustomComponents/RadioTabBarViewController.swift:23 | only the delegate changes |
| RadioTabBar.RadioTabBarControlView.SetSelectedIndex | CollabOpenSource/Sources/CustomComponents/RadioTabBarViewController.swift:24-34 | performs the selection step |
| RadioTabBar.RadioTabBarControlView.AddTab | CollabOpenSource/Sources/CustomComponents/RadioTabBarViewController.swift:74-82 | performs the add step |
| RadioTabBar.RadioTabBarControlView.GetTabItemForTabView | CollabOpenSource/Sources/CustomComponents/RadioTabBarViewController.swift:91-93 | the tab's first index, or none exactly when it is not in the bar |
| RadioTabBar.RadioTabBarControlView.ChangeTabs | CollabOpenSource/Sources/CustomComponents/RadioTabBarViewController.swift:84-89 | performs the tap step |
| RadioTabBar.MakeActive | CollabOpenSource/Sources/CustomComponents/RadioTabBarViewController.swift:27-32 | the `selectedIndex` observer past its guard: the tab at the index on, every other tab of the bar off; DeactivateOthers and SelectMakesOnlyActive prove the result |
| RadioTabBar.SetSelectedIndexStep | CollabOpenSource/Sources/CustomComponents/RadioTabBarViewController.swift:24-34 | an assignment to `selectedIndex`; SelectMakesOnlyActive and SelectOutOfRangeOrSameChangesNoFlag prove a new in-range index makes its tab the only active one and any other index changes no flag |
| RadioTabBar.AddTabStep | CollabOpenSource/Sources/CustomComponents/RadioTabBarViewController.swift:74-82 | `addTab(_:)`; AddTabActivatesOnlyFirst proves the tab goes last and only the bar's first tab is activated |
| RadioTabBar.ChangeTabsStep | CollabOpenSource/Sources/CustomComponents/RadioTabBarViewController.swift:84-89 | `changeTabs(_:)`; TapReportsFirstPosition proves a tap reports the tab's first position and selects nothing |
| AspectRatioCalculator.WidthAndHeightAreInverse | OpenCollab/Sources/Util/AspectRatioCalculator.swift:18-24 | for a positive ratio, converting a width to a height and back, or the other way, gives the value started from |
| AspectRatioCalculator.SizeThatFits | OpenCollab/Sources/Util/AspectRatioCalculator.swift:26-34 | the result has the ratio, fits inside the size, and takes its full width or its full height |
| AspectRatioCalculator.SizeThatFitsChoosesLimit | OpenCollab/Sources/Util/AspectRatioCalculator.swift:26-34 | the width limits the fitted size exactly when the full-width height fits |
| AspectRatioCalculator.CollabSizeThatFits | OpenCollab/Sources/Util/AspectRatioCalculator.swift:62-64 | the largest 27:15 size inside the given one, touching it in width or height (also line 11) |
| AspectRatioCalculator.CollabFullBleedSizeThatFits | OpenCollab/Sources/Util/AspectRatioCalculator.swift:66-79 | the smallest 27:15 size that covers the given one, matching it in width or height |
| AspectRatioCalculator.ClipHeightRatios | OpenCollab/Sources/Util/AspectRatioCalculator.swift:38-56 | 16:9 for one and four clips, 8:9 for two, 32:27 for six and the later clips of five, 9:15 for three, the first of five and any other count (also lines 6-12) |
| AspectRatioCalculator.ClipWidths | OpenCollab/Sources/Util/AspectRatioCalculator.swift:85-96 | half the collab width for four and six clips and the later clips of five, the full width otherwise |
| AspectRatioCalculator.RowsStack | OpenCollab/Sources/Util/AspectRatioCalculator.swift:38-60 | three 9:15 clips stack to exactly the 27:15 collab; one, two, four or six clips stack to 16:9 (also lines 11, 85-96) |
| AspectRatioCalculator.HeightFor | OpenCollab/Sources/Util/AspectRatioCalculator.swift:18-20 | `height(for:constant:)`; WidthAndHeightAreInverse proves it undoes WidthFor for a positive constant |
| AspectRatioCalculator.WidthFor | OpenCollab/Sources/Util/AspectRatioCalculator.swift:22-24 | `width(for:constant:)`; WidthAndHeightAreInverse proves it undoes HeightFor for a positive constant |
| AspectRatioCalculator.CollabHeight | OpenCollab/Sources/Util/AspectRatioCalculator.swift:58-60 | `collabHeight(for:)`, the 27:15 height of a width; RowsStack proves three 9:15 clips fill it exactly |
| AspectRatioCalculator.GetSingleVideoAspectRatio | OpenCollab/Sources/Util/AspectRatioCalculator.swift:81-83 | `getSingleVideoAspectRatio()`, the 16:9 constant |
| AspectRatioCalculator.Height | OpenCollab/Sources/Util/AspectRatioCalculator.swift:38-56 | `height(for:of:numberOfClips:)`; ClipHeightRatios proves the ratio it uses for every clip count and position |
| AspectRatioCalculator.WidthForClipInCollab | OpenCollab/Sources/Util/AspectRatioCalculator.swift:85-96 | `widthForClipInCollab(clip:totalNumberOfClips:collabWidth:)`; ClipWidths proves when a clip takes half the width and when all of it |
| CollabRasterizerModel.SeparatorsAreClean | OpenCollab/Sources/CollabRasterizer.swift:53-62 | the space and the underscore the two passes insert are neither invalid nor whitespace |
| CollabRasterizerModel.Split | OpenCollab/Sources/CollabRasterizer.swift:59-60 | splitting yields one more piece than separators, so always at least one |
| CollabRasterizerModel.NonEmpty | OpenCollab/Sources/CollabRasterizer.swift:61 | keeps exactly the non-empty pieces |
| CollabRasterizerModel.SplitAvoids | OpenCollab/Sources/CollabRasterizer.swift:59-60 | no piece holds a separator, and every piece keeps any set the string already avoided |
| CollabRasterizerModel.SplitClean | OpenCollab/Sources/CollabRasterizer.swift:59-60 | a string with no separator splits into itself alone |
| CollabRasterizerModel.JoinAvoids | OpenCollab/Sources/CollabRasterizer.swift:59 | joining pieces and a separator that avoid a set gives a string that avoids it (also line 62) |
| CollabRasterizerModel.JoinNoStray | OpenCollab/Sources/CollabRasterizer.swift:61-62 | non-empty pieces without `_` joined by `_` have no `_` at either end and none doubled |
| CollabRasterizerModel.FileSafeLabelIsClean | OpenCollab/Sources/CollabRasterizer.swift:52-65 | the label holds no invalid or whitespace character, and is made of non-empty pieces joined by `_` |
| CollabRasterizerModel.FileSafeLabelHasNoStrayUnderscore | OpenCollab/Sources/CollabRasterizer.swift:52-65 | a label without `_` of its own comes out with `_` only as single joints |
| CollabRasterizerModel.NoUnderscoreInSplit | OpenCollab/Sources/CollabRasterizer.swift:59-60 | splitting a string without `_` gives pieces without `_` |
| CollabRasterizerModel.NoUnderscoreInJoin | OpenCollab/Sources/CollabRasterizer.swift:59 | joining pieces without `_` by a separator without `_` gives no `_` |
| CollabRasterizerModel.CleanLabelIsFixed | OpenCollab/Sources/CollabRasterizer.swift:52-65 | a non-empty label that is already clean comes back unchanged |
| CollabRasterizerModel.BlankLabelIsEmpty | OpenCollab/Sources/CollabRasterizer.swift:52-65 | a label of only invalid and whitespace characters becomes the empty string |
| CollabRasterizerModel.BlankSplitPieces | OpenCollab/Sources/CollabRasterizer.swift:58-59 | the pieces of such a label are whitespace only |
| CollabRasterizerModel.SpacesOnlyJoin | OpenCollab/Sources/CollabRasterizer.swift:59 | whitespace pieces joined by spaces are whitespace only |
| CollabRasterizerModel.SplitAvoidsAll | OpenCollab/Sources/CollabRasterizer.swift:60-61 | a whitespace-only string splits on whitespace into empty pieces only |
| CollabRasterizerModel.FileSafeLabelIdempotent | OpenCollab/Sources/CollabRasterizer.swift:52-65 | sanitising twice is sanitising once |
| CollabRasterizerModel.LocalFileName | OpenCollab/Sources/CollabRasterizer.swift:41-50 | the file is `Collab_unknown_user_unknown_label_<uuid>.mp4` in the directory |
| CollabRasterizerModel.FileNameWith | OpenCollab/Sources/CollabRasterizer.swift:47 | the file name once the label is known to be `unknown_label` |
| CollabRasterizerModel.CollabLabelIsFixed | OpenCollab/Sources/CollabRasterizer.swift:43-44 | `unknown_label` is already file-safe |
| CollabRasterizerModel.LowercaseIsClean | OpenCollab/Sources/CollabRasterizer.swift:53-56 | lower-case letters and `_` are neither invalid nor whitespace |
| CollabRasterizerModel.OffsetTables | OpenCollab/Sources/CollabRasterizer.swift:205-251 | one to three clips and unknown counts stack at the left edge; with four or six the even clips end a row in the right half; with five clip 1 is a row of its own, even clips start a row and later odd clips end it |
| CollabRasterizerModel.RoundDownTo16 | OpenCollab/Sources/CollabRasterizer.swift:171-174 | the largest multiple of 16 not above the value |
| CollabRasterizerModel.RoundDownIsLargest | OpenCollab/Sources/CollabRasterizer.swift:173-174 | no multiple of 16 at most the value is above the rounded one |
| CollabRasterizerModel.MinDuration | OpenCollab/Sources/CollabRasterizer.swift:85-89 | none exactly when no asset is present, otherwise the duration of one present asset and no more than any other |
| CollabRasterizerModel.PlaceClips | OpenCollab/Sources/CollabRasterizer.swift:101-164 | the loop places exactly the reference layers and audio parameters and ends at the reference height |
| CollabRasterizerModel.Rasterize | OpenCollab/Sources/CollabRasterizer.swift:67-203 | an existing file is returned unless replacing, a failed removal fails with its error, no asset fails with no error, a missing export session fails, otherwise the export of the reference plan runs |
| CollabRasterizerModel.ExportResult | OpenCollab/Sources/CollabRasterizer.swift:192-202 | success with the file exactly when the export completed; otherwise `General`, carrying an underlying error exactly when the exporter reports one |
| CollabRasterizerModel.PlanDurationIsShortest | OpenCollab/Sources/CollabRasterizer.swift:85-91 | the composition is as long as the shortest present asset, one of their durations |
| CollabRasterizerModel.RenderSize | OpenCollab/Sources/CollabRasterizer.swift:171-174 | the render width is 528 and the height the stacked height rounded down to a multiple of 16 |
| CollabRasterizerModel.LayerPerPlacedClip | OpenCollab/Sources/CollabRasterizer.swift:103-149 | every placed clip has exactly one layer, in clip order, and no other clip has one |
| CollabRasterizerModel.AllPlacedHeight | OpenCollab/Sources/CollabRasterizer.swift:101-151 | with every clip placed, the stacked height depends only on the clip count |
| CollabRasterizerModel.FullCollabRendersAt528By960 | OpenCollab/Sources/CollabRasterizer.swift:101-174 | one to six placed clips stack to 960 points (972 for three, 964 for five) and render 528 by 960 |
| CollabRasterizerModel.GridHeights | OpenCollab/Sources/CollabRasterizer.swift:101-151 | the stacked heights of complete grids of one to six clips (also lines 205-227) |
| CollabRasterizerModel.Join | OpenCollab/Sources/CollabRasterizer.swift:59-62 | `joined(separator:)`; JoinAvoids, JoinNoStray and NoUnderscoreInJoin prove what a joined string can and cannot hold |
| CollabRasterizerModel.Sanitized | OpenCollab/Sources/CollabRasterizer.swift:53-59 | the first pass, the runs between invalid characters joined by a space; SeparatorsAreClean and SplitAvoids prove it holds no invalid character |
| CollabRasterizerModel.Pieces | OpenCollab/Sources/CollabRasterizer.swift:60-61 | the second pass's non-empty runs between whitespace; NonEmpty and SplitAvoids prove none is empty or holds whitespace |
| CollabRasterizerModel.FileSafeLabel | OpenCollab/Sources/CollabRasterizer.swift:52-65 | `fileSafeLabel(label:)`; FileSafeLabelIsClean, FileSafeLabelHasNoStrayUnderscore, CleanLabelIsFixed, BlankLabelIsEmpty and FileSafeLabelIdempotent prove the label is clean, keeps a clean label, empties a blank one and is idempotent |
| CollabRasterizerModel.Appending | OpenCollab/Sources/CollabRasterizer.swift:48 | `appendingPathComponent(_:)`: the directory's components followed by the file name |
| CollabRasterizerModel.LocalFileURL | OpenCollab/Sources/CollabRasterizer.swift:41-50 | `localFileURL(directoryURL:)` for a given UUID; LocalFileName proves the file is `Collab_unknown_user_unknown_label_<uuid>.mp4` in the directory |
| CollabRasterizerModel.VerticalOffsetFor | OpenCollab/Sources/CollabRasterizer.swift:205-227 | `verticalOffsetFor(clip:_:rawHeight:)`; OffsetTables proves for every clip count which clips move the next one down and by how much |
| CollabRasterizerModel.HorizontalOffsetFor | OpenCollab/Sources/CollabRasterizer.swift:229-251 | `horizontalOffsetFor(clip:_:rawWidth:)`; OffsetTables proves for every clip count which clips start at the middle and which at the left edge |
| CollabRasterizerModel.TargetWidth | OpenCollab/Sources/CollabRasterizer.swift:106 | the loop's `targetWidth`, a clip's share of the 540-point export width (line 36) |
| CollabRasterizerModel.TargetHeight | OpenCollab/Sources/CollabRasterizer.swift:107 | the loop's `targetHeight`, the clip's height at its target width |
| CollabRasterizerModel.VerticalBefore | OpenCollab/Sources/CollabRasterizer.swift:101-151 | `verticalPosition` before a clip: it moves down after a missing asset and after a placed clip, not after a clip whose video track failed; PlaceClips's loop keeps it, and AllPlacedHeight and GridHeights give its value for complete grids |
| CollabRasterizerModel.Layers | OpenCollab/Sources/CollabRasterizer.swift:103-149 | the layer instructions of the first clips; LayerPerPlacedClip proves exactly one per placed clip, in clip order |
| CollabRasterizerModel.AudioParams | OpenCollab/Sources/CollabRasterizer.swift:153-164 | the audio mix parameters of the first clips: each placed clip's video track, then its audio track when it was added, at the clip's volume; PlaceClips's loop keeps them |
| CollabRasterizerModel.Plan | OpenCollab/Sources/CollabRasterizer.swift:85-190 | the export `rasterize` prepares; PlanDurationIsShortest and RenderSize prove its duration is the shortest present asset's and its size 528 wide by the stacked height rounded down to 16 |
| CollabRasterizerModel.GridHeight | OpenCollab/Sources/CollabRasterizer.swift:101-151 | the stacked height once every clip is placed; GridHeights gives it for one to six clips |
| VolumeView.Clamp | OpenCollab/Sources/ViewControllers/VolumeViewController.swift:182 | the result lies in 0...1, equals the value inside that range, and is the nearest bound outside it |
| VolumeView.PanClampsVolume | OpenCollab/Sources/ViewControllers/VolumeViewController.swift:174-191 | a pan past the 5-point tolerance leaves the volume in 0...1, shows it on the progress bar, resets the translation and marks the adjustment active |
| VolumeView.PanKeepsVolumeInRange | OpenCollab/Sources/ViewControllers/VolumeViewController.swift:164-192 | a volume in 0...1 stays in 0...1 through any pan |
| VolumeView.SmallPanChangesNothing | OpenCollab/Sources/ViewControllers/VolumeViewController.swift:172-174 | within the tolerance a pan that is not ending changes nothing and keeps its translation |
| VolumeView.SmallMovesAccumulate | OpenCollab/Sources/ViewControllers/VolumeViewController.swift:172-190 | small movements add up, and the first pan that reaches the tolerance applies all of them over 60% of the view height |
| VolumeView.PanDirection | OpenCollab/Sources/ViewControllers/VolumeViewController.swift:180-182 | moving up never lowers the volume and moving down never raises it (also line 172) |
| VolumeView.PanStartOnlyWhenInactive | OpenCollab/Sources/ViewControllers/VolumeViewController.swift:174-187 | a moving pan reports a start exactly when the adjustment was inactive, and then always the new volume |
| VolumeView.FirstPanSendsNoStart | OpenCollab/Sources/ViewControllers/VolumeViewController.swift:174-178 | the flag starts set, so the first moving pan reports only the volume (also line 35) |
| VolumeView.PanEndClearsAndRestarts | OpenCollab/Sources/ViewControllers/VolumeViewController.swift:165-178 | an ending pan clears the flag, reports the end and leaves the translation to UIKit; the next gesture, started by UIKit at a zero translation, reports a start again once it moves past the tolerance |
| VolumeView.IconShowsMuteIffSilent | OpenCollab/Sources/ViewControllers/VolumeViewController.swift:142-150 | after a moving pan the icon is the mute image exactly when the volume is not above zero (also line 185) |
| VolumeView.IconKeptWithoutVolume | OpenCollab/Sources/ViewControllers/VolumeViewController.swift:142-143 | no volume leaves the icon alone |
| VolumeView.ActivateDeactivateTogether | OpenCollab/Sources/ViewControllers/VolumeViewController.swift:71-81 | activate and deactivate set the gesture and both views together, each undoing the other, and touch nothing else |
| VolumeView.VolumeViewController.constructor | OpenCollab/Sources/ViewControllers/VolumeViewController.swift:51-55 | the given volume, the inset grown by 10 points, active, no gesture yet |
| VolumeView.VolumeViewController.SetDelegate | OpenCollab/Sources/ViewControllers/VolumeViewController.swift:39 | only the delegate changes |
| VolumeView.VolumeViewController.ViewDidLoad | OpenCollab/Sources/ViewControllers/VolumeViewController.swift:85-91 | sets the icon and the progress from the volume and creates the enabled pan gesture (also lines 63-67, 104, 128) |
| VolumeView.VolumeViewController.Activate | OpenCollab/Sources/ViewControllers/VolumeViewController.swift:71-75 | performs the activate step |
| VolumeView.VolumeViewController.Deactivate | OpenCollab/Sources/ViewControllers/VolumeViewController.swift:77-81 | performs the deactivate step |
| VolumeView.VolumeViewController.SetVolumeIcon | OpenCollab/Sources/ViewControllers/VolumeViewController.swift:142-150 | only the icon changes, as the volume says |
| VolumeView.VolumeViewController.Drag | OpenCollab/Sources/ViewControllers/VolumeViewController.swift:172 | only the pan translation moves (also line 190) |
| VolumeView.VolumeViewController.Press | OpenCollab/Sources/ViewControllers/VolumeViewController.swift:154-162 | a press that begins activates, one that ends deactivates |
| VolumeView.VolumeViewController.Pan | OpenCollab/Sources/ViewControllers/VolumeViewController.swift:164-192 | performs the pan step |
| VolumeView.VolumeViewController.PanVolume | OpenCollab/Sources/ViewControllers/VolumeViewController.swift:180-182 | the new volume is the old one moved by the pan over 60% of the height, clamped to 0...1 (1 or 0 by the pan's sign for a view of no height) |
| VolumeView.PannedVolume | OpenCollab/Sources/ViewControllers/VolumeViewController.swift:180-182 | the volume after a pan, the old one plus the upward movement over the scaled view height, clamped to 0...1; PanDirection and PanKeepsVolumeInRange state its direction and range |
| VolumeView.IconFor | OpenCollab/Sources/ViewControllers/VolumeViewController.swift:142-150 | the icon `setVolumeIcon(volume:)` leaves: unchanged for no volume, the volume image above zero and the mute image otherwise; IconShowsMuteIffSilent and IconKeptWithoutVolume state it |
| VolumeView.PanStep | OpenCollab/Sources/ViewControllers/VolumeViewController.swift:164-192 | `pan(gesture:)`: an ending pan clears the flag and reports the end; a movement past the tolerance reports a start when inactive, moves and shows the volume and resets the translation; anything smaller changes nothing; PanClampsVolume, SmallPanChangesNothing, PanStartOnlyWhenInactive and PanEndClearsAndRestarts state it |
| VolumeView.DragStep | OpenCollab/Sources/ViewControllers/VolumeViewController.swift:172 | UIKit accumulating the finger's movement into the pan translation; SmallMovesAccumulate proves small moves add up until one crosses the tolerance |
| VolumeView.PressStep | OpenCollab/Sources/ViewControllers/VolumeViewController.swift:154-162 | `press(gesture:)`: a began press sets the active flag, an ended one clears it, others change nothing; Press performs it |
| VolumeView.ActivateStep | OpenCollab/Sources/ViewControllers/VolumeViewController.swift:71-75 | `activate()`: the pan gesture, if any, enabled and the indicator and icon shown; ActivateDeactivateTogether states it with its inverse |
| VolumeView.DeactivateStep | OpenCollab/Sources/ViewControllers/VolumeViewController.swift:77-81 | `deactivate()`: the pan gesture, if any, disabled and the indicator and icon hidden; ActivateDeactivateTogether states it with its inverse |
| VolumeView.ViewDidLoadStep | OpenCollab/Sources/ViewControllers/VolumeViewController.swift:85-91 | `viewDidLoad()`: the icon and the progress set from the volume and the pan gesture created enabled; ViewDidLoad performs it |
| VolumeView.Initial | OpenCollab/Sources/ViewControllers/VolumeViewController.swift:40-55 | the state `init(volume:heightInset:)` sets up: the given volume, the active flag set, no gesture and no image; FirstPanSendsNoStart is stated from it |
| AppMute.Other | OpenCollab/Sources/Util/AppMuteManager.swift:46 | the other mute state |
| AppMute.ToggleFlips | OpenCollab/Sources/Util/AppMuteManager.swift:44-48 | toggling flips the state and posts once; toggling twice restores it |
| AppMute.HardwareStateIsCopied | OpenCollab/Sources/Util/AppMuteManager.swift:65-87 | a known hardware state is copied into the app's, posting once when they differed and never otherwise; an unknown one changes nothing |
| AppMute.VolumeButtonOnlyUnmutes | OpenCollab/Sources/Util/AppMuteManager.swift:54-61 | a volume change only ever unmutes: muted becomes not muted with one post, not muted stays without one |
| AppMute.AssignmentAlwaysPosts | OpenCollab/Sources/Util/AppMuteManager.swift:19-23 | every assignment posts, even of the state already held (also lines 97-99) |
| AppMute.StubHardwareMutes | OpenCollab/Sources/Util/AppMuteManager.swift:89-95 | the stub reads a zero word, so the hardware is reported muted and updating from it mutes the app |
| AppMute.Codes | OpenCollab/Sources/Util/AppMuteManager.swift:29 | the character codes of a string, one per character |
| AppMute.ShiftDown | OpenCollab/Sources/Util/AppMuteManager.swift:31-33 | every code lowered by one, the length kept |
| AppMute.ShiftedNameDecodes | OpenCollab/Sources/Util/AppMuteManager.swift:28-33 | the stored codes are those of `com.apple.springboard.ringerstate` one higher each, followed by the terminator |
| AppMute.DecodeRingerStateName | OpenCollab/Sources/Util/AppMuteManager.swift:29-33 | the loop yields the ringer-state name as a C string, every code within `Int8` |
| AppMute.AppMuteManager.constructor | OpenCollab/Sources/Util/AppMuteManager.swift:27-36 | muted, no posts, token -1, no observer (also lines 17-19) |
| AppMute.AppMuteManager.Assign | OpenCollab/Sources/Util/AppMuteManager.swift:19-23 | performs the assignment step |
| AppMute.AppMuteManager.ToggleMuteState | OpenCollab/Sources/Util/AppMuteManager.swift:44-48 | performs the toggle step |
| AppMute.AppMuteManager.CurrentState | OpenCollab/Sources/Util/AppMuteManager.swift:50-52 | the in-app state |
| AppMute.AppMuteManager.ListenVolumeButtonChanges | OpenCollab/Sources/Util/AppMuteManager.swift:54-61 | installs the observer, nothing else changes |
| AppMute.AppMuteManager.OutputVolumeChanged | OpenCollab/Sources/Util/AppMuteManager.swift:56-60 | performs the volume-button step |
| AppMute.AppMuteManager.UpdateHardwareMuteState | OpenCollab/Sources/Util/AppMuteManager.swift:65-87 | performs the hardware step for the stub's muted answer |
| AppMute.AppMuteManager.ApplyHardwareState | OpenCollab/Sources/Util/AppMuteManager.swift:66-87 | performs the hardware step for any answer |
| AppMute.AppMuteManager.GetHardwareState | OpenCollab/Sources/Util/AppMuteManager.swift:89-95 | always muted |
| AppMute.LowerEach | OpenCollab/Sources/Util/AppMuteManager.swift:31-33 | every code of the buffer is lowered by exactly one, in place |
| AppMute.DecodedNameFitsInt8 | OpenCollab/Sources/Util/AppMuteManager.swift:29-33 | every decoded code lies within `Int8` |
| AppMute.ToggleStep | OpenCollab/Sources/Util/AppMuteManager.swift:44-48 | `toggleMuteState()`: assigns the other state; AppMute.ToggleFlips proves it flips the state with one post and that two toggles restore it |
| AppMute.AssignStep | OpenCollab/Sources/Util/AppMuteManager.swift:19-23 | an assignment to `inAppSwitchState` with its `didSet`; AssignmentAlwaysPosts proves it posts even when the state is unchanged |
| AppMute.VolumeButtonStep | OpenCollab/Sources/Util/AppMuteManager.swift:54-61 | the output-volume observer; VolumeButtonOnlyUnmutes proves it only ever unmutes, posting only when it does |
| AppMute.UpdateHardwareStep | OpenCollab/Sources/Util/AppMuteManager.swift:65-87 | `updateHardwareMuteState()` on a given hardware answer; HardwareStateIsCopied proves a known answer is copied with one post when it differed and an unknown one changes nothing |
| AppMute.HardwareStateFor | OpenCollab/Sources/Util/AppMuteManager.swift:89-95 | the hardware word read as muted exactly when it is zero; StubHardwareMutes uses it for the stub's zero word |
| AppMute.Initial | OpenCollab/Sources/Util/AppMuteManager.swift:27-36 | the state `init()` leaves: muted, nothing posted (also lines 17-19) |
| AppHeadphone.SecondsAt10000 | CollabOpenSource/Sources/Util/AppHeadphoneManager.swift:11-13 | a time at timescale 10000 whose value is the seconds times 10000 to within half a tick, and non-negative for non-negative seconds |
| AppHeadphone.AirpodProOffsetValue | CollabOpenSource/Sources/Util/AppHeadphoneManager.swift:9-13 | the AirPods Pro offset is 1607/10000 of a second |
| AppHeadphone.FirstOfType | CollabOpenSource/Sources/Util/AppHeadphoneManager.swift:211-229 | the first port of the given type, when one exists: it is in the list, has that type and no earlier port has it; none exactly when no port has it |
| AppHeadphone.PreferredInputPriority | CollabOpenSource/Sources/Util/AppHeadphoneManager.swift:231-236 | a USB microphone wins, then line-in, then a headset microphone, then the built-in one; the choice is always one of the inputs, never a Bluetooth one, and there is none exactly when no input is of the four types |
| AppHeadphone.HasHeadphones | CollabOpenSource/Sources/Util/AppHeadphoneManager.swift:257-260 | true exactly when some output is headphones, Bluetooth A2DP, USB audio or line-in |
| AppHeadphone.PreferredInputOnlyWhenRecording | CollabOpenSource/Sources/Util/AppHeadphoneManager.swift:202-243 | outside play-and-record nothing changes; in play-and-record, with inputs, a choice and no failing call, the preferred input becomes the chosen microphone |
| AppHeadphone.RequestTakesFreshToken | CollabOpenSource/Sources/Util/AppHeadphoneManager.swift:104-109 | a request takes a token one above the last, above every queued block's, and every queued token stays taken (also lines 144-145) |
| AppHeadphone.RunNextKeepsTokens | CollabOpenSource/Sources/Util/AppHeadphoneManager.swift:129-134 | running a queued block keeps every remaining token taken |
| AppHeadphone.StaleBlockDoesNothing | CollabOpenSource/Sources/Util/AppHeadphoneManager.swift:146-188 | a block whose token is no longer current leaves the session untouched and still completes its future (also lines 110-123) |
| AppHeadphone.LatestRequestWins | CollabOpenSource/Sources/Util/AppHeadphoneManager.swift:129-134 | of two queued requests the first runs as a no-op and the second applies its own setup to the original session (also lines 100-104, 194-199) |
| AppHeadphone.RecordSetupConfigures | CollabOpenSource/Sources/Util/AppHeadphoneManager.swift:146-188 | with no failing call the record block sets play-and-record with video recording and Bluetooth A2DP, 48100 Hz, a 0.005 s buffer, activates the session and selects the preferred microphone |
| AppHeadphone.RecordSetupSurvivesFailures | CollabOpenSource/Sources/Util/AppHeadphoneManager.swift:151-188 | a failing call only skips its own setting: the category and activation still happen, and a failed rate leaves the old rate |
| AppHeadphone.NotificationsOnUpdate | CollabOpenSource/Sources/Util/AppHeadphoneManager.swift:31-43 | an update posts the state change every time and the type change exactly when the type differs; the state is connected exactly when a headphone-like output is present (also lines 79-84, 262-268) |
| AppHeadphone.OffsetOnlyForAirpods | CollabOpenSource/Sources/Util/AppHeadphoneManager.swift:46-50 | the manual syncing offset is 1607/10000 s for AirPods Pro and zero otherwise (also lines 270-272) |
| AppHeadphone.AppHeadphoneManager.constructor | CollabOpenSource/Sources/Util/AppHeadphoneManager.swift:31-37 | starts not connected, type unknown, token 0, nothing queued and nothing posted (also lines 58-63, 104) |
| AppHeadphone.AppHeadphoneManager.CurrentState | CollabOpenSource/Sources/Util/AppHeadphoneManager.swift:71-73 | the in-app headphone state |
| AppHeadphone.AppHeadphoneManager.CurrentHeadphoneType | CollabOpenSource/Sources/Util/AppHeadphoneManager.swift:75-77 | the current headphone type |
| AppHeadphone.AppHeadphoneManager.ManualSyncingOffsetNow | CollabOpenSource/Sources/Util/AppHeadphoneManager.swift:46-50 | the offset of the current type (also lines 270-272) |
| AppHeadphone.AppHeadphoneManager.UpdateHeadphoneType | CollabOpenSource/Sources/Util/AppHeadphoneManager.swift:86-98 | AirPods Pro exactly when the output latency equals their constant, unknown otherwise |
| AppHeadphone.AppHeadphoneManager.UpdateHeadphoneState | CollabOpenSource/Sources/Util/AppHeadphoneManager.swift:79-84 | performs the update step whose notifications NotificationsOnUpdate states |
| AppHeadphone.AppHeadphoneManager.SetPreferredInputNow | CollabOpenSource/Sources/Util/AppHeadphoneManager.swift:202-243 | performs the preferred-input step that PreferredInputPriority and PreferredInputOnlyWhenRecording state |
| AppHeadphone.AppHeadphoneManager.Block | CollabOpenSource/Sources/Util/AppHeadphoneManager.swift:146-188 | runs a request's block: nothing when its token is stale, otherwise the playback or record setup (also lines 110-123) |
| AppHeadphone.AppHeadphoneManager.SetAudioSession | CollabOpenSource/Sources/Util/AppHeadphoneManager.swift:139-200 | takes a fresh token and runs the block at once, completing the future, or queues it; done exactly when no queue is given (also lines 106-135) |
| AppHeadphone.AppHeadphoneManager.RunNextQueued | CollabOpenSource/Sources/Util/AppHeadphoneManager.swift:129-134 | the queue runs its first block, then completes that request's future (also lines 194-199) |
| AppHeadphone.AppHeadphoneManager.HandleRouteChange | CollabOpenSource/Sources/Util/AppHeadphoneManager.swift:247-255 | updates the headphone state, then the preferred input |
| AppHeadphone.AirpodProOffset | CollabOpenSource/Sources/Util/AppHeadphoneManager.swift:9-13 | `Constants.airpodProOffset`, the output constant at timescale 10000; AirpodProOffsetValue proves it is 1607/10000 s |
| AppHeadphone.PreferredInputAmong | CollabOpenSource/Sources/Util/AppHeadphoneManager.swift:211-236 | the microphone `setPreferredInput()` picks; PreferredInputPriority proves the USB, line-in, headset, built-in order and that a Bluetooth input is never picked |
| AppHeadphone.SetPreferredInputStep | CollabOpenSource/Sources/Util/AppHeadphoneManager.swift:202-243 | `setPreferredInput()`; PreferredInputOnlyWhenRecording proves it changes nothing outside play-and-record and otherwise installs the picked microphone |
| AppHeadphone.PlaybackSetup | CollabOpenSource/Sources/Util/AppHeadphoneManager.swift:110-123 | the playback block with a current token: the playback category unless setting it throws |
| AppHeadphone.RecordSetup | CollabOpenSource/Sources/Util/AppHeadphoneManager.swift:146-188 | the record block with a current token; RecordSetupConfigures and RecordSetupSurvivesFailures prove what it sets and that a throwing call skips only its own setting |
| AppHeadphone.RunBlock | CollabOpenSource/Sources/Util/AppHeadphoneManager.swift:146-188 | a request's block, guarded by its token; StaleBlockDoesNothing proves a stale token leaves the session alone (also lines 110-123) |
| AppHeadphone.RequestStep | CollabOpenSource/Sources/Util/AppHeadphoneManager.swift:106-135 | `setAudioSessionForPlayback(on:)`/`setAudioSessionForRecord(on:)`; RequestTakesFreshToken proves the token is fresh and the earlier blocks go stale (also lines 139-200) |
| AppHeadphone.RunNextQueuedStep | CollabOpenSource/Sources/Util/AppHeadphoneManager.swift:129-134 | the queue running its first block and completing its future; RunNextKeepsTokens and LatestRequestWins state its effect (also lines 194-199) |
| AppHeadphone.TypeForLatency | CollabOpenSource/Sources/Util/AppHeadphoneManager.swift:87-98 | `updateHeadphoneType()`: AirPods Pro exactly when the output latency equals their constant |
| AppHeadphone.UpdateHeadphoneStateStep | CollabOpenSource/Sources/Util/AppHeadphoneManager.swift:79-84 | `updateHeadphoneState()`; NotificationsOnUpdate proves which notifications it posts and when the state is connected (also lines 31-43) |
| AppHeadphone.RouteChangeStep | CollabOpenSource/Sources/Util/AppHeadphoneManager.swift:247-255 | `handleRouteChange(notification:)`: the headphone update, then the preferred input |
| AppHeadphone.ManualSyncingOffset | CollabOpenSource/Sources/Util/AppHeadphoneManager.swift:270-272 | `getAudioOffset()`; OffsetOnlyForAirpods proves it is 1607/10000 s for AirPods Pro and zero otherwise (also lines 46-50) |
| AppHeadphone.RecordingOffset | CollabOpenSource/Sources/Util/AppHeadphoneManager.swift:52-54 | `recordingOffset`: twice the input latency at timescale 10000, within half a tick by SecondsAt10000's contract |
| AppHeadphone.AppHeadphoneManager.SetRoute | CollabOpenSource/Sources/Util/AppHeadphoneManager.swift:247-255 | the audio route the system reports before a route change notification: only the session's outputs, inputs and latencies change; HandleRouteChange then reads them |
| UIExtensions.ShiftMovesBits | OpenCollab/Sources/Util/UIExtensions.swift:48-49 | bit i of rgb >> k is bit i + k of rgb |
| UIExtensions.LowBitsIsMod | OpenCollab/Sources/Util/UIExtensions.swift:48-50 | masking with 2^n - 1 is the non-negative remainder modulo 2^n, even for a negative word |
| UIExtensions.Channel | OpenCollab/Sources/Util/UIExtensions.swift:48-50 | a channel lies in 0...255 and is the shifted word modulo 256 |
| UIExtensions.ChannelBits | OpenCollab/Sources/Util/UIExtensions.swift:48-50 | bit i of a channel is bit shift + i of rgb: red is bits 16 to 23, green 8 to 15, blue 0 to 7 |
| UIExtensions.FromComponents | OpenCollab/Sources/Util/UIExtensions.swift:37-44 | each component times 255 gives back the integer given, and the alpha is the one given |
| UIExtensions.FromRGB | OpenCollab/Sources/Util/UIExtensions.swift:46-53 | all three components lie in 0...1 and the alpha is the one given |
| UIExtensions.AlphaDefaultsToOne | OpenCollab/Sources/Util/UIExtensions.swift:37 | leaving the alpha out gives an opaque colour (also line 46) |
| UIExtensions.ChannelsRecompose | OpenCollab/Sources/Util/UIExtensions.swift:46-53 | the three channels at their weights give back the low 24 bits of any rgb word |
| UIExtensions.PackedChannelsRoundTrip | OpenCollab/Sources/Util/UIExtensions.swift:37-53 | channels in 0...255 packed into a word decode to themselves, so both initialisers give the same colour |
| UIExtensions.ShiftRight | OpenCollab/Sources/Util/UIExtensions.swift:48-49 | Swift's arithmetic `>>` on `Int`, rounding toward minus infinity for negative words; ShiftMovesBits proves bit `i` of the result is bit `i + k` of the word |
| UIExtensions.LowBits | OpenCollab/Sources/Util/UIExtensions.swift:48-50 | `& (2^n - 1)`: bits 0 to `n - 1` of the word at their own weights; LowBitsIsMod proves it is the non-negative remainder modulo `2^n` |
| UIExtensions.LowByte | OpenCollab/Sources/Util/UIExtensions.swift:48-50 | `& 0xFF`, the low eight bits; Channel and ChannelBits state what it keeps |
| UIExtensions.Red | OpenCollab/Sources/Util/UIExtensions.swift:48 | `(rgb >> 16) & 0xFF`; ChannelBits proves it is bits 16 to 23 and ChannelsRecompose and PackedChannelsRoundTrip that it is the packed red channel |
| UIExtensions.Green | OpenCollab/Sources/Util/UIExtensions.swift:49 | `(rgb >> 8) & 0xFF`; ChannelBits proves it is bits 8 to 15, with the same round-trip lemmas |
| UIExtensions.Blue | OpenCollab/Sources/Util/UIExtensions.swift:50 | `rgb & 0xFF`; ChannelBits proves it is bits 0 to 7, with the same round-trip lemmas |

## Left out

Whole areas:
- The capture-device configurator (`collabConfigureDevice`) is a declaration with no body. It is recorded as an event of the format choice.
- AVFoundation, AVKit and CoreMedia internals are left out: asset writers and readers, export sessions, compositions and their transforms, player item KVO and frame-image generation. The model keeps only the flags and durations the core reads.
- The app's other files are not part of this model: the playback coordinator, the local asset manager, the BrightFutures and FlexLayout pods, the UI-only views and controllers, file utilities, the app delegate, the multicast delegate, the announcers and the API models.
- There are no thread-safety claims. Dispatch queues, timers and futures are reduced to atomic steps, and the order in which they fire is the caller's choice.
- There is no IEEE rounding. Geometry and volume are `real`, and a `Float` volume is a `real`.
- `Int` and `Int32` overflow is not modelled. Counters and loop counts are unbounded integers.
- The beat length is the parameter `timePerBeat`, the value `BeatSnapper.timePerBeat` would give, because BeatSnapper's `round` and `pow` on `Double` are floating point. A BPM of nil, and the count-down time derived from it, are left to the caller.
- Layout code (`viewDidLayoutSubviews`, frames, constraints, stack views) is left out. So are show and hide animations, which are taken as finished at once.

Per file:
- FragmentHost: the change announcement that follows `setPlaybackTimes` is modelled only where the nudge overlay relies on it: `NudgeView.NudgeViewController.RoundTrip` hands the editor the fragment with the proposal applied, as the editor's delegate does synchronously. Elsewhere the editor's proposals are recorded, and the other listeners of the announcer are left out.
- PlaybackEditor: `convertDeltaToTime` and `convertTimeToDelta` are floating-point conversions of pan gestures and are left out.
- Extensions: `getFrameImage`, `fileSize`, `clearTmpDirectory`, `addToContainerViewController` and `reuseId` are I/O or UIKit plumbing.
- AssetCopier: the `copyAsset` export pipeline and the exact `cacheKey` string format are left out. A cache key is the interval it names.
- TakeGenerator: `cropVideo`, `cropFragment`, the URL helpers and file removal are AVFoundation or file-system work. The copies' outcome is a parameter.
- TakeViewController: left out are the layout, the timers' scheduling, the headphone message label and `flipCamera`'s forwarding.
- CaptureViewController: left out are `viewWillAppear`/`viewWillDisappear`, orientation, the audio device and the output objects themselves (only whether the session accepted them is modelled), photo settings, the system-pressure handler, `prepareToRecord` and video mirroring.
- HotPlayer: left out are the player layer, `logPlayerStatus`, `Fatal.safeAssert` and the `Float` volume.
- HotLooper: left out are the `print` logging, the loop-accuracy timer, the background task, the `Int32` loop count and `CMTimeConvertScale` (times are already at one timescale).
- CoordinatedLooperGroup: the members are assumed to be distinct loopers, as the app creates them.
- RecordActionViewController: left out are view set-up and layout, the action setters, the re-set in `viewDidAppear` and the key-frame values of the animation.
- ClickTrackComposerModel.ComposeClickTrackFor: the click track is modelled as its list of placed clicks rather than an `AVMutableComposition`. A non-zero `beatsPerBar` is required for any positive duration, because Swift's `%` traps there.
- MetronomeEdit.MetronomeEditViewController.constructor: it also sets the shown tempo, which the Swift sets when `viewDidLoad` runs `setupUI()` and writes the title (MetronomeEditViewController.swift:110-121); the model has no state before the view loads.
- MetronomeEdit: a second long press starting while the first timer is still valid (which would overlap two timers) is not modelled.
- AppendSlidesStep: `setIndex` selects the slide that was first before the append, as the Swift does; it keeps the current slide in view only when that was the first slide, so the model does not promise that.
- RemixView: left out are `setupRecord`'s asynchronous camera set-up, the screen closing in `didTapBack`, and `next()`'s UI side effects (prompts and volume selectors). Also left out are the slide views built by `update*InMatrix`, `buildClipsTray`, `getSelectedIndices` (start indices only), alerts, the coordinator and the button refresh animations. Of `selectedFragmentsChanged()` (RemixViewController.swift:1591-1602) the model keeps the Preview refresh and the record set-up or capture-view removal; it leaves out `updateSelectedClipInTray`, the slideshow scrolling in `updateSlideshowViews`, and the slide that `removeCaptureView()` puts back in place of the camera view.
- MulticlipTypeModel.TypeForClipCount: requires a clip count in 1...6, because the Swift lookup traps outside it.
- Slideshow: layout, the `scrollDelegate` forwarding, frames and the `Float` progress are left out. The `layoutIfNeeded` in `additionalHeaderPadding` is modelled as the separate `ViewDidLayoutSubviews` operation.
- ClipsTray: the batch update's completion is taken as immediate, the collection view highlights a single row, and haptics are left out.
- RadioTabBar: the stack view and the gesture recognisers are UIKit's. A tap names the tapped tab. The tabs given to `init` get a plain `UIGestureRecognizer` (CollabOpenSource/Sources/CustomComponents/RadioTabBarViewController.swift:66), which is not a tap recogniser; only tabs added later by `addTab(_:)` get a `UITapGestureRecognizer` (line 76). The model treats a tap on either kind of tab the same way, so whether a tap on an initial tab reaches `changeTabs(_:)` is left out.
- AspectRatioCalculator: results are exact reals, with no IEEE rounding.
- CollabRasterizerModel: left out are the AVFoundation transform, crop and composition, and the export session's run. `CharacterSet.illegalCharacters` is approximated by the noncharacters of the Basic Multilingual Plane, since which code points are unassigned depends on the Unicode version. `.controlCharacters` is approximated by a fixed list of the C0, C1 and format controls. The output URL is its path component.
- VolumeView: constraints and the `Float` type of the volume are left out. `press(gesture:)` is modelled as a handler of gesture phases, without its recogniser.
- AppMute: the block's weak `self` in the KVO observer is left out, and the observer token is stored but never used. A `muteSwitchStateChanged` post is counted; its name and object are not modelled.
- AppHeadphone: the session calls themselves are AVFoundation's. A call that throws is named in the `failing` set. Left out are the main-queue precondition, the error `print`s and the `Double` latencies, which are exact reals here. A queued block runs as one atomic step. The blocks are kept in one first-in, first-out queue, although the callers may pass different dispatch queues; the order between blocks on different queues is not modelled. The route and latencies the system reports are set by `SetRoute`.
- RecordingAuthorizer: the permission prompts are asynchronous system calls whose answers are parameters. The alert's "OK" and "Settings" buttons, and the opening of the settings page, are UIKit presentation and are not modelled; only the alert's message is (RecordingAuthorizer.swift:70-81).

## Findings

| source | as written | input that shows it | evidently intended | confidence | as-written member | corrected member |
|---|---|---|---|---|---|---|
| OpenCollab/Sources/ViewControllers/CaptureViewController.swift:62-63, 656-658 | `allAudioSamplesCaptured` and `allVideoSamplesCaptured` are set when a sample past the cut-off arrives, but no start of recording resets them | record once and let both late samples arrive; start a second recording and stop it; the first late video sample then finishes the second recording at once, before any late audio sample | each recording waits until both a late audio and a late video sample have arrived | not executed | CaptureView.SecondRecordingEndsOnFirstLateSample (on CaptureView.CaptureViewController.StartRecordingAsWritten) | CaptureView.SecondRecordingWaitsForBothTypes (on CaptureView.CaptureViewController.StartRecording) |
| OpenCollab/Sources/ViewControllers/TakeViewController.swift:39, 316-318, 397 | `startRecording()` resets the take count and the start times, but not `activeTakeThumbnails`, which only ever grows | take one photo in a recording, start a new recording and take another; the first take of the new recording gets the old photo | each recording's takes get that recording's thumbnails, so a start of recording clears them | not executed | TakeView.StaleThumbnailAfterRestart (on TakeView.TakeViewController.StartRecordingAsWritten) | TakeView.FreshThumbnailAfterRestart (on TakeView.TakeViewController.StartRecording) |
