/**
 * The advanced camera's helpers: the table from a colour filter to the image
 * manipulations it requests, the boomerang frame sequence, the multi-photo
 * collection, and the flash and lens switches.
 */
module Camera {
  import opened Wrappers
  import opened Seqs

  /** A picture as the camera hands it over. */
  datatype Photo = Photo(uri: string)

  /** One image manipulation step. */
  datatype Manipulation = Sepia(sepia: real) | Contrast(contrast: real) | Saturation(saturation: real) | Temperature(temperature: int)

  /**
   * What `applyFilter` gives back: the photo itself, or the request it makes
   * to the image manipulator (source uri, steps, compression and format).
   */
  datatype Processed =
    | Unfiltered(photo: Photo)
    | Manipulated(sourceUri: string, steps: seq<Manipulation>, compress: real, format: string)

  /** The filter menu: a display name and the value stored when it is picked (`null` for Normal). */
  datatype FilterOption = FilterOption(name: string, value: Option<string>)

  const FilterMenu: seq<FilterOption> := [
    FilterOption("Normal", None),
    FilterOption("Vintage", Some("vintage")),
    FilterOption("Black & White", Some("bw")),
    FilterOption("Sepia", Some("sepia")),
    FilterOption("Cool", Some("cool")),
    FilterOption("Warm", Some("warm")),
    FilterOption("Retro", Some("retro")),
    FilterOption("Vivid", Some("vivid"))
  ]

  /** The manipulation list the `switch` builds; a value it does not know gets an empty list. */
  function Manipulations(filter: string): (steps: seq<Manipulation>)
    ensures steps == [] <==> filter !in {"vintage", "bw", "sepia", "cool", "warm", "retro", "vivid"}
    ensures |steps| <= 2
  {
    match filter
    case "vintage" => [Sepia(0.3), Contrast(1.2)]
    case "bw" => [Sepia(1.0)]
    case "sepia" => [Sepia(0.8)]
    case "cool" => [Temperature(-50)]
    case "warm" => [Temperature(50)]
    case "retro" => [Contrast(1.5), Saturation(0.8)]
    case "vivid" => [Saturation(1.5), Contrast(1.2)]
    case _ => []
  }

  /** Every filter in the menu requests its own list of manipulations. */
  lemma MenuFiltersAreDistinct(i: int, j: int)
    requires 0 <= i < |FilterMenu| && 0 <= j < |FilterMenu|
    requires FilterMenu[i].value.Some? && FilterMenu[j].value.Some?
    requires Manipulations(FilterMenu[i].value.value) == Manipulations(FilterMenu[j].value.value)
    ensures i == j
  {
  }

  /**
   * No menu entry stores the value 'Normal' (Normal stores `null`), so the
   * second half of `applyFilter`'s first test never decides anything for a
   * filter picked from the menu.
   */
  lemma NormalIsNeverAStoredValue()
    ensures forall i :: 0 <= i < |FilterMenu| ==> FilterMenu[i].value != Some("Normal")
  {
  }

  /** `applyFilter`: no filter (null, empty, or 'Normal') returns the photo; otherwise its manipulations are requested. */
  function ApplyFilter(photo: Photo, selectedFilter: Option<string>): (r: Processed)
    ensures selectedFilter.None? || selectedFilter.value in {"", "Normal"} ==> r == Unfiltered(photo)
    ensures selectedFilter.Some? && selectedFilter.value !in {"", "Normal"} ==>
      r == Manipulated(photo.uri, Manipulations(selectedFilter.value), 0.8, "jpeg")
  {
    if selectedFilter.None? || selectedFilter.value == "" || selectedFilter.value == "Normal" then Unfiltered(photo)
    else Manipulated(photo.uri, Manipulations(selectedFilter.value), 0.8, "jpeg")
  }

  /** `[...frames, ...frames.reverse()]`: the frames, then the same frames backwards. */
  function Boomerang(frames: seq<Photo>): (r: seq<Photo>)
    ensures |r| == 2 * |frames|
    ensures r[..|frames|] == frames
  {
    frames + Reversed(frames)
  }

  /** The boomerang plays back to where it started. */
  lemma BoomerangIsPalindrome(frames: seq<Photo>)
    ensures IsPalindrome(Boomerang(frames))
  {
    var r := Boomerang(frames);
    var n := |frames|;
    forall i | 0 <= i < |r| ensures r[i] == r[|r| - 1 - i] {
      if i < n {
        assert r[|r| - 1 - i] == Reversed(frames)[n - 1 - i];
      } else {
        assert r[i] == Reversed(frames)[i - n];
      }
    }
  }

  /** Reverses an array in place, as `Array.prototype.reverse` does. */
  method ReverseInPlace(a: array<Photo>)
    modifies a
    ensures a[..] == Reversed(old(a[..]))
  {
    ghost var s := a[..];
    var n := a.Length;
    var i := 0;
    while i < n - 1 - i
      invariant 0 <= i <= n - i
      invariant forall k :: 0 <= k < i ==> a[k] == s[n - 1 - k]
      invariant forall k :: n - i <= k < n ==> a[k] == s[n - 1 - k]
      invariant forall k :: i <= k < n - i ==> a[k] == s[k]
    {
      a[i], a[n - 1 - i] := a[n - 1 - i], a[i];
      i := i + 1;
    }
    MirrorIsReversed(s, a[..]);
  }

  /** How many pictures a boomerang takes. */
  const BoomerangShots := 10

  datatype FlashMode = FlashOff | FlashOn
  datatype CameraType = Back | Front

  function FlipFlash(m: FlashMode): (r: FlashMode)
    ensures r != m
  {
    if m == FlashOff then FlashOn else FlashOff
  }

  function FlipCamera(t: CameraType): (r: CameraType)
    ensures r != t
  {
    if t == Back then Front else Back
  }

  /** Two presses of the flash switch restore it. */
  lemma FlashFlipTwice(m: FlashMode)
    ensures FlipFlash(FlipFlash(m)) == m
  {
  }

  /** Two presses of the lens switch restore it. */
  lemma CameraFlipTwice(t: CameraType)
    ensures FlipCamera(FlipCamera(t)) == t
  {
  }

  /** What `onCapture` is called with. */
  datatype Capture =
    | Single(processed: Processed)
    | Batch(photos: seq<Processed>)
    | BoomerangClip(frames: seq<Photo>)

  class AdvancedCamera {
    /** Whether the camera view is mounted, so that `cameraRef.current` is set. */
    const hasCameraRef: bool
    var cameraType: CameraType
    var flashMode: FlashMode
    var selectedFilter: Option<string>
    var multiPhotoMode: bool
    var selectedPhotos: seq<Processed>
    var gifFrames: seq<Photo>
    /** The calls of `onCapture` so far, oldest first. */
    var captured: seq<Capture>

    constructor (mounted: bool)
      ensures hasCameraRef == mounted && cameraType == Back && flashMode == FlashOff
      ensures selectedFilter == None && !multiPhotoMode && selectedPhotos == [] && gifFrames == [] && captured == []
    {
      hasCameraRef := mounted;
      cameraType, flashMode, selectedFilter := Back, FlashOff, None;
      multiPhotoMode, selectedPhotos, gifFrames, captured := false, [], [], [];
    }

    method ToggleFlash()
      modifies this`flashMode
      ensures flashMode == FlipFlash(old(flashMode))
    {
      flashMode := if flashMode == FlashOff then FlashOn else FlashOff;
    }

    method ToggleCameraType()
      modifies this`cameraType
      ensures cameraType == FlipCamera(old(cameraType))
    {
      cameraType := if cameraType == Back then Front else Back;
    }

    /** The Multi button. */
    method ToggleMultiPhotoMode()
      modifies this`multiPhotoMode
      ensures multiPhotoMode == !old(multiPhotoMode)
    {
      multiPhotoMode := !multiPhotoMode;
    }

    /** A tap on a filter in the menu. */
    method PickFilter(k: int)
      requires 0 <= k < |FilterMenu|
      modifies this`selectedFilter
      ensures selectedFilter == FilterMenu[k].value
    {
      selectedFilter := FilterMenu[k].value;
    }

    /**
     * `takePhoto` with the picture the camera returned. In multi-photo mode
     * the processed photo is appended, and once the list held nine or more
     * before this shot, `onCapture` receives that earlier list, without the
     * new photo.
     */
    method TakePhoto(shot: Photo)
      modifies this`selectedPhotos, this`captured
      ensures !hasCameraRef ==> selectedPhotos == old(selectedPhotos) && captured == old(captured)
      ensures hasCameraRef && multiPhotoMode ==>
        && selectedPhotos == old(selectedPhotos) + [ApplyFilter(shot, selectedFilter)]
        && captured == old(captured) + (if |old(selectedPhotos)| >= 9 then [Batch(old(selectedPhotos))] else [])
      ensures hasCameraRef && !multiPhotoMode ==>
        selectedPhotos == old(selectedPhotos) && captured == old(captured) + [Single(ApplyFilter(shot, selectedFilter))]
    {
      if hasCameraRef {
        var processed := ApplyFilter(shot, selectedFilter);
        if multiPhotoMode {
          var before := selectedPhotos;
          selectedPhotos := selectedPhotos + [processed];
          if |before| >= 9 {
            captured := captured + [Batch(before)];
          }
        } else {
          captured := captured + [Single(processed)];
        }
      }
    }

    /**
     * `createBoomerang` with the ten pictures the camera returns: the frames
     * are collected, copied, reversed in place and appended to the copy.
     * The source reads `cameraRef.current` without a test here; its button is
     * rendered only inside the mounted camera view, hence `hasCameraRef`.
     */
    method CreateBoomerang(shots: seq<Photo>) returns (clip: seq<Photo>)
      requires hasCameraRef && |shots| == BoomerangShots
      modifies this`gifFrames, this`captured
      ensures clip == Boomerang(shots) && |clip| == 20
      ensures gifFrames == clip && captured == old(captured) + [BoomerangClip(clip)]
    {
      var frames := new Photo[BoomerangShots](i => Photo(""));
      for i := 0 to BoomerangShots
        modifies frames
        invariant forall k :: 0 <= k < i ==> frames[k] == shots[k]
      {
        frames[i] := shots[i];
      }
      assert frames[..] == shots;
      var forwards := frames[..];
      ReverseInPlace(frames);
      clip := forwards + frames[..];
      gifFrames := clip;
      captured := captured + [BoomerangClip(clip)];
    }
  }
}
