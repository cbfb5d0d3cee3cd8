/** The media-session side of the overlay service: which of the platform's
    active controllers gets bound, and the values `sync` republishes from
    the bound one (playing flag, artwork, app icon).
    A controller is reduced to a snapshot of what the service reads from it. */
module MediaSessions {
  import opened Values

  /** Identity of a media session; two controllers are the same controller
      exactly when their ids agree. */
  type SessionId = nat

  /** The platform's `PlaybackState.STATE_*` codes. */
  datatype PlaybackCode =
    | StateNone | Stopped | Paused | Playing | FastForwarding | Rewinding
    | Buffering | Error | Connecting | SkippingToPrevious | SkippingToNext
    | SkippingToQueueItem

  /** Opaque image handles: their pixels are not part of the model. */
  datatype Bitmap = Bitmap(id: nat)
  datatype Drawable = Drawable(id: nat)

  /** `MediaMetadata`, reduced to the two bitmap keys the service reads. */
  datatype Metadata = Metadata(albumArt: Option<Bitmap>, art: Option<Bitmap>)

  /** A `MediaController` as the service sees it at one instant: its session,
      its owning package, its `playbackState?.state` and its `metadata`
      (either of the last two may be null). */
  datatype Controller = Controller(
    id: SessionId,
    packageName: string,
    playback: Option<PlaybackCode>,
    metadata: Option<Metadata>)

  /** What the package manager can resolve: installed package name to icon.
      A name outside the map is a lookup that throws. */
  type PackageIcons = map<string, Drawable>

  /** The states that count as "music is playing". */
  predicate IsActive(p: Option<PlaybackCode>) {
    p == Some(Playing) || p == Some(Buffering)
  }

  /** `cs[i]` is playing or buffering and no controller before it is. */
  predicate IsFirstActive(cs: seq<Controller>, i: int) {
    0 <= i < |cs| && IsActive(cs[i].playback)
    && forall j :: 0 <= j < i ==> !IsActive(cs[j].playback)
  }

  /** Index of the first controller whose state is PLAYING or BUFFERING
      (Kotlin's `find`). */
  function FirstActive(cs: seq<Controller>): (r: Option<nat>)
    ensures r.Some? ==> r.value < |cs| && IsActive(cs[r.value].playback)
    ensures r.Some? ==> forall j :: 0 <= j < r.value ==> !IsActive(cs[j].playback)
    ensures r.None? ==> forall j :: 0 <= j < |cs| ==> !IsActive(cs[j].playback)
  {
    if cs == [] then None
    else if IsActive(cs[0].playback) then Some(0)
    else
      match FirstActive(cs[1..])
      case None => None
      case Some(k) => Some(k + 1)
  }

  /** The controller `refresh` binds: the first playing or buffering one,
      else the first of the list, else none (`find { … } ?: firstOrNull()`).
      The three cases below are exhaustive, so they fix the result. */
  function Select(cs: seq<Controller>): (r: Option<Controller>)
    ensures |cs| == 0 ==> r == None
    ensures forall i :: IsFirstActive(cs, i) ==> r == Some(cs[i])
    ensures |cs| > 0 && (forall j :: 0 <= j < |cs| ==> !IsActive(cs[j].playback)) ==> r == Some(cs[0])
  {
    match FirstActive(cs)
    case Some(i) => Some(cs[i])
    case None => if cs == [] then None else Some(cs[0])
  }

  /** Artwork: the ALBUM_ART bitmap, else the ART bitmap, else none. */
  function ArtworkOf(meta: Option<Metadata>): (r: Option<Bitmap>)
    ensures r.None? <==> meta.None? || (meta.value.albumArt.None? && meta.value.art.None?)
    ensures meta.Some? && meta.value.albumArt.Some? ==> r == meta.value.albumArt
    ensures meta.Some? && meta.value.albumArt.None? ==> r == meta.value.art
  {
    match meta
    case None => None
    case Some(m) => if m.albumArt.Some? then m.albumArt else m.art
  }

  /** Icon of the owning package; a failed lookup yields none, not an error. */
  function IconOf(icons: PackageIcons, packageName: string): (r: Option<Drawable>)
    ensures r.None? <==> packageName !in icons
    ensures r.Some? ==> r.value == icons[packageName]
  {
    if packageName in icons then Some(icons[packageName]) else None
  }

  /** The three fields `sync` republishes. */
  datatype Derived = Derived(playing: bool, art: Option<Bitmap>, icon: Option<Drawable>)

  /** What `sync` computes from the bound controller. */
  function SyncFields(c: Controller, icons: PackageIcons): (d: Derived)
    ensures d.playing <==> c.playback == Some(Playing) || c.playback == Some(Buffering)
    ensures c.metadata.None? ==> d.art.None?
    ensures c.metadata.Some? && c.metadata.value.albumArt.Some? ==> d.art == c.metadata.value.albumArt
    ensures c.metadata.Some? && c.metadata.value.albumArt.None? ==> d.art == c.metadata.value.art
    ensures d.icon == (if c.packageName in icons then Some(icons[c.packageName]) else None)
  {
    Derived(IsActive(c.playback), ArtworkOf(c.metadata), IconOf(icons, c.packageName))
  }
}
