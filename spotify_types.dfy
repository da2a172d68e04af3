/** The entities of the Spotify now-playing widget (Widgets/Spotify.cs), as values. */
module SpotifyTypes {
  import opened Wrappers

  /** A `DateTime`, counted in ticks of 100 ns. */
  type Time = int

  const TicksPerSecond: int := 10_000_000

  /** The item the player reports: a track (with its album) or a podcast episode
      (with its show). `images` are the image URLs of the album or the show. */
  datatype PlayableItem =
    | Track(id: string, name: string, artists: seq<string>, albumName: string, images: seq<string>)
    | Episode(id: string, name: string, publisher: string, showName: string, images: seq<string>)

  /** A `CurrentlyPlaying` response of the Web API. */
  datatype CurrentlyPlaying = CurrentlyPlaying(isPlaying: bool, progressMs: int, item: Option<PlayableItem>)

  /** An image handle: the bitmap decoded from the bytes downloaded from a URL, or a
      Gaussian blur of another bitmap with a given radius. */
  datatype Bitmap = Downloaded(url: string) | Blurred(source: Bitmap, radius: int)

  /** The radius `GaussianBlur.Process` is called with. */
  const BlurRadius: int := 20

  datatype IconStyle = Square

  /** A notification handed to `OnNotify`. */
  datatype Notification = Notification(message: string, icon: Option<Bitmap>, style: IconStyle,
                                       durationMs: int, title: string)

  /** The widget's `NotifyDurationMs`. */
  const NotifyDurationMs: int := 1000

  /** A `SpotifyClient`, built from the access token it was given. */
  datatype Client = Client(accessToken: Option<string>)

  /** The answer of the token endpoint: its status and, on success, the parsed
      `access_token` and `expires_in` fields. */
  datatype TokenResponse = TokenResponse(isSuccess: bool, accessToken: string, expiresInSeconds: int)

  /** All fields of the widget that its methods change, plus the notifications it
      has emitted so far, oldest first. */
  datatype WidgetState = WidgetState(
    accessToken: Option<string>,
    client: Option<Client>,
    nextAccessTokenRefresh: Time,
    cached: Option<CurrentlyPlaying>,
    artImage: Option<Bitmap>,
    artImageBlurred: Option<Bitmap>,
    renderArtBig: bool,
    notifications: seq<Notification>)

  /** The state of a freshly constructed widget: every reference null, compact
      mode, `nextAccessTokenRefresh` at `DateTime`'s default value. */
  const InitialState: WidgetState :=
    WidgetState(None, None, 0, None, None, None, false, [])

  /** The cache never holds a response without an item: a response whose item is
      null clears the cache instead. */
  predicate Valid(s: WidgetState) {
    s.cached.Some? ==> s.cached.value.item.Some?
  }

  /** The identity used for change detection: the track id or episode id of the
      item, whatever the item's type. */
  function Identity(c: Option<CurrentlyPlaying>): Option<string> {
    if c.Some? && c.value.item.Some? then Some(c.value.item.value.id) else None
  }

  /** The URL of the first image of the album (track) or show (episode), or
      `None` when that list is empty and `Images[0]` throws. */
  function ArtUrl(item: PlayableItem): (r: Option<string>)
    ensures r.Some? <==> |item.images| > 0
    ensures r.Some? ==> r.value == item.images[0]
  {
    if |item.images| == 0 then None else Some(item.images[0])
  }

  /** What the widget shows under the title: album name (track) or show name (episode). */
  function CollectionName(item: PlayableItem): string {
    match item
    case Track(_, _, _, albumName, _) => albumName
    case Episode(_, _, _, showName, _) => showName
  }

  /** The artist line: the first artist of a track, the publisher of an episode;
      `None` when a track has no artist and `Artists[0]` throws. */
  function ArtistName(item: PlayableItem): (r: Option<string>)
    ensures item.Episode? ==> r == Some(item.publisher)
    ensures item.Track? ==> (r.Some? <==> |item.artists| > 0)
    ensures item.Track? && r.Some? ==> r.value == item.artists[0]
  {
    match item
    case Track(_, _, artists, _, _) => if |artists| == 0 then None else Some(artists[0])
    case Episode(_, _, publisher, _, _) => Some(publisher)
  }

  /** The two-line text `"{album}\n{artist}"` used both by the notification
      message and by the compact layout. */
  function SubtitleText(item: PlayableItem): (r: Option<string>)
    ensures item.Track? ==> (r.Some? <==> |item.artists| > 0)
    ensures item.Track? && r.Some? ==> r.value == item.albumName + "\n" + item.artists[0]
    ensures item.Episode? ==> r == Some(item.showName + "\n" + item.publisher)
  {
    match ArtistName(item)
    case None => None
    case Some(artist) => Some(CollectionName(item) + "\n" + artist)
  }
}
