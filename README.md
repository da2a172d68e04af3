# ESP_LCD_Server display widgets — decision logic in Dafny

ESP_LCD_Server draws small bitmaps for a remote LCD. This project models the decision logic of its two display widgets. The drawing, the network and the clock are inputs to the model or are left out.

- **Spotify now-playing widget** (`Widgets/Spotify.cs`).
  - The object's fields are the access token, the client, the token deadline, the cached currently-playing answer, the art and the blurred art, and the layout flag. The notifications handed to `OnNotify` are modelled as a log.
  - Class `SpotifyWidget.Spotify` holds these fields. Its methods update them step by step, as the C# does.
  - Each method is proved against a function of `SpotifyUpdate` that gives the whole new state: `ToggleMode`, `ApplyTokenResponse`, `UpdateStep`, `Run`.
  - Lemmas about those functions state the widget's promises:
    - the art is recomputed and one notification emitted exactly when the playing item's id changes;
    - the same item never triggers a notification;
    - the token is refreshed exactly when it has expired or is missing.
  - `SpotifyRender.RenderFrame` is a pure function from the widget state to the list of drawing calls `RenderFrame` makes. Lemmas give its four branches.
- **Weather page** (`PageWeather.cs`).
  - `Weather.GetTemperatureColour` is the integer linear colour ramp from blue at 0 °C to red at 30 °C, on exact rationals with truncation toward zero.
  - `Weather.PageWeather` is the page object. It has the update step of the background loop, the render with its blank-frame guard, and the no-op action.

Item types are a datatype: `Track` or `Episode`. Both carry `id`, `name` and `images`, the album's or the show's image URLs. A downloaded image is the handle `Downloaded(url)`. A blurred one is `Blurred(source, 20)`. Time is a `DateTime` in 100 ns ticks.

Exceptions that the widgets' own code raises are modelled as an `Outcome` of `Threw(fault)`. Examples are `Images[0]` or `Artists[0]` on an empty list, and a null item. The fields assigned before the throw keep their new values, as in C#. In a `Run`, the first exception ends the refresh loop.

`GetTemperatureColour` does not clamp the temperature to 0..30 °C. For 31 °C its formula computes the channels (263, 0, −8), see `Weather.ColourNotClamped`. `Color.FromArgb` rejects such a colour with an `ArgumentException`, so the weather render throws before drawing anything, leaving the blank frame, whenever the truncated temperature is below 0 °C or above 30 °C. The model includes this: `Weather.InGamut` is the check `FromArgb` makes, and `Weather.ColourInGamutIffInRange` shows the colour passes it exactly on 0..30 °C.

## Model

| member | source | states |
|---|---|---|
| `SpotifyUpdate.ToggleMode` | ESP_LCD_Server/Widgets/Spotify.cs:42-48 | the action negates the layout flag and changes nothing else |
| `SpotifyUpdate.ToggleTwiceRestores` | ESP_LCD_Server/Widgets/Spotify.cs:46 | two actions restore the original state |
| `SpotifyWidget.Spotify.HandleAction` | ESP_LCD_Server/Widgets/Spotify.cs:42-48 | the new object state is `ToggleMode` of the old one |
| `SpotifyUpdate.ApplyTokenResponse` | ESP_LCD_Server/Widgets/Spotify.cs:188-194 | on success: the token is the answer's token and the deadline is `now + expires_in` seconds; on failure: the state is unchanged; never any other field |
| `SpotifyWidget.Spotify.RefreshAccessToken` | ESP_LCD_Server/Widgets/Spotify.cs:176-195 | the new object state is `ApplyTokenResponse` of the old one |
| `SpotifyUpdate.EnsureToken` | ESP_LCD_Server/Widgets/Spotify.cs:137-141 | with no token, no client or a passed deadline: refresh, then the client is rebuilt from the current token; otherwise nothing changes |
| `SpotifyUpdate.TokenValidUntilExpiry` | ESP_LCD_Server/Widgets/Spotify.cs:137-194 | after a successful refresh, a refresh is due again exactly when the clock passes answer time + `expires_in` seconds |
| `SpotifyUpdate.NotificationFor` | ESP_LCD_Server/Widgets/Spotify.cs:167-169 | message is album (or show) name, newline, first artist (or publisher); title is the item name; square icon; 1000 ms; the icon is the art passed in; none when a track has no artist |
| `SpotifyTypes.SubtitleText` | ESP_LCD_Server/Widgets/Spotify.cs:96-109 | the album/show line and the artist/publisher line for a track or an episode; absent exactly when a track has no artist |
| `SpotifyUpdate.ApplyFetch` | ESP_LCD_Server/Widgets/Spotify.cs:142-169 | null answer or null item: the cache is cleared and nothing else changes. Same id as the cache, whatever the item type: only the snapshot is replaced. New id or empty cache: the snapshot is replaced; with no image it throws and art and blurred art are kept; otherwise art from the first image and its blur are replaced, then exactly one notification carrying that art, or an exception when there is no artist. No exception is followed by a notification. The token is never touched. The cache invariant is kept. |
| `SpotifyUpdate.UpdateStep` | ESP_LCD_Server/Widgets/Spotify.cs:135-170 | one update keeps the layout flag and the invariant, and only appends to the notification log |
| `SpotifyWidget.Spotify.UpdateCachedCurrentlyPlaying` | ESP_LCD_Server/Widgets/Spotify.cs:135-170 | the new object state and the outcome are those of `UpdateStep` |
| `SpotifyUpdate.Run` | ESP_LCD_Server/Widgets/Spotify.cs:122-129 | over any number of loop iterations, the layout flag and the cache invariant are kept and the log only grows |
| `SpotifyWidget.Spotify.UpdateTask` | ESP_LCD_Server/Widgets/Spotify.cs:122-129 | the loop's iterations, up to the first exception, end in the state and outcome of `Run` |
| `SpotifyWidget.Spotify.constructor` | ESP_LCD_Server/Widgets/Spotify.cs:17-40 | a new widget has no token, client, cache, art or notifications, and is in compact mode |
| `SpotifyUpdate.RunNotifiesOncePerChange` | ESP_LCD_Server/Widgets/Spotify.cs:149-169 | over a run without exception, the number of notifications equals the number of changes of item id counted by the reference definition `CountChanges` |
| `SpotifyUpdate.SameItemRunKeepsArt` | ESP_LCD_Server/Widgets/Spotify.cs:149-155 | while every answer has the cached item's id: no exception, art and blurred art untouched, no notification, and the cache holds the last answer |
| `SpotifyUpdate.ClearedThenPlayingNotifies` | ESP_LCD_Server/Widgets/Spotify.cs:143-169 | after a "nothing playing" answer, the next answer with an item (with an image and an artist) always emits exactly one notification |
| `SpotifyRender.RenderFrame` | ESP_LCD_Server/Widgets/Spotify.cs:50-117 | every frame starts with the black background, and only the compact layout of a cached answer can throw; its four branches are stated by the four lemmas below |
| `SpotifyTypes.ArtUrl` | ESP_LCD_Server/Widgets/Spotify.cs:159 | the art URL is the first album (track) or show (episode) image, and is absent exactly when that list is empty |
| `SpotifyTypes.ArtistName` | ESP_LCD_Server/Widgets/Spotify.cs:96-109 | the first artist of a track, absent exactly when it has none; the publisher of an episode |
| `SpotifyRender.EmptyCacheShowsPlaceholder` | ESP_LCD_Server/Widgets/Spotify.cs:52-63 | with an empty cache, the frame is exactly the black background and the "Nothing is playing" text |
| `SpotifyRender.LargeModeDrawsNoText` | ESP_LCD_Server/Widgets/Spotify.cs:65-77 | large mode never throws and draws no text except the pause glyph; it draws the art at 128×128 iff there is art, and no other image (no blurred art) |
| `SpotifyRender.PauseOverlayIffPaused` | ESP_LCD_Server/Widgets/Spotify.cs:71-95 | in both layouts, the pause glyph is drawn iff the player is not playing |
| `SpotifyRender.CompactModeShowsFields` | ESP_LCD_Server/Widgets/Spotify.cs:78-113 | compact mode shows the item name, then album and first artist for a track or show and publisher for an episode; it throws iff the item is a track without artists, or is null |
| `Weather.Truncate` | ESP_LCD_Server/PageWeather.cs:89-91 | the `(int)` cast: the integer toward zero that lies within 1 of the value |
| `Weather.GetTemperatureColour` | ESP_LCD_Server/PageWeather.cs:81-91 | green is always 0 and red + blue is 255 for every integer temperature |
| `Weather.ColourAtLowestTemperature` | ESP_LCD_Server/PageWeather.cs:26-28 | 0 °C maps to (0, 0, 255) |
| `Weather.ColourAtHighestTemperature` | ESP_LCD_Server/PageWeather.cs:25-27 | 30 °C maps to (255, 0, 0) |
| `Weather.ColourMonotoneInRange` | ESP_LCD_Server/PageWeather.cs:83-91 | between 0 and 30 °C red is non-decreasing, blue non-increasing, and both lie in 0..255 |
| `Weather.ColourNotClamped` | ESP_LCD_Server/PageWeather.cs:83-91 | the formula does not clamp: above 30 °C red exceeds 255 and blue is negative; below 0 °C the opposite holds; 31 °C computes (263, 0, −8) |
| `Weather.ColourInGamutIffInRange` | ESP_LCD_Server/PageWeather.cs:49 | the computed colour is one `Color.FromArgb` accepts (every channel in 0..255) exactly when the temperature is in 0..30 °C |
| `Weather.RenderWeather` | ESP_LCD_Server/PageWeather.cs:39-57 | the frame always has the page's size; it is blank iff the query or the icon is missing or the colour is rejected; it completes without exception iff the query or the icon is missing (the guard of line 44), or the truncated temperature is in 0..30 °C and the query has an entry; with both present, it throws `ArgumentException` iff the truncated temperature is outside 0..30 °C, and otherwise throws iff the query has no entry; the temperature is drawn truncated, in its colour, with the cached icon |
| `Weather.PageWeather.RenderFrameAsync` | ESP_LCD_Server/PageWeather.cs:39-57 | the `frame` field and the outcome are those of `RenderWeather` on the cached fields |
| `Weather.PageWeather.HandleAction` | ESP_LCD_Server/PageWeather.cs:59-62 | the action changes no field |
| `Weather.WeatherUpdate` | ESP_LCD_Server/PageWeather.cs:70-75 | the answer is always cached; the icon becomes the first entry's icon URL iff the answer is non-null with an entry, and is otherwise kept while the step throws |
| `Weather.PageWeather.UpdateStep` | ESP_LCD_Server/PageWeather.cs:70-75 | the cached query, icon and outcome are those of `WeatherUpdate` |
| `Weather.PageWeather.Draw` | ESP_LCD_Server/PageWeather.cs:50-55 | one drawing call appends its command to the frame and keeps the frame's size |
| `Weather.UpdatedPageRendersFully` | ESP_LCD_Server/PageWeather.cs:39-79 | after a successful update, the render completes iff the truncated temperature is in 0..30 °C, and then has all six drawing calls, showing the new icon and the first entry's description |
| `Weather.PageWeather.constructor` | ESP_LCD_Server/PageWeather.cs:33-37 | a new page has no query, icon or frame |

Helpers without a row, each used by the members above:
- `SpotifyTypes.Identity` is the id comparison of Widgets/Spotify.cs:151.
- `SpotifyTypes.CollectionName` is the album or show name of Widgets/Spotify.cs:101-108 and 167.
- `SpotifyUpdate.NeedsTokenRefresh` is the condition of Widgets/Spotify.cs:137.
- `SpotifyUpdate.CountChanges` and `SpotifyUpdate.Fetches` are the reference count used by `RunNotifiesOncePerChange`.
- `SpotifyRender.ArtIfAny` is the null checks around `DrawImage` in Widgets/Spotify.cs:67-70 and 80-89.
- `SpotifyRender.PauseOverlay` and `SpotifyRender.PauseIfPaused` are the pause overlay of Widgets/Spotify.cs:71-76 and 90-95.
- `SpotifyRender.TextLines` is the four text calls of Widgets/Spotify.cs:110-113.
- `Weather.Channel` is one channel of the colour in PageWeather.cs:89-91.
- `Weather.IconUrl` is the icon URL built at PageWeather.cs:73.
- `Weather.Heading` is the first four drawing calls of PageWeather.cs:50-53.
- `Weather.InGamut` is the channel check `Color.FromArgb` makes.

## Left out

- Pixels: fonts, string measurement, alpha blending and the Gaussian blur belong to the drawing library. The renderers produce abstract drawing calls. The blur result is the handle `Blurred(art, 20)`.
- Network and decoding: the token POST, the Web API client, the OpenWeather query, the image download and `Image.FromStream`, and JSON parsing. Their results are inputs: `TokenResponse`, the fetched `CurrentlyPlaying` or `Query`, and `Downloaded(url)`.
- Exceptions raised by those libraries are not modelled, except the channel check of `Color.FromArgb`. Examples are a network failure, a JSON field that is missing, and `new SpotifyClient(null)`.
- `DateTime.Now` is two parameters of a step: the clock at the token check (line 137) and the clock at the token answer (line 193). `DateTime` overflow is not modelled.
- Background loops: `UpdateTask` on both pages never ends. The model covers any finite number of its iterations (`Run`, `UpdateTask(polls)`), or one iteration of the weather loop (`UpdateStep`). `Thread.Sleep` and the concurrency between the loops and the render or action paths are not modelled. Every step is atomic in the model.
- Weather.GetTemperatureColour: `float` rounding is not modelled, here or in `Weather.Truncate`. The ratio and product are exact rationals, and the temperatures and wind speed are exact reals before the `(int)` casts. With binary floats, a product that is exactly an integer in rationals may truncate to one less.
- The notification's non-owning reference to the widget, the widget's `Name`, the weather `API` construction, the `Secrets` configuration and the frame size are left out. The frame size comes from a base class that is not part of this model, so it is a parameter.
- Weather page render: `ToShortTimeString` formatting is not modelled (the times arrive as strings), and the integers are not formatted into text.
