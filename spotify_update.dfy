/** The decision logic of the Spotify widget's background refresh
    (`UpdateCachedCurrentlyPlaying`, `RefreshAccessToken`, Widgets/Spotify.cs:135-195)
    as functions on `WidgetState`. The network answers (token endpoint, currently
    playing) and the clock are inputs. */
module SpotifyUpdate {
  import opened Wrappers
  import opened SpotifyTypes

  datatype StepResult = StepResult(state: WidgetState, outcome: Outcome)

  /** The inputs of one iteration of the refresh loop: the clock when the token is
      checked, what the token endpoint answers if it is asked, the clock when that
      answer is in, and what the currently-playing request returns (null or not). */
  datatype PollInputs = PollInputs(now: Time, token: TokenResponse, tokenNow: Time, fetched: Option<CurrentlyPlaying>)

  /** The action handler's change: the layout flag flips and nothing else changes. */
  function ToggleMode(s: WidgetState): (r: WidgetState)
    ensures r.renderArtBig == !s.renderArtBig
    ensures r.(renderArtBig := s.renderArtBig) == s
  {
    s.(renderArtBig := !s.renderArtBig)
  }

  /** Two actions restore the original layout. */
  lemma ToggleTwiceRestores(s: WidgetState)
    ensures ToggleMode(ToggleMode(s)) == s
  {
  }

  /** A new access token is requested iff there is none, there is no client, or
      the refresh deadline has passed. */
  predicate NeedsTokenRefresh(s: WidgetState, now: Time) {
    s.accessToken.None? || s.client.None? || now > s.nextAccessTokenRefresh
  }

  /** `RefreshAccessToken` given the endpoint's answer and the clock. */
  function ApplyTokenResponse(s: WidgetState, resp: TokenResponse, now: Time): (r: WidgetState)
    ensures resp.isSuccess ==> r.accessToken == Some(resp.accessToken)
    ensures resp.isSuccess ==> r.nextAccessTokenRefresh == now + resp.expiresInSeconds * TicksPerSecond
    ensures !resp.isSuccess ==> r == s
    ensures r.(accessToken := s.accessToken, nextAccessTokenRefresh := s.nextAccessTokenRefresh) == s
  {
    if resp.isSuccess then
      s.(accessToken := Some(resp.accessToken),
         nextAccessTokenRefresh := now + resp.expiresInSeconds * TicksPerSecond)
    else s
  }

  /** The token check at the head of `UpdateCachedCurrentlyPlaying`: when a refresh
      is due, refresh and rebuild the client from whatever token there is now. */
  function EnsureToken(s: WidgetState, now: Time, resp: TokenResponse, tokenNow: Time): (r: WidgetState)
    ensures !NeedsTokenRefresh(s, now) ==> r == s
    ensures NeedsTokenRefresh(s, now) ==> r.client == Some(Client(r.accessToken))
    ensures NeedsTokenRefresh(s, now) ==> r.(client := s.client) == ApplyTokenResponse(s, resp, tokenNow)
  {
    if NeedsTokenRefresh(s, now) then
      var t := ApplyTokenResponse(s, resp, tokenNow);
      t.(client := Some(Client(t.accessToken)))
    else s
  }

  /** After a successful refresh, no token is requested again until the clock
      passes `expires_in` seconds after the answer came in, and one is requested
      as soon as it does. */
  lemma TokenValidUntilExpiry(s: WidgetState, now: Time, resp: TokenResponse, tokenNow: Time, later: Time)
    requires NeedsTokenRefresh(s, now) && resp.isSuccess
    ensures var s1 := EnsureToken(s, now, resp, tokenNow);
            NeedsTokenRefresh(s1, later) <==> later > tokenNow + resp.expiresInSeconds * TicksPerSecond
  {
  }

  /** The notification for a newly playing item, carrying the art just assigned. */
  function NotificationFor(item: PlayableItem, art: Bitmap): (r: Option<Notification>)
    ensures r.Some? <==> SubtitleText(item).Some?
    ensures r.Some? ==> r.value.icon == Some(art) && r.value.title == item.name
    ensures r.Some? ==> r.value.style == Square && r.value.durationMs == NotifyDurationMs
    ensures r.Some? ==> r.value.message == CollectionName(item) + "\n" + ArtistName(item).value
  {
    match SubtitleText(item)
    case None => None
    case Some(message) => Some(Notification(message, Some(art), Square, NotifyDurationMs, item.name))
  }

  /** What `UpdateCachedCurrentlyPlaying` does with the currently-playing answer
      once the client exists (Widgets/Spotify.cs:143-169). */
  function ApplyFetch(s: WidgetState, fetched: Option<CurrentlyPlaying>): (r: StepResult)
    // nothing playing: the cache is cleared and nothing else changes
    ensures Identity(fetched).None? ==> r == StepResult(s.(cached := None), Completed)
    // same item (by id, whatever its type): only the snapshot is replaced
    ensures Valid(s) && Identity(fetched).Some? && Identity(fetched) == Identity(s.cached) ==>
              r == StepResult(s.(cached := fetched), Completed)
    // new item, or empty cache: snapshot, art and blurred art replaced, then one notification
    ensures Valid(s) && Identity(fetched).Some? && Identity(fetched) != Identity(s.cached) ==>
              var item := fetched.value.item.value;
              && r.state.cached == fetched
              && (|item.images| == 0 ==>
                    r.state.artImage == s.artImage && r.state.artImageBlurred == s.artImageBlurred)
              && (|item.images| > 0 ==>
                    && r.state.artImage == Some(Downloaded(item.images[0]))
                    && r.state.artImageBlurred == Some(Blurred(Downloaded(item.images[0]), BlurRadius)))
              && (r.outcome.Completed? <==> |item.images| > 0 && SubtitleText(item).Some?)
              && (r.outcome.Completed? ==>
                    r.state.notifications == s.notifications + [NotificationFor(item, Downloaded(item.images[0])).value])
    // an exception is never followed by a notification
    ensures r.outcome.Threw? ==> r.state.notifications == s.notifications
    // a notification is only ever emitted with the art that is in place when it is
    ensures |r.state.notifications| > |s.notifications| ==>
              r.state.notifications[|s.notifications|].icon == r.state.artImage
    // art changes only together with a notification or an exception right after
    ensures r.outcome.Completed? && r.state.artImage != s.artImage ==>
              |r.state.notifications| == |s.notifications| + 1
    ensures s.notifications <= r.state.notifications && |r.state.notifications| <= |s.notifications| + 1
    ensures r.state.accessToken == s.accessToken && r.state.client == s.client
    ensures r.state.nextAccessTokenRefresh == s.nextAccessTokenRefresh
    ensures r.state.renderArtBig == s.renderArtBig
    ensures Valid(s) ==> Valid(r.state)
    ensures r.outcome.Completed? ==> Identity(r.state.cached) == Identity(fetched)
  {
    if fetched.None? || fetched.value.item.None? then
      StepResult(s.(cached := None), Completed)
    else if s.cached.Some? && s.cached.value.item.None? then
      // `cachedCurrentlyPlaying.Item.Type` on a null item
      StepResult(s, Threw(NullReference))
    else if s.cached.Some? && Identity(fetched) == Identity(s.cached) then
      StepResult(s.(cached := fetched), Completed)
    else
      var item := fetched.value.item.value;
      var s1 := s.(cached := fetched);
      match ArtUrl(item)
      case None => StepResult(s1, Threw(IndexPastEnd))
      case Some(url) =>
        var art := Downloaded(url);
        var s2 := s1.(artImage := Some(art), artImageBlurred := Some(Blurred(art, BlurRadius)));
        match NotificationFor(item, art)
        case None => StepResult(s2, Threw(IndexPastEnd))
        case Some(n) => StepResult(s2.(notifications := s2.notifications + [n]), Completed)
  }

  /** One call of `UpdateCachedCurrentlyPlaying`. */
  function UpdateStep(s: WidgetState, t: PollInputs): (r: StepResult)
    ensures r.state.renderArtBig == s.renderArtBig
    ensures s.notifications <= r.state.notifications
    ensures Valid(s) ==> Valid(r.state)
  {
    ApplyFetch(EnsureToken(s, t.now, t.token, t.tokenNow), t.fetched)
  }

  /** The first `|polls|` iterations of `UpdateTask`; an exception ends the loop. */
  function Run(s: WidgetState, polls: seq<PollInputs>): (r: StepResult)
    ensures r.state.renderArtBig == s.renderArtBig
    ensures s.notifications <= r.state.notifications
    ensures Valid(s) ==> Valid(r.state)
    decreases |polls|
  {
    if polls == [] then StepResult(s, Completed)
    else
      var r0 := UpdateStep(s, polls[0]);
      if r0.outcome.Threw? then r0 else Run(r0.state, polls[1..])
  }

  function Fetches(polls: seq<PollInputs>): (r: seq<Option<CurrentlyPlaying>>)
    ensures |r| == |polls|
    ensures forall i :: 0 <= i < |polls| ==> r[i] == polls[i].fetched
  {
    seq(|polls|, i requires 0 <= i < |polls| => polls[i].fetched)
  }

  /** Reference count of the changes of playing item along a sequence of answers,
      starting from the identity `prev` of the cached item: an answer with an item
      whose id is not the previous one's is a change; an empty answer forgets the
      previous id. */
  function CountChanges(prev: Option<string>, fetches: seq<Option<CurrentlyPlaying>>): nat
    decreases |fetches|
  {
    if fetches == [] then 0
    else
      var id := Identity(fetches[0]);
      (if id.Some? && id != prev then 1 else 0) + CountChanges(id, fetches[1..])
  }

  /** Over a run that raises no exception, exactly one notification is emitted per
      change of playing item, and none otherwise. */
  lemma {:induction false} RunNotifiesOncePerChange(s: WidgetState, polls: seq<PollInputs>)
    requires Valid(s)
    requires Run(s, polls).outcome.Completed?
    ensures |Run(s, polls).state.notifications|
            == |s.notifications| + CountChanges(Identity(s.cached), Fetches(polls))
    decreases |polls|
  {
    if polls != [] {
      var s1 := EnsureToken(s, polls[0].now, polls[0].token, polls[0].tokenNow);
      var r0 := ApplyFetch(s1, polls[0].fetched);
      assert Identity(s1.cached) == Identity(s.cached);
      RunNotifiesOncePerChange(r0.state, polls[1..]);
      assert Fetches(polls)[1..] == Fetches(polls[1..]);
    }
  }

  /** While the player keeps reporting the cached item, the art is never recomputed
      and no notification is emitted; the cache holds the latest answer. */
  lemma {:induction false} SameItemRunKeepsArt(s: WidgetState, polls: seq<PollInputs>)
    requires Valid(s) && Identity(s.cached).Some?
    requires forall i :: 0 <= i < |polls| ==> Identity(polls[i].fetched) == Identity(s.cached)
    ensures Run(s, polls).outcome.Completed?
    ensures Run(s, polls).state.artImage == s.artImage
    ensures Run(s, polls).state.artImageBlurred == s.artImageBlurred
    ensures Run(s, polls).state.notifications == s.notifications
    ensures polls != [] ==> Run(s, polls).state.cached == polls[|polls| - 1].fetched
    decreases |polls|
  {
    if polls != [] {
      var r0 := UpdateStep(s, polls[0]);
      assert Identity(r0.state.cached) == Identity(s.cached);
      SameItemRunKeepsArt(r0.state, polls[1..]);
    }
  }

  /** After an answer with nothing playing, the next answer with an item always
      notifies, with that item's art. */
  lemma ClearedThenPlayingNotifies(s: WidgetState, t1: PollInputs, t2: PollInputs)
    requires Identity(t1.fetched).None?
    requires Identity(t2.fetched).Some?
    requires |t2.fetched.value.item.value.images| > 0
    requires SubtitleText(t2.fetched.value.item.value).Some?
    ensures var s1 := UpdateStep(s, t1).state;
            var r2 := UpdateStep(s1, t2);
            var item := t2.fetched.value.item.value;
            && r2.outcome.Completed?
            && r2.state.notifications
               == s1.notifications + [NotificationFor(item, Downloaded(item.images[0])).value]
  {
  }
}
