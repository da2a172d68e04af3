/** The Spotify widget object (Widgets/Spotify.cs), whose methods update its
    fields in place. Each method is proved against the function of
    `SpotifyUpdate` that states what it does to the whole state. */
module SpotifyWidget {
  import opened Wrappers
  import opened SpotifyTypes
  import opened SpotifyUpdate

  class Spotify {
    var accessToken: Option<string>
    var client: Option<Client>
    var nextAccessTokenRefresh: Time
    var cachedCurrentlyPlaying: Option<CurrentlyPlaying>
    var artImage: Option<Bitmap>
    var artImageBlurred: Option<Bitmap>
    var renderArtBig: bool
    /** The notifications handed to `OnNotify`, oldest first. */
    var notifications: seq<Notification>

    function State(): WidgetState
      reads this
    {
      WidgetState(accessToken, client, nextAccessTokenRefresh, cachedCurrentlyPlaying,
                  artImage, artImageBlurred, renderArtBig, notifications)
    }

    /** The background refresh loop the constructor starts is `UpdateTask` below. */
    constructor ()
      ensures State() == InitialState
      ensures Valid(State())
    {
      accessToken := None;
      client := None;
      nextAccessTokenRefresh := 0;
      cachedCurrentlyPlaying := None;
      artImage := None;
      artImageBlurred := None;
      renderArtBig := false;
      notifications := [];
    }

    method HandleAction()
      modifies this`renderArtBig
      ensures State() == ToggleMode(old(State()))
    {
      renderArtBig := !renderArtBig;
    }

    method RefreshAccessToken(resp: TokenResponse, now: Time)
      modifies this`accessToken, this`nextAccessTokenRefresh
      ensures State() == ApplyTokenResponse(old(State()), resp, now)
    {
      if resp.isSuccess {
        accessToken := Some(resp.accessToken);
        nextAccessTokenRefresh := now + resp.expiresInSeconds * TicksPerSecond;
      }
    }

    method UpdateCachedCurrentlyPlaying(t: PollInputs) returns (outcome: Outcome)
      modifies this
      ensures StepResult(State(), outcome) == UpdateStep(old(State()), t)
    {
      if accessToken.None? || client.None? || t.now > nextAccessTokenRefresh {
        RefreshAccessToken(t.token, t.tokenNow);
        client := Some(Client(accessToken));
      }
      var fetched := t.fetched;
      if fetched.None? || fetched.value.item.None? {
        cachedCurrentlyPlaying := None;
        return Completed;
      }
      if cachedCurrentlyPlaying.Some? {
        if cachedCurrentlyPlaying.value.item.None? {
          return Threw(NullReference);
        }
        if fetched.value.item.value.id == cachedCurrentlyPlaying.value.item.value.id {
          cachedCurrentlyPlaying := fetched;
          return Completed;
        }
      }
      cachedCurrentlyPlaying := fetched;
      var item := fetched.value.item.value;
      if |item.images| == 0 {
        return Threw(IndexPastEnd);
      }
      var artUrl := item.images[0];
      artImage := Some(Downloaded(artUrl));
      artImageBlurred := Some(Blurred(Downloaded(artUrl), BlurRadius));
      var artist := ArtistName(item);
      if artist.None? {
        return Threw(IndexPastEnd);
      }
      var notif := Notification(CollectionName(item) + "\n" + artist.value, artImage, Square,
                                NotifyDurationMs, item.name);
      notifications := notifications + [notif];
      outcome := Completed;
    }

    /** The first `|polls|` iterations of the refresh loop; an exception ends it. */
    method UpdateTask(polls: seq<PollInputs>) returns (outcome: Outcome)
      modifies this
      ensures StepResult(State(), outcome) == Run(old(State()), polls)
    {
      outcome := Completed;
      var i := 0;
      while i < |polls|
        invariant 0 <= i <= |polls|
        invariant outcome.Completed?
        invariant Run(old(State()), polls) == Run(State(), polls[i..])
      {
        assert polls[i..][1..] == polls[i + 1..];
        outcome := UpdateCachedCurrentlyPlaying(polls[i]);
        if outcome.Threw? {
          return;
        }
        i := i + 1;
      }
    }
  }
}
