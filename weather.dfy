/** The weather page (PageWeather.cs): the temperature-to-colour mapping, the
    background update of the cached query and icon, and the frame it draws. The
    weather service, the icon download and the drawing library are inputs or are
    abstracted to handles and commands. */
module Weather {
  import opened Wrappers

  datatype Colour = Colour(red: int, green: int, blue: int)

  const HighestTemperatureColour: Colour := Colour(255, 0, 0)
  const LowestTemperatureColour: Colour := Colour(0, 0, 255)
  const HighestTemperature: int := 30
  const LowestTemperature: int := 0

  /** C#'s `(int)` cast of a floating-point value: truncation toward zero,
      computed here on exact rationals. */
  function Truncate(x: real): (r: int)
    ensures 0.0 <= x ==> r as real <= x < r as real + 1.0
    ensures x < 0.0 ==> r as real - 1.0 < x <= r as real
  {
    if x >= 0.0 then x.Floor else -((-x).Floor)
  }

  /** One channel: the low end plus the truncated share of the channel's range. */
  function Channel(low: int, high: int, fraction: real): int {
    Truncate((high - low) as real * fraction) + low
  }

  /** `GetTemperatureColour`: linear in the temperature between blue at 0 °C and
      red at 30 °C, channel by channel, with no clamping. Since both end colours
      have no green, green is always 0; since truncation toward zero is symmetric,
      red and blue always add up to 255. */
  function GetTemperatureColour(temperature: int): (c: Colour)
    ensures c.green == 0
    ensures c.red + c.blue == 255
  {
    var temperatureRange := HighestTemperature - LowestTemperature;
    var adjustedTemperature := temperature - LowestTemperature;
    var fraction := adjustedTemperature as real / temperatureRange as real;
    Colour(Channel(LowestTemperatureColour.red, HighestTemperatureColour.red, fraction),
           Channel(LowestTemperatureColour.green, HighestTemperatureColour.green, fraction),
           Channel(LowestTemperatureColour.blue, HighestTemperatureColour.blue, fraction))
  }

  lemma ColourAtLowestTemperature()
    ensures GetTemperatureColour(LowestTemperature) == LowestTemperatureColour
  {
  }

  lemma ColourAtHighestTemperature()
    ensures GetTemperatureColour(HighestTemperature) == HighestTemperatureColour
  {
  }

  /** Between 0 °C and 30 °C red grows, blue shrinks and every channel is a byte. */
  lemma ColourMonotoneInRange(t1: int, t2: int)
    requires LowestTemperature <= t1 <= t2 <= HighestTemperature
    ensures GetTemperatureColour(t1).red <= GetTemperatureColour(t2).red
    ensures GetTemperatureColour(t1).blue >= GetTemperatureColour(t2).blue
    ensures 0 <= GetTemperatureColour(t1).red <= 255
    ensures 0 <= GetTemperatureColour(t1).blue <= 255
  {
  }

  /** `Color.FromArgb` accepts a colour only when every channel is a byte; otherwise
      it throws `ArgumentException`. */
  predicate InGamut(c: Colour) {
    0 <= c.red <= 255 && 0 <= c.green <= 255 && 0 <= c.blue <= 255
  }

  /** The mapping yields a colour `Color.FromArgb` accepts exactly on 0..30 °C. */
  lemma ColourInGamutIffInRange(t: int)
    ensures InGamut(GetTemperatureColour(t)) <==> LowestTemperature <= t <= HighestTemperature
  {
    ColourNotClamped(t);
    if LowestTemperature <= t <= HighestTemperature {
      ColourMonotoneInRange(t, t);
    }
  }

  /** Outside 0..30 °C the computed channels leave the byte range: no clamping. */
  lemma ColourNotClamped(t: int)
    ensures t > HighestTemperature ==> GetTemperatureColour(t).red > 255 && GetTemperatureColour(t).blue < 0
    ensures t < LowestTemperature ==> GetTemperatureColour(t).red < 0 && GetTemperatureColour(t).blue > 255
    ensures GetTemperatureColour(31) == Colour(263, 0, -8)
  {
  }

  /** One entry of the query's `Weathers` list. */
  datatype WeatherEntry = WeatherEntry(icon: string, description: string)

  /** The part of an OpenWeather `Query` the page reads. The sunrise and sunset
      times arrive already formatted by `ToShortTimeString`. */
  datatype Query = Query(
    name: string,
    celsiusCurrent: real,
    celsiusMaximum: real,
    celsiusMinimum: real,
    weathers: seq<WeatherEntry>,
    sunrise: string,
    sunset: string,
    windFeetPerSecond: real)

  /** An image decoded from the bytes downloaded from a URL. */
  datatype Image = Downloaded(url: string)

  function IconUrl(icon: string): string {
    "http://openweathermap.org/img/wn/" + icon + "@2x.png"
  }

  /** The drawing calls of `RenderFrameAsync`, in order. */
  datatype WeatherDraw =
    | PlaceName(name: string)
    | TemperatureText(celsius: int, colour: Colour)
    | UnitsText(colour: Colour)
    | IconImage(image: Image)
    | DescriptionText(text: string)
    | DetailsText(high: int, low: int, sunrise: string, sunset: string, windMph: int)

  /** A bitmap of the given size and what has been drawn into it. */
  datatype Frame = Frame(width: int, height: int, commands: seq<WeatherDraw>)

  datatype RenderResult = RenderResult(frame: Frame, outcome: Outcome)

  datatype UpdateResult = UpdateResult(cachedQuery: Option<Query>, weatherIcon: Option<Image>, outcome: Outcome)

  /** What the first four drawing calls are, given the query and icon. */
  function Heading(q: Query, icon: Image): seq<WeatherDraw> {
    var temperature := Truncate(q.celsiusCurrent);
    var colour := GetTemperatureColour(temperature);
    [PlaceName(q.name), TemperatureText(temperature, colour), UnitsText(colour), IconImage(icon)]
  }

  /** The frame `RenderFrameAsync` leaves in `frame`: a fresh blank bitmap unless
      both a query and an icon are cached and the temperature's colour is valid;
      drawing stops where `Weathers[0]` throws. */
  function RenderWeather(width: int, height: int, query: Option<Query>, icon: Option<Image>): (r: RenderResult)
    ensures r.frame.width == width && r.frame.height == height
    ensures (query.None? || icon.None? || !InGamut(GetTemperatureColour(Truncate(query.value.celsiusCurrent))))
            <==> r.frame.commands == []
    ensures query.Some? && icon.Some? ==>
              (r.outcome == Threw(InvalidArgument)
               <==> !(LowestTemperature <= Truncate(query.value.celsiusCurrent) <= HighestTemperature))
    ensures r.outcome.Completed? <==>
              || query.None? || icon.None?
              || (LowestTemperature <= Truncate(query.value.celsiusCurrent) <= HighestTemperature
                  && |query.value.weathers| > 0)
    ensures r.outcome == Threw(IndexPastEnd) <==>
              && query.Some? && icon.Some? && |query.value.weathers| == 0
              && InGamut(GetTemperatureColour(Truncate(query.value.celsiusCurrent)))
    ensures query.Some? && icon.Some? && InGamut(GetTemperatureColour(Truncate(query.value.celsiusCurrent))) ==>
              var t := Truncate(query.value.celsiusCurrent);
              && |r.frame.commands| >= 4
              && r.frame.commands[1] == TemperatureText(t, GetTemperatureColour(t))
              && r.frame.commands[3] == IconImage(icon.value)
  {
    if query.None? || icon.None? then
      RenderResult(Frame(width, height, []), Completed)
    else
      var q := query.value;
      ColourInGamutIffInRange(Truncate(q.celsiusCurrent));
      if !InGamut(GetTemperatureColour(Truncate(q.celsiusCurrent))) then
        // `new SolidBrush(GetTemperatureColour(...))` throws before anything is drawn
        RenderResult(Frame(width, height, []), Threw(InvalidArgument))
      else
        var heading := Heading(q, icon.value);
        if |q.weathers| == 0 then
          RenderResult(Frame(width, height, heading), Threw(IndexPastEnd))
        else
          var details := DetailsText(Truncate(q.celsiusMaximum), Truncate(q.celsiusMinimum), q.sunrise, q.sunset,
                                     Truncate(q.windFeetPerSecond / 1.467));
          RenderResult(Frame(width, height, heading + [DescriptionText(q.weathers[0].description), details]),
                       Completed)
  }

  /** One iteration of `UpdateTask`: the answer is cached first; then the icon of
      its first entry is downloaded, unless the answer is null or has no entry. */
  function WeatherUpdate(icon: Option<Image>, fetched: Option<Query>): (r: UpdateResult)
    ensures r.cachedQuery == fetched
    ensures r.outcome.Completed? <==> fetched.Some? && |fetched.value.weathers| > 0
    ensures r.outcome.Completed? ==> r.weatherIcon == Some(Downloaded(IconUrl(fetched.value.weathers[0].icon)))
    ensures r.outcome.Threw? ==> r.weatherIcon == icon
  {
    if fetched.None? then UpdateResult(fetched, icon, Threw(NullReference))
    else if |fetched.value.weathers| == 0 then UpdateResult(fetched, icon, Threw(IndexPastEnd))
    else UpdateResult(fetched, Some(Downloaded(IconUrl(fetched.value.weathers[0].icon))), Completed)
  }

  /** After a successful update the page draws its whole frame, with the new icon,
      exactly when the temperature is within 0..30 °C; otherwise the colour is
      rejected and the frame stays blank. */
  lemma UpdatedPageRendersFully(icon: Option<Image>, q: Query, width: int, height: int)
    requires WeatherUpdate(icon, Some(q)).outcome.Completed?
    ensures var u := WeatherUpdate(icon, Some(q));
            var r := RenderWeather(width, height, u.cachedQuery, u.weatherIcon);
            r.outcome.Completed? <==> LowestTemperature <= Truncate(q.celsiusCurrent) <= HighestTemperature
    ensures var u := WeatherUpdate(icon, Some(q));
            var r := RenderWeather(width, height, u.cachedQuery, u.weatherIcon);
            r.outcome.Completed? ==>
            && |r.frame.commands| == 6
            && r.frame.commands[3] == IconImage(Downloaded(IconUrl(q.weathers[0].icon)))
            && r.frame.commands[4] == DescriptionText(q.weathers[0].description)
  {
  }

  class PageWeather {
    const frameWidth: int
    const frameHeight: int
    var cachedQuery: Option<Query>
    var weatherIcon: Option<Image>
    /** The last frame rendered; none before the first render. */
    var frame: Option<Frame>

    constructor (width: int, height: int)
      ensures frameWidth == width && frameHeight == height
      ensures cachedQuery == None && weatherIcon == None && frame == None
    {
      frameWidth, frameHeight := width, height;
      cachedQuery, weatherIcon, frame := None, None, None;
    }

    method Draw(cmd: WeatherDraw)
      requires frame.Some?
      modifies this`frame
      ensures frame == Some(old(frame.value).(commands := old(frame.value.commands) + [cmd]))
    {
      frame := Some(frame.value.(commands := frame.value.commands + [cmd]));
    }

    method RenderFrameAsync() returns (outcome: Outcome)
      modifies this`frame
      ensures var r := RenderWeather(frameWidth, frameHeight, cachedQuery, weatherIcon);
              frame == Some(r.frame) && outcome == r.outcome
    {
      frame := Some(Frame(frameWidth, frameHeight, []));
      if cachedQuery.None? || weatherIcon.None? {
        return Completed;
      }
      var q := cachedQuery.value;
      var temperature := Truncate(q.celsiusCurrent);
      var colour := GetTemperatureColour(temperature);
      if !InGamut(colour) {
        return Threw(InvalidArgument);
      }
      Draw(PlaceName(q.name));
      Draw(TemperatureText(temperature, colour));
      Draw(UnitsText(colour));
      Draw(IconImage(weatherIcon.value));
      assert frame.value.commands == Heading(q, weatherIcon.value);
      if |q.weathers| == 0 {
        return Threw(IndexPastEnd);
      }
      var details := DetailsText(Truncate(q.celsiusMaximum), Truncate(q.celsiusMinimum), q.sunrise, q.sunset,
                                 Truncate(q.windFeetPerSecond / 1.467));
      Draw(DescriptionText(q.weathers[0].description));
      Draw(details);
      assert frame.value.commands == Heading(q, weatherIcon.value) + [DescriptionText(q.weathers[0].description), details];
      outcome := Completed;
    }

    /** The action does nothing. */
    method HandleAction()
      ensures cachedQuery == old(cachedQuery) && weatherIcon == old(weatherIcon) && frame == old(frame)
    {
    }

    method UpdateStep(fetched: Option<Query>) returns (outcome: Outcome)
      modifies this`cachedQuery, this`weatherIcon
      ensures UpdateResult(cachedQuery, weatherIcon, outcome) == WeatherUpdate(old(weatherIcon), fetched)
    {
      cachedQuery := fetched;
      if cachedQuery.None? {
        return Threw(NullReference);
      }
      if |cachedQuery.value.weathers| == 0 {
        return Threw(IndexPastEnd);
      }
      weatherIcon := Some(Downloaded(IconUrl(cachedQuery.value.weathers[0].icon)));
      outcome := Completed;
    }
  }
}
