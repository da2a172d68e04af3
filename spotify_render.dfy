/** `Spotify.RenderFrame` (Widgets/Spotify.cs:50-117) as a pure function from the
    widget state to the list of drawing calls it makes, in order. Pixels, fonts and
    text layout belong to the drawing library and are not modelled. */
module SpotifyRender {
  import opened Wrappers
  import opened SpotifyTypes

  datatype Rect = Rect(x: int, y: int, width: int, height: int)

  datatype Brush = BlackBrush | WhiteBrush | HalfBlackBrush
  datatype Font = SmallFont | BigFont
  /** `pauseFormat` centres the text; `stringFormat` trims it with an ellipsis. */
  datatype TextFormat = Centred | Ellipsis

  datatype DrawCmd =
    | FillRect(brush: Brush, rect: Rect)
    | DrawImage(image: Bitmap, rect: Rect)
    | DrawText(text: string, font: Font, brush: Brush, rect: Rect, format: TextFormat)

  datatype RenderResult = Rendered(commands: seq<DrawCmd>) | Failed(fault: Fault)

  const ArtSmallDims: int := 100
  const ArtLargeDims: int := 128
  const NothingPlaying: string := "Nothing is playing on Spotify :("
  const PauseGlyph: string := "| |"

  /** Where the art goes in the large layout and in the compact one. */
  const LargeArtRect: Rect := Rect(0, 16, ArtLargeDims, ArtLargeDims)
  const SmallArtRect: Rect := Rect(14, 50, ArtSmallDims, ArtSmallDims)

  function FullFrame(width: int, height: int): Rect {
    Rect(0, 0, width, height)
  }

  /** Draws the art at `rect` when there is art. */
  function ArtIfAny(art: Option<Bitmap>, rect: Rect): seq<DrawCmd> {
    if art.Some? then [DrawImage(art.value, rect)] else []
  }

  /** The pause overlay over the art: a half-black fill and the glyph drawn twice,
      one pixel apart. */
  function PauseOverlay(r: Rect): seq<DrawCmd> {
    [FillRect(HalfBlackBrush, r),
     DrawText(PauseGlyph, BigFont, WhiteBrush, r, Centred),
     DrawText(PauseGlyph, BigFont, WhiteBrush, r.(x := r.x + 1), Centred)]
  }

  function PauseIfPaused(c: CurrentlyPlaying, r: Rect): seq<DrawCmd> {
    if c.isPlaying == false then PauseOverlay(r) else []
  }

  /** Title, then the album/show and artist/publisher lines, each with a black
      shadow one pixel down and right. */
  function TextLines(title: string, subtitle: string, width: int): seq<DrawCmd> {
    [DrawText(title, BigFont, BlackBrush, Rect(1, 1, width, 16), Ellipsis),
     DrawText(title, BigFont, WhiteBrush, Rect(0, 0, width, 16), Ellipsis),
     DrawText(subtitle, SmallFont, BlackBrush, Rect(1, 17, width, 24), Ellipsis),
     DrawText(subtitle, SmallFont, WhiteBrush, Rect(0, 16, width, 24), Ellipsis)]
  }

  /** Every frame starts with the black background; only the compact layout of a
      cached answer can throw. */
  function RenderFrame(s: WidgetState, width: int, height: int): (r: RenderResult)
    ensures r.Rendered? ==> |r.commands| > 0 && r.commands[0] == FillRect(BlackBrush, FullFrame(width, height))
    ensures r.Failed? ==> s.cached.Some? && !s.renderArtBig
  {
    var background := [FillRect(BlackBrush, FullFrame(width, height))];
    if s.cached.None? then
      Rendered(background + [DrawText(NothingPlaying, BigFont, WhiteBrush, FullFrame(width, height), Centred)])
    else
      var c := s.cached.value;
      if s.renderArtBig then
        Rendered(background + ArtIfAny(s.artImage, LargeArtRect) + PauseIfPaused(c, LargeArtRect))
      else
        var art := ArtIfAny(s.artImageBlurred, Rect(-16, 0, height, height))
                   + [FillRect(HalfBlackBrush, FullFrame(width, height))]
                   + ArtIfAny(s.artImage, SmallArtRect)
                   + PauseIfPaused(c, SmallArtRect);
        if c.item.None? then Failed(NullReference)
        else
          var item := c.item.value;
          match SubtitleText(item)
          case None => Failed(IndexPastEnd)
          case Some(subtitle) => Rendered(background + art + TextLines(item.name, subtitle, width))
  }

  predicate IsPauseGlyph(c: DrawCmd) {
    c.DrawText? && c.text == PauseGlyph && c.format == Centred
  }

  predicate HasPauseGlyph(cmds: seq<DrawCmd>) {
    exists i :: 0 <= i < |cmds| && IsPauseGlyph(cmds[i])
  }

  predicate DrawsImage(cmds: seq<DrawCmd>, image: Bitmap, rect: Rect) {
    exists i :: 0 <= i < |cmds| && cmds[i] == DrawImage(image, rect)
  }

  predicate ShowsText(cmds: seq<DrawCmd>, text: string, font: Font) {
    exists i :: 0 <= i < |cmds| && cmds[i] == DrawText(text, font, WhiteBrush, cmds[i].rect, Ellipsis)
  }

  /** With nothing cached, the frame is the black background and the placeholder text. */
  lemma EmptyCacheShowsPlaceholder(s: WidgetState, width: int, height: int)
    requires s.cached.None?
    ensures RenderFrame(s, width, height)
         == Rendered([FillRect(BlackBrush, Rect(0, 0, width, height)),
                      DrawText(NothingPlaying, BigFont, WhiteBrush, Rect(0, 0, width, height), Centred)])
  {
  }

  /** The large layout never throws and draws no text but the pause glyphs; it draws
      the art at 128x128 iff there is art. */
  lemma LargeModeDrawsNoText(s: WidgetState, width: int, height: int)
    requires s.cached.Some? && s.renderArtBig
    ensures RenderFrame(s, width, height).Rendered?
    ensures forall c :: c in RenderFrame(s, width, height).commands && c.DrawText? ==> IsPauseGlyph(c)
    ensures s.artImage.Some? ==> DrawsImage(RenderFrame(s, width, height).commands, s.artImage.value, LargeArtRect)
    ensures s.artImage.None? ==> forall c :: c in RenderFrame(s, width, height).commands ==> !c.DrawImage?
    ensures forall c :: c in RenderFrame(s, width, height).commands && c.DrawImage? ==>
              s.artImage.Some? && c == DrawImage(s.artImage.value, LargeArtRect)
  {
    var cmds := RenderFrame(s, width, height).commands;
    if s.artImage.Some? {
      assert cmds[1] == DrawImage(s.artImage.value, LargeArtRect);
    }
  }

  /** The pause overlay is drawn iff the player reports that it is not playing. */
  lemma PauseOverlayIffPaused(s: WidgetState, width: int, height: int)
    requires s.cached.Some? && RenderFrame(s, width, height).Rendered?
    ensures HasPauseGlyph(RenderFrame(s, width, height).commands) <==> !s.cached.value.isPlaying
  {
    var cmds := RenderFrame(s, width, height).commands;
    var c := s.cached.value;
    if !c.isPlaying {
      var k := if s.renderArtBig then |cmds| - 2
               else |cmds| - 4 - 2;
      assert IsPauseGlyph(cmds[k]);
    } else {
      forall i | 0 <= i < |cmds| ensures !IsPauseGlyph(cmds[i]) {
      }
    }
  }

  /** The compact layout shows name, album and first artist of a track, or name,
      show and publisher of an episode; it throws only for a track without artists
      (or, if the invariant is broken, an item that is null). */
  lemma CompactModeShowsFields(s: WidgetState, width: int, height: int)
    requires s.cached.Some? && !s.renderArtBig
    ensures RenderFrame(s, width, height).Failed? <==>
              s.cached.value.item.None? || (s.cached.value.item.value.Track? && |s.cached.value.item.value.artists| == 0)
    ensures RenderFrame(s, width, height).Rendered? ==>
              var item := s.cached.value.item.value;
              var cmds := RenderFrame(s, width, height).commands;
              && ShowsText(cmds, item.name, BigFont)
              && (item.Track? ==> ShowsText(cmds, item.albumName + "\n" + item.artists[0], SmallFont))
              && (item.Episode? ==> ShowsText(cmds, item.showName + "\n" + item.publisher, SmallFont))
  {
    var r := RenderFrame(s, width, height);
    if r.Rendered? {
      var cmds := r.commands;
      var item := s.cached.value.item.value;
      assert cmds[|cmds| - 3] == DrawText(item.name, BigFont, WhiteBrush, Rect(0, 0, width, 16), Ellipsis);
      assert cmds[|cmds| - 1].text == SubtitleText(item).value;
    }
  }
}
