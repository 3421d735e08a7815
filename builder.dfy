/** `EngineBuilder`: the engine's configuration, a default literal refined by setters that each
    replace one field. */
module Builder {
  import opened Base
  import opened RawImage

  /** vulkano's `SampleCount`. */
  datatype SampleCount = Sample1 | Sample2 | Sample4 | Sample8 | Sample16 | Sample32 | Sample64

  datatype EngineBuilder = EngineBuilder(
    windowIcon: Option<RawRgbaImage>,
    windowTitle: string,
    windowWidth: U32,
    windowHeight: U32,
    fullscreen: bool,
    targetFrameRate: U16,
    backgroundClearColor: Option<Color>,
    fontRendererTtf: Option<seq<Byte>>,
    msaa: Option<SampleCount>)

  const DEFAULT_TITLE := "HotRod Engine - Default Configuration"

  /** `default`: no icon, the default title, a 1024×768 window, not fullscreen, 60 frames per
      second, no clear colour, no font and no multisampling. */
  function Default(): (b: EngineBuilder)
    ensures b.windowIcon == None && b.windowTitle == DEFAULT_TITLE
    ensures b.windowWidth == 1024 && b.windowHeight == 768 && !b.fullscreen && b.targetFrameRate == 60
    ensures b.backgroundClearColor == None && b.fontRendererTtf == None && b.msaa == None
  {
    EngineBuilder(None, DEFAULT_TITLE, 1024, 768, false, 60, None, None, None)
  }

  /** `with_window_icon`. */
  function WithWindowIcon(b: EngineBuilder, icon: RawRgbaImage): (r: EngineBuilder)
    ensures r.windowIcon == Some(icon) && r.(windowIcon := b.windowIcon) == b
  {
    b.(windowIcon := Some(icon))
  }

  /** `with_window_title`. */
  function WithWindowTitle(b: EngineBuilder, title: string): (r: EngineBuilder)
    ensures r.windowTitle == title && r.(windowTitle := b.windowTitle) == b
  {
    b.(windowTitle := title)
  }

  /** `with_window_width`. */
  function WithWindowWidth(b: EngineBuilder, width: U32): (r: EngineBuilder)
    ensures r.windowWidth == width && r.(windowWidth := b.windowWidth) == b
  {
    b.(windowWidth := width)
  }

  /** `with_window_height`. */
  function WithWindowHeight(b: EngineBuilder, height: U32): (r: EngineBuilder)
    ensures r.windowHeight == height && r.(windowHeight := b.windowHeight) == b
  {
    b.(windowHeight := height)
  }

  /** `with_fullscreen`. */
  function WithFullscreen(b: EngineBuilder, fullscreen: bool): (r: EngineBuilder)
    ensures r.fullscreen == fullscreen && r.(fullscreen := b.fullscreen) == b
  {
    b.(fullscreen := fullscreen)
  }

  /** `with_target_frame_rate`. */
  function WithTargetFrameRate(b: EngineBuilder, rate: U16): (r: EngineBuilder)
    ensures r.targetFrameRate == rate && r.(targetFrameRate := b.targetFrameRate) == b
  {
    b.(targetFrameRate := rate)
  }

  /** `with_background_clear_color`. */
  function WithBackgroundClearColor(b: EngineBuilder, color: Color): (r: EngineBuilder)
    ensures r.backgroundClearColor == Some(color) && r.(backgroundClearColor := b.backgroundClearColor) == b
  {
    b.(backgroundClearColor := Some(color))
  }

  /** `with_ttf_font_renderer`. */
  function WithTtfFontRenderer(b: EngineBuilder, ttf: seq<Byte>): (r: EngineBuilder)
    ensures r.fontRendererTtf == Some(ttf) && r.(fontRendererTtf := b.fontRendererTtf) == b
  {
    b.(fontRendererTtf := Some(ttf))
  }

  /** `with_msaa`. */
  function WithMsaa(b: EngineBuilder, msaa: SampleCount): (r: EngineBuilder)
    ensures r.msaa == Some(msaa) && r.(msaa := b.msaa) == b
  {
    b.(msaa := Some(msaa))
  }
}
