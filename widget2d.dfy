/**
 * The 2D image widget as the main window sees it: an object holding the
 * active channel, the shadow-render flag, the conversion type and the
 * size the next framebuffer resize uses. Its GPU work is not modelled;
 * every request the window makes of it is recorded as an event.
 */
module ImageWidget2D {
  import opened Textures

  /** What the widget was asked to do, in order. */
  datatype Event =
    | Render(texture: TextureType, shadow: bool, conversion: ConversionType)
    | FboResized(width: int, height: int)
    | TextureReplaced(texture: TextureType)

  class OpenGL2DImageWidget {
    var activeTexture: TextureType
    var shadowRender: bool
    var conversionType: ConversionType
    var fboWidth: int
    var fboHeight: int
    /** Every request the widget has received. */
    ghost var trace: seq<Event>

    constructor ()
      ensures activeTexture == Diffuse && !shadowRender && conversionType == ConvertNone
      ensures trace == []
    {
      activeTexture := Diffuse;
      shadowRender := false;
      conversionType := ConvertNone;
      fboWidth, fboHeight := 0, 0;
      trace := [];
    }

    /** Makes `t` the active channel; the widget renders it at once,
        with the current shadow flag and conversion type, and leaves
        both as they were. */
    method SetActiveTextureType(t: TextureType)
      modifies this
      ensures activeTexture == t
      ensures trace == old(trace) + [Render(t, shadowRender, conversionType)]
      ensures shadowRender == old(shadowRender) && conversionType == old(conversionType)
      ensures fboWidth == old(fboWidth) && fboHeight == old(fboHeight)
    {
      activeTexture := t;
      trace := trace + [Render(t, shadowRender, conversionType)];
    }

    method EnableShadowRender(enable: bool)
      modifies this
      ensures shadowRender == enable
      ensures activeTexture == old(activeTexture) && conversionType == old(conversionType)
      ensures fboWidth == old(fboWidth) && fboHeight == old(fboHeight) && trace == old(trace)
    {
      shadowRender := enable;
    }

    method SetConversionType(c: ConversionType)
      modifies this
      ensures conversionType == c
      ensures activeTexture == old(activeTexture) && shadowRender == old(shadowRender)
      ensures fboWidth == old(fboWidth) && fboHeight == old(fboHeight) && trace == old(trace)
    {
      conversionType := c;
    }

    /** Sets the size the framebuffers are reallocated to. */
    method ResizeFbo(width: int, height: int)
      modifies this
      ensures fboWidth == width && fboHeight == height
      ensures activeTexture == old(activeTexture) && shadowRender == old(shadowRender)
      ensures conversionType == old(conversionType)
      ensures trace == old(trace) + [FboResized(width, height)]
    {
      fboWidth, fboHeight := width, height;
      trace := trace + [FboResized(width, height)];
    }

    /** Replaces the image held for channel `t`. */
    method SetTextureImage(t: TextureType)
      modifies this
      ensures activeTexture == old(activeTexture) && shadowRender == old(shadowRender)
      ensures conversionType == old(conversionType)
      ensures fboWidth == old(fboWidth) && fboHeight == old(fboHeight)
      ensures trace == old(trace) + [TextureReplaced(t)]
    {
      trace := trace + [TextureReplaced(t)];
    }
  }
}
