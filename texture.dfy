/** One GPU image: the guards and state changes of `Texture`, with the
    OpenGL calls, the file-existence test and the image decoder given to
    each operation as inputs. Two ghost logs record what the GPU is told:
    which handles are released and which images are uploaded. */
module Textures {
  import opened Geometry
  import opened Wrappers

  datatype TextureType = Diffuse | Specular | Normal | Height | Ambient

  /** The pixel format handed to `glTexImage2D` (both format and internal format). */
  datatype PixelFormat = Red | Rgb | Rgba

  /** An image size as the decoder reports it. */
  datatype Image = Image(width: int, height: int, channels: int)

  /** What one decoder call yields: pixel data of the given size, or a
      failure after which the size out-parameters hold whatever the decoder
      wrote to them before giving up (`None` when it wrote nothing). */
  datatype Decoded = Pixels(size: Image) | Failed(wrote: Option<Image>)

  /** The width, height and channel fields after a decoder call that
      started from zero: the size written, if any, else zero. */
  function SizeAfter(d: Decoded): (sz: Image)
    ensures d.Pixels? ==> sz == d.size
    ensures d.Failed? && d.wrote.Some? ==> sz == d.wrote.value
    ensures d.Failed? && d.wrote.None? ==> sz == Image(0, 0, 0)
  {
    match d
    case Pixels(size) => size
    case Failed(wrote) => if wrote.Some? then wrote.value else Image(0, 0, 0)
  }

  /** One `glTexImage2D` call: the handle it went to, its format and size,
      whether pixel data came with it, and whether a mipmap chain followed. */
  datatype Upload = Upload(id: u32, format: PixelFormat, width: int, height: int, hasPixels: bool, mipmaps: bool)

  /** A texture unit and the handle bound to it by `bind`. */
  datatype Binding = Binding(unit: u32, id: u32)

  /** The path recorded for images that did not come from a file. */
  const ProceduralPath := "procedural"
  const CreatedPath := "created"

  /** The upload format for a decoded channel count: one channel is red
      only, four is RGBA, and three or any other count falls back to RGB. */
  function FormatFor(channels: int): (f: PixelFormat)
    ensures f == Red <==> channels == 1
    ensures f == Rgba <==> channels == 4
    ensures f == Rgb <==> channels != 1 && channels != 4
  {
    if channels == 1 then Red
    else if channels == 3 then Rgb
    else if channels == 4 then Rgba
    else Rgb
  }

  /** The handles released when the current one, if any, is given back. */
  function Released(id: u32): seq<u32> {
    if id != 0 then [id] else []
  }

  class Texture {
    var id: u32
    var kind: TextureType
    var path: string
    var width: int
    var height: int
    var channels: int
    /** Handles passed to `glDeleteTextures`, oldest first. */
    ghost var released: seq<u32>
    /** Images passed to `glTexImage2D`, oldest first. */
    ghost var uploads: seq<Upload>

    /** A texture is usable (bindable) only with a non-zero handle. */
    predicate IsValid()
      reads this
      ensures IsValid() <==> id != 0
    {
      id != 0
    }

    constructor ()
      ensures id == 0 && kind == Diffuse && width == 0 && height == 0 && channels == 0 && path == ""
      ensures released == [] && uploads == []
      ensures !IsValid()
    {
      id := 0;
      kind := Diffuse;
      path := "";
      width := 0;
      height := 0;
      channels := 0;
      released := [];
      uploads := [];
    }

    /** Loads `filepath` as a texture of type `t`. `fileExists` is the answer of
        the file-existence test, `decode(path, flip)` the decoder (called
        with the vertical-flip setting), `newId` the handle `glGenTextures`
        hands out. The decoder writes the size fields through pointers, so
        after a failure they hold what it wrote, or the zeros set before. */
    method LoadFromFile(filepath: string, t: TextureType, fileExists: bool,
                        decode: (string, bool) -> Decoded, newId: u32)
      returns (ok: bool)
      modifies this
      ensures ok <==> fileExists && decode(filepath, t == Diffuse).Pixels?
      // a missing file changes nothing, not even the handle
      ensures !fileExists ==> unchanged(this)
      // otherwise the old handle is given back first
      ensures fileExists ==> released == old(released) + Released(old(id))
      // a decoding failure leaves no handle and the size the decoder left
      // behind, but keeps type and path
      ensures fileExists && !ok ==>
        && id == 0 && Image(width, height, channels) == SizeAfter(decode(filepath, t == Diffuse))
        && kind == old(kind) && path == old(path) && uploads == old(uploads)
      ensures ok ==>
        var img := decode(filepath, t == Diffuse).size;
        && id == newId && kind == t && path == filepath
        && width == img.width && height == img.height && channels == img.channels
        && uploads == old(uploads) + [Upload(newId, FormatFor(img.channels), img.width, img.height, true, true)]
    {
      if !fileExists {
        return false;
      }
      if id != 0 {
        released := released + [id];
        id := 0;
      }
      width := 0;
      height := 0;
      channels := 0;
      // only diffuse maps are flipped vertically on load
      var flip := t == Diffuse;
      var data := decode(filepath, flip);
      if data.Failed? {
        if data.wrote.Some? {
          width, height, channels := data.wrote.value.width, data.wrote.value.height, data.wrote.value.channels;
        }
        return false;
      }
      width, height, channels := data.size.width, data.size.height, data.size.channels;
      kind := t;
      path := filepath;
      id := newId;
      var format := Rgb;
      if channels == 1 {
        format := Red;
      } else if channels == 3 {
        format := Rgb;
      } else if channels == 4 {
        format := Rgba;
      }
      uploads := uploads + [Upload(id, format, width, height, true, true)];
      return true;
    }

    /** Uploads `w` x `h` RGB pixels from `data` (absent for a null pointer)
        as a texture of type `t`, without mipmaps. */
    method LoadFromData(data: Option<seq<bv8>>, w: int, h: int, t: TextureType, newId: u32)
      returns (ok: bool)
      modifies this
      ensures ok <==> data.Some? && w > 0 && h > 0
      ensures !ok ==> unchanged(this)
      ensures ok ==>
        && released == old(released) + Released(old(id))
        && id == newId && width == w && height == h && kind == t && path == ProceduralPath
        && channels == old(channels)
        && uploads == old(uploads) + [Upload(newId, Rgb, w, h, true, false)]
    {
      if data.None? || w <= 0 || h <= 0 {
        return false;
      }
      if id != 0 {
        released := released + [id];
        id := 0;
      }
      width := w;
      height := h;
      kind := t;
      path := ProceduralPath;
      id := newId;
      uploads := uploads + [Upload(id, Rgb, w, h, true, false)];
      return true;
    }

    /** Allocates an empty `w` x `h` RGB image of type `t`, without pixel data. */
    method Create(w: int, h: int, t: TextureType, newId: u32) returns (ok: bool)
      modifies this
      ensures ok <==> w > 0 && h > 0
      ensures !ok ==> unchanged(this)
      ensures ok ==>
        && released == old(released) + Released(old(id))
        && id == newId && width == w && height == h && kind == t && path == CreatedPath
        && channels == old(channels)
        && uploads == old(uploads) + [Upload(newId, Rgb, w, h, false, false)]
    {
      if w <= 0 || h <= 0 {
        return false;
      }
      if id != 0 {
        released := released + [id];
        id := 0;
      }
      width := w;
      height := h;
      kind := t;
      path := CreatedPath;
      id := newId;
      uploads := uploads + [Upload(id, Rgb, w, h, false, false)];
      return true;
    }

    /** The binding `bind(unit)` makes: none at all for a zero handle,
        otherwise this texture's handle on texture unit `unit`. */
    method Bind(unit: u32) returns (b: Option<Binding>)
      ensures b.None? <==> id == 0
      ensures b.Some? ==> b.value.unit == unit && b.value.id == id && b.value.id != 0
    {
      if id == 0 {
        return None;
      }
      return Some(Binding(unit, id));
    }
  }
}
