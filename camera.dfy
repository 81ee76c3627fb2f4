/**
  GetImage of the camera firmware: take an RGB565 frame and write one greyscale
  byte per pixel into the caller's `image_data` buffer, row by row over the
  model's 96x96 input. The frame buffer `fb` is an input here, None when
  `esp_camera_fb_get()` returns null; sensor configuration is not modelled.
 */
module Camera {
  import opened Wrappers

  /** The model's input dimensions (model_settings.h). */
  const NumCols: nat := 96
  const NumRows: nat := 96
  const NumChannels: nat := 1
  const MaxImageSize: nat := NumCols * NumRows * NumChannels

  datatype TfLiteStatus = TfLiteOk | TfLiteError

  /** An element of the `uint8_t` image buffer. */
  newtype uint8 = x: int | 0 <= x < 256

  /** The three channels the loop extracts from one 16-bit pixel. */
  datatype Rgb = Rgb(r: bv8, g: bv8, b: bv8)

  /**
    `hb` is the pixel's low byte and `lb` its high byte. Red is the low five bits of
    `lb`, blue the top five bits of `hb`, green three bits of `hb` over three of `lb`;
    every shifted value fits a byte, so the uint8_t results lose nothing.
   */
  function Channels(pixel: bv16): (c: Rgb)
    ensures c.r <= 248 && c.r & 7 == 0
    ensures c.g <= 252 && c.g & 3 == 0
    ensures c.b <= 248 && c.b & 7 == 0
    ensures c.r as int == ((pixel >> 8) & 0x1F) as int * 8
    ensures c.g as int == (pixel & 0x07) as int * 32 + (pixel >> 13) as int * 4
    ensures c.b as int == (pixel & 0xF8) as int
  {
    var hb := (pixel & 0xFF) as bv8;
    var lb := (pixel >> 8) as bv8;
    Rgb((lb & 0x1F) << 3, ((hb & 0x07) << 5) | ((lb & 0xE0) >> 3), hb & 0xF8)
  }

  /**
    `((305 * r + 600 * g + 119 * b) >> 10) - 128`. The weights sum to 1024 and the
    sum is never negative, so the shift is a division by 1024 and the value, one
    channel-weighted average minus 128, always fits an int8_t.
   */
  function Grey(pixel: bv16): (v: int)
    ensures -128 <= v <= 122
  {
    var c := Channels(pixel);
    (305 * (c.r as int) + 600 * (c.g as int) + 119 * (c.b as int)) / 1024 - 128
  }

  /** A byte read as a two's-complement int8_t. */
  function AsInt8(b: uint8): int
  {
    if b < 128 then b as int else b as int - 256
  }

  /** The byte stored into the uint8_t buffer: the int8_t grey value's bit pattern. */
  function GreyByte(pixel: bv16): (b: uint8)
    ensures AsInt8(b) == Grey(pixel)
  {
    ((Grey(pixel) + 256) % 256) as uint8
  }

  /** The darkest and brightest pixels reach both ends of the grey range. */
  lemma GreyRangeAttained()
    ensures Grey(0x0000) == -128
    ensures Grey(0xFFFF) == 122
  {
  }

  /**
    GetImage. The width, height and channel arguments are not read; the loop
    bounds are the model constants. `cameraSupported` is the ESP_CAMERA_SUPPORTED
    build switch. The code never checks the frame's length before reading
    kMaxImageSize pixels from it, and writes that many bytes into `imageData`.
   */
  method GetImage(imageWidth: int, imageHeight: int, channels: int, cameraSupported: bool,
                  frame: Option<seq<bv16>>, imageData: array<uint8>) returns (status: TfLiteStatus)
    requires MaxImageSize <= imageData.Length
    requires frame.Some? ==> MaxImageSize <= |frame.value|
    modifies imageData
    ensures status == TfLiteOk <==> cameraSupported && frame.Some?
    ensures status == TfLiteError ==> imageData[..] == old(imageData[..])
    ensures status == TfLiteOk ==>
              forall k :: 0 <= k < MaxImageSize ==> imageData[k] == GreyByte(frame.value[k])
    ensures forall k :: MaxImageSize <= k < imageData.Length ==> imageData[k] == old(imageData[k])
  {
    if !cameraSupported {
      return TfLiteError;
    }
    if frame.None? {
      return TfLiteError;
    }
    var pixels := frame.value;
    var i := 0;
    while i < NumRows
      invariant 0 <= i <= NumRows
      invariant forall k :: 0 <= k < i * NumCols ==> imageData[k] == GreyByte(pixels[k])
      invariant forall k :: i * NumCols <= k < imageData.Length ==> imageData[k] == old(imageData[k])
    {
      var j := 0;
      while j < NumCols
        invariant 0 <= j <= NumCols
        invariant forall k :: 0 <= k < i * NumCols + j ==> imageData[k] == GreyByte(pixels[k])
        invariant forall k :: i * NumCols + j <= k < imageData.Length ==> imageData[k] == old(imageData[k])
      {
        var pixel := pixels[i * NumCols + j];
        imageData[i * NumCols + j] := GreyByte(pixel);
        j := j + 1;
      }
      i := i + 1;
    }
    status := TfLiteOk;
  }
}
