/** The image-type gate `get_image_type` (app.py:30-35): the format name the
    image library reports is lower-cased, and only `jpeg` and `png` pass. */
module ImageFormat {
  import opened Outcomes

  /** `str.lower()` on one character, for the ASCII letters that format
      names are made of. */
  function LowerChar(c: char): char
  {
    if 'A' <= c <= 'Z' then (c as int + 32) as char else c
  }

  function Lower(s: string): string
  {
    seq(|s|, i requires 0 <= i < |s| => LowerChar(s[i]))
  }

  /** Two names that differ at most in the case of their letters. */
  predicate SameIgnoringCase(a: string, b: string)
  {
    |a| == |b| && forall i :: 0 <= i < |a| ==> LowerChar(a[i]) == LowerChar(b[i])
  }

  /** The value `get_image_type` returns, or the exception it raises, for an
      image whose reported format name is `format`. */
  function ImageType(format: string): (r: Result<string>)
    ensures r.Ok? ==> r.value == "jpeg" || r.value == "png"
    ensures r.Err? ==> r.fault == OtherError
  {
    var imageType := Lower(format);
    if !(imageType == "jpeg" || imageType == "png") then Err(OtherError) else Ok(imageType)
  }

  /** The gate accepts exactly the names equal to `JPEG` or `PNG` up to case,
      and returns the lower-case name. */
  lemma ImageTypeExactly(format: string)
    ensures ImageType(format) == Ok("jpeg") <==> SameIgnoringCase(format, "JPEG")
    ensures ImageType(format) == Ok("png") <==> SameIgnoringCase(format, "PNG")
    ensures ImageType(format).Ok? <==> SameIgnoringCase(format, "JPEG") || SameIgnoringCase(format, "PNG")
  {
    var low := Lower(format);
    if SameIgnoringCase(format, "JPEG") {
      assert low == "jpeg";
    }
    if SameIgnoringCase(format, "PNG") {
      assert low == "png";
    }
    if low == "jpeg" {
      assert forall i :: 0 <= i < 4 ==> LowerChar(format[i]) == low[i] == LowerChar("JPEG"[i]);
    }
    if low == "png" {
      assert forall i :: 0 <= i < 3 ==> LowerChar(format[i]) == low[i] == LowerChar("PNG"[i]);
    }
  }

  /** The gate accepts its own output unchanged: classifying the same image a
      second time gives the same type. */
  lemma ImageTypeStable(format: string)
    requires ImageType(format).Ok?
    ensures ImageType(ImageType(format).value) == ImageType(format)
  {
    var t := ImageType(format).value;
    assert Lower(t) == t by {
      if t == "jpeg" { assert Lower("jpeg") == "jpeg"; } else { assert Lower("png") == "png"; }
    }
  }

  /** What the library reports for common files: JPEG and PNG pass as
      `jpeg` and `png`; the `jpg` spelling, GIF and multi-picture JPEG (MPO)
      are refused. */
  lemma ImageTypeExamples()
    ensures ImageType("JPEG") == Ok("jpeg") && ImageType("PNG") == Ok("png")
    ensures ImageType("JPG").Err? && ImageType("jpg").Err?
    ensures ImageType("GIF").Err? && ImageType("MPO").Err?
  {
    assert Lower("JPEG") == "jpeg";
    assert Lower("PNG") == "png";
    assert Lower("JPG") == "jpg" && Lower("jpg") == "jpg";
    assert Lower("GIF")[0] == 'g';
    assert Lower("MPO")[0] == 'm';
  }
}
