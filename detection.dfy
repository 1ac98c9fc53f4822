/** The detector adapter `detect` (app.py:20-28): the engine returns a list of
    `(label, confidence, bounds)` tuples whose confidence is text, and the
    adapter rewrites every tuple in place so that its confidence is a number. */
module Detection {

  /** Centre and size of a detected object's box, in pixels, as the engine
      reports them (floats, idealised as reals). */
  datatype Bounds = Bounds(centerX: real, centerY: real, width: real, height: real)

  /** The confidence slot of a tuple: text as the engine reports it, or the
      number `float()` made of it. */
  datatype Confidence = Raw(text: string) | Number(value: real)

  /** One detection tuple `(label, confidence, bounds)`. */
  datatype Record = Record(name: string, confidence: Confidence, bounds: Bounds)

  /** Python's `float()` applied to the confidence slot: `toFloat` is what it
      does to text; on a number it is the identity. */
  function Float(c: Confidence, toFloat: string -> real): real
  {
    match c
    case Raw(text) => toFloat(text)
    case Number(value) => value
  }

  /** The rewrite of one tuple: `(r[i][0], float(r[i][1]), r[i][2])`. */
  function Normalise(d: Record, toFloat: string -> real): Record
  {
    Record(d.name, Number(Float(d.confidence, toFloat)), d.bounds)
  }

  /** The list `detect` returns for the engine's list `s`. */
  function Normalised(s: seq<Record>, toFloat: string -> real): seq<Record>
  {
    if s == [] then [] else Normalised(s[..|s| - 1], toFloat) + [Normalise(s[|s| - 1], toFloat)]
  }

  /** Same length; every label and every bounds kept; every confidence replaced
      by its numeric value. */
  lemma {:induction false} NormalisedAt(s: seq<Record>, toFloat: string -> real)
    ensures |Normalised(s, toFloat)| == |s|
    ensures forall i :: 0 <= i < |s| ==>
      && Normalised(s, toFloat)[i].name == s[i].name
      && Normalised(s, toFloat)[i].bounds == s[i].bounds
      && Normalised(s, toFloat)[i].confidence == Number(Float(s[i].confidence, toFloat))
  {
    if s != [] {
      NormalisedAt(s[..|s| - 1], toFloat);
    }
  }

  /** Every confidence in the result is a number, and the numbers `float()`
      would make of them are the same numbers: normalising twice changes
      nothing. */
  lemma {:induction false} NormalisedIdempotent(s: seq<Record>, toFloat: string -> real)
    ensures forall i :: 0 <= i < |Normalised(s, toFloat)| ==> Normalised(s, toFloat)[i].confidence.Number?
    ensures Normalised(Normalised(s, toFloat), toFloat) == Normalised(s, toFloat)
  {
    if s != [] {
      var init := s[..|s| - 1];
      NormalisedIdempotent(init, toFloat);
      NormalisedAt(init, toFloat);
      var n := Normalised(s, toFloat);
      assert n[..|n| - 1] == Normalised(init, toFloat);
    }
  }

  /** `detect`'s conversion loop: `r` is the list the engine returned, and the
      loop rewrites it in place. */
  method Detect(r: array<Record>, toFloat: string -> real)
    modifies r
    ensures r[..] == Normalised(old(r[..]), toFloat)
  {
    if r.Length > 0 {
      for i := 0 to r.Length
        invariant r[..i] == Normalised(old(r[..])[..i], toFloat)
        invariant r[i..] == old(r[..])[i..]
      {
        assert old(r[..])[..i + 1][..i] == old(r[..])[..i];
        r[i] := Normalise(r[i], toFloat);
        assert r[..i + 1] == r[..i] + [r[i]];
      }
      assert r[..] == r[..r.Length];
      assert old(r[..])[..r.Length] == old(r[..]);
    }
  }
}
