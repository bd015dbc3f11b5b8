/** The match result bean filled in by the fingerprint service
    (backend FingerprintResult.java). */
module FingerprintResults {
  import opened Common

  /** A boxed Java `Double`: null, NaN, an infinity or a finite value.
      Floating-point rounding is not modelled; finite values are reals. */
  datatype JDouble = Null | NaN | Infinity(negative: bool) | Finite(value: real)

  /** The confidence value that `setConfidence` stores for the argument `c`:
      null, NaN and both infinities become 0.0, a finite value is kept as it is
      (there is no clamping to [0, 1]). */
  function NormalizeConfidence(c: JDouble): (r: JDouble)
    ensures r.Finite?
    ensures c.Finite? ==> r == c
    ensures !c.Finite? ==> r == Finite(0.0)
  {
    if c.Null? || c.NaN? || c.Infinity? then Finite(0.0) else c
  }

  /** Storing what `getConfidence` returned changes nothing, and a value is
      stored unchanged exactly when it is finite. */
  lemma NormalizeConfidenceIdempotent(c: JDouble)
    ensures NormalizeConfidence(NormalizeConfidence(c)) == NormalizeConfidence(c)
    ensures NormalizeConfidence(c) == c <==> c.Finite?
  {
  }

  /** What the three getters return, as one value (this is what is serialised
      and sent to the client). */
  datatype ResultView = ResultView(trackName: Option<string>, artist: Option<string>, confidence: JDouble)

  class FingerprintResult {
    var trackName: Option<string>
    var artist: Option<string>
    var confidence: JDouble

    /** The stored confidence is null or finite: `setConfidence` is the only
        way to change it. */
    ghost predicate Valid()
      reads this
    {
      confidence.Null? || confidence.Finite?
    }

    /** A fresh bean has every property null. */
    constructor ()
      ensures trackName == None && artist == None && confidence == Null
      ensures Valid()
    {
      trackName, artist, confidence := None, None, Null;
    }

    method SetTrackName(name: Option<string>)
      modifies this
      ensures trackName == name && GetTrackName() == name
      ensures artist == old(artist) && confidence == old(confidence)
    {
      trackName := name;
    }

    method SetArtist(name: Option<string>)
      modifies this
      ensures artist == name && GetArtist() == name
      ensures trackName == old(trackName) && confidence == old(confidence)
    {
      artist := name;
    }

    /** Replaces a null or non-finite argument by 0.0 before storing it. */
    method SetConfidence(c: JDouble)
      modifies this
      ensures confidence == NormalizeConfidence(c) && GetConfidence() == NormalizeConfidence(c)
      ensures confidence.Finite? && Valid()
      ensures trackName == old(trackName) && artist == old(artist)
    {
      var value := c;
      if value.Null? || value.NaN? || value.Infinity? {
        value := Finite(0.0);
      }
      confidence := value;
    }

    /** `getTrackName()`: the name last stored, or null. */
    function GetTrackName(): (r: Option<string>)
      reads this
      ensures r == trackName
    {
      trackName
    }

    /** `getArtist()`: the artist last stored, or null. */
    function GetArtist(): (r: Option<string>)
      reads this
      ensures r == artist
    {
      artist
    }

    /** `getConfidence()`: null before any `setConfidence`, and never NaN or
        infinite. */
    function GetConfidence(): (r: JDouble)
      reads this
      ensures r == confidence
      ensures Valid() ==> r.Null? || r.Finite?
    {
      confidence
    }

    /** The three properties as the getters return them; this is what is
        serialised, so its confidence is never NaN or infinite. */
    function View(): (v: ResultView)
      reads this
      ensures v.trackName == trackName && v.artist == artist && v.confidence == confidence
      ensures Valid() ==> v.confidence.Null? || v.confidence.Finite?
    {
      ResultView(GetTrackName(), GetArtist(), GetConfidence())
    }
  }
}
