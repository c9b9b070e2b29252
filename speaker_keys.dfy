/**
 * Reconciling the speaker keys of the text-to-speech model (e.g. "EN_INDIA",
 * "EN-US") with the file names of the precomputed source embeddings
 * (e.g. "en-india.pth"): lower-case the key, then turn '_' into '-'.
 */
module SpeakerKeys {
  import opened Text

  /** The normalisation applied to one character of the key. */
  function NormalizeChar(c: char): char {
    if LowerChar(c) == '_' then '-' else LowerChar(c)
  }

  /** A key that normalisation leaves alone: no '_' and no upper-case ASCII letter. */
  predicate IsCanonical(key: string) {
    forall i :: 0 <= i < |key| ==> key[i] != '_' && !IsUpperAscii(key[i])
  }

  /** `speaker_key.lower().replace('_', '-')`. */
  function Normalize(key: string): (r: string)
    ensures |r| == |key|
    ensures forall i :: 0 <= i < |key| ==> r[i] == NormalizeChar(key[i])
    ensures IsCanonical(r)
  {
    Replace(Lower(key), '_', '-')
  }

  /** Normalising a normalised key changes nothing. */
  lemma NormalizeIdempotent(key: string)
    ensures Normalize(Normalize(key)) == Normalize(key)
  {
    var once := Normalize(key);
    assert forall i :: 0 <= i < |once| ==> Normalize(once)[i] == once[i];
  }

  /** The keys that normalisation fixes are exactly the canonical ones. */
  lemma NormalizeFixedIffCanonical(key: string)
    ensures Normalize(key) == key <==> IsCanonical(key)
  {
    if IsCanonical(key) {
      assert forall i :: 0 <= i < |key| ==> Normalize(key)[i] == key[i];
    }
  }

  /** The spellings the two model families use for one speaker meet at one file name. */
  lemma NormalizeSpellings()
    ensures Normalize("EN-US") == "en-us"
    ensures Normalize("EN_US") == "en-us"
    ensures Normalize("en_us") == "en-us"
  {
    assert Normalize("EN-US") == "en-us" by {
      assert forall i :: 0 <= i < 5 ==> Normalize("EN-US")[i] == "en-us"[i];
    }
    assert Normalize("EN_US") == "en-us" by {
      assert forall i :: 0 <= i < 5 ==> Normalize("EN_US")[i] == "en-us"[i];
    }
    assert Normalize("en_us") == "en-us" by {
      assert forall i :: 0 <= i < 5 ==> Normalize("en_us")[i] == "en-us"[i];
    }
  }
}
