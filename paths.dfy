/**
 * The file paths `predict` builds: the scratch file for the base audio, the
 * converted output, and the precomputed source embedding of a speaker.
 */
module Paths {

  const OutputDir: string := "outputs_v2"
  const EmbeddingStore: string := "checkpoints_v2/base_speakers/ses"

  /** `f'{output_dir}/tmp_{language}.wav'`. */
  function ScratchPath(language: string): string {
    OutputDir + "/tmp_" + language + ".wav"
  }

  /** `f'{output_dir}/output_v2_{language}.wav'`. */
  function OutputPath(language: string): string {
    OutputDir + "/output_v2_" + language + ".wav"
  }

  /** `f'checkpoints_v2/base_speakers/ses/{speaker_key_clean}.pth'`. */
  function EmbeddingPath(key: string): string {
    EmbeddingStore + "/" + key + ".pth"
  }

  /** A string framed by a fixed prefix and suffix determines what lies between them. */
  lemma {:induction false} FramedInjective(prefix: string, x: string, y: string, suffix: string)
    requires prefix + x + suffix == prefix + y + suffix
    ensures x == y
  {
    var p := prefix + x + suffix;
    assert |x| == |y|;
    assert x == p[|prefix|..|prefix| + |x|];
    assert y == (prefix + y + suffix)[|prefix|..|prefix| + |y|];
  }

  /** Distinct languages get distinct scratch files and distinct output files. */
  lemma LanguagePathsInjective(a: string, b: string)
    ensures ScratchPath(a) == ScratchPath(b) ==> a == b
    ensures OutputPath(a) == OutputPath(b) ==> a == b
  {
    if ScratchPath(a) == ScratchPath(b) {
      FramedInjective(OutputDir + "/tmp_", a, b, ".wav");
    }
    if OutputPath(a) == OutputPath(b) {
      FramedInjective(OutputDir + "/output_v2_", a, b, ".wav");
    }
  }

  /** Distinct normalised keys name distinct embedding files. */
  lemma EmbeddingPathInjective(a: string, b: string)
    ensures EmbeddingPath(a) == EmbeddingPath(b) ==> a == b
  {
    if EmbeddingPath(a) == EmbeddingPath(b) {
      FramedInjective(EmbeddingStore + "/", a, b, ".pth");
    }
  }

  /**
   * The three kinds of path never coincide, whatever the languages and key:
   * converting never overwrites its own input or an embedding file.
   */
  lemma PathKindsDisjoint(a: string, b: string, key: string)
    ensures ScratchPath(a) != OutputPath(b)
    ensures ScratchPath(a) != EmbeddingPath(key)
    ensures OutputPath(b) != EmbeddingPath(key)
  {
    assert ScratchPath(a)[11] == 't';
    assert OutputPath(b)[11] == 'o';
    assert ScratchPath(a)[0] == 'o';
    assert OutputPath(b)[0] == 'o';
    assert EmbeddingPath(key)[0] == 'c';
  }

  /** The three paths of an English request whose first speaker is "EN-US". */
  lemma EnglishPaths()
    ensures ScratchPath("EN") == "outputs_v2/tmp_EN.wav"
    ensures OutputPath("EN") == "outputs_v2/output_v2_EN.wav"
    ensures EmbeddingPath("en-us") == "checkpoints_v2/base_speakers/ses/en-us.pth"
  {
  }
}
