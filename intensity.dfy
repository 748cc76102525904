/**
  The per-frame loudness figure of the particle animation (animate in
  client/src/avatar.ts): the analyser's byte frequency data, one value in
  0..255 per band, is summed. The mean and its normalisation to [0, 1] are
  floating-point and not modelled.
*/
module Intensity {
  import opened Bytes

  /** The sum of a frequency snapshot, accumulated from the first band on. */
  function Sum(s: seq<Byte>): (r: nat)
    ensures r <= 255 * |s|
  {
    if s == [] then 0 else Sum(s[..|s| - 1]) + s[|s| - 1]
  }

  /** The sum is zero exactly when every band is silent. */
  lemma {:induction false} SumZeroIffSilent(s: seq<Byte>)
    ensures Sum(s) == 0 <==> forall i :: 0 <= i < |s| ==> s[i] == 0
  {
    if s != [] {
      var init := s[..|s| - 1];
      SumZeroIffSilent(init);
      assert forall i :: 0 <= i < |init| ==> init[i] == s[i];
    }
  }

  /** The sum reaches its bound exactly when every band is at full scale. */
  lemma {:induction false} SumFullIffSaturated(s: seq<Byte>)
    ensures Sum(s) == 255 * |s| <==> forall i :: 0 <= i < |s| ==> s[i] == 255
  {
    if s != [] {
      var init := s[..|s| - 1];
      SumFullIffSaturated(init);
      assert forall i :: 0 <= i < |init| ==> init[i] == s[i];
    }
  }

  /** The `for (const value of frequencyData) sum += value` loop. */
  method FrameSum(frequencyData: array<Byte>) returns (sum: nat)
    ensures sum == Sum(frequencyData[..])
    ensures sum <= 255 * frequencyData.Length
  {
    sum := 0;
    for i := 0 to frequencyData.Length
      invariant sum == Sum(frequencyData[..i])
    {
      assert frequencyData[..i + 1][..i] == frequencyData[..i];
      sum := sum + frequencyData[i];
    }
    assert frequencyData[..] == frequencyData[..frequencyData.Length];
  }
}
