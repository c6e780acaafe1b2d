/** Padding the batches of a wave in place (serving/__main__.py, _pad_batch_to_max and the loops that call
  it): the batches are objects shared with the schedulers' in-flight lists.
 */
module BatchPadding {
  class LiveBatch {
    var totalLen: int
    var kvLen: int
    var numDecode: int

    constructor (totalLen: int, kvLen: int, numDecode: int)
      ensures this.totalLen == totalLen && this.kvLen == kvLen && this.numDecode == numDecode
    {
      this.totalLen, this.kvLen, this.numDecode := totalLen, kvLen, numDecode;
    }

    /** Every added token is a decode over one cached entry; a batch that is long enough is untouched. */
    method PadToMax(maxLen: int)
      modifies this
      ensures totalLen == if old(totalLen) < maxLen then maxLen else old(totalLen)
      ensures kvLen - totalLen == old(kvLen - totalLen) && numDecode - totalLen == old(numDecode - totalLen)
    {
      var pad := maxLen - totalLen;
      if pad <= 0 { return; }
      totalLen := maxLen;
      kvLen := kvLen + pad;
      numDecode := numDecode + pad;
    }
  }

  ghost predicate Distinct(wave: seq<LiveBatch>) {
    forall i, j :: 0 <= i < j < |wave| ==> wave[i] != wave[j]
  }

  /** Pad a wave: all of its batches end at the length of the longest, which one of them had before, and no
      other batch is touched. */
  method PadWave(wave: seq<LiveBatch>) returns (longest: int)
    requires wave != [] && Distinct(wave)
    modifies wave
    ensures exists i :: 0 <= i < |wave| && old(wave[i].totalLen) == longest
    ensures forall i :: 0 <= i < |wave| ==>
              && old(wave[i].totalLen) <= longest && wave[i].totalLen == longest
              && wave[i].kvLen - wave[i].totalLen == old(wave[i].kvLen - wave[i].totalLen)
              && wave[i].numDecode - wave[i].totalLen == old(wave[i].numDecode - wave[i].totalLen)
  {
    longest := wave[0].totalLen;
    for i := 1 to |wave|
      invariant exists j :: 0 <= j < i && wave[j].totalLen == longest
      invariant forall j :: 0 <= j < i ==> wave[j].totalLen <= longest
    {
      if wave[i].totalLen > longest { longest := wave[i].totalLen; }
    }
    for i := 0 to |wave|
      invariant forall j :: 0 <= j < i ==>
                  && wave[j].totalLen == longest
                  && wave[j].kvLen - longest == old(wave[j].kvLen - wave[j].totalLen)
                  && wave[j].numDecode - longest == old(wave[j].numDecode - wave[j].totalLen)
      invariant forall j :: i <= j < |wave| ==>
                  (wave[j].totalLen, wave[j].kvLen, wave[j].numDecode) == old((wave[j].totalLen, wave[j].kvLen, wave[j].numDecode))
    {
      wave[i].PadToMax(longest);
    }
  }
}
