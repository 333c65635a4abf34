/** The device's adaptive block sizing against the runtime's: the runtime, at its defaults, specifies the device. */
module RateAgreement {
  import opened Requests
  import opened SpecDecode
  import DeviceTypes
  import Stages

  /** The defaults of the runtime's policy. */
  const DEFAULTS := AdaptivePolicy(1, 8, 0.20, 2, 0.80, 0.50)

  /** One verified block: how much of it was accepted, and whether the cache was under pressure. */
  datatype Answer = Answer(accepted: nat, proposed: nat, pressure: bool)

  /** The runtime's request after a history of answers. */
  function RuntimeAfter(r: Req, h: seq<Answer>): Req {
    if h == [] then r
    else
      var a := h[|h| - 1];
      UpdateBlockSize(RuntimeAfter(r, h[..|h| - 1]), a.accepted, a.proposed, DEFAULTS, a.pressure)
  }

  function WithPressure(d: DeviceTypes.Descriptor, pressure: bool): DeviceTypes.Descriptor {
    d.(flags := if pressure then d.flags + {DeviceTypes.KvPressure} else d.flags - {DeviceTypes.KvPressure})
  }

  /** The device's descriptor after the same history. */
  function DeviceAfter(d: DeviceTypes.Descriptor, h: seq<Answer>): DeviceTypes.Descriptor {
    if h == [] then d
    else
      var a := h[|h| - 1];
      Stages.AdaptBlock(WithPressure(DeviceAfter(d, h[..|h| - 1]), a.pressure), a.accepted, a.proposed)
  }

  /** The device's block size after answer `i` of the history. */
  function BlockAt(d: DeviceTypes.Descriptor, h: seq<Answer>, i: nat): int
    requires i < |h|
  {
    DeviceAfter(d, h[..i + 1]).blockSize
  }

  /** From equal rates, one answer leads to equal rates and equal block sizes. */
  lemma UpdatesAgree(d: DeviceTypes.Descriptor, r: Req, a: Answer)
    requires d.ema == r.ema && a.accepted <= a.proposed
    ensures var e := Stages.AdaptBlock(WithPressure(d, a.pressure), a.accepted, a.proposed);
      var q := UpdateBlockSize(r, a.accepted, a.proposed, DEFAULTS, a.pressure);
      e.ema == q.ema && e.blockSize == q.blockSize
  {}

  /**
   Over any history of verified blocks and pressure, the device holds the rate and the
   block size that the runtime holds, and the runtime has recorded the device's sizes.
   */
  lemma {:induction false} HistoriesAgree(d: DeviceTypes.Descriptor, r: Req, h: seq<Answer>)
    requires d.ema == r.ema && forall i :: 0 <= i < |h| ==> h[i].accepted <= h[i].proposed
    ensures var e, q := DeviceAfter(d, h), RuntimeAfter(r, h);
      && e.ema == q.ema && (h != [] ==> e.blockSize == q.blockSize)
      && |q.blockHistory| == |r.blockHistory| + |h|
      && (forall i :: 0 <= i < |h| ==> q.blockHistory[|r.blockHistory| + i] == BlockAt(d, h, i))
  {
    if h != [] {
      var k := |h| - 1;
      HistoriesAgree(d, r, h[..k]);
      UpdatesAgree(DeviceAfter(d, h[..k]), RuntimeAfter(r, h[..k]), h[k]);
      forall i | 0 <= i < k ensures BlockAt(d, h[..k], i) == BlockAt(d, h, i) {
        assert h[..k][..i + 1] == h[..i + 1];
      }
      assert h[..k + 1] == h;
    }
  }
}
