/** The idempotency key of one channel: the producer's key, a dash, the channel's name. */
module ChannelKeys {
  import opened Model

  function ChannelName(ch: Channel): (name: string)
    ensures |name| >= 3
  {
    match ch
    case Email => "email"
    case Sms => "sms"
    case Push => "push"
  }

  function ChannelKey(base: string, ch: Channel): string {
    base + "-" + ChannelName(ch)
  }

  /** Equal channel keys come from the same producer key and the same channel, even when producer
      keys contain dashes or channel names: one UNIQUE column stands for the pair. */
  lemma ChannelKeyIsInjective(b1: string, c1: Channel, b2: string, c2: Channel)
    requires ChannelKey(b1, c1) == ChannelKey(b2, c2)
    ensures b1 == b2 && c1 == c2
  {
    var k1, k2 := ChannelKey(b1, c1), ChannelKey(b2, c2);
    assert k1[|k1| - 1] == ChannelName(c1)[|ChannelName(c1)| - 1];
    assert k2[|k2| - 1] == ChannelName(c2)[|ChannelName(c2)| - 1];
    assert c1 == c2;
    assert b1 == k1[..|k1| - 1 - |ChannelName(c1)|];
    assert b2 == k2[..|k2| - 1 - |ChannelName(c2)|];
  }
}
