/** How the steps of the machine add up when an operation runs without interruption. */
module Sequential {
  import opened Registry
  import opened Machine

  /** The sections of add_receiver, run without interruption, have the effect that
  Generator.QuoteGenerator.AddReceiver promises for a known request. */
  lemma AddComposes(s: State, s1: State, s2: State, s3: State, s4: State, id: Id)
    requires Lock(s, id, s1) && Check(s1, id, s2) && Insert(s2, id, s3) && Publish(s3, id, s4)
    ensures ToSet(s.sess[id].want) <= s.index.Keys && id in s4.sess && s4.sess[id].pc == Added
    ensures s4.receivers == s.receivers[id := ToSet(s.sess[id].want)]
    ensures s4.index == AddToIndex(s.index, ToSet(s.sess[id].want), id)
    ensures s4.prices == s.prices && s4.subscribers == s.subscribers && s4.tick == s.tick
  {
    CheckEffect(s, s1, s2, id);
    InsertEffect(s2, s3, id);
    PublishEffect(s3, s4, id);
  }

  lemma CheckEffect(s: State, s1: State, s2: State, id: Id)
    requires Lock(s, id, s1) && Check(s1, id, s2)
    ensures id in s2.sess && s2.sess[id].want == s.sess[id].want && s2 == s.(sess := s2.sess)
    ensures s2.sess[id].pc.Checked? ==> ToSet(s.sess[id].want) <= s.index.Keys
  {}

  lemma InsertEffect(s: State, s': State, id: Id)
    requires Insert(s, id, s')
    ensures id in s'.sess && s'.sess[id].want == s.sess[id].want
    ensures s' == s.(sess := s'.sess, receivers := s.receivers[id := ToSet(s.sess[id].want)])
  {}

  lemma PublishEffect(s: State, s': State, id: Id)
    requires Publish(s, id, s')
    ensures id in s'.sess && s'.sess[id].pc == Added
    ensures s' == s.(sess := s'.sess, index := AddToIndex(s.index, ToSet(s.sess[id].want), id))
  {}

  /** A request with an unknown ticker is refused with both maps as they were. */
  lemma RefusalComposes(s: State, s1: State, s2: State, id: Id)
    requires Lock(s, id, s1) && Check(s1, id, s2)
    ensures s2.receivers == s.receivers && s2.index == s.index && s2.subscribers == s.subscribers
    ensures s2.sess[id].pc == Rejected <==> !(ToSet(s.sess[id].want) <= s.index.Keys)
  {}

  /** The three sections of remove_receiver, run without interruption, have the effect that
  Generator.QuoteGenerator.RemoveReceiver promises. */
  lemma RemoveComposes(s: State, s1: State, s2: State, s3: State, id: Id)
    requires id in s.sess && s.sess[id].pc == Removing(Look(id))
    requires Remove(s, id, s1) && Remove(s1, id, s2) && Remove(s2, id, s3)
    ensures s3.sess[id].pc == Closed && !s3.sess[id].open
    ensures s3.receivers == s.receivers - {id}
    ensures s3.index == DropFromIndex(s.index, Subscribed(s, id), id)
    ensures s3.prices == s.prices && s3.subscribers == s.subscribers && s3.tick == s.tick
  {}
}
