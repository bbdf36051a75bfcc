/** Where the thresholds of a node come from: its profiles, one after the other. */
module Thresholds {
  import opened Int64s
  import opened Options
  import opened Engine

  /** What a node profile says of its threshold. */
  datatype ClockThreshold = ClockThreshold(holdOverTimeout: Int64, max: Int64, min: Int64)
  datatype NodeProfile = NodeProfile(name: Profile, threshold: Option<ClockThreshold>, ntpFailover: bool)

  const DEFAULT_HOLDOVER_TIMEOUT: Int64 := 5

  /** The values that UpdatePTPThreshold settles on. */
  function ValidMax(p: NodeProfile): (max: Int64)
    ensures max > 0
  {
    if p.threshold.Some? then
      if p.threshold.value.max > 0 then p.threshold.value.max else DEFAULT_MAX_OFFSET
    else if p.ntpFailover then 1000
    else DEFAULT_MAX_OFFSET
  }

  function ValidTimeout(p: NodeProfile): (timeout: Int64)
    ensures timeout > 0
  {
    if p.threshold.Some? && p.threshold.value.holdOverTimeout > 0 then p.threshold.value.holdOverTimeout
    else DEFAULT_HOLDOVER_TIMEOUT
  }

  /** The minimum in force after these profiles: the variable that holds it outlives a profile, so
      one that sets no threshold takes over the minimum of the one before. */
  function MinAfter(profiles: seq<NodeProfile>): (min: Int64)
    ensures profiles != [] && profiles[|profiles| - 1].threshold.Some? ==> min <= ValidMax(profiles[|profiles| - 1])
  {
    if profiles == [] then 0
    else
      var p := profiles[|profiles| - 1];
      if p.threshold.None? then MinAfter(profiles[..|profiles| - 1])
      else if p.threshold.value.min > ValidMax(p) then ValidMax(p) - 1
      else p.threshold.value.min
  }

  predicate Named(profiles: seq<NodeProfile>, name: Profile) {
    exists j :: 0 <= j < |profiles| && profiles[j].name == name
  }

  predicate LastOfName(profiles: seq<NodeProfile>, j: nat)
    requires j < |profiles|
  {
    forall l :: j < l < |profiles| ==> profiles[l].name != profiles[j].name
  }

  /** An entry per name, with the bound of the last profile of that name and a channel of its own. */
  ghost predicate ThresholdsOf(profiles: seq<NodeProfile>, thresholds: map<Profile, Threshold>, nextChan: nat) {
    && (forall p :: p in thresholds <==> Named(profiles, p))
    && (forall j :: 0 <= j < |profiles| && LastOfName(profiles, j) ==>
          && profiles[j].name in thresholds
          && var t := thresholds[profiles[j].name];
             t == Threshold(ValidTimeout(profiles[j]), ValidMax(profiles[j]), MinAfter(profiles[..j + 1]), t.close))
    && (forall p :: p in thresholds ==> thresholds[p].close < nextChan)
    && (forall p, q :: p in thresholds && q in thresholds && thresholds[p].close == thresholds[q].close ==> p == q)
  }

  lemma NoThresholds(nextChan: nat)
    ensures ThresholdsOf([], map[], nextChan)
  {
  }

  lemma OneMoreThreshold(profiles: seq<NodeProfile>, p: NodeProfile, thresholds: map<Profile, Threshold>, nextChan: nat)
    requires ThresholdsOf(profiles, thresholds, nextChan)
    ensures
      var t := Threshold(ValidTimeout(p), ValidMax(p), MinAfter(profiles + [p]), nextChan);
      ThresholdsOf(profiles + [p], thresholds[p.name := t], nextChan + 1)
  {
    NamedSnoc(profiles, p);
    LastSnoc(profiles, p);
    hide Named, LastOfName, MinAfter;
  }

  lemma NamedSnoc(profiles: seq<NodeProfile>, p: NodeProfile)
    ensures forall name :: Named(profiles + [p], name) <==> Named(profiles, name) || name == p.name
  {
    var more := profiles + [p];
    assert more[|profiles|] == p && forall j :: 0 <= j < |profiles| ==> more[j] == profiles[j];
    forall name ensures Named(more, name) <==> Named(profiles, name) || name == p.name {
      if j :| 0 <= j < |profiles| && profiles[j].name == name {
        assert more[j].name == name;
      }
    }
  }

  lemma LastSnoc(profiles: seq<NodeProfile>, p: NodeProfile)
    ensures (profiles + [p])[..|profiles| + 1] == profiles + [p]
    ensures forall j :: 0 <= j < |profiles| && LastOfName(profiles + [p], j) ==>
      LastOfName(profiles, j) && profiles[j].name != p.name && (profiles + [p])[..j + 1] == profiles[..j + 1]
  {
    var more := profiles + [p];
    assert more[|profiles|] == p && forall j :: 0 <= j < |profiles| ==> more[j] == profiles[j];
  }

  /** What the last profile of a name gives its entry. The maximum is the one it sets, if that is above zero, and
      else 100, or 1000 for a profile without a threshold that fails over to NTP. The timeout is the one it
      sets, if above zero, and else 5. A minimum above the maximum is cut to one below it. */
  lemma SettledValues(profiles: seq<NodeProfile>, thresholds: map<Profile, Threshold>, nextChan: nat, j: nat)
    requires ThresholdsOf(profiles, thresholds, nextChan) && j < |profiles| && LastOfName(profiles, j)
    ensures
      var p := profiles[j];
      p.name in thresholds &&
      var t := thresholds[p.name];
      match p.threshold
      case None => t.max == (if p.ntpFailover then 1000 else 100) && t.holdOverTimeout == 5
      case Some(own) =>
        && t.max == (if own.max > 0 then own.max else 100)
        && t.holdOverTimeout == (if own.holdOverTimeout > 0 then own.holdOverTimeout else 5)
        && t.min == (if own.min > t.max then t.max - 1 else own.min)
  {
    assert profiles[..j + 1][..j] == profiles[..j];
  }

  /** A profile without a threshold of its own is to have the minimum zero. It has, exactly unless the
      last profile before it that sets one left another. */
  lemma {:induction false} MinimumCarriesOver(profiles: seq<NodeProfile>, i: nat)
    requires i < |profiles| && profiles[i].threshold.Some?
    requires forall j :: i < j < |profiles| ==> profiles[j].threshold.None?
    ensures MinAfter(profiles) == MinAfter(profiles[..i + 1])
  {
    if i < |profiles| - 1 {
      var before := profiles[..|profiles| - 1];
      MinimumCarriesOver(before, i);
      assert before[..i + 1] == profiles[..i + 1];
    } else {
      assert profiles[..i + 1] == profiles;
    }
  }

  lemma {:induction false} NoMinimum(profiles: seq<NodeProfile>)
    requires forall j :: 0 <= j < |profiles| ==> profiles[j].threshold.None?
    ensures MinAfter(profiles) == 0
  {
    if profiles != [] {
      NoMinimum(profiles[..|profiles| - 1]);
    }
  }

  lemma ThresholdsStart(profiles: seq<NodeProfile>, thresholds: map<Profile, Threshold>, nextChan: nat,
                        order: nat -> Profile)
    requires ThresholdsOf(profiles, thresholds, nextChan)
    requires profiles != [] ==> forall i :: Named(profiles, order(i))
    ensures thresholds == map[] || forall i :: order(i) in thresholds
    ensures forall p :: p in thresholds ==> thresholds[p].close < nextChan
    ensures forall p, q :: p in thresholds && q in thresholds && thresholds[p].close == thresholds[q].close ==> p == q
  {
    if profiles == [] {
      assert thresholds.Keys == {};
    }
  }
}
