/** Merging every application's request for one topic name into the single
    set of settings pushed to the admin API (managed-ephem.go, ephemProcessTopicValues). */
module TopicAggregation {
  import opened Base
  import opened AdminApi

  /** One application's request for a topic. */
  datatype TopicRequest = TopicRequest(
    topicName: string,
    partitions: int,
    replicas: int,
    config: map<string, string>)

  datatype App = App(name: string, kafkaTopics: seq<TopicRequest>)

  /** A merge function for one config key over all values the apps gave for it.
      The source's converters also return an error, which the caller discards. */
  type Converter = seq<string> -> string

  /** The topic's name on the remote cluster. */
  function EphemTopicName(envName: string, topicName: string): string
  {
    envName + "-" + topicName
  }

  /** Within one environment, two requested names share a remote topic only
      when they are the same name. */
  lemma EphemTopicNameInjective(envName: string, a: string, b: string)
    ensures EphemTopicName(envName, a) == EphemTopicName(envName, b) <==> a == b
  {
    var n := |envName| + 1;
    if EphemTopicName(envName, a) == EphemTopicName(envName, b) {
      assert EphemTopicName(envName, a)[n..] == a;
      assert EphemTopicName(envName, b)[n..] == b;
    }
  }

  // ---------------------------------------------------------------------------
  // Which requests take part

  function Last<T>(s: seq<T>): T
    requires s != []
  {
    s[|s| - 1]
  }

  /** The requests in `topics` for `name`, in order. */
  function MatchingRequests(topics: seq<TopicRequest>, name: string): seq<TopicRequest>
    decreases |topics|
  {
    if topics == [] then []
    else
      MatchingRequests(topics[..|topics| - 1], name)
      + (if Last(topics).topicName == name then [Last(topics)] else [])
  }

  /** Every app's requests for `name`, app by app, in order. */
  function Matching(apps: seq<App>, name: string): seq<TopicRequest>
    decreases |apps|
  {
    if apps == [] then []
    else Matching(apps[..|apps| - 1], name) + MatchingRequests(Last(apps).kafkaTopics, name)
  }

  /** A request takes part exactly when it asks for the topic's name. */
  lemma {:induction false} MatchingRequestsSpec(topics: seq<TopicRequest>, name: string, t: TopicRequest)
    ensures t in MatchingRequests(topics, name) <==> t in topics && t.topicName == name
    decreases |topics|
  {
    if topics != [] {
      var init := topics[..|topics| - 1];
      assert topics == init + [Last(topics)];
      MatchingRequestsSpec(init, name, t);
    }
  }

  /** The requests taken from all apps are exactly their requests for the
      topic's name. */
  lemma {:induction false} MatchingSpec(apps: seq<App>, name: string, t: TopicRequest)
    ensures t in Matching(apps, name) <==> t.topicName == name && exists a :: a in apps && t in a.kafkaTopics
    decreases |apps|
  {
    if apps != [] {
      var init, last := apps[..|apps| - 1], Last(apps);
      assert apps == init + [last];
      MatchingSpec(init, name, t);
      MatchingRequestsSpec(last.kafkaTopics, name, t);
      if t.topicName == name && exists a :: a in apps && t in a.kafkaTopics {
        var a :| a in apps && t in a.kafkaTopics;
        if a != last {
          assert a in init;
        }
      }
    }
  }

  // ---------------------------------------------------------------------------
  // Per-request values, kept in request order

  /** For each request, in order, the value `f` picks from it, if any. */
  function FilterMap<T>(reqs: seq<TopicRequest>, f: TopicRequest -> Option<T>): seq<T>
    decreases |reqs|
  {
    if reqs == [] then []
    else
      var init := reqs[..|reqs| - 1];
      FilterMap(init, f) + (match f(Last(reqs)) case Some(v) => [v] case None => [])
  }

  function ReplicaOf(t: TopicRequest): Option<int> { Some(t.replicas) }

  function PartitionOf(t: TopicRequest): Option<int> { Some(t.partitions) }

  function ValueOf(key: string): TopicRequest -> Option<string>
  {
    (t: TopicRequest) => if key in t.config then Some(t.config[key]) else None
  }

  /** The replica counts requested, one per request. */
  function Replicas(reqs: seq<TopicRequest>): seq<int>
  {
    FilterMap(reqs, ReplicaOf)
  }

  /** The partition counts requested, one per request. */
  function Partitions(reqs: seq<TopicRequest>): seq<int>
  {
    FilterMap(reqs, PartitionOf)
  }

  /** The values the requests give for `key`, in request order. */
  function ValuesFor(reqs: seq<TopicRequest>, key: string): seq<string>
  {
    FilterMap(reqs, ValueOf(key))
  }

  lemma {:induction false} FilterMapAppend<T>(a: seq<TopicRequest>, b: seq<TopicRequest>, f: TopicRequest -> Option<T>)
    ensures FilterMap(a + b, f) == FilterMap(a, f) + FilterMap(b, f)
    decreases |b|
  {
    if b == [] {
      assert a + b == a;
    } else {
      var init := b[..|b| - 1];
      assert (a + b)[..|a + b| - 1] == a + init;
      FilterMapAppend(a, init, f);
    }
  }

  lemma FilterMapSingle<T>(t: TopicRequest, f: TopicRequest -> Option<T>)
    ensures FilterMap([t], f) == (match f(t) case Some(v) => [v] case None => [])
  {
    assert [t][..0] == [];
  }

  lemma MultisetCancel<T>(m1: multiset<T>, m2: multiset<T>, x: T)
    requires m1 + multiset{x} == m2 + multiset{x}
    ensures m1 == m2
  {
    forall y ensures m1[y] == m2[y] {
      assert (m1 + multiset{x})[y] == m1[y] + multiset{x}[y];
      assert (m2 + multiset{x})[y] == m2[y] + multiset{x}[y];
    }
  }

  /** Only the multiset of requests matters to the multiset of picked values:
      reordering the apps or their requests permutes the values. */
  lemma {:induction false} FilterMapPermutation<T>(a: seq<TopicRequest>, b: seq<TopicRequest>, f: TopicRequest -> Option<T>)
    requires multiset(a) == multiset(b)
    ensures multiset(FilterMap(a, f)) == multiset(FilterMap(b, f))
    decreases |a|
  {
    if a != [] {
      var init, x := a[..|a| - 1], Last(a);
      assert a == init + [x];
      assert x in multiset(b);
      var k :| 0 <= k < |b| && b[k] == x;
      var u, w := b[..k], b[k + 1..];
      assert b == u + [x] + w;
      assert multiset(a) == multiset(init) + multiset{x};
      assert multiset(b) == multiset(u + w) + multiset{x};
      MultisetCancel(multiset(init), multiset(u + w), x);
      FilterMapPermutation(init, u + w, f);
      FilterMapAppend(init, [x], f);
      FilterMapAppend(u, w, f);
      FilterMapAppend(u + [x], w, f);
      FilterMapAppend(u, [x], f);
    }
  }

  /** The config keys any request sets. */
  function ConfigKeys(reqs: seq<TopicRequest>): set<string>
    decreases |reqs|
  {
    if reqs == [] then {}
    else ConfigKeys(reqs[..|reqs| - 1]) + Last(reqs).config.Keys
  }

  lemma {:induction false} ConfigKeysSpec(reqs: seq<TopicRequest>, key: string)
    ensures key in ConfigKeys(reqs) <==> exists t :: t in reqs && key in t.config
    decreases |reqs|
  {
    if reqs != [] {
      var init := reqs[..|reqs| - 1];
      assert reqs == init + [Last(reqs)];
      ConfigKeysSpec(init, key);
    }
  }

  lemma {:induction false} ValuesForEmpty(reqs: seq<TopicRequest>, key: string)
    ensures ValuesFor(reqs, key) == [] <==> key !in ConfigKeys(reqs)
    decreases |reqs|
  {
    if reqs != [] {
      var init := reqs[..|reqs| - 1];
      assert reqs == init + [Last(reqs)];
      ValuesForEmpty(init, key);
    }
  }

  /** Each key any matching request sets, with every value given for it in
      request order: the `keys` map the source builds. */
  function GroupConfig(reqs: seq<TopicRequest>): map<string, seq<string>>
  {
    map k | k in ConfigKeys(reqs) :: ValuesFor(reqs, k)
  }

  /** The grouped config has exactly the keys some request sets, and each key's
      list holds exactly the values the requests gave, one per setting request. */
  lemma {:induction false} GroupConfigSpec(reqs: seq<TopicRequest>, key: string)
    ensures key in GroupConfig(reqs) <==> exists t :: t in reqs && key in t.config
    ensures key in GroupConfig(reqs) ==> GroupConfig(reqs)[key] != []
    ensures key in GroupConfig(reqs) ==>
      forall v :: v in GroupConfig(reqs)[key] <==> exists t :: t in reqs && key in t.config && t.config[key] == v
    decreases |reqs|
  {
    ValuesForEmpty(reqs, key);
    ConfigKeysSpec(reqs, key);
    if reqs != [] && key in GroupConfig(reqs) {
      var init, x := reqs[..|reqs| - 1], Last(reqs);
      assert reqs == init + [x];
      GroupConfigSpec(init, key);
      ValuesForEmpty(init, key);
      forall v ensures v in ValuesFor(reqs, key) <==> exists t :: t in reqs && key in t.config && t.config[key] == v {
        if v in ValuesFor(reqs, key) {
          if v in ValuesFor(init, key) {
            var t :| t in init && key in t.config && t.config[key] == v;
            assert t in reqs;
          } else {
            assert x in reqs;
          }
        }
        if exists t :: t in reqs && key in t.config && t.config[key] == v {
          var t :| t in reqs && key in t.config && t.config[key] == v;
          if t != x {
            assert t in init;
            assert key in GroupConfig(init);
          }
        }
      }
    }
  }

  /** The grouped config after also taking the keys `ks` of request `t`. */
  function AddRequest(m: map<string, seq<string>>, t: TopicRequest, ks: set<string>): map<string, seq<string>>
    requires ks <= t.config.Keys
  {
    map k | k in m.Keys + ks :: (if k in m then m[k] else []) + (if k in ks then [t.config[k]] else [])
  }

  lemma AddRequestNone(m: map<string, seq<string>>, t: TopicRequest)
    ensures AddRequest(m, t, {}) == m
  {
    var r := AddRequest(m, t, {});
    assert forall k :: k in r ==> r[k] == m[k];
  }

  lemma AddRequestStep(m: map<string, seq<string>>, t: TopicRequest, ks: set<string>, key: string)
    requires ks <= t.config.Keys && key in t.config && key !in ks
    ensures var before := AddRequest(m, t, ks);
      AddRequest(m, t, ks + {key}) == before[key := (if key in before then before[key] else []) + [t.config[key]]]
  {
    var before := AddRequest(m, t, ks);
    var after := AddRequest(m, t, ks + {key});
    var expected := before[key := (if key in before then before[key] else []) + [t.config[key]]];
    assert after.Keys == expected.Keys;
    forall k | k in after ensures after[k] == expected[k] {
    }
  }

  lemma ValuesForAppend(reqs: seq<TopicRequest>, t: TopicRequest, key: string)
    ensures ValuesFor(reqs + [t], key) == ValuesFor(reqs, key) + (if key in t.config then [t.config[key]] else [])
  {
    var all := reqs + [t];
    assert all[..|all| - 1] == reqs;
  }

  lemma GroupConfigAppend(reqs: seq<TopicRequest>, t: TopicRequest)
    ensures GroupConfig(reqs + [t]) == AddRequest(GroupConfig(reqs), t, t.config.Keys)
  {
    var all := reqs + [t];
    assert all[..|all| - 1] == reqs;
    var g, m := GroupConfig(all), AddRequest(GroupConfig(reqs), t, t.config.Keys);
    assert ConfigKeys(all) == ConfigKeys(reqs) + t.config.Keys;
    assert g.Keys == m.Keys;
    forall k | k in g ensures g[k] == m[k] {
      ValuesForAppend(reqs, t, k);
      ValuesForEmpty(reqs, k);
    }
  }

  lemma MatchingStep(apps: seq<App>, i: nat, name: string)
    requires i < |apps|
    ensures Matching(apps[..i + 1], name) == Matching(apps[..i], name) + MatchingRequests(apps[i].kafkaTopics, name)
  {
    assert apps[..i + 1][..i] == apps[..i];
  }

  lemma MatchingRequestsStep(topics: seq<TopicRequest>, j: nat, name: string)
    requires j < |topics|
    ensures MatchingRequests(topics[..j + 1], name) ==
      MatchingRequests(topics[..j], name) + (if topics[j].topicName == name then [topics[j]] else [])
  {
    assert topics[..j + 1][..j] == topics[..j];
  }

  lemma MatchingRequestsStepAfter(prefix: seq<TopicRequest>, topics: seq<TopicRequest>, j: nat, name: string)
    requires j < |topics|
    ensures prefix + MatchingRequests(topics[..j + 1], name) ==
      prefix + MatchingRequests(topics[..j], name) + (if topics[j].topicName == name then [topics[j]] else [])
  {
    MatchingRequestsStep(topics, j, name);
  }

  /** The innermost loop of the source's collection: append each of the
      request's config values to its key's list, creating the list if absent.
      The keys are visited in an unspecified order. */
  method AppendConfigValues(keys: map<string, seq<string>>, topic: TopicRequest)
    returns (result: map<string, seq<string>>)
    ensures result == AddRequest(keys, topic, topic.config.Keys)
  {
    result := keys;
    var remaining := topic.config.Keys;
    AddRequestNone(keys, topic);
    while remaining != {}
      invariant remaining <= topic.config.Keys
      invariant result == AddRequest(keys, topic, topic.config.Keys - remaining)
      decreases remaining
    {
      var key :| key in remaining;
      AddRequestStep(keys, topic, topic.config.Keys - remaining, key);
      assert topic.config.Keys - remaining + {key} == topic.config.Keys - (remaining - {key});
      result := result[key := (if key in result then result[key] else []) + [topic.config[key]]];
      remaining := remaining - {key};
    }
    assert topic.config.Keys - remaining == topic.config.Keys;
  }

  /** Taking one more matching request: its config values join their keys'
      lists and its counts join the count lists. */
  lemma CollectStep(done: seq<TopicRequest>, topic: TopicRequest,
                    keysBefore: map<string, seq<string>>, keysAfter: map<string, seq<string>>)
    requires keysBefore == GroupConfig(done)
    requires keysAfter == AddRequest(keysBefore, topic, topic.config.Keys)
    ensures keysAfter == GroupConfig(done + [topic])
    ensures Replicas(done + [topic]) == Replicas(done) + [topic.replicas]
    ensures Partitions(done + [topic]) == Partitions(done) + [topic.partitions]
  {
    GroupConfigAppend(done, topic);
    FilterMapAppend(done, [topic], ReplicaOf);
    FilterMapAppend(done, [topic], PartitionOf);
    FilterMapSingle(topic, ReplicaOf);
    FilterMapSingle(topic, PartitionOf);
  }

  /** The source's collection loop: for every app, for every requested topic
      with the wanted name, note its replica and partition counts and append
      each of its config values to that key's list. */
  method CollectTopicRequests(apps: seq<App>, topicName: string)
    returns (keys: map<string, seq<string>>, replicaVals: seq<int>, partitionVals: seq<int>)
    ensures keys == GroupConfig(Matching(apps, topicName))
    ensures replicaVals == Replicas(Matching(apps, topicName))
    ensures partitionVals == Partitions(Matching(apps, topicName))
  {
    keys, replicaVals, partitionVals := map[], [], [];
    ghost var done: seq<TopicRequest> := [];
    var i := 0;
    while i < |apps|
      invariant 0 <= i <= |apps|
      invariant done == Matching(apps[..i], topicName)
      invariant keys == GroupConfig(done)
      invariant replicaVals == Replicas(done) && partitionVals == Partitions(done)
    {
      var topics := apps[i].kafkaTopics;
      var j := 0;
      while j < |topics|
        invariant 0 <= j <= |topics|
        invariant done == Matching(apps[..i], topicName) + MatchingRequests(topics[..j], topicName)
        invariant keys == GroupConfig(done)
        invariant replicaVals == Replicas(done) && partitionVals == Partitions(done)
      {
        var topic := topics[j];
        MatchingRequestsStepAfter(Matching(apps[..i], topicName), topics, j, topicName);
        if topic.topicName == topicName {
          ghost var keysBefore := keys;
          replicaVals := replicaVals + [topic.replicas];
          partitionVals := partitionVals + [topic.partitions];
          keys := AppendConfigValues(keys, topic);
          CollectStep(done, topic, keysBefore, keys);
          done := done + [topic];
        }
        j := j + 1;
      }
      assert topics[..j] == topics;
      MatchingStep(apps, i, topicName);
      i := i + 1;
    }
    assert apps[..i] == apps;
  }

  // ---------------------------------------------------------------------------
  // Converting the grouped config

  /** Every key's values merged by that key's converter. */
  function Converted(groups: map<string, seq<string>>, conversions: map<string, Converter>): map<string, string>
    requires groups.Keys <= conversions.Keys
  {
    map k | k in groups :: conversions[k](groups[k])
  }

  /** The source's conversion loop. It visits the keys in an unspecified order
      and stops at the first key without a converter, so which missing key the
      error names is not determined. */
  method ConvertConfig(groups: map<string, seq<string>>, conversions: map<string, Converter>)
    returns (r: Result<map<string, string>>)
    ensures r.Ok? <==> groups.Keys <= conversions.Keys
    ensures r.Ok? ==> r.value == Converted(groups, conversions)
    ensures r.Err? ==> r.error.NoConversion? && r.error.key in groups && r.error.key !in conversions
  {
    var remaining := groups.Keys;
    var out := map[];
    while remaining != {}
      invariant remaining <= groups.Keys
      invariant forall k :: k in groups && k !in remaining ==> k in conversions
      invariant out == map k | k in groups.Keys - remaining :: conversions[k](groups[k])
      decreases remaining
    {
      var key :| key in remaining;
      if key in conversions {
        out := out[key := conversions[key](groups[key])];
        remaining := remaining - {key};
      } else {
        return Err(NoConversion(key));
      }
    }
    assert groups.Keys - remaining == groups.Keys;
    return Ok(out);
  }

  // ---------------------------------------------------------------------------
  // Replica and partition counts

  function MaxOf(vals: seq<int>): (m: int)
    requires vals != []
    ensures m in vals
    ensures forall v :: v in vals ==> v <= m
    decreases |vals|
  {
    if |vals| == 1 then vals[0]
    else
      var rest := MaxOf(vals[1..]);
      assert vals == [vals[0]] + vals[1..];
      if vals[0] < rest then rest else vals[0]
  }

  /** The count for a topic from the requested counts: the largest requested
      value, 3 when that is below 1, and 0 when nothing was requested. */
  function TopicCount(vals: seq<int>): (n: int)
    ensures vals == [] ==> n == 0
    ensures (exists v :: v in vals && v >= 1) ==> n in vals && forall v :: v in vals ==> v <= n
    ensures vals != [] && (forall v :: v in vals ==> v < 1) ==> n == 3
  {
    if vals == [] then 0
    else
      var m := MaxOf(vals);
      if m < 1 then 3 else m
  }

  lemma TopicCountPermutation(a: seq<int>, b: seq<int>)
    requires multiset(a) == multiset(b)
    ensures TopicCount(a) == TopicCount(b)
  {
    assert forall v :: v in a <==> v in b by {
      forall v ensures v in a <==> v in b {
        assert v in a <==> v in multiset(a);
        assert v in b <==> v in multiset(b);
      }
    }
  }

  /** The environment's cluster replica cap applied to the computed replicas. */
  function ClampReplicas(replicas: int, clusterReplicas: int): (n: int)
    ensures clusterReplicas < 1 ==> n == 1
    ensures clusterReplicas >= 1 ==> n <= clusterReplicas && n <= replicas
    ensures clusterReplicas >= 1 ==> n == clusterReplicas || n == replicas
  {
    if clusterReplicas < 1 then 1
    else if clusterReplicas < replicas then clusterReplicas
    else replicas
  }

  // ---------------------------------------------------------------------------
  // The whole aggregation

  /** The settings the source computes for `topicName`, or None when some key a
      matching request sets has no converter. */
  function AggregateSpec(apps: seq<App>, topicName: string, conversions: map<string, Converter>,
                         clusterReplicas: int): Option<Settings>
  {
    var reqs := Matching(apps, topicName);
    var groups := GroupConfig(reqs);
    if groups.Keys <= conversions.Keys then
      Some(Settings(
        TopicCount(Partitions(reqs)),
        ClampReplicas(TopicCount(Replicas(reqs)), clusterReplicas),
        Converted(groups, conversions)))
    else None
  }

  /** Aggregation fails exactly when some app's request for the topic sets a
      key that has no converter, whatever the other keys are. */
  lemma AggregateFailsOnUnknownKey(apps: seq<App>, topicName: string, conversions: map<string, Converter>,
                                   clusterReplicas: int)
    ensures AggregateSpec(apps, topicName, conversions, clusterReplicas).None? <==>
      exists a, t, k :: a in apps && t in a.kafkaTopics && t.topicName == topicName && k in t.config && k !in conversions
  {
    var reqs := Matching(apps, topicName);
    if AggregateSpec(apps, topicName, conversions, clusterReplicas).None? {
      var k :| k in GroupConfig(reqs) && k !in conversions;
      GroupConfigSpec(reqs, k);
      var t :| t in reqs && k in t.config;
      MatchingSpec(apps, topicName, t);
      var a :| a in apps && t in a.kafkaTopics;
      assert a in apps && t in a.kafkaTopics && t.topicName == topicName && k in t.config && k !in conversions;
    }
    if exists a, t, k :: a in apps && t in a.kafkaTopics && t.topicName == topicName && k in t.config && k !in conversions {
      var a, t, k :| a in apps && t in a.kafkaTopics && t.topicName == topicName && k in t.config && k !in conversions;
      MatchingSpec(apps, topicName, t);
      GroupConfigSpec(reqs, k);
      assert k in GroupConfig(reqs);
    }
  }

  /** A successful aggregation's config has exactly the keys set by some app's
      request for the topic, each mapped to its converter applied to all values
      given for it. */
  lemma AggregateConfigKeys(apps: seq<App>, topicName: string, conversions: map<string, Converter>,
                            clusterReplicas: int, key: string)
    requires AggregateSpec(apps, topicName, conversions, clusterReplicas).Some?
    ensures var s := AggregateSpec(apps, topicName, conversions, clusterReplicas).value;
      && (key in s.config <==> exists a, t :: a in apps && t in a.kafkaTopics && t.topicName == topicName && key in t.config)
      && (key in s.config ==> s.config[key] == conversions[key](ValuesFor(Matching(apps, topicName), key)))
  {
    var reqs := Matching(apps, topicName);
    GroupConfigSpec(reqs, key);
    if exists t :: t in reqs && key in t.config {
      var t :| t in reqs && key in t.config;
      MatchingSpec(apps, topicName, t);
      var a :| a in apps && t in a.kafkaTopics;
      assert a in apps && t in a.kafkaTopics && t.topicName == topicName && key in t.config;
    }
    if exists a, t :: a in apps && t in a.kafkaTopics && t.topicName == topicName && key in t.config {
      var a, t :| a in apps && t in a.kafkaTopics && t.topicName == topicName && key in t.config;
      MatchingSpec(apps, topicName, t);
    }
  }

  /** Partitions: the largest requested count when that is at least 1, else 3,
      and 0 when no app requested the topic. Replicas: the same count, then
      capped; a cap below 1 forces 1. The cap never touches partitions. */
  lemma AggregateCounts(apps: seq<App>, topicName: string, conversions: map<string, Converter>,
                        clusterReplicas: int)
    requires AggregateSpec(apps, topicName, conversions, clusterReplicas).Some?
    ensures var s := AggregateSpec(apps, topicName, conversions, clusterReplicas).value;
      var reqs := Matching(apps, topicName);
      && (reqs == [] ==> s.numPartitions == 0)
      && (reqs != [] && MaxOf(Partitions(reqs)) >= 1 ==> s.numPartitions == MaxOf(Partitions(reqs)))
      && (reqs != [] && MaxOf(Partitions(reqs)) < 1 ==> s.numPartitions == 3)
      && (clusterReplicas < 1 ==> s.numReplicas == 1)
      && (clusterReplicas >= 1 && reqs == [] ==> s.numReplicas == 0)
      && (clusterReplicas >= 1 && reqs != [] ==>
            s.numReplicas == Min(clusterReplicas, if MaxOf(Replicas(reqs)) >= 1 then MaxOf(Replicas(reqs)) else 3))
  {
    var reqs := Matching(apps, topicName);
    LengthOfCounts(reqs);
  }

  /** The cluster replica cap changes the replicas only: two caps give the same
      partitions and config. */
  lemma CapLeavesPartitionsAndConfig(apps: seq<App>, topicName: string, conversions: map<string, Converter>,
                                     cap1: int, cap2: int)
    ensures AggregateSpec(apps, topicName, conversions, cap1).Some? == AggregateSpec(apps, topicName, conversions, cap2).Some?
    ensures AggregateSpec(apps, topicName, conversions, cap1).Some? ==>
      var s1, s2 := AggregateSpec(apps, topicName, conversions, cap1).value, AggregateSpec(apps, topicName, conversions, cap2).value;
      s1.numPartitions == s2.numPartitions && s1.config == s2.config
  {
  }

  function Min(a: int, b: int): int { if a < b then a else b }

  lemma LengthOfCounts(reqs: seq<TopicRequest>)
    ensures |Replicas(reqs)| == |reqs| && |Partitions(reqs)| == |reqs|
  {
    if reqs != [] {
      LengthOfCounts(reqs[..|reqs| - 1]);
    }
  }

  /** A converter that gives the same answer for any order of its values. */
  ghost predicate OrderInsensitive(f: Converter)
  {
    forall a: seq<string>, b: seq<string> :: multiset(a) == multiset(b) ==> f(a) == f(b)
  }

  lemma ConfigKeysPermutation(r1: seq<TopicRequest>, r2: seq<TopicRequest>)
    requires multiset(r1) == multiset(r2)
    ensures ConfigKeys(r1) == ConfigKeys(r2)
  {
    forall k ensures k in ConfigKeys(r1) ==> k in ConfigKeys(r2) {
      ConfigKeysSpec(r1, k);
      ConfigKeysSpec(r2, k);
      if k in ConfigKeys(r1) {
        var t :| t in r1 && k in t.config;
        assert t in multiset(r2);
      }
    }
    forall k ensures k in ConfigKeys(r2) ==> k in ConfigKeys(r1) {
      ConfigKeysSpec(r1, k);
      ConfigKeysSpec(r2, k);
      if k in ConfigKeys(r2) {
        var t :| t in r2 && k in t.config;
        assert t in multiset(r1);
      }
    }
  }

  lemma ConvertedPermutation(r1: seq<TopicRequest>, r2: seq<TopicRequest>, conversions: map<string, Converter>)
    requires multiset(r1) == multiset(r2)
    requires forall k :: k in conversions ==> OrderInsensitive(conversions[k])
    requires GroupConfig(r1).Keys <= conversions.Keys
    ensures GroupConfig(r2).Keys <= conversions.Keys
    ensures Converted(GroupConfig(r1), conversions) == Converted(GroupConfig(r2), conversions)
  {
    ConfigKeysPermutation(r1, r2);
    var c1, c2 := Converted(GroupConfig(r1), conversions), Converted(GroupConfig(r2), conversions);
    assert c1.Keys == c2.Keys;
    forall k | k in c1 ensures c1[k] == c2[k] {
      FilterMapPermutation(r1, r2, ValueOf(k));
      assert OrderInsensitive(conversions[k]);
    }
  }

  /** Aggregation does not depend on the order in which apps or their requests
      are listed, provided every converter ignores the order of its values. */
  lemma AggregateOrderIndependent(apps1: seq<App>, apps2: seq<App>, topicName: string,
                                  conversions: map<string, Converter>, clusterReplicas: int)
    requires multiset(Matching(apps1, topicName)) == multiset(Matching(apps2, topicName))
    requires forall k :: k in conversions ==> OrderInsensitive(conversions[k])
    ensures AggregateSpec(apps1, topicName, conversions, clusterReplicas)
         == AggregateSpec(apps2, topicName, conversions, clusterReplicas)
  {
    var r1, r2 := Matching(apps1, topicName), Matching(apps2, topicName);
    FilterMapPermutation(r1, r2, ReplicaOf);
    FilterMapPermutation(r1, r2, PartitionOf);
    TopicCountPermutation(Replicas(r1), Replicas(r2));
    TopicCountPermutation(Partitions(r1), Partitions(r2));
    ConfigKeysPermutation(r1, r2);
    if GroupConfig(r1).Keys <= conversions.Keys {
      ConvertedPermutation(r1, r2, conversions);
    }
  }

  /** The source's aggregation: collect, convert (failing before any request
      on a key without a converter), count, then cap the replicas. */
  method AggregateSettings(apps: seq<App>, topicName: string, conversions: map<string, Converter>,
                           clusterReplicas: int)
    returns (r: Result<Settings>)
    ensures r.Ok? <==> AggregateSpec(apps, topicName, conversions, clusterReplicas).Some?
    ensures r.Ok? ==> r.value == AggregateSpec(apps, topicName, conversions, clusterReplicas).value
    ensures r.Err? ==>
      && r.error.NoConversion?
      && r.error.key in GroupConfig(Matching(apps, topicName))
      && r.error.key !in conversions
  {
    var keys, replicaVals, partitionVals := CollectTopicRequests(apps, topicName);
    var converted := ConvertConfig(keys, conversions);
    if converted.Err? {
      return Err(converted.error);
    }
    var replicas := 0;
    var partitions := 0;
    if |replicaVals| > 0 {
      replicas := MaxOf(replicaVals);
      if replicas < 1 {
        replicas := 3;
      }
    }
    if |partitionVals| > 0 {
      partitions := MaxOf(partitionVals);
      if partitions < 1 {
        partitions := 3;
      }
    }
    if clusterReplicas < 1 {
      replicas := 1;
    } else if clusterReplicas < replicas {
      replicas := clusterReplicas;
    }
    return Ok(Settings(partitions, replicas, converted.value));
  }
}
