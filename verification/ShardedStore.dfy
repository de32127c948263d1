/** The controller and the store together: which histories of the controller keep the store sound. */
module ShardedStore {
  import C = Controller
  import R = ControllerRuns
  import opened ShardState
  import opened ShardWorld
  import opened ShardReturns
  import opened ShardLimits

  function Row(shards: seq<int>): (r: seq<nat>)
    requires forall s :: 0 <= s < |shards| ==> shards[s] >= 0
    ensures |r| == |shards|
  {
    seq(|shards|, s requires 0 <= s < |shards| => shards[s] as nat)
  }

  ghost predicate AllSettled(configs: seq<C.Config>) {
    forall i :: 0 <= i < |configs| ==> C.Settled(configs[i])
  }

  /** The owners in every configuration, as the store's groups see them. */
  ghost function Rows(configs: seq<C.Config>): seq<seq<nat>>
    requires AllSettled(configs)
  {
    seq(|configs|, i requires 0 <= i < |configs| => Row(configs[i].shards))
  }

  /** Some group stays registered, once there has been one. */
  ghost predicate NeverEmptied(configs: seq<C.Config>) {
    forall i, j :: 0 <= i && j == i + 1 && j < |configs| && configs[i].groups != map[] ==> configs[j].groups != map[]
  }

  lemma HistorySettled(configs: seq<C.Config>, requests: seq<R.Request>)
    requires R.History(configs, requests) && R.AllSensible(configs, requests)
    ensures AllSettled(configs) && ConfigsOk(Rows(configs))
  {
    forall i | 0 <= i < |configs| ensures C.Settled(configs[i]) {
      R.EveryHistory(configs, requests, i);
    }
    assert configs[0] == R.FIRST;
  }

  /** A settled configuration gives every shard to a group, or none when there is no group. */
  lemma AllOrNone(configs: seq<C.Config>, i: nat, s: nat)
    requires AllSettled(configs) && ConfigsOk(Rows(configs)) && i < |configs| && s < NSHARDS
    ensures Assigned(Rows(configs), i, s) <==> configs[i].groups != map[]
  {
    var c := configs[i];
    assert C.Settled(c);
    assert c.groups == map[] <==> c.groups.Keys == {};
  }

  /** The controller never leaves an assigned shard to nobody exactly when some group stays registered. */
  lemma NoReturnExactlyWhen(configs: seq<C.Config>, requests: seq<R.Request>)
    requires R.History(configs, requests) && R.AllSensible(configs, requests)
    ensures AllSettled(configs) && ConfigsOk(Rows(configs))
    ensures NoReturn(Rows(configs)) <==> NeverEmptied(configs)
  {
    HistorySettled(configs, requests);
    var cs := Rows(configs);
    hide R.History, R.AllSensible, C.Settled;
    forall i: nat, s: nat | i < |configs| && s < NSHARDS ensures Assigned(cs, i, s) <==> configs[i].groups != map[] {
      AllOrNone(configs, i, s);
    }
    hide Assigned;
    if NoReturn(cs) {
      forall i, j | 0 <= i && j == i + 1 && j < |configs| && configs[i].groups != map[]
          ensures configs[j].groups != map[] {
        assert |cs| == |configs| && Assigned(cs, i, 0);
        assert Assigned(cs, j, 0);
      }
    }
  }

  /** With a group always registered, no run of the store loses or mixes up a write. */
  lemma HistoryKeepsStore(configs: seq<C.Config>, requests: seq<R.Request>)
    requires R.History(configs, requests) && R.AllSensible(configs, requests) && NeverEmptied(configs)
    ensures AllSettled(configs) && AlwaysSound(Rows(configs))
  {
    NoReturnExactlyWhen(configs, requests);
    hide R.History, R.AllSensible, NeverEmptied, NoReturn;
    NoReturnFaithful(Rows(configs));
    SoundExactlyWhen(Rows(configs));
  }

  /** Otherwise it may: when the only group leaves and another joins. */
  lemma EmptiedLosesWrites(configs: seq<C.Config>, requests: seq<R.Request>, servers: seq<string>)
    requires R.History(configs, requests)
    requires requests == [R.Join(map[1 := servers]), R.Leave([1]), R.Join(map[2 := servers])]
    ensures AllSettled(configs) && !AlwaysSound(Rows(configs))
  {
    EmptiedGroups(configs, requests, servers);
    EmptiedSensible(configs, requests, servers);
    HistorySettled(configs, requests);
    var cs := Rows(configs);
    assert |cs| == 4 && cs[1][0] == 1 && cs[2][0] == 0 && cs[3][0] == 2 by {
      OnlyGroup(configs[1], 1);
      OnlyGroup(configs[3], 2);
      AllOrNone(configs, 2, 0);
    }
    assert Holder(cs, 2, 0) == 1 by {
      assert Holder(cs, 1, 0) == 1;
    }
    assert !HandedBack(cs, 3, 0);
    hide R.History;
    SoundExactlyWhen(cs);
  }

  lemma OnlyGroup(c: C.Config, g: int)
    requires C.Settled(c) && c.groups.Keys == {g}
    ensures c.shards[0] == g
  {
  }

  lemma EmptiedGroups(configs: seq<C.Config>, requests: seq<R.Request>, servers: seq<string>)
    requires R.History(configs, requests)
    requires requests == [R.Join(map[1 := servers]), R.Leave([1]), R.Join(map[2 := servers])]
    ensures |configs| == 4
    ensures configs[1].groups.Keys == {1} && configs[2].groups == map[] && configs[3].groups.Keys == {2}
  {
    HistoryStarts(configs, requests);
    hide R.History, R.Next, C.Without;
    GroupsAfter(configs, requests, 0);
    GroupsAfter(configs, requests, 1);
    GroupsAfter(configs, requests, 2);
    JoinedOne(1, servers);
    JoinedOne(2, servers);
    LeftAll(configs[1].groups, 1);
  }

  lemma EmptiedSensible(configs: seq<C.Config>, requests: seq<R.Request>, servers: seq<string>)
    requires requests == [R.Join(map[1 := servers]), R.Leave([1]), R.Join(map[2 := servers])] && |configs| == 4
    ensures R.AllSensible(configs, requests)
  {
    forall i | 0 <= i < 3 ensures R.Sensible(configs[i], requests[i]) {
      if i == 0 {
        assert 1 in map[1 := servers] + configs[i].groups;
      } else if i == 2 {
        assert 2 in map[2 := servers] + configs[i].groups;
      }
    }
  }

  lemma HistoryStarts(configs: seq<C.Config>, requests: seq<R.Request>)
    requires R.History(configs, requests)
    ensures |configs| == |requests| + 1 && configs[0].groups == map[]
  {
  }

  lemma JoinedOne(g: int, servers: seq<string>)
    ensures (map[g := servers] + map[]).Keys == {g}
  {
  }

  lemma LeftAll(groups: map<int, seq<string>>, g: int)
    requires groups.Keys == {g}
    ensures C.Without(groups, [g]) == map[]
  {
  }

  lemma GroupsAfter(configs: seq<C.Config>, requests: seq<R.Request>, i: nat)
    requires R.History(configs, requests) && i < |requests|
    ensures requests[i].Join? ==> configs[i + 1].groups == requests[i].groups + configs[i].groups
    ensures requests[i].Leave? ==> configs[i + 1].groups == C.Without(configs[i].groups, requests[i].gids)
  {
    R.HistorySized(configs, requests, i);
    assert R.MadeAt(configs, requests, i);
    R.NextGroups(configs[i], requests[i], i + 1);
  }
}
