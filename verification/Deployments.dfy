/** Building and updating the deployment of a host, in place on a deep copy of the memo. */
module Deployments {
  import opened Options
  import opened EnvVars
  import opened Flags

  datatype Volume = Volume(name: string, configMap: Option<string>)

  /** The parts of a deployment that the mutate function touches. `resources` is 0 when unset. */
  datatype PodValue = PodValue(name: string, args: seq<string>, command: seq<string>, env: Env, resources: nat,
                               account: string, volumes: seq<Volume>, replicas: Option<nat>)

  datatype HostSettings = HostSettings(name: string, env: Env, resources: nat, replicas: Option<nat>)

  function Mount(v: Volume, host: string): Volume {
    if v.name == "config" then v.(configMap := Some(host)) else v
  }

  function Mounted(volumes: seq<Volume>, host: string): seq<Volume> {
    seq(|volumes|, i requires 0 <= i < |volumes| => Mount(volumes[i], host))
  }

  /** A volume named "config" has a config map; the code dereferences it. */
  predicate Mountable(volumes: seq<Volume>) {
    forall i :: 0 <= i < |volumes| && volumes[i].name == "config" ==> volumes[i].configMap.Some?
  }

  lemma MountedIsMountable(volumes: seq<Volume>, host: string)
    ensures Mountable(Mounted(volumes, host))
  {
  }

  /** What a pass makes of the deployment it finds or has just copied from the memo. */
  function Mutated(v: PodValue, h: HostSettings): PodValue {
    PodValue(h.name, NewArgs(v.args, v.command, h.name), RewriteAll(v.command, h.name),
             if |h.env| > 0 then Merge(v.env, h.env) else v.env,
             if h.resources > 0 then h.resources else v.resources,
             h.name, Mounted(v.volumes, h.name),
             if h.replicas.Some? then h.replicas else v.replicas)
  }

  /** Every volume keeps its place and name; the config volume names the host's config map. */
  predicate Remounted(before: seq<Volume>, after: seq<Volume>, host: string) {
    && |after| == |before|
    && forall i :: 0 <= i < |before| ==>
         && after[i].name == before[i].name
         && after[i].configMap == if before[i].name == "config" then Some(host) else before[i].configMap
  }

  /** What a host puts into its deployment, field by field. */
  ghost predicate Deployed(before: PodValue, h: HostSettings, after: PodValue) {
    && after.name == h.name && after.account == h.name
    && (forall name :: Lookup(after.env, name) ==
          if Lookup(h.env, name).Some? then Lookup(h.env, name) else Lookup(before.env, name))
    && after.env == Merge(before.env, h.env)
    && (h.replicas.Some? ==> after.replicas == h.replicas)
    && (h.replicas.None? ==> after.replicas == before.replicas)
    && (h.resources > 0 ==> after.resources == h.resources)
    && (h.resources == 0 ==> after.resources == before.resources)
    && Remounted(before.volumes, after.volumes, h.name)
    && after.args == NewArgs(before.args, before.command, h.name)
    && after.command == RewriteAll(before.command, h.name)
  }

  lemma MutatedIsDeployed(v: PodValue, h: HostSettings)
    ensures Deployed(v, h, Mutated(v, h))
  {
    forall name ensures Lookup(Merge(v.env, h.env), name) ==
      if Lookup(h.env, name).Some? then Lookup(h.env, name) else Lookup(v.env, name)
    {
      MergeLookup(v.env, h.env, name);
    }
    assert Remounted(v.volumes, Mounted(v.volumes, h.name), h.name);
    hide Lookup, NewArgs, RewriteAll;
    assert h.env == [] ==> Merge(v.env, h.env) == v.env;
  }

  /** The environment of a deployment after passes over `hosts`: the template's, merged with the
      concatenation of all that the hosts gave. */
  lemma {:induction false} EnvironmentOfDeployment(values: seq<PodValue>, hosts: seq<HostSettings>)
    requires |values| == |hosts| + 1
    requires forall i :: 0 <= i < |hosts| ==> Deployed(values[i], hosts[i], values[i + 1])
    ensures values[|hosts|].env == Merge(values[0].env, Flatten(seq(|hosts|, i requires 0 <= i < |hosts| => hosts[i].env)))
  {
    hide Deployed, Merge;
    if hosts == [] {
      MergeSingle(values[0].env, EnvVar("", ""));
    } else {
      var k := |hosts| - 1;
      var envs := seq(|hosts|, i requires 0 <= i < |hosts| => hosts[i].env);
      EnvironmentOfDeployment(values[..k + 1], hosts[..k]);
      assert envs[..k] == seq(k, i requires 0 <= i < k => hosts[..k][i].env);
      DeployedEnv(values[k], hosts[k], values[k + 1]);
      MergeConcat(values[0].env, Flatten(envs[..k]), envs[k]);
    }
  }

  lemma DeployedEnv(before: PodValue, h: HostSettings, after: PodValue)
    requires Deployed(before, h, after)
    ensures after.env == Merge(before.env, h.env)
  {
  }

  /** A second pass over the same host changes the deployment exactly when the flags do. */
  lemma MutatedAgain(v: PodValue, h: HostSettings)
    ensures Mutated(Mutated(v, h), h) == Mutated(v, h) <==> Stable(v.args, v.command, h.name)
  {
    SecondRunIsSilent(v.args, v.command, h.name);
    MergeIdempotent(v.env, h.env);
    hide NewArgs, RewriteAll, Stable, Merge;
    assert Mounted(Mounted(v.volumes, h.name), h.name) == Mounted(v.volumes, h.name);
  }

  /** A deployment in memory. */
  class Pod {
    var container: Container
    var name: string
    var env: Env
    var resources: nat
    var account: string
    var volumes: array<Volume>
    var replicas: Option<nat>

    ghost predicate Valid()
      reads this, container
    {
      container.args != container.command
    }

    ghost function Footprint(): set<object>
      reads this, container
    {
      {this, container, container.args, container.command, volumes}
    }

    ghost function Value(): PodValue
      reads this, container, container.args, container.command, volumes
    {
      PodValue(name, container.args[..], container.command[..], env, resources, account, volumes[..], replicas)
    }

    constructor (v: PodValue)
      ensures Valid() && fresh(Footprint()) && Value() == v
    {
      container := new Container(v.args, v.command);
      name, env, resources, account, replicas := v.name, v.env, v.resources, v.account, v.replicas;
      volumes := new Volume[|v.volumes|](i requires 0 <= i < |v.volumes| => v.volumes[i]);
    }

    /** A copy that shares nothing with the original. */
    method DeepCopy() returns (c: Pod)
      requires Valid()
      ensures c.Valid() && fresh(c.Footprint()) && c.Value() == Value()
    {
      c := new Pod(PodValue(name, container.args[..], container.command[..], env, resources, account,
                            volumes[..], replicas));
    }

    /** The loop over the volumes, in place. It aborts at a config volume without a config map. */
    method MountConfig(host: string) returns (ok: bool)
      requires Valid()
      modifies volumes
      ensures ok <==> Mountable(old(volumes[..]))
      ensures ok ==> volumes[..] == Mounted(old(volumes[..]), host)
    {
      for i := 0 to volumes.Length
        invariant Mountable(old(volumes[..])[..i])
        invariant forall k :: 0 <= k < i ==> volumes[k] == Mount(old(volumes[k]), host)
        invariant forall k :: i <= k < volumes.Length ==> volumes[k] == old(volumes[k])
      {
        if volumes[i].name == "config" {
          if volumes[i].configMap.None? {
            return false;
          }
          volumes[i] := volumes[i].(configMap := Some(host));
        }
      }
      return true;
    }

    /** The mutate function of the deployment; when it aborts, nothing is written to the server. */
    method Mutate(h: HostSettings) returns (ok: bool)
      requires Valid()
      modifies this, container, container.args, container.command, volumes
      ensures Valid() && fresh(Footprint() - old(Footprint()))
      ensures ok <==> Mountable(old(Value()).volumes)
      ensures ok ==> Value() == Mutated(old(Value()), h)
      ensures ok ==> Deployed(old(Value()), h, Value())
    {
      MutatedIsDeployed(Value(), h);
      hide Deployed;
      hide NewArgs, RewriteAll, Merge, Mounted, Mountable;
      container.RewriteFlags(h.name);
      name, account := h.name, h.name;
      ok := MountConfig(h.name);
      if !ok {
        return;
      }
      if |h.env| > 0 {
        env := MergeEnvVars(env, h.env);
      }
      if h.resources > 0 {
        resources := h.resources;
      }
      if h.replicas.Some? {
        replicas := h.replicas;
      }
    }
  }

  /** A deployment for a host that has none yet. The memo is only copied: the result shares no
      object with it, and nothing that existed before is written. */
  method Build(memo: Pod, h: HostSettings) returns (ok: bool, d: Pod)
    requires memo.Valid()
    ensures d.Valid() && fresh(d.Footprint()) && d.Footprint() !! memo.Footprint()
    ensures ok <==> Mountable(memo.Value().volumes)
    ensures ok ==> d.Value() == Mutated(memo.Value(), h) && Deployed(memo.Value(), h, d.Value())
    ensures memo.Value() == old(memo.Value())
  {
    hide Mutated, Mounted, Mountable, Deployed;
    d := memo.DeepCopy();
    ok := d.Mutate(h);
  }
}
