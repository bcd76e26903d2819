/** The execution arbitrators of src/model_state.cc:35-103. */
module Arbitrators {
  import opened Pipeline
  import opened InstanceState
  import opened Semaphores
  import Device

  /** The objects that make up these instances. */
  ghost function Objects(instances: seq<ModelInstanceState>): set<object> {
    (set i: ModelInstanceState | i in instances :: i as object)
    + (set i: ModelInstanceState | i in instances :: i.semaphore as object)
    + (set i: ModelInstanceState | i in instances :: i.core as object)
  }

  /** The fields of these instances are the state of the step machine. */
  ghost predicate AreInstancesOf(instances: seq<ModelInstanceState>, s: Device.System)
    reads Objects(instances)
  {
    && |instances| == |s.instances| > 0
    && forall i :: 0 <= i < |instances| ==> instances[i].config == s.config && instances[i].State() == s.instances[i]
  }

  /** What ExecutionState returns is what the step machine puts into the phase of the issue thread. */
  ghost predicate IsSelection(instances: seq<ModelInstanceState>, phase: Device.Phase,
                              current: ModelInstanceState, semaphore: Semaphore) {
    && phase.Selected? && phase.current < |instances| && phase.next < |instances|
    && current == instances[phase.current] && semaphore == instances[phase.next].semaphore
  }

  datatype InstanceList = InstanceList(instances: seq<ModelInstanceState>, idx: nat)

  class DeviceBlockingArbitrator {
    var deviceInstances: map<int, InstanceList>

    ghost predicate Valid()
      reads this
    {
      forall d :: d in deviceInstances ==> deviceInstances[d].idx < |deviceInstances[d].instances|
    }

    /** The issue thread of a device and its instances before the next call, as the step machine sees them. */
    ghost predicate Represents(deviceId: int, s: Device.System)
      reads this, if deviceId in deviceInstances then Objects(deviceInstances[deviceId].instances) else {}
    {
      && deviceId in deviceInstances
      && s.policy.DeviceBlocking? && |s.threads| == 1
      && s.idx == deviceInstances[deviceId].idx
      && AreInstancesOf(deviceInstances[deviceId].instances, s)
    }

    constructor ()
      ensures Valid() && deviceInstances == map[]
    {
      deviceInstances := map[];
    }

    /** The first instance of a device gives up one slot: its issue thread is ready to run it. */
    method RegisterInstance(deviceId: int, instance: ModelInstanceState)
      requires Valid() && instance.semaphore.count == instance.config.Capacity()
      modifies this, instance.semaphore
      ensures Valid()
      ensures deviceId in deviceInstances && deviceInstances.Keys == old(deviceInstances.Keys) + {deviceId}
      ensures forall d :: d in old(deviceInstances) && d != deviceId ==> deviceInstances[d] == old(deviceInstances[d])
      ensures var others := if deviceId in old(deviceInstances) then old(deviceInstances)[deviceId].instances else [];
              && deviceInstances[deviceId].instances == others + [instance]
              && instance.semaphore.count
                 == Device.CountAfterRegistration(instance.config, Device.DeviceBlocking, |others|)
      ensures deviceInstances[deviceId].idx ==
              if deviceId in old(deviceInstances) then old(deviceInstances)[deviceId].idx else 0
    {
      var list := InstanceList([], 0);
      if deviceId in deviceInstances {
        list := deviceInstances[deviceId];
      } else {
        instance.semaphore.Acquire();
      }
      deviceInstances := deviceInstances[deviceId := list.(instances := list.instances + [instance])];
    }

    /** The instance whose turn it is, and the semaphore of the one after it. */
    method ExecutionState(deviceId: int, ghost s: Device.System)
      returns (current: ModelInstanceState, semaphore: Semaphore)
      requires Valid() && deviceId in deviceInstances && Represents(deviceId, s)
      modifies this
      ensures Valid() && deviceInstances.Keys == old(deviceInstances.Keys)
      ensures forall d :: d in deviceInstances ==> deviceInstances[d].instances == old(deviceInstances)[d].instances
      ensures forall d :: d in deviceInstances && d != deviceId ==> deviceInstances[d] == old(deviceInstances)[d]
      ensures Represents(deviceId, Device.Arbitrated(s, 0))
      ensures IsSelection(deviceInstances[deviceId].instances, Device.Arbitrated(s, 0).threads[0], current, semaphore)
    {
      var list := deviceInstances[deviceId];
      current := list.instances[list.idx];
      list := list.(idx := (list.idx + 1) % |list.instances|);
      deviceInstances := deviceInstances[deviceId := list];
      semaphore := list.instances[list.idx].semaphore;
    }
  }

  class InstanceBlockingArbitrator {
    constructor ()
    {
    }

    /** Every instance is ready for its own issue thread. */
    method RegisterInstance(instance: ModelInstanceState, ghost registered: nat)
      requires instance.semaphore.count == instance.config.Capacity()
      modifies instance.semaphore
      ensures instance.semaphore.count
           == Device.CountAfterRegistration(instance.config, Device.InstanceBlocking, registered)
    {
      instance.semaphore.Acquire();
    }

    /** The issue thread of an instance runs that instance and waits for its semaphore. */
    method ExecutionState(instance: ModelInstanceState, ghost instances: seq<ModelInstanceState>,
                          ghost s: Device.System, ghost thread: nat)
      returns (current: ModelInstanceState, semaphore: Semaphore)
      requires AreInstancesOf(instances, s) && s.policy.InstanceBlocking? && |s.threads| == |s.instances|
      requires thread < |instances| && instances[thread] == instance
      ensures AreInstancesOf(instances, Device.Arbitrated(s, thread))
      ensures IsSelection(instances, Device.Arbitrated(s, thread).threads[thread], current, semaphore)
    {
      current, semaphore := instance, instance.semaphore;
    }
  }
}
