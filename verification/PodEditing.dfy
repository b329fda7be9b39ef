/** The in-place edits of a pod spec (addVolume and removeVolume, actions/volume_manager.go:175-214), over slices
    with backing arrays. */
module PodEditing {
  import opened Names
  import opened PodSpecs

  /** A slice: the first `len` cells of a backing array. Its entries are never nil. */
  class Slice<T> {
    var data: array<T>
    var len: nat

    ghost predicate Valid()
      reads this
    {
      len <= data.Length
    }

    ghost function Contents(): seq<T>
      reads this, data
      requires Valid()
    {
      data[..len]
    }

    constructor (items: seq<T>)
      ensures Valid() && fresh(data) && Contents() == items
    {
      data := new T[|items|](i requires 0 <= i < |items| => items[i]);
      len := |items|;
    }

    /** Appends in the backing array while it has room, and moves to a larger one when it has not. */
    method Append(x: T)
      requires Valid()
      modifies this, data
      ensures Valid() && (data == old(data) || fresh(data))
      ensures Contents() == old(Contents()) + [x]
    {
      if len == data.Length {
        var items := data[..];
        var room := new T[2 * len + 1](i requires 0 <= i => if i < |items| then items[i] else x);
        data := room;
        assert data[..len] == items;
      }
      data[len] := x;
      len := len + 1;
    }

    /** Removes one entry by shifting everything after it down in the backing array. */
    method RemoveAt(i: nat)
      requires Valid() && i < len
      modifies this`len, data
      ensures Valid() && data == old(data)
      ensures Contents() == old(Contents())[..i] + old(Contents())[i + 1..]
    {
      ghost var was := Contents();
      for k := i to len - 1
        invariant len == old(len)
        invariant forall j | 0 <= j < i :: data[j] == was[j]
        invariant forall j | i <= j < k :: data[j] == was[j + 1]
        invariant forall j | k < j < len :: data[j] == was[j]
      {
        data[k] := data[k + 1];
      }
      len := len - 1;
      assert data[..len] == was[..i] + was[i + 1..];
    }
  }

  /** Removes the first entry of the name, found by a loop that stops there. */
  method RemoveFirst<T>(list: Slice<Named<T>>, name: string)
    requires list.Valid()
    modifies list`len, list.data
    ensures list.Valid() && list.data == old(list.data)
    ensures list.Contents() == DropFirst(old(list.Contents()), name)
  {
    ghost var was := list.Contents();
    for i := 0 to list.len
      invariant list.Valid() && list.len == old(list.len) && list.Contents() == was
      invariant Absent(was[..i], name)
    {
      if list.data[i].name == name {
        DropFirstAt(was, name, i);
        list.RemoveAt(i);
        return;
      }
      assert was[..i + 1] == was[..i] + [was[i]];
    }
    assert was[..|was|] == was;
    DropFirstAbsent(was, name);
  }

  /** A container whose mount list is edited in place. */
  datatype Slot = Slot(name: string, workload: Workload, mounts: Slice<Mount>)

  /** The slot holds this container. */
  ghost predicate Holds(slot: Slot, c: Container)
    reads slot.mounts, slot.mounts.data
  {
    slot.mounts.Valid() && c == Container(slot.name, slot.workload, slot.mounts.Contents())
  }

  predicate Apart(a: Slot, b: Slot)
    reads a.mounts, b.mounts
  {
    a.mounts != b.mounts && a.mounts.data != b.mounts.data
  }

  /** Slots of their own for a list of containers. */
  method NewSlots(cs: seq<Container>) returns (slots: seq<Slot>)
    ensures |slots| == |cs|
    ensures forall k | 0 <= k < |cs| :: Holds(slots[k], cs[k]) && fresh(slots[k].mounts) && fresh(slots[k].mounts.data)
    ensures forall j, k | 0 <= j < k < |cs| :: Apart(slots[j], slots[k])
  {
    slots := [];
    for i := 0 to |cs|
      invariant |slots| == i
      invariant forall k | 0 <= k < i ::
                  Holds(slots[k], cs[k]) && fresh(slots[k].mounts) && fresh(slots[k].mounts.data)
      invariant forall j, k | 0 <= j < k < i :: Apart(slots[j], slots[k])
    {
      var mounts := new Slice(cs[i].mounts);
      slots := slots + [Slot(cs[i].name, cs[i].workload, mounts)];
    }
  }

  /** A pod spec being edited. No two of its slices share a backing array. */
  class SpecBuffer {
    const hostname: string
    const containers: seq<Slot>
    const volumes: Slice<Volume>

    ghost function MountSlices(): set<Slice<Mount>> {
      set i | 0 <= i < |containers| :: containers[i].mounts
    }

    ghost function MountArrays(): set<array<Mount>>
      reads MountSlices()
    {
      set i | 0 <= i < |containers| :: containers[i].mounts.data
    }

    ghost predicate ValidMounts()
      reads MountSlices()
    {
      && (forall i | 0 <= i < |containers| :: containers[i].mounts.Valid())
      && (forall i, j | 0 <= i < j < |containers| :: Apart(containers[i], containers[j]))
    }

    ghost predicate Valid()
      reads volumes, MountSlices()
    {
      volumes.Valid() && ValidMounts()
    }

    ghost function ContainerAt(i: nat): Container
      requires i < |containers| && containers[i].mounts.Valid()
      reads containers[i].mounts, containers[i].mounts.data
    {
      Container(containers[i].name, containers[i].workload, containers[i].mounts.Contents())
    }

    ghost function Containers(): (cs: seq<Container>)
      requires ValidMounts()
      reads MountSlices(), MountArrays()
      ensures |cs| == |containers| && forall k | 0 <= k < |cs| :: cs[k] == ContainerAt(k)
    {
      ContainersTo(|containers|)
    }

    ghost function ContainersTo(n: nat): (cs: seq<Container>)
      requires ValidMounts() && n <= |containers|
      reads MountSlices(), MountArrays()
      ensures |cs| == n && forall k | 0 <= k < n :: cs[k] == ContainerAt(k)
    {
      if n == 0 then [] else ContainersTo(n - 1) + [ContainerAt(n - 1)]
    }

    ghost function Value(): PodSpec
      requires Valid()
      reads volumes, volumes.data, MountSlices(), MountArrays()
    {
      PodSpec(hostname, Containers(), volumes.Contents())
    }

    constructor (spec: PodSpec)
      ensures Valid() && fresh(volumes) && fresh(volumes.data) && fresh(MountSlices()) && fresh(MountArrays())
      ensures Value() == spec
    {
      var slots := NewSlots(spec.containers);
      hostname, containers := spec.hostname, slots;
      volumes := new Slice(spec.volumes);
      new;
      assert forall k | 0 <= k < |slots| :: ContainerAt(k) == spec.containers[k];
      assert Containers() == spec.containers;
    }

    /** The spec as a value again. */
    method ToValue() returns (spec: PodSpec)
      requires Valid()
      ensures spec == Value()
    {
      var cs: seq<Container> := [];
      for i := 0 to |containers|
        invariant |cs| == i && forall k | 0 <= k < i :: cs[k] == ContainerAt(k)
      {
        var mounts := containers[i].mounts;
        cs := cs + [Container(containers[i].name, containers[i].workload, mounts.data[..mounts.len])];
      }
      assert cs == Containers();
      spec := PodSpec(hostname, cs, volumes.data[..volumes.len]);
    }

    method AddVolume(disk: string)
      requires Valid()
      modifies volumes, volumes.data, MountSlices(), MountArrays()
      ensures Valid() && (volumes.data == old(volumes.data) || fresh(volumes.data)) && MountsOwned(old(MountArrays()))
      ensures Value() == WithDisk(old(Value()), disk)
      ensures GainsDisk(old(Value()), Value(), disk)
    {
      hide MountedInJob, ContainerAt, GainsDisk;
      ghost var was := Containers();
      volumes.Append(DiskVolume(disk));
      assert Containers() == was;
      MountInJob(DiskMount(disk), was);
      WithDiskGains(old(Value()), disk);
    }

    /** Every backing array of a mount list is one of these or new. */
    twostate predicate MountsOwned(arrays: set<array<Mount>>)
      reads MountSlices()
    {
      forall k | 0 <= k < |containers| :: containers[k].mounts.data in arrays || fresh(containers[k].mounts.data)
    }

    /** The second half of addVolume: the first `bosh-job` container gets the mount. */
    method MountInJob(mount: Mount, ghost was: seq<Container>)
      requires ValidMounts() && was == Containers()
      modifies MountSlices(), MountArrays()
      ensures ValidMounts() && MountsOwned(old(MountArrays()))
      ensures Containers() == MountedInJob(was, mount)
    {
      for i := 0 to |containers|
        invariant ValidMounts() && MountArrays() == old(MountArrays()) && Containers() == was
        invariant forall k | 0 <= k < i :: was[k].name != JOB
      {
        if containers[i].name == JOB {
          assert JobIndex(was) == i by { assert was[i].name == JOB; }
          AppendMount(i, mount);
          assert Containers() == MountedInJob(was, mount);
          return;
        }
      }
    }

    method AppendMount(i: nat, mount: Mount)
      requires ValidMounts() && i < |containers|
      modifies containers[i].mounts, containers[i].mounts.data
      ensures ValidMounts() && MountsOwned(old(MountArrays()))
      ensures ContainerAt(i) == old(ContainerAt(i)).(mounts := old(ContainerAt(i)).mounts + [mount])
      ensures forall k | 0 <= k < |containers| && k != i :: ContainerAt(k) == old(ContainerAt(k))
    {
      containers[i].mounts.Append(mount);
    }

    method RemoveVolume(disk: string)
      requires Valid()
      modifies volumes, volumes.data, MountSlices(), MountArrays()
      ensures Valid() && volumes.data == old(volumes.data) && MountArrays() == old(MountArrays())
      ensures Value() == WithoutDisk(old(Value()), disk)
      ensures LosesDisk(old(Value()), Value(), disk)
    {
      hide LosesDisk;
      ghost var was := Containers();
      RemoveFirst(volumes, DiskName(disk));
      assert Containers() == was;
      RemoveMounts(DiskName(disk));
      WithoutDiskLoses(old(Value()), disk);
    }

    /** The second half of removeVolume: every `bosh-job` container loses its first mount of the name. */
    method RemoveMounts(name: string)
      requires ValidMounts()
      modifies MountSlices(), MountArrays()
      ensures ValidMounts() && MountArrays() == old(MountArrays())
      ensures Containers() == UnmountedInJobs(old(Containers()), name)
    {
      ghost var was := Containers();
      for i := 0 to |containers|
        invariant ValidMounts()
        invariant forall k | 0 <= k < |containers| :: containers[k].mounts.data == old(containers[k].mounts.data)
        invariant forall k | 0 <= k < i :: ContainerAt(k) == Unmounted(was[k], name)
        invariant forall k | i <= k < |containers| :: ContainerAt(k) == was[k]
      {
        RemoveMount(i, name);
      }
    }

    method RemoveMount(i: nat, name: string)
      requires ValidMounts() && i < |containers|
      modifies containers[i].mounts`len, containers[i].mounts.data
      ensures ValidMounts() && containers[i].mounts.data == old(containers[i].mounts.data)
      ensures ContainerAt(i) == Unmounted(old(ContainerAt(i)), name)
      ensures forall k | 0 <= k < |containers| && k != i :: ContainerAt(k) == old(ContainerAt(k))
    {
      if containers[i].name == JOB {
        RemoveFirst(containers[i].mounts, name);
      }
    }
  }
}
