/** Pod specs and the effect of attaching and detaching a disk on them
    (the sequence form of addVolume and removeVolume, actions/volume_manager.go). */
module PodSpecs {
  import opened Basics
  import opened Names

  /** Volumes, mounts and containers are all lists of named entries. */
  datatype Named<+T> = Named(name: string, body: T)

  datatype VolumeSource =
    | ConfigMapSource(configMap: string, key: string, path: string)
    | EmptyDirSource
    | ClaimSource(claim: string)
    | OtherSource(description: string)

  datatype MountPoint = MountPoint(path: string, subPath: string)

  type Volume = Named<VolumeSource>
  type Mount = Named<MountPoint>

  /** What a container runs; no edit of the volumes touches it. */
  datatype Workload = Workload(image: string, command: seq<string>, privileged: bool, user: nat,
                               limits: Option<map<string, string>>, requests: Option<map<string, string>>)

  datatype Container = Container(name: string, workload: Workload, mounts: seq<Mount>)

  datatype PodSpec = PodSpec(hostname: string, containers: seq<Container>, volumes: seq<Volume>)

  // ---- Lists of named entries ----

  predicate Absent<T>(list: seq<Named<T>>, name: string) {
    forall i | 0 <= i < |list| :: list[i].name != name
  }

  /** The list without its first entry of the given name. */
  function DropFirst<T>(list: seq<Named<T>>, name: string): seq<Named<T>> {
    if list == [] then []
    else if list[0].name == name then list[1..]
    else [list[0]] + DropFirst(list[1..], name)
  }

  function Occurrences<T>(list: seq<Named<T>>, name: string): nat {
    if list == [] then 0 else (if list[0].name == name then 1 else 0) + Occurrences(list[1..], name)
  }

  lemma {:induction false} DropFirstAt<T>(list: seq<Named<T>>, name: string, i: nat)
    requires i < |list| && list[i].name == name && Absent(list[..i], name)
    ensures DropFirst(list, name) == list[..i] + list[i + 1..]
  {
    if i > 0 {
      assert list[0] == list[..i][0];
      assert list[1..][..i - 1] == list[..i][1..];
      DropFirstAt(list[1..], name, i - 1);
    }
  }

  lemma {:induction false} DropFirstAbsent<T>(list: seq<Named<T>>, name: string)
    requires Absent(list, name)
    ensures DropFirst(list, name) == list
  {
    if list != [] {
      DropFirstAbsent(list[1..], name);
    }
  }

  lemma AbsentCons<T>(list: seq<Named<T>>, name: string)
    requires list != []
    ensures Absent(list, name) <==> list[0].name != name && Absent(list[1..], name)
  {
    assert forall i | 0 <= i < |list[1..]| :: list[1..][i] == list[i + 1];
    assert forall i | 1 <= i < |list| :: list[i] == list[1..][i - 1];
  }

  lemma DropFirstCons<T>(head: Named<T>, rest: seq<Named<T>>, name: string)
    ensures DropFirst([head] + rest, name) == if head.name == name then rest else [head] + DropFirst(rest, name)
  {
    assert ([head] + rest)[1..] == rest;
  }

  lemma ConsConcat<T>(head: T, tail: seq<T>, back: seq<T>)
    ensures [head] + tail + back == [head] + (tail + back)
  {
  }

  lemma {:induction false} DropFirstInBack<T>(front: seq<Named<T>>, back: seq<Named<T>>, name: string)
    requires Absent(front, name)
    ensures DropFirst(front + back, name) == front + DropFirst(back, name)
  {
    if front == [] {
      assert front + back == back && front + DropFirst(back, name) == DropFirst(back, name);
    } else {
      var head, tail := front[0], front[1..];
      AbsentCons(front, name);
      hide Absent, DropFirst;
      DropFirstInBack(tail, back, name);
      assert front == [head] + tail;
      ConsConcat(head, tail, back);
      ConsConcat(head, tail, DropFirst(back, name));
      DropFirstCons(head, tail + back, name);
    }
  }

  lemma {:induction false} DropFirstInFront<T>(front: seq<Named<T>>, back: seq<Named<T>>, name: string)
    requires !Absent(front, name)
    ensures DropFirst(front + back, name) == DropFirst(front, name) + back
  {
    var head, tail := front[0], front[1..];
    AbsentCons(front, name);
    hide Absent, DropFirst;
    assert front == [head] + tail;
    ConsConcat(head, tail, back);
    DropFirstCons(head, tail, name);
    DropFirstCons(head, tail + back, name);
    if head.name != name {
      DropFirstInFront(tail, back, name);
      ConsConcat(head, DropFirst(tail, name), back);
    }
  }

  /** Dropping distributes over concatenation: it acts on the front list whenever the name is there. */
  lemma DropFirstConcat<T>(front: seq<Named<T>>, back: seq<Named<T>>, name: string)
    ensures DropFirst(front + back, name)
         == if Absent(front, name) then front + DropFirst(back, name) else DropFirst(front, name) + back
  {
    if Absent(front, name) {
      DropFirstInBack(front, back, name);
    } else {
      DropFirstInFront(front, back, name);
    }
  }

  lemma DropFirstPast<T>(list: seq<Named<T>>, last: Named<T>, name: string)
    requires last.name != name
    ensures DropFirst(list + [last], name) == DropFirst(list, name) + [last]
  {
    DropFirstConcat(list, [last], name);
    if Absent(list, name) {
      DropFirstAbsent(list, name);
    }
  }

  lemma {:induction false} DropFirstCommutes<T>(list: seq<Named<T>>, a: string, b: string)
    ensures DropFirst(DropFirst(list, a), b) == DropFirst(DropFirst(list, b), a)
  {
    if list != [] && list[0].name != a && list[0].name != b {
      DropFirstCommutes(list[1..], a, b);
    }
  }

  lemma {:induction false} OccurrencesConcat<T>(front: seq<Named<T>>, back: seq<Named<T>>, name: string)
    ensures Occurrences(front + back, name) == Occurrences(front, name) + Occurrences(back, name)
  {
    if front == [] {
      assert front + back == back;
    } else {
      assert (front + back)[1..] == front[1..] + back;
      OccurrencesConcat(front[1..], back, name);
    }
  }

  lemma {:induction false} NoOccurrences<T>(list: seq<Named<T>>, name: string)
    ensures Occurrences(list, name) == 0 <==> Absent(list, name)
  {
    if list != [] {
      NoOccurrences(list[1..], name);
      assert forall i | 1 <= i < |list| :: list[i] == list[1..][i - 1];
    }
  }

  // ---- Attaching and detaching ----

  function DiskVolume(disk: string): Volume {
    Named(DiskName(disk), ClaimSource(DiskName(disk)))
  }

  function DiskMount(disk: string): Mount {
    Named(DiskName(disk), MountPoint(MountPath(disk), ""))
  }

  /** The position of the first `bosh-job` container, or the number of containers when there is none. */
  function JobIndex(containers: seq<Container>): (i: nat)
    ensures i <= |containers|
    ensures i < |containers| ==> containers[i].name == JOB
    ensures forall k | 0 <= k < i :: containers[k].name != JOB
  {
    if containers == [] || containers[0].name == JOB then 0 else 1 + JobIndex(containers[1..])
  }

  function MountedInJob(containers: seq<Container>, mount: Mount): seq<Container> {
    var i := JobIndex(containers);
    if i == |containers| then containers
    else containers[i := containers[i].(mounts := containers[i].mounts + [mount])]
  }

  function Unmounted(c: Container, name: string): Container {
    if c.name == JOB then c.(mounts := DropFirst(c.mounts, name)) else c
  }

  function UnmountedInJobs(containers: seq<Container>, name: string): seq<Container> {
    seq(|containers|, i requires 0 <= i < |containers| => Unmounted(containers[i], name))
  }

  /** Attaching appends one volume and mounts it in the first `bosh-job` container. */
  function WithDisk(spec: PodSpec, disk: string): PodSpec {
    spec.(volumes := spec.volumes + [DiskVolume(disk)],
          containers := MountedInJob(spec.containers, DiskMount(disk)))
  }

  /** Detaching drops the first volume of the disk, and its first mount in every `bosh-job` container. */
  function WithoutDisk(spec: PodSpec, disk: string): PodSpec {
    spec.(volumes := DropFirst(spec.volumes, DiskName(disk)),
          containers := UnmountedInJobs(spec.containers, DiskName(disk)))
  }

  // ---- The two edits without these functions: the names, paths and entries they must leave ----

  /** One volume more, on the disk's claim, and one mount more, in the first `bosh-job` container; nothing else. */
  ghost predicate GainsDisk(was: PodSpec, now: PodSpec, disk: string) {
    && now.hostname == was.hostname
    && now.volumes == was.volumes + [Named("disk-" + disk, ClaimSource("disk-" + disk))]
    && |now.containers| == |was.containers|
    && forall i | 0 <= i < |was.containers| ::
         var c := was.containers[i];
         now.containers[i] ==
           if c.name == "bosh-job" && forall k | 0 <= k < i :: was.containers[k].name != "bosh-job"
           then c.(mounts := c.mounts + [Named("disk-" + disk, MountPoint("/mnt/" + disk, ""))]) else c
  }

  /** The first entry of the name is gone, if there was one; nothing else. */
  ghost predicate LosesFirst<T>(was: seq<Named<T>>, now: seq<Named<T>>, name: string) {
    if Absent(was, name) then now == was
    else exists i :: 0 <= i < |was| && was[i].name == name && Absent(was[..i], name) && now == was[..i] + was[i + 1..]
  }

  /** The disk's first volume is gone, and its first mount in each `bosh-job` container; nothing else. */
  ghost predicate LosesDisk(was: PodSpec, now: PodSpec, disk: string) {
    && now.hostname == was.hostname
    && LosesFirst(was.volumes, now.volumes, "disk-" + disk)
    && |now.containers| == |was.containers|
    && forall i | 0 <= i < |was.containers| ::
         var c := was.containers[i];
         && now.containers[i] == c.(mounts := now.containers[i].mounts)
         && if c.name == "bosh-job" then LosesFirst(c.mounts, now.containers[i].mounts, "disk-" + disk)
            else now.containers[i].mounts == c.mounts
  }

  lemma WithDiskGains(spec: PodSpec, disk: string)
    ensures GainsDisk(spec, WithDisk(spec, disk), disk)
  {
  }

  lemma {:induction false} DropFirstLoses<T>(list: seq<Named<T>>, name: string)
    ensures LosesFirst(list, DropFirst(list, name), name)
  {
    if Absent(list, name) {
      DropFirstAbsent(list, name);
    } else {
      var i := FirstAt(list, name);
      DropFirstAt(list, name, i);
    }
  }

  lemma {:induction false} FirstAt<T>(list: seq<Named<T>>, name: string) returns (i: nat)
    requires !Absent(list, name)
    ensures i < |list| && list[i].name == name && Absent(list[..i], name)
  {
    i := 0;
    while list[i].name != name
      invariant i < |list| && Absent(list[..i], name)
      invariant exists k :: i <= k < |list| && list[k].name == name
      decreases |list| - i
    {
      i := i + 1;
    }
  }

  lemma WithoutDiskLoses(spec: PodSpec, disk: string)
    ensures LosesDisk(spec, WithoutDisk(spec, disk), disk)
  {
    DropFirstLoses(spec.volumes, "disk-" + disk);
    forall i | 0 <= i < |spec.containers|
      ensures LosesFirst(spec.containers[i].mounts, DropFirst(spec.containers[i].mounts, "disk-" + disk),
                         "disk-" + disk)
    {
      DropFirstLoses(spec.containers[i].mounts, "disk-" + disk);
    }
  }

  // ---- How the two edits compose ----

  ghost predicate DiskAbsent(spec: PodSpec, disk: string) {
    && Absent(spec.volumes, DiskName(disk))
    && forall i | 0 <= i < |spec.containers| && spec.containers[i].name == JOB ::
         Absent(spec.containers[i].mounts, DiskName(disk))
  }

  /** An edit of the job mounts leaves every container's name alone, so it picks the same container. */
  lemma {:induction false} JobIndexByNames(a: seq<Container>, b: seq<Container>)
    requires |a| == |b| && forall i | 0 <= i < |a| :: a[i].name == b[i].name
    ensures JobIndex(a) == JobIndex(b)
  {
    var i, j := JobIndex(a), JobIndex(b);
    assert i < |a| ==> b[i].name == JOB;
    assert j < |b| ==> a[j].name == JOB;
  }

  /** Detaching a disk just attached restores the volumes and the mounts of every container,
      for every spec in which the disk was absent. */
  lemma DetachUndoesAttach(spec: PodSpec, disk: string)
    requires DiskAbsent(spec, disk)
    ensures WithoutDisk(WithDisk(spec, disk), disk) == spec
  {
    var name, with := DiskName(disk), WithDisk(spec, disk);
    DropFirstConcat(spec.volumes, [DiskVolume(disk)], name);
    forall i | 0 <= i < |spec.containers|
      ensures Unmounted(with.containers[i], name) == spec.containers[i]
    {
      if spec.containers[i].name == JOB {
        DropFirstConcat(spec.containers[i].mounts, [DiskMount(disk)], name);
        DropFirstAbsent(spec.containers[i].mounts, name);
      }
    }
    assert WithoutDisk(with, disk).containers == spec.containers;
  }

  /** Attaching one disk and detaching another can be done in either order, on every spec. */
  lemma AttachDetachCommute(spec: PodSpec, attached: string, detached: string)
    requires attached != detached
    ensures WithoutDisk(WithDisk(spec, attached), detached) == WithDisk(WithoutDisk(spec, detached), attached)
  {
    NamesInjective();
    var name := DiskName(detached);
    DropFirstPast(spec.volumes, DiskVolume(attached), name);
    var left, right := WithoutDisk(WithDisk(spec, attached), detached), WithDisk(WithoutDisk(spec, detached), attached);
    JobIndexByNames(spec.containers, WithoutDisk(spec, detached).containers);
    forall i | 0 <= i < |spec.containers| ensures left.containers[i] == right.containers[i] {
      DropFirstPast(spec.containers[i].mounts, DiskMount(attached), name);
    }
  }

  /** Detaches commute on every spec, whether or not the disks are there. */
  lemma DetachesCommute(spec: PodSpec, a: string, b: string)
    ensures WithoutDisk(WithoutDisk(spec, a), b) == WithoutDisk(WithoutDisk(spec, b), a)
  {
    DropFirstCommutes(spec.volumes, DiskName(a), DiskName(b));
    var left, right := WithoutDisk(WithoutDisk(spec, a), b), WithoutDisk(WithoutDisk(spec, b), a);
    forall i | 0 <= i < |spec.containers| ensures left.containers[i] == right.containers[i] {
      DropFirstCommutes(spec.containers[i].mounts, DiskName(a), DiskName(b));
    }
    assert left.containers == right.containers;
  }

  ghost predicate SameUpToOrder(a: PodSpec, b: PodSpec) {
    && a.hostname == b.hostname
    && multiset(a.volumes) == multiset(b.volumes)
    && |a.containers| == |b.containers|
    && forall i | 0 <= i < |a.containers| ::
         && a.containers[i].(mounts := []) == b.containers[i].(mounts := [])
         && multiset(a.containers[i].mounts) == multiset(b.containers[i].mounts)
  }

  lemma TwoAttaches(spec: PodSpec, a: string, b: string)
    ensures var i := JobIndex(spec.containers);
            WithDisk(WithDisk(spec, a), b) ==
            spec.(volumes := spec.volumes + [DiskVolume(a), DiskVolume(b)],
                  containers := if i == |spec.containers| then spec.containers
                                else spec.containers[i := spec.containers[i].(
                                  mounts := spec.containers[i].mounts + [DiskMount(a), DiskMount(b)])])
  {
    var i, once := JobIndex(spec.containers), WithDisk(spec, a);
    JobIndexByNames(spec.containers, once.containers);
    assert WithDisk(once, b).volumes == spec.volumes + [DiskVolume(a), DiskVolume(b)];
    if i < |spec.containers| {
      assert once.containers[i].mounts + [DiskMount(b)] == spec.containers[i].mounts + [DiskMount(a), DiskMount(b)];
    }
  }

  lemma SwapKeepsElements<T>(list: seq<T>, x: T, y: T)
    ensures multiset(list + [x, y]) == multiset(list + [y, x])
  {
    assert multiset(list + [x, y]) == multiset(list) + multiset([x, y]);
    assert multiset(list + [y, x]) == multiset(list) + multiset([y, x]);
  }

  /** Attaches commute up to the order of the lists, and for different disks only up to it. */
  lemma AttachesCommuteUpToOrder(spec: PodSpec, a: string, b: string)
    ensures SameUpToOrder(WithDisk(WithDisk(spec, a), b), WithDisk(WithDisk(spec, b), a))
    ensures WithDisk(WithDisk(spec, a), b) == WithDisk(WithDisk(spec, b), a) <==> a == b
  {
    TwoAttaches(spec, a, b);
    TwoAttaches(spec, b, a);
    hide WithDisk, DiskMount;
    var left, right, i := WithDisk(WithDisk(spec, a), b), WithDisk(WithDisk(spec, b), a), JobIndex(spec.containers);
    SwapKeepsElements(spec.volumes, DiskVolume(a), DiskVolume(b));
    if i < |spec.containers| {
      SwapKeepsElements(spec.containers[i].mounts, DiskMount(a), DiskMount(b));
    }
    if a != b {
      NamesInjective();
      assert left.volumes[|spec.volumes|] != right.volumes[|spec.volumes|];
    }
  }

  // ---- Normal form: what a spec looks like when a list of disks is attached to a base ----

  /** One `bosh-job` container; nothing in it or among the volumes is named like a disk. */
  ghost predicate Plain(base: PodSpec) {
    && JobIndex(base.containers) < |base.containers|
    && (forall i | 0 <= i < |base.containers| && i != JobIndex(base.containers) :: base.containers[i].name != JOB)
    && forall d :: DiskAbsent(base, d)
  }

  /** No volume of the base is backed by a claim. */
  ghost predicate NoClaims(base: PodSpec) {
    forall v | v in base.volumes :: !v.body.ClaimSource?
  }

  function DiskVolumes(disks: seq<string>): seq<Volume> {
    seq(|disks|, i requires 0 <= i < |disks| => DiskVolume(disks[i]))
  }

  function DiskMounts(disks: seq<string>): seq<Mount> {
    seq(|disks|, i requires 0 <= i < |disks| => DiskMount(disks[i]))
  }

  /** The base volumes then one volume a disk, in order; the same for the mounts of `bosh-job`;
      every other container as in the base. */
  function SpecWith(base: PodSpec, disks: seq<string>): PodSpec
    requires JobIndex(base.containers) < |base.containers|
  {
    var j := JobIndex(base.containers);
    base.(volumes := base.volumes + DiskVolumes(disks),
          containers := base.containers[j := base.containers[j].(
            mounts := base.containers[j].mounts + DiskMounts(disks))])
  }

  /** The list without its first occurrence of the disk. */
  function Without(disks: seq<string>, disk: string): (rest: seq<string>)
    ensures |rest| <= |disks|
  {
    if disks == [] then []
    else if disks[0] == disk then disks[1..]
    else [disks[0]] + Without(disks[1..], disk)
  }

  lemma {:induction false} DropDiskVolume(disks: seq<string>, disk: string)
    ensures DropFirst(DiskVolumes(disks), DiskName(disk)) == DiskVolumes(Without(disks, disk))
    ensures DropFirst(DiskMounts(disks), DiskName(disk)) == DiskMounts(Without(disks, disk))
  {
    NamesInjective();
    if disks != [] {
      ConsDisk(disks);
      if disks[0] != disk {
        var rest := Without(disks[1..], disk);
        DropDiskVolume(disks[1..], disk);
        ConsDisk([disks[0]] + rest);
        assert ([disks[0]] + rest)[1..] == rest;
        hide DiskVolumes, DiskMounts, DiskName;
      }
    }
  }

  lemma ConsDisk(disks: seq<string>)
    requires disks != []
    ensures DiskVolumes(disks) == [DiskVolume(disks[0])] + DiskVolumes(disks[1..])
    ensures DiskMounts(disks) == [DiskMount(disks[0])] + DiskMounts(disks[1..])
  {
  }

  lemma EmptySpec(base: PodSpec)
    requires Plain(base)
    ensures SpecWith(base, []) == base
  {
    var j := JobIndex(base.containers);
    assert base.volumes + DiskVolumes([]) == base.volumes;
    assert base.containers[j].mounts + DiskMounts([]) == base.containers[j].mounts;
  }

  /** Attaching extends the list at its end; detaching removes the disk's first entry. */
  lemma AttachNormalForm(base: PodSpec, disks: seq<string>, disk: string)
    requires Plain(base)
    ensures WithDisk(SpecWith(base, disks), disk) == SpecWith(base, disks + [disk])
  {
    var spec, j := SpecWith(base, disks), JobIndex(base.containers);
    JobIndexByNames(base.containers, spec.containers);
    assert DiskVolumes(disks + [disk]) == DiskVolumes(disks) + [DiskVolume(disk)];
    assert DiskMounts(disks + [disk]) == DiskMounts(disks) + [DiskMount(disk)];
    assert WithDisk(spec, disk).volumes == SpecWith(base, disks + [disk]).volumes;
    assert WithDisk(spec, disk).containers[j].mounts == SpecWith(base, disks + [disk]).containers[j].mounts;
    assert WithDisk(spec, disk).containers == SpecWith(base, disks + [disk]).containers;
  }

  lemma DetachNormalForm(base: PodSpec, disks: seq<string>, disk: string)
    requires Plain(base)
    ensures WithoutDisk(SpecWith(base, disks), disk) == SpecWith(base, Without(disks, disk))
  {
    var spec, j, name := SpecWith(base, disks), JobIndex(base.containers), DiskName(disk);
    assert DiskAbsent(base, disk);
    DropDiskVolume(disks, disk);
    DropFirstConcat(base.volumes, DiskVolumes(disks), name);
    DropFirstConcat(base.containers[j].mounts, DiskMounts(disks), name);
    assert WithoutDisk(spec, disk).containers == SpecWith(base, Without(disks, disk)).containers;
  }

  function Count(disks: seq<string>, disk: string): nat {
    if disks == [] then 0 else (if disks[0] == disk then 1 else 0) + Count(disks[1..], disk)
  }

  lemma {:induction false} OccurrencesInNormalForm(base: PodSpec, disks: seq<string>, disk: string)
    requires Plain(base)
    ensures Occurrences(SpecWith(base, disks).volumes, DiskName(disk)) == Count(disks, disk)
    ensures Occurrences(SpecWith(base, disks).containers[JobIndex(base.containers)].mounts, DiskName(disk))
         == Count(disks, disk)
  {
    var j, name := JobIndex(base.containers), DiskName(disk);
    assert DiskAbsent(base, disk);
    NoOccurrences(base.volumes, name);
    NoOccurrences(base.containers[j].mounts, name);
    OccurrencesConcat(base.volumes, DiskVolumes(disks), name);
    OccurrencesConcat(base.containers[j].mounts, DiskMounts(disks), name);
    CountDiskEntries(disks, disk);
  }

  lemma {:induction false} CountDiskEntries(disks: seq<string>, disk: string)
    ensures Occurrences(DiskVolumes(disks), DiskName(disk)) == Count(disks, disk)
    ensures Occurrences(DiskMounts(disks), DiskName(disk)) == Count(disks, disk)
  {
    NamesInjective();
    if disks != [] {
      CountDiskEntries(disks[1..], disk);
      assert DiskVolumes(disks)[1..] == DiskVolumes(disks[1..]);
      assert DiskMounts(disks)[1..] == DiskMounts(disks[1..]);
    }
  }
}
