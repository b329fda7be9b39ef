/** What attach and detach runs keep true: the disk set held in the config map, the volume list and the
    job mounts, tracked over every schedule of runs, refusals, interference and kubelet reports. */
module Attachments {
  import opened Basics
  import opened Names
  import opened Settings
  import opened PodSpecs
  import opened Cluster
  import opened Recreate

  // ---- An independent account of the runs so far ----

  /** What one run did: its task, the stage it got to, and the IP its new pod is pinned to. */
  datatype Entry = Entry(task: Task, stage: Stage, ip: string)

  function Front<T>(s: seq<T>): seq<T>
    requires s != []
  {
    s[..|s| - 1]
  }

  function Last<T>(s: seq<T>): T
    requires s != []
  {
    s[|s| - 1]
  }

  /** The recorded disk map: every run that updated the config map edits it, whatever happened later. */
  function RecordAfter(log: seq<Entry>): map<string, string>
    decreases |log|
  {
    if log == [] then map[]
    else if Last(log).stage == Untouched then RecordAfter(Front(log))
    else EditedDisks(RecordAfter(Front(log)), Last(log).task)
  }

  function EditedList(disks: seq<string>, task: Task): seq<string> {
    match task.op
    case Add => disks + [task.disk]
    case Remove => Without(disks, task.disk)
  }

  /** The attached disks in order of attach: only runs that created the pod again edit them;
      `None` once a run dropped the pod and did not create it again. */
  function AttachedAfter(log: seq<Entry>): Option<seq<string>>
    decreases |log|
  {
    if log == [] then Some([])
    else
      var before := AttachedAfter(Front(log));
      if before.None? then None else
      match Last(log).stage
      case Untouched | Recorded => before
      case Dropped => None
      case Rebuilt => Some(EditedList(before.value, Last(log).task))
  }

  /** The pinned IP: the first non-empty one that a run which created the pod again had to give it. */
  function PinAfter(log: seq<Entry>, initial: string): string
    decreases |log|
  {
    if log == [] then initial
    else
      var before := PinAfter(Front(log), initial);
      if Last(log).stage == Rebuilt && before == "" then Last(log).ip else before
  }

  // ---- The concrete objects an account stands for ----

  /** What never changes for one agent. `ip` is the annotation it was created with, "" for none. */
  datatype Profile = Profile(
    base: PodSpec,
    annotations: map<string, string>,
    ip: string,
    settings: Settings,
    configMapLabels: map<string, string>,
    otherData: map<string, Document>)

  function PinIn(annotations: map<string, string>): string {
    if IP_ANNOTATION in annotations then annotations[IP_ANNOTATION] else ""
  }

  function PinOf(pod: Pod): string { PinIn(pod.annotations) }

  ghost predicate HoldsRecord(profile: Profile, cm: ConfigMap, disks: map<string, string>) {
    && cm.labels == profile.configMapLabels
    && cm.data - {SETTINGS_KEY} == profile.otherData
    && SETTINGS_KEY in cm.data
    && var s := Decode(cm.data[SETTINGS_KEY]);
       s.Some? && DisksOf(s.value) == disks && RestOf(s.value) == profile.settings
  }

  ghost predicate LooksLike(profile: Profile, pod: Pod, disks: seq<string>, pin: string)
    requires Plain(profile.base)
  {
    && pod.annotations - {IP_ANNOTATION} == profile.annotations
    && PinOf(pod) == pin
    && pod.spec == SpecWith(profile.base, disks)
  }

  ghost predicate Represents(profile: Profile, log: seq<Entry>, pod: Option<Pod>, cm: Option<ConfigMap>)
    requires Plain(profile.base)
  {
    && cm.Some? && HoldsRecord(profile, cm.value, RecordAfter(log))
    && match AttachedAfter(log)
       case None => pod.None?
       case Some(disks) => pod.Some? && LooksLike(profile, pod.value, disks, PinAfter(log, profile.ip))
  }

  // ---- Every step of every run keeps the account ----

  /** The pod a run is about to create is the one its account, once extended, calls for. */
  ghost predicate IsNext(profile: Profile, log: seq<Entry>, task: Task, next: Pod)
    requires Plain(profile.base)
  {
    var done := log + [Entry(task, Rebuilt, PinOf(next))];
    AttachedAfter(done).Some? && LooksLike(profile, next, AttachedAfter(done).value, PinAfter(done, profile.ip))
  }

  ghost predicate ReadRight(profile: Profile, log: seq<Entry>, read: Pod)
    requires Plain(profile.base)
  {
    AttachedAfter(log).Some? && LooksLike(profile, read, AttachedAfter(log).value, PinAfter(log, profile.ip))
  }

  /** Where a run in flight stands: each counter has its own account of what has been written. */
  ghost predicate During(profile: Profile, log: seq<Entry>, run: Run, pod: Option<Pod>, cm: Option<ConfigMap>)
    requires Plain(profile.base)
  {
    var task := run.task;
    match run.pc
    case GetPod => Represents(profile, log, pod, cm)
    case GetConfigMap(read) => Represents(profile, log, pod, cm) && ReadRight(profile, log, read)
    case UpdateConfigMap(read, edited) =>
      && Represents(profile, log, pod, cm)
      && ReadRight(profile, log, read)
      && HoldsRecord(profile, edited, EditedDisks(RecordAfter(log), task))
    case DeletePod(next) =>
      && Represents(profile, log + [Entry(task, Recorded, PinOf(next))], pod, cm)
      && IsNext(profile, log, task, next)
    case CreatePod(next) =>
      && Represents(profile, log + [Entry(task, Dropped, PinOf(next))], pod, cm)
      && IsNext(profile, log, task, next)
    case OpenWatch | AwaitReady => exists ip :: Represents(profile, log + [Entry(task, Rebuilt, ip)], pod, cm)
    case Finished(_) => false
  }

  /** One entry a report, and a run reported successful got to the last stage. */
  ghost predicate Accounts(log: seq<Entry>, past: seq<Report>) {
    && |log| == |past|
    && forall i | 0 <= i < |log| :: log[i].task == past[i].task && (past[i].ok ==> log[i].stage == Rebuilt)
  }

  ghost predicate Tracks(profile: Profile, log: seq<Entry>, v: View)
    requires Plain(profile.base)
  {
    && Accounts(log, v.desk.past)
    && if v.desk.current.None? then Represents(profile, log, v.pod, v.configMap)
       else During(profile, log, v.desk.current.value, v.pod, v.configMap)
  }

  ghost predicate Accounted(profile: Profile, v: View)
    requires Plain(profile.base)
  {
    exists log :: Tracks(profile, log, v)
  }

  lemma SuccessorIsNext(profile: Profile, log: seq<Entry>, task: Task, read: Pod)
    requires Plain(profile.base) && ReadRight(profile, log, read)
    ensures IsNext(profile, log, task, Successor(read, task))
  {
    var next, disks := Successor(read, task), AttachedAfter(log).value;
    var done := log + [Entry(task, Rebuilt, PinOf(next))];
    assert Front(done) == log;
    match task.op {
      case Add => AttachNormalForm(profile.base, disks, task.disk);
      case Remove => DetachNormalForm(profile.base, disks, task.disk);
    }
    assert next.annotations - {IP_ANNOTATION} == read.annotations - {IP_ANNOTATION};
  }

  lemma EditHoldsRecord(profile: Profile, cm: ConfigMap, disks: map<string, string>, task: Task)
    requires HoldsRecord(profile, cm, disks)
    ensures EditedConfigMap(cm, task).Some?
    ensures HoldsRecord(profile, EditedConfigMap(cm, task).value, EditedDisks(disks, task))
  {
    EditSurvives(Decode(cm.data[SETTINGS_KEY]).value, EditedDisks(disks, task));
    assert EditedConfigMap(cm, task).value.data - {SETTINGS_KEY} == cm.data - {SETTINGS_KEY};
  }

  lemma OneMore(log: seq<Entry>, e: Entry)
    ensures Front(log + [e]) == log && Last(log + [e]) == e
  {
  }

  function PodIn(m: Store, agent: Agent): Option<Pod> { PodAt(m, agent.ns, AgentName(agent.id)) }

  function ConfigMapIn(m: Store, agent: Agent): Option<ConfigMap> { ConfigMapAt(m, agent.ns, AgentName(agent.id)) }

  /** The entry a run leaves when it stops. */
  ghost predicate Leaves(profile: Profile, log: seq<Entry>, e: Entry, task: Task, ok: bool, m: Store, agent: Agent)
    requires Plain(profile.base)
  {
    && e.task == task
    && (ok ==> e.stage == Rebuilt)
    && Represents(profile, log + [e], PodIn(m, agent), ConfigMapIn(m, agent))
  }

  /** After a step the run either goes on with its account kept, or has stopped and left one entry. */
  ghost predicate Kept(profile: Profile, log: seq<Entry>, task: Task, pc: Pc, m: Store, agent: Agent)
    requires Plain(profile.base)
  {
    if pc.Finished? then exists e :: Leaves(profile, log, e, task, pc.ok, m, agent)
    else During(profile, log, Run(task, pc), PodIn(m, agent), ConfigMapIn(m, agent))
  }

  lemma UntouchedRepresents(profile: Profile, log: seq<Entry>, task: Task, pod: Option<Pod>, cm: Option<ConfigMap>)
    requires Plain(profile.base) && Represents(profile, log, pod, cm)
    ensures Represents(profile, log + [Entry(task, Untouched, "")], pod, cm)
  {
    OneMore(log, Entry(task, Untouched, ""));
  }

  lemma RecordedRepresents(profile: Profile, log: seq<Entry>, task: Task, ip: string, pod: Option<Pod>,
                           cm: Option<ConfigMap>, edited: ConfigMap)
    requires Plain(profile.base) && Represents(profile, log, pod, cm)
    requires HoldsRecord(profile, edited, EditedDisks(RecordAfter(log), task))
    ensures Represents(profile, log + [Entry(task, Recorded, ip)], pod, Some(edited))
  {
    hide HoldsRecord, LooksLike, EditedDisks;
    OneMore(log, Entry(task, Recorded, ip));
  }

  lemma DroppedRepresents(profile: Profile, log: seq<Entry>, task: Task, ip: string, pod: Option<Pod>,
                          cm: Option<ConfigMap>)
    requires Plain(profile.base) && Represents(profile, log + [Entry(task, Recorded, ip)], pod, cm)
    ensures Represents(profile, log + [Entry(task, Dropped, ip)], None, cm)
  {
    hide HoldsRecord, LooksLike, EditedDisks;
    OneMore(log, Entry(task, Recorded, ip));
    OneMore(log, Entry(task, Dropped, ip));
  }

  lemma RebuiltRepresents(profile: Profile, log: seq<Entry>, task: Task, next: Pod, pod: Option<Pod>,
                          cm: Option<ConfigMap>)
    requires Plain(profile.base) && Represents(profile, log + [Entry(task, Dropped, PinOf(next))], pod, cm)
    requires IsNext(profile, log, task, next)
    ensures Represents(profile, log + [Entry(task, Rebuilt, PinOf(next))], Some(next), cm)
  {
    hide HoldsRecord, LooksLike, EditedDisks;
    OneMore(log, Entry(task, Dropped, PinOf(next)));
    OneMore(log, Entry(task, Rebuilt, PinOf(next)));
  }

  lemma ReadsKeepTrack(profile: Profile, log: seq<Entry>, m: Store, agent: Agent, task: Task, pc: Pc, served: bool)
    requires Plain(profile.base) && (pc.GetPod? || pc.GetConfigMap?)
    requires During(profile, log, Run(task, pc), PodIn(m, agent), ConfigMapIn(m, agent))
    ensures var (m', pc') := Step(m, agent, task, pc, served); Kept(profile, log, task, pc', m', agent)
  {
    hide HoldsRecord, LooksLike, EditedConfigMap, EditedDisks;
    var (m', pc') := Step(m, agent, task, pc, served);
    if pc'.Finished? {
      UntouchedRepresents(profile, log, task, PodIn(m, agent), ConfigMapIn(m, agent));
      assert Leaves(profile, log, Entry(task, Untouched, ""), task, pc'.ok, m', agent);
    } else if pc.GetConfigMap? {
      EditHoldsRecord(profile, ConfigMapIn(m, agent).value, RecordAfter(log), task);
    }
  }

  lemma UpdateKeepsTrack(profile: Profile, log: seq<Entry>, m: Store, agent: Agent, task: Task, pc: Pc, served: bool)
    requires Plain(profile.base) && pc.UpdateConfigMap?
    requires During(profile, log, Run(task, pc), PodIn(m, agent), ConfigMapIn(m, agent))
    ensures var (m', pc') := Step(m, agent, task, pc, served); Kept(profile, log, task, pc', m', agent)
  {
    hide HoldsRecord, Represents, ReadRight, IsNext, Successor, EditedDisks;
    var (m', pc') := Step(m, agent, task, pc, served);
    if pc'.Finished? {
      UntouchedRepresents(profile, log, task, PodIn(m, agent), ConfigMapIn(m, agent));
      assert Leaves(profile, log, Entry(task, Untouched, ""), task, pc'.ok, m', agent);
    } else {
      var next := Successor(pc.read, task);
      SuccessorIsNext(profile, log, task, pc.read);
      RecordedRepresents(profile, log, task, PinOf(next), PodIn(m, agent), ConfigMapIn(m, agent), pc.edited);
    }
  }

  lemma DeleteKeepsTrack(profile: Profile, log: seq<Entry>, m: Store, agent: Agent, task: Task, pc: Pc, served: bool)
    requires Plain(profile.base) && pc.DeletePod?
    requires During(profile, log, Run(task, pc), PodIn(m, agent), ConfigMapIn(m, agent))
    ensures var (m', pc') := Step(m, agent, task, pc, served); Kept(profile, log, task, pc', m', agent)
  {
    hide Represents, IsNext;
    var (m', pc') := Step(m, agent, task, pc, served);
    if pc'.Finished? {
      assert Leaves(profile, log, Entry(task, Recorded, PinOf(pc.next)), task, pc'.ok, m', agent);
    } else {
      DroppedRepresents(profile, log, task, PinOf(pc.next), PodIn(m, agent), ConfigMapIn(m, agent));
    }
  }

  lemma CreateKeepsTrack(profile: Profile, log: seq<Entry>, m: Store, agent: Agent, task: Task, pc: Pc, served: bool)
    requires Plain(profile.base) && pc.CreatePod?
    requires During(profile, log, Run(task, pc), PodIn(m, agent), ConfigMapIn(m, agent))
    ensures var (m', pc') := Step(m, agent, task, pc, served); Kept(profile, log, task, pc', m', agent)
  {
    hide Represents, IsNext;
    var (m', pc') := Step(m, agent, task, pc, served);
    if pc'.Finished? {
      assert Leaves(profile, log, Entry(task, Dropped, PinOf(pc.next)), task, pc'.ok, m', agent);
    } else {
      RebuiltRepresents(profile, log, task, pc.next, PodIn(m, agent), ConfigMapIn(m, agent));
      assert Represents(profile, log + [Entry(task, Rebuilt, PinOf(pc.next))], PodIn(m', agent),
                        ConfigMapIn(m', agent));
    }
  }

  lemma WaitKeepsTrack(profile: Profile, log: seq<Entry>, m: Store, agent: Agent, task: Task, pc: Pc, served: bool)
    requires Plain(profile.base) && (pc.OpenWatch? || pc.AwaitReady?)
    requires During(profile, log, Run(task, pc), PodIn(m, agent), ConfigMapIn(m, agent))
    ensures var (m', pc') := Step(m, agent, task, pc, served); Kept(profile, log, task, pc', m', agent)
  {
    hide Represents;
    var (m', pc') := Step(m, agent, task, pc, served);
    var ip :| Represents(profile, log + [Entry(task, Rebuilt, ip)], PodIn(m, agent), ConfigMapIn(m, agent));
    if pc'.Finished? {
      assert Leaves(profile, log, Entry(task, Rebuilt, ip), task, pc'.ok, m', agent);
    }
  }

  lemma StepKeepsTrack(profile: Profile, log: seq<Entry>, m: Store, agent: Agent, task: Task, pc: Pc, served: bool)
    requires Plain(profile.base)
    requires During(profile, log, Run(task, pc), PodIn(m, agent), ConfigMapIn(m, agent))
    ensures var (m', pc') := Step(m, agent, task, pc, served); Kept(profile, log, task, pc', m', agent)
  {
    match pc {
      case GetPod | GetConfigMap(_) => ReadsKeepTrack(profile, log, m, agent, task, pc, served);
      case UpdateConfigMap(_, _) => UpdateKeepsTrack(profile, log, m, agent, task, pc, served);
      case DeletePod(_) => DeleteKeepsTrack(profile, log, m, agent, task, pc, served);
      case CreatePod(_) => CreateKeepsTrack(profile, log, m, agent, task, pc, served);
      case OpenWatch | AwaitReady => WaitKeepsTrack(profile, log, m, agent, task, pc, served);
    }
  }

  /** A step of the run in flight keeps its account; a run that stops leaves exactly one new entry. */
  lemma AdvanceKeepsTrack(profile: Profile, log: seq<Entry>, s: System, agent: Agent, served: bool)
    requires Plain(profile.base) && DeskOf(s, agent).current.Some?
    requires Tracks(profile, log, ViewOf(s, agent))
    ensures exists log' :: Tracks(profile, log', ViewOf(Act(s, Advance(agent, served)), agent))
  {
    hide Step, During, Represents;
    var run, v' := DeskOf(s, agent).current.value, ViewOf(Act(s, Advance(agent, served)), agent);
    var (m', pc') := Step(s.store, agent, run.task, run.pc, served);
    StepKeepsTrack(profile, log, s.store, agent, run.task, run.pc, served);
    if pc'.Finished? {
      var e :| Leaves(profile, log, e, run.task, pc'.ok, m', agent);
      assert Tracks(profile, log + [e], v');
    } else {
      assert Tracks(profile, log, v');
    }
  }

  /** The pods differ at most in what they report and how they are labelled. */
  predicate SameButReports(p: Option<Pod>, q: Option<Pod>) {
    && (p.Some? <==> q.Some?)
    && (p.Some? ==> q.value.annotations == p.value.annotations && q.value.spec == p.value.spec)
  }

  lemma ReportsDoNotMatter(profile: Profile, log: seq<Entry>, p: Option<Pod>, q: Option<Pod>, cm: Option<ConfigMap>)
    requires Plain(profile.base) && SameButReports(p, q) && Represents(profile, log, p, cm)
    ensures Represents(profile, log, q, cm)
  {
    hide HoldsRecord, SpecWith, Plain;
  }

  /** Status reports and labels change nothing an account speaks of. */
  lemma ReportKeepsTrack(profile: Profile, log: seq<Entry>, s: System, a: Action)
    requires Plain(profile.base) && Tracks(profile, log, ViewOf(s, a.agent)) && (a.Kubelet? || a.Label?)
    ensures Tracks(profile, log, ViewOf(Act(s, a), a.agent))
  {
    hide Represents, HoldsRecord, IsNext, ReadRight, Plain;
    var v, v' := ViewOf(s, a.agent), ViewOf(Act(s, a), a.agent);
    forall l | Represents(profile, l, v.pod, v.configMap) ensures Represents(profile, l, v'.pod, v'.configMap) {
      ReportsDoNotMatter(profile, l, v.pod, v'.pod, v.configMap);
    }
  }

  lemma ActionKeepsTrack(profile: Profile, log: seq<Entry>, s: System, agent: Agent, a: Action)
    requires Plain(profile.base) && Tracks(profile, log, ViewOf(s, agent))
    ensures Accounted(profile, ViewOf(Act(s, a), agent))
  {
    hide Step, Represents;
    if a.agent != agent {
      ActIsLocal(s, s, a, agent);
      assert Tracks(profile, log, ViewOf(Act(s, a), agent));
    } else {
      match a {
        case Begin(_, _) => assert Tracks(profile, log, ViewOf(Act(s, a), agent));
        case Kubelet(_, _) | Label(_, _) => ReportKeepsTrack(profile, log, s, a);
        case Advance(_, served) =>
          if DeskOf(s, agent).current.Some? {
            AdvanceKeepsTrack(profile, log, s, agent, served);
          } else {
            assert Tracks(profile, log, ViewOf(Act(s, a), agent));
          }
      }
    }
  }

  /** Over every schedule, the objects of an agent are those its account stands for: the settings
      hold the recorded disks and otherwise what they held at the start, the pod is its base with the
      attached disks in order, and the account has one entry a report. */
  lemma {:induction false} EveryRunKeepsTrack(profile: Profile, s: System, schedule: seq<Action>, agent: Agent)
    requires Plain(profile.base) && Accounted(profile, ViewOf(s, agent))
    ensures Accounted(profile, ViewOf(Exec(s, schedule), agent))
    decreases |schedule|
  {
    if schedule != [] {
      var before, a := Exec(s, schedule[..|schedule| - 1]), schedule[|schedule| - 1];
      EveryRunKeepsTrack(profile, s, schedule[..|schedule| - 1], agent);
      var log :| Tracks(profile, log, ViewOf(before, agent));
      ActionKeepsTrack(profile, log, before, agent, a);
    }
  }

  // ---- At any moment ----

  /** The account of what is stored right now: that of the reports, and possibly the entry of the run in flight. */
  ghost predicate Stands(profile: Profile, log: seq<Entry>, v: View)
    requires Plain(profile.base)
  {
    && |v.desk.past| <= |log|
    && Accounts(log[..|v.desk.past|], v.desk.past)
    && (if v.desk.current.None? then |log| == |v.desk.past|
        else |log| <= |v.desk.past| + 1 && (|log| > |v.desk.past| ==> Last(log).task == v.desk.current.value.task))
    && Represents(profile, log, v.pod, v.configMap)
  }

  lemma StandsNow(profile: Profile, log: seq<Entry>, v: View)
    requires Plain(profile.base) && |log| == |v.desk.past| && Accounts(log, v.desk.past)
    requires Represents(profile, log, v.pod, v.configMap)
    ensures Stands(profile, log, v)
  {
    hide Represents;
    assert log[..|log|] == log;
  }

  lemma StandsMidRun(profile: Profile, log: seq<Entry>, e: Entry, v: View)
    requires Plain(profile.base) && Accounts(log, v.desk.past) && v.desk.current.Some?
    requires e.task == v.desk.current.value.task && Represents(profile, log + [e], v.pod, v.configMap)
    ensures Stands(profile, log + [e], v)
  {
    hide Represents;
    OneMore(log, e);
    assert (log + [e])[..|v.desk.past|] == log;
  }

  lemma TrackedStands(profile: Profile, log: seq<Entry>, v: View)
    requires Plain(profile.base) && Tracks(profile, log, v)
    ensures exists now :: Stands(profile, now, v)
  {
    hide Represents, Stands, IsNext, ReadRight, HoldsRecord;
    if v.desk.current.None? {
      StandsNow(profile, log, v);
    } else {
      var task := v.desk.current.value.task;
      match v.desk.current.value.pc {
        case GetPod | GetConfigMap(_) | UpdateConfigMap(_, _) => StandsNow(profile, log, v);
        case DeletePod(next) => StandsMidRun(profile, log, Entry(task, Recorded, PinOf(next)), v);
        case CreatePod(next) => StandsMidRun(profile, log, Entry(task, Dropped, PinOf(next)), v);
        case OpenWatch | AwaitReady =>
          var ip :| Represents(profile, log + [Entry(task, Rebuilt, ip)], v.pod, v.configMap);
          StandsMidRun(profile, log, Entry(task, Rebuilt, ip), v);
      }
    }
  }

  /** At every moment of every schedule some account stands for the stored objects: in mid-run, after
      refusals, whatever the other agents do. */
  lemma EveryMomentStands(profile: Profile, s: System, schedule: seq<Action>, agent: Agent)
    requires Plain(profile.base) && Accounted(profile, ViewOf(s, agent))
    ensures exists log :: Stands(profile, log, ViewOf(Exec(s, schedule), agent))
  {
    hide Stands, Tracks;
    var v := ViewOf(Exec(s, schedule), agent);
    EveryRunKeepsTrack(profile, s, schedule, agent);
    var log :| Tracks(profile, log, v);
    TrackedStands(profile, log, v);
  }
}
