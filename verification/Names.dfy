/** Object names, label keys and cloud IDs (actions/util.go and the string literals of the actions). */
module Names {
  import opened Basics

  const PREFIX := "bosh.cloudfoundry.org/"
  const AGENT_LABEL := "bosh.cloudfoundry.org/agent-id"
  const DISK_LABEL := "bosh.cloudfoundry.org/disk-id"
  const IP_ANNOTATION := "bosh.cloudfoundry.org/ip-address"
  const JOB := "bosh-job"
  const SETTINGS_KEY := "instance_settings"

  function AgentName(id: string): string { "agent-" + id }

  function DiskName(id: string): string { "disk-" + id }

  function MountPath(id: string): string { "/mnt/" + id }

  function LabelKey(key: string): string { PREFIX + key }

  lemma PrefixInjective(prefix: string, a: string, b: string)
    requires prefix + a == prefix + b
    ensures a == b
  {
    assert a == (prefix + a)[|prefix|..];
    assert b == (prefix + b)[|prefix|..];
  }

  /** Each kind of name determines the identifier it was built from, for every pair of identifiers. */
  lemma NamesInjective()
    ensures forall a, b :: AgentName(a) == AgentName(b) ==> a == b
    ensures forall a, b :: DiskName(a) == DiskName(b) ==> a == b
    ensures forall a, b :: MountPath(a) == MountPath(b) ==> a == b
    ensures forall a, b :: LabelKey(a) == LabelKey(b) ==> a == b
  {
    forall a, b | AgentName(a) == AgentName(b) ensures a == b { PrefixInjective("agent-", a, b); }
    forall a, b | DiskName(a) == DiskName(b) ensures a == b { PrefixInjective("disk-", a, b); }
    forall a, b | MountPath(a) == MountPath(b) ensures a == b { PrefixInjective("/mnt/", a, b); }
    forall a, b | LabelKey(a) == LabelKey(b) ensures a == b { PrefixInjective(PREFIX, a, b); }
  }

  /** The cloud ID of a VM or a disk. */
  function NewCid(context: string, id: string): string { context + ":" + id }

  /** The position of the first colon, or the length of the text when there is none. */
  function FirstColon(text: string): (i: nat)
    ensures i <= |text|
    ensures i < |text| ==> text[i] == ':'
    ensures ':' !in text[..i]
  {
    if text == [] || text[0] == ':' then 0
    else
      var rest := FirstColon(text[1..]);
      assert text[..rest + 1] == [text[0]] + text[1..][..rest];
      rest + 1
  }

  /** Splits a cloud ID at its first colon. Without a colon the program indexes past the end of the
      split and panics: `None`. */
  function ParseCid(cid: string): Option<(string, string)> {
    var i := FirstColon(cid);
    if i == |cid| then None else Some((cid[..i], cid[i + 1..]))
  }

  lemma {:induction false} FirstColonIs(text: string, i: nat)
    requires i < |text| && text[i] == ':' && ':' !in text[..i]
    ensures FirstColon(text) == i
  {
    if i > 0 {
      assert text[0] == text[..i][0];
      assert text[1..][..i - 1] == text[..i][1..];
      FirstColonIs(text[1..], i - 1);
    }
  }

  /** Parsing a printed pair gives the pair back exactly when the context has no colon;
      the identifier may contain any number of them. */
  lemma ParseOfPrint(context: string, id: string)
    ensures ParseCid(NewCid(context, id)) == Some((context, id)) <==> ':' !in context
  {
    var cid := NewCid(context, id);
    if ':' !in context {
      assert cid[..|context|] == context;
      FirstColonIs(cid, |context|);
      assert cid[|context| + 1..] == id;
    }
  }

  /** Printing what was parsed gives the text back, and parsing succeeds exactly on texts with a colon. */
  lemma PrintOfParse(cid: string)
    ensures ParseCid(cid).Some? <==> ':' in cid
    ensures ParseCid(cid).Some? ==>
              var (context, id) := ParseCid(cid).value;
              NewCid(context, id) == cid && ':' !in context
  {
    var i := FirstColon(cid);
    if i < |cid| {
      assert cid == cid[..i] + [cid[i]] + cid[i + 1..];
    } else {
      assert cid[..i] == cid;
    }
  }

  /** The cloud ID names this identifier through this context. */
  ghost predicate Through(cid: string, context: string, id: string) {
    ':' !in context && cid == context + ":" + id
  }

  /** Parsing finds the one pair that a cloud ID names, and fails when there is none. */
  lemma ThroughIsParse(cid: string)
    ensures forall context, id :: Through(cid, context, id) <==> ParseCid(cid) == Some((context, id))
  {
    forall context, id ensures Through(cid, context, id) <==> ParseCid(cid) == Some((context, id)) {
      PrintOfParse(cid);
      ParseOfPrint(context, id);
    }
  }

  /** Two printed cloud IDs with colon-free contexts are equal only when both parts are. */
  lemma CidInjective(c1: string, id1: string, c2: string, id2: string)
    requires ':' !in c1 && ':' !in c2
    requires NewCid(c1, id1) == NewCid(c2, id2)
    ensures c1 == c2 && id1 == id2
  {
    ParseOfPrint(c1, id1);
    ParseOfPrint(c2, id2);
  }

  /** Within one context, whatever characters it has, the cloud ID determines the identifier. */
  lemma CidInjectiveInId(context: string)
    ensures forall a, b :: NewCid(context, a) == NewCid(context, b) ==> a == b
  {
    forall a, b | NewCid(context, a) == NewCid(context, b) ensures a == b {
      PrefixInjective(context + ":", a, b);
    }
  }
}
