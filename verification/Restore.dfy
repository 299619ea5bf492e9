/**
 * The restore agent: rebuilding a seed's data directory from a snapshot, on a
 * file system that keeps whatever an attempt had done when it was cut off.
 */
module Restore {
  import opened Base

  // ---- Free space ----

  const Int64Limit: int := 0x8000_0000_0000_0000
  const Uint64Limit: int := 0x1_0000_0000_0000_0000
  const StagingFactor: int := 2

  /** uint64(size) * 2 as the agent computes it, wrap-around included. */
  function Uint64(x: int): int { x % Uint64Limit }

  function NeedBytes(size: int): int { Uint64(Uint64(size) * StagingFactor) }

  /** The doubling is exact for every size the agent lets through, and for no other int64. */
  lemma DoublingIsExact(size: int)
    requires -Int64Limit <= size < Int64Limit
    ensures NeedBytes(size) == 2 * size <==> size >= 0
  {
    if size < 0 {
      assert Uint64(size) == size + Uint64Limit;
    }
  }

  predicate Int64(x: int) { -Int64Limit <= x < Int64Limit }

  /** ensureRestoreSpace. */
  predicate SpaceOk(size: int, avail: Option<nat>) {
    size >= 0 && avail.Some? && avail.value >= NeedBytes(size)
  }

  // ---- The data directory ----

  type Snapshot = string

  datatype Content = Partial | Whole(snapshot: Snapshot)

  /** temps: the staged downloads.  staging: the .restore directory and the member/ inside it. */
  datatype Dir = Dir(member: Option<Content>, staging: Option<Option<Content>>, temps: seq<Content>)

  datatype Kind = S3(key: string) | PVC(subPath: string)

  datatype Source = Source(kind: Kind, snapshot: Snapshot)

  /**
   * How one operation goes.  `some` says whether an operation that fails, or during which
   * the process dies, had an effect before that.
   */
  datatype Answer = Fine | Error(some: bool) | Dead(some: bool)

  datatype Outcome = Done | Failed | Died

  /** What an attempt learns from outside. */
  datatype Probe = Probe(size: Option<int>, avail: Option<nat>, isDir: bool, configured: bool)

  /** The most operations one attempt performs. */
  const Operations: nat := 12

  /** How many an attempt on an empty directory, from S3, performs up to and including the rename. */
  const UpToRename: nat := 9

  datatype Download = Download(size: int, avail: nat)

  ghost predicate DirOk(source: Source, d: Dir) {
    && (d.member.Some? ==> d.member == Some(Whole(source.snapshot)))
    && |d.temps| <= 1
  }

  ghost predicate Covered(ds: seq<Download>) {
    forall i :: 0 <= i < |ds| ==> 0 <= ds[i].size && ds[i].avail >= 2 * ds[i].size
  }

  ghost predicate AllFine(s: seq<Answer>) {
    forall i :: 0 <= i < |s| ==> s[i] == Fine
  }

  /** At most k answers were used up, and if all of them were fine the caller got what it wanted. */
  ghost predicate Spent(before: seq<Answer>, after: seq<Answer>, k: nat, good: bool) {
    && |after| >= |before| - k
    && (AllFine(before) ==> AllFine(after))
    && (AllFine(before) && |before| >= k ==> good)
  }

  /** On a script of fine answers exactly k of them were used up. */
  ghost predicate Used(before: seq<Answer>, after: seq<Answer>, k: nat) {
    AllFine(before) && |before| >= k ==> |after| == |before| - k
  }

  class Agent {
    const source: Source
    var dir: Dir
    /** The answers still to come in this attempt; when they run out the process dies. */
    var script: seq<Answer>
    ghost var downloads: seq<Download>

    constructor (source: Source, dir: Dir)
      requires DirOk(source, dir)
      ensures Valid() && this.source == source && this.dir == dir && downloads == []
    {
      this.source, this.dir := source, dir;
      script, downloads := [], [];
    }

    ghost predicate Valid()
      reads this
    {
      DirOk(source, dir) && Covered(downloads)
    }

    method Next() returns (a: Answer)
      modifies this`script
      ensures old(script) == [] ==> a == Dead(false) && script == []
      ensures old(script) != [] ==> a == old(script[0]) && script == old(script[1..])
    {
      if script == [] {
        return Dead(false);
      }
      a, script := script[0], script[1..];
    }

    /** An operation that changes nothing. */
    method Look() returns (o: Outcome)
      modifies this`script
      ensures Spent(old(script), script, 1, o == Done) && Used(old(script), script, 1)
    {
      var a := Next();
      o := match a case Fine => Done case Error(_) => Failed case Dead(_) => Died;
    }

    /** os.RemoveAll on the staging directory, which may stop half way. */
    method RemoveStaging() returns (o: Outcome)
      modifies this`script, this`dir
      ensures dir.member == old(dir.member) && dir.temps == old(dir.temps)
      ensures o == Done ==> dir.staging == None
      ensures old(script) == [] ==> o == Died
      ensures Spent(old(script), script, 1, o == Done) && Used(old(script), script, 1)
    {
      var a := Next();
      if a == Fine {
        dir := dir.(staging := None);
        return Done;
      }
      if a.some && dir.staging.Some? && dir.staging.value.Some? {
        dir := dir.(staging := Some(Some(Partial)));
      }
      o := if a.Error? then Failed else Died;
    }

    /** os.Remove on a staged download. */
    method RemoveTemp(i: nat) returns (o: Outcome)
      requires i < |dir.temps|
      modifies this`script, this`dir
      ensures dir.member == old(dir.member) && dir.staging == old(dir.staging)
      ensures dir.temps == old(dir.temps) || dir.temps == old(dir.temps[..i] + dir.temps[i + 1..])
      ensures o == Done ==> dir.temps == old(dir.temps[..i] + dir.temps[i + 1..])
      ensures Spent(old(script), script, 1, o == Done) && Used(old(script), script, 1)
    {
      var a := Next();
      if a == Fine || (a.Dead? && a.some) {
        dir := dir.(temps := dir.temps[..i] + dir.temps[i + 1..]);
      }
      o := match a case Fine => Done case Error(_) => Failed case Dead(_) => Died;
    }

    /** cleanStaleRestoreArtifacts. */
    method CleanStale() returns (o: Outcome)
      requires |dir.temps| <= 1
      modifies this`script, this`dir
      ensures dir.member == old(dir.member) && |dir.temps| <= |old(dir.temps)|
      ensures o == Done ==> dir.temps == [] && dir.staging == None
      ensures Spent(old(script), script, 2, o == Done) && Used(old(script), script, 1 + |old(dir.temps)|)
    {
      while |dir.temps| > 0
        invariant dir.member == old(dir.member) && |dir.temps| <= |old(dir.temps)|
        invariant Spent(old(script), script, |old(dir.temps)| - |dir.temps|, true)
        invariant Used(old(script), script, |old(dir.temps)| - |dir.temps|)
        decreases |dir.temps|
      {
        o := RemoveTemp(0);
        if o != Done {
          return;
        }
      }
      o := RemoveStaging();
    }

    /** downloadS3: on success the last staged file is the whole snapshot. */
    method DownloadSnapshot(ghost size: int, ghost avail: nat) returns (o: Outcome)
      requires dir.temps == [] && 0 <= size && avail >= 2 * size && Covered(downloads)
      modifies this`script, this`dir, this`downloads
      ensures dir.member == old(dir.member) && dir.staging == old(dir.staging)
      ensures |dir.temps| <= 1 && (o == Done ==> dir.temps == [Whole(source.snapshot)])
      ensures Covered(downloads) && downloads == old(downloads) + [Download(size, avail)]
      ensures Spent(old(script), script, 1, o == Done) && Used(old(script), script, 1)
    {
      downloads := downloads + [Download(size, avail)];
      var a := Next();
      if a == Fine {
        dir := dir.(temps := dir.temps + [Whole(source.snapshot)]);
        return Done;
      }
      if a.some {
        dir := dir.(temps := dir.temps + [Partial]);
      }
      o := if a.Error? then Failed else Died;
    }

    /** Obtains the snapshot file; the free-space check comes before any transfer. */
    method Fetch(p: Probe) returns (o: Outcome)
      requires Valid() && dir.temps == [] && (p.size.Some? ==> Int64(p.size.value))
      modifies this`script, this`dir, this`downloads
      ensures Valid() && dir.member == old(dir.member) && dir.staging == old(dir.staging)
      ensures o == Done ==> dir.temps == if source.kind.S3? then [Whole(source.snapshot)] else []
      ensures downloads != old(downloads) ==>
                source.kind.S3? && p.size.Some? && SpaceOk(p.size.value, p.avail)
                && downloads == old(downloads) + [Download(p.size.value, p.avail.value)]
      ensures Spent(old(script), script, 3, Reachable(p) ==> o == Done)
      ensures Reachable(p) && source.kind.S3? ==> Used(old(script), script, 3)
    {
      o := Look();
      if o != Done {
        return;
      }
      if p.size.None? || (source.kind.PVC? && p.isDir) {
        return Failed;
      }
      o := Look();
      if o != Done {
        return;
      }
      if p.size.value < 0 || p.avail.None? {
        return Failed;
      }
      DoublingIsExact(p.size.value);
      if p.avail.value < NeedBytes(p.size.value) {
        return Failed;
      }
      if source.kind.S3? {
        o := DownloadSnapshot(p.size.value, p.avail.value);
      }
    }

    /** Everything outside the file system is in order. */
    ghost predicate Reachable(p: Probe) {
      && p.size.Some? && SpaceOk(p.size.value, p.avail)
      && (source.kind.PVC? ==> !p.isDir)
    }

    /** etcdutl refuses an output directory that is there already. */
    method Rebuild() returns (o: Outcome)
      modifies this`script, this`dir
      ensures dir.member == old(dir.member) && dir.temps == old(dir.temps)
      ensures o == Done ==> dir.staging == Some(Some(Whole(source.snapshot)))
      ensures Spent(old(script), script, 1, old(dir.staging) == None ==> o == Done) && Used(old(script), script, 1)
    {
      var a := Next();
      if dir.staging.Some? {
        return if a.Dead? then Died else Failed;
      }
      if a == Fine {
        dir := dir.(staging := Some(Some(Whole(source.snapshot))));
        return Done;
      }
      if a.some {
        dir := dir.(staging := Some(Some(Partial)));
      }
      o := if a.Error? then Failed else Died;
    }

    /** The rename is what makes the restore visible. */
    method MoveIntoPlace() returns (o: Outcome)
      requires dir.member == None && dir.staging == Some(Some(Whole(source.snapshot)))
      modifies this`script, this`dir
      ensures dir.temps == old(dir.temps)
      ensures dir.member == None || dir.member == Some(Whole(source.snapshot))
      ensures o == Done ==> dir.member.Some?
      ensures Spent(old(script), script, 1, o == Done) && Used(old(script), script, 1)
    {
      var a := Next();
      if a == Fine || (a.Dead? && a.some) {
        dir := Dir(dir.staging.value, Some(None), dir.temps);
      }
      o := match a case Fine => Done case Error(_) => Failed case Dead(_) => Died;
    }

    /** From the fetched snapshot to the renamed data directory. */
    method RebuildAndMove() returns (o: Outcome)
      requires Valid() && dir.member == None
      modifies this`script, this`dir
      ensures Valid() && dir.temps == old(dir.temps)
      ensures o == Done ==> dir.member.Some?
      ensures Spent(old(script), script, 4, o == Done)
      ensures AllFine(old(script)) && |old(script)| == 3 ==> o == Died && dir.member.Some?
    {
      o := RemoveStaging();
      if o == Died {
        return;
      }
      o := Rebuild();
      if o != Done {
        return;
      }
      o := MoveIntoPlace();
      if o != Done {
        return;
      }
      var r := RemoveStaging();
      o := if r == Died then Died else Done;
    }

    /**
     * RunRestore, one attempt.  Whatever the answers: member/ is absent or whole, an
     * initialized directory is left alone, at most one download is staged, and no download
     * began without room for twice its size.  An attempt nothing goes wrong with completes.
     */
    method RunRestore(answers: seq<Answer>, p: Probe) returns (o: Outcome)
      requires Valid() && (p.size.Some? ==> Int64(p.size.value))
      modifies this
      ensures Valid()
      ensures old(dir.member).Some? ==> dir == old(dir) && downloads == old(downloads)
      ensures o == Done ==> dir.member == Some(Whole(source.snapshot))
      ensures AllFine(answers) && |answers| >= Operations && Reachable(p) && p.configured && Exact(source.kind) ==> o == Done
      ensures AllFine(answers) && |answers| == UpToRename && Reachable(p) && p.configured && Exact(source.kind)
              && source.kind.S3? && old(dir) == Dir(None, None, []) ==>
                dir.member.Some? && dir.temps == [Whole(source.snapshot)]
    {
      script := answers;
      o := Look();
      if o != Done || dir.member.Some? {
        return;
      }
      if !p.configured || !Exact(source.kind) {
        return Failed;
      }
      o := Look();
      if o != Done {
        return;
      }
      o := CleanStale();
      if o != Done {
        return;
      }
      o := Fetch(p);
      if o != Done {
        return;
      }
      o := RebuildAndMove();
      if o != Died && |dir.temps| > 0 {
        var r := RemoveTemp(0);
        if r == Died {
          o := Died;
        }
      }
    }
  }

  /** The source names one exact object or file. */
  predicate Exact(kind: Kind) {
    match kind
    case S3(key) => key != ""
    case PVC(subPath) => subPath != ""
  }

  datatype Attempt = Attempt(answers: seq<Answer>, probe: Probe)

  /** Any sequence of attempts: once member/ is there, the directory is the same after every later one. */
  method RunAttempts(agent: Agent, attempts: seq<Attempt>) returns (ghost history: seq<Dir>)
    requires agent.Valid()
    requires forall i :: 0 <= i < |attempts| ==> attempts[i].probe.size.Some? ==> Int64(attempts[i].probe.size.value)
    modifies agent
    ensures agent.Valid() && |history| == |attempts| + 1 && history[0] == old(agent.dir) && history[|attempts|] == agent.dir
    ensures forall i :: 0 <= i < |history| ==> DirOk(agent.source, history[i])
    ensures forall i, j :: 0 <= i <= j < |history| && history[i].member.Some? ==> history[j] == history[i]
  {
    history := [agent.dir];
    for k := 0 to |attempts|
      invariant agent.Valid() && |history| == k + 1 && history[0] == old(agent.dir) && history[k] == agent.dir
      invariant forall i :: 0 <= i < |history| ==> DirOk(agent.source, history[i])
      invariant forall i, j :: 0 <= i <= j < |history| && history[i].member.Some? ==> history[j] == history[i]
    {
      var _ := agent.RunRestore(attempts[k].answers, attempts[k].probe);
      history := history + [agent.dir];
    }
  }

  /**
   * A process that dies between the rename and its deferred clean-up leaves its staged download
   * behind, and no later attempt removes it: the directory counts as initialized.
   */
  method StagedDownloadStays(source: Source, probe: Probe, later: seq<Attempt>) returns (agent: Agent)
    requires source.kind.S3? && Exact(source.kind) && probe.configured
    requires probe.size.Some? && Int64(probe.size.value) && SpaceOk(probe.size.value, probe.avail)
    requires forall i :: 0 <= i < |later| ==> later[i].probe.size.Some? ==> Int64(later[i].probe.size.value)
    ensures fresh(agent) && agent.Valid() && agent.source == source
    ensures agent.dir.member.Some? && agent.dir.temps == [Whole(source.snapshot)]
  {
    agent := new Agent(source, Dir(None, None, []));
    var answers := seq(UpToRename, _ => Fine);
    var _ := agent.RunRestore(answers, probe);
    ghost var history := RunAttempts(agent, later);
    assert history[|later|] == history[0];
  }
}
