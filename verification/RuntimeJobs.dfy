/**
 The two jobs of CRDV2 that write the NodeRuntime object (pkg/eni/crdv2.go). syncNodeRuntime reports released
 pods under the lock of the release log; syncDeletedPods drops and adds records without it. Both read the object from
 a cache that lags behind the API server. A save reads the cache again and sends the difference between that and the
 job's copy as a JSON merge patch (RFC 7396), which the server applies to the object as it then is.
 */
module RuntimeJobs {
  import opened Util
  import opened NodeRuntime

  // The patch that a save sends.

  /** A status entry counts as unchanged if the re-read object and the copy agree on it. */
  predicate SameEntry(fresher: map<CniStatus, Option<nat>>, copy: map<CniStatus, Option<nat>>, c: CniStatus) {
    (c in fresher <==> c in copy) && (c in copy ==> fresher[c] == copy[c])
  }

  /** Unchanged entries stay as the server has them, changed ones become the copy's, missing or nil ones go. */
  function PatchedStatus(base: map<CniStatus, Option<nat>>, fresher: map<CniStatus, Option<nat>>,
                         copy: map<CniStatus, Option<nat>>): map<CniStatus, Option<nat>> {
    map c | c in base.Keys + copy.Keys && (if SameEntry(fresher, copy, c) then c in base else c in copy && copy[c].Some?) ::
      if SameEntry(fresher, copy, c) then base[c] else copy[c]
  }

  const EMPTY: PodStatus := PodStatus("", map[])

  function OrEmpty(p: Option<PodStatus>): PodStatus {
    if p.Some? then p.value else EMPTY
  }

  function PatchedRecord(base: Option<PodStatus>, fresher: Option<PodStatus>, copy: Option<PodStatus>): Option<PodStatus> {
    if fresher == copy then base
    else if copy.None? then None
    else
      var podId := if fresher.Some? && fresher.value.podId == copy.value.podId then OrEmpty(base).podId else copy.value.podId;
      Some(PodStatus(podId, PatchedStatus(OrEmpty(base).status, OrEmpty(fresher).status, copy.value.status)))
  }

  /** An empty map of records is left out of the JSON text, so that the patch takes the whole map away. */
  function Patched(stored: Pods, fresher: Pods, copy: Pods): Pods {
    if copy == map[] then
      if fresher == map[] then stored else map[]
    else
      map uid | uid in stored.Keys + copy.Keys
                && PatchedRecord(Record(stored, uid), Record(fresher, uid), Record(copy, uid)).Some? ::
        PatchedRecord(Record(stored, uid), Record(fresher, uid), Record(copy, uid)).value
  }

  /** The patch would add a record without its pod ID or its statuses, which the object's schema demands. */
  ghost predicate Refused(stored: Pods, fresher: Pods, copy: Pods) {
    exists uid :: uid !in stored && uid in fresher && uid in copy && fresher[uid] != copy[uid]
                  && (fresher[uid].podId == copy[uid].podId || fresher[uid].status == copy[uid].status)
  }

  /**
   CreateOrPatch with a cache that holds `fresher` while the server holds `stored`; None is an error. An object that
   the cache lacks is created, which leaves out its status, a subresource.
   */
  ghost function Saved(stored: Option<Pods>, fresher: Option<Pods>, copy: Pods): Option<Pods> {
    if fresher.None? then
      if stored.None? then Some(map[]) else None
    else if stored.None? || Refused(stored.value, fresher.value, copy) then None
    else Some(Patched(stored.value, fresher.value, copy))
  }

  // The jobs.

  /** A job has edited its copy, or has read the cache again and is about to send its patch. */
  datatype Job = Idle | Edited(copy: Pods) | Ready(fresher: Option<Pods>, copy: Pods)

  datatype Which = Reporter | Pruner

  /** `stored` is the object, `cached` what reads return, `behind` the later versions that the cache has yet to see. */
  datatype State = State(stored: Option<Pods>, cached: Option<Pods>, behind: seq<Pods>, log: map<Uid, string>,
                         reporting: Job, pruning: Job)

  datatype Act =
    | Log(uid: Uid, podId: string)
    | Unlog(uid: Uid)
    | CatchUp(n: nat)
    | ReportRead(now: nat)
    | PruneRead(inUsed: Pods, kept: Pods)
    | Reread(who: Which)
    | Save(who: Which, answered: bool)
    | End(who: Which)

  function JobOf(s: State, who: Which): Job {
    if who == Reporter then s.reporting else s.pruning
  }

  function Other(who: Which): Which {
    if who == Reporter then Pruner else Reporter
  }

  function WithJob(s: State, who: Which, j: Job): State {
    if who == Reporter then s.(reporting := j) else s.(pruning := j)
  }

  function CachedPods(s: State): Pods {
    if s.cached.Some? then s.cached.value else map[]
  }

  /** What inUsedPodUIDs returns: an Initial status for each pod. */
  predicate AllInitial(inUsed: Pods) {
    forall uid :: uid in inUsed ==> inUsed[uid].status.Keys == {Initial}
  }

  /** While a report runs it holds the lock of the log. A run of a job starts after its last one has ended. */
  ghost predicate Enabled(s: State, e: Act) {
    match e
    case Log(_, _) => s.reporting.Idle?
    case Unlog(_) => s.reporting.Idle?
    case CatchUp(n) => 0 < n <= |s.behind|
    case ReportRead(_) => s.reporting.Idle? && s.log != map[]
    case PruneRead(inUsed, kept) => s.pruning.Idle? && AllInitial(inUsed) && Pruned(CachedPods(s), inUsed, kept)
    case Reread(who) => JobOf(s, who).Edited?
    case Save(who, _) => JobOf(s, who).Ready?
    case End(who) => !JobOf(s, who).Idle?
  }

  /** The patch may be applied although the job sees an error; the log is cleared only when it sees none. */
  ghost function AfterSave(s: State, who: Which, answered: bool): State
    requires JobOf(s, who).Ready?
  {
    var r := Saved(s.stored, JobOf(s, who).fresher, JobOf(s, who).copy);
    var t := WithJob(s, who, Idle);
    if r.None? then t
    else t.(stored := r, behind := s.behind + [r.value], log := if who == Reporter && answered then map[] else s.log)
  }

  ghost function Apply(s: State, e: Act): State
    requires Enabled(s, e)
  {
    match e
    case Log(uid, podId) => s.(log := s.log[uid := podId])
    case Unlog(uid) => s.(log := s.log - {uid})
    case CatchUp(n) => s.(cached := Some(s.behind[n - 1]), behind := s.behind[n..])
    case ReportRead(now) => s.(reporting := Edited(Marked(CachedPods(s), s.log, now)))
    case PruneRead(inUsed, kept) => s.(pruning := Edited(inUsed + kept))
    case Reread(who) => WithJob(s, who, Ready(s.cached, JobOf(s, who).copy))
    case Save(who, answered) => AfterSave(s, who, answered)
    case End(who) => WithJob(s, who, Idle)
  }

  ghost predicate Run(s: State, es: seq<Act>)
    decreases |es|
  {
    es == [] || (Enabled(s, es[0]) && Run(Apply(s, es[0]), es[1..]))
  }

  ghost function Exec(s: State, es: seq<Act>): State
    requires Run(s, es)
    decreases |es|
  {
    if es == [] then s else Exec(Apply(s, es[0]), es[1..])
  }

  /** The last version on its way to the cache is the object. */
  predicate Coherent(s: State) {
    s.stored == if s.behind == [] then s.cached else Some(s.behind[|s.behind| - 1])
  }

  lemma {:induction false} RunStaysCoherent(s: State, es: seq<Act>)
    requires Run(s, es) && Coherent(s)
    ensures Coherent(Exec(s, es))
    decreases |es|
  {
    if es != [] {
      RunStaysCoherent(Apply(s, es[0]), es[1..]);
    }
  }

  // What a patch does to a Deleted mark.

  predicate HasMark(pods: Pods, uid: Uid) {
    uid in pods && Deleted in pods[uid].status && pods[uid].status[Deleted].Some?
  }

  predicate ObjectHasMark(o: Option<Pods>, uid: Uid) {
    o.Some? && HasMark(o.value, uid)
  }

  /** The patch says something about the pod's Deleted entry. */
  predicate TouchesMark(fresher: Pods, copy: Pods, uid: Uid) {
    || (copy == map[] && fresher != map[])
    || (uid in fresher && uid !in copy)
    || (uid in copy && !SameEntry(OrEmpty(Record(fresher, uid)).status, copy[uid].status, Deleted))
  }

  /** After a patch the mark is the copy's if the patch touches it, and the server's if not. */
  lemma PatchedMarkIff(stored: Pods, fresher: Pods, copy: Pods, uid: Uid)
    ensures HasMark(Patched(stored, fresher, copy), uid)
            <==> if TouchesMark(fresher, copy, uid) then HasMark(copy, uid) else HasMark(stored, uid)
  {
    if copy != map[] {
      var base, f, c := Record(stored, uid), Record(fresher, uid), Record(copy, uid);
      assert Record(Patched(stored, fresher, copy), uid) == PatchedRecord(base, f, c);
    }
  }

  predicate DropsMark(fresher: Pods, copy: Pods, uid: Uid) {
    TouchesMark(fresher, copy, uid) && !HasMark(copy, uid)
  }

  /** The job cannot take the mark away, whenever it saves. */
  predicate SparesMark(j: Job, uid: Uid) {
    match j
    case Idle => true
    case Edited(copy) => HasMark(copy, uid)
    case Ready(fresher, copy) => fresher.Some? ==> !DropsMark(fresher.value, copy, uid)
  }

  predicate MarkSettled(s: State, uid: Uid) {
    && ObjectHasMark(s.stored, uid) && ObjectHasMark(s.cached, uid)
    && (forall i :: 0 <= i < |s.behind| ==> HasMark(s.behind[i], uid))
    && SparesMark(s.reporting, uid) && SparesMark(s.pruning, uid)
  }

  /** The IPAM has not let go of the pod when the pruning job looks. */
  predicate StillUsed(e: Act, uid: Uid) {
    e.PruneRead? ==> uid in e.inUsed
  }

  lemma SaveKeepsMark(s: State, who: Which, answered: bool, uid: Uid)
    requires JobOf(s, who).Ready? && MarkSettled(s, uid)
    ensures MarkSettled(AfterSave(s, who, answered), uid)
  {
    var j := JobOf(s, who);
    if Saved(s.stored, j.fresher, j.copy).Some? {
      PatchedMarkIff(s.stored.value, j.fresher.value, j.copy, uid);
    }
  }

  lemma StepKeepsMark(s: State, e: Act, uid: Uid)
    requires Enabled(s, e) && StillUsed(e, uid) && MarkSettled(s, uid)
    ensures MarkSettled(Apply(s, e), uid)
  {
    if e.Save? {
      SaveKeepsMark(s, e.who, e.answered, uid);
    }
  }

  ghost predicate RunUsing(s: State, es: seq<Act>, uid: Uid) {
    Run(s, es) && forall i :: 0 <= i < |es| ==> StillUsed(es[i], uid)
  }

  /** Once the cache, the versions on their way and both jobs are settled on the mark, no run takes it away. */
  lemma {:induction false} SettledMarkStays(s: State, es: seq<Act>, uid: Uid)
    requires RunUsing(s, es, uid) && MarkSettled(s, uid)
    ensures MarkSettled(Exec(s, es), uid)
    decreases |es|
  {
    if es != [] {
      StepKeepsMark(s, es[0], uid);
      SettledMarkStays(Apply(s, es[0]), es[1..], uid);
    }
  }

  ghost predicate CanLose(s: State, uid: Uid) {
    exists later :: RunUsing(s, later, uid) && !ObjectHasMark(Exec(s, later).stored, uid)
  }

  lemma LosesBefore(s: State, e: Act, uid: Uid)
    requires Enabled(s, e) && StillUsed(e, uid) && CanLose(Apply(s, e), uid)
    ensures CanLose(s, uid)
  {
    var later :| RunUsing(Apply(s, e), later, uid) && !ObjectHasMark(Exec(Apply(s, e), later).stored, uid);
    var es := [e] + later;
    assert es[1..] == later;
    assert RunUsing(s, es, uid) && Exec(s, es) == Exec(Apply(s, e), later);
  }

  /** The records that the server lacks and the patch may give only in part. */
  function Missing(stored: Pods, fresher: Pods, copy: Pods): set<Uid> {
    fresher.Keys * copy.Keys - stored.Keys
  }

  predicate AboutToDrop(s: State, who: Which, uid: Uid) {
    && ObjectHasMark(s.stored, uid) && JobOf(s, who).Ready? && JobOf(s, who).fresher.Some?
    && DropsMark(JobOf(s, who).fresher.value, JobOf(s, who).copy, uid)
  }

  function MissingFor(s: State, who: Which): set<Uid>
    requires s.stored.Some? && JobOf(s, who).Ready? && JobOf(s, who).fresher.Some?
  {
    Missing(s.stored.value, JobOf(s, who).fresher.value, JobOf(s, who).copy)
  }

  lemma AcceptedLoses(s: State, who: Which, uid: Uid)
    requires AboutToDrop(s, who, uid) && MissingFor(s, who) == {}
    ensures CanLose(s, uid)
  {
    var j := JobOf(s, who);
    PatchedMarkIff(s.stored.value, j.fresher.value, j.copy, uid);
    assert forall x :: x in j.fresher.value && x in j.copy && x !in s.stored.value ==> x in MissingFor(s, who);
    var t := Apply(s, Save(who, true));
    var none: seq<Act> := [];
    assert RunUsing(t, none, uid) && Exec(t, none) == t;
    LosesBefore(s, Save(who, true), uid);
  }

  function AsInitial(uids: set<Uid>): Pods {
    map uid | uid in uids :: PodStatus("", map[Initial := Some(0)])
  }

  /** A copy of the object itself is saved as it is, up to nil entries. */
  lemma SavesOwnCopy(stored: Pods, copy: Pods, uid: Uid)
    requires copy != map[] && HasMark(stored, uid) && HasMark(copy, uid)
    ensures Saved(Some(stored), Some(stored), copy) == Some(Patched(stored, stored, copy))
    ensures HasMark(Patched(stored, stored, copy), uid) && copy.Keys <= Patched(stored, stored, copy).Keys
  {
    PatchedMarkIff(stored, stored, copy, uid);
  }

  /** With the cache up to date, the other job saves a copy that has the mark and the missing records. */
  lemma OtherSaves(s: State, who: Which, copy: Pods, uid: Uid)
    requires s.behind == [] && Coherent(s) && AboutToDrop(s, who, uid) && HasMark(copy, uid)
    requires JobOf(s, Other(who)) == Edited(copy) && s.stored.value.Keys + MissingFor(s, who) <= copy.Keys
    ensures CanLose(s, uid)
  {
    var other := Other(who);
    var s1 := Apply(s, Reread(other));
    var s2 := Apply(s1, Save(other, true));
    SavesOwnCopy(s.stored.value, copy, uid);
    assert MissingFor(s2, who) == {};
    AcceptedLoses(s2, who, uid);
    LosesBefore(s1, Save(other, true), uid);
    LosesBefore(s, Reread(other), uid);
  }

  lemma PrunerHelps(s: State, uid: Uid)
    requires s.behind == [] && Coherent(s) && AboutToDrop(s, Reporter, uid) && s.pruning.Idle?
    ensures CanLose(s, uid)
  {
    var pods := s.stored.value;
    var inUsed := AsInitial(pods.Keys + MissingFor(s, Reporter));
    OtherSaves(Apply(s, PruneRead(inUsed, pods)), Reporter, inUsed + pods, uid);
    LosesBefore(s, PruneRead(inUsed, pods), uid);
  }

  lemma {:induction false} ReporterHelps(s: State, uids: set<Uid>, uid: Uid)
    requires s.behind == [] && Coherent(s) && AboutToDrop(s, Pruner, uid) && s.reporting.Idle?
    requires MissingFor(s, Pruner) <= s.log.Keys + uids && MissingFor(s, Pruner) != {}
    ensures CanLose(s, uid)
    decreases |uids|
  {
    if uids == {} {
      var copy := Marked(s.stored.value, s.log, 0);
      OtherSaves(Apply(s, ReportRead(0)), Pruner, copy, uid);
      LosesBefore(s, ReportRead(0), uid);
    } else {
      var x :| x in uids;
      ReporterHelps(Apply(s, Log(x, "")), uids - {x}, uid);
      LosesBefore(s, Log(x, ""), uid);
    }
  }

  lemma QuietLoses(s: State, who: Which, uid: Uid)
    requires s.behind == [] && Coherent(s) && AboutToDrop(s, who, uid)
    requires JobOf(s, Other(who)).Idle?
    ensures CanLose(s, uid)
  {
    if MissingFor(s, who) == {} {
      AcceptedLoses(s, who, uid);
    } else if who == Reporter {
      PrunerHelps(s, uid);
    } else {
      ReporterHelps(s, MissingFor(s, who), uid);
    }
  }

  lemma LosesCaughtUp(s: State, uid: Uid)
    requires s.behind != [] ==> CanLose(Apply(s, CatchUp(|s.behind|)), uid)
    requires s.behind == [] ==> CanLose(s, uid)
    ensures CanLose(s, uid)
  {
    if s.behind != [] {
      LosesBefore(s, CatchUp(|s.behind|), uid);
    }
  }

  function CaughtUp(s: State): State {
    if s.behind == [] then s else s.(cached := s.stored, behind := [])
  }

  lemma ReadyLoses(s: State, who: Which, uid: Uid)
    requires Coherent(s) && AboutToDrop(s, who, uid)
    ensures CanLose(s, uid)
  {
    var other := Other(who);
    var t := WithJob(s, other, Idle);
    QuietLoses(CaughtUp(t), who, uid);
    assert t.behind != [] ==> Apply(t, CatchUp(|t.behind|)) == CaughtUp(t);
    LosesCaughtUp(t, uid);
    if !JobOf(s, other).Idle? {
      LosesBefore(s, End(other), uid);
    } else {
      assert t == s;
    }
  }

  lemma EditedLoses(s: State, who: Which, uid: Uid)
    requires Coherent(s) && ObjectHasMark(s.stored, uid)
    requires JobOf(s, who).Edited? && !HasMark(JobOf(s, who).copy, uid)
    ensures CanLose(s, uid)
  {
    var t := CaughtUp(s);
    ReadyLoses(Apply(t, Reread(who)), who, uid);
    LosesBefore(t, Reread(who), uid);
    assert s.behind != [] ==> Apply(s, CatchUp(|s.behind|)) == t;
    LosesCaughtUp(s, uid);
  }

  lemma StaleReadLoses(s: State, uid: Uid)
    requires Coherent(s) && ObjectHasMark(s.stored, uid) && !ObjectHasMark(s.cached, uid)
    ensures CanLose(s, uid)
  {
    var pods := CachedPods(s);
    var inUsed := AsInitial(pods.Keys + {uid});
    var t := WithJob(s, Pruner, Idle);
    EditedLoses(Apply(t, PruneRead(inUsed, pods)), Pruner, uid);
    LosesBefore(t, PruneRead(inUsed, pods), uid);
    if !s.pruning.Idle? {
      LosesBefore(s, End(Pruner), uid);
    } else {
      assert t == s;
    }
  }

  lemma UnsettledLoses(s: State, uid: Uid)
    requires Coherent(s) && ObjectHasMark(s.stored, uid) && !MarkSettled(s, uid)
    ensures CanLose(s, uid)
  {
    if !ObjectHasMark(s.cached, uid) {
      StaleReadLoses(s, uid);
    } else if i :| 0 <= i < |s.behind| && !HasMark(s.behind[i], uid) {
      StaleReadLoses(Apply(s, CatchUp(i + 1)), uid);
      LosesBefore(s, CatchUp(i + 1), uid);
    } else {
      var who := if SparesMark(s.reporting, uid) then Pruner else Reporter;
      if JobOf(s, who).Edited? {
        EditedLoses(s, who, uid);
      } else {
        ReadyLoses(s, who, uid);
      }
    }
  }

  /**
   A Deleted mark in the object stays there through every later run, for as long as the IPAM uses the pod, if and
   only if the cache and every version on its way have it and no job under way can take it out.
   */
  lemma MarkStaysIff(s: State, uid: Uid)
    requires Coherent(s) && ObjectHasMark(s.stored, uid)
    ensures (forall later :: RunUsing(s, later, uid) ==> ObjectHasMark(Exec(s, later).stored, uid)) <==> MarkSettled(s, uid)
  {
    if MarkSettled(s, uid) {
      forall later | RunUsing(s, later, uid) ensures ObjectHasMark(Exec(s, later).stored, uid) {
        SettledMarkStays(s, later, uid);
      }
    } else {
      UnsettledLoses(s, uid);
    }
  }

  /** A report under way has marked every pod of the log in its copy. */
  predicate ReportsLog(s: State) {
    !s.reporting.Idle? ==> s.log != map[] && forall uid :: uid in s.log ==> HasMark(s.reporting.copy, uid)
  }

  lemma {:induction false} RunReportsLog(s: State, es: seq<Act>)
    requires Run(s, es) && ReportsLog(s)
    ensures ReportsLog(Exec(s, es))
    decreases |es|
  {
    if es != [] {
      RunReportsLog(Apply(s, es[0]), es[1..]);
    }
  }

  predicate SameMark(a: Pods, b: Pods, uid: Uid) {
    HasMark(a, uid) && HasMark(b, uid) && a[uid].status[Deleted] == b[uid].status[Deleted]
  }

  /**
   When a report clears the log, a pod of the log has its mark in the object if and only if the object existed and,
   where the re-read one had this very mark already, has not lost it since.
   */
  lemma ClearedLogIsSavedIff(s: State, uid: Uid)
    requires ReportsLog(s) && s.reporting.Ready? && uid in s.log && Apply(s, Save(Reporter, true)).log == map[]
    ensures ObjectHasMark(Apply(s, Save(Reporter, true)).stored, uid)
            <==> s.stored.Some? && (SameMark(s.reporting.fresher.value, s.reporting.copy, uid) ==> HasMark(s.stored.value, uid))
  {
    if s.stored.Some? {
      PatchedMarkIff(s.stored.value, s.reporting.fresher.value, s.reporting.copy, uid);
    }
  }

  // Runs in which a release is lost: in the end neither the log nor the object knows it.

  const LIVE: PodStatus := PodStatus("p", map[Initial := Some(1)])

  const GONE: PodStatus := PodStatus("p", map[Initial := Some(1), Deleted := Some(2)])

  const BEFORE: Pods := map["u" := LIVE]

  const AFTER: Pods := map["u" := GONE]

  ghost predicate Path(states: seq<State>, es: seq<Act>) {
    && |states| == |es| + 1
    && forall i :: 0 <= i < |es| ==> Enabled(states[i], es[i]) && Apply(states[i], es[i]) == states[i + 1]
  }

  lemma {:induction false} PathRuns(states: seq<State>, es: seq<Act>)
    requires Path(states, es)
    ensures Run(states[0], es) && Exec(states[0], es) == states[|es|]
    decreases |es|
  {
    if es != [] {
      PathRuns(states[1..], es[1..]);
    }
  }

  lemma ReportMarks()
    ensures Marked(BEFORE, map["u" := "p"], 2) == AFTER && BEFORE + BEFORE == BEFORE
    ensures Saved(Some(BEFORE), Some(BEFORE), AFTER) == Some(AFTER)
  {
    assert LIVE.status[Deleted := Some(2)] == GONE.status;
    assert PatchedStatus(LIVE.status, LIVE.status, GONE.status) == GONE.status;
    assert Patched(BEFORE, BEFORE, AFTER) == AFTER;
  }

  lemma PruneUnmarks()
    ensures Saved(Some(AFTER), Some(AFTER), BEFORE) == Some(BEFORE)
  {
    assert PatchedStatus(GONE.status, GONE.status, LIVE.status) == LIVE.status;
    assert Patched(AFTER, AFTER, BEFORE) == BEFORE;
  }

  const REPORT: seq<Act> := [ReportRead(2), Reread(Reporter), Save(Reporter, true)]

  function Prune(pods: Pods): seq<Act> {
    [PruneRead(pods, pods), CatchUp(1), Reread(Pruner), Save(Pruner, true)]
  }

  lemma ReportRun(a: Pods, b: Pods, log: map<Uid, string>)
    requires log != map[] && Marked(a, log, 2) == b && Saved(Some(a), Some(a), b) == Some(b)
    ensures var s := State(Some(a), Some(a), [], log, Idle, Idle);
            Run(s, REPORT) && Exec(s, REPORT) == State(Some(b), Some(a), [b], map[], Idle, Idle)
  {
    var s0 := State(Some(a), Some(a), [], log, Idle, Idle);
    var s1 := State(Some(a), Some(a), [], log, Edited(b), Idle);
    var s2 := State(Some(a), Some(a), [], log, Ready(Some(a), b), Idle);
    var s3 := State(Some(b), Some(a), [b], map[], Idle, Idle);
    assert Apply(s0, ReportRead(2)) == s1;
    assert Apply(s1, Reread(Reporter)) == s2;
    assert Apply(s2, Save(Reporter, true)) == s3;
    PathRuns([s0, s1, s2, s3], REPORT);
  }

  lemma PruneRun(a: Pods, b: Pods)
    requires AllInitial(a) && a + a == a && Saved(Some(b), Some(b), a) == Some(a)
    ensures var s := State(Some(b), Some(a), [b], map[], Idle, Idle);
            Run(s, Prune(a)) && Exec(s, Prune(a)) == State(Some(a), Some(b), [a], map[], Idle, Idle)
  {
    var s0 := State(Some(b), Some(a), [b], map[], Idle, Idle);
    var s1 := State(Some(b), Some(a), [b], map[], Idle, Edited(a));
    var s2 := State(Some(b), Some(b), [], map[], Idle, Edited(a));
    var s3 := State(Some(b), Some(b), [], map[], Idle, Ready(Some(b), a));
    var s4 := State(Some(a), Some(b), [a], map[], Idle, Idle);
    assert Apply(s0, PruneRead(a, a)) == s1;
    assert Apply(s1, CatchUp(1)) == s2;
    assert Apply(s2, Reread(Pruner)) == s3;
    assert Apply(s3, Save(Pruner, true)) == s4;
    PathRuns([s0, s1, s2, s3, s4], Prune(a));
  }

  lemma {:induction false} RunAppend(s: State, es: seq<Act>, fs: seq<Act>)
    requires Run(s, es) && Run(Exec(s, es), fs)
    ensures Run(s, es + fs) && Exec(s, es + fs) == Exec(Exec(s, es), fs)
    decreases |es|
  {
    if es == [] {
      assert es + fs == fs;
    } else {
      RunAppend(Apply(s, es[0]), es[1..], fs);
      assert (es + fs)[1..] == es[1..] + fs;
    }
  }

  /** The pruning job reads before the cache has seen the report's save, and reads again after it has. */
  lemma LaggingReadTakesMark()
    ensures var s := State(Some(BEFORE), Some(BEFORE), [], map["u" := "p"], Idle, Idle);
            && Run(s, REPORT + Prune(BEFORE))
            && Exec(s, REPORT + Prune(BEFORE)) == State(Some(BEFORE), Some(AFTER), [BEFORE], map[], Idle, Idle)
            && !HasMark(BEFORE, "u")
  {
    var log := map["u" := "p"];
    ReportMarks();
    PruneUnmarks();
    assert "u" in log;
    ReportRun(BEFORE, AFTER, log);
    PruneRun(BEFORE, AFTER);
    RunAppend(State(Some(BEFORE), Some(BEFORE), [], log, Idle, Idle), REPORT, Prune(BEFORE));
  }

  /** The first report of a node whose object does not exist creates it without a status and clears the log. */
  lemma FirstReportIsLost()
    ensures var s := State(None, None, [], map["u" := "p"], Idle, Idle);
            && Run(s, REPORT)
            && Exec(s, REPORT) == State(Some(map[]), None, [map[]], map[], Idle, Idle)
  {
    var log := map["u" := "p"];
    var copy := Marked(map[], log, 2);
    var s0 := State(None, None, [], log, Idle, Idle);
    var s1 := State(None, None, [], log, Edited(copy), Idle);
    var s2 := State(None, None, [], log, Ready(None, copy), Idle);
    var s3 := State(Some(map[]), None, [map[]], map[], Idle, Idle);
    assert "u" in log;
    PathRuns([s0, s1, s2, s3], REPORT);
  }
}
