/** Replacement of report files behind backups, with a crash possible after every change of the disk. */
module ReportRepair {
  import opened Common

  // `apply_plan` of scripts/ops/mark_report_data_quality.py and scripts/ops/recompute_daily_reports.py.

  type Content = string

  /** A file by its role. Backups and temporary files have the relative path of their report. */
  datatype Place = Report(name: string) | Backup(name: string) | Temp(name: string)

  type Files = map<Place, Content>

  /** A planned replacement, and how the file system behaves during it: what a crash leaves of the copy
      and of the temporary file, and what the copy comes to. `verified` is the check after writing. */
  datatype Target = Target(name: string, updated: Content, verified: bool, tornCopy: Content, copied: Content,
                           tornTemp: Content)

  /** The disk, every state it has been in, and whether the run is still going on. */
  datatype Progress = Progress(files: Files, trace: seq<Files>, alive: bool)

  function Then(p: Progress, files: Files): Progress {
    Progress(files, p.trace + [files], p.alive)
  }

  /** A file appears incomplete before it is complete. */
  function Written(p: Progress, place: Place, torn: Content, content: Content): Progress {
    Then(Then(p, p.files[place := torn]), p.files[place := torn][place := content])
  }

  function BackUp(digest: Content -> Content, p: Progress, t: Target): Progress {
    if !p.alive then p
    else if Report(t.name) !in p.files then p.(alive := false)
    else
      var copied := Written(p, Backup(t.name), t.tornCopy, t.copied);
      if digest(t.copied) == digest(p.files[Report(t.name)]) then copied else copied.(alive := false)
  }

  function Replace(p: Progress, t: Target): Progress {
    if !p.alive then p
    else
      var staged := Written(p, Temp(t.name), t.tornTemp, t.updated);
      var moved := Then(staged, (staged.files - {Temp(t.name)})[Report(t.name) := t.updated]);
      if t.verified then moved else moved.(alive := false)
  }

  function BackerUp(digest: Content -> Content): (Progress, Target) -> Progress {
    (p: Progress, t: Target) => BackUp(digest, p, t)
  }

  function Replacer(): (Progress, Target) -> Progress {
    (p: Progress, t: Target) => Replace(p, t)
  }

  predicate Clashes(files: Files, targets: seq<Target>) {
    exists i :: 0 <= i < |targets| && Backup(targets[i].name) in files
  }

  /** A whole run: nothing when a backup exists, else all backups and then all replacements. */
  function Run(digest: Content -> Content, files: Files, targets: seq<Target>): Progress {
    var start := Progress(files, [files], true);
    if Clashes(files, targets) then start.(alive := false)
    else Fold(Replacer(), Fold(BackerUp(digest), start, targets), targets)
  }

  /** The written files, in the order of the plan. */
  function Names(targets: seq<Target>): seq<string> {
    seq(|targets|, i requires 0 <= i < |targets| => targets[i].name)
  }

  lemma NamesTurn(targets: seq<Target>, i: nat)
    requires i < |targets|
    ensures Names(targets[..i + 1]) == Names(targets[..i]) + [targets[i].name]
  {}

  // ---------------------------------------------------------------- the repair in place

  class Disk {
    var files: Files
    ghost var trace: seq<Files>

    constructor (present: Files)
      ensures files == present && trace == [present]
    {
      files, trace := present, [present];
    }

    method Write(place: Place, torn: Content, content: Content)
      modifies this
      ensures Progress(files, trace, true) == Written(Progress(old(files), old(trace), true), place, torn, content)
    {
      files := files[place := torn];
      trace := trace + [files];
      files := files[place := content];
      trace := trace + [files];
    }

    method BackUpOne(digest: Content -> Content, t: Target) returns (ok: bool)
      modifies this
      ensures Progress(files, trace, ok) == BackUp(digest, Progress(old(files), old(trace), true), t)
    {
      if Report(t.name) !in files {
        return false;
      }
      var source := files[Report(t.name)];
      Write(Backup(t.name), t.tornCopy, t.copied);
      ok := digest(files[Backup(t.name)]) == digest(source);
    }

    method ReplaceOne(t: Target) returns (ok: bool)
      modifies this
      ensures Progress(files, trace, ok) == Replace(Progress(old(files), old(trace), true), t)
    {
      Write(Temp(t.name), t.tornTemp, t.updated);
      files := (files - {Temp(t.name)})[Report(t.name) := files[Temp(t.name)]];
      trace := trace + [files];
      ok := t.verified;
    }

    method CheckNoBackup(targets: seq<Target>) returns (clash: bool)
      ensures clash <==> Clashes(files, targets)
    {
      for i := 0 to |targets|
        invariant !Clashes(files, targets[..i])
      {
        if Backup(targets[i].name) in files {
          return true;
        }
        assert forall k :: 0 <= k < i ==> targets[..i][k] == targets[k];
      }
      assert targets[..|targets|] == targets;
      clash := false;
    }

    method ApplyPlan(digest: Content -> Content, targets: seq<Target>) returns (r: Result<seq<string>>)
      requires trace == [files]
      modifies this
      ensures Progress(files, trace, r.Ok?) == Run(digest, old(files), targets)
      ensures r.Ok? ==> r.value == Names(targets)
    {
      ghost var run, start := Run(digest, files, targets), Progress(files, trace, true);
      ghost var backUp, replace := BackerUp(digest), Replacer();
      var clash := CheckNoBackup(targets);
      if clash {
        return Raised;
      }
      assert run == Fold(replace, Fold(backUp, start, targets), targets);
      for i := 0 to |targets|
        invariant Progress(files, trace, true) == Fold(backUp, start, targets[..i])
      {
        FoldTurn(backUp, start, targets, i);
        var ok := BackUpOne(digest, targets[i]);
        if !ok {
          StoppedStays(digest, start, targets, i + 1);
          assert Progress(files, trace, false) == run;
          return Raised;
        }
      }
      assert targets[..|targets|] == targets;
      ghost var backedUp := Progress(files, trace, true);
      var written := [];
      for i := 0 to |targets|
        invariant Progress(files, trace, true) == Fold(replace, backedUp, targets[..i])
        invariant written == Names(targets[..i])
      {
        FoldTurn(replace, backedUp, targets, i);
        var ok := ReplaceOne(targets[i]);
        if !ok {
          StoppedReplacing(backedUp, targets, i + 1);
          assert Progress(files, trace, false) == run;
          return Raised;
        }
        NamesTurn(targets, i);
        written := written + [targets[i].name];
      }
      r := Ok(written);
    }
  }

  /** Once stopped, a loop changes nothing more. */
  lemma {:induction false} DeadStays(step: (Progress, Target) -> Progress, p: Progress, targets: seq<Target>, n: nat)
    requires forall q: Progress, t: Target :: !q.alive ==> step(q, t) == q
    requires n <= |targets| && !Fold(step, p, targets[..n]).alive
    ensures Fold(step, p, targets) == Fold(step, p, targets[..n])
  {
    if n == |targets| {
      assert targets[..n] == targets;
    } else {
      assert targets[..|targets| - 1][..n] == targets[..n];
      DeadStays(step, p, targets[..|targets| - 1], n);
    }
  }

  lemma {:induction false} StoppedStays(digest: Content -> Content, p: Progress, targets: seq<Target>, n: nat)
    requires n <= |targets| && !Fold(BackerUp(digest), p, targets[..n]).alive
    ensures
      var stopped := Fold(BackerUp(digest), p, targets[..n]);
      Fold(Replacer(), Fold(BackerUp(digest), p, targets), targets) == stopped
  {
    DeadStays(BackerUp(digest), p, targets, n);
    var stopped := Fold(BackerUp(digest), p, targets);
    assert targets[..0] == [];
    DeadStays(Replacer(), stopped, targets, 0);
  }

  lemma {:induction false} StoppedReplacing(p: Progress, targets: seq<Target>, n: nat)
    requires n <= |targets| && !Fold(Replacer(), p, targets[..n]).alive
    ensures Fold(Replacer(), p, targets) == Fold(Replacer(), p, targets[..n])
  {
    DeadStays(Replacer(), p, targets, n);
  }

  // ---------------------------------------------------------------- safety at every crash point

  ghost predicate CollisionFree(digest: Content -> Content) {
    forall a, b :: digest(a) == digest(b) ==> a == b
  }

  ghost predicate BackupsKept(before: Files, now: Files) {
    forall name :: Backup(name) in before ==> Backup(name) in now && now[Backup(name)] == before[Backup(name)]
  }

  /** The report is as before, or is the complete new version of a target and its backup is complete. */
  ghost predicate ReportSafe(before: Files, targets: seq<Target>, now: Files, name: string)
    requires Report(name) in before
  {
    || (Report(name) in now && now[Report(name)] == before[Report(name)])
    || (exists i :: 0 <= i < |targets| && targets[i].name == name && Replaced(before, now, targets[i]))
  }

  ghost predicate Replaced(before: Files, now: Files, t: Target) {
    && Report(t.name) in before && Report(t.name) in now && now[Report(t.name)] == t.updated
    && Backup(t.name) in now && now[Backup(t.name)] == before[Report(t.name)]
  }

  ghost predicate Safe(before: Files, targets: seq<Target>, now: Files) {
    && BackupsKept(before, now)
    && (forall name :: Report(name) in now ==> Report(name) in before)
    && forall name :: Report(name) in before ==> ReportSafe(before, targets, now, name)
  }

  ghost predicate AllSafe(before: Files, targets: seq<Target>, trace: seq<Files>) {
    forall i :: 0 <= i < |trace| ==> Safe(before, targets, trace[i])
  }

  /** The state of the loop that makes backups: no report has changed, and the first `n` targets have
      their backups. */
  ghost predicate BackingUp(before: Files, targets: seq<Target>, n: nat, p: Progress) {
    && AllSafe(before, targets, p.trace)
    && (p.alive ==>
          && (forall name :: Report(name) in p.files <==> Report(name) in before)
          && (forall name :: Report(name) in before ==> p.files[Report(name)] == before[Report(name)])
          && BackupsKept(before, p.files)
          && (forall i :: 0 <= i < n && i < |targets| ==> HasBackup(before, p.files, targets[i])))
  }

  ghost predicate HasBackup(before: Files, now: Files, t: Target) {
    Report(t.name) in before && Backup(t.name) in now && now[Backup(t.name)] == before[Report(t.name)]
  }

  /** The state of the loop that replaces reports. */
  ghost predicate Replacing(before: Files, targets: seq<Target>, p: Progress) {
    && AllSafe(before, targets, p.trace)
    && (p.alive ==> Safe(before, targets, p.files) && forall i :: 0 <= i < |targets| ==>
        HasBackup(before, p.files, targets[i]))
  }

  lemma BackUpKeeps(digest: Content -> Content, before: Files, targets: seq<Target>, n: nat, p: Progress)
    requires CollisionFree(digest) && !Clashes(before, targets) && n < |targets|
    requires BackingUp(before, targets, n, p)
    ensures BackingUp(before, targets, n + 1, BackUp(digest, p, targets[n]))
  {
    var t := targets[n];
    if p.alive && Report(t.name) in p.files {
      var torn := p.files[Backup(t.name) := t.tornCopy];
      var copied := torn[Backup(t.name) := t.copied];
      assert Backup(t.name) !in before;
    }
  }

  lemma {:induction false} BackingUpIsSafe(digest: Content -> Content, before: Files, targets: seq<Target>, n: nat)
    requires CollisionFree(digest) && !Clashes(before, targets) && n <= |targets|
    ensures BackingUp(before, targets, n, Fold(BackerUp(digest), Progress(before, [before], true), targets[..n]))
  {
    var step, start := BackerUp(digest), Progress(before, [before], true);
    var safe := (i: nat, p: Progress) => BackingUp(before, targets, i, p);
    forall i: nat, p: Progress | i < |targets| && safe(i, p) ensures safe(i + 1, step(p, targets[i])) {
      BackUpKeeps(digest, before, targets, i, p);
    }
    FoldReaches(step, start, targets, n, safe);
  }

  lemma ReplaceKeeps(before: Files, targets: seq<Target>, p: Progress, t: Target)
    requires Replacing(before, targets, p) && t in targets
    ensures Replacing(before, targets, Replace(p, t))
  {
    if p.alive {
      var torn := p.files[Temp(t.name) := t.tornTemp];
      var staged := torn[Temp(t.name) := t.updated];
      var moved := (staged - {Temp(t.name)})[Report(t.name) := t.updated];
      TempsDoNotMatter(before, targets, p.files, torn);
      TempsDoNotMatter(before, targets, p.files, staged);
      MoveIsSafe(before, targets, p.files, moved, t);
    }
  }

  lemma TempsDoNotMatter(before: Files, targets: seq<Target>, last: Files, now: Files)
    requires Safe(before, targets, last)
    requires forall place: Place :: !place.Temp? ==>
      (place in last <==> place in now) && (place in last ==> last[place] == now[place])
    ensures Safe(before, targets, now)
  {
    forall name | Report(name) in before ensures ReportSafe(before, targets, now, name) {
      assert ReportSafe(before, targets, last, name);
      if Report(name) !in last || last[Report(name)] != before[Report(name)] {
        var i :| 0 <= i < |targets| && targets[i].name == name && Replaced(before, last, targets[i]);
        assert Replaced(before, now, targets[i]);
      }
    }
  }

  lemma MoveIsSafe(before: Files, targets: seq<Target>, last: Files, now: Files, t: Target)
    requires Safe(before, targets, last) && t in targets && HasBackup(before, last, t)
    requires Report(t.name) in now && now[Report(t.name)] == t.updated
    requires forall place: Place :: !place.Temp? && place != Report(t.name) ==>
      (place in last <==> place in now) && (place in last ==> last[place] == now[place])
    ensures Safe(before, targets, now)
  {
    var k :| 0 <= k < |targets| && targets[k] == t;
    forall name | Report(name) in before ensures ReportSafe(before, targets, now, name) {
      if name == t.name {
        assert Replaced(before, now, targets[k]);
      } else {
        assert ReportSafe(before, targets, last, name);
        if Report(name) !in last || last[Report(name)] != before[Report(name)] {
          var i :| 0 <= i < |targets| && targets[i].name == name && Replaced(before, last, targets[i]);
          assert Replaced(before, now, targets[i]);
        }
      }
    }
  }

  /** At every point of a run, and so at every crash: each report is as before or completely new with a
      complete backup, and no backup that was there has changed. */
  lemma {:induction false} EveryCrashPointIsSafe(digest: Content -> Content, before: Files, targets: seq<Target>)
    requires CollisionFree(digest)
    ensures AllSafe(before, targets, Run(digest, before, targets).trace)
  {
    if !Clashes(before, targets) {
      var start := Progress(before, [before], true);
      BackingUpIsSafe(digest, before, targets, |targets|);
      assert targets[..|targets|] == targets;
      var backedUp := Fold(BackerUp(digest), start, targets);
      var replacing, planned := (p: Progress) => Replacing(before, targets, p), (t: Target) => t in targets;
      forall p: Progress, t: Target | replacing(p) && planned(t) ensures replacing(Replacer()(p, t)) {
        ReplaceKeeps(before, targets, p, t);
      }
      FoldKeeps(Replacer(), backedUp, targets, replacing, planned);
    }
  }

  /** A run that is not stopped leaves every target's report new, by the last target of that name. */
  lemma {:induction false} CompletedRunReplacesAll(digest: Content -> Content, before: Files, targets: seq<Target>,
                                                   i: nat)
    requires Run(digest, before, targets).alive && i < |targets|
    requires forall j :: i < j < |targets| ==> targets[j].name != targets[i].name
    ensures
      var now := Run(digest, before, targets).files;
      Report(targets[i].name) in now && now[Report(targets[i].name)] == targets[i].updated
  {
    AliveReplacesAll(Fold(BackerUp(digest), Progress(before, [before], true), targets), targets, i);
  }

  lemma {:induction false} AliveReplacesAll(p: Progress, targets: seq<Target>, i: nat)
    requires Fold(Replacer(), p, targets).alive && i < |targets|
    requires forall j :: i < j < |targets| ==> targets[j].name != targets[i].name
    ensures
      var now := Fold(Replacer(), p, targets).files;
      Report(targets[i].name) in now && now[Report(targets[i].name)] == targets[i].updated
  {
    var n := |targets| - 1;
    if i < n {
      AliveReplacesAll(p, targets[..n], i);
    }
  }

  // ---------------------------------------------------------------- when a run completes

  /** A target whose report is there and whose copy passes the comparison of digests. */
  predicate CanBackUp(digest: Content -> Content, files: Files, t: Target) {
    Report(t.name) in files && digest(t.copied) == digest(files[Report(t.name)])
  }

  ghost predicate SameReports(before: Files, now: Files) {
    forall name :: (Report(name) in now <==> Report(name) in before)
                   && (Report(name) in before ==> now[Report(name)] == before[Report(name)])
  }

  lemma BackUpKeepsReports(digest: Content -> Content, before: Files, p: Progress, t: Target)
    requires SameReports(before, p.files) && p.alive
    ensures
      var q := BackUp(digest, p, t);
      SameReports(before, q.files) && (q.alive <==> CanBackUp(digest, before, t))
  {}

  lemma {:induction false} BackingUpGoesOnIff(digest: Content -> Content, before: Files, targets: seq<Target>, n: nat)
    requires n <= |targets|
    ensures
      var p := Fold(BackerUp(digest), Progress(before, [before], true), targets[..n]);
      && (p.alive <==> forall i :: 0 <= i < n ==> CanBackUp(digest, before, targets[i]))
      && (p.alive ==> SameReports(before, p.files))
  {
    if n > 0 {
      var start := Progress(before, [before], true);
      BackingUpGoesOnIff(digest, before, targets, n - 1);
      FoldTurn(BackerUp(digest), start, targets, n - 1);
      var p, q := Fold(BackerUp(digest), start, targets[..n - 1]), Fold(BackerUp(digest), start, targets[..n]);
      assert q == BackUp(digest, p, targets[n - 1]);
      if p.alive {
        BackUpKeepsReports(digest, before, p, targets[n - 1]);
      }
    }
  }

  lemma {:induction false} ReplacingGoesOnIff(p: Progress, targets: seq<Target>, n: nat)
    requires n <= |targets|
    ensures
      Fold(Replacer(), p, targets[..n]).alive <==> p.alive && forall i :: 0 <= i < n ==> targets[i].verified
  {
    if n > 0 {
      ReplacingGoesOnIff(p, targets, n - 1);
      FoldTurn(Replacer(), p, targets, n - 1);
    }
  }

  /** A run completes if and only if no backup was there, every report is there and copied faithfully, and every
      replacement passes the check after writing. */
  lemma RunCompletesIff(digest: Content -> Content, before: Files, targets: seq<Target>)
    ensures Run(digest, before, targets).alive <==>
      && !Clashes(before, targets)
      && forall i :: 0 <= i < |targets| ==> CanBackUp(digest, before, targets[i]) && targets[i].verified
  {
    assert targets[..|targets|] == targets;
    BackingUpGoesOnIff(digest, before, targets, |targets|);
    ReplacingGoesOnIff(Fold(BackerUp(digest), Progress(before, [before], true), targets), targets, |targets|);
  }

  // ---------------------------------------------------------------- what a completed run leaves

  function NameOf(place: Place): string {
    match place
    case Report(name) => name
    case Backup(name) => name
    case Temp(name) => name
  }

  ghost predicate SameAt(before: Files, now: Files, place: Place) {
    (place in now <==> place in before) && (place in before ==> now[place] == before[place])
  }

  /** No run touches a file of another name. */
  lemma {:induction false} OthersStay(digest: Content -> Content, before: Files, targets: seq<Target>, place: Place)
    requires forall i :: 0 <= i < |targets| ==> targets[i].name != NameOf(place)
    ensures SameAt(before, Run(digest, before, targets).files, place)
  {
    var start := Progress(before, [before], true);
    var same := (p: Progress) => SameAt(before, p.files, place);
    var other := (t: Target) => t.name != NameOf(place);
    FoldKeeps(BackerUp(digest), start, targets, same, other);
    FoldKeeps(Replacer(), Fold(BackerUp(digest), start, targets), targets, same, other);
  }

  lemma ReplaceLeaves(p: Progress, t: Target)
    requires Replace(p, t).alive
    ensures
      var q := Replace(p, t);
      && p.alive && |q.trace| == |p.trace| + 3 && Temp(t.name) !in q.files
      && forall name :: Temp(name) !in p.files ==> Temp(name) !in q.files
  {}

  /** While it is not stopped, the loop that replaces reports leaves no temporary file and takes three states of the
      disk for each. */
  lemma {:induction false} ReplacingLeaves(p: Progress, targets: seq<Target>, n: nat)
    requires n <= |targets| && Fold(Replacer(), p, targets[..n]).alive
    ensures
      var q := Fold(Replacer(), p, targets[..n]);
      && |q.trace| == |p.trace| + 3 * n
      && forall i :: 0 <= i < n ==> Temp(targets[i].name) !in q.files
  {
    if n > 0 {
      FoldTurn(Replacer(), p, targets, n - 1);
      var before := Fold(Replacer(), p, targets[..n - 1]);
      assert Fold(Replacer(), p, targets[..n]) == Replace(before, targets[n - 1]);
      ReplaceLeaves(before, targets[n - 1]);
      ReplacingLeaves(p, targets, n - 1);
    }
  }

  lemma {:induction false} BackingUpLeaves(digest: Content -> Content, p: Progress, targets: seq<Target>, n: nat)
    requires n <= |targets| && Fold(BackerUp(digest), p, targets[..n]).alive
    ensures |Fold(BackerUp(digest), p, targets[..n]).trace| == |p.trace| + 2 * n
  {
    if n > 0 {
      FoldTurn(BackerUp(digest), p, targets, n - 1);
      BackingUpLeaves(digest, p, targets, n - 1);
    }
  }

  lemma {:induction false} BackupsAreComplete(digest: Content -> Content, before: Files, targets: seq<Target>)
    requires CollisionFree(digest) && Run(digest, before, targets).alive
    ensures forall i :: 0 <= i < |targets| ==> HasBackup(before, Run(digest, before, targets).files, targets[i])
  {
    var start := Progress(before, [before], true);
    BackingUpIsSafe(digest, before, targets, |targets|);
    assert targets[..|targets|] == targets;
    var backedUp := Fold(BackerUp(digest), start, targets);
    RunCompletesIff(digest, before, targets);
    ReplacingGoesOnIff(backedUp, targets, |targets|);
    var kept, planned := (p: Progress) => Replacing(before, targets, p), (t: Target) => t in targets;
    forall p: Progress, t: Target | kept(p) && planned(t) ensures kept(Replacer()(p, t)) {
      ReplaceKeeps(before, targets, p, t);
    }
    FoldKeeps(Replacer(), backedUp, targets, kept, planned);
  }

  /** A completed run has a backup of every original, leaves no temporary file, and has had five points at which it could
      have been cut off for each report, besides the first. */
  lemma CompletedRunLeaves(digest: Content -> Content, before: Files, targets: seq<Target>)
    requires CollisionFree(digest) && Run(digest, before, targets).alive
    ensures
      var run := Run(digest, before, targets);
      && |run.trace| == 1 + 5 * |targets| && run.trace[|run.trace| - 1] == run.files
      && forall i :: 0 <= i < |targets| ==>
           HasBackup(before, run.files, targets[i]) && Temp(targets[i].name) !in run.files
  {
    var start, n := Progress(before, [before], true), |targets|;
    var backedUp := Fold(BackerUp(digest), start, targets);
    BackupsAreComplete(digest, before, targets);
    assert targets[..n] == targets;
    ReplacingGoesOnIff(backedUp, targets, n);
    ReplacingLeaves(backedUp, targets, n);
    BackingUpLeaves(digest, start, targets, n);
    TraceEndsWithFiles(digest, before, targets);
  }

  ghost predicate Ends(p: Progress) {
    p.trace != [] && p.trace[|p.trace| - 1] == p.files
  }

  lemma {:induction false} TraceEndsWithFiles(digest: Content -> Content, files: Files, targets: seq<Target>)
    ensures Ends(Run(digest, files, targets))
  {
    var start := Progress(files, [files], true);
    FoldKeeps(BackerUp(digest), start, targets, Ends, _ => true);
    FoldKeeps(Replacer(), Fold(BackerUp(digest), start, targets), targets, Ends, _ => true);
  }

  // ---------------------------------------------------------------- run after run

  /** A run that is cut off at some state of its trace, or goes on to the last one. */
  datatype Attempt = Attempt(targets: seq<Target>, cut: nat)

  lemma {:induction false} TraceIsNotEmpty(digest: Content -> Content, files: Files, targets: seq<Target>)
    ensures |Run(digest, files, targets).trace| > 0
  {
    var start := Progress(files, [files], true);
    FoldKeeps(BackerUp(digest), start, targets, (p: Progress) => |p.trace| > 0, _ => true);
    FoldKeeps(Replacer(), Fold(BackerUp(digest), start, targets), targets, (p: Progress) => |p.trace| > 0, _ => true);
  }

  function CutOff(digest: Content -> Content, files: Files, attempt: Attempt): (now: Files)
    ensures now in Run(digest, files, attempt.targets).trace
  {
    TraceIsNotEmpty(digest, files, attempt.targets);
    var trace := Run(digest, files, attempt.targets).trace;
    trace[if attempt.cut < |trace| then attempt.cut else |trace| - 1]
  }

  function AfterAttempts(digest: Content -> Content, files: Files, attempts: seq<Attempt>): Files {
    if attempts == [] then files
    else CutOff(digest, AfterAttempts(digest, files, attempts[..|attempts| - 1]), attempts[|attempts| - 1])
  }

  /** Every original report is still in place or in its backup. */
  ghost predicate Recoverable(original: Files, now: Files) {
    forall name :: Report(name) in original ==>
      && Report(name) in now
      && (now[Report(name)] == original[Report(name)]
          || (Backup(name) in now && now[Backup(name)] == original[Report(name)]))
  }

  lemma OneMoreAttempt(digest: Content -> Content, original: Files, files: Files, attempt: Attempt)
    requires CollisionFree(digest) && Recoverable(original, files)
    ensures
      var now := CutOff(digest, files, attempt);
      Recoverable(original, now) && BackupsKept(files, now)
  {
    var now := CutOff(digest, files, attempt);
    EveryCrashPointIsSafe(digest, files, attempt.targets);
    assert Safe(files, attempt.targets, now);
    if !Clashes(files, attempt.targets) {
      forall name | Report(name) in original
        ensures
          && Report(name) in now
          && (now[Report(name)] == original[Report(name)]
              || (Backup(name) in now && now[Backup(name)] == original[Report(name)]))
      {
        assert ReportSafe(files, attempt.targets, now, name);
        if Report(name) !in now || now[Report(name)] != files[Report(name)] {
          var i :| 0 <= i < |attempt.targets| && attempt.targets[i].name == name
            && Replaced(files, now, attempt.targets[i]);
          assert Backup(attempt.targets[i].name) !in files;
        }
      }
    }
  }

  lemma {:induction false} StaysRecoverable(digest: Content -> Content, original: Files, attempts: seq<Attempt>)
    requires CollisionFree(digest)
    ensures Recoverable(original, AfterAttempts(digest, original, attempts))
  {
    if attempts != [] {
      var n := |attempts| - 1;
      StaysRecoverable(digest, original, attempts[..n]);
      OneMoreAttempt(digest, original, AfterAttempts(digest, original, attempts[..n]), attempts[n]);
    }
  }

  /** Through any sequence of runs, each cut off anywhere and the next started on what is left, every
      original report stays recoverable, and a backup once there never changes. */
  lemma {:induction false} AlwaysRecoverable(digest: Content -> Content, original: Files, attempts: seq<Attempt>,
                                             k: nat)
    requires CollisionFree(digest) && k <= |attempts|
    ensures Recoverable(original, AfterAttempts(digest, original, attempts))
    ensures BackupsKept(AfterAttempts(digest, original, attempts[..k]), AfterAttempts(digest, original, attempts))
    decreases |attempts|
  {
    StaysRecoverable(digest, original, attempts);
    if k == |attempts| {
      assert attempts[..k] == attempts;
    } else {
      var n := |attempts| - 1;
      AlwaysRecoverable(digest, original, attempts[..n], k);
      assert attempts[..n][..k] == attempts[..k];
      var last := AfterAttempts(digest, original, attempts[..n]);
      OneMoreAttempt(digest, original, last, attempts[n]);
    }
  }
}
