/** Marks that take a daily report out of the evaluation (scripts/ops/mark_report_data_quality.py). */
module ReportMarks {
  import opened Common
  import opened ReportDiff
  import ReportRepair

  const QUALITY: string := "data_quality"
  const REASON: string := "data_quality_reason"
  const MARKED_AT: string := "data_quality_marked_at"

  const ADDED: set<string> := {QUALITY, REASON, MARKED_AT}

  /** Reading and formatting of JSON texts, the latter with the newlines and the order of fields of a text, and the
      hash of a text. */
  datatype Codec = Codec(parse: string -> Option<Json>, dump: (Json, string) -> string, digest: string -> string)

  /** A mark, with the hash that its report had when it was examined. */
  datatype Mark = Mark(quality: string, reason: string, expected: string)

  datatype MarkPlan =
    | NoReport
    | AlreadyMarked
    | OtherMark(mark: Json)
    | Changed
    | NotReformattable
    | Write(original: string, text: string)

  function MarkOn(data: Json): Json
    requires data.Dict?
  {
    if QUALITY in data.fields then data.fields[QUALITY] else Null
  }

  function Marked(data: Json, mark: Mark, at: string): Json
    requires data.Dict?
  {
    Dict(data.fields[QUALITY := Text(mark.quality)][REASON := Text(mark.reason)][MARKED_AT := Text(at)])
  }

  /** What to do about one report: it is marked only if it is as it was examined and formatting keeps its text. */
  function PlanTarget(codec: Codec, file: Option<string>, mark: Mark, at: string): Result<MarkPlan> {
    if file.None? then Ok(NoReport)
    else
      var text, parsed := file.value, codec.parse(file.value);
      if parsed.None? || !parsed.value.Dict? then Raised
      else
        var data := parsed.value;
        if MarkOn(data) != Null then
          Ok(if MarkOn(data) == Text(mark.quality) then AlreadyMarked else OtherMark(MarkOn(data)))
        else if codec.digest(text) != mark.expected then Ok(Changed)
        else if codec.dump(data, text) != text then Ok(NotReformattable)
        else Ok(Write(text, codec.dump(Marked(data, mark, at), text)))
  }

  /** A mark sets its three fields and keeps all others. */
  lemma MarkSetsFields(data: Json, mark: Mark, at: string)
    requires data.Dict?
    ensures
      var fields := Marked(data, mark, at).fields;
      && fields.Keys == data.fields.Keys + {"data_quality", "data_quality_reason", "data_quality_marked_at"}
      && fields["data_quality"] == Text(mark.quality) && fields["data_quality_reason"] == Text(mark.reason)
      && fields["data_quality_marked_at"] == Text(at)
      && forall k :: k in data.fields && k !in ADDED ==> fields[k] == data.fields[k]
  {
    assert QUALITY != REASON && QUALITY != MARKED_AT && REASON != MARKED_AT by {
      assert |QUALITY| == 12 && |REASON| == 19 && |MARKED_AT| == 22;
    }
  }

  /** A report is to be written exactly when it can be read as an object, has no mark or one that is `null`, is as it was
      examined, and keeps its text when formatted; it counts as marked exactly when it has this mark. */
  lemma WritePlanIff(codec: Codec, file: Option<string>, mark: Mark, at: string)
    ensures
      var plan := PlanTarget(codec, file, mark, at);
      var data := if file.Some? then codec.parse(file.value) else None;
      && (plan.Raised? <==> file.Some? && (data.None? || !data.value.Dict?))
      && (plan.Ok? ==>
            && (plan.value.NoReport? <==> file.None?)
            && (plan.value.AlreadyMarked? <==>
                  && data.Some? && QUALITY in data.value.fields
                  && data.value.fields[QUALITY] == Text(mark.quality))
            && (plan.value.Write? <==>
                  && data.Some? && (QUALITY in data.value.fields ==> data.value.fields[QUALITY] == Null)
                  && codec.digest(file.value) == mark.expected && codec.dump(data.value, file.value) == file.value)
            && (plan.value.Write? ==>
                  && plan.value.original == file.value
                  && plan.value.text == codec.dump(Marked(data.value, mark, at), file.value)))
  {}

  // ---------------------------------------------------------------- the check after writing

  /** The check after writing: exactly the three fields are new, and all others are as before. */
  predicate Verifies(codec: Codec, written: string, original: string) {
    var after, before := codec.parse(written), codec.parse(original);
    && after.Some? && after.value.Dict? && before.Some? && before.value.Dict?
    && after.value.fields.Keys - before.value.fields.Keys == ADDED
    && forall k :: k in before.value.fields ==>
         k in after.value.fields && PyEqual(after.value.fields[k], before.value.fields[k])
  }

  lemma {:induction false} EqualToItself(a: Json)
    ensures PyEqual(a, a)
  {
    match a
    case List(items) =>
      forall i | 0 <= i < |items| ensures PyEqual(items[i], items[i]) {
        EqualToItself(items[i]);
      }
    case Dict(fields) =>
      forall k | k in fields ensures PyEqual(fields[k], fields[k]) {
        EqualToItself(fields[k]);
      }
    case _ =>
  }

  /** None of the three fields is there yet. */
  predicate Unmarked(data: Json)
    requires data.Dict?
  {
    QUALITY !in data.fields && REASON !in data.fields && MARKED_AT !in data.fields
  }

  /** A mark on a report without the three fields makes it differ from the original at exactly these. */
  lemma MarkDiffersInThreeFields(data: Json, mark: Mark, at: string)
    requires data.Dict? && Unmarked(data)
    ensures Differences(data, Marked(data, mark, at), "") == ADDED
  {
    var marked := Marked(data, mark, at);
    forall k | k in data.fields ensures k in marked.fields && Differences(data.fields[k], marked.fields[k], k) == {} {
      EqualToItself(data.fields[k]);
      NoDifferenceIffEqual(data.fields[k], data.fields[k], k);
    }
  }

  /** Text that is planned to be written, and read back as what it was formatted from. */
  ghost predicate ReadsBack(codec: Codec, file: Option<string>, mark: Mark, at: string) {
    PlanTarget(codec, file, mark, at).Ok? && PlanTarget(codec, file, mark, at).value.Write? ==>
      var data := codec.parse(file.value).value;
      codec.parse(PlanTarget(codec, file, mark, at).value.text) == Some(Marked(data, mark, at))
  }

  /** A report is written only as it was examined, and the check after writing passes if and only if none of the
      three fields was there. A field that holds `null`, or a reason without a mark, is not noticed before. */
  lemma WrittenIsVerifiedIff(codec: Codec, file: Option<string>, mark: Mark, at: string)
    requires PlanTarget(codec, file, mark, at).Ok? && PlanTarget(codec, file, mark, at).value.Write?
    requires ReadsBack(codec, file, mark, at)
    ensures
      var plan := PlanTarget(codec, file, mark, at).value;
      && plan.original == file.value && codec.digest(plan.original) == mark.expected
      && (Verifies(codec, plan.text, plan.original) <==> Unmarked(codec.parse(plan.original).value))
  {
    var data := codec.parse(file.value).value;
    var marked := Marked(data, mark, at);
    assert marked.fields.Keys == data.fields.Keys + ADDED;
    if Unmarked(data) {
      assert marked.fields.Keys - data.fields.Keys == ADDED;
      forall k | k in data.fields ensures PyEqual(marked.fields[k], data.fields[k]) {
        EqualToItself(data.fields[k]);
      }
    } else {
      var k :| k in ADDED && k in data.fields;
      assert k !in marked.fields.Keys - data.fields.Keys;
    }
  }

  /** A report whose mark is `null` is planned to be written, and the check after writing fails. */
  lemma NullMarkFailsTheCheck(codec: Codec, text: string, mark: Mark, at: string)
    requires codec.parse(text) == Some(Dict(map[QUALITY := Null])) && codec.digest(text) == mark.expected
    requires codec.dump(Dict(map[QUALITY := Null]), text) == text
    requires ReadsBack(codec, Some(text), mark, at)
    ensures
      var plan := PlanTarget(codec, Some(text), mark, at);
      plan.Ok? && plan.value.Write? && !Verifies(codec, plan.value.text, text)
  {
    WrittenIsVerifiedIff(codec, Some(text), mark, at);
  }

  /** A report that has been marked is not marked again. */
  lemma MarkedOnce(codec: Codec, file: Option<string>, mark: Mark, at: string, later: string)
    requires PlanTarget(codec, file, mark, at).Ok? && PlanTarget(codec, file, mark, at).value.Write?
    requires ReadsBack(codec, file, mark, at)
    ensures PlanTarget(codec, Some(PlanTarget(codec, file, mark, at).value.text), mark, later) == Ok(AlreadyMarked)
  {
    assert REASON != QUALITY && MARKED_AT != QUALITY;
  }

  // ---------------------------------------------------------------- a run over all planned reports

  /** A report that is to be written, its mark, and what the file system does meanwhile. */
  datatype Job = Job(name: string, mark: Mark, tornCopy: string, copied: string, tornTemp: string)

  function FileOf(files: ReportRepair.Files, name: string): Option<string> {
    var place := ReportRepair.Report(name);
    if place in files then Some(files[place]) else None
  }

  /** The jobs whose reports are to be written. */
  predicate Planned(codec: Codec, files: ReportRepair.Files, jobs: seq<Job>, at: string) {
    forall i :: 0 <= i < |jobs| ==>
      PlanTarget(codec, FileOf(files, jobs[i].name), jobs[i].mark, at).Ok? &&
      PlanTarget(codec, FileOf(files, jobs[i].name), jobs[i].mark, at).value.Write?
  }

  function TargetOf(codec: Codec, files: ReportRepair.Files, job: Job, at: string): ReportRepair.Target
    requires PlanTarget(codec, FileOf(files, job.name), job.mark, at).Ok?
    requires PlanTarget(codec, FileOf(files, job.name), job.mark, at).value.Write?
  {
    var plan := PlanTarget(codec, FileOf(files, job.name), job.mark, at).value;
    ReportRepair.Target(job.name, plan.text, Verifies(codec, plan.text, plan.original), job.tornCopy, job.copied,
                        job.tornTemp)
  }

  function TargetsOf(codec: Codec, files: ReportRepair.Files, jobs: seq<Job>, at: string): seq<ReportRepair.Target>
    requires Planned(codec, files, jobs, at)
  {
    seq(|jobs|, i requires 0 <= i < |jobs| => TargetOf(codec, files, jobs[i], at))
  }

  /** A copy that comes out as it should, and a written text that reads back. */
  ghost predicate Faithful(codec: Codec, files: ReportRepair.Files, job: Job, at: string) {
    FileOf(files, job.name) == Some(job.copied) && ReadsBack(codec, FileOf(files, job.name), job.mark, at)
  }

  /** The report, and so its copy, had none of the three fields. */
  predicate WasUnmarked(codec: Codec, job: Job) {
    var data := codec.parse(job.copied);
    data.Some? && data.value.Dict? && Unmarked(data.value)
  }

  /** With faithful copies and no earlier backup, a run over the planned reports completes if and only if none of
      them had one of the three fields. */
  lemma MarkingCompletesIff(codec: Codec, files: ReportRepair.Files, jobs: seq<Job>, at: string)
    requires Planned(codec, files, jobs, at) && !ReportRepair.Clashes(files, TargetsOf(codec, files, jobs, at))
    requires forall i :: 0 <= i < |jobs| ==> Faithful(codec, files, jobs[i], at)
    ensures ReportRepair.Run(codec.digest, files, TargetsOf(codec, files, jobs, at)).alive <==>
      forall i :: 0 <= i < |jobs| ==> WasUnmarked(codec, jobs[i])
  {
    var targets := TargetsOf(codec, files, jobs, at);
    ReportRepair.RunCompletesIff(codec.digest, files, targets);
    forall i | 0 <= i < |jobs|
      ensures ReportRepair.CanBackUp(codec.digest, files, targets[i])
      ensures targets[i].verified <==> WasUnmarked(codec, jobs[i])
    {
      assert Faithful(codec, files, jobs[i], at);
      WrittenIsVerifiedIff(codec, FileOf(files, jobs[i].name), jobs[i].mark, at);
    }
  }
}
