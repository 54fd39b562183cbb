/**
 Two versions of one protocol that puts a text into a file: validate, make the parents,
 validate again, write a temporary file beside the target, flush and fsync it, validate
 once more, rename it over the target, and remove it if anything went wrong.  Every step
 may fail, and the volume keeps a ghost record of every state it goes through.
 */
module EvidenceWriter {
  import opened Wrappers

  datatype Path = Path(dir: string, name: string)

  type Files = map<Path, string>

  // `prefix=f".{out_path.name}."`, `suffix=".tmp"`, `dir=out_path.parent`
  function TempPath(out: Path, random: string): Path {
    Path(out.dir, "." + out.name + "." + random + ".tmp")
  }

  // ---------------------------------------------------------------- validation

  // What `is_symlink`, `exists` and `is_dir` answer for one path; the last two follow links.
  datatype Entry = Entry(symlink: bool, present: bool, directory: bool)

  datatype Look = Look(target: Entry, parents: seq<Entry>)

  datatype PathError = DirectoryError | SymlinkError | ParentSymlinkError

  predicate HasSymlinkParent(parents: seq<Entry>) {
    exists i :: 0 <= i < |parents| && parents[i].symlink
  }

  // `validate_output_path`
  function OutputVerdict(look: Look): Option<PathError> {
    if look.target.symlink then Some(SymlinkError)
    else if HasSymlinkParent(look.parents) then Some(ParentSymlinkError)
    else if look.target.present && look.target.directory then Some(DirectoryError)
    else None
  }

  predicate HasLiveSymlinkParent(parents: seq<Entry>) {
    exists i :: 0 <= i < |parents| && parents[i].present && parents[i].symlink
  }

  function ReportVerdict(look: Look): Option<PathError> {
    if look.target.present && look.target.directory then Some(DirectoryError)
    else if look.target.symlink then Some(SymlinkError)
    else if HasLiveSymlinkParent(look.parents) then Some(ParentSymlinkError)
    else None
  }

  // `validate_report_output_path`
  method ValidateReportOutputPath(look: Look) returns (r: Option<PathError>)
    ensures r == ReportVerdict(look)
  {
    if look.target.present && look.target.directory {
      return Some(DirectoryError);
    }
    if look.target.symlink {
      return Some(SymlinkError);
    }
    for i := 0 to |look.parents|
      invariant forall k :: 0 <= k < i ==> !(look.parents[k].present && look.parents[k].symlink)
    {
      if look.parents[i].present && look.parents[i].symlink {
        return Some(ParentSymlinkError);
      }
    }
    return None;
  }

  // A path the first version accepts the second accepts too; the second accepts more
  // exactly when all symlinked parents dangle.
  lemma {:induction false} ValidatorsDiffer(look: Look)
    ensures OutputVerdict(look) == None ==> ReportVerdict(look) == None
    ensures ReportVerdict(look) == None && OutputVerdict(look) != None
            <==> !look.target.symlink && !(look.target.present && look.target.directory)
                 && HasSymlinkParent(look.parents) && !HasLiveSymlinkParent(look.parents)
  {
    if HasLiveSymlinkParent(look.parents) {
      var i :| 0 <= i < |look.parents| && look.parents[i].present && look.parents[i].symlink;
      assert look.parents[i].symlink;
    }
  }

  // The two name different errors exactly for a directory reached through a link, be it
  // the target itself or a parent.
  lemma {:induction false} VerdictsNameDifferentErrors(look: Look)
    requires OutputVerdict(look) != None && ReportVerdict(look) != None
    ensures OutputVerdict(look) != ReportVerdict(look)
            <==> look.target.present && look.target.directory
                 && (look.target.symlink || HasSymlinkParent(look.parents))
  {
    ValidatorsDiffer(look);
  }

  // ---------------------------------------------------------------- steps and failures

  datatype Step =
    CheckFirst | MakeParents | CheckAgain | CreateTemp | WriteText | Flush | Sync | Close | CheckLast | Replace | Unlink

  function Rank(s: Step): nat {
    match s
    case CheckFirst => 0
    case MakeParents => 1
    case CheckAgain => 2
    case CreateTemp => 3
    case WriteText => 4
    case Flush => 5
    case Sync => 6
    case Close => 7
    case CheckLast => 8
    case Replace => 9
    case Unlink => 10
  }

  // Which operating-system steps fail, how much text a write leaves in the file before
  // the flush, and what the validator sees at its three turns.
  datatype Plan = Plan(faults: set<Step>, landed: nat, first: Look, again: Look, last: Look)

  function Failing(plan: Plan, verdict: Look -> Option<PathError>): set<Step> {
    plan.faults - {CheckFirst, CheckAgain, CheckLast}
    + (if verdict(plan.first) != None then {CheckFirst} else {})
    + (if verdict(plan.again) != None then {CheckAgain} else {})
    + (if verdict(plan.last) != None then {CheckLast} else {})
  }

  function EmitFailing(plan: Plan): set<Step> { Failing(plan, OutputVerdict) }

  function SafeFailing(plan: Plan): set<Step> { Failing(plan, ReportVerdict) }

  // The file is created exclusively, so a name that is taken makes creating it fail.
  function Effective(plan: Plan, taken: bool): Plan {
    if taken then plan.(faults := plan.faults + {CreateTemp}) else plan
  }

  // How a call ends; `at` is the step that failed first.
  datatype Outcome = Returned | Raised(at: Step)

  // The steps from the one of rank lo to the one of rank hi end at the earliest failing one.
  predicate EndsWithin(o: Outcome, failing: set<Step>, lo: nat, hi: nat) {
    match o
    case Returned => forall s :: s in failing ==> !(lo <= Rank(s) <= hi)
    case Raised(at) =>
      && at in failing && lo <= Rank(at) <= hi
      && forall s :: s in failing && lo <= Rank(s) <= hi ==> Rank(at) <= Rank(s)
  }

  // The call ends at the earliest failing step, and returns when none before the cleanup fails.
  predicate EndsAtFirst(o: Outcome, failing: set<Step>) {
    EndsWithin(o, failing, Rank(CheckFirst), Rank(Replace))
  }

  lemma {:induction false} EndsJoin(failing: set<Step>, lo: nat, mid: nat, hi: nat, a: Outcome, b: Outcome)
    requires EndsWithin(a, failing, lo, mid) && lo <= mid <= hi
    requires a.Returned? ==> EndsWithin(b, failing, mid + 1, hi)
    ensures EndsWithin(if a.Raised? then a else b, failing, lo, hi)
  {
  }

  // Between creating and closing the temporary file only the operating system can fail.
  lemma {:induction false} BlockFaults(plan: Plan, verdict: Look -> Option<PathError>, o: Outcome)
    requires EndsWithin(o, plan.faults, Rank(CreateTemp), Rank(Close))
    ensures EndsWithin(o, Failing(plan, verdict), Rank(CreateTemp), Rank(Close))
  {
  }

  // A name that is taken makes no difference before the temporary file is created.
  lemma {:induction false} PreparedAlike(plan: Plan, taken: bool, verdict: Look -> Option<PathError>, o: Outcome)
    requires EndsWithin(o, Failing(plan, verdict), Rank(CheckFirst), Rank(CheckAgain))
    ensures EndsWithin(o, Failing(Effective(plan, taken), verdict), Rank(CheckFirst), Rank(CheckAgain))
  {
  }

  lemma {:induction false} LastSteps(plan: Plan, verdict: Look -> Option<PathError>, o: Outcome)
    requires o == if verdict(plan.last) != None then Raised(CheckLast)
                  else if Replace in plan.faults then Raised(Replace) else Returned
    ensures EndsWithin(o, Failing(plan, verdict), Rank(CheckLast), Rank(Replace))
  {
  }

  // ---------------------------------------------------------------- the volume

  // The files, and those among them whose content has reached the disk.
  datatype State = State(files: Files, synced: set<Path>)

  class Volume {
    var files: Files
    var synced: set<Path>
    ghost var history: seq<State>

    constructor (files: Files)
      ensures this.files == files && synced == files.Keys && history == [State(files, synced)]
    {
      this.files, synced, history := files, files.Keys, [State(files, files.Keys)];
    }

    // The content of a file changes; it is not on the disk yet.
    method Put(p: Path, s: string)
      modifies this
      ensures files == old(files)[p := s] && synced == old(synced) - {p}
      ensures history == old(history) + [State(files, synced)]
    {
      files, synced := files[p := s], synced - {p};
      history := history + [State(files, synced)];
    }

    // `os.fsync`
    method Fsync(p: Path)
      modifies this
      ensures files == old(files) && synced == old(synced) + {p}
      ensures history == old(history) + [State(files, synced)]
    {
      synced := synced + {p};
      history := history + [State(files, synced)];
    }

    method Remove(p: Path)
      modifies this
      ensures files == old(files) - {p} && synced == old(synced) - {p}
      ensures history == old(history) + [State(files, synced)]
    {
      files, synced := files - {p}, synced - {p};
      history := history + [State(files, synced)];
    }

    // `os.replace`: one atomic step; the content stays on the disk if it was there.
    method Rename(p: Path, q: Path)
      requires p in files && p != q
      modifies this
      ensures files == (old(files) - {p})[q := old(files)[p]]
      ensures q in synced <==> p in old(synced)
      ensures history == old(history) + [State(files, synced)]
    {
      var s, whole := files[p], p in synced;
      files := (files - {p})[q := s];
      synced := if whole then synced - {p} + {q} else synced - {p, q};
      history := history + [State(files, synced)];
    }
  }

  // The state differs from `was` at most in the temporary file and in the target, and the
  // target is as it was or holds the complete text, on the disk.
  ghost predicate OldOrNew(now: State, was: Files, out: Path, temp: Path, text: string) {
    now.files - {temp} == was || (now.files - {temp} == was[out := text] && out in now.synced)
  }

  // Every state since `before` is an old-or-new state.
  ghost predicate AlwaysOldOrNew(history: seq<State>, before: seq<State>, was: Files, out: Path, temp: Path,
                                 text: string) {
    && |before| <= |history| && history[..|before|] == before
    && forall i :: |before| <= i < |history| ==> OldOrNew(history[i], was, out, temp, text)
  }

  // ---------------------------------------------------------------- final states

  // The first version leaves its temporary file exactly when the cleanup itself fails.
  predicate EmitLeaves(o: Outcome, failing: set<Step>) {
    o.Raised? && Rank(o.at) > Rank(CreateTemp) && Unlink in failing
  }

  // The second one also leaves it when writing, flushing or syncing fails.
  predicate SafeLeaves(o: Outcome, failing: set<Step>) {
    o.Raised? && (o.at in {WriteText, Flush, Sync} || (Rank(o.at) > Rank(Sync) && Unlink in failing))
  }

  // The files after a call: the text is in place, or nothing changed, or a file with a
  // beginning of the text is left behind.
  ghost predicate Settled(now: Files, was: Files, out: Path, temp: Path, text: string, o: Outcome, leaves: bool) {
    if o.Returned? then now == was[out := text]
    else if leaves then temp in now && now[temp] <= text && now == was[temp := now[temp]]
    else now == was
  }

  // ---------------------------------------------------------------- the two writers

  function Landed(text: string, n: nat): string {
    if n < |text| then text[..n] else text
  }

  // What one call may do to a volume that was `was` with the record `before`.
  datatype Job = Job(before: seq<State>, was: Files, out: Path, temp: Path, text: string) {
    ghost predicate Sound() {
      temp !in was && out != temp
    }

    // Nothing but the temporary file has changed so far.
    ghost predicate OnlyTemp(v: Volume)
      reads v
    {
      Sound() && v.files - {temp} == was && AlwaysOldOrNew(v.history, before, was, out, temp, text)
    }

    // The temporary file holds a beginning of the text; if `complete`, all of it, on the disk.
    ghost predicate Begun(v: Volume, complete: bool)
      reads v
    {
      && OnlyTemp(v) && temp in v.files && v.files[temp] <= text
      && (complete ==> v.files[temp] == text && temp in v.synced)
    }
  }

  method PutTemp(v: Volume, temp: Path, s: string, ghost job: Job)
    requires job.OnlyTemp(v) && temp == job.temp && s <= job.text
    modifies v
    ensures job.Begun(v, false) && v.files[temp] == s
  {
    v.Put(temp, s);
    assert v.files - {temp} == job.was;
  }

  // `temp_file.write`, `temp_file.flush`, `os.fsync`
  method WriteFlushSync(v: Volume, temp: Path, text: string, plan: Plan, ghost job: Job) returns (o: Outcome)
    requires job.OnlyTemp(v) && temp == job.temp && text == job.text
    modifies v
    ensures job.Begun(v, o.Returned?)
    ensures EndsWithin(o, plan.faults, Rank(WriteText), Rank(Sync))
  {
    PutTemp(v, temp, Landed(text, plan.landed), job);
    if WriteText in plan.faults {
      return Raised(WriteText);
    }
    if Flush in plan.faults {
      return Raised(Flush);
    }
    PutTemp(v, temp, text, job);
    if Sync in plan.faults {
      return Raised(Sync);
    }
    v.Fsync(temp);
    return Returned;
  }

  // The `with` block of `emit_json_payload`: the path is noted before anything is written.
  method EmitTemp(v: Volume, temp: Path, text: string, plan: Plan, ghost job: Job)
    returns (tempPath: Option<Path>, o: Outcome)
    requires job.OnlyTemp(v) && v.files == job.was && temp == job.temp && text == job.text
    modifies v
    ensures EndsWithin(o, plan.faults, Rank(CreateTemp), Rank(Close))
    ensures tempPath == if o == Raised(CreateTemp) then None else Some(temp)
    ensures if o == Raised(CreateTemp) then job.OnlyTemp(v) && v.files == job.was else job.Begun(v, o.Returned?)
  {
    if CreateTemp in plan.faults {
      return None, Raised(CreateTemp);
    }
    PutTemp(v, temp, "", job);
    tempPath := Some(temp);
    o := WriteFlushSync(v, temp, text, plan, job);
    if o.Returned? && Close in plan.faults {
      o := Raised(Close);
    }
  }

  // The `with` block of `safe_write_report_text`: the path is noted after fsync.
  method SafeTemp(v: Volume, temp: Path, text: string, plan: Plan, ghost job: Job)
    returns (tempPath: Option<Path>, o: Outcome)
    requires job.OnlyTemp(v) && v.files == job.was && temp == job.temp && text == job.text
    modifies v
    ensures EndsWithin(o, plan.faults, Rank(CreateTemp), Rank(Close))
    ensures tempPath == if o.Raised? && Rank(o.at) <= Rank(Sync) then None else Some(temp)
    ensures if o == Raised(CreateTemp) then job.OnlyTemp(v) && v.files == job.was else job.Begun(v, o.Returned?)
  {
    tempPath := None;
    if CreateTemp in plan.faults {
      return tempPath, Raised(CreateTemp);
    }
    PutTemp(v, temp, "", job);
    o := WriteFlushSync(v, temp, text, plan, job);
    if o.Returned? {
      tempPath := Some(temp);
      if Close in plan.faults {
        o := Raised(Close);
      }
    }
  }

  // `os.replace(temp_path, out_path)`, unless the last validation or the renaming fails.
  method Publish(v: Volume, temp: Path, out: Path, rejected: bool, plan: Plan,
                 ghost job: Job, ghost verdict: Look -> Option<PathError>)
    returns (o: Outcome)
    requires job.Begun(v, true) && temp == job.temp && out == job.out
    requires rejected == (verdict(plan.last) != None)
    modifies v
    ensures EndsWithin(o, Failing(plan, verdict), Rank(CheckLast), Rank(Replace))
    ensures if o.Returned? then v.files == job.was[out := job.text] && out in v.synced else job.Begun(v, true)
    ensures AlwaysOldOrNew(v.history, job.before, job.was, out, temp, job.text)
  {
    if rejected {
      LastSteps(plan, verdict, Raised(CheckLast));
      return Raised(CheckLast);
    }
    if Replace in plan.faults {
      LastSteps(plan, verdict, Raised(Replace));
      return Raised(Replace);
    }
    v.Rename(temp, out);
    assert v.files == job.was[out := job.text];
    assert v.files - {temp} == job.was[out := job.text];
    LastSteps(plan, verdict, Returned);
    return Returned;
  }

  // `finally`: remove the file if its path is still noted.
  method Cleanup(v: Volume, tempPath: Option<Path>, faults: set<Step>, ghost job: Job)
    requires tempPath.Some? ==> tempPath.value == job.temp && job.Begun(v, false)
    requires AlwaysOldOrNew(v.history, job.before, job.was, job.out, job.temp, job.text)
    modifies v
    ensures v.files == if tempPath.Some? && Unlink !in faults then job.was else old(v.files)
    ensures tempPath.None? ==> v.synced == old(v.synced)
    ensures AlwaysOldOrNew(v.history, job.before, job.was, job.out, job.temp, job.text)
  {
    if tempPath.Some? && Unlink !in faults {
      v.Remove(tempPath.value);
      assert v.files - {job.temp} == job.was;
    }
  }

  method PrepareEmit(plan: Plan) returns (o: Outcome)
    ensures EndsWithin(o, EmitFailing(plan), Rank(CheckFirst), Rank(CheckAgain))
  {
    if OutputVerdict(plan.first) != None {
      return Raised(CheckFirst);
    }
    if MakeParents in plan.faults {
      return Raised(MakeParents);
    }
    if OutputVerdict(plan.again) != None {
      return Raised(CheckAgain);
    }
    return Returned;
  }

  // The `try` and `finally` of `emit_json_payload`
  method EmitVia(v: Volume, out: Path, temp: Path, text: string, plan: Plan, ghost job: Job) returns (o: Outcome)
    requires job.OnlyTemp(v) && v.files == job.was && out == job.out && temp == job.temp && text == job.text
    modifies v
    ensures EndsWithin(o, EmitFailing(plan), Rank(CreateTemp), Rank(Replace))
    ensures AlwaysOldOrNew(v.history, job.before, job.was, out, temp, text)
    ensures Settled(v.files, job.was, out, temp, text, o, EmitLeaves(o, plan.faults))
    ensures o.Returned? ==> out in v.synced
  {
    var tempPath;
    tempPath, o := EmitTemp(v, temp, text, plan, job);
    BlockFaults(plan, OutputVerdict, o);
    ghost var written := o;
    if o.Returned? {
      o := Publish(v, temp, out, OutputVerdict(plan.last) != None, plan, job, OutputVerdict);
      if o.Returned? {
        tempPath := None;
      }
    }
    EndsJoin(EmitFailing(plan), 3, 7, 9, written, o);
    Cleanup(v, tempPath, plan.faults, job);
  }

  // `emit_json_payload`
  method EmitJsonPayload(v: Volume, rendered: string, out: Option<Path>, random: string, plan: Plan)
    returns (o: Outcome, stdout: string)
    modifies v
    ensures out.None? ==> o == Returned && stdout == rendered && v.files == old(v.files) && v.history == old(v.history)
    ensures out.Some? ==>
      var temp := TempPath(out.value, random);
      var failing := EmitFailing(Effective(plan, temp in old(v.files)));
      && stdout == "" && EndsAtFirst(o, failing)
      && AlwaysOldOrNew(v.history, old(v.history), old(v.files), out.value, temp, rendered)
      && Settled(v.files, old(v.files), out.value, temp, rendered, o, EmitLeaves(o, failing))
      && (o.Returned? ==> out.value in v.synced)
  {
    if out.None? {
      return Returned, rendered;
    }
    stdout := "";
    var temp := TempPath(out.value, random);
    ghost var failing := EmitFailing(Effective(plan, temp in v.files));
    var prepared := PrepareEmit(plan);
    PreparedAlike(plan, temp in v.files, OutputVerdict, prepared);
    if prepared.Raised? {
      EndsJoin(failing, 0, 2, 9, prepared, prepared);
      return prepared, stdout;
    }
    if temp in v.files {
      EndsJoin(failing, 0, 2, 9, prepared, Raised(CreateTemp));
      return Raised(CreateTemp), stdout;
    }
    assert v.files - {temp} == v.files;
    o := EmitVia(v, out.value, temp, rendered, plan, Job(v.history, v.files, out.value, temp, rendered));
    EndsJoin(EmitFailing(plan), 0, 2, 9, prepared, o);
  }

  method PrepareReport(plan: Plan) returns (o: Outcome)
    ensures EndsWithin(o, SafeFailing(plan), Rank(CheckFirst), Rank(CheckAgain))
  {
    var verdict := ValidateReportOutputPath(plan.first);
    if verdict != None {
      return Raised(CheckFirst);
    }
    if MakeParents in plan.faults {
      return Raised(MakeParents);
    }
    verdict := ValidateReportOutputPath(plan.again);
    if verdict != None {
      return Raised(CheckAgain);
    }
    return Returned;
  }

  // The last validation and the renaming of `safe_write_report_text`
  method SafePublish(v: Volume, temp: Path, out: Path, plan: Plan, ghost job: Job) returns (o: Outcome)
    requires job.Begun(v, true) && temp == job.temp && out == job.out
    modifies v
    ensures EndsWithin(o, SafeFailing(plan), Rank(CheckLast), Rank(Replace))
    ensures if o.Returned? then v.files == job.was[out := job.text] && out in v.synced else job.Begun(v, true)
    ensures AlwaysOldOrNew(v.history, job.before, job.was, out, temp, job.text)
  {
    var verdict := ValidateReportOutputPath(plan.last);
    o := Publish(v, temp, out, verdict != None, plan, job, ReportVerdict);
  }

  // The `try` and `finally` of `safe_write_report_text`
  method SafeVia(v: Volume, out: Path, temp: Path, text: string, plan: Plan, ghost job: Job) returns (o: Outcome)
    requires job.OnlyTemp(v) && v.files == job.was && out == job.out && temp == job.temp && text == job.text
    modifies v
    ensures EndsWithin(o, SafeFailing(plan), Rank(CreateTemp), Rank(Replace))
    ensures AlwaysOldOrNew(v.history, job.before, job.was, out, temp, text)
    ensures Settled(v.files, job.was, out, temp, text, o, SafeLeaves(o, plan.faults))
    ensures o.Returned? ==> out in v.synced
  {
    var tempPath;
    tempPath, o := SafeTemp(v, temp, text, plan, job);
    BlockFaults(plan, ReportVerdict, o);
    ghost var written := o;
    if o.Returned? {
      o := SafePublish(v, temp, out, plan, job);
      if o.Returned? {
        tempPath := None;
      }
    }
    EndsJoin(SafeFailing(plan), 3, 7, 9, written, o);
    Cleanup(v, tempPath, plan.faults, job);
  }

  // `safe_write_report_text`
  method SafeWriteReportText(v: Volume, out: Path, text: string, random: string, plan: Plan) returns (o: Outcome)
    modifies v
    ensures EndsAtFirst(o, SafeFailing(Effective(plan, TempPath(out, random) in old(v.files))))
    ensures AlwaysOldOrNew(v.history, old(v.history), old(v.files), out, TempPath(out, random), text)
    ensures Settled(v.files, old(v.files), out, TempPath(out, random), text, o,
                    SafeLeaves(o, SafeFailing(Effective(plan, TempPath(out, random) in old(v.files)))))
    ensures o.Returned? ==> out in v.synced
  {
    var temp := TempPath(out, random);
    ghost var failing := SafeFailing(Effective(plan, temp in v.files));
    var prepared := PrepareReport(plan);
    PreparedAlike(plan, temp in v.files, ReportVerdict, prepared);
    if prepared.Raised? {
      EndsJoin(failing, 0, 2, 9, prepared, prepared);
      return prepared;
    }
    if temp in v.files {
      EndsJoin(failing, 0, 2, 9, prepared, Raised(CreateTemp));
      return Raised(CreateTemp);
    }
    assert v.files - {temp} == v.files;
    o := SafeVia(v, out, temp, text, plan, Job(v.history, v.files, out, temp, text));
    EndsJoin(SafeFailing(plan), 0, 2, 9, prepared, o);
  }

  // ---------------------------------------------------------------- comparing the two

  // Where both versions fail at the same steps, the second leaves a temporary file that the
  // first removes exactly when writing, flushing or syncing failed and unlinking works.
  lemma {:induction false} LeaksDiffer(o: Outcome, failing: set<Step>)
    ensures EmitLeaves(o, failing) ==> SafeLeaves(o, failing)
    ensures SafeLeaves(o, failing) && !EmitLeaves(o, failing)
            <==> o.Raised? && o.at in {WriteText, Flush, Sync} && Unlink !in failing
  {
    if o.Raised? && Rank(o.at) > Rank(CreateTemp) && Rank(o.at) <= Rank(Sync) {
      assert o.at in {WriteText, Flush, Sync};
    }
  }

  // The steps up to creating the temporary file all work.
  predicate Creates(failing: set<Step>) {
    failing !! {CheckFirst, MakeParents, CheckAgain, CreateTemp}
  }

  // When each version leaves its temporary file, by the steps that fail: the first when the
  // file is created, some later step fails and unlinking fails as well; the second also when
  // writing, flushing or syncing fails, whatever unlinking does.
  lemma {:induction false} LeavesIff(o: Outcome, failing: set<Step>)
    requires EndsAtFirst(o, failing)
    ensures EmitLeaves(o, failing)
            <==> Creates(failing) && Unlink in failing && !(failing !! {WriteText, Flush, Sync, Close, CheckLast, Replace})
    ensures SafeLeaves(o, failing)
            <==> Creates(failing) && (!(failing !! {WriteText, Flush, Sync})
                                      || (Unlink in failing && !(failing !! {Close, CheckLast, Replace})))
  {
    match o
    case Returned =>
      assert forall s :: s in failing ==> s == Unlink by {
        forall s | s in failing ensures s == Unlink { RankOfUnlink(s); }
      }
    case Raised(at) =>
      assert forall s :: s in failing ==> Rank(at) <= Rank(s) by {
        forall s | s in failing ensures Rank(at) <= Rank(s) { RankOfUnlink(s); }
      }
  }

  lemma {:induction false} RankOfUnlink(s: Step)
    ensures Rank(s) <= Rank(Unlink) && (Rank(s) > Rank(Replace) <==> s == Unlink)
  {
  }

  // Under one plan the second version leaves a file and the first does not, if and only if
  // the second creates it and, where unlinking works, fails to write, flush or sync, or, where
  // it does not, fails anywhere later on, but the first refuses the path before.  The first
  // alone leaves one, if and only if unlinking fails and nothing else but its last validation,
  // which the second passes.
  lemma {:induction false} LeavesAloneIff(plan: Plan, o: Outcome, p: Outcome)
    requires EndsAtFirst(o, EmitFailing(plan)) && EndsAtFirst(p, SafeFailing(plan))
    ensures EmitLeaves(o, EmitFailing(plan)) && !SafeLeaves(p, SafeFailing(plan))
            <==> && Creates(EmitFailing(plan)) && Unlink in plan.faults
                 && plan.faults !! {WriteText, Flush, Sync, Close, Replace}
                 && OutputVerdict(plan.last) != None && ReportVerdict(plan.last) == None
    ensures SafeLeaves(p, SafeFailing(plan)) && !EmitLeaves(o, EmitFailing(plan))
            <==> && Creates(SafeFailing(plan))
                 && if Unlink !in plan.faults then !(plan.faults !! {WriteText, Flush, Sync})
                    else !Creates(EmitFailing(plan)) && !(SafeFailing(plan) !! {WriteText, Flush, Sync, Close, CheckLast, Replace})
  {
    LeavesIff(o, EmitFailing(plan));
    LeavesIff(p, SafeFailing(plan));
    ValidatorsDiffer(plan.first);
    ValidatorsDiffer(plan.again);
    ValidatorsDiffer(plan.last);
  }

  // Only the write fails, on a path both versions accept: the second leaves its file.
  lemma {:induction false} FailedWriteLeaves(look: Look, landed: nat, o: Outcome, p: Outcome)
    requires OutputVerdict(look) == None
    requires var plan := Plan({WriteText}, landed, look, look, look);
             EndsAtFirst(o, EmitFailing(plan)) && EndsAtFirst(p, SafeFailing(plan))
    ensures o == p == Raised(WriteText)
    ensures SafeLeaves(p, {WriteText}) && !EmitLeaves(o, {WriteText})
  {
    ValidatorsDiffer(look);
    var plan := Plan({WriteText}, landed, look, look, look);
    assert EmitFailing(plan) == {WriteText} && SafeFailing(plan) == {WriteText};
    assert WriteText in EmitFailing(plan);
  }

  // If the same plan makes the second version refuse a path, the first refuses it no later.
  lemma {:induction false} FirstRefusesNoLater(plan: Plan, o: Outcome, p: Outcome)
    requires EndsAtFirst(o, EmitFailing(plan)) && EndsAtFirst(p, SafeFailing(plan)) && p.Raised?
    ensures o.Raised? && Rank(o.at) <= Rank(p.at)
  {
    ValidatorsDiffer(plan.first);
    ValidatorsDiffer(plan.again);
    ValidatorsDiffer(plan.last);
    assert p.at in EmitFailing(plan);
  }

  // ---------------------------------------------------------------- runs of many calls

  // One finished call of either version.
  datatype Call = Call(out: Path, temp: Path, text: string, o: Outcome, leaves: bool)

  ghost predicate Chain(states: seq<Files>, calls: seq<Call>) {
    && |states| == |calls| + 1
    && forall i :: 0 <= i < |calls| ==> Follows(states[i + 1], states[i], calls[i])
  }

  ghost predicate Follows(now: Files, was: Files, c: Call) {
    Settled(now, was, c.out, c.temp, c.text, c.o, c.leaves)
  }

  // No temporary file of the calls stays at p.
  predicate Untouched(calls: seq<Call>, p: Path) {
    forall i :: 0 <= i < |calls| && calls[i].temp == p ==> !calls[i].leaves
  }

  function At(files: Files, p: Path): Option<string> {
    if p in files then Some(files[p]) else None
  }

  // What p holds after n calls: the text of the last call on p that returned, else what it held.
  function Held(files: Files, calls: seq<Call>, n: nat, p: Path): Option<string>
    requires n <= |calls|
  {
    if n == 0 then At(files, p)
    else if calls[n - 1].out == p && calls[n - 1].o.Returned? then Some(calls[n - 1].text)
    else Held(files, calls, n - 1, p)
  }

  // Whatever fails along the way, a path holds the text of the last call on it that returned.
  lemma {:induction false} LastReturnedCallWins(states: seq<Files>, calls: seq<Call>, n: nat, p: Path)
    requires Chain(states, calls) && Untouched(calls, p) && n <= |calls|
    ensures At(states[n], p) == Held(states[0], calls, n, p)
  {
    if n > 0 {
      LastReturnedCallWins(states, calls, n - 1, p);
      assert Follows(states[n], states[n - 1], calls[n - 1]);
    }
  }

  // At any moment of the next call, a path other than its temporary file holds what the
  // last returned call put there, or, if it is the target, the complete new text, on the disk.
  lemma {:induction false} NeverATornText(states: seq<Files>, calls: seq<Call>, c: Call, moment: State, p: Path)
    requires Chain(states, calls) && Untouched(calls, p) && p != c.temp
    requires OldOrNew(moment, states[|calls|], c.out, c.temp, c.text)
    ensures || At(moment.files, p) == Held(states[0], calls, |calls|, p)
            || (p == c.out && At(moment.files, p) == Some(c.text) && p in moment.synced)
  {
    LastReturnedCallWins(states, calls, |calls|, p);
    assert At(moment.files, p) == At(moment.files - {c.temp}, p);
  }

  // ---------------------------------------------------------------- performing many calls

  datatype Request = Request(safe: bool, out: Path, text: string, random: string, plan: Plan)

  // The steps of the requested call that fail on a volume with these files.
  function FailingOf(r: Request, files: Files): set<Step> {
    var plan := Effective(r.plan, TempPath(r.out, r.random) in files);
    if r.safe then SafeFailing(plan) else EmitFailing(plan)
  }

  // The call is the one requested, and ends as its plan says on a volume with these files.
  ghost predicate Answers(c: Call, r: Request, files: Files) {
    var failing := FailingOf(r, files);
    && c.out == r.out && c.temp == TempPath(r.out, r.random) && c.text == r.text && EndsAtFirst(c.o, failing)
    && c.leaves == if r.safe then SafeLeaves(c.o, failing) else EmitLeaves(c.o, failing)
  }

  method Perform(v: Volume, r: Request) returns (c: Call)
    modifies v
    ensures Answers(c, r, old(v.files)) && Follows(v.files, old(v.files), c)
    ensures AlwaysOldOrNew(v.history, old(v.history), old(v.files), c.out, c.temp, c.text)
  {
    var failing, o := FailingOf(r, v.files), Returned;
    if r.safe {
      o := SafeWriteReportText(v, r.out, r.text, r.random, r.plan);
    } else {
      var stdout;
      o, stdout := EmitJsonPayload(v, r.text, Some(r.out), r.random, r.plan);
    }
    c := Call(r.out, TempPath(r.out, r.random), r.text, o,
              if r.safe then SafeLeaves(o, failing) else EmitLeaves(o, failing));
  }

  // The states recorded from mark i to the next belong to call i.
  ghost predicate During(history: seq<State>, lo: nat, hi: nat, was: Files, c: Call) {
    lo <= hi <= |history| && forall j :: lo <= j < hi ==> OldOrNew(history[j], was, c.out, c.temp, c.text)
  }

  ghost predicate Recorded(history: seq<State>, marks: seq<nat>, states: seq<Files>, calls: seq<Call>) {
    && |marks| == |states| == |calls| + 1 && marks[|calls|] == |history|
    && forall i :: 0 <= i < |calls| ==> During(history, marks[i], marks[i + 1], states[i], calls[i])
  }

  lemma {:induction false} RecordedOneMore(history: seq<State>, more: seq<State>, marks: seq<nat>, states: seq<Files>,
                                           calls: seq<Call>,
                        now: Files, c: Call)
    requires Recorded(history, marks, states, calls)
    requires AlwaysOldOrNew(more, history, states[|calls|], c.out, c.temp, c.text)
    ensures Recorded(more, marks + [|more|], states + [now], calls + [c])
  {
    forall i | 0 <= i < |calls| + 1
      ensures During(more, (marks + [|more|])[i], (marks + [|more|])[i + 1], (states + [now])[i], (calls + [c])[i])
    {
      if i < |calls| {
        assert During(history, marks[i], marks[i + 1], states[i], calls[i]);
        assert forall j :: 0 <= j < |history| ==> more[..|history|][j] == more[j];
      }
    }
  }

  // Any calls of either version, one after the other: they form a chain, all states on the
  // way are recorded, and a path at which no temporary file stays holds what Held says.
  method PerformAll(v: Volume, requests: seq<Request>)
    returns (calls: seq<Call>, ghost states: seq<Files>, ghost marks: seq<nat>)
    modifies v
    ensures |calls| == |requests| && Chain(states, calls) && states[0] == old(v.files) && states[|calls|] == v.files
    ensures forall i :: 0 <= i < |calls| ==> Answers(calls[i], requests[i], states[i])
    ensures Recorded(v.history, marks, states, calls) && marks[0] == |old(v.history)|
    ensures forall p :: Untouched(calls, p) ==> At(v.files, p) == Held(old(v.files), calls, |calls|, p)
  {
    calls, states, marks := [], [v.files], [|v.history|];
    for i := 0 to |requests|
      invariant |calls| == i && Chain(states, calls) && states[0] == old(v.files) && states[i] == v.files
      invariant forall k :: 0 <= k < i ==> Answers(calls[k], requests[k], states[k])
      invariant Recorded(v.history, marks, states, calls) && marks[0] == |old(v.history)|
    {
      ghost var history := v.history;
      var c := Perform(v, requests[i]);
      RecordedOneMore(history, v.history, marks, states, calls, v.files, c);
      calls, states, marks := calls + [c], states + [v.files], marks + [|v.history|];
    }
    forall p | Untouched(calls, p) ensures At(v.files, p) == Held(old(v.files), calls, |calls|, p) {
      LastReturnedCallWins(states, calls, |calls|, p);
    }
  }

  // At every recorded moment of such a run a path holds the text of the last call on it that
  // has returned, or, if it is the target of the call in progress, its complete text.
  lemma {:induction false} NeverTornInARun(history: seq<State>, marks: seq<nat>, states: seq<Files>, calls: seq<Call>,
                                           i: nat, j: nat, p: Path)
    requires Chain(states, calls) && Recorded(history, marks, states, calls) && Untouched(calls, p)
    requires i < |calls| && marks[i] <= j < marks[i + 1] && p != calls[i].temp
    ensures j < |history|
    ensures || At(history[j].files, p) == Held(states[0], calls, i, p)
            || (p == calls[i].out && At(history[j].files, p) == Some(calls[i].text) && p in history[j].synced)
  {
    assert During(history, marks[i], marks[i + 1], states[i], calls[i]);
    LastReturnedCallWins(states, calls, i, p);
    var moment := history[j];
    assert At(moment.files, p) == At(moment.files - {calls[i].temp}, p);
  }
}
