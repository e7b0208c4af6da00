// Prepared edits of the configuration file against writers that do not take its lock (Prepared in src/manager.rs).
module Manager {
  import opened Protocol

  type Text = string

  /** How one commit fares outside the revision check: whether the outputs it needs are there, how creating the backup
      goes (if it is created at all), and whether the file is replaced. A torn backup holds only part of the text. */
  datatype Backing = Saved | NotCreated | Torn(part: Text)
  datatype Fortune = Fortune(outputs: bool, backing: Backing, replaced: bool)

  /** An edit: revisions are digests, and digests of different texts differ, so a text stands for its revision. */
  datatype Edit = Edit(before: Text, next: Text, committed: bool, finished: bool)

  /** The file, its backup, and the edit that holds the lock. */
  datatype State = State(file: Text, backup: Option<Text>, edit: Option<Edit>)

  datatype Act =
    | Prepare(expected: Text, next: Text)
    | Commit(fortune: Fortune)
    | Finish
    | Abandon(written: bool)
    | External(text: Text)

  /** Only one edit holds the lock, and it is prepared only from the expected revision. */
  function Prepared(s: State, expected: Text, next: Text): State {
    if s.edit.None? && s.file == expected then s.(edit := Some(Edit(s.file, next, false, false))) else s
  }

  /** The commit and whether it succeeded. */
  function Committed(s: State, e: Edit, f: Fortune): (State, bool) {
    if !f.outputs || s.file != e.before then (s, false)
    else
      var backed :=
        if s.backup.Some? then s
        else match f.backing
          case Saved => s.(backup := Some(e.before))
          case NotCreated => s
          case Torn(part) => s.(backup := Some(part));
      if s.backup.None? && !f.backing.Saved? then (backed, false)
      else if !f.replaced then (backed, false)
      else (backed.(file := e.next, edit := Some(e.(committed := true))), true)
  }

  /** Leaving the edit's scope: an unfinished commit is rolled back if the file still holds exactly what it wrote. */
  function Left(s: State, e: Edit, written: bool): State {
    var released := s.(edit := None);
    if e.committed && !e.finished && s.file == e.next && written then released.(file := e.before) else released
  }

  function Do(s: State, a: Act): State {
    match a
    case Prepare(expected, next) => Prepared(s, expected, next)
    case Commit(fortune) =>
      if s.edit.Some? && !s.edit.value.finished then Committed(s, s.edit.value, fortune).0 else s
    case Finish => if s.edit.Some? then Left(s, s.edit.value.(finished := true), true) else s
    case Abandon(written) => if s.edit.Some? then Left(s, s.edit.value, written) else s
    case External(text) => s.(file := text)
  }

  function DoAll(s: State, acts: seq<Act>): State {
    if acts == [] then s else Do(DoAll(s, acts[..|acts| - 1]), acts[|acts| - 1])
  }

  // ---- What the program may replace ----

  /** Whatever the program does to the file, it replaces exactly the text an edit was prepared from by that edit's
      text, or rolls exactly that text back. */
  lemma ReplacesOnlyItsOwn(s: State, a: Act)
    requires Do(s, a).file != s.file && !a.External?
    ensures s.edit.Some?
    ensures var e := s.edit.value;
            || (a.Commit? && s.file == e.before && Do(s, a).file == e.next
                && Do(s, a).edit == Some(e.(committed := true)))
            || (a.Abandon? && e.committed && s.file == e.next && Do(s, a).file == e.before)
  {
  }

  predicate Foreign(s: State, text: Text) {
    s.edit.Some? ==> text != s.edit.value.before && text != s.edit.value.next
  }

  /** A text written by someone else, which is neither the text the edit started from nor its result, survives every
      continuation of the edit. */
  lemma {:induction false} ForeignTextSurvives(s: State, acts: seq<Act>)
    requires Foreign(s, s.file)
    requires forall k :: 0 <= k < |acts| ==> !acts[k].External? && !acts[k].Prepare?
    ensures DoAll(s, acts).file == s.file && Foreign(DoAll(s, acts), s.file)
    decreases |acts|
  {
    if acts != [] {
      ForeignTextSurvives(s, acts[..|acts| - 1]);
    }
  }

  /** An edit under way: while nobody else writes, the file holds the edit's text exactly when it was committed. */
  ghost predicate Undisturbed(s: State, e: Edit) {
    s.edit.Some? && s.edit.value == e.(committed := s.edit.value.committed) && !e.finished
    && s.file == if s.edit.value.committed then e.next else e.before
  }

  lemma {:induction false} UndisturbedStays(s: State, e: Edit, acts: seq<Act>)
    requires Undisturbed(s, e) && forall k :: 0 <= k < |acts| ==> acts[k].Commit? || acts[k].Prepare?
    ensures Undisturbed(DoAll(s, acts), e)
    decreases |acts|
  {
    if acts != [] {
      UndisturbedStays(s, e, acts[..|acts| - 1]);
    }
  }

  /** Without other writers an edit is all or nothing: whatever commits were tried, abandoning it restores the text it
      started from unless that very write fails, and finishing it keeps its text exactly if a commit succeeded. */
  lemma AllOrNothing(s: State, next: Text, acts: seq<Act>, last: Act)
    requires s.edit.None? && (last.Abandon? || last.Finish?)
    requires forall k :: 0 <= k < |acts| ==> acts[k].Commit? || acts[k].Prepare?
    ensures var start := Do(s, Prepare(s.file, next));
            var reached := DoAll(start, acts);
            var end := Do(reached, last);
            && start.edit.Some? && reached.edit.Some? && end.edit.None?
            && (last == Abandon(true) ==> end.file == s.file)
            && (last.Finish? || last == Abandon(false) ==>
                  end.file == if reached.edit.value.committed then next else s.file)
  {
    var start := Do(s, Prepare(s.file, next));
    UndisturbedStays(start, start.edit.value, acts);
  }

  // ---- The backup ----

  /** Once there, the backup never changes, whatever happens. */
  lemma {:induction false} BackupIsKept(s: State, acts: seq<Act>)
    requires s.backup.Some?
    ensures DoAll(s, acts).backup == s.backup
    decreases |acts|
  {
    if acts != [] {
      BackupIsKept(s, acts[..|acts| - 1]);
    }
  }

  /** A commit that gets past the output and revision checks. */
  predicate Tries(s: State, a: Act) {
    a.Commit? && s.edit.Some? && !s.edit.value.finished && a.fortune.outputs && s.file == s.edit.value.before
  }

  predicate Replaces(s: State, a: Act) {
    Tries(s, a) && Committed(s, s.edit.value, a.fortune).1
  }

  /** A commit that leaves the backup behind, whole or torn; one that could not even create it leaves it to a later
      one. */
  predicate Backs(s: State, a: Act) {
    Tries(s, a) && s.backup.None? && !a.fortune.backing.NotCreated?
  }

  /** What such a commit puts there. */
  function BackedText(file: Text, backing: Backing): Text
    requires !backing.NotCreated?
  {
    if backing.Torn? then backing.part else file
  }

  lemma {:induction false} Continue(s: State, acts: seq<Act>, k: nat)
    requires k <= |acts|
    ensures DoAll(s, acts) == DoAll(DoAll(s, acts[..k]), acts[k..])
    decreases |acts|
  {
    if k == |acts| {
      assert acts[..k] == acts && acts[k..] == [];
    } else {
      Continue(s, acts[..|acts| - 1], k);
      assert acts[..|acts| - 1][..k] == acts[..k];
      assert acts[..|acts| - 1][k..] == acts[k..][..|acts| - 1 - k];
    }
  }

  /** For every interleaving of edits and other writers: from the first commit on that gets past its checks and creates
      the backup, the backup is the text that commit found, or the part of it that was written. */
  lemma BackupIsTheFirstFound(s: State, acts: seq<Act>, k: nat)
    requires k < |acts| && Backs(DoAll(s, acts[..k]), acts[k])
    ensures DoAll(s, acts).backup == Some(BackedText(DoAll(s, acts[..k]).file, acts[k].fortune.backing))
  {
    assert acts[..k + 1][..k] == acts[..k];
    Continue(s, acts, k + 1);
    BackupIsKept(DoAll(s, acts[..k + 1]), acts[k + 1..]);
  }

  lemma BackupAppears(s: State, a: Act)
    ensures Do(s, a).backup.Some? <==> s.backup.Some? || Backs(s, a)
  {
  }

  /** Some commit of the run creates the backup. */
  ghost predicate SomeBacks(s: State, acts: seq<Act>) {
    exists k :: 0 <= k < |acts| && Backs(DoAll(s, acts[..k]), acts[k])
  }

  lemma SomeBacksNext(s: State, acts: seq<Act>)
    requires acts != []
    ensures var before := acts[..|acts| - 1];
            SomeBacks(s, acts) <==> SomeBacks(s, before) || Backs(DoAll(s, before), acts[|acts| - 1])
  {
    hide Backs, DoAll;
    var before := acts[..|acts| - 1];
    assert forall k :: 0 <= k < |before| ==> before[..k] == acts[..k] && before[k] == acts[k];
    if SomeBacks(s, before) {
      var k :| 0 <= k < |before| && Backs(DoAll(s, before[..k]), before[k]);
      assert Backs(DoAll(s, acts[..k]), acts[k]);
    }
  }

  /** And there is a backup exactly when there was one before the run or one of its commits created it. */
  lemma {:induction false} BackupExistsWhen(s: State, acts: seq<Act>)
    ensures DoAll(s, acts).backup.Some? <==> s.backup.Some? || SomeBacks(s, acts)
    decreases |acts|
  {
    hide Do, Backs, SomeBacks;
    if acts == [] {
      NothingBacks(s);
    } else {
      var before := acts[..|acts| - 1];
      BackupExistsWhen(s, before);
      SomeBacksNext(s, acts);
      BackupAppears(DoAll(s, before), acts[|acts| - 1]);
    }
  }

  lemma NothingBacks(s: State)
    ensures !SomeBacks(s, [])
  {
  }

  /** Whether the backup will hold the text that a successful commit replaces can be seen before that commit: exactly
      when no backup is there yet or the one there holds that text; and no later act changes the answer. */
  lemma BackupIsTheOriginal(s: State, acts: seq<Act>, k: nat)
    requires k < |acts| && Replaces(DoAll(s, acts[..k]), acts[k])
    ensures var found := DoAll(s, acts[..k]);
            DoAll(s, acts).backup == Some(found.file) <==> found.backup.None? || found.backup == Some(found.file)
  {
    assert acts[..k + 1][..k] == acts[..k];
    Continue(s, acts, k + 1);
    BackupIsKept(DoAll(s, acts[..k + 1]), acts[k + 1..]);
  }

  lemma Unrolled(s: State, acts: seq<Act>, k: nat)
    requires 0 < k <= |acts|
    ensures DoAll(s, acts[..k]) == Do(DoAll(s, acts[..k - 1]), acts[k - 1])
  {
    assert acts[..k][..k - 1] == acts[..k - 1];
  }

  /** A commit that fails after writing the backup breaks this: the backup then holds an older text than the one the
      first successful commit replaced. */
  lemma BackupMayBeOlder()
    ensures var s := State("a", None, None);
            var failing := Commit(Fortune(true, Saved, false));
            var acts := [Prepare("a", "b"), failing, Abandon(true), External("x"), Prepare("x", "y"),
                         Commit(Fortune(true, Saved, true))];
            && DoAll(s, acts[..5]).file == "x" && DoAll(s, acts).file == "y" && DoAll(s, acts).backup == Some("a")
  {
    var s := State("a", None, None);
    var failing := Commit(Fortune(true, Saved, false));
    var acts := [Prepare("a", "b"), failing, Abandon(true), External("x"), Prepare("x", "y"),
                 Commit(Fortune(true, Saved, true))];
    Unrolled(s, acts, 1);
    Unrolled(s, acts, 2);
    Unrolled(s, acts, 3);
    Unrolled(s, acts, 4);
    Unrolled(s, acts, 5);
    Unrolled(s, acts, 6);
    assert acts[..0] == [] && acts[..6] == acts;
    assert DoAll(s, acts[..2]) == State("a", Some("a"), Some(Edit("a", "b", false, false)));
    assert DoAll(s, acts[..5]) == State("x", Some("a"), Some(Edit("x", "y", false, false)));
  }

  // ---- The edit itself ----

  /** The configuration file and its backup, as anyone may change them. */
  class ConfigFile {
    var text: Text
    var backup: Option<Text>

    constructor (content: Text)
      ensures text == content && backup == None
    {
      text, backup := content, None;
    }
  }

  class PreparedEdit {
    const path: ConfigFile
    const before: Text
    const next: Text
    var committed: bool
    var finished: bool

    function View(): Edit
      reads this
    {
      Edit(before, next, committed, finished)
    }

    function Seen(): State
      reads this, path
    {
      State(path.text, path.backup, Some(View()))
    }

    constructor (file: ConfigFile, result: Text)
      ensures path == file && Seen() == Prepared(State(file.text, file.backup, None), file.text, result)
    {
      path, before, next := file, file.text, result;
      committed, finished := false, false;
    }

    method Commit(fortune: Fortune) returns (ok: bool)
      requires !finished
      modifies this`committed, path
      ensures (Seen(), ok) == Committed(old(Seen()), old(View()), fortune)
    {
      if !fortune.outputs || path.text != before {
        return false;
      }
      if path.backup.None? {
        match fortune.backing {
          case Saved => path.backup := Some(before);
          case NotCreated => return false;
          case Torn(part) =>
            path.backup := Some(part);
            return false;
        }
      }
      if !fortune.replaced {
        return false;
      }
      path.text := next;
      committed := true;
      return true;
    }

    method Finish()
      modifies this`finished
      ensures View() == old(View()).(finished := true)
    {
      finished := true;
    }

    /** Runs when the edit goes out of scope. */
    method Drop(written: bool)
      modifies path
      ensures State(path.text, path.backup, None) == Left(old(Seen()), View(), written)
    {
      if committed && !finished && path.text == next {
        if written {
          path.text := before;
        }
      }
    }
  }

  /** Saving settings, importing or selecting a peer: prepare against the expected revision, commit, finish. Either the
      whole new text is in the file, or the file is as it was. */
  method Save(file: ConfigFile, expected: Text, next: Text, fortune: Fortune) returns (ok: bool)
    modifies file
    ensures ok <==> old(file.text) == expected && fortune.outputs && fortune.replaced
                    && (old(file.backup).Some? || fortune.backing.Saved?)
    ensures file.text == if ok then next else old(file.text)
    ensures ok ==> file.backup == if old(file.backup).Some? then old(file.backup) else Some(expected)
  {
    if file.text != expected {
      return false;
    }
    var edit := new PreparedEdit(file, next);
    ok := edit.Commit(fortune);
    if ok {
      edit.Finish();
    }
    edit.Drop(true);
  }
}
